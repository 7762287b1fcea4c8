/** Exactly which profiles the normaliser accepts, and what it makes of them. */
module ProfileAccepts {
  import opened Options
  import opened Selections
  import opened ProfileLists
  import opened ProfileItems
  import opened ProfileNormal
  import opened ProfileKept
  import opened ProfileNormaliser
  import opened ProfileLeaves
  import ProfileSettings
  import StorageEngine

  /** An import state that may be stored: a generation of at most a billion, at most a hundred ids still to be handled
      and a hundred results, all of them valid, and a valid receipt if there is one. */
  ghost predicate GoodImport(r: Rules, i: StorageEngine.ImportState) {
    && i.generation <= 1_000_000_000
    && (i.pending.Some? ==> |i.pending.value| <= 100 && forall id | id in i.pending.value :: r.guards.safeId(id))
    && (i.extensions.Some? ==> |i.extensions.value| <= 100 && forall e | e in i.extensions.value :: r.resultOk(e))
    && (i.receipt.Some? ==> r.receiptOk(i.receipt.value))
  }

  lemma {:induction false} GoodImportIff(r: Rules, i: StorageEngine.ImportState)
    ensures ImportStateOk(r, i) <==> GoodImport(r, i)
  {
  }

  /** No stored list has more than twice the records that are kept of it. */
  predicate ListsFit(p: Lists) {
    && |p.workspaces| <= 200 && |p.tabGroups| <= 600 && |p.tabs| <= 2_400 && |p.closedTabs| <= 160 && |p.sites| <= 600 && |p.snapshots| <= 200
    && |p.plain.bookmarks| <= 10_000 && |p.plain.bookmarkFolders| <= 2_000 && |p.plain.history| <= 2_400 && |p.plain.notes| <= 2_000
    && |p.plain.readingList| <= 2_400 && |p.plain.quickLinks| <= 48 && |p.plain.todos| <= 600 && |p.plain.macros| <= 400
    && |p.plain.macroLogs| <= 500 && |p.plain.recentCommandIds| <= 64
  }

  lemma {:induction false} ListsFitIff(p: Lists)
    ensures ListsShaped(p) <==> ListsFit(p)
  {
  }

  /** A profile is normalised exactly when its lists fit, the downloads among them, and its import state, if it has one,
      may be stored. */
  lemma {:induction false} NormalizesIff(r: Rules, p: StorageEngine.Profile)
    requires Usable(r)
    ensures NormalizeProfile(r, p).Some? <==>
      ListsFit(p.lists) && |p.downloads| <= 500 && (p.importState.Some? ==> GoodImport(r, p.importState.value))
  {
    ListsFitIff(p.lists);
    if p.importState.Some? {
      GoodImportIff(r, p.importState.value);
    }
  }

  function GoodDownload(g: Guards): StorageEngine.Download -> bool {
    (d: StorageEngine.Download) => d.rest.valid && g.safeId(d.id) && d.rest.size <= 16_384
  }

  /** What a stored profile is migrated to. */
  ghost predicate IsMigrated(r: Rules, p: StorageEngine.Profile, q: StorageEngine.Profile) {
    && q.schemaVersion == 9
    && q.importState == p.importState
    && Selects(First(p.downloads, 250), GoodDownload(r.guards), q.downloads)
    && AreLists(r.guards, r.defaults, p.lists, q.lists)
    && AreSettings(r.basis, p.onboarding == ProfileSettings.Absent || p.onboarding == ProfileSettings.Stored(true), r.now, p.settings, q.settings)
    && q.onboarding == ProfileSettings.Stored(if p.onboarding.Stored? then p.onboarding.completed else p.schemaVersion >= 9)
  }

  lemma {:induction false} DownloadsKept(g: Guards, downloads: seq<StorageEngine.Download>)
    ensures Selects(First(downloads, 250), GoodDownload(g), KeptDownloads(g, downloads))
  {
    var first := First(downloads, 250);
    assert first == Take(downloads, 250);
    FilterSelects(first, PassingDownload(g));
    SelectsSame(first, PassingDownload(g), GoodDownload(g), KeptDownloads(g, downloads));
  }

  /** The migration, part by part. */
  lemma {:induction false} MigrateIs(r: Rules, p: StorageEngine.Profile)
    requires Usable(r) && ProfileSettings.BasisOk(r.basis)
    ensures IsMigrated(r, p, Migrate(r, p))
  {
    DownloadsKept(r.guards, p.downloads);
    NormalizedKeeps(r.guards, r.defaults, p.lists);
    OnboardingIs(r.basis, p.onboarding, p.schemaVersion, r.now, p.settings);
  }

  lemma {:induction false} OneResult(r: Rules, e: StorageEngine.ExtensionReceipt)
    ensures ResultsOk(r, Some([e])) <==> r.resultOk(e)
  {
    assert [e][0] == e;
  }

  /** The tests the engine applies to an import's receipt and to one of its results. */
  lemma {:induction false} EnvChecks(r: Rules, generation: nat, receipt: StorageEngine.ImportReceipt,
                                     e: StorageEngine.ExtensionReceipt)
    ensures EnvOf(r).validReceipt(generation, receipt) <==> generation <= 1_000_000_000 && r.receiptOk(receipt)
    ensures EnvOf(r).validExtension(e) <==> r.guards.safeId(e.id) && r.resultOk(e)
    ensures EnvOf(r).initial == r.initial && EnvOf(r).schema == 9
  {
    OneResult(r, e);
  }
}
