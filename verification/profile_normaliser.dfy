/** The normaliser of the storage engine: the shape test and the migration of a whole profile. */
module ProfileNormaliser {
  import opened Options
  import opened ProfileLists
  import opened ProfileItems
  import opened ProfileNormal
  import opened ProfileIdempotent
  import ProfileSettings
  import StorageEngine

  /** The field tests, the defaults, and the date given to a stored permission without one. */
  datatype Rules = Rules(
    guards: Guards, defaults: Defaults, basis: ProfileSettings.Basis, now: real, initial: StorageEngine.Profile,
    receiptOk: StorageEngine.ImportReceipt -> bool, resultOk: StorageEngine.ExtensionReceipt -> bool)

  /** There is a default workspace and a default for every lab. */
  predicate Usable(r: Rules) {
    r.defaults.workspaces != [] && |r.basis.defaults.labs| == ProfileSettings.LABS
  }

  ghost predicate RulesOk(r: Rules) {
    && Usable(r)
    && Lawful(r.guards) && DefaultsOk(r.guards, r.defaults) && ProfileSettings.BasisOk(r.basis)
    && r.initial.importState == None
  }

  // ---- The shape test ----

  const MAX_GENERATION: nat := 1_000_000_000

  predicate IdsOk(g: Guards, ids: Option<seq<string>>) {
    ids.Some? ==> |ids.value| <= 100 && forall i | 0 <= i < |ids.value| :: g.safeId(ids.value[i])
  }

  predicate ResultsOk(r: Rules, results: Option<seq<StorageEngine.ExtensionReceipt>>) {
    results.Some? ==> |results.value| <= 100 && forall i | 0 <= i < |results.value| :: r.resultOk(results.value[i])
  }

  predicate ImportStateOk(r: Rules, i: StorageEngine.ImportState) {
    && i.generation <= MAX_GENERATION
    && IdsOk(r.guards, i.pending) && ResultsOk(r, i.extensions)
    && (i.receipt.Some? ==> r.receiptOk(i.receipt.value))
  }

  /** Stored lists may be twice as long as the kept ones. */
  predicate ListsShaped(p: Lists) {
    && |p.workspaces| <= 2 * 100 && |p.tabGroups| <= 2 * 300 && |p.tabs| <= 2 * 1200 && |p.closedTabs| <= 2 * 80
    && |p.sites| <= 2 * 300 && |p.snapshots| <= 2 * 100
    && PlainShaped(p.plain)
  }

  predicate PlainShaped(p: PlainLists) {
    && |p.bookmarks| <= 2 * 5000 && |p.bookmarkFolders| <= 2 * 1000 && |p.history| <= 2 * 1200 && |p.notes| <= 2 * 1000
    && |p.readingList| <= 2 * 1200 && |p.quickLinks| <= 2 * 24 && |p.todos| <= 2 * 300 && |p.macros| <= 2 * 200
    && |p.macroLogs| <= 2 * 250 && |p.recentCommandIds| <= 2 * 32
  }

  predicate Shaped(r: Rules, p: StorageEngine.Profile) {
    ListsShaped(p.lists) && |p.downloads| <= 2 * 250 && (p.importState.Some? ==> ImportStateOk(r, p.importState.value))
  }

  // ---- The migration ----

  predicate DownloadGuard(g: Guards, d: StorageEngine.Download) {
    d.rest.valid && g.safeId(d.id)
  }

  function PassingDownload(g: Guards): StorageEngine.Download -> bool {
    (d: StorageEngine.Download) => DownloadGuard(g, d) && d.rest.size <= 16 * KILO
  }

  function KeptDownloads(g: Guards, downloads: seq<StorageEngine.Download>): seq<StorageEngine.Download> {
    Kept(downloads, 250, PassingDownload(g))
  }

  function Migrate(r: Rules, p: StorageEngine.Profile): StorageEngine.Profile
    requires Usable(r)
  {
    var migrated := ProfileSettings.MigrateSettings(r.basis, p.onboarding, p.schemaVersion, r.now, p.settings);
    StorageEngine.Profile(
      ProfileSettings.SCHEMA_VERSION, p.importState, KeptDownloads(r.guards, p.downloads), Normalize(r.guards, r.defaults, p.lists),
      migrated.settings, migrated.onboarding)
  }

  function NormalizeProfile(r: Rules, p: StorageEngine.Profile): Option<StorageEngine.Profile> {
    if Usable(r) && Shaped(r, p) then Some(Migrate(r, p)) else None
  }

  /** The environment the engine runs in. */
  function EnvOf(r: Rules): StorageEngine.Env {
    StorageEngine.Env(
      (p: StorageEngine.Profile) => NormalizeProfile(r, p),
      (downloads: seq<StorageEngine.Download>) => KeptDownloads(r.guards, downloads),
      (generation: nat, receipt: StorageEngine.ImportReceipt) =>
        ImportStateOk(r, StorageEngine.ImportState(generation, StorageEngine.ExtensionsPending, Some(receipt), None, None)),
      (result: StorageEngine.ExtensionReceipt) =>
        r.guards.safeId(result.id)
        && ImportStateOk(r, StorageEngine.ImportState(0, StorageEngine.ExtensionsPending, None, None, Some([result]))),
      r.initial, ProfileSettings.SCHEMA_VERSION)
  }

  /** The normaliser is as the engine expects it. */
  lemma {:induction false} EnvIsLawful(r: Rules)
    requires RulesOk(r)
    ensures StorageEngine.Lawful(EnvOf(r))
  {
    forall p, q | EnvOf(r).normalize(p) == Some(q)
      ensures q.importState == p.importState && q.downloads == EnvOf(r).validDownloads(p.downloads)
      ensures q.schemaVersion == EnvOf(r).schema
    {
    }
  }

  // ---- Normalising again ----

  lemma {:induction false} PlainIsShaped(p: PlainLists)
    ensures PlainShaped(Plain(p))
  {
    KeptIs(p.bookmarks, 5000, Within(16 * KILO));
    KeptIs(p.bookmarkFolders, 1000, Within(8 * KILO));
    KeptIs(p.history, 1200, Within(16 * KILO));
    KeptIs(p.notes, 1000, Within(256 * KILO));
    KeptIs(p.readingList, 1200, Within(24 * KILO));
    KeptIs(p.quickLinks, 24, Within(8 * KILO));
    KeptIs(p.todos, 300, Within(8 * KILO));
    KeptIs(p.macros, 200, Within(64 * KILO));
    KeptIs(p.macroLogs, 250, Within(16 * KILO));
    KeptIs(p.recentCommandIds, 32, Within(KILO));
  }

  lemma {:induction false} ListsAreShaped(g: Guards, d: Defaults, p: Lists)
    requires DefaultsOk(g, d)
    ensures ListsShaped(Normalize(g, d, p))
  {
    PlainIsShaped(p.plain);
    PassIs(p.workspaces, 100, PassingWorkspace(g), Anywhere());
    var ids := WorkspaceIds(Workspaces(g, d, p));
    PassIs(p.tabGroups, 300, GroupOk, GroupIn(ids));
    PassIs(p.tabs, 1200, PassingTab(g), TabIn(ids, GroupIds(Groups(p.tabGroups, ids))));
    PassIs(p.closedTabs, 80, PassingClosed(g), ClosedIn(ids));
    PassIs(p.sites, 300, SiteOk, Anywhere());
    PassIs(p.snapshots, 100, PassingSnapshot(g), Anywhere());
  }

  lemma {:induction false} MigratedIsShaped(r: Rules, p: StorageEngine.Profile)
    requires RulesOk(r) && Shaped(r, p)
    ensures Shaped(r, Migrate(r, p))
  {
    ListsAreShaped(r.guards, r.defaults, p.lists);
    KeptIs(p.downloads, 250, PassingDownload(r.guards));
  }

  lemma {:induction false} DownloadsTwice(g: Guards, downloads: seq<StorageEngine.Download>)
    ensures KeptDownloads(g, KeptDownloads(g, downloads)) == KeptDownloads(g, downloads)
  {
    KeptIs(downloads, 250, PassingDownload(g));
    KeptAgain(KeptDownloads(g, downloads), 250, PassingDownload(g));
  }

  /** The profiles agree in all fields but the lists. */
  predicate SameBesidesLists(p: StorageEngine.Profile, q: StorageEngine.Profile) {
    p == q.(lists := p.lists)
  }

  lemma {:induction false} OnlyListsDiffer(p: StorageEngine.Profile, q: StorageEngine.Profile)
    requires SameBesidesLists(p, q)
    ensures p == q <==> p.lists == q.lists
  {
  }

  /** A second migration, at any later time, can only change the lists. */
  lemma {:induction false} SecondMigration(r: Rules, p: StorageEngine.Profile, later: real)
    requires RulesOk(r)
    ensures SameBesidesLists(Migrate(r.(now := later), Migrate(r, p)), Migrate(r, p))
  {
    ProfileSettings.MigrateSettingsTwice(r.basis, p.onboarding, p.schemaVersion, r.now, p.settings, ProfileSettings.SCHEMA_VERSION, later);
    DownloadsTwice(r.guards, p.downloads);
  }

  lemma {:induction false} SecondMigrationLists(r: Rules, p: StorageEngine.Profile, later: real)
    requires Usable(r)
    ensures Migrate(r, p).lists == Normalize(r.guards, r.defaults, p.lists)
    ensures Migrate(r.(now := later), Migrate(r, p)).lists == Normalize(r.guards, r.defaults, Normalize(r.guards, r.defaults, p.lists))
  {
  }

  lemma {:induction false} NormalizedIs(r: Rules, p: StorageEngine.Profile, later: real)
    requires RulesOk(r) && Shaped(r, p)
    ensures NormalizeProfile(r.(now := later), Migrate(r, p)) == Some(Migrate(r.(now := later), Migrate(r, p)))
  {
    MigratedIsShaped(r, p);
    assert Shaped(r.(now := later), Migrate(r, p));
  }

  /** A whole profile, settings and onboarding included, is normalised to itself again, at any later
      time, exactly when every record kept of it has room for what the migration adds. */
  lemma {:induction false} NormalizedTwiceIff(r: Rules, p: StorageEngine.Profile, later: real)
    requires RulesOk(r) && Shaped(r, p)
    ensures NormalizeProfile(r.(now := later), Migrate(r, p)) == Some(Migrate(r, p)) <==> Headroom(r.guards, r.defaults, p.lists)
  {
    NormalizedIs(r, p, later);
    SecondMigration(r, p, later);
    SecondMigrationLists(r, p, later);
    OnlyListsDiffer(Migrate(r.(now := later), Migrate(r, p)), Migrate(r, p));
    IdempotentIff(r.guards, r.defaults, p.lists);
  }
}
