/** When normalising twice is normalising once. */
module ProfileIdempotent {
  import opened Options
  import opened ProfileLists
  import opened ProfileItems
  import opened ProfileNormal

  // ---- The room the migrations need ----

  function FirstWorkspaces(g: Guards, p: Lists): seq<Workspace> {
    Filter(Kept(p.workspaces, 100, PassingWorkspace(g)), Anywhere())
  }

  function FirstSnapshots(g: Guards, p: Lists): seq<Snapshot> {
    Filter(Kept(p.snapshots, 100, PassingSnapshot(g)), Anywhere())
  }

  /** Every workspace that is kept has room for an added identity. */
  ghost predicate WorkspacesFit(g: Guards, p: Lists) {
    forall w | w in FirstWorkspaces(g, p) :: WorkspaceRoom(w)
  }

  /** Every tab, closed tab and snapshot that is kept has room for its new title and address. */
  ghost predicate PagesFit(g: Guards, d: Defaults, p: Lists)
    requires d.workspaces != []
  {
    var ids := WorkspaceIds(Workspaces(g, d, p));
    && (forall t | t in KeptTabs(g, p.tabs, ids, GroupIds(Groups(p.tabGroups, ids))) :: TabRoom(g, t))
    && (forall t | t in KeptClosed(g, p.closedTabs, ids) :: ClosedRoom(g, t))
    && (forall s | s in FirstSnapshots(g, p) :: SnapshotRoom(g, s))
  }

  ghost predicate Headroom(g: Guards, d: Defaults, p: Lists)
    requires d.workspaces != []
  {
    WorkspacesFit(g, p) && PagesFit(g, d, p)
  }

  // ---- List by list ----

  lemma {:induction false} FilterAnywhere<T>(s: seq<T>)
    ensures Filter(s, Anywhere()) == s
  {
    FilterIs(s, Anywhere());
  }

  lemma {:induction false} WorkspacesTwice(g: Guards, d: Defaults, p: Lists)
    requires DefaultsOk(g, d)
    ensures var q := Normalize(g, d, p); Workspaces(g, d, q) == q.workspaces <==> WorkspacesFit(g, p)
  {
    var q := Normalize(g, d, p);
    if FirstWorkspaces(g, p) == [] {
      DefaultsStay(g, d);
    } else {
      KeptWorkspacesTwice(g, d, p);
    }
  }

  lemma {:induction false} DefaultsStay(g: Guards, d: Defaults)
    requires DefaultsOk(g, d)
    ensures Pass(d.workspaces, 100, PassingWorkspace(g), Anywhere(), AddIdentity) == d.workspaces
  {
    FilterIs(d.workspaces, PassingWorkspace(g));
    FilterAnywhere(d.workspaces);
    MapFixed(d.workspaces, AddIdentity);
  }

  lemma {:induction false} KeptWorkspacesTwice(g: Guards, d: Defaults, p: Lists)
    requires DefaultsOk(g, d) && FirstWorkspaces(g, p) != []
    ensures var q := Normalize(g, d, p); Workspaces(g, d, q) == q.workspaces <==> WorkspacesFit(g, p)
  {
    var once := Pass(p.workspaces, 100, PassingWorkspace(g), Anywhere(), AddIdentity);
    var again := Pass(once, 100, PassingWorkspace(g), Anywhere(), AddIdentity);
    PassTwice(p.workspaces, 100, PassingWorkspace(g), Anywhere(), AddIdentity);
    SecondPass(p.workspaces, 100, PassingWorkspace(g), Anywhere(), AddIdentity);
    PassIs(p.workspaces, 100, PassingWorkspace(g), Anywhere());
    forall w | w in FirstWorkspaces(g, p) ensures WorkspaceOk(g, AddIdentity(w)) <==> WorkspaceRoom(w) {
      WorkspacePassesAgain(g, w);
    }
    FilterIs(once, PassingWorkspace(g));
    assert forall w | w in d.workspaces :: PassingWorkspace(g)(w);
  }

  lemma {:induction false} GroupsTwice(groups: seq<TabGroup>, ids: set<string>)
    ensures Groups(Groups(groups, ids), ids) == Groups(groups, ids)
  {
    var once := Groups(groups, ids);
    PassIs(groups, 300, GroupOk, GroupIn(ids));
    FilterIs(once, GroupOk);
    FilterIs(once, GroupIn(ids));
  }

  lemma {:induction false} TabsTwice(g: Guards, tabs: seq<Tab>, ids: set<string>, groups: set<string>)
    requires Lawful(g)
    ensures var once := Map(KeptTabs(g, tabs, ids, groups), MigrateTab);
      Map(KeptTabs(g, once, ids, groups), MigrateTab) == once <==> forall t | t in KeptTabs(g, tabs, ids, groups) :: TabRoom(g, t)
  {
    forall t | PassingTab(g)(t) && TabIn(ids, groups)(t)
      ensures TabIn(ids, groups)(MigrateTab(t)) && MigrateTab(MigrateTab(t)) == MigrateTab(t)
    {
      TabPassesAgain(g, t);
    }
    PassTwice(tabs, 1200, PassingTab(g), TabIn(ids, groups), MigrateTab);
    PassIs(tabs, 1200, PassingTab(g), TabIn(ids, groups));
    forall t | t in KeptTabs(g, tabs, ids, groups) ensures PassingTab(g)(MigrateTab(t)) <==> TabRoom(g, t) {
      TabPassesAgain(g, t);
    }
  }

  lemma {:induction false} ClosedTwice(g: Guards, tabs: seq<ClosedTab>, ids: set<string>)
    requires Lawful(g)
    ensures var once := Map(KeptClosed(g, tabs, ids), MigrateClosed);
      Map(KeptClosed(g, once, ids), MigrateClosed) == once <==> forall t | t in KeptClosed(g, tabs, ids) :: ClosedRoom(g, t)
  {
    forall t | PassingClosed(g)(t) && ClosedIn(ids)(t)
      ensures ClosedIn(ids)(MigrateClosed(t)) && MigrateClosed(MigrateClosed(t)) == MigrateClosed(t)
    {
      ClosedPassesAgain(g, t);
    }
    PassTwice(tabs, 80, PassingClosed(g), ClosedIn(ids), MigrateClosed);
    PassIs(tabs, 80, PassingClosed(g), ClosedIn(ids));
    forall t | t in KeptClosed(g, tabs, ids) ensures PassingClosed(g)(MigrateClosed(t)) <==> ClosedRoom(g, t) {
      ClosedPassesAgain(g, t);
    }
  }

  lemma {:induction false} SnapshotsTwice(g: Guards, p: Lists)
    requires Lawful(g)
    ensures var once := Pass(p.snapshots, 100, PassingSnapshot(g), Anywhere(), MigrateSnapshot);
      Pass(once, 100, PassingSnapshot(g), Anywhere(), MigrateSnapshot) == once <==>
      forall s | s in FirstSnapshots(g, p) :: SnapshotRoom(g, s)
  {
    forall s | PassingSnapshot(g)(s) && Anywhere<Snapshot>()(s)
      ensures Anywhere<Snapshot>()(MigrateSnapshot(s)) && MigrateSnapshot(MigrateSnapshot(s)) == MigrateSnapshot(s)
    {
      SnapshotPassesAgain(g, s);
    }
    PassTwice(p.snapshots, 100, PassingSnapshot(g), Anywhere(), MigrateSnapshot);
    PassIs(p.snapshots, 100, PassingSnapshot(g), Anywhere());
    forall s | s in FirstSnapshots(g, p) ensures PassingSnapshot(g)(MigrateSnapshot(s)) <==> SnapshotRoom(g, s) {
      SnapshotPassesAgain(g, s);
    }
  }

  lemma {:induction false} SitesTwice(sites: seq<Site>)
    ensures var once := Pass(sites, 300, SiteOk, Anywhere(), StripSite); Pass(once, 300, SiteOk, Anywhere(), StripSite) == once
  {
    PassTwice(sites, 300, SiteOk, Anywhere(), StripSite);
    PassIs(sites, 300, SiteOk, Anywhere());
  }

  lemma {:induction false} KeptTwice(s: seq<Rest>, limit: nat, max: nat)
    ensures Kept(Kept(s, limit, Within(max)), limit, Within(max)) == Kept(s, limit, Within(max))
  {
    KeptIs(s, limit, Within(max));
    KeptAgain(Kept(s, limit, Within(max)), limit, Within(max));
  }

  lemma {:induction false} PlainTwice(p: PlainLists)
    ensures Plain(Plain(p)) == Plain(p)
  {
    KeptTwice(p.bookmarks, 5000, 16 * KILO);
    KeptTwice(p.bookmarkFolders, 1000, 8 * KILO);
    KeptTwice(p.history, 1200, 16 * KILO);
    KeptTwice(p.notes, 1000, 256 * KILO);
    KeptTwice(p.readingList, 1200, 24 * KILO);
    KeptTwice(p.quickLinks, 24, 8 * KILO);
    KeptTwice(p.todos, 300, 8 * KILO);
    KeptTwice(p.macros, 200, 64 * KILO);
    KeptTwice(p.macroLogs, 250, 16 * KILO);
    KeptTwice(p.recentCommandIds, 32, KILO);
  }

  // ---- The active workspace and the split view ----

  lemma {:induction false} ActiveTwice(id: string, workspaces: seq<Workspace>, fallback: string)
    requires workspaces != []
    ensures var active := ActiveId(id, workspaces, fallback);
      FindWorkspace(workspaces, active).Some? && ActiveId(active, workspaces, fallback) == active
  {
    ActiveIdExists(id, workspaces, fallback);
    FoundWorkspace(workspaces, ActiveId(id, workspaces, fallback));
  }

  /** The ids of an enabled split view find the same tabs again. */
  lemma {:induction false} SplitTwice(g: Guards, split: SplitView, active: Option<Workspace>, tabs: seq<Tab>,
                                      later: Option<Workspace>)
    requires forall t | t in tabs :: g.safeId(t.id)
    requires active.Some? ==> later == active
    ensures var once := Split(g, split, active, tabs); Split(g, once, later, tabs) == once
  {
    var once := Split(g, split, active, tabs);
    if once.enabled {
      var wanted := ValidId(g, split.primaryTabId);
      FoundTab(tabs, if wanted.Some? then wanted else active.value.activeTabId);
      FoundTab(tabs, ValidId(g, split.secondaryTabId));
    }
  }

  lemma {:induction false} NormalTabsAreSafe(g: Guards, tabs: seq<Tab>, ids: set<string>, groups: set<string>)
    ensures forall t | t in Map(KeptTabs(g, tabs, ids, groups), MigrateTab) :: g.safeId(t.id)
  {
    var kept := KeptTabs(g, tabs, ids, groups);
    PassIs(tabs, 1200, PassingTab(g), TabIn(ids, groups));
    forall t | t in Map(kept, MigrateTab) ensures g.safeId(t.id) {
      var i :| 0 <= i < |kept| && t == MigrateTab(kept[i]);
      assert kept[i] in kept;
    }
  }

  // ---- The whole profile ----

  /** With the same workspaces and tabs a second pass finds the same active workspace and split view. */
  lemma {:induction false} ViewTwice(g: Guards, d: Defaults, p: Lists)
    requires d.workspaces != []
    requires var q := Normalize(g, d, p); Workspaces(g, d, q) == q.workspaces && Normalize(g, d, q).tabs == q.tabs
    ensures var q := Normalize(g, d, p); var r := Normalize(g, d, q);
      r.activeWorkspaceId == q.activeWorkspaceId && r.splitView == q.splitView
  {
    var q := Normalize(g, d, p);
    var wanted := ActiveId(p.activeWorkspaceId, p.workspaces, d.activeWorkspaceId);
    var ids := WorkspaceIds(q.workspaces);
    ActiveTwice(wanted, q.workspaces, d.activeWorkspaceId);
    NormalTabsAreSafe(g, p.tabs, ids, GroupIds(q.tabGroups));
    SplitTwice(g, p.splitView, FindWorkspace(q.workspaces, wanted), q.tabs, FindWorkspace(q.workspaces, q.activeWorkspaceId));
  }

  /** Once the workspaces stay, the second pass changes nothing exactly when the pages fit. */
  lemma {:induction false} PagesTwice(g: Guards, d: Defaults, p: Lists)
    requires Lawful(g) && d.workspaces != []
    requires var q := Normalize(g, d, p); Workspaces(g, d, q) == q.workspaces
    ensures var q := Normalize(g, d, p); var r := Normalize(g, d, q);
      && r.workspaces == q.workspaces && r.tabGroups == q.tabGroups && r.sites == q.sites && r.plain == q.plain
      && (r.tabs == q.tabs && r.closedTabs == q.closedTabs && r.snapshots == q.snapshots <==> PagesFit(g, d, p))
  {
    var q := Normalize(g, d, p);
    var ids := WorkspaceIds(q.workspaces);
    GroupsTwice(p.tabGroups, ids);
    TabsTwice(g, p.tabs, ids, GroupIds(q.tabGroups));
    ClosedTwice(g, p.closedTabs, ids);
    SnapshotsTwice(g, p);
    SitesTwice(p.sites);
    PlainTwice(p.plain);
  }

  /** Normalising is idempotent exactly on the profiles whose kept records have room for what the
      pass adds to them: a workspace identity, a longer title, a replaced address. */
  lemma {:induction false} IdempotentIff(g: Guards, d: Defaults, p: Lists)
    requires Lawful(g) && DefaultsOk(g, d)
    ensures Normalize(g, d, Normalize(g, d, p)) == Normalize(g, d, p) <==> Headroom(g, d, p)
  {
    var q := Normalize(g, d, p);
    WorkspacesTwice(g, d, p);
    if Workspaces(g, d, q) == q.workspaces {
      PagesTwice(g, d, p);
      if Normalize(g, d, q).tabs == q.tabs {
        ViewTwice(g, d, p);
      }
    }
  }

  const NO_LISTS := PlainLists([], [], [], [], [], [], [], [], [], [])

  /** A profile with one workspace that fills its limit without an identity. */
  function FullWorkspaceProfile(id: string): Lists {
    Lists(id, [Workspace(id, None, false, None, Rest(true, 24 * KILO, ""))], [], [], [], [], [], NO_LISTS, CLOSED, Rest(true, 0, ""))
  }

  /** An input on which normalising twice differs: the added identity makes the workspace too large to keep. */
  lemma {:induction false} FullWorkspaceIsLost(g: Guards, d: Defaults, id: string)
    requires Lawful(g) && DefaultsOk(g, d) && g.safeId(id)
    ensures var p := FullWorkspaceProfile(id); Normalize(g, d, Normalize(g, d, p)) != Normalize(g, d, p)
  {
    var p := FullWorkspaceProfile(id);
    var w := p.workspaces[0];
    assert PassingWorkspace(g)(w) && Anywhere<Workspace>()(w);
    FilterHas(p.workspaces, PassingWorkspace(g), w);
    FilterHas(Kept(p.workspaces, 100, PassingWorkspace(g)), Anywhere(), w);
    IdempotentIff(g, d, p);
  }
}
