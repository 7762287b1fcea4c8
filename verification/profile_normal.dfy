/** The profile normaliser: bounded lists, references between them, the split view and the
    active workspace. */
module ProfileNormal {
  import opened Options
  import opened ProfileLists
  import opened ProfileItems

  /** The lists that are bounded and nothing else. */
  datatype PlainLists = PlainLists(
    bookmarks: seq<Rest>, bookmarkFolders: seq<Rest>, history: seq<Rest>, notes: seq<Rest>,
    readingList: seq<Rest>, quickLinks: seq<Rest>, todos: seq<Rest>, macros: seq<Rest>, macroLogs: seq<Rest>,
    recentCommandIds: seq<Rest>)

  datatype SplitView = SplitView(enabled: bool, primaryTabId: Option<string>, secondaryTabId: Option<string>, ratio: real)

  /** The lists of a profile with what refers to them; `carried` stands for the fields that are carried over. */
  datatype Lists = Lists(
    activeWorkspaceId: string, workspaces: seq<Workspace>, tabGroups: seq<TabGroup>, tabs: seq<Tab>, closedTabs: seq<ClosedTab>,
    sites: seq<Site>, snapshots: seq<Snapshot>, plain: PlainLists, splitView: SplitView,
    carried: Rest)

  /** The default workspaces that replace an empty list. */
  datatype Defaults = Defaults(workspaces: seq<Workspace>, activeWorkspaceId: string)

  ghost predicate DefaultsOk(g: Guards, d: Defaults) {
    && 0 < |d.workspaces| <= 100
    && forall w | w in d.workspaces :: WorkspaceOk(g, w) && w.identity.Some?
  }

  // ---- The tests, as functions ----

  function PassingWorkspace(g: Guards): Workspace -> bool {
    (w: Workspace) => WorkspaceOk(g, w)
  }

  function PassingTab(g: Guards): Tab -> bool {
    (t: Tab) => TabOk(g, t)
  }

  function PassingClosed(g: Guards): ClosedTab -> bool {
    (t: ClosedTab) => ClosedOk(g, t)
  }

  function PassingSnapshot(g: Guards): Snapshot -> bool {
    (s: Snapshot) => SnapshotOk(g, s)
  }

  function GroupIn(workspaces: set<string>): TabGroup -> bool {
    (t: TabGroup) => t.workspaceId in workspaces
  }

  function TabIn(workspaces: set<string>, groups: set<string>): Tab -> bool {
    (t: Tab) => Placed(t, workspaces, groups)
  }

  function ClosedIn(workspaces: set<string>): ClosedTab -> bool {
    (t: ClosedTab) => t.workspaceId in workspaces
  }

  /** The place of records that refer to nothing. */
  function Anywhere<T>(): T -> bool {
    (x: T) => true
  }

  // ---- The lists ----

  function Workspaces(g: Guards, d: Defaults, p: Lists): (r: seq<Workspace>)
    requires d.workspaces != []
    ensures r != []
  {
    var kept := Pass(p.workspaces, 100, PassingWorkspace(g), Anywhere(), AddIdentity);
    if kept == [] then d.workspaces else kept
  }

  function WorkspaceIds(workspaces: seq<Workspace>): set<string> {
    set w | w in workspaces :: w.id
  }

  function GroupIds(groups: seq<TabGroup>): set<string> {
    set t | t in groups :: t.id
  }

  function Groups(groups: seq<TabGroup>, workspaces: set<string>): seq<TabGroup> {
    Filter(Kept(groups, 300, GroupOk), GroupIn(workspaces))
  }

  /** The tab's workspace, its identity's workspace and its group exist. */
  predicate Placed(t: Tab, workspaces: set<string>, groups: set<string>) {
    && t.workspaceId in workspaces
    && (t.identityWorkspaceId.None? || t.identityWorkspaceId.value == "" || t.identityWorkspaceId.value in workspaces)
    && (t.groupId.None? || t.groupId.value == "" || t.groupId.value in groups)
  }

  function KeptTabs(g: Guards, tabs: seq<Tab>, workspaces: set<string>, groups: set<string>): seq<Tab> {
    Filter(Kept(tabs, 1200, PassingTab(g)), TabIn(workspaces, groups))
  }

  function KeptClosed(g: Guards, tabs: seq<ClosedTab>, workspaces: set<string>): seq<ClosedTab> {
    Filter(Kept(tabs, 80, PassingClosed(g)), ClosedIn(workspaces))
  }

  function Within(max: nat): Rest -> bool {
    (r: Rest) => r.valid && r.size <= max
  }

  function Plain(p: PlainLists): PlainLists {
    PlainLists(
      Kept(p.bookmarks, 5000, Within(16 * KILO)), Kept(p.bookmarkFolders, 1000, Within(8 * KILO)),
      Kept(p.history, 1200, Within(16 * KILO)), Kept(p.notes, 1000, Within(256 * KILO)),
      Kept(p.readingList, 1200, Within(24 * KILO)), Kept(p.quickLinks, 24, Within(8 * KILO)), Kept(p.todos, 300, Within(8 * KILO)),
      Kept(p.macros, 200, Within(64 * KILO)), Kept(p.macroLogs, 250, Within(16 * KILO)), Kept(p.recentCommandIds, 32, Within(KILO)))
  }

  // ---- The active workspace and the split view ----

  function FindWorkspace(workspaces: seq<Workspace>, id: string): Option<Workspace> {
    if workspaces == [] then None else if workspaces[0].id == id then Some(workspaces[0]) else FindWorkspace(workspaces[1..], id)
  }

  function FindTab(tabs: seq<Tab>, id: Option<string>): Option<Tab> {
    if id.None? || tabs == [] then None else if tabs[0].id == id.value then Some(tabs[0]) else FindTab(tabs[1..], id)
  }

  /** The active id, unless no workspace of the list has it. */
  function ActiveId(id: string, workspaces: seq<Workspace>, fallback: string): string {
    if FindWorkspace(workspaces, id).Some? then id else if workspaces != [] then workspaces[0].id else fallback
  }

  function ValidId(g: Guards, id: Option<string>): Option<string> {
    if id.Some? && g.safeId(id.value) then id else None
  }

  function Clamp(ratio: real): real {
    if ratio < 28.0 then 28.0 else if ratio > 72.0 then 72.0 else ratio
  }

  const CLOSED := SplitView(false, None, None, 50.0)

  function Split(g: Guards, split: SplitView, active: Option<Workspace>, tabs: seq<Tab>): SplitView {
    var wanted := ValidId(g, split.primaryTabId);
    var primary := FindTab(tabs, if wanted.Some? then wanted else if active.Some? then active.value.activeTabId else None);
    var secondary := FindTab(tabs, ValidId(g, split.secondaryTabId));
    if !split.enabled || primary.None? || secondary.None? || primary.value.id == secondary.value.id || active.None?
      || primary.value.workspaceId != active.value.id || secondary.value.workspaceId != active.value.id
    then CLOSED
    else SplitView(true, Some(primary.value.id), Some(secondary.value.id), Clamp(split.ratio))
  }

  function Normalize(g: Guards, d: Defaults, p: Lists): Lists
    requires d.workspaces != []
  {
    var wanted := ActiveId(p.activeWorkspaceId, p.workspaces, d.activeWorkspaceId);
    var workspaces := Workspaces(g, d, p);
    var workspaceIds := WorkspaceIds(workspaces);
    var groups := Groups(p.tabGroups, workspaceIds);
    var tabs := Map(KeptTabs(g, p.tabs, workspaceIds, GroupIds(groups)), MigrateTab);
    Lists(
      ActiveId(wanted, workspaces, d.activeWorkspaceId), workspaces, groups, tabs,
      Map(KeptClosed(g, p.closedTabs, workspaceIds), MigrateClosed),
      Pass(p.sites, 300, SiteOk, Anywhere(), StripSite),
      Pass(p.snapshots, 100, PassingSnapshot(g), Anywhere(), MigrateSnapshot),
      Plain(p.plain),
      Split(g, p.splitView, FindWorkspace(workspaces, wanted), tabs),
      p.carried)
  }

  // ---- References ----

  lemma {:induction false} FoundWorkspace(workspaces: seq<Workspace>, id: string)
    ensures FindWorkspace(workspaces, id).Some? <==> id in WorkspaceIds(workspaces)
    ensures FindWorkspace(workspaces, id).Some? ==>
      FindWorkspace(workspaces, id).value in workspaces && FindWorkspace(workspaces, id).value.id == id
  {
    if workspaces != [] {
      FoundWorkspace(workspaces[1..], id);
      assert workspaces == [workspaces[0]] + workspaces[1..];
      if id in WorkspaceIds(workspaces) {
        var w :| w in workspaces && w.id == id;
        assert w == workspaces[0] || w in workspaces[1..];
      }
      if FindWorkspace(workspaces, id).Some? {
        assert FindWorkspace(workspaces, id).value in workspaces;
      }
    }
  }

  lemma {:induction false} FoundTab(tabs: seq<Tab>, id: Option<string>)
    ensures FindTab(tabs, id).Some? ==> FindTab(tabs, id).value in tabs && Some(FindTab(tabs, id).value.id) == id
  {
    if id.Some? && tabs != [] {
      FoundTab(tabs[1..], id);
    }
  }

  lemma {:induction false} ActiveIdExists(id: string, workspaces: seq<Workspace>, fallback: string)
    requires workspaces != []
    ensures ActiveId(id, workspaces, fallback) in WorkspaceIds(workspaces)
  {
    FoundWorkspace(workspaces, id);
    assert workspaces[0] in workspaces;
  }

  /** Every reference of a profile leads somewhere. */
  ghost predicate Closed(p: Lists) {
    && p.activeWorkspaceId in WorkspaceIds(p.workspaces)
    && (forall t | t in p.tabGroups :: t.workspaceId in WorkspaceIds(p.workspaces))
    && (forall t | t in p.tabs :: Placed(t, WorkspaceIds(p.workspaces), GroupIds(p.tabGroups)))
    && (forall t | t in p.closedTabs :: t.workspaceId in WorkspaceIds(p.workspaces))
    && (p.splitView.enabled ==> SplitOk(p))
  }

  /** An enabled split view shows two different tabs of the active workspace. */
  ghost predicate SplitOk(p: Lists) {
    && 28.0 <= p.splitView.ratio <= 72.0
    && exists a, b | a in p.tabs && b in p.tabs ::
         && a.id != b.id
         && p.splitView.primaryTabId == Some(a.id) && p.splitView.secondaryTabId == Some(b.id)
         && a.workspaceId == b.workspaceId == p.activeWorkspaceId
  }

  lemma {:induction false} GroupsAreClosed(groups: seq<TabGroup>, workspaces: set<string>)
    ensures forall t | t in Groups(groups, workspaces) :: t.workspaceId in workspaces
  {
    forall t | t in Groups(groups, workspaces) ensures t.workspaceId in workspaces {
      FilterHas(Kept(groups, 300, GroupOk), GroupIn(workspaces), t);
    }
  }

  lemma {:induction false} TabsArePlaced(g: Guards, tabs: seq<Tab>, workspaces: set<string>, groups: set<string>)
    ensures forall t | t in Map(KeptTabs(g, tabs, workspaces, groups), MigrateTab) :: Placed(t, workspaces, groups)
  {
    var kept := KeptTabs(g, tabs, workspaces, groups);
    forall t | t in Map(kept, MigrateTab) ensures Placed(t, workspaces, groups) {
      var i :| 0 <= i < |kept| && t == MigrateTab(kept[i]);
      FilterHas(Kept(tabs, 1200, PassingTab(g)), TabIn(workspaces, groups), kept[i]);
    }
  }

  lemma {:induction false} ClosedTabsArePlaced(g: Guards, tabs: seq<ClosedTab>, workspaces: set<string>)
    ensures forall t | t in Map(KeptClosed(g, tabs, workspaces), MigrateClosed) :: t.workspaceId in workspaces
  {
    var kept := KeptClosed(g, tabs, workspaces);
    forall t | t in Map(kept, MigrateClosed) ensures t.workspaceId in workspaces {
      var i :| 0 <= i < |kept| && t == MigrateClosed(kept[i]);
      FilterHas(Kept(tabs, 80, PassingClosed(g)), ClosedIn(workspaces), kept[i]);
    }
  }

  lemma {:induction false} SplitIsOk(g: Guards, d: Defaults, p: Lists)
    requires d.workspaces != [] && Normalize(g, d, p).splitView.enabled
    ensures SplitOk(Normalize(g, d, p))
  {
    var q := Normalize(g, d, p);
    var wanted := ActiveId(p.activeWorkspaceId, p.workspaces, d.activeWorkspaceId);
    var active := FindWorkspace(q.workspaces, wanted);
    FoundWorkspace(q.workspaces, wanted);
    var asked := ValidId(g, p.splitView.primaryTabId);
    var primary := if asked.Some? then asked else if active.Some? then active.value.activeTabId else None;
    FoundTab(q.tabs, primary);
    FoundTab(q.tabs, ValidId(g, p.splitView.secondaryTabId));
  }

  /** For every input the normalised profile is referentially closed. */
  lemma {:induction false} NormalizedIsClosed(g: Guards, d: Defaults, p: Lists)
    requires d.workspaces != []
    ensures Closed(Normalize(g, d, p))
  {
    var q := Normalize(g, d, p);
    var ids := WorkspaceIds(q.workspaces);
    ActiveIdExists(ActiveId(p.activeWorkspaceId, p.workspaces, d.activeWorkspaceId), q.workspaces, d.activeWorkspaceId);
    GroupsAreClosed(p.tabGroups, ids);
    TabsArePlaced(g, p.tabs, ids, GroupIds(q.tabGroups));
    ClosedTabsArePlaced(g, p.closedTabs, ids);
    if q.splitView.enabled {
      SplitIsOk(g, d, p);
    }
  }
}
