/** What the normaliser keeps of the stored lists, record by record: which records, in which order, and what
    each of them becomes. */
module ProfileKept {
  import opened Options
  import opened Selections
  import opened ProfileLists
  import opened ProfileItems
  import opened ProfileNormal

  // ---- Passes ----

  function Both<T>(p: T -> bool, q: T -> bool): T -> bool {
    (x: T) => p(x) && q(x)
  }

  function First<T>(s: seq<T>, limit: nat): seq<T> {
    if |s| < limit then s else s[..limit]
  }

  /** Each record of `to` is what the one at the same place becomes. */
  ghost predicate Becomes<T>(from: seq<T>, becomes: (T, T) -> bool, to: seq<T>) {
    |to| == |from| && forall i | 0 <= i < |from| :: becomes(from[i], to[i])
  }

  /** The records among the first `limit` that are good, in their order, each become what it should. */
  ghost predicate Keeps<T(!new)>(s: seq<T>, limit: nat, good: T -> bool, becomes: (T, T) -> bool, to: seq<T>) {
    exists kept :: Selects(First(s, limit), good, kept) && Becomes(kept, becomes, to)
  }

  lemma {:induction false} SelectsSame<T>(from: seq<T>, p: T -> bool, q: T -> bool, to: seq<T>)
    requires Selects(from, p, to) && forall x | x in from :: p(x) == q(x)
    ensures Selects(from, q, to)
  {
    var at :| Rises(at) && Picks(from, to, at) && Covers(from, p, at);
    forall i | 0 <= i < |from| ensures q(from[i]) <==> i in at {
      assert from[i] in from;
    }
    assert Covers(from, q, at);
  }

  lemma {:induction false} FilterSelects<T>(s: seq<T>, ok: T -> bool)
    ensures Selects(s, ok, Filter(s, ok))
  {
    if s == [] {
      SelectsNothing(ok);
    } else {
      FilterSelects(s[1..], ok);
      assert s == [s[0]] + s[1..];
      SelectsStep(s[0], s[1..], ok, Filter(s[1..], ok));
      assert [] + Filter(s[1..], ok) == Filter(s[1..], ok);
    }
  }

  lemma {:induction false} FilterFront<T>(x: T, rest: seq<T>, ok: T -> bool)
    ensures Filter([x] + rest, ok) == (if ok(x) then [x] else []) + Filter(rest, ok)
  {
    assert ([x] + rest)[1..] == rest;
  }

  lemma {:induction false} FilterTwice<T>(s: seq<T>, p: T -> bool, q: T -> bool)
    ensures Filter(Filter(s, p), q) == Filter(s, Both(p, q))
  {
    if s != [] {
      FilterTwice(s[1..], p, q);
      FilterFront(s[0], Filter(s[1..], p), q);
      assert [] + Filter(s[1..], p) == Filter(s[1..], p);
    }
  }

  /** What a pass keeps. */
  lemma {:induction false} PassKeeps<T(!new)>(s: seq<T>, limit: nat, ok: T -> bool, placed: T -> bool, migrate: T -> T,
                                              good: T -> bool, becomes: (T, T) -> bool)
    requires forall x | x in s :: good(x) == (ok(x) && placed(x))
    requires forall x :: becomes(x, migrate(x))
    ensures Keeps(s, limit, good, becomes, Pass(s, limit, ok, placed, migrate))
  {
    var first := Take(s, limit);
    var kept := Filter(Kept(s, limit, ok), placed);
    FilterTwice(first, ok, placed);
    FilterSelects(first, Both(ok, placed));
    assert forall x | x in first :: x in s;
    SelectsSame(first, Both(ok, placed), good, kept);
    assert First(s, limit) == first;
    assert Becomes(kept, becomes, Pass(s, limit, ok, placed, migrate));
  }

  // ---- Sizes ----

  /** A field as it stands in JSON text. */
  function FieldText(key: string, value: string): string {
    "\"" + key + "\":" + value + ","
  }

  lemma {:induction false} FieldSizeIs(key: string, value: string)
    ensures FieldSize(key, |value|) == |FieldText(key, value)|
  {
  }

  // ---- Pages ----

  /** The title, the address and the reader flag as text. */
  function PageText(g: Guards, p: Page): nat {
    9 + g.textSize(p.title) + 7 + g.textSize(p.url) + (match p.readerMode case None => 0 case Some(size) => 14 + size)
  }

  predicate HasOldName(title: string) {
    title == "Avidae" || "Avidae \U{2014}" <= title
  }

  /** A retired page becomes a new tab; a page of the old video and audio tool gets its new name; the reader flag goes. */
  ghost predicate PageBecomes(p: Page, q: Page) {
    if p.url == "vast://upgrade" || p.url == "vast://reader" then q == Page("New tab", "vast://newtab", None)
    else q == Page(if p.url == "vast://avidae" && HasOldName(p.title) then "Video & Audio" + p.title[6..] else p.title, p.url, None)
  }

  lemma {:induction false} MigratedPageIs(p: Page)
    ensures PageBecomes(p, MigratePage(p))
  {
  }

  // ---- Tabs ----

  ghost function GoodTab(g: Guards, workspaces: set<string>, groups: set<string>): Tab -> bool {
    (t: Tab) =>
      && t.rest.valid && g.safeId(t.id) && |t.page.title| <= 4_096 && g.storedUrl(t.page.url)
      && t.rest.size + PageText(g, t.page) <= 32_768
      && t.workspaceId in workspaces
      && (t.identityWorkspaceId.Some? && t.identityWorkspaceId.value != "" ==> t.identityWorkspaceId.value in workspaces)
      && (t.groupId.Some? && t.groupId.value != "" ==> t.groupId.value in groups)
  }

  ghost predicate TabBecomes(t: Tab, u: Tab) {
    u == t.(page := u.page) && PageBecomes(t.page, u.page)
  }

  lemma {:induction false} TabsKept(g: Guards, tabs: seq<Tab>, workspaces: set<string>, groups: set<string>)
    ensures Keeps(tabs, 1_200, GoodTab(g, workspaces, groups), TabBecomes, Map(KeptTabs(g, tabs, workspaces, groups), MigrateTab))
  {
    forall t | t in tabs ensures GoodTab(g, workspaces, groups)(t) == (PassingTab(g)(t) && TabIn(workspaces, groups)(t)) {
      assert FieldSize("title", 0) == 9 && FieldSize("url", 0) == 7 && FieldSize("readerMode", 0) == 14;
    }
    forall t ensures TabBecomes(t, MigrateTab(t)) {
      MigratedPageIs(t.page);
    }
    PassKeeps(tabs, 1_200, PassingTab(g), TabIn(workspaces, groups), MigrateTab, GoodTab(g, workspaces, groups), TabBecomes);
  }

  ghost function GoodClosed(g: Guards, workspaces: set<string>): ClosedTab -> bool {
    (t: ClosedTab) =>
      && t.rest.valid && |t.page.title| <= 4_096 && g.storedUrl(t.page.url)
      && t.rest.size + PageText(g, t.page) <= 16_384
      && t.workspaceId in workspaces
  }

  ghost predicate ClosedBecomes(t: ClosedTab, u: ClosedTab) {
    u == t.(page := u.page) && PageBecomes(t.page, u.page)
  }

  lemma {:induction false} ClosedKept(g: Guards, tabs: seq<ClosedTab>, workspaces: set<string>)
    ensures Keeps(tabs, 80, GoodClosed(g, workspaces), ClosedBecomes, Map(KeptClosed(g, tabs, workspaces), MigrateClosed))
  {
    forall t | t in tabs ensures GoodClosed(g, workspaces)(t) == (PassingClosed(g)(t) && ClosedIn(workspaces)(t)) {
      assert FieldSize("title", 0) == 9 && FieldSize("url", 0) == 7 && FieldSize("readerMode", 0) == 14;
    }
    forall t ensures ClosedBecomes(t, MigrateClosed(t)) {
      MigratedPageIs(t.page);
    }
    PassKeeps(tabs, 80, PassingClosed(g), ClosedIn(workspaces), MigrateClosed, GoodClosed(g, workspaces), ClosedBecomes);
  }

  // ---- Workspaces, groups and site memories ----

  ghost function GoodWorkspace(g: Guards): Workspace -> bool {
    (w: Workspace) =>
      && w.rest.valid && g.safeId(w.id)
      && (w.identity.Some? && w.identity.value.Stored? ==> w.identity.value.valid)
      && w.rest.size + (if w.identity.Some? then 12 + (if w.identity.value.Stored? then w.identity.value.size
                                                       else if w.identity.value.ephemeral then 94 else 93) else 0) <= 24_576
  }

  /** A workspace without a session identity gets one, ephemeral when it is private. */
  predicate WorkspaceBecomes(w: Workspace, v: Workspace) {
    v == if w.identity == None then w.(identity := Some(Added(w.isPrivate))) else w
  }

  lemma {:induction false} WorkspacesPass(g: Guards, ws: seq<Workspace>)
    ensures Keeps(ws, 100, GoodWorkspace(g), WorkspaceBecomes, Pass(ws, 100, PassingWorkspace(g), Anywhere(), AddIdentity))
  {
    forall w | w in ws ensures GoodWorkspace(g)(w) == (PassingWorkspace(g)(w) && Anywhere()(w)) {
      assert FieldSize("identity", 0) == 12;
    }
    PassKeeps(ws, 100, PassingWorkspace(g), Anywhere(), AddIdentity, GoodWorkspace(g), WorkspaceBecomes);
  }

  ghost function GoodGroup(workspaces: set<string>): TabGroup -> bool {
    (t: TabGroup) => t.rest.valid && t.rest.size <= 16_384 && t.workspaceId in workspaces
  }

  lemma {:induction false} GroupsKept(groups: seq<TabGroup>, workspaces: set<string>)
    ensures Selects(First(groups, 300), GoodGroup(workspaces), Groups(groups, workspaces))
  {
    var first := Take(groups, 300);
    FilterTwice(first, GroupOk, GroupIn(workspaces));
    FilterSelects(first, Both(GroupOk, GroupIn(workspaces)));
    SelectsSame(first, Both(GroupOk, GroupIn(workspaces)), GoodGroup(workspaces), Groups(groups, workspaces));
    assert First(groups, 300) == first;
  }

  predicate GoodSite(s: Site) {
    s.rest.valid && s.rest.size + (match s.readerMode case None => 0 case Some(size) => 14 + size) <= 24_576
  }

  /** A site memory loses its reader flag. */
  predicate SiteBecomes(s: Site, u: Site) {
    u.rest == s.rest && u.readerMode == None
  }

  lemma {:induction false} SitesKept(sites: seq<Site>)
    ensures Keeps(sites, 300, GoodSite, SiteBecomes, Pass(sites, 300, SiteOk, Anywhere(), StripSite))
  {
    forall s | s in sites ensures GoodSite(s) == (SiteOk(s) && Anywhere()(s)) {
      assert FieldSize("readerMode", 0) == 14;
    }
    PassKeeps(sites, 300, SiteOk, Anywhere(), StripSite, GoodSite, SiteBecomes);
  }

  // ---- Session snapshots ----

  ghost function GoodSnapshot(g: Guards): Snapshot -> bool {
    (s: Snapshot) =>
      && s.rest.valid
      && (s.tabs.Some? ==>
            |s.tabs.value| <= 1_200 && forall t | t in s.tabs.value :: t.rest.valid && |t.page.title| <= 4_096 && g.storedUrl(t.page.url))
      && s.rest.size + (if s.activeUrl.Some? then 13 + g.textSize(s.activeUrl.value) else 0)
         + (if s.tabs.Some? then 10 + SavedSize(g, s.tabs.value) else 0) <= 131_072
  }

  /** An empty active address goes and a retired one becomes a new tab; the saved tabs change as tabs do. */
  ghost predicate SnapshotBecomes(s: Snapshot, u: Snapshot) {
    && u.rest == s.rest
    && u.activeUrl == (if s.activeUrl == None || s.activeUrl == Some("") then None
                       else if s.activeUrl == Some("vast://upgrade") || s.activeUrl == Some("vast://reader") then Some("vast://newtab")
                       else s.activeUrl)
    && (if s.tabs.None? then u.tabs == None else u.tabs.Some? && Becomes(s.tabs.value, SavedBecomes, u.tabs.value))
  }

  ghost predicate SavedBecomes(t: SavedTab, u: SavedTab) {
    u.rest == t.rest && PageBecomes(t.page, u.page)
  }

  lemma {:induction false} SavedTabsBecome(tabs: seq<SavedTab>)
    ensures Becomes(tabs, SavedBecomes, MigrateSaved(tabs))
  {
    if tabs != [] {
      SavedTabsBecome(tabs[1..]);
      MigratedPageIs(tabs[0].page);
      forall i | 0 <= i < |tabs| ensures SavedBecomes(tabs[i], MigrateSaved(tabs)[i]) {
        if i > 0 {
          assert SavedBecomes(tabs[1..][i - 1], MigrateSaved(tabs[1..])[i - 1]);
        }
      }
    }
  }

  lemma {:induction false} SnapshotsKept(g: Guards, snapshots: seq<Snapshot>)
    ensures Keeps(snapshots, 100, GoodSnapshot(g), SnapshotBecomes, Pass(snapshots, 100, PassingSnapshot(g), Anywhere(), MigrateSnapshot))
  {
    forall s | s in snapshots ensures GoodSnapshot(g)(s) == (PassingSnapshot(g)(s) && Anywhere()(s)) {
      SnapshotIsGood(g, s);
    }
    forall s ensures SnapshotBecomes(s, MigrateSnapshot(s)) {
      if s.tabs.Some? {
        SavedTabsBecome(s.tabs.value);
      }
    }
    PassKeeps(snapshots, 100, PassingSnapshot(g), Anywhere(), MigrateSnapshot, GoodSnapshot(g), SnapshotBecomes);
  }

  lemma {:induction false} SnapshotIsGood(g: Guards, s: Snapshot)
    ensures GoodSnapshot(g)(s) == SnapshotOk(g, s)
  {
    assert FieldSize("activeUrl", 0) == 13 && FieldSize("tabs", 0) == 8;
  }

  // ---- The lists that are bounded and nothing else ----

  function Small(max: nat): Rest -> bool {
    (r: Rest) => r.valid && r.size <= max
  }

  lemma {:induction false} RestsKept(rs: seq<Rest>, limit: nat, max: nat)
    ensures Selects(First(rs, limit), Small(max), Kept(rs, limit, Within(max)))
  {
    FilterSelects(Take(rs, limit), Within(max));
    SelectsSame(Take(rs, limit), Within(max), Small(max), Kept(rs, limit, Within(max)));
    assert First(rs, limit) == Take(rs, limit);
  }

  lemma {:induction false} PlainKept(p: PlainLists)
    ensures ArePlain(p, Plain(p))
  {
    RestsKept(p.bookmarks, 5_000, 16_384);
    RestsKept(p.bookmarkFolders, 1_000, 8_192);
    RestsKept(p.history, 1_200, 16_384);
    RestsKept(p.notes, 1_000, 262_144);
    RestsKept(p.readingList, 1_200, 24_576);
    RestsKept(p.quickLinks, 24, 8_192);
    RestsKept(p.todos, 300, 8_192);
    RestsKept(p.macros, 200, 65_536);
    RestsKept(p.macroLogs, 250, 16_384);
    RestsKept(p.recentCommandIds, 32, 1_024);
  }

  // ---- The active workspace and the split view ----

  /** The first workspace of the id. */
  ghost predicate IsWorkspace(ws: seq<Workspace>, id: string, w: Workspace) {
    exists k: nat :: k < |ws| && ws[k] == w && w.id == id && forall j | 0 <= j < k :: ws[j].id != id
  }

  lemma {:induction false} FoundWorkspaceIs(ws: seq<Workspace>, id: string, w: Workspace)
    ensures FindWorkspace(ws, id) == Some(w) <==> IsWorkspace(ws, id, w)
  {
    if ws != [] {
      FoundWorkspaceIs(ws[1..], id, w);
      if ws[0].id != id {
        if k: nat :| k < |ws[1..]| && ws[1..][k] == w && w.id == id && forall j | 0 <= j < k :: ws[1..][j].id != id {
          assert ws[k + 1] == w && forall j | 0 <= j < k + 1 :: ws[j].id != id;
        }
        if k: nat :| k < |ws| && ws[k] == w && w.id == id && forall j | 0 <= j < k :: ws[j].id != id {
          assert ws[1..][k - 1] == w;
        }
      }
    }
  }

  /** The first tab of the id. */
  ghost predicate IsTab(tabs: seq<Tab>, id: Option<string>, t: Tab) {
    exists k: nat :: k < |tabs| && tabs[k] == t && Some(t.id) == id && forall j | 0 <= j < k :: Some(tabs[j].id) != id
  }

  lemma {:induction false} FoundTabIs(tabs: seq<Tab>, id: Option<string>, t: Tab)
    ensures FindTab(tabs, id) == Some(t) <==> IsTab(tabs, id, t)
  {
    if tabs != [] && id.Some? {
      FoundTabIs(tabs[1..], id, t);
      if tabs[0].id != id.value {
        if k: nat :| k < |tabs[1..]| && tabs[1..][k] == t && Some(t.id) == id && forall j | 0 <= j < k :: Some(tabs[1..][j].id) != id {
          assert tabs[k + 1] == t && forall j | 0 <= j < k + 1 :: Some(tabs[j].id) != id;
        }
        if k: nat :| k < |tabs| && tabs[k] == t && Some(t.id) == id && forall j | 0 <= j < k :: Some(tabs[j].id) != id {
          assert tabs[1..][k - 1] == t;
        }
      }
    }
  }

  /** The active id once it is checked against a list: itself, if a workspace has it, else the first one's. */
  ghost predicate IsActive(id: string, ws: seq<Workspace>, fallback: string, active: string) {
    active == if exists w | w in ws :: w.id == id then id else if ws != [] then ws[0].id else fallback
  }

  lemma {:induction false} ActiveIs(id: string, ws: seq<Workspace>, fallback: string)
    ensures IsActive(id, ws, fallback, ActiveId(id, ws, fallback))
  {
    FoundWorkspace(ws, id);
    assert id in WorkspaceIds(ws) <==> exists w | w in ws :: w.id == id;
  }

  /** The id asked for, unless it is no id. */
  function AskedId(g: Guards, id: Option<string>): Option<string> {
    if id.Some? && g.safeId(id.value) then id else None
  }

  /** The split view shows `a` and `b`: it is on, they are the first tabs of the ids asked for, the active tab standing in
      for a missing first one, they differ, and they belong to the active workspace. */
  ghost predicate SplitShows(g: Guards, split: SplitView, ws: seq<Workspace>, id: string, tabs: seq<Tab>, a: Tab, b: Tab) {
    && split.enabled
    && exists w :: IsWorkspace(ws, id, w)
         && IsTab(tabs, if AskedId(g, split.primaryTabId).Some? then AskedId(g, split.primaryTabId) else w.activeTabId, a)
         && IsTab(tabs, AskedId(g, split.secondaryTabId), b)
         && a.id != b.id && a.workspaceId == w.id && b.workspaceId == w.id
  }

  /** The split view: the two tabs it shows and a ratio between 28 and 72, or closed. */
  ghost predicate IsSplit(g: Guards, split: SplitView, ws: seq<Workspace>, id: string, tabs: seq<Tab>, result: SplitView) {
    || (result == SplitView(false, None, None, 50.0) && forall a, b :: !SplitShows(g, split, ws, id, tabs, a, b))
    || exists a, b :: SplitShows(g, split, ws, id, tabs, a, b)
         && result == SplitView(true, Some(a.id), Some(b.id), if split.ratio < 28.0 then 28.0 else if split.ratio > 72.0 then 72.0 else split.ratio)
  }

  lemma {:induction false} SplitShowsIff(g: Guards, split: SplitView, ws: seq<Workspace>, id: string, tabs: seq<Tab>,
                                         a: Tab, b: Tab)
    ensures SplitShows(g, split, ws, id, tabs, a, b) <==>
      var active := FindWorkspace(ws, id);
      var primary := if AskedId(g, split.primaryTabId).Some? then AskedId(g, split.primaryTabId) else if active.Some? then active.value.activeTabId else None;
      && split.enabled && active.Some?
      && FindTab(tabs, primary) == Some(a) && FindTab(tabs, AskedId(g, split.secondaryTabId)) == Some(b)
      && a.id != b.id && a.workspaceId == active.value.id && b.workspaceId == active.value.id
  {
    forall w ensures FindWorkspace(ws, id) == Some(w) <==> IsWorkspace(ws, id, w) {
      FoundWorkspaceIs(ws, id, w);
    }
    forall o, t ensures FindTab(tabs, o) == Some(t) <==> IsTab(tabs, o, t) {
      FoundTabIs(tabs, o, t);
    }
  }

  lemma {:induction false} SplitIs(g: Guards, split: SplitView, ws: seq<Workspace>, id: string, tabs: seq<Tab>)
    ensures IsSplit(g, split, ws, id, tabs, Split(g, split, FindWorkspace(ws, id), tabs))
  {
    forall a, b {
      SplitShowsIff(g, split, ws, id, tabs, a, b);
    }
  }

  // ---- The lists as a whole ----

  /** The workspaces, or the default ones when none is kept. */
  ghost predicate AreWorkspaces(g: Guards, d: Defaults, ws: seq<Workspace>, result: seq<Workspace>) {
    exists kept :: Keeps(ws, 100, GoodWorkspace(g), WorkspaceBecomes, kept) && result == if kept == [] then d.workspaces else kept
  }

  /** The lists that refer to nothing. */
  ghost predicate ArePlain(p: PlainLists, q: PlainLists) {
    && Selects(First(p.bookmarks, 5_000), Small(16_384), q.bookmarks)
    && Selects(First(p.bookmarkFolders, 1_000), Small(8_192), q.bookmarkFolders)
    && Selects(First(p.history, 1_200), Small(16_384), q.history)
    && Selects(First(p.notes, 1_000), Small(262_144), q.notes)
    && Selects(First(p.readingList, 1_200), Small(24_576), q.readingList)
    && Selects(First(p.quickLinks, 24), Small(8_192), q.quickLinks)
    && Selects(First(p.todos, 300), Small(8_192), q.todos)
    && Selects(First(p.macros, 200), Small(65_536), q.macros)
    && Selects(First(p.macroLogs, 250), Small(16_384), q.macroLogs)
    && Selects(First(p.recentCommandIds, 32), Small(1_024), q.recentCommandIds)
  }

  /** Every list of a normalised profile, from the stored one. */
  ghost predicate AreLists(g: Guards, d: Defaults, p: Lists, q: Lists) {
    var workspaces := set w | w in q.workspaces :: w.id;
    && AreWorkspaces(g, d, p.workspaces, q.workspaces)
    && Selects(First(p.tabGroups, 300), GoodGroup(workspaces), q.tabGroups)
    && Keeps(p.tabs, 1_200, GoodTab(g, workspaces, set t | t in q.tabGroups :: t.id), TabBecomes, q.tabs)
    && Keeps(p.closedTabs, 80, GoodClosed(g, workspaces), ClosedBecomes, q.closedTabs)
    && Keeps(p.sites, 300, GoodSite, SiteBecomes, q.sites)
    && Keeps(p.snapshots, 100, GoodSnapshot(g), SnapshotBecomes, q.snapshots)
    && ArePlain(p.plain, q.plain)
    && q.carried == p.carried
    && exists wanted ::
         && IsActive(p.activeWorkspaceId, p.workspaces, d.activeWorkspaceId, wanted)
         && IsActive(wanted, q.workspaces, d.activeWorkspaceId, q.activeWorkspaceId)
         && IsSplit(g, p.splitView, q.workspaces, wanted, q.tabs, q.splitView)
  }

  lemma {:induction false} ActiveAndSplit(g: Guards, d: Defaults, p: Lists, q: Lists)
    requires d.workspaces != [] && q == Normalize(g, d, p)
    ensures exists wanted ::
      && IsActive(p.activeWorkspaceId, p.workspaces, d.activeWorkspaceId, wanted)
      && IsActive(wanted, q.workspaces, d.activeWorkspaceId, q.activeWorkspaceId)
      && IsSplit(g, p.splitView, q.workspaces, wanted, q.tabs, q.splitView)
  {
    var wanted := ActiveId(p.activeWorkspaceId, p.workspaces, d.activeWorkspaceId);
    ActiveIs(p.activeWorkspaceId, p.workspaces, d.activeWorkspaceId);
    ActiveIs(wanted, q.workspaces, d.activeWorkspaceId);
    SplitIs(g, p.splitView, q.workspaces, wanted, q.tabs);
  }

  /** The normaliser keeps exactly the good records, and what refers to them. */
  lemma {:induction false} NormalizedKeeps(g: Guards, d: Defaults, p: Lists)
    requires d.workspaces != []
    ensures AreLists(g, d, p, Normalize(g, d, p))
  {
    var q := Normalize(g, d, p);
    var ids := WorkspaceIds(q.workspaces);
    WorkspacesPass(g, p.workspaces);
    assert AreWorkspaces(g, d, p.workspaces, q.workspaces);
    GroupsKept(p.tabGroups, ids);
    TabsKept(g, p.tabs, ids, GroupIds(q.tabGroups));
    ClosedKept(g, p.closedTabs, ids);
    SitesKept(p.sites);
    SnapshotsKept(g, p.snapshots);
    PlainKept(p.plain);
    ActiveAndSplit(g, d, p, q);
  }
}
