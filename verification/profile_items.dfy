/** The stored records whose fields the normaliser looks at, their size as text, the tests they
    must pass, and the migrations applied to the ones that pass. */
module ProfileItems {
  import opened Options

  /** The fields the normaliser does not look at: whether they pass their guard, and their size as text. */
  datatype Rest = Rest(valid: bool, size: nat, token: string)

  /** The field tests that are used as they are, and the length of a string as JSON text. */
  datatype Guards = Guards(safeId: string -> bool, storedUrl: string -> bool, textSize: string -> nat)

  const LEGACY_UPGRADE := "vast://upgrade"
  const RETIRED_READER := "vast://reader"
  const NEW_TAB := "vast://newtab"
  const VIDEO_AUDIO := "vast://avidae"
  const NEW_TAB_TITLE := "New tab"
  const OLD_NAME := "Avidae"
  const OLD_PREFIX := "Avidae \U{2014}"
  const NEW_NAME := "Video & Audio"

  const KILO: nat := 1024
  const MAX_TITLE: nat := 4096

  /** A field with its key, colon and comma. */
  function FieldSize(key: string, value: nat): nat {
    |key| + 4 + value
  }

  // ---- Pages ----

  /** The title, the address and the retired reader flag, of the given size, of a tab record. */
  datatype Page = Page(title: string, url: string, readerMode: Option<nat>)

  predicate IsLegacyUrl(url: string) {
    url == LEGACY_UPGRADE || url == RETIRED_READER
  }

  predicate IsOldTitle(title: string) {
    title == OLD_NAME || OLD_PREFIX <= title
  }

  function RenamedTitle(title: string): string {
    if IsOldTitle(title) then NEW_NAME + title[|OLD_NAME|..] else title
  }

  function MigrateUrl(url: string): string {
    if IsLegacyUrl(url) then NEW_TAB else url
  }

  function MigratePage(p: Page): Page {
    if IsLegacyUrl(p.url) then Page(NEW_TAB_TITLE, NEW_TAB, None)
    else if p.url == VIDEO_AUDIO then Page(RenamedTitle(p.title), p.url, None)
    else Page(p.title, p.url, None)
  }

  function ReaderSize(p: Page): nat {
    match p.readerMode
    case None => 0
    case Some(size) => FieldSize("readerMode", size)
  }

  function PageSize(g: Guards, p: Page): nat {
    FieldSize("title", g.textSize(p.title)) + FieldSize("url", g.textSize(p.url)) + ReaderSize(p)
  }

  predicate PageOk(g: Guards, p: Page) {
    |p.title| <= MAX_TITLE && g.storedUrl(p.url)
  }

  /** The page will be called "Video & Audio". */
  predicate IsRenamed(p: Page) {
    p.url == VIDEO_AUDIO && IsOldTitle(p.title)
  }

  /** How many characters the new name has more than the old one. */
  const RENAME_GROWTH: nat := 7

  /** The new-tab address is stored, and renaming adds seven characters of text. */
  ghost predicate Lawful(g: Guards) {
    && g.storedUrl(NEW_TAB)
    && forall title | IsOldTitle(title) :: g.textSize(RenamedTitle(title)) == g.textSize(title) + RENAME_GROWTH
  }

  /** How many characters the migration adds to a page. */
  function Growth(g: Guards, p: Page): int {
    (if IsLegacyUrl(p.url) then g.textSize(NEW_TAB_TITLE) + g.textSize(NEW_TAB) - g.textSize(p.title) - g.textSize(p.url)
     else if IsRenamed(p) then RENAME_GROWTH
     else 0) - ReaderSize(p)
  }

  /** A renamed title stays within the limit. */
  predicate TitleRoom(p: Page) {
    IsRenamed(p) ==> |p.title| + RENAME_GROWTH <= MAX_TITLE
  }

  lemma {:induction false} OldTitleStarts(title: string)
    requires IsOldTitle(title)
    ensures |OLD_NAME| <= |title| && title[0] == 'A'
  {
  }

  lemma {:induction false} RenamedIsNew(title: string)
    requires IsOldTitle(title)
    ensures |RenamedTitle(title)| == |title| + RENAME_GROWTH && !IsOldTitle(RenamedTitle(title))
  {
    OldTitleStarts(title);
    var renamed := RenamedTitle(title);
    assert renamed[0] == 'V';
    if IsOldTitle(renamed) {
      OldTitleStarts(renamed);
    }
  }

  /** The size after the migration is the size before plus the growth. */
  lemma {:induction false} MigratedSize(g: Guards, p: Page)
    requires Lawful(g)
    ensures PageSize(g, MigratePage(p)) == PageSize(g, p) + Growth(g, p)
  {
  }

  /** Migrating twice is migrating once. */
  lemma {:induction false} MigratePageTwice(p: Page)
    ensures MigratePage(MigratePage(p)) == MigratePage(p)
  {
    if !IsLegacyUrl(p.url) && IsRenamed(p) {
      RenamedIsNew(p.title);
    }
  }

  lemma {:induction false} MigratedPageOk(g: Guards, p: Page)
    requires PageOk(g, p) && Lawful(g)
    ensures PageOk(g, MigratePage(p)) <==> TitleRoom(p)
  {
    if !IsLegacyUrl(p.url) && IsRenamed(p) {
      RenamedIsNew(p.title);
    }
  }

  // ---- Tabs and closed tabs ----

  datatype Tab = Tab(id: string, workspaceId: string, identityWorkspaceId: Option<string>, groupId: Option<string>, page: Page, rest: Rest)

  datatype ClosedTab = ClosedTab(workspaceId: string, page: Page, rest: Rest)

  function MigrateTab(t: Tab): Tab {
    t.(page := MigratePage(t.page))
  }

  function MigrateClosed(t: ClosedTab): ClosedTab {
    t.(page := MigratePage(t.page))
  }

  predicate TabGuard(g: Guards, t: Tab) {
    t.rest.valid && g.safeId(t.id) && PageOk(g, t.page)
  }

  function TabSize(g: Guards, t: Tab): nat {
    t.rest.size + PageSize(g, t.page)
  }

  predicate TabOk(g: Guards, t: Tab) {
    TabGuard(g, t) && TabSize(g, t) <= 32 * KILO
  }

  predicate ClosedGuard(g: Guards, t: ClosedTab) {
    t.rest.valid && PageOk(g, t.page)
  }

  function ClosedSize(g: Guards, t: ClosedTab): nat {
    t.rest.size + PageSize(g, t.page)
  }

  predicate ClosedOk(g: Guards, t: ClosedTab) {
    ClosedGuard(g, t) && ClosedSize(g, t) <= 16 * KILO
  }

  /** The migrated tab still passes. */
  predicate TabRoom(g: Guards, t: Tab) {
    TitleRoom(t.page) && TabSize(g, t) + Growth(g, t.page) <= 32 * KILO
  }

  predicate ClosedRoom(g: Guards, t: ClosedTab) {
    TitleRoom(t.page) && ClosedSize(g, t) + Growth(g, t.page) <= 16 * KILO
  }

  lemma {:induction false} TabPassesAgain(g: Guards, t: Tab)
    requires TabOk(g, t) && Lawful(g)
    ensures TabOk(g, MigrateTab(t)) <==> TabRoom(g, t)
    ensures MigrateTab(MigrateTab(t)) == MigrateTab(t)
  {
    MigratedSize(g, t.page);
    MigratedPageOk(g, t.page);
    MigratePageTwice(t.page);
  }

  lemma {:induction false} ClosedPassesAgain(g: Guards, t: ClosedTab)
    requires ClosedOk(g, t) && Lawful(g)
    ensures ClosedOk(g, MigrateClosed(t)) <==> ClosedRoom(g, t)
    ensures MigrateClosed(MigrateClosed(t)) == MigrateClosed(t)
  {
    MigratedSize(g, t.page);
    MigratedPageOk(g, t.page);
    MigratePageTwice(t.page);
  }

  // ---- Session snapshots ----

  datatype SavedTab = SavedTab(page: Page, rest: Rest)

  datatype Snapshot = Snapshot(activeUrl: Option<string>, tabs: Option<seq<SavedTab>>, rest: Rest)

  function MigrateSaved(tabs: seq<SavedTab>): (r: seq<SavedTab>)
    ensures |r| == |tabs|
  {
    if tabs == [] then [] else [tabs[0].(page := MigratePage(tabs[0].page))] + MigrateSaved(tabs[1..])
  }

  function MigrateSnapshot(s: Snapshot): Snapshot {
    s.(activeUrl := if s.activeUrl.Some? && s.activeUrl.value != "" then Some(MigrateUrl(s.activeUrl.value)) else None,
       tabs := if s.tabs.Some? then Some(MigrateSaved(s.tabs.value)) else None)
  }

  function SavedSize(g: Guards, tabs: seq<SavedTab>): nat {
    if tabs == [] then 0 else tabs[0].rest.size + PageSize(g, tabs[0].page) + 1 + SavedSize(g, tabs[1..])
  }

  function SnapshotSize(g: Guards, s: Snapshot): nat {
    s.rest.size
    + (if s.activeUrl.Some? then FieldSize("activeUrl", g.textSize(s.activeUrl.value)) else 0)
    + (if s.tabs.Some? then FieldSize("tabs", SavedSize(g, s.tabs.value) + 2) else 0)
  }

  predicate SavedOk(g: Guards, tabs: seq<SavedTab>) {
    forall i | 0 <= i < |tabs| :: tabs[i].rest.valid && PageOk(g, tabs[i].page)
  }

  predicate SnapshotGuard(g: Guards, s: Snapshot) {
    s.rest.valid && (s.tabs.Some? ==> |s.tabs.value| <= 1200 && SavedOk(g, s.tabs.value))
  }

  predicate SnapshotOk(g: Guards, s: Snapshot) {
    SnapshotGuard(g, s) && SnapshotSize(g, s) <= 128 * KILO
  }

  function SavedGrowth(g: Guards, tabs: seq<SavedTab>): int {
    if tabs == [] then 0 else Growth(g, tabs[0].page) + SavedGrowth(g, tabs[1..])
  }

  /** An empty active address is dropped, a legacy one replaced. */
  function UrlGrowth(g: Guards, url: Option<string>): int {
    if url.None? then 0
    else if url.value == "" then 0 - FieldSize("activeUrl", g.textSize(""))
    else if IsLegacyUrl(url.value) then g.textSize(NEW_TAB) - g.textSize(url.value)
    else 0
  }

  function SnapshotGrowth(g: Guards, s: Snapshot): int {
    UrlGrowth(g, s.activeUrl)
    + (if s.tabs.Some? then SavedGrowth(g, s.tabs.value) else 0)
  }

  predicate SnapshotRoom(g: Guards, s: Snapshot) {
    && (s.tabs.Some? ==> forall i | 0 <= i < |s.tabs.value| :: TitleRoom(s.tabs.value[i].page))
    && SnapshotSize(g, s) + SnapshotGrowth(g, s) <= 128 * KILO
  }

  lemma {:induction false} SavedMigrates(g: Guards, tabs: seq<SavedTab>)
    requires SavedOk(g, tabs) && Lawful(g)
    ensures SavedSize(g, MigrateSaved(tabs)) == SavedSize(g, tabs) + SavedGrowth(g, tabs)
    ensures SavedOk(g, MigrateSaved(tabs)) <==> forall i | 0 <= i < |tabs| :: TitleRoom(tabs[i].page)
    ensures MigrateSaved(MigrateSaved(tabs)) == MigrateSaved(tabs)
  {
    if tabs != [] {
      SavedMigrates(g, tabs[1..]);
      MigratedSize(g, tabs[0].page);
      MigratedPageOk(g, tabs[0].page);
      MigratePageTwice(tabs[0].page);
      SavedOkSplits(g, MigrateSaved(tabs));
      assert (forall i | 0 <= i < |tabs| :: TitleRoom(tabs[i].page))
        <==> TitleRoom(tabs[0].page) && forall i | 0 <= i < |tabs[1..]| :: TitleRoom(tabs[1..][i].page) by {
        assert tabs == [tabs[0]] + tabs[1..];
      }
    }
  }

  lemma {:induction false} SavedOkSplits(g: Guards, tabs: seq<SavedTab>)
    requires tabs != []
    ensures SavedOk(g, tabs) <==> tabs[0].rest.valid && PageOk(g, tabs[0].page) && SavedOk(g, tabs[1..])
  {
    assert tabs == [tabs[0]] + tabs[1..];
  }

  lemma {:induction false} SnapshotMigratedSize(g: Guards, s: Snapshot)
    requires SnapshotOk(g, s) && Lawful(g)
    ensures SnapshotSize(g, MigrateSnapshot(s)) == SnapshotSize(g, s) + SnapshotGrowth(g, s)
  {
    if s.tabs.Some? {
      SavedMigrates(g, s.tabs.value);
    }
  }

  lemma {:induction false} SnapshotPassesAgain(g: Guards, s: Snapshot)
    requires SnapshotOk(g, s) && Lawful(g)
    ensures SnapshotOk(g, MigrateSnapshot(s)) <==> SnapshotRoom(g, s)
    ensures MigrateSnapshot(MigrateSnapshot(s)) == MigrateSnapshot(s)
  {
    SnapshotMigratedSize(g, s);
    if s.tabs.Some? {
      SavedMigrates(g, s.tabs.value);
    }
  }

  // ---- Workspaces ----

  /** A workspace's session identity: a stored one, or the one that is added. */
  datatype Identity = Stored(valid: bool, size: nat, token: string) | Added(ephemeral: bool)

  datatype Workspace = Workspace(id: string, activeTabId: Option<string>, isPrivate: bool, identity: Option<Identity>, rest: Rest)

  function IdentitySize(i: Identity): nat {
    match i
    case Stored(_, size, _) => size
    case Added(ephemeral) => if ephemeral then 94 else 93
  }

  predicate IdentityOk(i: Identity) {
    i.Stored? ==> i.valid
  }

  function WorkspaceSize(w: Workspace): nat {
    w.rest.size + (if w.identity.Some? then FieldSize("identity", IdentitySize(w.identity.value)) else 0)
  }

  predicate WorkspaceGuard(g: Guards, w: Workspace) {
    w.rest.valid && g.safeId(w.id) && (w.identity.Some? ==> IdentityOk(w.identity.value))
  }

  predicate WorkspaceOk(g: Guards, w: Workspace) {
    WorkspaceGuard(g, w) && WorkspaceSize(w) <= 24 * KILO
  }

  function AddIdentity(w: Workspace): Workspace {
    if w.identity.Some? then w else w.(identity := Some(Added(w.isPrivate)))
  }

  /** A workspace without an identity has room for the one that is added. */
  predicate WorkspaceRoom(w: Workspace) {
    w.identity.None? ==> WorkspaceSize(w) + FieldSize("identity", if w.isPrivate then 94 else 93) <= 24 * KILO
  }

  lemma {:induction false} WorkspacePassesAgain(g: Guards, w: Workspace)
    requires WorkspaceOk(g, w)
    ensures WorkspaceOk(g, AddIdentity(w)) <==> WorkspaceRoom(w)
    ensures AddIdentity(AddIdentity(w)) == AddIdentity(w)
  {
  }

  // ---- Groups and site memories ----

  datatype TabGroup = TabGroup(id: string, workspaceId: string, rest: Rest)

  predicate GroupOk(t: TabGroup) {
    t.rest.valid && t.rest.size <= 16 * KILO
  }

  datatype Site = Site(readerMode: Option<nat>, rest: Rest)

  function SiteSize(s: Site): nat {
    s.rest.size + (if s.readerMode.Some? then FieldSize("readerMode", s.readerMode.value) else 0)
  }

  predicate SiteOk(s: Site) {
    s.rest.valid && SiteSize(s) <= 24 * KILO
  }

  function StripSite(s: Site): Site {
    s.(readerMode := None)
  }
}
