/** The migration as it is written: one record whose fields are reassigned one after the other. */
module ProfileMigrate {
  import opened Options
  import opened ProfileLists
  import opened ProfileItems
  import opened ProfileNormal
  import opened ProfileNormaliser
  import opened ProfileAccepts
  import ProfileSettings
  import StorageEngine

  method BoundPlain(value: seq<Rest>, limit: nat, max: nat) returns (r: seq<Rest>)
    ensures r == Kept(value, limit, Within(max))
  {
    r := BoundedArray(value, limit, (x: Rest) => x.valid, (x: Rest) => x.size, max, Within(max));
  }

  method MigratePlain(p: PlainLists) returns (merged: PlainLists)
    ensures merged == Plain(p)
  {
    merged := p;
    var bookmarks := BoundPlain(merged.bookmarks, 5000, 16 * KILO);
    merged := merged.(bookmarks := bookmarks);
    var folders := BoundPlain(merged.bookmarkFolders, 1000, 8 * KILO);
    merged := merged.(bookmarkFolders := folders);
    var history := BoundPlain(merged.history, 1200, 16 * KILO);
    merged := merged.(history := history);
    var notes := BoundPlain(merged.notes, 1000, 256 * KILO);
    merged := merged.(notes := notes);
    var reading := BoundPlain(merged.readingList, 1200, 24 * KILO);
    merged := merged.(readingList := reading);
    var links := BoundPlain(merged.quickLinks, 24, 8 * KILO);
    merged := merged.(quickLinks := links);
    var todos := BoundPlain(merged.todos, 300, 8 * KILO);
    merged := merged.(todos := todos);
    var macros := BoundPlain(merged.macros, 200, 64 * KILO);
    merged := merged.(macros := macros);
    var logs := BoundPlain(merged.macroLogs, 250, 16 * KILO);
    merged := merged.(macroLogs := logs);
    var commands := BoundPlain(merged.recentCommandIds, 32, KILO);
    merged := merged.(recentCommandIds := commands);
  }

  method MigrateWorkspaces(g: Guards, d: Defaults, p: Lists) returns (r: seq<Workspace>)
    requires d.workspaces != []
    ensures r == Workspaces(g, d, p)
  {
    var kept := BoundedArray(p.workspaces, 100, (w: Workspace) => WorkspaceGuard(g, w), WorkspaceSize, 24 * KILO, PassingWorkspace(g));
    r := Map(kept, AddIdentity);
    FilterIs(kept, Anywhere());
    if r == [] {
      r := d.workspaces;
    }
  }

  method MigrateTabs(g: Guards, p: Lists, ids: set<string>, groups: set<string>) returns (tabs: seq<Tab>, closed: seq<ClosedTab>)
    ensures tabs == Map(KeptTabs(g, p.tabs, ids, groups), MigrateTab)
    ensures closed == Map(KeptClosed(g, p.closedTabs, ids), MigrateClosed)
  {
    tabs := BoundedArray(p.tabs, 1200, (t: Tab) => TabGuard(g, t), (t: Tab) => TabSize(g, t), 32 * KILO, PassingTab(g));
    tabs := Map(Filter(tabs, TabIn(ids, groups)), MigrateTab);
    closed := BoundedArray(p.closedTabs, 80, (t: ClosedTab) => ClosedGuard(g, t), (t: ClosedTab) => ClosedSize(g, t), 16 * KILO,
      PassingClosed(g));
    closed := Map(Filter(closed, ClosedIn(ids)), MigrateClosed);
  }

  method MigrateRecords(g: Guards, p: Lists) returns (sites: seq<Site>, snapshots: seq<Snapshot>)
    ensures sites == Pass(p.sites, 300, SiteOk, Anywhere(), StripSite)
    ensures snapshots == Pass(p.snapshots, 100, PassingSnapshot(g), Anywhere(), MigrateSnapshot)
  {
    sites := BoundedArray(p.sites, 300, (s: Site) => s.rest.valid, SiteSize, 24 * KILO, SiteOk);
    FilterIs(sites, Anywhere());
    sites := Map(sites, StripSite);
    snapshots := BoundedArray(p.snapshots, 100, (s: Snapshot) => SnapshotGuard(g, s), (s: Snapshot) => SnapshotSize(g, s), 128 * KILO,
      PassingSnapshot(g));
    FilterIs(snapshots, Anywhere());
    snapshots := Map(snapshots, MigrateSnapshot);
  }

  /** The lists and the references between them. */
  method MigrateLists(g: Guards, d: Defaults, p: Lists) returns (merged: Lists)
    requires d.workspaces != []
    ensures merged == Normalize(g, d, p)
  {
    merged := p;
    if FindWorkspace(merged.workspaces, merged.activeWorkspaceId).None? {
      merged := merged.(activeWorkspaceId := if merged.workspaces != [] then merged.workspaces[0].id else d.activeWorkspaceId);
    }
    var workspaces := MigrateWorkspaces(g, d, merged);
    merged := merged.(workspaces := workspaces);
    var ids := WorkspaceIds(workspaces);
    var groups := BoundedArray(merged.tabGroups, 300, (t: TabGroup) => t.rest.valid, (t: TabGroup) => t.rest.size, 16 * KILO, GroupOk);
    merged := merged.(tabGroups := Filter(groups, GroupIn(ids)));
    var tabs, closed := MigrateTabs(g, merged, ids, GroupIds(merged.tabGroups));
    merged := merged.(tabs := tabs, closedTabs := closed);
    var sites, snapshots := MigrateRecords(g, merged);
    merged := merged.(sites := sites, snapshots := snapshots);
    var plain := MigratePlain(merged.plain);
    merged := merged.(plain := plain);
    var active := FindWorkspace(merged.workspaces, merged.activeWorkspaceId);
    merged := merged.(splitView := Split(g, merged.splitView, active, merged.tabs));
    if active.None? {
      merged := merged.(activeWorkspaceId := merged.workspaces[0].id);
    }
  }

  method MigrateDownloads(downloads: seq<StorageEngine.Download>, g: Guards) returns (r: seq<StorageEngine.Download>)
    ensures r == KeptDownloads(g, downloads)
  {
    r := BoundedArray(downloads, 250, (d: StorageEngine.Download) => DownloadGuard(g, d), (d: StorageEngine.Download) => d.rest.size,
      16 * KILO, PassingDownload(g));
  }

  /** The whole migration: settings and onboarding first, then the record over them, then its lists. */
  method MigrateData(r: Rules, data: StorageEngine.Profile) returns (merged: StorageEngine.Profile)
    requires Usable(r)
    ensures merged == Migrate(r, data)
    ensures ProfileSettings.BasisOk(r.basis) ==> IsMigrated(r, data, merged)
  {
    if ProfileSettings.BasisOk(r.basis) {
      MigrateIs(r, data);
    }
    var migrated := ProfileSettings.MigrateSettings(r.basis, data.onboarding, data.schemaVersion, r.now, data.settings);
    merged := data.(schemaVersion := ProfileSettings.SCHEMA_VERSION, onboarding := migrated.onboarding, settings := migrated.settings);
    var lists := MigrateLists(r.guards, r.defaults, merged.lists);
    merged := merged.(lists := lists);
    var downloads := MigrateDownloads(merged.downloads, r.guards);
    merged := merged.(downloads := downloads);
  }
}
