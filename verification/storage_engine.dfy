/** The profile storage engine: the file, the cache, the last text written and the download
    list of the main process, and every queued task as one step on them.  Texts stand for the
    data they parse to, since serializing is injective. */
module StorageEngine {
  import opened Options
  import ProfileItems
  import ProfileNormal
  import ProfileSettings

  datatype Phase = Idle | ExtensionsPending | Completed

  datatype ExtensionStatus = Installed | PartlyCompatible | Unsupported | NotInstalled | AlreadyInstalled | Declined

  datatype ExtensionReceipt = ExtensionReceipt(id: string, status: ExtensionStatus, detail: string)

  datatype ImportReceipt = ImportReceipt(operationId: string, detail: string)

  datatype ImportState = ImportState(
    generation: nat, phase: Phase, receipt: Option<ImportReceipt>, pending: Option<seq<string>>,
    extensions: Option<seq<ExtensionReceipt>>)

  datatype DownloadState = Running | Finished | Cancelled | Interrupted

  datatype Download = Download(id: string, state: DownloadState, rest: ProfileItems.Rest)

  /** A profile.  The engine itself only looks at the first three fields. */
  datatype Profile = Profile(
    schemaVersion: int, importState: Option<ImportState>, downloads: seq<Download>, lists: ProfileNormal.Lists,
    settings: ProfileSettings.Settings, onboarding: ProfileSettings.Onboarding)

  datatype File = Missing | Corrupt | Holds(data: Profile)

  datatype Engine = Engine(file: File, cached: Option<Profile>, lastWritten: Option<Profile>, downloads: Option<seq<Download>>)

  /** The normaliser, the checks on import receipts, the default profile and the current schema. */
  datatype Env = Env(
    normalize: Profile -> Option<Profile>, validDownloads: seq<Download> -> seq<Download>,
    validReceipt: (nat, ImportReceipt) -> bool, validExtension: ExtensionReceipt -> bool, initial: Profile,
    schema: int)

  /** Normalising keeps the import state, cleans the downloads on their own and gives the current schema. */
  ghost predicate Lawful(env: Env) {
    && env.initial.importState == None
    && forall p, q | env.normalize(p) == Some(q) ::
         q.importState == p.importState && q.downloads == env.validDownloads(p.downloads) && q.schemaVersion == env.schema
  }

  /** Which file operations of a task succeed. */
  datatype Io = Io(backup: bool, write: bool, read: bool)

  datatype StoreError =
    | StaleGeneration | StaleImportState | InvalidData | FileFailed | BackupFailed | MergeFailed | InvalidReceipt
    | ForgedGeneration | ReadBackFailed | NoSuchImport | NotSelected | NotLoaded

  function Generation(p: Profile): nat {
    if p.importState.Some? then p.importState.value.generation else 0
  }

  function CachedGeneration(s: Engine): nat {
    if s.cached.Some? then Generation(s.cached.value) else 0
  }

  function ReceiptOf(p: Profile): Option<ImportReceipt> {
    if p.importState.Some? then p.importState.value.receipt else None
  }

  /** The data with the main process's downloads, once it has a list. */
  function Owned(s: Engine, data: Profile): Profile {
    if s.downloads.Some? then data.(downloads := s.downloads.value) else data
  }

  // ---- Writing ----

  datatype Written = Written(state: Engine, error: Option<StoreError>)

  function WriteData(env: Env, s: Engine, data: Profile, advance: bool, io: Io): Written {
    if Generation(data) != CachedGeneration(s) + (if advance then 1 else 0) then Written(s, Some(StaleGeneration))
    else
      match env.normalize(Owned(s, data))
      case None => Written(s, Some(InvalidData))
      case Some(next) =>
        if s.lastWritten == Some(next) then Written(s, None)
        else if !io.write then Written(s, Some(FileFailed))
        else Written(Engine(Holds(next), Some(next), Some(next), s.downloads), None)
  }

  /** The normalised contents of the file, if it can be read. */
  function ReadBack(env: Env, s: Engine, io: Io): Option<Profile> {
    if io.read && s.file.Holds? then env.normalize(s.file.data) else None
  }

  // ---- Queued tasks ----

  datatype Merged = Merged(data: Profile, receipt: ImportReceipt)

  datatype Task =
    | SaveRenderer(data: Profile)
    | Save(data: Profile)
    | Commit(operation: string, merge: Profile -> Option<Merged>)
    | Record(operation: string, extension: ExtensionReceipt)
    | Upsert(download: Download)
    | ClearCompleted
    | Replace(data: Profile)

  datatype Outcome =
    | Done
    | Committed(data: Profile, receipt: ImportReceipt, generation: nat)
    | Recorded(extension: ExtensionReceipt)
    | Failed(error: StoreError)

  /** A task's new state and answer, and whether it ran an import merge. */
  datatype Step = Step(state: Engine, outcome: Outcome, merged: bool)

  function Report(w: Written): Step {
    Step(w.state, if w.error.Some? then Failed(w.error.value) else Done, false)
  }

  function SaveRendererTask(env: Env, s: Engine, current: Profile, data: Profile, io: Io): Step {
    if data.importState != current.importState then Step(s, Failed(StaleImportState), false)
    else
      var owned := if s.downloads.Some? then s else s.(downloads := Some(current.downloads));
      Report(WriteData(env, owned, data.(downloads := owned.downloads.value), false, io))
  }

  /** The data an accepted merge asks to be written. */
  function Candidate(current: Profile, m: Merged): Profile {
    var pending := if m.data.importState.Some? && m.data.importState.value.pending.Some?
                   then m.data.importState.value.pending.value else [];
    m.data.(importState := Some(ImportState(Generation(current) + 1, ExtensionsPending, Some(m.receipt), Some(pending), None)))
  }

  function CommitAgain(env: Env, s: Engine, current: Profile, receipt: ImportReceipt, io: Io): Step {
    match ReadBack(env, s, io)
    case None => Step(s, Failed(ReadBackFailed), false)
    case Some(disk) =>
      if ReceiptOf(disk).None? || ReceiptOf(disk).value.operationId != receipt.operationId || Generation(disk) != Generation(current)
      then Step(s, Failed(ReadBackFailed), false)
      else Step(s, Committed(disk, receipt, Generation(disk)), false)
  }

  function CommitMerged(env: Env, s: Engine, current: Profile, operation: string, m: Merged, io: Io): Step {
    if m.receipt.operationId != operation || !env.validReceipt(Generation(current) + 1, m.receipt) then Step(s, Failed(InvalidReceipt), true)
    else if m.data.importState.Some? && m.data.importState.value.generation != Generation(current) then Step(s, Failed(ForgedGeneration), true)
    else
      var w := WriteData(env, s, Candidate(current, m), true, io);
      if w.error.Some? then Step(w.state, Failed(w.error.value), true)
      else
        match ReadBack(env, w.state, io)
        case None => Step(w.state, Failed(ReadBackFailed), true)
        case Some(disk) =>
          if ReceiptOf(disk).None? || ReceiptOf(disk).value.operationId != operation
            || Generation(disk) != Generation(current) + 1 || Some(disk) != w.state.cached
          then Step(w.state, Failed(ReadBackFailed), true)
          else Step(w.state, Committed(disk, m.receipt, Generation(current) + 1), true)
  }

  function CommitTask(env: Env, s: Engine, current: Profile, operation: string, merge: Profile -> Option<Merged>, io: Io): Step {
    if ReceiptOf(current).Some? && ReceiptOf(current).value.operationId == operation then
      CommitAgain(env, s, current, ReceiptOf(current).value, io)
    else
      match merge(current)
      case None => Step(s, Failed(MergeFailed), true)
      case Some(m) => CommitMerged(env, s, current, operation, m, io)
  }

  function Receipts(i: ImportState): seq<ExtensionReceipt> {
    if i.extensions.Some? then i.extensions.value else []
  }

  function Pending(i: ImportState): seq<string> {
    if i.pending.Some? then i.pending.value else []
  }

  function FindReceipt(rs: seq<ExtensionReceipt>, id: string): Option<ExtensionReceipt> {
    if rs == [] then None else if rs[0].id == id then Some(rs[0]) else FindReceipt(rs[1..], id)
  }

  function Without(ids: seq<string>, id: string): seq<string> {
    if ids == [] then [] else if ids[0] == id then Without(ids[1..], id) else [ids[0]] + Without(ids[1..], id)
  }

  function OtherReceipts(rs: seq<ExtensionReceipt>, id: string): seq<ExtensionReceipt> {
    if rs == [] then []
    else if rs[0].id == id then OtherReceipts(rs[1..], id)
    else [rs[0]] + OtherReceipts(rs[1..], id)
  }

  /** The import state with one more recorded result. */
  function RecordIn(i: ImportState, e: ExtensionReceipt): ImportState {
    var pending := if e.status.NotInstalled? then Pending(i) else Without(Pending(i), e.id);
    i.(phase := if pending == [] then Completed else ExtensionsPending,
       pending := Some(pending),
       extensions := Some(OtherReceipts(Receipts(i), e.id) + [e]))
  }

  function RecordTask(env: Env, s: Engine, current: Profile, operation: string, e: ExtensionReceipt, io: Io): Step {
    if ReceiptOf(current).None? || ReceiptOf(current).value.operationId != operation then Step(s, Failed(NoSuchImport), false)
    else
      var i := current.importState.value;
      match FindReceipt(Receipts(i), e.id)
      case Some(prior) => if prior.status.NotInstalled? then RecordNew(env, s, current, i, e, io) else Step(s, Recorded(prior), false)
      case None => RecordNew(env, s, current, i, e, io)
  }

  function RecordNew(env: Env, s: Engine, current: Profile, i: ImportState, e: ExtensionReceipt, io: Io): Step {
    if e.id !in Pending(i) then Step(s, Failed(NotSelected), false)
    else
      var candidate := current.(importState := Some(RecordIn(i, e)));
      var w := WriteData(env, s, candidate, false, io);
      if w.error.Some? then Step(w.state, Failed(w.error.value), false)
      else
        match ReadBack(env, w.state, io)
        case None => Step(w.state, Failed(ReadBackFailed), false)
        case Some(disk) =>
          if disk.importState != candidate.importState then Step(w.state, Failed(ReadBackFailed), false)
          else Step(w.state, Recorded(e), false)
  }

  const MAX_DOWNLOADS: nat := 200

  function WithoutDownload(ds: seq<Download>, id: string): seq<Download> {
    if ds == [] then []
    else if ds[0].id == id then WithoutDownload(ds[1..], id)
    else [ds[0]] + WithoutDownload(ds[1..], id)
  }

  function Bounded(ds: seq<Download>): seq<Download> {
    if |ds| <= MAX_DOWNLOADS then ds else ds[..MAX_DOWNLOADS]
  }

  /** The newest first, each id once, at most two hundred. */
  function UpsertInto(ds: seq<Download>, d: Download): seq<Download> {
    Bounded([d] + WithoutDownload(ds, d.id))
  }

  function Unfinished(ds: seq<Download>): seq<Download> {
    if ds == [] then []
    else if ds[0].state.Finished? || ds[0].state.Cancelled? then Unfinished(ds[1..])
    else [ds[0]] + Unfinished(ds[1..])
  }

  /** The list the next download operation starts from. */
  function MainDownloads(s: Engine, current: Profile): seq<Download> {
    if s.downloads.Some? then s.downloads.value else current.downloads
  }

  /** A download operation takes the new list before it writes, and keeps it when the write fails. */
  function DownloadTask(env: Env, s: Engine, current: Profile, downloads: seq<Download>, io: Io): Step {
    Report(WriteData(env, s.(downloads := Some(downloads)), current.(downloads := downloads), false, io))
  }

  /** The profile a replacement or a restored backup is written as. */
  function Replacement(current: Profile, data: Profile): Profile {
    data.(importState := Some(ImportState(Generation(current) + 1, Idle, None, None, None)))
  }

  /** A replacement or a restore: a failed write gives the download list back. */
  function ReplaceTask(env: Env, s: Engine, current: Profile, data: Profile, io: Io): Step {
    if !io.backup then Step(s, Failed(BackupFailed), false)
    else
      var next := Replacement(current, data);
      var w := WriteData(env, s.(downloads := Some(next.downloads)), next, true, io);
      if w.error.Some? then Step(w.state.(downloads := s.downloads), Failed(w.error.value), false)
      else Step(w.state, Done, false)
  }

  /** One queued task; a task other than a plain save first makes sure that the data is loaded. */
  function Run(env: Env, s: Engine, task: Task, io: Io): Step {
    if task.Save? then Report(WriteData(env, s, task.data, false, io))
    else if s.cached.None? then Step(s, Failed(NotLoaded), false)
    else
      var current := s.cached.value;
      match task
      case SaveRenderer(data) => SaveRendererTask(env, s, current, data, io)
      case Save(data) => Report(WriteData(env, s, data, false, io))
      case Commit(operation, merge) => CommitTask(env, s, current, operation, merge, io)
      case Record(operation, e) => if env.validExtension(e) then RecordTask(env, s, current, operation, e, io) else Step(s, Failed(InvalidReceipt), false)
      case Upsert(d) => DownloadTask(env, s, current, UpsertInto(MainDownloads(s, current), d), io)
      case ClearCompleted => DownloadTask(env, s, current, Unfinished(MainDownloads(s, current)), io)
      case Replace(data) => ReplaceTask(env, s, current, data, io)
  }

  // ---- Loading ----

  /** A load under way: before its read, with what it read, and with what it still has to save, from
      a backup or not. */
  datatype Load = Starting | HasRead(raw: File) | Saving(data: Profile, recovered: bool)

  /** A missing file, or one that normalises, gives the load something to install. */
  predicate Installable(env: Env, raw: File) {
    raw.Missing? || (raw.Holds? && env.normalize(raw.data).Some?)
  }

  function Loaded(env: Env, raw: File): Profile
    requires Installable(env, raw)
  {
    if raw.Missing? then env.initial else env.normalize(raw.data).value
  }

  /** The state after the end of the read, and the save it leads to. */
  datatype LoadEnd = LoadEnd(state: Engine, next: Option<Load>)

  /** What a load does with the contents it read, which may be older than the file is by then.
      Contents that cannot be used are copied, and the newest valid backup, or the default profile,
      is to be saved without being cached. */
  function Install(env: Env, s: Engine, raw: File, backup: Option<Profile>, io: Io): LoadEnd {
    if Installable(env, raw) then
      var loaded := Loaded(env, raw);
      if raw.Holds? && loaded.schemaVersion == raw.data.schemaVersion
      then LoadEnd(s.(cached := Some(loaded), lastWritten := Some(loaded)), None)
      else LoadEnd(s.(cached := Some(loaded)), Some(Saving(loaded, false)))
    else if io.backup then LoadEnd(s, Some(Saving(if backup.Some? then backup.value else env.initial, true)))
    else LoadEnd(s, None)
  }

  /** A load that nothing interrupts: the cache if there is one, else the file. */
  function LoadAlone(env: Env, s: Engine, backup: Option<Profile>, io: Io): Written {
    if s.cached.Some? then Written(s, None)
    else if !io.read then Written(s, Some(FileFailed))
    else
      var installed := Install(env, s, s.file, backup, io);
      match installed.next
      case None => Written(installed.state, if Installable(env, s.file) then None else Some(BackupFailed))
      case Some(load) => if load.Saving? then WriteData(env, installed.state, load.data, false, io) else Written(installed.state, None)
  }
}
