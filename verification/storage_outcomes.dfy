/** What every queued task answers, exactly: the condition on its inputs under which it succeeds, every way
    it fails, and the state it leaves. */
module StorageOutcomes {
  import opened Options
  import opened Selections
  import opened StorageEngine
  import opened StorageSteps
  import opened StorageWrites
  import opened StorageCommits

  // ---- The lists the tasks work on ----

  function OtherId(id: string): string -> bool {
    (x: string) => x != id
  }

  function OtherReceipt(id: string): ExtensionReceipt -> bool {
    (r: ExtensionReceipt) => r.id != id
  }

  function OtherDownload(id: string): Download -> bool {
    (d: Download) => d.id != id
  }

  lemma {:induction false} WithoutSelects(ids: seq<string>, id: string)
    ensures Selects(ids, OtherId(id), Without(ids, id))
  {
    if ids == [] {
      SelectsNothing(OtherId(id));
    } else {
      WithoutSelects(ids[1..], id);
      assert ids == [ids[0]] + ids[1..];
      SelectsStep(ids[0], ids[1..], OtherId(id), Without(ids[1..], id));
    }
  }

  lemma {:induction false} OthersSelect(rs: seq<ExtensionReceipt>, id: string)
    ensures Selects(rs, OtherReceipt(id), OtherReceipts(rs, id))
  {
    if rs == [] {
      SelectsNothing(OtherReceipt(id));
    } else {
      OthersSelect(rs[1..], id);
      assert rs == [rs[0]] + rs[1..];
      SelectsStep(rs[0], rs[1..], OtherReceipt(id), OtherReceipts(rs[1..], id));
    }
  }

  lemma {:induction false} WithoutDownloadSelects(ds: seq<Download>, id: string)
    ensures Selects(ds, OtherDownload(id), WithoutDownload(ds, id))
  {
    if ds == [] {
      SelectsNothing(OtherDownload(id));
    } else {
      WithoutDownloadSelects(ds[1..], id);
      assert ds == [ds[0]] + ds[1..];
      SelectsStep(ds[0], ds[1..], OtherDownload(id), WithoutDownload(ds[1..], id));
    }
  }

  predicate IsUnfinished(d: Download) {
    d.state != Finished && d.state != Cancelled
  }

  lemma {:induction false} UnfinishedSelects(ds: seq<Download>)
    ensures Selects(ds, IsUnfinished, Unfinished(ds))
  {
    if ds == [] {
      SelectsNothing(IsUnfinished);
    } else {
      UnfinishedSelects(ds[1..]);
      assert ds == [ds[0]] + ds[1..];
      SelectsStep(ds[0], ds[1..], IsUnfinished, Unfinished(ds[1..]));
    }
  }

  /** The first receipt of the id, if it has one. */
  predicate FirstReceipt(rs: seq<ExtensionReceipt>, id: string, k: nat) {
    k < |rs| && rs[k].id == id && forall j | 0 <= j < k :: rs[j].id != id
  }

  lemma {:induction false} FoundIsFirst(rs: seq<ExtensionReceipt>, id: string, r: ExtensionReceipt)
    ensures FindReceipt(rs, id) == Some(r) <==> exists k: nat :: FirstReceipt(rs, id, k) && rs[k] == r
  {
    if rs != [] {
      FoundIsFirst(rs[1..], id, r);
      if rs[0].id == id {
        assert FirstReceipt(rs, id, 0);
      } else {
        if k: nat :| FirstReceipt(rs[1..], id, k) && rs[1..][k] == r {
          assert FirstReceipt(rs, id, k + 1);
        }
        if k: nat :| FirstReceipt(rs, id, k) && rs[k] == r {
          assert FirstReceipt(rs[1..], id, k - 1);
        }
      }
    }
  }

  // ---- Outcomes ----

  /** The profile has a normal form, and that is the text last written or the write works. */
  predicate Writable(env: Env, s: Engine, asked: Profile, io: Io) {
    env.normalize(asked).Some? && (io.write || s.lastWritten == env.normalize(asked))
  }

  /** File, cache and last text hold the normal form; a text that was last written is not written again. */
  predicate Landed(env: Env, s: Engine, t: Engine, asked: Profile) {
    && env.normalize(asked).Some?
    && var next := env.normalize(asked).value;
       if s.lastWritten == Some(next) then Unwritten(s, t)
       else t.file == Holds(next) && t.cached == Some(next) && t.lastWritten == Some(next)
  }

  /** What a failed write says: no normal form, or a file operation. */
  function WriteFailure(env: Env, asked: Profile): StoreError {
    if env.normalize(asked).None? then InvalidData else FileFailed
  }

  /** Apart from a plain save, a task needs the data loaded. */
  lemma {:induction false} UnloadedIsRefused(env: Env, s: Engine, task: Task, io: Io)
    requires s.cached.None? && !task.Save?
    ensures Run(env, s, task, io) == Step(s, Failed(NotLoaded), false)
  {
  }

  /** A plain save succeeds exactly when its generation is the cached one and its data, with the downloads of
      the main process once it has a list, can be written. */
  lemma {:induction false} SaveIff(env: Env, s: Engine, data: Profile, io: Io)
    ensures var step := Run(env, s, Save(data), io);
      var asked := if s.downloads.Some? then data.(downloads := s.downloads.value) else data;
      && (step.outcome == Done <==> Generation(data) == CachedGeneration(s) && Writable(env, s, asked, io))
      && (step.outcome == Done ==> Landed(env, s, step.state, asked))
      && (step.outcome != Done ==>
            && Unwritten(s, step.state)
            && step.outcome == Failed(if Generation(data) != CachedGeneration(s) then StaleGeneration else WriteFailure(env, asked)))
      && step.state.downloads == s.downloads && !step.merged
  {
  }

  /** A renderer save succeeds exactly when it carries the cached import state and its data with the main list
      can be written; only a save with another import state leaves an uninitialised list alone. */
  lemma {:induction false} SaveRendererIff(env: Env, s: Engine, data: Profile, io: Io)
    requires s.cached.Some?
    ensures var step := Run(env, s, SaveRenderer(data), io);
      var list := if s.downloads.Some? then s.downloads.value else s.cached.value.downloads;
      var asked := data.(downloads := list);
      && (step.outcome == Done <==> data.importState == s.cached.value.importState && Writable(env, s, asked, io))
      && (step.outcome == Done ==> Landed(env, s, step.state, asked))
      && (step.outcome != Done ==>
            && Unwritten(s, step.state)
            && step.outcome == Failed(if data.importState != s.cached.value.importState then StaleImportState else WriteFailure(env, asked)))
      && step.state.downloads == (if data.importState == s.cached.value.importState then Some(list) else s.downloads)
      && !step.merged
  {
  }

  /** A download task keeps its new list whether the write works or not, and answers what the write does. */
  predicate KeepsList(env: Env, s: Engine, current: Profile, list: seq<Download>, io: Io, step: Step) {
    var asked := current.(downloads := list);
    && step.outcome == (if Writable(env, s, asked, io) then Done else Failed(WriteFailure(env, asked)))
    && (if Writable(env, s, asked, io) then Landed(env, s, step.state, asked) else Unwritten(s, step.state))
    && step.state.downloads == Some(list) && !step.merged
  }

  lemma {:induction false} DownloadsIff(env: Env, s: Engine, current: Profile, list: seq<Download>, io: Io)
    requires s.cached == Some(current)
    ensures KeepsList(env, s, current, list, io, DownloadTask(env, s, current, list, io))
  {
  }

  /** At most 199 of a list, the oldest being the last. */
  function Newest(ds: seq<Download>): seq<Download> {
    if |ds| < 200 then ds else ds[..199]
  }

  /** The list after an upsert: the download, then the others in their order, the oldest falling out at two hundred. */
  ghost predicate Upserted(ds: seq<Download>, d: Download, list: seq<Download>) {
    exists rest :: Selects(ds, OtherDownload(d.id), rest) && list == [d] + Newest(rest)
  }

  lemma {:induction false} BoundedIsNewest(d: Download, rest: seq<Download>)
    ensures Bounded([d] + rest) == [d] + Newest(rest)
  {
  }

  lemma {:induction false} UpsertIsUpserted(ds: seq<Download>, d: Download)
    ensures Upserted(ds, d, UpsertInto(ds, d))
  {
    WithoutDownloadSelects(ds, d.id);
    BoundedIsNewest(d, WithoutDownload(ds, d.id));
  }

  lemma {:induction false} UpsertIff(env: Env, s: Engine, d: Download, io: Io)
    requires s.cached.Some?
    ensures var step := Run(env, s, Upsert(d), io);
      && step.state.downloads.Some?
      && Upserted(if s.downloads.Some? then s.downloads.value else s.cached.value.downloads, d, step.state.downloads.value)
      && KeepsList(env, s, s.cached.value, step.state.downloads.value, io, step)
  {
    var ds := if s.downloads.Some? then s.downloads.value else s.cached.value.downloads;
    UpsertIsUpserted(ds, d);
    DownloadsIff(env, s, s.cached.value, UpsertInto(ds, d), io);
    assert Run(env, s, Upsert(d), io) == DownloadTask(env, s, s.cached.value, UpsertInto(ds, d), io);
  }

  lemma {:induction false} ClearIff(env: Env, s: Engine, io: Io)
    requires s.cached.Some?
    ensures var step := Run(env, s, ClearCompleted, io);
      && step.state.downloads.Some?
      && Selects(if s.downloads.Some? then s.downloads.value else s.cached.value.downloads, IsUnfinished, step.state.downloads.value)
      && KeepsList(env, s, s.cached.value, step.state.downloads.value, io, step)
  {
    var ds := if s.downloads.Some? then s.downloads.value else s.cached.value.downloads;
    UnfinishedSelects(ds);
    DownloadsIff(env, s, s.cached.value, Unfinished(ds), io);
  }

  /** A replacement succeeds exactly when the safety copy works and its data, in the next generation and without
      an import, can be written; its downloads then are the main list, and after a failure nothing has changed. */
  lemma {:induction false} ReplaceIff(env: Env, s: Engine, data: Profile, io: Io)
    requires s.cached.Some?
    ensures var step := Run(env, s, Replace(data), io);
      var asked := data.(importState := Some(ImportState(Generation(s.cached.value) + 1, Idle, None, None, None)));
      && (step.outcome == Done <==> io.backup && Writable(env, s, asked, io))
      && (step.outcome == Done ==> Landed(env, s, step.state, asked) && step.state.downloads == Some(data.downloads))
      && (step.outcome != Done ==>
            step.state == s && step.outcome == Failed(if !io.backup then BackupFailed else WriteFailure(env, asked)))
      && !step.merged
  {
  }

  // ---- Imports ----

  /** The import state `i` after the result `e`: a failure stays to be handled, any other result is taken off the
      ids to be handled; the result replaces those recorded for its id, and with nothing left the import is completed. */
  ghost predicate Marked(i: ImportState, e: ExtensionReceipt, j: ImportState) {
    var pending := if i.pending.Some? then i.pending.value else [];
    var recorded := if i.extensions.Some? then i.extensions.value else [];
    && j.generation == i.generation && j.receipt == i.receipt
    && j.pending.Some? && j.extensions.Some?
    && (if e.status == NotInstalled then j.pending.value == pending else Selects(pending, OtherId(e.id), j.pending.value))
    && j.phase == (if j.pending.value == [] then Completed else ExtensionsPending)
    && exists rest :: Selects(recorded, OtherReceipt(e.id), rest) && j.extensions.value == rest + [e]
  }

  lemma {:induction false} RecordIsMarked(i: ImportState, e: ExtensionReceipt)
    ensures Marked(i, e, RecordIn(i, e))
  {
    WithoutSelects(Pending(i), e.id);
    OthersSelect(Receipts(i), e.id);
  }

  /** The result that is the answer for the id: the first recorded one, unless that is a failure. */
  ghost predicate Answered(i: ImportState, id: string, r: ExtensionReceipt) {
    i.extensions.Some? && r.status != NotInstalled && exists k: nat :: FirstReceipt(i.extensions.value, id, k) && i.extensions.value[k] == r
  }

  /** The operation is that of the profile's import. */
  predicate NamesImport(p: Profile, operation: string) {
    p.importState.Some? && p.importState.value.receipt.Some? && p.importState.value.receipt.value.operationId == operation
  }

  lemma {:induction false} AnsweredIff(i: ImportState, id: string)
    ensures (exists r :: Answered(i, id, r)) <==> FindReceipt(Receipts(i), id).Some? && FindReceipt(Receipts(i), id).value.status != NotInstalled
    ensures forall r :: Answered(i, id, r) <==> FindReceipt(Receipts(i), id) == Some(r) && r.status != NotInstalled
  {
    forall r ensures Answered(i, id, r) <==> FindReceipt(Receipts(i), id) == Some(r) && r.status != NotInstalled {
      FoundIsFirst(Receipts(i), id, r);
    }
    var found := FindReceipt(Receipts(i), id);
    assert found.Some? && found.value.status != NotInstalled ==> Answered(i, id, found.value);
  }

  /** A result that is refused, or already answered, changes nothing. */
  lemma {:induction false} RecordRefuses(env: Env, s: Engine, operation: string, e: ExtensionReceipt, io: Io)
    requires s.cached.Some?
    ensures !env.validExtension(e) ==> Run(env, s, Record(operation, e), io) == Step(s, Failed(InvalidReceipt), false)
    ensures env.validExtension(e) && !NamesImport(s.cached.value, operation) ==>
      Run(env, s, Record(operation, e), io) == Step(s, Failed(NoSuchImport), false)
    ensures env.validExtension(e) && NamesImport(s.cached.value, operation) ==>
      var i := s.cached.value.importState.value;
      && (forall r | Answered(i, e.id, r) :: Run(env, s, Record(operation, e), io) == Step(s, Recorded(r), false))
      && ((forall r :: !Answered(i, e.id, r)) && !(i.pending.Some? && e.id in i.pending.value) ==>
            Run(env, s, Record(operation, e), io) == Step(s, Failed(NotSelected), false))
  {
    if NamesImport(s.cached.value, operation) {
      AnsweredIff(s.cached.value.importState.value, e.id);
    }
  }

  /** What a write of `asked` leaves in the file: its normal form, or what already stands for it. */
  function FileAfter(env: Env, s: Engine, asked: Profile): File
    requires env.normalize(asked).Some?
  {
    if s.lastWritten == env.normalize(asked) then s.file else Holds(env.normalize(asked).value)
  }

  /** The write of a result, and the answer after the file is read back; without that read the answer is a
      failure although the result was written. */
  predicate RecordsNew(env: Env, s: Engine, asked: Profile, e: ExtensionReceipt, io: Io, step: Step) {
    && !step.merged && step.state.downloads == s.downloads
    && (if Writable(env, s, asked, io) then
          var file := FileAfter(env, s, asked);
          && Landed(env, s, step.state, asked)
          && step.outcome == (if io.read && file.Holds? && env.normalize(file.data).Some? then Recorded(e) else Failed(ReadBackFailed))
        else Unwritten(s, step.state) && step.outcome == Failed(WriteFailure(env, asked)))
  }

  lemma {:induction false} RecordNewIff(env: Env, s: Engine, i: ImportState, e: ExtensionReceipt, io: Io)
    requires Lawful(env) && Coherent(env, s) && s.cached.Some? && s.cached.value.importState == Some(i) && e.id in Pending(i)
    ensures var marked := s.cached.value.(importState := Some(RecordIn(i, e)));
      RecordsNew(env, s, Owned(s, marked), e, io, RecordNew(env, s, s.cached.value, i, e, io))
  {
    var marked := s.cached.value.(importState := Some(RecordIn(i, e)));
    assert RecordIn(i, e).generation == i.generation;
  }

  /** Any other result of a selected extension is recorded exactly when it can be written and the file then read
      and normalised. */
  lemma {:induction false} RecordIff(env: Env, s: Engine, operation: string, e: ExtensionReceipt, io: Io)
    requires Lawful(env) && Coherent(env, s) && s.cached.Some? && env.validExtension(e) && NamesImport(s.cached.value, operation)
    requires var i := s.cached.value.importState.value;
      i.pending.Some? && e.id in i.pending.value && forall r :: !Answered(i, e.id, r)
    ensures var i := s.cached.value.importState.value;
      exists j :: Marked(i, e, j) && RecordsNew(env, s, Owned(s, s.cached.value.(importState := Some(j))), e, io, Run(env, s, Record(operation, e), io))
  {
    var i := s.cached.value.importState.value;
    AnsweredIff(i, e.id);
    RecordNewIff(env, s, i, e, io);
    RecordIsMarked(i, e);
  }

  // ---- Commits ----

  /** The import an accepted merge starts: the next generation, its receipt, its extensions to be handled and no result yet. */
  function Started(current: Profile, m: Merged): Profile {
    var pending := if m.data.importState.Some? && m.data.importState.value.pending.Some? then m.data.importState.value.pending.value else [];
    m.data.(importState := Some(ImportState(Generation(current) + 1, ExtensionsPending, Some(m.receipt), Some(pending), None)))
  }

  /** The write of an import and the answer after the file is read back: committed when the normal form is read back
      as itself, and otherwise a failure although the import was written. */
  predicate CommitsNew(env: Env, s: Engine, asked: Profile, m: Merged, io: Io, step: Step) {
    && step.merged && step.state.downloads == s.downloads
    && (if env.normalize(asked).Some? && io.write then
          var next := env.normalize(asked).value;
          && step.state.file == Holds(next) && step.state.cached == Some(next) && step.state.lastWritten == Some(next)
          && step.outcome == (if io.read && env.normalize(next) == Some(next) then Committed(next, m.receipt, CachedGeneration(s) + 1)
                              else Failed(ReadBackFailed))
        else step.state == s && step.outcome == Failed(WriteFailure(env, asked)))
  }

  /** A new operation whose merge is not in order is refused, and nothing changes. */
  lemma {:induction false} CommitRefuses(env: Env, s: Engine, operation: string, merge: Profile -> Option<Merged>,
                                         io: Io)
    requires s.cached.Some? && !NamesImport(s.cached.value, operation)
    ensures merge(s.cached.value).None? ==> Run(env, s, Commit(operation, merge), io) == Step(s, Failed(MergeFailed), true)
    ensures merge(s.cached.value).Some? && !MergeOk(env, s.cached.value, operation, merge(s.cached.value).value) ==>
      var m := merge(s.cached.value).value;
      var valid := m.receipt.operationId == operation && env.validReceipt(Generation(s.cached.value) + 1, m.receipt);
      Run(env, s, Commit(operation, merge), io) == Step(s, Failed(if valid then ForgedGeneration else InvalidReceipt), true)
  {
  }

  lemma {:induction false} CandidateIsStarted(current: Profile, m: Merged)
    ensures Candidate(current, m) == Started(current, m)
  {
  }

  lemma {:induction false} CommitMergedIff(env: Env, s: Engine, current: Profile, operation: string, m: Merged, io: Io)
    requires Lawful(env) && Coherent(env, s) && s.cached == Some(current) && MergeOk(env, current, operation, m)
    ensures CommitsNew(env, s, Owned(s, Started(current, m)), m, io, CommitMerged(env, s, current, operation, m, io))
  {
    CandidateIsStarted(current, m);
    if Imported(env, s, current, m).Some? {
      CandidateIsNew(env, s, current, m);
    }
  }

  /** A new operation whose merge is in order is written and read back. */
  lemma {:induction false} CommitIff(env: Env, s: Engine, operation: string, merge: Profile -> Option<Merged>, io: Io)
    requires Lawful(env) && Coherent(env, s) && s.cached.Some? && !NamesImport(s.cached.value, operation)
    requires merge(s.cached.value).Some? && MergeOk(env, s.cached.value, operation, merge(s.cached.value).value)
    ensures var m := merge(s.cached.value).value;
      CommitsNew(env, s, Owned(s, Started(s.cached.value, m)), m, io, Run(env, s, Commit(operation, merge), io))
  {
    CommitMergedIff(env, s, s.cached.value, operation, merge(s.cached.value).value, io);
  }

  /** The operation of the profile's import is not merged again: the answer is read back, and nothing changes. */
  lemma {:induction false} CommitRepeats(env: Env, s: Engine, operation: string, merge: Profile -> Option<Merged>,
                                         io: Io)
    requires s.cached.Some? && NamesImport(s.cached.value, operation)
    ensures var step := Run(env, s, Commit(operation, merge), io);
      && step.state == s && !step.merged
      && (step.outcome.Committed? <==>
            && io.read && s.file.Holds? && env.normalize(s.file.data).Some?
            && var disk := env.normalize(s.file.data).value;
               NamesImport(disk, operation) && disk.importState.value.generation == s.cached.value.importState.value.generation)
      && (step.outcome.Committed? ==>
            && env.normalize(s.file.data) == Some(step.outcome.data) && Some(step.outcome.receipt) == s.cached.value.importState.value.receipt
            && step.outcome.generation == s.cached.value.importState.value.generation)
      && (!step.outcome.Committed? ==> step.outcome == Failed(ReadBackFailed))
  {
  }

  // ---- Loading ----

  /** The state a load has put its profile into when the save of it fails. */
  predicate OnlyCached(s: Engine, t: Engine, p: Profile) {
    t.cached == Some(p) && t.file == s.file && t.lastWritten == s.lastWritten && t.downloads == s.downloads
  }

  /** A load whose profile has to be saved: the save succeeds when it can be written, and otherwise the profile is
      cached all the same. */
  predicate LoadsAndSaves(env: Env, s: Engine, p: Profile, io: Io, w: Written) {
    var asked := if s.downloads.Some? then p.(downloads := s.downloads.value) else p;
    if env.normalize(asked).Some? && io.write
    then w.error == None && Landed(env, s, w.state, asked) && w.state.downloads == s.downloads
    else w.error == Some(WriteFailure(env, asked)) && OnlyCached(s, w.state, p)
  }

  /** A first load.  A file of the current schema is only read; the default profile for a missing file, and the
      normal form of a file of another schema, are also saved. */
  lemma {:induction false} LoadIff(env: Env, s: Engine, backup: Option<Profile>, io: Io)
    requires Lawful(env) && s.cached.None? && s.lastWritten.None?
    ensures var w := LoadAlone(env, s, backup, io);
      && (!io.read ==> w == Written(s, Some(FileFailed)))
      && (io.read && s.file == Missing ==> LoadsAndSaves(env, s, env.initial, io, w))
      && (io.read && s.file.Holds? && env.normalize(s.file.data).Some? ==>
            var p := env.normalize(s.file.data).value;
            if p.schemaVersion == s.file.data.schemaVersion
            then w.error == None && w.state == Engine(s.file, Some(p), Some(p), s.downloads)
            else LoadsAndSaves(env, s, p, io, w))
  {
  }

  /** A first load of contents that cannot be used: once they are copied, the newest valid backup or else the
      default profile is saved, which needs a profile from before any import; nothing is cached unless that works. */
  lemma {:induction false} RecoverIff(env: Env, s: Engine, backup: Option<Profile>, io: Io)
    requires Lawful(env) && s.cached.None? && s.lastWritten.None? && io.read
    requires s.file == Corrupt || (s.file.Holds? && env.normalize(s.file.data).None?)
    ensures var w := LoadAlone(env, s, backup, io);
      var p := if backup.Some? then backup.value else env.initial;
      var asked := if s.downloads.Some? then p.(downloads := s.downloads.value) else p;
      && (w.error == None <==> io.backup && Generation(p) == 0 && env.normalize(asked).Some? && io.write)
      && (w.error == None ==> Landed(env, s, w.state, asked) && w.state.downloads == s.downloads)
      && (w.error != None ==>
            && w.state == s
            && w.error == Some(if !io.backup then BackupFailed else if Generation(p) != 0 then StaleGeneration else WriteFailure(env, asked)))
  {
  }

  /** Later loads answer from the cache. */
  lemma {:induction false} CachedIsLoaded(env: Env, s: Engine, backup: Option<Profile>, io: Io)
    requires s.cached.Some?
    ensures LoadAlone(env, s, backup, io) == Written(s, None)
  {
  }
}
