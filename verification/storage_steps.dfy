/** What one write and one task do to the generation, the receipt, the file and the cache. */
module StorageSteps {
  import opened Options
  import opened StorageEngine

  /** The cache is what was last written, and the file holds it, or data that normalises to it;
      only before the first successful write can the file be missing. */
  ghost predicate Coherent(env: Env, s: Engine) {
    && (s.lastWritten.Some? ==> s.lastWritten == s.cached && s.file.Holds? && s.file.data.schemaVersion == env.schema)
    && (s.cached.Some? ==>
          FileCarries(env, s.file, s.cached.value) || (s.file.Missing? && s.lastWritten.None? && CachedGeneration(s) == 0))
  }

  function FileGeneration(file: File): nat {
    if file.Holds? then Generation(file.data) else 0
  }

  /** File, cache and last text are of one generation, though perhaps not of one content. */
  predicate Level(s: Engine) {
    && (s.lastWritten.Some? ==> s.cached.Some? && Generation(s.lastWritten.value) == CachedGeneration(s))
    && (s.cached.Some? ==> !s.file.Corrupt? && FileGeneration(s.file) == CachedGeneration(s))
  }

  lemma {:induction false} CoherentIsLevel(env: Env, s: Engine)
    requires Lawful(env) && Coherent(env, s)
    ensures Level(s)
  {
    if s.cached.Some? && s.file.Holds? && env.normalize(s.file.data) == s.cached {
      assert s.cached.value.importState == s.file.data.importState;
    }
  }

  ghost predicate FileCarries(env: Env, file: File, p: Profile) {
    file.Holds? && ((file.data == p && IsNormalForm(env, p)) || env.normalize(file.data) == Some(p))
  }

  ghost predicate IsNormalForm(env: Env, p: Profile) {
    exists q :: env.normalize(q) == Some(p)
  }

  /** The normalised contents of the file are the cached data. */
  ghost predicate Agrees(env: Env, s: Engine) {
    s.file.Holds? && s.cached.Some? && env.normalize(s.file.data) == s.cached
  }

  // ---- One write ----

  lemma {:induction false} WriteKeepsCoherence(env: Env, s: Engine, data: Profile, advance: bool, io: Io)
    requires Lawful(env) && Coherent(env, s)
    ensures Coherent(env, WriteData(env, s, data, advance, io).state)
    ensures WriteData(env, s, data, advance, io).state.downloads == s.downloads
  {
  }

  /** A successful write, skipped or not, leaves the normal form of the owned data in the cache. */
  lemma {:induction false} WriteCaches(env: Env, s: Engine, data: Profile, advance: bool, io: Io)
    requires Coherent(env, s) && WriteData(env, s, data, advance, io).error.None?
    ensures var after := WriteData(env, s, data, advance, io).state;
      && after.cached.Some?
      && env.normalize(Owned(s, data)) == after.cached
      && FileCarries(env, after.file, after.cached.value)
  {
  }

  /** A written import state is the one of the data. */
  lemma {:induction false} WriteInstalls(env: Env, s: Engine, data: Profile, advance: bool, io: Io)
    requires Lawful(env) && Coherent(env, s) && WriteData(env, s, data, advance, io).error.None?
    ensures var after := WriteData(env, s, data, advance, io).state;
      && after.cached.Some?
      && after.cached.value.importState == data.importState
      && (s.downloads.Some? ==> after.cached.value.downloads == env.validDownloads(s.downloads.value))
  {
    WriteCaches(env, s, data, advance, io);
  }

  /** After a write that was not skipped, file and cache agree exactly when the normal form it
      wrote is a fixed point of the normaliser. */
  lemma {:induction false} WriteAgreesIff(env: Env, s: Engine, data: Profile, advance: bool, io: Io)
    requires WriteData(env, s, data, advance, io).error.None? && env.normalize(Owned(s, data)) != s.lastWritten
    ensures var next := env.normalize(Owned(s, data));
      next.Some? && (Agrees(env, WriteData(env, s, data, advance, io).state) <==> env.normalize(next.value) == next)
  {
  }

  /** Recovery, which writes while nothing is cached, accepts a backup only from before the first import. */
  lemma {:induction false} RecoveryNeedsGenerationZero(env: Env, s: Engine, backup: Profile, io: Io)
    requires Lawful(env) && s.cached.None? && s.lastWritten.None? && !Installable(env, s.file)
    requires io.read && io.backup && io.write && env.normalize(Owned(s, backup)).Some?
    ensures LoadAlone(env, s, Some(backup), io).error.None? <==> Generation(backup) == 0
    ensures Generation(backup) != 0 ==> LoadAlone(env, s, Some(backup), io) == Written(s, Some(StaleGeneration))
  {
  }

  // ---- One task ----

  /** Queued tasks that may raise the generation. */
  predicate Importing(task: Task) {
    task.Commit? || task.Replace?
  }

  lemma {:induction false} SaveRendererKeepsCoherence(env: Env, s: Engine, current: Profile, data: Profile, io: Io)
    requires Lawful(env) && Coherent(env, s)
    ensures Coherent(env, SaveRendererTask(env, s, current, data, io).state)
  {
  }

  lemma {:induction false} CommitKeepsCoherence(env: Env, s: Engine, current: Profile, operation: string,
                                                merge: Profile -> Option<Merged>, io: Io)
    requires Lawful(env) && Coherent(env, s)
    ensures Coherent(env, CommitTask(env, s, current, operation, merge, io).state)
  {
    if merge(current).Some? {
      WriteKeepsCoherence(env, s, Candidate(current, merge(current).value), true, io);
    }
  }

  lemma {:induction false} RecordKeepsCoherence(env: Env, s: Engine, current: Profile, operation: string,
                                                e: ExtensionReceipt, io: Io)
    requires Lawful(env) && Coherent(env, s)
    ensures Coherent(env, RecordTask(env, s, current, operation, e, io).state)
  {
    if ReceiptOf(current).Some? {
      WriteKeepsCoherence(env, s, current.(importState := Some(RecordIn(current.importState.value, e))), false, io);
    }
  }

  lemma {:induction false} ReplaceKeepsCoherence(env: Env, s: Engine, current: Profile, data: Profile, io: Io)
    requires Lawful(env) && Coherent(env, s)
    ensures Coherent(env, ReplaceTask(env, s, current, data, io).state)
  {
    var next := Replacement(current, data);
    WriteKeepsCoherence(env, s.(downloads := Some(next.downloads)), next, true, io);
  }

  lemma {:induction false} RunKeepsCoherence(env: Env, s: Engine, task: Task, io: Io)
    requires Lawful(env) && Coherent(env, s)
    ensures Coherent(env, Run(env, s, task, io).state)
  {
    if s.cached.Some? {
      var current := s.cached.value;
      match task
      case SaveRenderer(data) => SaveRendererKeepsCoherence(env, s, current, data, io);
      case Save(data) => WriteKeepsCoherence(env, s, data, false, io);
      case Commit(operation, merge) => CommitKeepsCoherence(env, s, current, operation, merge, io);
      case Record(operation, e) => RecordKeepsCoherence(env, s, current, operation, e, io);
      case Upsert(d) =>
      case ClearCompleted =>
      case Replace(data) => ReplaceKeepsCoherence(env, s, current, data, io);
    }
  }

  /** Installing what the file still holds, or still lacks. */
  lemma {:induction false} InstallKeepsCoherence(env: Env, s: Engine, backup: Option<Profile>, io: Io)
    requires Lawful(env) && Coherent(env, s)
    ensures Coherent(env, Install(env, s, s.file, backup, io).state)
  {
  }

  /** A load that nothing interrupts. */
  lemma {:induction false} LoadKeepsCoherence(env: Env, s: Engine, backup: Option<Profile>, io: Io)
    requires Lawful(env) && Coherent(env, s)
    ensures Coherent(env, LoadAlone(env, s, backup, io).state)
  {
    InstallKeepsCoherence(env, s, backup, io);
    var installed := Install(env, s, s.file, backup, io);
    if installed.next.Some? && installed.next.value.Saving? {
      WriteKeepsCoherence(env, installed.state, installed.next.value.data, false, io);
    }
  }

  // ---- The generation ----

  lemma {:induction false} WriteGeneration(env: Env, s: Engine, data: Profile, advance: bool, io: Io)
    requires Lawful(env) && Level(s)
    ensures var w := WriteData(env, s, data, advance, io);
      && Level(w.state)
      && CachedGeneration(w.state) == CachedGeneration(s) + (if advance && w.error.None? then 1 else 0)
  {
  }

  /** Ordinary tasks keep the generation; an import or a replacement raises it by one, or leaves the cache alone. */
  lemma {:induction false} RunGeneration(env: Env, s: Engine, task: Task, io: Io)
    requires Lawful(env) && Level(s)
    ensures Level(Run(env, s, task, io).state)
    ensures var after := Run(env, s, task, io).state;
      && (!Importing(task) ==> CachedGeneration(after) == CachedGeneration(s))
      && (Importing(task) ==> after.cached == s.cached || CachedGeneration(after) == CachedGeneration(s) + 1)
  {
    if s.cached.Some? {
      var current := s.cached.value;
      match task
      case SaveRenderer(data) => SaveRendererGeneration(env, s, current, data, io);
      case Save(data) => WriteGeneration(env, s, data, false, io);
      case Commit(operation, merge) => CommitGeneration(env, s, current, operation, merge, io);
      case Record(operation, e) => RecordGeneration(env, s, current, operation, e, io);
      case Upsert(d) => DownloadGeneration(env, s, current, UpsertInto(MainDownloads(s, current), d), io);
      case ClearCompleted => DownloadGeneration(env, s, current, Unfinished(MainDownloads(s, current)), io);
      case Replace(data) => ReplaceGeneration(env, s, current, data, io);
    } else if task.Save? {
      WriteGeneration(env, s, task.data, false, io);
    }
  }

  lemma {:induction false} SaveRendererGeneration(env: Env, s: Engine, current: Profile, data: Profile, io: Io)
    requires Lawful(env) && Level(s)
    ensures Level(SaveRendererTask(env, s, current, data, io).state)
    ensures CachedGeneration(SaveRendererTask(env, s, current, data, io).state) == CachedGeneration(s)
  {
    var owned := if s.downloads.Some? then s else s.(downloads := Some(current.downloads));
    WriteGeneration(env, owned, data.(downloads := owned.downloads.value), false, io);
  }

  lemma {:induction false} CommitGeneration(env: Env, s: Engine, current: Profile, operation: string,
                                            merge: Profile -> Option<Merged>, io: Io)
    requires Lawful(env) && Level(s)
    ensures Level(CommitTask(env, s, current, operation, merge, io).state)
    ensures var after := CommitTask(env, s, current, operation, merge, io).state;
      after == s || CachedGeneration(after) == CachedGeneration(s) + 1
  {
    if merge(current).Some? {
      WriteGeneration(env, s, Candidate(current, merge(current).value), true, io);
    }
  }

  lemma {:induction false} RecordGeneration(env: Env, s: Engine, current: Profile, operation: string,
                                            e: ExtensionReceipt, io: Io)
    requires Lawful(env) && Level(s)
    ensures Level(RecordTask(env, s, current, operation, e, io).state)
    ensures CachedGeneration(RecordTask(env, s, current, operation, e, io).state) == CachedGeneration(s)
  {
    if ReceiptOf(current).Some? {
      WriteGeneration(env, s, current.(importState := Some(RecordIn(current.importState.value, e))), false, io);
    }
  }

  lemma {:induction false} DownloadGeneration(env: Env, s: Engine, current: Profile, downloads: seq<Download>, io: Io)
    requires Lawful(env) && Level(s)
    ensures Level(DownloadTask(env, s, current, downloads, io).state)
    ensures CachedGeneration(DownloadTask(env, s, current, downloads, io).state) == CachedGeneration(s)
  {
    WriteGeneration(env, s.(downloads := Some(downloads)), current.(downloads := downloads), false, io);
  }

  lemma {:induction false} ReplaceGeneration(env: Env, s: Engine, current: Profile, data: Profile, io: Io)
    requires Lawful(env) && Level(s)
    ensures Level(ReplaceTask(env, s, current, data, io).state)
    ensures var after := ReplaceTask(env, s, current, data, io).state;
      after.cached == s.cached || CachedGeneration(after) == CachedGeneration(s) + 1
  {
    var next := Replacement(current, data);
    WriteGeneration(env, s.(downloads := Some(next.downloads)), next, true, io);
  }

  /** A save of data from another generation is refused and changes nothing. */
  lemma {:induction false} StaleSaveIsRefused(env: Env, s: Engine, data: Profile, io: Io)
    requires Generation(data) != CachedGeneration(s)
    ensures Run(env, s, Save(data), io) == Step(s, Failed(StaleGeneration), false)
    ensures s.cached.Some? ==> Run(env, s, SaveRenderer(data), io) == Step(s, Failed(StaleImportState), false)
  {
  }

  // ---- The receipt ----

  /** A plain save of data whose receipt is the current one. */
  predicate KeepsReceipt(s: Engine, task: Task) {
    task.Save? && s.cached.Some? && Generation(task.data) == CachedGeneration(s) ==> ReceiptOf(task.data) == ReceiptOf(s.cached.value)
  }

  /** While the generation stays, so does the receipt. */
  lemma {:induction false} RunReceipt(env: Env, s: Engine, task: Task, io: Io)
    requires Lawful(env) && Level(s) && s.cached.Some? && KeepsReceipt(s, task)
    ensures var after := Run(env, s, task, io).state;
      && after.cached.Some?
      && (CachedGeneration(after) == CachedGeneration(s) ==> ReceiptOf(after.cached.value) == ReceiptOf(s.cached.value))
  {
    var current := s.cached.value;
    match task
    case SaveRenderer(data) => SaveRendererReceipt(env, s, current, data, io);
    case Save(data) => WriteReceipt(env, s, data, false, io);
    case Commit(operation, merge) => CommitReceipt(env, s, current, operation, merge, io);
    case Record(operation, e) => RecordReceipt(env, s, current, operation, e, io);
    case Upsert(d) => DownloadReceipt(env, s, current, UpsertInto(MainDownloads(s, current), d), io);
    case ClearCompleted => DownloadReceipt(env, s, current, Unfinished(MainDownloads(s, current)), io);
    case Replace(data) => ReplaceReceipt(env, s, current, data, io);
  }

  /** A write installs the import state of its data, or leaves the cache as it was; one that raises the
      generation and succeeds installs it. */
  lemma {:induction false} WriteReceipt(env: Env, s: Engine, data: Profile, advance: bool, io: Io)
    requires Lawful(env) && Level(s)
    ensures var w := WriteData(env, s, data, advance, io);
      && (w.state.cached == s.cached || (w.state.cached.Some? && w.state.cached.value.importState == data.importState))
      && (w.error.Some? ==> w.state.cached == s.cached)
      && (w.error.None? && advance ==> w.state.cached.Some? && w.state.cached.value.importState == data.importState)
      && (w.error.None? ==> w.state.cached.Some?)
  {
  }

  lemma {:induction false} SaveRendererReceipt(env: Env, s: Engine, current: Profile, data: Profile, io: Io)
    requires Lawful(env) && Level(s) && s.cached == Some(current)
    ensures var after := SaveRendererTask(env, s, current, data, io).state;
      after.cached.Some? && after.cached.value.importState == current.importState
  {
    var owned := if s.downloads.Some? then s else s.(downloads := Some(current.downloads));
    WriteReceipt(env, owned, data.(downloads := owned.downloads.value), false, io);
  }

  lemma {:induction false} CommitReceipt(env: Env, s: Engine, current: Profile, operation: string,
                                         merge: Profile -> Option<Merged>, io: Io)
    requires Lawful(env) && Level(s) && s.cached == Some(current)
    ensures var step := CommitTask(env, s, current, operation, merge, io);
      || step.state == s
      || (&& merge(current).Some? && step.state.cached.Some?
          && step.state.cached.value.importState == Candidate(current, merge(current).value).importState
          && merge(current).value.receipt.operationId == operation)
  {
    if merge(current).Some? {
      WriteReceipt(env, s, Candidate(current, merge(current).value), true, io);
    }
  }

  lemma {:induction false} RecordReceipt(env: Env, s: Engine, current: Profile, operation: string,
                                         e: ExtensionReceipt, io: Io)
    requires Lawful(env) && Level(s) && s.cached == Some(current)
    ensures var after := RecordTask(env, s, current, operation, e, io).state;
      && after.cached.Some?
      && (|| after.cached.value.importState == current.importState
          || (&& current.importState.Some?
              && after.cached.value.importState == Some(RecordIn(current.importState.value, e))
              && e.id in Pending(current.importState.value)
              && NotFinal(current.importState.value, e.id)))
  {
    if ReceiptOf(current).Some? {
      WriteReceipt(env, s, current.(importState := Some(RecordIn(current.importState.value, e))), false, io);
    }
  }

  /** No result other than a failure is recorded for the id. */
  predicate NotFinal(i: ImportState, id: string) {
    var prior := FindReceipt(Receipts(i), id);
    prior.Some? ==> prior.value.status.NotInstalled?
  }

  lemma {:induction false} DownloadReceipt(env: Env, s: Engine, current: Profile, downloads: seq<Download>, io: Io)
    requires Lawful(env) && Level(s) && s.cached == Some(current)
    ensures var after := DownloadTask(env, s, current, downloads, io).state;
      after.cached.Some? && after.cached.value.importState == current.importState
  {
    WriteReceipt(env, s.(downloads := Some(downloads)), current.(downloads := downloads), false, io);
  }

  lemma {:induction false} ReplaceReceipt(env: Env, s: Engine, current: Profile, data: Profile, io: Io)
    requires Lawful(env) && Level(s) && s.cached == Some(current)
    ensures var after := ReplaceTask(env, s, current, data, io).state;
      after.cached.Some? && (after.cached == s.cached || after.cached.value.importState == Replacement(current, data).importState)
  {
    var next := Replacement(current, data);
    WriteReceipt(env, s.(downloads := Some(next.downloads)), next, true, io);
  }
}
