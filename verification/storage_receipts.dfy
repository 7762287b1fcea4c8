/** Import receipts over runs: the ledger of the generations a run has seen, with the receipt of each. */
module StorageReceipts {
  import opened Options
  import opened StorageEngine
  import opened StorageSteps
  import opened StorageWrites
  import opened StorageRuns
  import opened StorageAgreement

  type Receipted = map<nat, Option<ImportReceipt>>

  predicate Entered(book: Receipted, p: Profile) {
    Generation(p) in book && book[Generation(p)] == ReceiptOf(p)
  }

  predicate FileEntered(env: Env, book: Receipted, file: File) {
    Installable(env, file) ==> Entered(book, Loaded(env, file))
  }

  predicate LoadEntered(env: Env, book: Receipted, load: Load) {
    && (load.HasRead? ==> FileEntered(env, book, load.raw))
    && (load.Saving? && !load.recovered ==> Entered(book, load.data))
  }

  function FirstBook(env: Env, file: File): Receipted {
    if Installable(env, file) then map[Generation(Loaded(env, file)) := ReceiptOf(Loaded(env, file))] else map[]
  }

  function Enter(book: Receipted, w: World): Receipted {
    if w.engine.cached.Some? then book[CachedGeneration(w.engine) := ReceiptOf(w.engine.cached.value)] else book
  }

  /** The receipts of the generations cached so far, and of the file the process started on. */
  function Ledger(env: Env, h: History, i: nat): Receipted
    requires |h.states| == |h.events| + 1 && i <= |h.events|
  {
    if i == 0 then FirstBook(env, h.states[0].engine.file) else Enter(Ledger(env, h, i - 1), h.states[i])
  }

  /** Everything that may still be cached is in the book, and nothing beyond the cached generation. */
  ghost predicate Books(env: Env, book: Receipted, w: World) {
    && (if w.engine.cached.Some? then Entered(book, w.engine.cached.value) && forall g | g in book :: g <= CachedGeneration(w.engine)
        else book == FirstBook(env, w.engine.file))
    && FileEntered(env, book, w.engine.file)
    && forall id | id in w.loads :: LoadEntered(env, book, w.loads[id])
  }

  predicate Extends(book: Receipted, book': Receipted) {
    forall g | g in book :: g in book' && book'[g] == book[g]
  }

  /** Saved data that no import of the run produced has an entry: data of clients, and recovered backups
      once something is cached. */
  predicate KnownSave(book: Receipted, w: World, e: Event) {
    && (e.RunTask? && e.task.Save? ==> w.engine.cached.Some? && Entered(book, e.task.data))
    && (e.SaveLoaded? && IsSaving(w, e.id) && w.loads[e.id].recovered && w.engine.cached.Some? ==> Entered(book, w.loads[e.id].data))
  }

  // ---- One write, one task ----

  /** The receipt stays with the generation, or the generation is a new one; the file is as before or holds the cache. */
  ghost predicate Advances(s: Engine, t: Engine) {
    && s.cached.Some? && t.cached.Some?
    && (|| (CachedGeneration(t) == CachedGeneration(s) && ReceiptOf(t.cached.value) == ReceiptOf(s.cached.value))
        || CachedGeneration(t) == CachedGeneration(s) + 1)
    && (t.file == s.file || t.file == Holds(t.cached.value))
  }

  lemma {:induction false} WriteFile(env: Env, s: Engine, data: Profile, advance: bool, io: Io)
    ensures var t := WriteData(env, s, data, advance, io).state; t.file == s.file || (t.cached.Some? && t.file == Holds(t.cached.value))
  {
  }

  lemma {:induction false} RunFile(env: Env, s: Engine, task: Task, io: Io)
    ensures var t := Run(env, s, task, io).state; t.file == s.file || (t.cached.Some? && t.file == Holds(t.cached.value))
  {
  }

  lemma {:induction false} SaveAdvances(env: Env, s: Engine, data: Profile, io: Io)
    requires Lawful(env) && Level(s) && s.cached.Some?
    requires Generation(data) == CachedGeneration(s) ==> ReceiptOf(data) == ReceiptOf(s.cached.value)
    ensures Advances(s, WriteData(env, s, data, false, io).state)
  {
    WriteReceipt(env, s, data, false, io);
    WriteGeneration(env, s, data, false, io);
    WriteFile(env, s, data, false, io);
  }

  lemma {:induction false} TaskAdvances(env: Env, s: Engine, task: Task, io: Io)
    requires Lawful(env) && Level(s) && s.cached.Some? && KeepsReceipt(s, task)
    ensures Advances(s, Run(env, s, task, io).state)
  {
    RunReceipt(env, s, task, io);
    RunGeneration(env, s, task, io);
    RunFile(env, s, task, io);
  }

  /** A step of the engine on which everything that is cached stays in the book. */
  lemma {:induction false} AdvanceIsEntered(env: Env, book: Receipted, w: World, w': World)
    requires Lawful(env) && Books(env, book, w) && Advances(w.engine, w'.engine)
    requires forall id | id in w'.loads :: id in w.loads && w'.loads[id] == w.loads[id]
    ensures Books(env, Enter(book, w'), w') && Extends(book, Enter(book, w'))
  {
    var book' := Enter(book, w');
    assert Extends(book, book');
    forall id | id in w'.loads ensures LoadEntered(env, book', w'.loads[id]) {
      assert LoadEntered(env, book, w.loads[id]);
    }
  }

  /** The first write of a process that recovers: nothing was to be installed. */
  lemma {:induction false} FirstSaveIsEntered(env: Env, book: Receipted, w: World, id: nat, io: Io)
    requires Lawful(env) && Sound(env, w) && Books(env, book, w) && w.engine.cached.None? && IsSaving(w, id)
    ensures var w' := Apply(env, w, SaveLoaded(id, io)); Books(env, Enter(book, w'), w') && Extends(book, Enter(book, w'))
  {
    assert Fresh(env, w.engine.file, w.loads[id]);
    var w' := Apply(env, w, SaveLoaded(id, io));
    assert book == map[];
    forall j | j in w'.loads ensures LoadEntered(env, Enter(book, w'), w'.loads[j]) {
      assert LoadEntered(env, book, w.loads[j]) && Fresh(env, w.engine.file, w.loads[j]);
    }
  }

  lemma {:induction false} InstallIsEntered(env: Env, book: Receipted, w: World, id: nat, backup: Option<Profile>,
                                            io: Io)
    requires Lawful(env) && Sound(env, w) && Books(env, book, w) && IsRead(w, id) && Timely(env, w, InstallLoad(id, backup, io))
    ensures var w' := Apply(env, w, InstallLoad(id, backup, io)); Books(env, Enter(book, w'), w') && Extends(book, Enter(book, w'))
  {
    var w' := Apply(env, w, InstallLoad(id, backup, io));
    assert LoadEntered(env, book, w.loads[id]);
    if w.engine.cached.None? {
      assert Fresh(env, w.engine.file, w.loads[id]);
    }
    assert Enter(book, w') == book;
    forall j | j in w'.loads ensures LoadEntered(env, book, w'.loads[j]) {
      assert j != id ==> LoadEntered(env, book, w.loads[j]);
    }
  }

  /** A step that changes no cache and no file. */
  lemma {:induction false} QuietIsEntered(env: Env, book: Receipted, w: World, w': World)
    requires Books(env, book, w) && w'.engine == w.engine
    requires forall id | id in w'.loads :: LoadEntered(env, book, w'.loads[id])
    ensures Books(env, Enter(book, w'), w') && Extends(book, Enter(book, w'))
  {
    assert Enter(book, w') == book;
  }

  lemma {:induction false} StepIsEntered(env: Env, book: Receipted, w: World, e: Event)
    requires Lawful(env) && Sound(env, w) && Timely(env, w, e) && Books(env, book, w) && KnownSave(book, w, e)
    ensures var w' := Apply(env, w, e); Books(env, Enter(book, w'), w') && Extends(book, Enter(book, w'))
  {
    var w' := Apply(env, w, e);
    match e
    case StartLoad(_) => QuietIsEntered(env, book, w, w');
    case ReadFile(_, _) => QuietIsEntered(env, book, w, w');
    case InstallLoad(id, backup, io) => if IsRead(w, id) { InstallIsEntered(env, book, w, id, backup, io); } else { QuietIsEntered(env, book, w, w'); }
    case OverwriteLoad(id, io) =>
      if IsRead(w, id) { assert LoadEntered(env, book, w.loads[id]); }
      QuietIsEntered(env, book, w, w');
    case SaveLoaded(id, io) =>
      if !IsSaving(w, id) {
        QuietIsEntered(env, book, w, w');
      } else if w.engine.cached.None? {
        FirstSaveIsEntered(env, book, w, id, io);
      } else {
        assert LoadEntered(env, book, w.loads[id]);
        SaveAdvances(env, w.engine, w.loads[id].data, io);
        AdvanceIsEntered(env, book, w, w');
      }
    case RunTask(task, io) =>
      if w.engine.cached.None? {
        FirstTask(env, w.engine, task, io);
        NothingRuns(env, w.engine, task, io);
        QuietIsEntered(env, book, w, w');
      } else {
        TaskAdvances(env, w.engine, task, io);
        AdvanceIsEntered(env, book, w, w');
      }
  }

  lemma {:induction false} NothingRuns(env: Env, s: Engine, task: Task, io: Io)
    requires s.cached.None? && !task.Save?
    ensures Run(env, s, task, io).state == s
  {
  }

  // ---- Runs ----

  /** The data carries an import state that some earlier state of the run had cached. */
  ghost predicate Genuine(h: History, n: nat, data: Profile)
    requires n < |h.states|
  {
    exists k: nat | k <= n :: TakenAt(h.states[k], data)
  }

  ghost predicate TakenAt(w: World, data: Profile) {
    w.engine.cached.Some? && w.engine.cached.value.importState == data.importState
  }

  /** The saves of clients are genuine, and so are recovered backups that are saved once something is cached. */
  ghost predicate GenuineAt(h: History, n: nat)
    requires n < |h.events| && |h.states| == |h.events| + 1
  {
    var w, e := h.states[n], h.events[n];
    && (e.RunTask? && e.task.Save? ==> Genuine(h, n, e.task.data))
    && (e.SaveLoaded? && IsSaving(w, e.id) && w.loads[e.id].recovered && w.engine.cached.Some? ==> Genuine(h, n, w.loads[e.id].data))
  }

  ghost predicate GenuineSaves(h: History)
    requires |h.states| == |h.events| + 1
  {
    forall n: nat | n < |h.events| :: GenuineAt(h, n)
  }

  ghost predicate GoodRun(env: Env, h: History) {
    Lawful(env) && IsRun(env, h) && AllTimely(env, h) && GenuineSaves(h)
  }

  lemma {:induction false} StartIsEntered(env: Env, file: File)
    ensures Books(env, FirstBook(env, file), Started(file))
  {
  }

  lemma {:induction false} LedgerHolds(env: Env, h: History, i: nat)
    requires GoodRun(env, h) && i <= |h.events|
    ensures Books(env, Ledger(env, h, i), h.states[i])
    ensures forall k: nat | k <= i :: Extends(Ledger(env, h, k), Ledger(env, h, i))
    decreases i
  {
    if i == 0 {
      StartIsEntered(env, h.states[0].engine.file);
    } else {
      LedgerHolds(env, h, i - 1);
      ReachableIsSound(env, h, i - 1);
      assert StepAt(env, h, i - 1) && Timely(env, h.states[i - 1], h.events[i - 1]);
      SavesAreKnown(env, h, i - 1);
      StepIsEntered(env, Ledger(env, h, i - 1), h.states[i - 1], h.events[i - 1]);
    }
  }

  lemma {:induction false} GenuineIsEntered(env: Env, h: History, n: nat, data: Profile)
    requires GoodRun(env, h) && n < |h.events| && Genuine(h, n, data)
    requires Books(env, Ledger(env, h, n), h.states[n]) && forall k: nat | k <= n :: Extends(Ledger(env, h, k), Ledger(env, h, n))
    ensures Entered(Ledger(env, h, n), data) && h.states[n].engine.cached.Some?
    decreases n, 0
  {
    var k: nat :| k <= n && TakenAt(h.states[k], data);
    if k < n {
      LedgerHolds(env, h, k);
    }
    assert Extends(Ledger(env, h, k), Ledger(env, h, n));
    StaysLoaded(env, h, k, n);
  }

  lemma {:induction false} SavesAreKnown(env: Env, h: History, n: nat)
    requires GoodRun(env, h) && n < |h.events|
    requires Books(env, Ledger(env, h, n), h.states[n]) && forall k: nat | k <= n :: Extends(Ledger(env, h, k), Ledger(env, h, n))
    ensures KnownSave(Ledger(env, h, n), h.states[n], h.events[n])
    decreases n, 1
  {
    var w, e := h.states[n], h.events[n];
    assert GenuineAt(h, n);
    if e.RunTask? && e.task.Save? {
      GenuineIsEntered(env, h, n, e.task.data);
    }
    if e.SaveLoaded? && IsSaving(w, e.id) && w.loads[e.id].recovered && w.engine.cached.Some? {
      GenuineIsEntered(env, h, n, w.loads[e.id].data);
    }
  }

  /** The stored receipt is a function of the generation. */
  lemma {:induction false} ReceiptIsFunctionOfGeneration(env: Env, h: History, i: nat, j: nat)
    requires GoodRun(env, h) && i <= j <= |h.events|
    requires h.states[i].engine.cached.Some?
    requires CachedGeneration(h.states[i].engine) == CachedGeneration(h.states[j].engine)
    ensures h.states[j].engine.cached.Some?
    ensures ReceiptOf(h.states[i].engine.cached.value) == ReceiptOf(h.states[j].engine.cached.value)
  {
    StaysLoaded(env, h, i, j);
    LedgerHolds(env, h, i);
    LedgerHolds(env, h, j);
    assert Extends(Ledger(env, h, i), Ledger(env, h, j));
  }

  /** What a load installs in time has the receipt that is cached. */
  lemma {:induction false} InstallKeepsReceipt(env: Env, h: History, i: nat)
    requires GoodRun(env, h) && i < |h.events| && h.events[i].InstallLoad? && h.states[i].engine.cached.Some?
    ensures var t := h.states[i + 1].engine;
      t.cached.Some? && CachedGeneration(t) == CachedGeneration(h.states[i].engine)
      && ReceiptOf(t.cached.value) == ReceiptOf(h.states[i].engine.cached.value)
  {
    StepIsStepwise(env, h, i);
    ReceiptIsFunctionOfGeneration(env, h, i, i + 1);
  }

  /** What the file normalises to, if to anything, has the cached receipt. */
  ghost predicate FileHasReceipt(env: Env, s: Engine) {
    && s.file.Holds? && FileGeneration(s.file) == CachedGeneration(s) && s.cached.Some?
    && (env.normalize(s.file.data).Some? ==> ReceiptOf(env.normalize(s.file.data).value) == ReceiptOf(s.cached.value))
  }

  /** The operation of the latest import never merges again and changes nothing: it answers with the stored
      receipt and generation exactly when the file can be read and normalised. */
  lemma {:induction false} RepeatedCommit(env: Env, s: Engine, operation: string, again: Profile -> Option<Merged>,
                                          io: Io)
    requires Lawful(env) && FileHasReceipt(env, s)
    requires ReceiptOf(s.cached.value).Some? && ReceiptOf(s.cached.value).value.operationId == operation
    ensures var step := Run(env, s, Commit(operation, again), io);
      && step.state == s && !step.merged
      && (if io.read && env.normalize(s.file.data).Some?
          then step.outcome == Committed(env.normalize(s.file.data).value, ReceiptOf(s.cached.value).value, CachedGeneration(s))
          else step.outcome == Failed(ReadBackFailed))
  {
  }

  /** A commit that raised the generation stored its own receipt. */
  lemma {:induction false} CommitStoresReceipt(env: Env, h: History, i: nat)
    requires Lawful(env) && IsRun(env, h) && AllTimely(env, h)
    requires i < |h.events| && h.events[i].RunTask? && h.events[i].task.Commit? && h.states[i].engine.cached.Some?
    requires CachedGeneration(h.states[i + 1].engine) == CachedGeneration(h.states[i].engine) + 1
    ensures var first := h.states[i + 1].engine.cached;
      first.Some? && ReceiptOf(first.value).Some? && ReceiptOf(first.value).value.operationId == h.events[i].task.operation
  {
    ReachableIsSound(env, h, i);
    var before := h.states[i].engine;
    assert StepAt(env, h, i);
    CommitReceipt(env, before, before.cached.value, h.events[i].task.operation, h.events[i].task.merge, h.events[i].io);
    StaysLoaded(env, h, i, i + 1);
  }

  lemma {:induction false} FileKeepsReceipt(env: Env, h: History, j: nat)
    requires GoodRun(env, h) && j <= |h.events| && h.states[j].engine.cached.Some? && CachedGeneration(h.states[j].engine) > 0
    ensures FileHasReceipt(env, h.states[j].engine)
  {
    LedgerHolds(env, h, j);
    ReachableIsSound(env, h, j);
    var s := h.states[j].engine;
    assert FileEntered(env, Ledger(env, h, j), s.file);
  }

  /** Once something was written the file holds a normal form. */
  lemma {:induction false} FileStaysNormal(env: Env, h: History, i: nat, j: nat)
    requires IsRun(env, h) && i < j <= |h.events|
    requires !Installs(env, h.states[i], h.events[i]) && !Unwritten(h.states[i].engine, h.states[i + 1].engine)
    ensures h.states[j].engine.file.Holds? && IsNormalForm(env, h.states[j].engine.file.data)
  {
    assert StepAt(env, h, j - 1);
    if !Installs(env, h.states[j - 1], h.events[j - 1]) {
      StepShape(env, h.states[j - 1], h.events[j - 1]);
    }
    if j > i + 1 {
      FileStaysNormal(env, h, i, j - 1);
    }
  }

  /** While an import is the latest one, repeating its operation never merges again and never changes
      anything: it answers with the stored receipt and generation exactly when the file, which holds a
      normal form, can be read and is normalised once more. */
  lemma {:induction false} CommitIsExactlyOnce(env: Env, h: History, i: nat, j: nat,
                                               again: Profile -> Option<Merged>, io: Io)
    requires GoodRun(env, h) && i < j <= |h.events|
    requires h.events[i].RunTask? && h.events[i].task.Commit? && h.states[i].engine.cached.Some?
    requires CachedGeneration(h.states[i + 1].engine) == CachedGeneration(h.states[i].engine) + 1
    requires CachedGeneration(h.states[j].engine) == CachedGeneration(h.states[i + 1].engine)
    ensures var s := h.states[j].engine; var first := h.states[i + 1].engine.cached;
      var step := Run(env, s, Commit(h.events[i].task.operation, again), io);
      && first.Some? && ReceiptOf(first.value).Some?
      && step.state == s && !step.merged
      && s.file.Holds? && IsNormalForm(env, s.file.data)
      && (if io.read && env.normalize(s.file.data).Some?
          then step.outcome == Committed(env.normalize(s.file.data).value, ReceiptOf(first.value).value, CachedGeneration(s))
          else step.outcome == Failed(ReadBackFailed))
  {
    CommitStoresReceipt(env, h, i);
    ReceiptIsFunctionOfGeneration(env, h, i + 1, j);
    FileKeepsReceipt(env, h, j);
    FileStaysNormal(env, h, i, j);
    RepeatedCommit(env, h.states[j].engine, h.events[i].task.operation, again, io);
  }
}
