/** The bookkeeping of an import over runs: from its commit to the next import or replacement, with
    recorded results, saves of clients, downloads and loads in any order. */
module StorageBookkeeping {
  import opened Options
  import opened StorageEngine
  import opened StorageSteps
  import opened StorageWrites
  import opened StorageRuns
  import opened StorageAgreement
  import opened StorageReceipts
  import opened StorageImports

  /** An import commits at event `i`, and its generation is still the cached one in state `n`. */
  ghost predicate Stretch(env: Env, h: History, i: nat, n: nat) {
    && GoodRun(env, h) && i < n <= |h.events|
    && h.events[i].RunTask? && h.events[i].task.Commit? && h.states[i].engine.cached.Some?
    && GenerationAt(h, i + 1) == GenerationAt(h, i) + 1
    && GenerationAt(h, n) == GenerationAt(h, i + 1)
  }

  /** The ids the merge of the import selected. */
  function Selected(h: History, i: nat): set<string>
    requires i < |h.events| && i < |h.states| && h.events[i].RunTask? && h.events[i].task.Commit? && h.states[i].engine.cached.Some?
  {
    var m := h.events[i].task.merge(h.states[i].engine.cached.value);
    if m.Some? && m.value.data.importState.Some? then set id | id in Pending(m.value.data.importState.value) else {}
  }

  lemma {:induction false} StretchBefore(env: Env, h: History, i: nat, k: nat, n: nat)
    requires Stretch(env, h, i, n) && i < k <= n
    ensures Stretch(env, h, i, k) && h.states[k].engine.cached.Some?
  {
    TimelyIsForward(env, h);
    GenerationNeverDecreases(env, h, i + 1, k);
    GenerationNeverDecreases(env, h, k, n);
    StaysLoaded(env, h, i, k);
  }

  // ---- Every import state that may still be cached was cached since the import ----

  ghost predicate CachedSince(h: History, i: nat, n: nat, p: Profile)
    requires n < |h.states|
  {
    exists k: nat | i < k <= n :: TakenAt(h.states[k], p)
  }

  /** Data of the generation of the import. */
  ghost predicate Carried(h: History, i: nat, n: nat, p: Profile)
    requires i + 1 < |h.states| && n < |h.states|
  {
    Generation(p) == GenerationAt(h, i + 1) ==> CachedSince(h, i, n, p)
  }

  ghost predicate RawCarried(env: Env, h: History, i: nat, n: nat, raw: File)
    requires i + 1 < |h.states| && n < |h.states|
  {
    Installable(env, raw) ==> Carried(h, i, n, Loaded(env, raw))
  }

  ghost predicate LoadCarried(env: Env, h: History, i: nat, n: nat, load: Load)
    requires i + 1 < |h.states| && n < |h.states|
  {
    && (load.HasRead? ==> RawCarried(env, h, i, n, load.raw))
    && (load.Saving? && !load.recovered ==> Carried(h, i, n, load.data))
  }

  ghost predicate AllCarried(env: Env, h: History, i: nat, n: nat)
    requires i + 1 < |h.states| && n < |h.states|
  {
    && RawCarried(env, h, i, n, h.states[n].engine.file)
    && forall id | id in h.states[n].loads :: LoadCarried(env, h, i, n, h.states[n].loads[id])
  }

  lemma {:induction false} CachedLonger(h: History, i: nat, n: nat, m: nat, p: Profile)
    requires n <= m < |h.states| && CachedSince(h, i, n, p)
    ensures CachedSince(h, i, m, p)
  {
    var k: nat :| i < k <= n && TakenAt(h.states[k], p);
  }

  lemma {:induction false} RawLonger(env: Env, h: History, i: nat, n: nat, raw: File)
    requires i + 1 < |h.states| && n + 1 < |h.states| && RawCarried(env, h, i, n, raw)
    ensures RawCarried(env, h, i, n + 1, raw)
  {
    if Installable(env, raw) && CachedSince(h, i, n, Loaded(env, raw)) {
      CachedLonger(h, i, n, n + 1, Loaded(env, raw));
    }
  }

  lemma {:induction false} LoadLonger(env: Env, h: History, i: nat, n: nat, load: Load)
    requires i + 1 < |h.states| && n + 1 < |h.states| && LoadCarried(env, h, i, n, load)
    ensures LoadCarried(env, h, i, n + 1, load)
  {
    if load.HasRead? {
      RawLonger(env, h, i, n, load.raw);
    }
    if load.Saving? && CachedSince(h, i, n, load.data) {
      CachedLonger(h, i, n, n + 1, load.data);
    }
  }

  /** At the commit itself everything else is of an older generation. */
  lemma {:induction false} CommitCarries(env: Env, h: History, i: nat)
    requires Stretch(env, h, i, i + 1)
    ensures AllCarried(env, h, i, i + 1)
  {
    LedgerHolds(env, h, i);
    assert StepAt(env, h, i);
    StepShape(env, h.states[i], h.events[i]);
    var t := h.states[i + 1].engine;
    if Installable(env, t.file) {
      WrittenIsCarried(env, h, i, i + 1);
    }
    var loads := h.states[i + 1].loads;
    forall id | id in loads ensures LoadCarried(env, h, i, i + 1, loads[id]) {
      assert LoadEntered(env, Ledger(env, h, i), h.states[i].loads[id]);
    }
  }

  /** What a write leaves in the file has the cached import state. */
  lemma {:induction false} WrittenIsCarried(env: Env, h: History, i: nat, n: nat)
    requires Lawful(env) && i < n < |h.states| && h.states[n].engine.cached.Some?
    requires h.states[n].engine.file == Holds(h.states[n].engine.cached.value)
    ensures RawCarried(env, h, i, n, h.states[n].engine.file)
  {
    if Installable(env, h.states[n].engine.file) {
      assert TakenAt(h.states[n], Loaded(env, h.states[n].engine.file));
    }
  }

  /** The file is as before, or holds what is cached. */
  lemma {:induction false} FileIsKeptOrCached(env: Env, w: World, e: Event)
    ensures var t := Apply(env, w, e).engine; t.file == w.engine.file || (t.cached.Some? && t.file == Holds(t.cached.value))
  {
    if !Installs(env, w, e) {
      StepShape(env, w, e);
    }
  }

  lemma {:induction false} FileStaysCarried(env: Env, h: History, i: nat, n: nat)
    requires Lawful(env) && IsRun(env, h) && i < n < |h.events| && RawCarried(env, h, i, n, h.states[n].engine.file)
    ensures RawCarried(env, h, i, n + 1, h.states[n + 1].engine.file)
  {
    assert StepAt(env, h, n);
    FileIsKeptOrCached(env, h.states[n], h.events[n]);
    if h.states[n + 1].engine.file == h.states[n].engine.file {
      RawLonger(env, h, i, n, h.states[n].engine.file);
    } else {
      WrittenIsCarried(env, h, i, n + 1);
    }
  }

  lemma {:induction false} StepCarries(env: Env, h: History, i: nat, n: nat)
    requires Lawful(env) && IsRun(env, h) && i < n < |h.events| && AllCarried(env, h, i, n)
    ensures AllCarried(env, h, i, n + 1)
  {
    FileStaysCarried(env, h, i, n);
    assert StepAt(env, h, n);
    var w, w' := h.states[n], h.states[n + 1];
    forall id | id in w'.loads ensures LoadCarried(env, h, i, n + 1, w'.loads[id]) {
      if id in w.loads {
        LoadLonger(env, h, i, n, w.loads[id]);
      }
      var read := HasRead(w.engine.file);
      assert LoadCarried(env, h, i, n, read);
      LoadLonger(env, h, i, n, read);
    }
  }

  lemma {:induction false} StretchCarries(env: Env, h: History, i: nat, n: nat)
    requires Stretch(env, h, i, n)
    ensures AllCarried(env, h, i, n)
  {
    if n == i + 1 {
      CommitCarries(env, h, i);
    } else {
      StretchBefore(env, h, i, n - 1, n);
      StretchCarries(env, h, i, n - 1);
      StepCarries(env, h, i, n - 1);
    }
  }

  // ---- One step of the import state ----

  function StateAt(h: History, n: nat): Option<ImportState>
    requires n < |h.states|
  {
    if h.states[n].engine.cached.Some? then h.states[n].engine.cached.value.importState else None
  }

  /** The import state goes to one that was cached since the import, or one more result is recorded. */
  ghost predicate GoesBack(h: History, i: nat, n: nat)
    requires n + 1 < |h.states|
  {
    exists k: nat | i < k <= n :: StateAt(h, k) == StateAt(h, n + 1)
  }

  ghost predicate Records(h: History, n: nat)
    requires n + 1 < |h.states|
  {
    StateAt(h, n).Some? && exists e: ExtensionReceipt :: RecordedAt(h, n, e)
  }

  predicate RecordedAt(h: History, n: nat, e: ExtensionReceipt)
    requires n + 1 < |h.states| && StateAt(h, n).Some?
  {
    var now := StateAt(h, n).value;
    e.id in Pending(now) && NotFinal(now, e.id) && StateAt(h, n + 1) == Some(RecordIn(now, e))
  }

  /** One task that keeps the generation. */
  lemma {:induction false} TaskImportState(env: Env, s: Engine, task: Task, io: Io)
    returns (e: Option<ExtensionReceipt>)
    requires Lawful(env) && Level(s) && s.cached.Some? && CachedGeneration(Run(env, s, task, io).state) == CachedGeneration(s)
    ensures var t := Run(env, s, task, io).state; var now := s.cached.value.importState;
      && t.cached.Some?
      && (|| t.cached.value.importState == now
          || (task.Save? && t.cached.value.importState == task.data.importState)
          || (&& e.Some? && now.Some? && e.value.id in Pending(now.value) && NotFinal(now.value, e.value.id)
              && t.cached.value.importState == Some(RecordIn(now.value, e.value))))
  {
    var current := s.cached.value;
    e := None;
    match task
    case SaveRenderer(data) => SaveRendererReceipt(env, s, current, data, io);
    case Save(data) => WriteReceipt(env, s, data, false, io);
    case Commit(operation, merge) => CommitReceipt(env, s, current, operation, merge, io);
    case Record(operation, r) => RecordReceipt(env, s, current, operation, r, io); e := Some(r);
    case Upsert(d) => DownloadReceipt(env, s, current, UpsertInto(MainDownloads(s, current), d), io);
    case ClearCompleted => DownloadReceipt(env, s, current, Unfinished(MainDownloads(s, current)), io);
    case Replace(data) => ReplaceReceipt(env, s, current, data, io);
  }

  /** Data of the generation of the import that was cached at some time was cached since the import. */
  lemma {:induction false} GenuineIsSince(env: Env, h: History, i: nat, n: nat, data: Profile)
    requires Stretch(env, h, i, n) && Genuine(h, n, data) && Generation(data) == GenerationAt(h, i + 1)
    ensures CachedSince(h, i, n, data)
  {
    var k: nat :| k <= n && TakenAt(h.states[k], data);
    if k <= i {
      TimelyIsForward(env, h);
      GenerationNeverDecreases(env, h, k, i);
    }
  }

  lemma {:induction false} SinceGoesBack(h: History, i: nat, n: nat, p: Profile)
    requires n + 1 < |h.states| && CachedSince(h, i, n, p) && StateAt(h, n + 1) == p.importState
    ensures GoesBack(h, i, n)
  {
    var k: nat :| i < k <= n && TakenAt(h.states[k], p);
    assert StateAt(h, k) == StateAt(h, n + 1);
  }

  lemma {:induction false} InstallGoesBack(env: Env, h: History, i: nat, n: nat)
    requires Stretch(env, h, i, n) && n < |h.events| && Installs(env, h.states[n], h.events[n])
    ensures GoesBack(h, i, n)
  {
    StretchBefore(env, h, i, n, n);
    StretchCarries(env, h, i, n);
    assert StepAt(env, h, n) && Timely(env, h.states[n], h.events[n]);
    var load := h.states[n].loads[h.events[n].id];
    assert LoadCarried(env, h, i, n, load);
    SinceGoesBack(h, i, n, Loaded(env, load.raw));
  }

  lemma {:induction false} SaveGoesBack(env: Env, h: History, i: nat, n: nat)
    requires Stretch(env, h, i, n) && n < |h.events| && h.events[n].SaveLoaded?
    ensures StateAt(h, n + 1) == StateAt(h, n) || GoesBack(h, i, n)
  {
    StretchBefore(env, h, i, n, n);
    StretchCarries(env, h, i, n);
    assert StepAt(env, h, n) && GenuineAt(h, n);
    var w, e := h.states[n], h.events[n];
    if IsSaving(w, e.id) && !Unwritten(w.engine, h.states[n + 1].engine) {
      var data := w.loads[e.id].data;
      WriteShape(env, w.engine, data, false, e.io);
      WriteAsks(env, w.engine, data, false, e.io);
      assert LoadCarried(env, h, i, n, w.loads[e.id]);
      if w.loads[e.id].recovered {
        GenuineIsSince(env, h, i, n, data);
      }
      SinceGoesBack(h, i, n, data);
    }
  }

  lemma {:induction false} TaskGoesOn(env: Env, h: History, i: nat, n: nat)
    requires Stretch(env, h, i, n) && n < |h.events| && Stretch(env, h, i, n + 1) && h.events[n].RunTask?
    ensures StateAt(h, n + 1) == StateAt(h, n) || GoesBack(h, i, n) || Records(h, n)
  {
    StretchBefore(env, h, i, n, n);
    ReachableIsSound(env, h, n);
    assert StepAt(env, h, n) && GenuineAt(h, n);
    var task := h.events[n].task;
    var e := TaskImportState(env, h.states[n].engine, task, h.events[n].io);
    if task.Save? && StateAt(h, n + 1) == task.data.importState {
      GenuineIsSince(env, h, i, n, task.data);
      SinceGoesBack(h, i, n, task.data);
    } else if StateAt(h, n + 1) != StateAt(h, n) {
      assert RecordedAt(h, n, e.value);
    }
  }

  lemma {:induction false} StepGoesOn(env: Env, h: History, i: nat, n: nat)
    requires i < n < |h.events| && Stretch(env, h, i, n + 1)
    ensures StateAt(h, n + 1) == StateAt(h, n) || GoesBack(h, i, n) || Records(h, n)
  {
    StretchBefore(env, h, i, n, n + 1);
    if Installs(env, h.states[n], h.events[n]) {
      InstallGoesBack(env, h, i, n);
    } else if h.events[n].SaveLoaded? {
      SaveGoesBack(env, h, i, n);
    } else if h.events[n].RunTask? {
      TaskGoesOn(env, h, i, n);
    } else {
      assert StepAt(env, h, n);
    }
  }

  // ---- The books ----

  ghost predicate BookAt(h: History, i: nat, n: nat)
    requires i < |h.events| && i < |h.states| && h.events[i].RunTask? && h.events[i].task.Commit? && h.states[i].engine.cached.Some?
    requires n < |h.states|
  {
    StateAt(h, n).Some? && Book(StateAt(h, n).value, Selected(h, i))
  }

  lemma {:induction false} CommitOpensBook(env: Env, h: History, i: nat)
    requires Stretch(env, h, i, i + 1)
    ensures BookAt(h, i, i + 1)
  {
    ReachableIsSound(env, h, i);
    assert StepAt(env, h, i);
    var current, task := h.states[i].engine.cached.value, h.events[i].task;
    CommitReceipt(env, h.states[i].engine, current, task.operation, task.merge, h.events[i].io);
    CandidateStartsBook(current, task.merge(current).value);
  }

  /** In every state between an import and the next, with loads, saves of data that clients once had, recorded
      results and downloads in any order: pending and final ids are apart and together the selected ones. */
  lemma {:induction false} BookHoldsOverRun(env: Env, h: History, i: nat, n: nat)
    requires Stretch(env, h, i, n)
    ensures BookAt(h, i, n)
    decreases n
  {
    if n == i + 1 {
      CommitOpensBook(env, h, i);
    } else {
      StretchBefore(env, h, i, n - 1, n);
      BookHoldsOverRun(env, h, i, n - 1);
      StepGoesOn(env, h, i, n - 1);
      if GoesBack(h, i, n - 1) {
        var k: nat :| i < k <= n - 1 && StateAt(h, k) == StateAt(h, n);
        StretchBefore(env, h, i, k, n);
        BookHoldsOverRun(env, h, i, k);
      } else if Records(h, n - 1) {
        var e: ExtensionReceipt :| RecordedAt(h, n - 1, e);
        RecordKeepsBook(StateAt(h, n - 1).value, Selected(h, i), e);
      }
    }
  }

  /** Every final receipt of state `k` is in state `n`. */
  ghost predicate KeptBetween(h: History, k: nat, n: nat)
    requires k < |h.states| && n < |h.states|
  {
    StateAt(h, k).Some? && StateAt(h, n).Some? && FinalsKept(StateAt(h, k).value, StateAt(h, n).value)
  }

  /** Nothing is pending in state `n + 1` that was handled in state `n`. */
  ghost predicate Shrinks(h: History, n: nat)
    requires n + 1 < |h.states|
  {
    StateAt(h, n).Some? && StateAt(h, n + 1).Some?
    && forall id | id in Pending(StateAt(h, n + 1).value) :: id in Pending(StateAt(h, n).value)
  }

  lemma {:induction false} ShrinkingStepKeeps(env: Env, h: History, i: nat, n: nat)
    requires i < n < |h.events| && Stretch(env, h, i, n + 1) && Shrinks(h, n)
    requires forall k: nat | i < k <= n :: KeptBetween(h, k, n)
    ensures KeptBetween(h, n, n + 1)
  {
    StretchBefore(env, h, i, n, n + 1);
    BookHoldsOverRun(env, h, i, n);
    BookHoldsOverRun(env, h, i, n + 1);
    StepGoesOn(env, h, i, n);
    if GoesBack(h, i, n) {
      var k: nat :| i < k <= n && StateAt(h, k) == StateAt(h, n + 1);
      assert KeptBetween(h, k, n);
      GoingBackKeepsFinalsIff(StateAt(h, k).value, StateAt(h, n).value, Selected(h, i));
    } else if Records(h, n) {
      var e: ExtensionReceipt :| RecordedAt(h, n, e);
      RecordKeepsBook(StateAt(h, n).value, Selected(h, i), e);
    }
  }

  lemma {:induction false} ShrinkingRunKeeps(env: Env, h: History, i: nat, n: nat)
    requires Stretch(env, h, i, n) && forall k: nat | i < k < n :: Shrinks(h, k)
    ensures forall k: nat | i < k <= n :: KeptBetween(h, k, n)
  {
    BookHoldsOverRun(env, h, i, n);
    if n > i + 1 {
      StretchBefore(env, h, i, n - 1, n);
      ShrinkingRunKeeps(env, h, i, n - 1);
      ShrinkingStepKeeps(env, h, i, n - 1);
      forall k: nat | i < k <= n ensures KeptBetween(h, k, n) {
        assert k < n ==> KeptBetween(h, k, n - 1);
      }
    }
  }

  lemma {:induction false} KeepingStepShrinks(env: Env, h: History, i: nat, n: nat)
    requires i < n < |h.events| && Stretch(env, h, i, n + 1) && KeptBetween(h, n, n + 1)
    ensures Shrinks(h, n)
  {
    StretchBefore(env, h, i, n, n + 1);
    BookHoldsOverRun(env, h, i, n);
    BookHoldsOverRun(env, h, i, n + 1);
    KeptFinalsAreNotPending(StateAt(h, n).value, StateAt(h, n + 1).value, Selected(h, i));
  }

  /** No final receipt is ever lost between an import and the next exactly when no step makes anything pending
      again; only a save or a load of older data of the same import can. */
  lemma {:induction false} FinalsKeptIff(env: Env, h: History, i: nat, n: nat)
    requires Stretch(env, h, i, n)
    ensures (forall j: nat, k: nat | i < j <= k <= n :: KeptBetween(h, j, k)) <==> forall k: nat | i < k < n :: Shrinks(h, k)
  {
    if forall j: nat, k: nat | i < j <= k <= n :: KeptBetween(h, j, k) {
      forall k: nat | i < k < n ensures Shrinks(h, k) {
        StretchBefore(env, h, i, k + 1, n);
        KeepingStepShrinks(env, h, i, k);
      }
    }
    if forall k: nat | i < k < n :: Shrinks(h, k) {
      forall j: nat, k: nat | i < j <= k <= n ensures KeptBetween(h, j, k) {
        StretchBefore(env, h, i, k, n);
        ShrinkingRunKeeps(env, h, i, k);
      }
    }
  }

  /** A step that is neither a plain save nor the end or the save of a load makes nothing pending again. */
  lemma {:induction false} OtherStepsShrink(env: Env, h: History, i: nat, n: nat)
    requires i < n < |h.events| && Stretch(env, h, i, n + 1)
    requires !Installs(env, h.states[n], h.events[n]) && !h.events[n].SaveLoaded? && !(h.events[n].RunTask? && h.events[n].task.Save?)
    ensures Shrinks(h, n)
  {
    StretchBefore(env, h, i, n, n + 1);
    BookHoldsOverRun(env, h, i, n);
    assert StepAt(env, h, n);
    if h.events[n].RunTask? {
      ReachableIsSound(env, h, n);
      var e := TaskImportState(env, h.states[n].engine, h.events[n].task, h.events[n].io);
      if StateAt(h, n + 1) != StateAt(h, n) {
        forall id | id in Pending(StateAt(h, n + 1).value) ensures id in Pending(StateAt(h, n).value) {
          WithoutHas(Pending(StateAt(h, n).value), e.value.id, id);
        }
      }
    }
  }
}
