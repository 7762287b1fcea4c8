/** The engine with the normaliser it runs with: when what was written reads back as it is cached. */
module ProfileEngine {
  import opened Options
  import opened StorageEngine
  import opened StorageSteps
  import opened StorageCommits
  import opened StorageRuns
  import opened StorageWrites
  import opened StorageAgreement
  import opened StorageReceipts
  import ProfileItems
  import ProfileNormal
  import opened ProfileIdempotent
  import opened ProfileNormaliser

  /** Every record kept of the profile has room for what the migration adds to it. */
  ghost predicate HasRoom(r: Rules, p: Profile)
    requires Usable(r)
  {
    Headroom(r.guards, r.defaults, p.lists)
  }

  /** What a profile normalises to is a fixed point exactly when the profile has room. */
  lemma {:induction false} FixedIffRoom(r: Rules, p: Profile, q: Profile)
    requires RulesOk(r) && EnvOf(r).normalize(p) == Some(q)
    ensures EnvOf(r).normalize(q) == Some(q) <==> HasRoom(r, p)
  {
    assert r.(now := r.now) == r;
    NormalizedTwiceIff(r, p, r.now);
  }

  /** The lists of the profile an import writes are those of the merged data. */
  lemma {:induction false} WrittenLists(s: Engine, current: Profile, m: Merged)
    ensures Owned(s, Candidate(current, m)).lists == m.data.lists
  {
  }

  /** A new import commits exactly when its merge is in order, write and read work, the merged profile has
      the stored shape, and every record kept of it has room for what the migration adds. */
  lemma {:induction false} ImportCommitsIff(r: Rules, s: Engine, current: Profile, operation: string,
                                            merge: Profile -> Option<Merged>, io: Io)
    requires RulesOk(r) && Coherent(EnvOf(r), s) && s.cached == Some(current)
    requires ReceiptOf(current).None? || ReceiptOf(current).value.operationId != operation
    ensures CommitTask(EnvOf(r), s, current, operation, merge, io).outcome.Committed? <==>
      && merge(current).Some?
      && MergeOk(EnvOf(r), current, operation, merge(current).value)
      && io.write && io.read
      && Shaped(r, Owned(s, Candidate(current, merge(current).value)))
      && HasRoom(r, merge(current).value.data)
  {
    EnvIsLawful(r);
    CommitsIff(EnvOf(r), s, current, operation, merge, io);
    if merge(current).Some? {
      var m := merge(current).value;
      WrittenLists(s, current, m);
      var next := Imported(EnvOf(r), s, current, m);
      if next.Some? {
        FixedIffRoom(r, Owned(s, Candidate(current, m)), next.value);
      }
    }
  }

  /** After a write that was not skipped, the normalised file is the cache exactly when what was written has room. */
  lemma {:induction false} WrittenAgreesIff(r: Rules, s: Engine, data: Profile, advance: bool, io: Io)
    requires RulesOk(r) && WriteData(EnvOf(r), s, data, advance, io).error.None? && EnvOf(r).normalize(Owned(s, data)) != s.lastWritten
    ensures Agrees(EnvOf(r), WriteData(EnvOf(r), s, data, advance, io).state) <==> HasRoom(r, data)
  {
    WriteAgreesIff(EnvOf(r), s, data, advance, io);
    FixedIffRoom(r, Owned(s, data), EnvOf(r).normalize(Owned(s, data)).value);
  }

  /** A load installs what the file normalises to by then; every record kept of a profile that is written has
      room. */
  ghost predicate HasRoomOrFits(r: Rules, w: World, e: Event)
    requires Usable(r)
  {
    if Installs(EnvOf(r), w, e)
    then w.engine.file.Holds? ==> EnvOf(r).normalize(w.engine.file.data) == Some(Loaded(EnvOf(r), w.loads[e.id].raw))
    else AskedBy(w, e).Some? && HasRoom(r, AskedBy(w, e).value)
  }

  lemma {:induction false} InTuneIffRoom(r: Rules, w: World, e: Event)
    requires RulesOk(r) && Sets(EnvOf(r), w, e)
    ensures InTune(EnvOf(r), w, e) <==> HasRoomOrFits(r, w, e)
  {
    if !Installs(EnvOf(r), w, e) {
      StepShape(EnvOf(r), w, e);
      FixedIffRoom(r, AskedBy(w, e).value, Apply(EnvOf(r), w, e).engine.cached.value);
    }
  }

  /** In every state of every run, with loads interleaved at will, the normalised file is the cache exactly when
      the last step that set the cache installed what the file normalises to, or wrote a profile that has room. */
  lemma {:induction false} CacheAgreesIffRoom(r: Rules, h: History, i: nat)
    requires RulesOk(r) && IsRun(EnvOf(r), h) && i <= |h.events|
    ensures var last := LastSet(EnvOf(r), h, i);
      Agreed(EnvOf(r), h.states[i].engine) <==> (last.Some? ==> HasRoomOrFits(r, h.states[last.value], h.events[last.value]))
  {
    CacheAgreesIff(EnvOf(r), h, i);
    var last := LastSet(EnvOf(r), h, i);
    if last.Some? {
      InTuneIffRoom(r, h.states[last.value], h.events[last.value]);
    }
  }

  lemma {:induction false} NormalFormIsNormalised(r: Rules, p: Profile)
    requires RulesOk(r) && IsNormalForm(EnvOf(r), p)
    ensures EnvOf(r).normalize(p).Some?
  {
    var q :| EnvOf(r).normalize(q) == Some(p);
    MigratedIsShaped(r, q);
  }

  /** While an import is the latest one, repeating its operation never merges again, changes nothing, and answers
      with the stored receipt and generation exactly when the file can be read. */
  lemma {:induction false} RepeatedImportAnswersIff(r: Rules, h: History, i: nat, j: nat,
                                                    again: Profile -> Option<Merged>, io: Io)
    requires RulesOk(r) && GoodRun(EnvOf(r), h) && i < j <= |h.events|
    requires h.events[i].RunTask? && h.events[i].task.Commit? && h.states[i].engine.cached.Some?
    requires CachedGeneration(h.states[i + 1].engine) == CachedGeneration(h.states[i].engine) + 1
    requires CachedGeneration(h.states[j].engine) == CachedGeneration(h.states[i + 1].engine)
    ensures var s := h.states[j].engine; var first := h.states[i + 1].engine.cached;
      var step := Run(EnvOf(r), s, Commit(h.events[i].task.operation, again), io);
      && first.Some? && ReceiptOf(first.value).Some?
      && step.state == s && !step.merged
      && (if io.read
          then step.outcome.Committed? && step.outcome.receipt == ReceiptOf(first.value).value && step.outcome.generation == CachedGeneration(s)
          else step.outcome == Failed(ReadBackFailed))
  {
    CommitIsExactlyOnce(EnvOf(r), h, i, j, again, io);
    NormalFormIsNormalised(r, h.states[j].engine.file.data);
  }

  lemma {:induction false} CommitWrites(env: Env, s: Engine, current: Profile, operation: string,
                                        merge: Profile -> Option<Merged>)
    requires Lawful(env) && Coherent(env, s) && s.cached == Some(current) && merge(current).Some?
    requires ReceiptOf(current).None? || ReceiptOf(current).value.operationId != operation
    requires MergeOk(env, current, operation, merge(current).value) && Imported(env, s, current, merge(current).value).Some?
    ensures var step := CommitTask(env, s, current, operation, merge, Io(true, true, true));
      && step.state.file == Holds(Imported(env, s, current, merge(current).value).value)
      && (step.outcome.Committed? || step.outcome == Failed(ReadBackFailed))
  {
    CandidateIsNew(env, s, current, merge(current).value);
  }

  lemma {:induction false} FullHasNoRoom(r: Rules, p: Profile, id: string)
    requires RulesOk(r) && r.guards.safeId(id) && p.lists == FullWorkspaceProfile(id)
    ensures !HasRoom(r, p)
  {
    FullWorkspaceIsLost(r.guards, r.defaults, id);
    IdempotentIff(r.guards, r.defaults, p.lists);
  }

  /** An input on which it fails: an import that merges a workspace that fills its limit without an
      identity is written, yet its read-back fails. */
  lemma {:induction false} FullImportIsWrittenButFails(r: Rules, s: Engine, current: Profile, operation: string,
                                                       merge: Profile -> Option<Merged>, id: string)
    requires RulesOk(r) && r.guards.safeId(id) && Coherent(EnvOf(r), s) && s.cached == Some(current)
    requires ReceiptOf(current).None? || ReceiptOf(current).value.operationId != operation
    requires merge(current).Some? && MergeOk(EnvOf(r), current, operation, merge(current).value)
    requires merge(current).value.data.lists == FullWorkspaceProfile(id)
    requires EnvOf(r).normalize(Owned(s, Candidate(current, merge(current).value))).Some?
    ensures var step := CommitTask(EnvOf(r), s, current, operation, merge, Io(true, true, true));
      && step.outcome == Failed(ReadBackFailed)
      && step.state.file == Holds(EnvOf(r).normalize(Owned(s, Candidate(current, merge(current).value))).value)
  {
    EnvIsLawful(r);
    FullHasNoRoom(r, merge(current).value.data, id);
    ImportCommitsIff(r, s, current, operation, merge, Io(true, true, true));
    CommitWrites(EnvOf(r), s, current, operation, merge);
  }
}
