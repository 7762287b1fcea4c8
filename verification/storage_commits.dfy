/** When an import commits, and what a replacement does to it. */
module StorageCommits {
  import opened Options
  import opened StorageEngine
  import opened StorageSteps

  /** The candidate of an import as it will be written. */
  function Imported(env: Env, s: Engine, current: Profile, m: Merged): Option<Profile> {
    env.normalize(Owned(s, Candidate(current, m)))
  }

  /** What the merge function must answer. */
  predicate MergeOk(env: Env, current: Profile, operation: string, m: Merged) {
    && m.receipt.operationId == operation
    && env.validReceipt(Generation(current) + 1, m.receipt)
    && (m.data.importState.Some? ==> m.data.importState.value.generation == Generation(current))
  }

  lemma {:induction false} CandidateIsNew(env: Env, s: Engine, current: Profile, m: Merged)
    requires Lawful(env) && Coherent(env, s) && s.cached == Some(current) && Imported(env, s, current, m).Some?
    ensures Generation(Imported(env, s, current, m).value) == Generation(current) + 1
    ensures ReceiptOf(Imported(env, s, current, m).value) == Some(m.receipt)
    ensures s.lastWritten != Imported(env, s, current, m)
  {
  }

  /** An import whose operation is not the one recorded commits exactly when its merge is in order, the
      write and the read work, and the normal form it writes is a fixed point of the normaliser. */
  lemma {:induction false} CommitsIff(env: Env, s: Engine, current: Profile, operation: string,
                                      merge: Profile -> Option<Merged>, io: Io)
    requires Lawful(env) && Coherent(env, s) && s.cached == Some(current)
    requires ReceiptOf(current).None? || ReceiptOf(current).value.operationId != operation
    ensures CommitTask(env, s, current, operation, merge, io).outcome.Committed? <==>
      && merge(current).Some?
      && MergeOk(env, current, operation, merge(current).value)
      && io.write && io.read
      && var next := Imported(env, s, current, merge(current).value); next.Some? && env.normalize(next.value) == next
  {
    if merge(current).Some? && Imported(env, s, current, merge(current).value).Some? {
      CandidateIsNew(env, s, current, merge(current).value);
    }
  }

  /** A replacement or a restore starts a generation without an import: the receipt is gone, so an
      operation that had committed before it runs its merge again. */
  lemma {:induction false} ReplacementForgetsImport(env: Env, s: Engine, data: Profile, io: Io, operation: string,
                                                    merge: Profile -> Option<Merged>, io': Io)
    requires Lawful(env) && Coherent(env, s) && s.cached.Some? && Run(env, s, Replace(data), io).outcome.Done?
    ensures var after := Run(env, s, Replace(data), io).state;
      && after.cached.Some? && after.cached.value.importState.Some?
      && Pending(after.cached.value.importState.value) == [] && ReceiptOf(after.cached.value) == None
      && Run(env, after, Commit(operation, merge), io').merged
  {
    var next := Replacement(s.cached.value, data);
    WriteInstalls(env, s.(downloads := Some(next.downloads)), next, true, io);
  }
}
