/** The bookkeeping of an import's extensions: which ids are still to be handled and which have
    a final receipt. */
module StorageImports {
  import opened Options
  import opened StorageEngine
  import opened StorageSteps

  predicate DistinctReceipts(rs: seq<ExtensionReceipt>) {
    forall i, j | 0 <= i < j < |rs| :: rs[i].id != rs[j].id
  }

  /** Some receipt with another status than a failure is recorded for the id. */
  ghost predicate Final(rs: seq<ExtensionReceipt>, id: string) {
    exists r | r in rs :: r.id == id && !r.status.NotInstalled?
  }

  /** Ids to be handled and ids with a final receipt are apart and together are the selected
      ones; each id has at most one receipt; a completed import has nothing left to handle, and once a
      result is recorded an import with nothing left is completed. */
  ghost predicate Book(i: ImportState, selected: set<string>) {
    && (forall id :: id in selected <==> id in Pending(i) || Final(Receipts(i), id))
    && (forall id | id in Pending(i) :: !Final(Receipts(i), id))
    && DistinctReceipts(Receipts(i))
    && (i.phase.Completed? ==> Pending(i) == [])
    && (i.extensions.Some? && Pending(i) == [] ==> i.phase.Completed?)
  }

  /** Every final receipt of one state is in the other. */
  ghost predicate FinalsKept(i: ImportState, j: ImportState) {
    forall r | r in Receipts(i) && !r.status.NotInstalled? :: r in Receipts(j)
  }

  lemma {:induction false} WithoutHas(ids: seq<string>, id: string, x: string)
    ensures x in Without(ids, id) <==> x in ids && x != id
  {
    if ids != [] {
      WithoutHas(ids[1..], id, x);
      assert ids == [ids[0]] + ids[1..];
    }
  }

  lemma {:induction false} OthersHave(rs: seq<ExtensionReceipt>, id: string, r: ExtensionReceipt)
    ensures r in OtherReceipts(rs, id) <==> r in rs && r.id != id
  {
    if rs != [] {
      OthersHave(rs[1..], id, r);
      assert rs == [rs[0]] + rs[1..];
    }
  }

  lemma {:induction false} OthersAreDistinct(rs: seq<ExtensionReceipt>, id: string)
    requires DistinctReceipts(rs)
    ensures DistinctReceipts(OtherReceipts(rs, id))
  {
    if rs != [] {
      OthersAreDistinct(rs[1..], id);
      var rest := OtherReceipts(rs[1..], id);
      forall k | 0 <= k < |rest| ensures rest[k].id != rs[0].id {
        OthersHave(rs[1..], id, rest[k]);
        assert rest[k] in rs[1..];
      }
    }
  }

  lemma {:induction false} FoundFirst(rs: seq<ExtensionReceipt>, id: string)
    requires DistinctReceipts(rs)
    ensures FindReceipt(rs, id).Some? ==> FindReceipt(rs, id).value in rs && FindReceipt(rs, id).value.id == id
    ensures forall r | r in rs && r.id == id :: FindReceipt(rs, id) == Some(r)
  {
    if rs != [] {
      FoundFirst(rs[1..], id);
      assert rs == [rs[0]] + rs[1..];
    }
  }

  lemma {:induction false} NotFinalMeans(i: ImportState, id: string)
    requires DistinctReceipts(Receipts(i)) && NotFinal(i, id)
    ensures !Final(Receipts(i), id)
  {
    FoundFirst(Receipts(i), id);
  }

  lemma {:induction false} RecordedFinal(i: ImportState, e: ExtensionReceipt, id: string)
    ensures Final(Receipts(RecordIn(i, e)), id) <==>
      (if id == e.id then !e.status.NotInstalled? else Final(Receipts(i), id))
  {
    var rs := OtherReceipts(Receipts(i), e.id);
    assert Receipts(RecordIn(i, e)) == rs + [e];
    if id != e.id && Final(Receipts(i), id) {
      var r :| r in Receipts(i) && r.id == id && !r.status.NotInstalled?;
      OthersHave(Receipts(i), e.id, r);
      assert r in rs + [e];
    }
    if Final(rs + [e], id) {
      var r :| r in rs + [e] && r.id == id && !r.status.NotInstalled?;
      OthersHave(Receipts(i), e.id, r);
    }
    if id == e.id && !e.status.NotInstalled? {
      assert e in rs + [e];
    }
  }

  lemma {:induction false} RecordedDistinct(i: ImportState, e: ExtensionReceipt)
    requires DistinctReceipts(Receipts(i))
    ensures DistinctReceipts(Receipts(RecordIn(i, e)))
  {
    var rs := OtherReceipts(Receipts(i), e.id);
    OthersAreDistinct(Receipts(i), e.id);
    forall k | 0 <= k < |rs| ensures rs[k].id != e.id {
      OthersHave(Receipts(i), e.id, rs[k]);
    }
  }

  /** Recording a result keeps the bookkeeping and every final receipt. */
  lemma {:induction false} RecordKeepsBook(i: ImportState, selected: set<string>, e: ExtensionReceipt)
    requires Book(i, selected) && e.id in Pending(i) && NotFinal(i, e.id)
    ensures Book(RecordIn(i, e), selected) && FinalsKept(i, RecordIn(i, e))
  {
    NotFinalMeans(i, e.id);
    RecordedDistinct(i, e);
    forall id ensures (id in selected <==> id in Pending(RecordIn(i, e)) || Final(Receipts(RecordIn(i, e)), id))
      && (id in Pending(RecordIn(i, e)) ==> !Final(Receipts(RecordIn(i, e)), id))
    {
      RecordedFinal(i, e, id);
      WithoutHas(Pending(i), e.id, id);
    }
    forall r | r in Receipts(i) && !r.status.NotInstalled? ensures r in Receipts(RecordIn(i, e)) {
      OthersHave(Receipts(i), e.id, r);
      assert Final(Receipts(i), r.id);
    }
  }

  /** A committed merge starts the bookkeeping with the ids it selected. */
  lemma {:induction false} CandidateStartsBook(current: Profile, m: Merged)
    ensures var i := Candidate(current, m).importState;
      var selected := if m.data.importState.Some? then set id | id in Pending(m.data.importState.value) else {};
      i.Some? && Book(i.value, selected) && Receipts(i.value) == [] && i.value.receipt == Some(m.receipt)
  {
  }

  /** Going back to an earlier import state, of which every final receipt was kept since, keeps the final
      receipts exactly when everything pending there is still pending. */
  lemma {:induction false} GoingBackKeepsFinalsIff(earlier: ImportState, current: ImportState, selected: set<string>)
    requires Book(earlier, selected) && Book(current, selected) && FinalsKept(earlier, current)
    ensures FinalsKept(current, earlier) <==> forall id | id in Pending(earlier) :: id in Pending(current)
  {
    if FinalsKept(current, earlier) {
      KeptFinalsAreNotPending(current, earlier, selected);
    }
    if forall id | id in Pending(earlier) :: id in Pending(current) {
      forall r | r in Receipts(current) && !r.status.NotInstalled? ensures r in Receipts(earlier) {
        assert Final(Receipts(current), r.id);
        var q :| q in Receipts(earlier) && q.id == r.id && !q.status.NotInstalled?;
        var i :| 0 <= i < |Receipts(current)| && Receipts(current)[i] == r;
        var j :| 0 <= j < |Receipts(current)| && Receipts(current)[j] == q;
        assert i == j;
      }
    }
  }

  /** A state that has every final receipt of another has nothing pending that was handled there. */
  lemma {:induction false} KeptFinalsAreNotPending(current: ImportState, next: ImportState, selected: set<string>)
    requires Book(current, selected) && Book(next, selected) && FinalsKept(current, next)
    ensures forall id | id in Pending(next) :: id in Pending(current)
  {
    forall id | id in Pending(next) ensures id in Pending(current) {
      if Final(Receipts(current), id) {
        var r :| r in Receipts(current) && r.id == id && !r.status.NotInstalled?;
        assert Final(Receipts(next), id);
      }
    }
  }

  /** A save is checked against the generation alone.  An accepted one whose data carries an earlier import
      state keeps the final receipts exactly when everything pending in its data is still pending, which a
      caller can see before it saves. */
  lemma {:induction false} SaveKeepsFinalsIff(env: Env, s: Engine, data: Profile, io: Io, selected: set<string>)
    requires Lawful(env) && Coherent(env, s) && s.cached.Some? && s.cached.value.importState.Some? && data.importState.Some?
    requires Book(data.importState.value, selected) && Book(s.cached.value.importState.value, selected)
    requires FinalsKept(data.importState.value, s.cached.value.importState.value)
    requires Run(env, s, Save(data), io).outcome.Done?
    ensures var after := Run(env, s, Save(data), io).state;
      && after.cached.Some? && after.cached.value.importState.Some?
      && (FinalsKept(s.cached.value.importState.value, after.cached.value.importState.value)
          <==> forall id | id in Pending(data.importState.value) :: id in Pending(s.cached.value.importState.value))
  {
    WriteInstalls(env, s, data, false, io);
    GoingBackKeepsFinalsIff(data.importState.value, s.cached.value.importState.value, selected);
  }

  /** The data of before a recorded result, saved after it, loses the result. */
  lemma {:induction false} StaleSaveForgetsResult(env: Env, s: Engine, before: ImportState, e: ExtensionReceipt,
                                                  data: Profile, io: Io)
    requires Lawful(env) && Coherent(env, s) && s.cached.Some? && s.cached.value.importState == Some(RecordIn(before, e))
    requires !e.status.NotInstalled? && e.id in Pending(before) && e !in Receipts(before)
    requires data.importState == Some(before) && Run(env, s, Save(data), io).outcome.Done?
    ensures var after := Run(env, s, Save(data), io).state.cached;
      && e in Receipts(s.cached.value.importState.value)
      && after.Some? && after.value.importState.Some?
      && e !in Receipts(after.value.importState.value)
      && e.id in Pending(after.value.importState.value)
  {
    WriteInstalls(env, s, data, false, io);
    assert Receipts(RecordIn(before, e)) == OtherReceipts(Receipts(before), e.id) + [e];
  }
}
