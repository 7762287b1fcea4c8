/** What a filter keeps, said without a recursion over the list. */
module Selections {

  predicate Rises(at: seq<nat>) {
    forall i, j | 0 <= i < j < |at| :: at[i] < at[j]
  }

  /** `to` is made of the elements of `from` at the positions `at`. */
  ghost predicate Picks<T>(from: seq<T>, to: seq<T>, at: seq<nat>) {
    |at| == |to| && forall k | 0 <= k < |at| :: at[k] < |from| && to[k] == from[at[k]]
  }

  /** The positions are those of the kept elements. */
  ghost predicate Covers<T>(from: seq<T>, keep: T -> bool, at: seq<nat>) {
    forall i | 0 <= i < |from| :: keep(from[i]) <==> i in at
  }

  /** `to` is exactly the kept elements of `from`, every occurrence, in the order they stand in. */
  ghost predicate Selects<T>(from: seq<T>, keep: T -> bool, to: seq<T>) {
    exists at :: Rises(at) && Picks(from, to, at) && Covers(from, keep, at)
  }

  lemma {:induction false} SelectsNothing<T>(keep: T -> bool)
    ensures Selects([], keep, [])
  {
    var at: seq<nat> := [];
    assert Rises(at) && Picks<T>([], [], at) && Covers([], keep, at);
  }

  function Shifted(at: seq<nat>): seq<nat> {
    seq(|at|, k requires 0 <= k < |at| => at[k] + 1)
  }

  lemma {:induction false} ShiftedHas(at: seq<nat>, i: nat)
    ensures i in Shifted(at) <==> i > 0 && i - 1 in at
  {
    if i > 0 && i - 1 in at {
      var k :| 0 <= k < |at| && at[k] == i - 1;
      assert Shifted(at)[k] == i;
    }
  }

  lemma {:induction false} ShiftedCovers<T>(first: T, from: seq<T>, keep: T -> bool, at: seq<nat>)
    requires Covers(from, keep, at)
    ensures Covers([first] + from, keep, if keep(first) then [0] + Shifted(at) else Shifted(at))
  {
    var whole := [first] + from;
    var moved := if keep(first) then [0] + Shifted(at) else Shifted(at);
    forall i | 0 <= i < |whole| ensures keep(whole[i]) <==> i in moved {
      ShiftedHas(at, i);
      if i > 0 {
        assert whole[i] == from[i - 1];
      }
    }
  }

  lemma {:induction false} ShiftedRises(at: seq<nat>)
    requires Rises(at)
    ensures Rises(Shifted(at)) && Rises([0] + Shifted(at))
  {
  }

  lemma {:induction false} ShiftedPicks<T>(first: T, from: seq<T>, to: seq<T>, at: seq<nat>)
    requires Picks(from, to, at)
    ensures Picks([first] + from, to, Shifted(at)) && Picks([first] + from, [first] + to, [0] + Shifted(at))
  {
  }

  /** One element in front of a selection. */
  lemma {:induction false} SelectsStep<T>(first: T, from: seq<T>, keep: T -> bool, to: seq<T>)
    requires Selects(from, keep, to)
    ensures Selects([first] + from, keep, if keep(first) then [first] + to else to)
  {
    var at :| Rises(at) && Picks(from, to, at) && Covers(from, keep, at);
    ShiftedRises(at);
    ShiftedPicks(first, from, to, at);
    ShiftedCovers(first, from, keep, at);
  }
}
