/** The list passes of the profile normaliser: bounding, filtering and mapping. */
module ProfileLists {
  function Filter<T>(s: seq<T>, ok: T -> bool): seq<T> {
    if s == [] then [] else (if ok(s[0]) then [s[0]] else []) + Filter(s[1..], ok)
  }

  function Map<T>(s: seq<T>, f: T -> T): (r: seq<T>)
    ensures |r| == |s| && forall i | 0 <= i < |s| :: r[i] == f(s[i])
  {
    if s == [] then [] else [f(s[0])] + Map(s[1..], f)
  }

  function Take<T>(s: seq<T>, limit: nat): seq<T> {
    if |s| <= limit then s else s[..limit]
  }

  /** The bounded list: the items among the first `limit` that pass. */
  function Kept<T>(s: seq<T>, limit: nat, ok: T -> bool): seq<T> {
    Filter(Take(s, limit), ok)
  }

  lemma {:induction false} FilterHas<T>(s: seq<T>, ok: T -> bool, x: T)
    ensures x in Filter(s, ok) <==> x in s && ok(x)
  {
    if s != [] {
      FilterHas(s[1..], ok, x);
      assert s == [s[0]] + s[1..];
    }
  }

  /** A filter that drops nothing is the identity; one that drops something shortens. */
  lemma {:induction false} FilterIs<T>(s: seq<T>, ok: T -> bool)
    ensures |Filter(s, ok)| <= |s|
    ensures (forall x | x in s :: ok(x)) ==> Filter(s, ok) == s
    ensures (exists x | x in s :: !ok(x)) ==> |Filter(s, ok)| < |s|
  {
    if s != [] {
      FilterIs(s[1..], ok);
      assert s == [s[0]] + s[1..];
    }
  }

  lemma {:induction false} KeptIs<T>(s: seq<T>, limit: nat, ok: T -> bool)
    ensures |Kept(s, limit, ok)| <= limit
    ensures forall x | x in Kept(s, limit, ok) :: x in s && ok(x)
  {
    FilterIs(Take(s, limit), ok);
    forall x | x in Kept(s, limit, ok) ensures x in s && ok(x) {
      FilterHas(Take(s, limit), ok, x);
    }
  }

  /** A bounded list is kept as it is exactly when all its items pass. */
  lemma {:induction false} KeptAgain<T>(s: seq<T>, limit: nat, ok: T -> bool)
    requires |s| <= limit
    ensures Kept(s, limit, ok) == s <==> forall x | x in s :: ok(x)
  {
    FilterIs(s, ok);
  }

  lemma {:induction false} MapFixed<T>(s: seq<T>, f: T -> T)
    requires forall x | x in s :: f(x) == x
    ensures Map(s, f) == s
  {
  }

  /** A whole pass: bound, filter by place, migrate. */
  function Pass<T>(s: seq<T>, limit: nat, ok: T -> bool, placed: T -> bool, migrate: T -> T): seq<T> {
    Map(Filter(Kept(s, limit, ok), placed), migrate)
  }

  lemma {:induction false} PassIs<T>(s: seq<T>, limit: nat, ok: T -> bool, placed: T -> bool)
    ensures var kept := Filter(Kept(s, limit, ok), placed);
      |kept| <= limit && forall x | x in kept :: x in s && ok(x) && placed(x)
  {
    KeptIs(s, limit, ok);
    FilterIs(Kept(s, limit, ok), placed);
    forall x | x in Filter(Kept(s, limit, ok), placed) ensures x in s && ok(x) && placed(x) {
      FilterHas(Kept(s, limit, ok), placed, x);
    }
  }

  /** Migrated items of a pass are fixed and in place. */
  ghost predicate Settles<T(!new)>(ok: T -> bool, placed: T -> bool, migrate: T -> T) {
    forall x | ok(x) && placed(x) :: placed(migrate(x)) && migrate(migrate(x)) == migrate(x)
  }

  /** The second pass over a pass's result only drops what no longer passes its test. */
  lemma {:induction false} SecondPass<T(!new)>(s: seq<T>, limit: nat, ok: T -> bool, placed: T -> bool, migrate: T -> T)
    requires Settles(ok, placed, migrate)
    ensures var once := Pass(s, limit, ok, placed, migrate); Pass(once, limit, ok, placed, migrate) == Filter(once, ok)
  {
    var kept := Filter(Kept(s, limit, ok), placed);
    var once := Map(kept, migrate);
    PassIs(s, limit, ok, placed);
    forall x | x in once ensures placed(x) && migrate(x) == x {
      var i :| 0 <= i < |kept| && x == migrate(kept[i]);
      assert kept[i] in kept;
    }
    FilterIs(once, ok);
    var again := Kept(once, limit, ok);
    KeptIs(once, limit, ok);
    FilterIs(again, placed);
    MapFixed(again, migrate);
  }

  /** A second pass changes nothing exactly when every kept item still passes after its migration. */
  lemma {:induction false} PassTwice<T(!new)>(s: seq<T>, limit: nat, ok: T -> bool, placed: T -> bool, migrate: T -> T)
    requires Settles(ok, placed, migrate)
    ensures var once := Pass(s, limit, ok, placed, migrate);
      Pass(once, limit, ok, placed, migrate) == once <==> forall x | x in Filter(Kept(s, limit, ok), placed) :: ok(migrate(x))
  {
    var kept := Filter(Kept(s, limit, ok), placed);
    var once := Map(kept, migrate);
    SecondPass(s, limit, ok, placed, migrate);
    FilterIs(once, ok);
    if forall x | x in kept :: ok(migrate(x)) {
      forall x | x in once ensures ok(x) {
        var i :| 0 <= i < |kept| && x == migrate(kept[i]);
        assert kept[i] in kept;
      }
    } else {
      var x :| x in kept && !ok(migrate(x));
      var i :| 0 <= i < |kept| && kept[i] == x;
      assert once[i] in once;
    }
  }

  lemma {:induction false} FilterAppend<T>(s: seq<T>, x: T, ok: T -> bool)
    ensures Filter(s + [x], ok) == Filter(s, ok) + (if ok(x) then [x] else [])
  {
    if s == [] {
      assert s + [x] == [x];
    } else {
      FilterAppend(s[1..], x, ok);
      assert (s + [x])[1..] == s[1..] + [x];
    }
  }

  /** The loop that bounds a list: the items among the first `limit` that pass their guard and whose text is short enough. */
  method BoundedArray<T(!new)>(value: seq<T>, limit: nat, guard: T -> bool, size: T -> nat, maxItemBytes: nat, ghost ok: T -> bool)
    returns (next: seq<T>)
    requires forall x :: ok(x) == (guard(x) && size(x) <= maxItemBytes)
    ensures next == Kept(value, limit, ok)
  {
    var items := Take(value, limit);
    next := [];
    for i := 0 to |items|
      invariant next == Filter(items[..i], ok)
    {
      FilterAppend(items[..i], items[i], ok);
      assert items[..i + 1] == items[..i] + [items[i]];
      if !guard(items[i]) {
        continue;
      }
      if size(items[i]) <= maxItemBytes {
        next := next + [items[i]];
      }
    }
    assert items[..|items|] == items;
  }
}
