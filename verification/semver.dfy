/** Version precedence as `semver.gt` decides it (SemVer 2.0.0, item 11): the parsed
    form of a version string, the three-way comparison, and the order laws the release
    pipeline relies on.  Build metadata is part of the text but not of the precedence. */
module SemVer {

  /** A dot-separated pre-release identifier. */
  datatype Identifier = Numeric(n: nat) | Alphanumeric(text: string)

  /** A parsed version; equal values are equal version strings. */
  datatype Version = Version(major: nat, minor: nat, patch: nat, prerelease: seq<Identifier>, build: seq<string>)

  function CompareNat(a: nat, b: nat): int {
    if a < b then -1 else if a > b then 1 else 0
  }

  /** ASCII order on strings. */
  function CompareText(a: string, b: string): int {
    if a == [] && b == [] then 0
    else if a == [] then -1
    else if b == [] then 1
    else if a[0] < b[0] then -1
    else if a[0] > b[0] then 1
    else CompareText(a[1..], b[1..])
  }

  /** Numeric identifiers always rank below alphanumeric ones. */
  function CompareIdentifier(a: Identifier, b: Identifier): int {
    match (a, b)
    case (Numeric(m), Numeric(n)) => CompareNat(m, n)
    case (Numeric(_), Alphanumeric(_)) => -1
    case (Alphanumeric(_), Numeric(_)) => 1
    case (Alphanumeric(s), Alphanumeric(t)) => CompareText(s, t)
  }

  /** Field by field; with all fields equal, the longer list ranks higher. */
  function CompareIdentifiers(a: seq<Identifier>, b: seq<Identifier>): int {
    if a == [] && b == [] then 0
    else if a == [] then -1
    else if b == [] then 1
    else
      var c := CompareIdentifier(a[0], b[0]);
      if c != 0 then c else CompareIdentifiers(a[1..], b[1..])
  }

  /** A version without pre-release ranks above the same version with one. */
  function ComparePrerelease(a: seq<Identifier>, b: seq<Identifier>): int {
    if a == [] && b == [] then 0
    else if a == [] then 1
    else if b == [] then -1
    else CompareIdentifiers(a, b)
  }

  function Compare(a: Version, b: Version): int {
    if a.major != b.major then CompareNat(a.major, b.major)
    else if a.minor != b.minor then CompareNat(a.minor, b.minor)
    else if a.patch != b.patch then CompareNat(a.patch, b.patch)
    else ComparePrerelease(a.prerelease, b.prerelease)
  }

  predicate Gt(a: Version, b: Version) {
    Compare(a, b) > 0
  }

  lemma {:induction false} TextOrder(a: string, b: string, c: string)
    ensures CompareText(a, b) == -CompareText(b, a)
    ensures CompareText(a, b) == 0 <==> a == b
    ensures CompareText(a, b) >= 0 && CompareText(b, c) > 0 ==> CompareText(a, c) > 0
    ensures CompareText(a, b) > 0 && CompareText(b, c) >= 0 ==> CompareText(a, c) > 0
    decreases |a| + |b| + |c|
  {
    if a != [] && b != [] {
      assert a == [a[0]] + a[1..] && b == [b[0]] + b[1..];
      TextOrder(a[1..], b[1..], if c == [] then [] else c[1..]);
    }
  }

  lemma {:induction false} IdentifierOrder(a: Identifier, b: Identifier, c: Identifier)
    ensures CompareIdentifier(a, b) == -CompareIdentifier(b, a)
    ensures CompareIdentifier(a, b) == 0 <==> a == b
    ensures CompareIdentifier(a, b) >= 0 && CompareIdentifier(b, c) > 0 ==> CompareIdentifier(a, c) > 0
    ensures CompareIdentifier(a, b) > 0 && CompareIdentifier(b, c) >= 0 ==> CompareIdentifier(a, c) > 0
  {
    if a.Alphanumeric? && b.Alphanumeric? {
      TextOrder(a.text, b.text, if c.Alphanumeric? then c.text else []);
    }
  }

  lemma {:induction false} IdentifiersCompared(a: seq<Identifier>, b: seq<Identifier>, c: seq<Identifier>)
    ensures CompareIdentifiers(a, b) == -CompareIdentifiers(b, a)
    ensures CompareIdentifiers(a, b) == 0 <==> a == b
    ensures CompareIdentifiers(a, b) >= 0 && CompareIdentifiers(b, c) > 0 ==> CompareIdentifiers(a, c) > 0
    ensures CompareIdentifiers(a, b) > 0 && CompareIdentifiers(b, c) >= 0 ==> CompareIdentifiers(a, c) > 0
    decreases |a| + |b| + |c|
  {
    if a != [] && b != [] {
      assert a == [a[0]] + a[1..] && b == [b[0]] + b[1..];
      IdentifierOrder(a[0], b[0], if c == [] then b[0] else c[0]);
      IdentifiersCompared(a[1..], b[1..], if c == [] then [] else c[1..]);
    }
  }

  /** Two versions tie exactly when they differ in build metadata at most. */
  lemma {:induction false} TieIsBuildOnly(a: Version, b: Version)
    ensures Compare(a, b) == 0 <==> a.(build := b.build) == b
  {
    IdentifiersCompared(a.prerelease, b.prerelease, []);
  }

  /** At the first differing position `a` is the higher one, or there is none and `b` is a proper prefix of `a`. */
  ghost predicate FirstDiffersAbove<T(!new)>(a: seq<T>, b: seq<T>, above: (T, T) -> bool) {
    || b < a
    || exists k | 0 <= k < |a| && k < |b| :: a[..k] == b[..k] && above(a[k], b[k])
  }

  predicate CharacterAbove(c: char, d: char) {
    c > d
  }

  /** Items 11.4.1 to 11.4.3: numbers by value, texts by their characters, a text above a number. */
  ghost predicate IdentifierAbove(a: Identifier, b: Identifier) {
    || (a.Numeric? && b.Numeric? && a.n > b.n)
    || (a.Alphanumeric? && b.Numeric?)
    || (a.Alphanumeric? && b.Alphanumeric? && FirstDiffersAbove(a.text, b.text, CharacterAbove))
  }

  /** Item 11 on the fields: major, then minor, then patch, then a release above its pre-releases, then
      the pre-release identifiers in order. */
  ghost predicate HasPrecedence(a: Version, b: Version) {
    || a.major > b.major
    || (a.major == b.major && a.minor > b.minor)
    || (a.major == b.major && a.minor == b.minor && a.patch > b.patch)
    || (a.major == b.major && a.minor == b.minor && a.patch == b.patch
        && b.prerelease != []
        && (a.prerelease == [] || FirstDiffersAbove(a.prerelease, b.prerelease, IdentifierAbove)))
  }

  lemma {:induction false} FirstDiffersStep<T(!new)>(a: seq<T>, b: seq<T>, above: (T, T) -> bool)
    requires a != [] && b != []
    ensures FirstDiffersAbove(a, b, above) <==>
            above(a[0], b[0]) || (a[0] == b[0] && FirstDiffersAbove(a[1..], b[1..], above))
  {
    var c, d := a[1..], b[1..];
    assert a == [a[0]] + c && b == [b[0]] + d;
    if above(a[0], b[0]) {
      assert a[..0] == b[..0];
    } else if a[0] == b[0] {
      if k :| 0 <= k < |c| && k < |d| && c[..k] == d[..k] && above(c[k], d[k]) {
        assert a[..k + 1] == [a[0]] + c[..k] == b[..k + 1] && above(a[k + 1], b[k + 1]);
      }
      if k :| 0 <= k < |a| && k < |b| && a[..k] == b[..k] && above(a[k], b[k]) {
        assert c[..k - 1] == a[..k][1..] == d[..k - 1] && above(c[k - 1], d[k - 1]);
      }
    }
  }

  lemma {:induction false} TextAboveIff(a: string, b: string)
    ensures CompareText(a, b) > 0 <==> FirstDiffersAbove(a, b, CharacterAbove)
    decreases |a|
  {
    if a != [] && b != [] {
      FirstDiffersStep(a, b, CharacterAbove);
      TextAboveIff(a[1..], b[1..]);
    }
  }

  lemma {:induction false} IdentifierAboveIff(a: Identifier, b: Identifier)
    ensures CompareIdentifier(a, b) > 0 <==> IdentifierAbove(a, b)
  {
    if a.Alphanumeric? && b.Alphanumeric? {
      TextAboveIff(a.text, b.text);
    }
  }

  lemma {:induction false} IdentifiersAboveIff(a: seq<Identifier>, b: seq<Identifier>)
    ensures CompareIdentifiers(a, b) > 0 <==> FirstDiffersAbove(a, b, IdentifierAbove)
    decreases |a|
  {
    if a != [] && b != [] {
      FirstDiffersStep(a, b, IdentifierAbove);
      IdentifierAboveIff(a[0], b[0]);
      IdentifierOrder(a[0], b[0], a[0]);
      IdentifiersAboveIff(a[1..], b[1..]);
    }
  }

  /** The comparison of pre-release identifiers is the order of item 11.4, which is total and equal on identical lists only. */
  lemma {:induction false} IdentifiersOrder(a: seq<Identifier>, b: seq<Identifier>, c: seq<Identifier>)
    ensures CompareIdentifiers(a, b) > 0 <==> FirstDiffersAbove(a, b, IdentifierAbove)
    ensures CompareIdentifiers(a, b) < 0 <==> FirstDiffersAbove(b, a, IdentifierAbove)
    ensures CompareIdentifiers(a, b) == 0 <==> a == b
    ensures CompareIdentifiers(a, b) >= 0 && CompareIdentifiers(b, c) > 0 ==> CompareIdentifiers(a, c) > 0
    ensures CompareIdentifiers(a, b) > 0 && CompareIdentifiers(b, c) >= 0 ==> CompareIdentifiers(a, c) > 0
  {
    IdentifiersAboveIff(a, b);
    IdentifiersAboveIff(b, a);
    IdentifiersCompared(a, b, c);
  }

  /** The test the release pipeline makes is exactly item 11. */
  lemma {:induction false} GtIff(a: Version, b: Version)
    ensures Gt(a, b) <==> HasPrecedence(a, b)
  {
    IdentifiersAboveIff(a.prerelease, b.prerelease);
  }

  /** Of two versions exactly one has precedence, unless they differ in build metadata at most. */
  lemma {:induction false} GtIsTotal(a: Version, b: Version)
    ensures !(Gt(a, b) && Gt(b, a)) && !(HasPrecedence(a, b) && HasPrecedence(b, a))
    ensures Gt(a, b) || Gt(b, a) || a.(build := b.build) == b
    ensures HasPrecedence(a, b) || HasPrecedence(b, a) || a.(build := b.build) == b
  {
    GtIff(a, b);
    GtIff(b, a);
    TieIsBuildOnly(a, b);
    IdentifiersCompared(a.prerelease, b.prerelease, []);
  }

  lemma {:induction false} GtIsTransitive(a: Version, b: Version, c: Version)
    requires Gt(a, b) && Gt(b, c)
    ensures Gt(a, c) && HasPrecedence(a, c)
  {
    IdentifiersCompared(a.prerelease, b.prerelease, c.prerelease);
    GtIff(a, c);
  }
}
