/** Which entry names may be extracted, and the file each of them names. */
module ArchivePaths {
  /** Backslashes read as slashes. */
  function Slashes(path: string): string {
    seq(|path|, i requires 0 <= i < |path| => if path[i] == '\\' then '/' else path[i])
  }

  predicate HasDotDot(path: string) {
    exists i: nat :: i + 1 < |path| && path[i] == '.' && path[i + 1] == '.'
  }

  predicate HasDrive(path: string) {
    |path| >= 2 && path[1] == ':' && ('a' <= path[0] <= 'z' || 'A' <= path[0] <= 'Z')
  }

  /** The text before the first slash. */
  function Head(path: string): (h: string)
    ensures |h| <= |path| && path[..|h|] == h && '/' !in h
    ensures |h| < |path| ==> path[|h|] == '/'
  {
    if path == "" || path[0] == '/' then "" else [path[0]] + Head(path[1..])
  }

  function Tail(path: string): (t: string)
    ensures path != "" ==> |t| < |path|
  {
    if |Head(path)| < |path| then path[|Head(path)| + 1..] else ""
  }

  /** The segments a path resolves to below its root: empty ones and single dots name nothing. */
  function Segments(path: string): seq<string>
    decreases |path|
  {
    if path == "" then []
    else if Head(path) == "" || Head(path) == "." then Segments(Tail(path))
    else [Head(path)] + Segments(Tail(path))
  }

  /** The file below the root that an entry name stands for. */
  function Target(path: string): seq<string> {
    Segments(Slashes(path))
  }

  predicate Safe(path: string) {
    var normalized := Slashes(path);
    && normalized != ""
    && normalized[0] != '/'
    && !HasDotDot(normalized)
    && !HasDrive(normalized)
    && Target(path) != []
  }

  /** A segment that names an entry of the directory it is looked up in. */
  predicate StaysInside(segment: string) {
    segment != "" && segment != "." && segment != ".." && '/' !in segment
  }

  lemma {:induction false} HeadHasDotDot(path: string)
    requires Head(path) == ".."
    ensures HasDotDot(path)
  {
    var h := Head(path);
    assert path[0] == h[0] && path[1] == h[1];
  }

  lemma {:induction false} TailHasDotDot(path: string)
    requires HasDotDot(Tail(path))
    ensures HasDotDot(path)
  {
    var i: nat :| i + 1 < |Tail(path)| && Tail(path)[i] == '.' && Tail(path)[i + 1] == '.';
    var k := |Head(path)| + 1 + i;
    assert path[k] == '.' && path[k + 1] == '.';
  }

  lemma {:induction false} SegmentsStayInside(path: string)
    ensures HasDotDot(path) || forall s | s in Segments(path) :: StaysInside(s)
    decreases |path|
  {
    if path != "" {
      SegmentsStayInside(Tail(path));
      if HasDotDot(Tail(path)) {
        TailHasDotDot(path);
      } else if Head(path) == ".." {
        HeadHasDotDot(path);
      }
    }
  }

  /** A safe name stands for a file strictly below the root: no segment leads up or back to it. */
  lemma {:induction false} SafeTargetsStayInside(path: string)
    requires Safe(path)
    ensures Target(path) != [] && forall s | s in Target(path) :: StaysInside(s)
  {
    SegmentsStayInside(Slashes(path));
  }

  lemma {:induction false} HeadOf(h: string, rest: string)
    requires '/' !in h
    ensures Head(h + "/" + rest) == h && Tail(h + "/" + rest) == rest
  {
    if h == "" {
      assert (h + "/" + rest)[0] == '/';
    } else {
      HeadOf(h[1..], rest);
      assert (h + "/" + rest)[1..] == h[1..] + "/" + rest;
    }
    assert (h + "/" + rest)[|h| + 1..] == rest;
  }

  /** A doubled slash names the same file. */
  lemma {:induction false} DoubledSlash(h: string, rest: string)
    requires '/' !in h && StaysInside(h)
    ensures Segments(h + "/" + rest) == Segments(h + "//" + rest) == [h] + Segments(rest)
  {
    HeadOf(h, rest);
    HeadOf(h, "/" + rest);
    HeadOf("", rest);
    assert h + "//" + rest == h + "/" + ("/" + rest);
    assert "" + "/" + rest == "/" + rest;
  }

  /** A name without slashes, backslashes or dots alone is its own target. */
  lemma {:induction false} PlainTarget(name: string)
    requires StaysInside(name) && '\\' !in name
    ensures Target(name) == [name]
  {
    assert Slashes(name) == name;
    WholeHead(name);
    assert Segments("") == [];
  }

  lemma {:induction false} WholeHead(name: string)
    requires '/' !in name
    ensures Head(name) == name && Tail(name) == ""
  {
    if name != "" {
      WholeHead(name[1..]);
    }
  }

  /** Names below a directory have its name as their first segment. */
  lemma {:induction false} TargetBelow(h: string, path: string)
    requires StaysInside(h) && '\\' !in h && h + "/" <= path
    ensures Target(path) != [] && Target(path)[0] == h
  {
    var normalized := Slashes(path);
    var rest := normalized[|h| + 1..];
    assert normalized[..|h|] == h && normalized[|h|] == '/';
    assert normalized == h + "/" + rest;
    HeadOf(h, rest);
  }

  /** A name without slashes and with a single dot inside is safe. */
  lemma {:induction false} OneDotIsSafe(name: string, dot: nat)
    requires |name| >= 2 && dot < |name| && '/' !in name && '\\' !in name && ':' !in name
    requires forall i | 0 <= i < |name| && i != dot :: name[i] != '.'
    ensures Safe(name)
  {
    assert !(name[0] == '.' && name[1] == '.');
    PlainTarget(name);
    assert Slashes(name) == name;
  }

  lemma {:induction false} PlainNameIsSafe(path: string)
    requires |path| >= 2 && path[0] == 'd' && path[1] == 'a' && Target(path) != []
    requires forall i | 0 <= i < |path| :: path[i] != '\\' && path[i] != '.'
    ensures Safe(path)
  {
    assert Slashes(path) == path;
  }

  /** Two different safe names stand for one file. */
  lemma {:induction false} SafeNamesMayAlias(a: string, b: string)
    requires a == "data/a" && b == "data//a"
    ensures a != b && Safe(a) && Safe(b) && Target(a) == Target(b)
  {
    assert Slashes(a) == a && Slashes(b) == b;
    assert a == "data" + "/" + "a" && b == "data" + "//" + "a";
    DoubledSlash("data", "a");
    PlainNameIsSafe(a);
    PlainNameIsSafe(b);
  }

  // ---- Which names are safe, and what they stand for, by their characters ----

  /** The file of a name by its first segment: an empty one and a single dot name nothing. */
  lemma {:induction false} SegmentsSplit(h: string, rest: string)
    requires '/' !in h
    ensures Segments(h) == if h == "" || h == "." then [] else [h]
    ensures Segments(h + "/" + rest) == (if h == "" || h == "." then [] else [h]) + Segments(rest)
  {
    HeadOf(h, rest);
    WholeHead(h);
    assert Segments("") == [];
  }

  /** A character that is neither a dot nor a separator. */
  predicate Telling(c: char) {
    c != '.' && c != '/' && c != '\\'
  }

  ghost predicate HasTelling(path: string) {
    exists i | 0 <= i < |path| :: Telling(path[i])
  }

  lemma {:induction false} HeadAndTail(path: string)
    ensures path == Head(path) || path == Head(path) + "/" + Tail(path)
  {
    if |Head(path)| < |path| {
      assert path == path[..|Head(path)|] + [path[|Head(path)|]] + path[|Head(path)| + 1..];
    } else {
      assert path[..|path|] == path;
    }
  }

  lemma {:induction false} TellingInJoin(h: string, rest: string)
    ensures HasTelling(h + "/" + rest) <==> HasTelling(h) || HasTelling(rest)
  {
    var whole := h + "/" + rest;
    if HasTelling(whole) {
      var i :| 0 <= i < |whole| && Telling(whole[i]);
      assert i < |h| ==> whole[i] == h[i];
      assert i > |h| ==> whole[i] == rest[i - |h| - 1];
    }
    if i :| 0 <= i < |h| && Telling(h[i]) {
      assert whole[i] == h[i];
    }
    if i :| 0 <= i < |rest| && Telling(rest[i]) {
      assert whole[|h| + 1 + i] == rest[i];
    }
  }

  lemma {:induction false} TellingHead(h: string)
    requires '/' !in h && '\\' !in h && !HasDotDot(h)
    ensures HasTelling(h) <==> h != "" && h != "."
  {
    if h != "" && h != "." {
      if !Telling(h[0]) {
        assert h[0] == '.' && |h| > 1 && Telling(h[1]);
      }
    }
  }

  lemma {:induction false} HeadHasNoDotDot(path: string)
    requires !HasDotDot(path)
    ensures !HasDotDot(Head(path))
  {
    var h := Head(path);
    forall i: nat | i + 1 < |h| ensures !(h[i] == '.' && h[i + 1] == '.') {
      assert path[i] == h[i] && path[i + 1] == h[i + 1];
    }
  }

  lemma {:induction false} SegmentsTell(path: string)
    requires !HasDotDot(path) && '\\' !in path
    ensures Segments(path) != [] <==> HasTelling(path)
    decreases |path|
  {
    if path != "" {
      var h := Head(path);
      HeadAndTail(path);
      HeadHasNoDotDot(path);
      TellingHead(h);
      SegmentsSplit(h, Tail(path));
      if path != h {
        if HasDotDot(Tail(path)) {
          TailHasDotDot(path);
        }
        TellingInJoin(h, Tail(path));
        SegmentsTell(Tail(path));
      }
    }
  }

  /** A name is safe exactly when it does not start with a separator, has no two dots in a row, does not start with
      a drive letter, and has some character besides dots and separators. */
  lemma {:induction false} SafeIff(path: string)
    ensures Safe(path) <==>
      && path != "" && path[0] != '/' && path[0] != '\\'
      && (forall i | 0 <= i < |path| - 1 :: !(path[i] == '.' && path[i + 1] == '.'))
      && !(|path| > 1 && path[1] == ':' && ('a' <= path[0] <= 'z' || 'A' <= path[0] <= 'Z'))
      && exists i | 0 <= i < |path| :: path[i] != '.' && path[i] != '/' && path[i] != '\\'
  {
    var normalized := Slashes(path);
    SameDots(path);
    if !HasDotDot(normalized) {
      SegmentsTell(normalized);
    }
  }

  lemma {:induction false} SameDots(path: string)
    ensures HasDotDot(Slashes(path)) <==> exists i | 0 <= i < |path| - 1 :: path[i] == '.' && path[i + 1] == '.'
    ensures HasTelling(Slashes(path)) <==> exists i | 0 <= i < |path| :: path[i] != '.' && path[i] != '/' && path[i] != '\\'
  {
    var normalized := Slashes(path);
    if i :| 0 <= i < |path| - 1 && path[i] == '.' && path[i + 1] == '.' {
      assert normalized[i] == '.' && normalized[i + 1] == '.';
    }
    if i :| 0 <= i < |path| && path[i] != '.' && path[i] != '/' && path[i] != '\\' {
      assert Telling(normalized[i]);
    }
  }
}
