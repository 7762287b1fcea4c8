/** Atomic writes: each path has a chain of writes held in a map.  A write waits for the one it
    found in the map, and takes the path out of the map afterwards when no later write has
    joined.  The clean-up of a write is registered before any later write chains on it, so it
    runs before that one begins. */
module AtomicFile {
  import opened Options

  datatype Status = Waiting | Running | Written | Failed

  datatype Write = Write(file: string, contents: string, previous: Option<nat>, status: Status, cleaned: bool)

  datatype Files = Files(writes: seq<Write>, chains: map<string, nat>, disk: map<string, string>)

  const EMPTY := Files([], map[], map[])

  datatype Event = Request(file: string, contents: string) | Begin(write: nat) | Finish(write: nat, ok: bool) | CleanUp(write: nat)

  predicate Settled(w: Write) {
    w.status.Written? || w.status.Failed?
  }

  function RequestStep(s: Files, file: string, contents: string): Files {
    var previous := if file in s.chains then Some(s.chains[file]) else None;
    Files(s.writes + [Write(file, contents, previous, Waiting, false)], s.chains[file := |s.writes|], s.disk)
  }

  predicate MayBegin(s: Files, i: nat) {
    && i < |s.writes|
    && s.writes[i].status.Waiting?
    && match s.writes[i].previous
       case None => true
       case Some(p) => p < |s.writes| && Settled(s.writes[p]) && s.writes[p].cleaned
  }

  function BeginStep(s: Files, i: nat): Files {
    if MayBegin(s, i) then s.(writes := s.writes[i := s.writes[i].(status := Running)]) else s
  }

  /** The replacement of the file, by a rename, happens as a whole or not at all. */
  function FinishStep(s: Files, i: nat, ok: bool): Files {
    if i < |s.writes| && s.writes[i].status.Running? then
      var w := s.writes[i];
      s.(writes := s.writes[i := w.(status := if ok then Written else Failed)],
         disk := if ok then s.disk[w.file := w.contents] else s.disk)
    else s
  }

  function CleanUpStep(s: Files, i: nat): Files {
    if i < |s.writes| && Settled(s.writes[i]) && !s.writes[i].cleaned then
      var w := s.writes[i];
      s.(writes := s.writes[i := w.(cleaned := true)],
         chains := if w.file in s.chains && s.chains[w.file] == i then s.chains - {w.file} else s.chains)
    else s
  }

  function Apply(s: Files, e: Event): Files {
    match e
    case Request(file, contents) => RequestStep(s, file, contents)
    case Begin(i) => BeginStep(s, i)
    case Finish(i, ok) => FinishStep(s, i, ok)
    case CleanUp(i) => CleanUpStep(s, i)
  }

  function After(events: seq<Event>): Files {
    if events == [] then EMPTY else Apply(After(events[..|events| - 1]), events[|events| - 1])
  }

  // ---- The invariant ----

  /** What holds of write `i` and an earlier write `k` to the same file. */
  predicate PairOk(w: Write, k: nat, earlier: Write) {
    earlier.file == w.file ==>
      && (!w.status.Waiting? ==> earlier.cleaned)
      && (w.previous.None? ==> earlier.cleaned)
      && (w.previous.Some? ==> k <= w.previous.value)
  }

  predicate WriteOk(writes: seq<Write>, i: nat)
    requires i < |writes|
  {
    && (writes[i].cleaned ==> Settled(writes[i]))
    && (writes[i].previous.Some? ==> writes[i].previous.value < i && writes[writes[i].previous.value].file == writes[i].file)
    && (forall k: nat | k < i :: PairOk(writes[i], k, writes[k]))
  }

  /** The map names the latest write of a path until that one is cleaned up. */
  ghost predicate ChainOk(s: Files, file: string) {
    if file in s.chains then
      var last := s.chains[file];
      && last < |s.writes|
      && s.writes[last].file == file
      && !s.writes[last].cleaned
      && forall k: nat | last < k < |s.writes| :: s.writes[k].file != file
    else forall k: nat | k < |s.writes| && s.writes[k].file == file :: s.writes[k].cleaned
  }

  /** The contents of the latest successful write among the first `n`. */
  function LastWritten(writes: seq<Write>, file: string, n: nat): Option<string>
    requires n <= |writes|
  {
    if n == 0 then None
    else if writes[n - 1].file == file && writes[n - 1].status.Written? then Some(writes[n - 1].contents)
    else LastWritten(writes, file, n - 1)
  }

  ghost predicate DiskOk(s: Files, file: string) {
    LastWritten(s.writes, file, |s.writes|) == if file in s.disk then Some(s.disk[file]) else None
  }

  ghost predicate Ok(s: Files) {
    && (forall i: nat | i < |s.writes| :: WriteOk(s.writes, i))
    && (forall file :: ChainOk(s, file))
    && (forall file :: DiskOk(s, file))
  }

  lemma {:induction false} LastWrittenAgrees(a: seq<Write>, b: seq<Write>, file: string, n: nat)
    requires n <= |a| && n <= |b|
    requires forall k: nat | k < n :: a[k].file == b[k].file && a[k].contents == b[k].contents && a[k].status.Written? == b[k].status.Written?
    ensures LastWritten(a, file, n) == LastWritten(b, file, n)
  {
    if n > 0 {
      LastWrittenAgrees(a, b, file, n - 1);
    }
  }

  lemma {:induction false} RequestKeepsOk(s: Files, file: string, contents: string)
    requires Ok(s)
    ensures Ok(RequestStep(s, file, contents))
  {
    var after := RequestStep(s, file, contents);
    var n := |s.writes|;
    assert ChainOk(s, file);
    forall i: nat | i < |after.writes| ensures WriteOk(after.writes, i) {
      if i < n {
        assert WriteOk(s.writes, i);
      }
    }
    forall f ensures ChainOk(after, f) {
      assert ChainOk(s, f);
    }
    forall f ensures DiskOk(after, f) {
      assert DiskOk(s, f);
      LastWrittenAgrees(s.writes, after.writes, f, n);
    }
  }

  /** When a write may begin, every earlier write to its file is cleaned up. */
  lemma {:induction false} EarlierAreCleaned(s: Files, i: nat, k: nat)
    requires Ok(s) && MayBegin(s, i) && k < i && s.writes[k].file == s.writes[i].file
    ensures s.writes[k].cleaned
  {
    assert WriteOk(s.writes, i);
    assert PairOk(s.writes[i], k, s.writes[k]);
    if s.writes[i].previous.Some? {
      var p := s.writes[i].previous.value;
      assert WriteOk(s.writes, p);
      if k < p {
        assert PairOk(s.writes[p], k, s.writes[k]);
      }
    }
  }

  lemma {:induction false} BeginKeepsOk(s: Files, i: nat)
    requires Ok(s)
    ensures Ok(BeginStep(s, i))
  {
    if MayBegin(s, i) {
      var after := BeginStep(s, i);
      forall j: nat | j < |after.writes| ensures WriteOk(after.writes, j) {
        assert WriteOk(s.writes, j);
        forall k: nat | k < j ensures PairOk(after.writes[j], k, after.writes[k]) {
          assert PairOk(s.writes[j], k, s.writes[k]);
          if j == i && s.writes[k].file == s.writes[i].file {
            EarlierAreCleaned(s, i, k);
          }
        }
      }
      forall f ensures ChainOk(after, f) && DiskOk(after, f) {
        assert ChainOk(s, f) && DiskOk(s, f);
        LastWrittenAgrees(s.writes, after.writes, f, |s.writes|);
      }
    }
  }

  /** While a write runs, the later writes to its file wait. */
  lemma {:induction false} LaterAreWaiting(s: Files, i: nat, j: nat)
    requires Ok(s) && i < j < |s.writes| && s.writes[i].file == s.writes[j].file && !s.writes[i].cleaned
    ensures s.writes[j].status.Waiting?
  {
    assert WriteOk(s.writes, j);
    assert PairOk(s.writes[j], i, s.writes[i]);
  }

  lemma {:induction false} FinishWriteOk(s: Files, i: nat, ok: bool, j: nat)
    requires Ok(s) && j < |s.writes|
    ensures WriteOk(FinishStep(s, i, ok).writes, j)
  {
    var after := FinishStep(s, i, ok);
    assert WriteOk(s.writes, j);
    forall k: nat | k < j ensures PairOk(after.writes[j], k, after.writes[k]) {
      assert PairOk(s.writes[j], k, s.writes[k]);
    }
  }

  lemma {:induction false} LastIs(writes: seq<Write>, file: string, i: nat, n: nat)
    requires i < n <= |writes| && writes[i].file == file && writes[i].status.Written?
    requires forall k: nat | i < k < n && writes[k].file == file :: writes[k].status.Waiting?
    ensures LastWritten(writes, file, n) == Some(writes[i].contents)
  {
    if i < n - 1 {
      LastIs(writes, file, i, n - 1);
    }
  }

  lemma {:induction false} FinishDiskOk(s: Files, i: nat, ok: bool, f: string)
    requires Ok(s)
    ensures DiskOk(FinishStep(s, i, ok), f)
  {
    var after := FinishStep(s, i, ok);
    assert DiskOk(s, f);
    if after != s {
      assert WriteOk(s.writes, i);
      if ok && f == s.writes[i].file {
        forall k: nat | i < k < |s.writes| && s.writes[k].file == f ensures after.writes[k].status.Waiting? {
          LaterAreWaiting(s, i, k);
        }
        LastIs(after.writes, f, i, |after.writes|);
      } else if ok {
        LastOfOthers(s.writes, after.writes, f, i, |s.writes|);
      } else {
        LastWrittenAgrees(s.writes, after.writes, f, |s.writes|);
      }
    }
  }

  lemma {:induction false} LastOfOthers(a: seq<Write>, b: seq<Write>, file: string, i: nat, n: nat)
    requires |a| == |b| && i < |a| && n <= |a| && a[i].file == b[i].file != file && forall k: nat | k < |a| && k != i :: a[k] == b[k]
    ensures LastWritten(a, file, n) == LastWritten(b, file, n)
  {
    if n > 0 {
      LastOfOthers(a, b, file, i, n - 1);
    }
  }

  lemma {:induction false} FinishKeepsOk(s: Files, i: nat, ok: bool)
    requires Ok(s)
    ensures Ok(FinishStep(s, i, ok))
  {
    var after := FinishStep(s, i, ok);
    forall j: nat | j < |after.writes| ensures WriteOk(after.writes, j) {
      FinishWriteOk(s, i, ok, j);
    }
    forall f ensures ChainOk(after, f) && DiskOk(after, f) {
      assert ChainOk(s, f);
      FinishDiskOk(s, i, ok, f);
    }
  }

  lemma {:induction false} CleanUpWriteOk(s: Files, i: nat, j: nat)
    requires Ok(s) && j < |s.writes|
    ensures WriteOk(CleanUpStep(s, i).writes, j)
  {
    var after := CleanUpStep(s, i);
    assert WriteOk(s.writes, j);
    forall k: nat | k < j ensures PairOk(after.writes[j], k, after.writes[k]) {
      assert PairOk(s.writes[j], k, s.writes[k]);
    }
  }

  lemma {:induction false} CleanUpChainOk(s: Files, i: nat, f: string)
    requires Ok(s)
    ensures ChainOk(CleanUpStep(s, i), f)
  {
    var after := CleanUpStep(s, i);
    assert ChainOk(s, f);
    if after != s && f == s.writes[i].file && f in s.chains && s.chains[f] == i {
      assert WriteOk(s.writes, i);
      forall k: nat | k < |s.writes| && s.writes[k].file == f ensures after.writes[k].cleaned {
        if k < i {
          assert PairOk(s.writes[i], k, s.writes[k]);
        }
      }
    }
  }

  lemma {:induction false} CleanUpKeepsOk(s: Files, i: nat)
    requires Ok(s)
    ensures Ok(CleanUpStep(s, i))
  {
    var after := CleanUpStep(s, i);
    forall j: nat | j < |after.writes| ensures WriteOk(after.writes, j) {
      CleanUpWriteOk(s, i, j);
    }
    forall f ensures ChainOk(after, f) && DiskOk(after, f) {
      CleanUpChainOk(s, i, f);
      assert DiskOk(s, f);
      LastWrittenAgrees(s.writes, after.writes, f, |s.writes|);
    }
  }

  lemma {:induction false} AlwaysOk(events: seq<Event>)
    ensures Ok(After(events))
  {
    if events != [] {
      AlwaysOk(events[..|events| - 1]);
      var s := After(events[..|events| - 1]);
      match events[|events| - 1]
      case Request(file, contents) => RequestKeepsOk(s, file, contents);
      case Begin(i) => BeginKeepsOk(s, i);
      case Finish(i, ok) => FinishKeepsOk(s, i, ok);
      case CleanUp(i) => CleanUpKeepsOk(s, i);
    }
  }

  // ---- What callers rely on ----

  /** The map holds a path exactly while some write to it is outstanding. */
  lemma {:induction false} ChainMapIsExact(events: seq<Event>, file: string)
    ensures var s := After(events);
      file in s.chains <==> exists i: nat :: i < |s.writes| && s.writes[i].file == file && !s.writes[i].cleaned
  {
    AlwaysOk(events);
    assert ChainOk(After(events), file);
  }

  /** Writes to one path run one at a time and in the order of the requests. */
  lemma {:induction false} WritesToOnePathAreSerial(events: seq<Event>, i: nat, j: nat)
    requires i < j < |After(events).writes| && After(events).writes[i].file == After(events).writes[j].file
    ensures After(events).writes[j].status.Waiting? || (Settled(After(events).writes[i]) && After(events).writes[i].cleaned)
  {
    AlwaysOk(events);
    var s := After(events);
    assert WriteOk(s.writes, i);
    if !s.writes[i].cleaned {
      LaterAreWaiting(s, i, j);
    }
  }

  /** A file holds the contents of the latest write to it that succeeded, whatever failed before or after. */
  lemma {:induction false} FileHoldsLastSuccess(events: seq<Event>, file: string)
    ensures var s := After(events);
      LastWritten(s.writes, file, |s.writes|) == if file in s.disk then Some(s.disk[file]) else None
  {
    AlwaysOk(events);
    assert DiskOk(After(events), file);
  }

  /** The first write of a path that is not finished can always go on: no failure blocks the chain. */
  lemma {:induction false} NoWriteIsStuck(events: seq<Event>, i: nat)
    requires i < |After(events).writes| && !Settled(After(events).writes[i])
    requires forall k: nat | k < i && After(events).writes[k].file == After(events).writes[i].file :: After(events).writes[k].cleaned
    ensures MayBegin(After(events), i) || After(events).writes[i].status.Running?
  {
    AlwaysOk(events);
    var s := After(events);
    assert WriteOk(s.writes, i);
    if s.writes[i].previous.Some? {
      assert WriteOk(s.writes, s.writes[i].previous.value);
    }
  }

  /** A write to a path with no outstanding write puts its contents into the file exactly when it works, and leaves the
      path out of the map and every other file alone. */
  lemma {:induction false} WriteReachesFile(events: seq<Event>, file: string, contents: string, ok: bool)
    requires file !in After(events).chains
    ensures var s := After(events);
      var n := |s.writes|;
      Apply(Apply(Apply(Apply(s, Request(file, contents)), Begin(n)), Finish(n, ok)), CleanUp(n))
      == Files(s.writes + [Write(file, contents, None, if ok then Written else Failed, true)], s.chains,
               if ok then s.disk[file := contents] else s.disk)
  {
    var s := After(events);
    var n := |s.writes|;
    assert s.chains[file := n] - {file} == s.chains;
  }

  /** The write before a request is the latest one of its path that is not cleaned up. */
  ghost predicate IsLatest(s: Files, file: string, last: Option<nat>) {
    if last.Some? then
      && last.value < |s.writes| && s.writes[last.value].file == file && !s.writes[last.value].cleaned
      && forall k: nat | last.value < k < |s.writes| :: s.writes[k].file != file
    else forall k: nat | k < |s.writes| && s.writes[k].file == file :: s.writes[k].cleaned
  }

  /** The module's map of write chains, as it is set and deleted in place. */
  class WriteChains {
    var writes: seq<Write>
    var chains: map<string, nat>
    var disk: map<string, string>

    function State(): Files
      reads this
    {
      Files(writes, chains, disk)
    }

    /** The map names the outstanding writes, and every file holds its latest success. */
    ghost predicate Valid()
      reads this
    {
      Ok(State())
    }

    constructor ()
      ensures Valid() && State() == EMPTY
    {
      writes, chains, disk := [], map[], map[];
    }

    /** Joins the chain of a path: the new write waits for the latest outstanding write to its path, and
        the map names it from now on.  No other path, write or file is touched. */
    method AtomicWriteFile(file: string, contents: string) returns (next: nat)
      requires Valid()
      modifies this
      ensures Valid()
      ensures State() == RequestStep(old(State()), file, contents)
      ensures next == |old(writes)| && writes[..next] == old(writes) && disk == old(disk)
      ensures IsLatest(old(State()), file, writes[next].previous)
      ensures IsLatest(State(), file, Some(next))
      ensures forall f :: f != file ==> (f in chains <==> f in old(chains)) && (f in chains ==> chains[f] == old(chains)[f])
    {
      RequestKeepsOk(State(), file, contents);
      assert ChainOk(State(), file);
      var previous := if file in chains then Some(chains[file]) else None;
      next := |writes|;
      writes := writes + [Write(file, contents, previous, Waiting, false)];
      chains := chains[file := next];
    }

    /** The clean-up after a write: its path leaves the map exactly when no later write has joined.  No
        file and no other write is touched. */
    method Finally(next: nat)
      requires Valid()
      modifies this
      ensures Valid()
      ensures State() == CleanUpStep(old(State()), next)
      ensures disk == old(disk) && |writes| == |old(writes)|
      ensures forall k: nat | k < |writes| && k != next :: writes[k] == old(writes)[k]
      ensures next < |writes| && Settled(writes[next]) ==> writes[next].cleaned
      ensures next < |writes| && writes[next].cleaned ==>
        (writes[next].file !in chains <==> forall k: nat | k < |writes| && writes[k].file == writes[next].file :: writes[k].cleaned)
    {
      CleanUpKeepsOk(State(), next);
      if next < |writes| && Settled(writes[next]) && !writes[next].cleaned {
        var file := writes[next].file;
        writes := writes[next := writes[next].(cleaned := true)];
        if file in chains && chains[file] == next {
          chains := chains - {file};
        }
      }
      assert next < |writes| ==> ChainOk(State(), writes[next].file);
    }
  }
}
