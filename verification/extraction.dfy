/** The extraction as a sequence of file operations, each of which may fail: unpack into a
    staging directory, move the old destination aside, move the staging directory in, and
    move the old one back when that does not work. */
module Extraction {
  import opened Options
  import opened ZipBytes
  import opened ZipWriter
  import opened ZipReader
  import opened ArchivePaths
  import opened ExtractionPlan

  datatype Place = Destination | Staging | Previous

  type Trees = map<Place, Tree>

  /** How one file operation ends; a failed removal leaves the named files behind, and a failed
      write leaves some other bytes. */
  datatype Fault = Works | Fails(left: set<File>, part: Bytes)

  /** A rename needs its source, and a target that is free or an empty directory. */
  predicate CanRename(trees: Trees, from: Place, to: Place) {
    from in trees && (to !in trees || trees[to] == map[])
  }

  function Renamed(trees: Trees, from: Place, to: Place): Trees
    requires from in trees
  {
    (trees - {from})[to := trees[from]]
  }

  /** Every file operation from one moment on works. */
  ghost predicate AllWork(faults: nat -> Fault, clock: nat) {
    forall k: nat | k >= clock :: faults(k).Works?
  }

  class Disk {
    var trees: Trees
    var clock: nat
    const faults: nat -> Fault

    constructor (faults: nat -> Fault, trees: Trees)
      ensures this.faults == faults && this.trees == trees && clock == 0
    {
      this.faults, this.trees, clock := faults, trees, 0;
    }

    /** An operation without effect on the trees. */
    method Touch() returns (ok: bool)
      modifies this`clock
      ensures clock == old(clock) + 1 && ok == faults(old(clock)).Works?
    {
      ok := faults(clock).Works?;
      clock := clock + 1;
    }

    method MakeStaging() returns (ok: bool)
      modifies this
      ensures clock == old(clock) + 1 && ok == faults(old(clock)).Works?
      ensures trees == if ok then old(trees)[Staging := map[]] else old(trees)
    {
      ok := Touch();
      if ok {
        trees := trees[Staging := map[]];
      }
    }

    method Write(file: File, data: Bytes) returns (ok: bool)
      requires Staging in trees
      modifies this
      ensures clock == old(clock) + 1 && ok == faults(old(clock)).Works?
      ensures Staging in trees && trees - {Staging} == old(trees) - {Staging}
      ensures ok ==> trees[Staging] == old(trees[Staging])[file := data]
    {
      var fault := faults(clock);
      ok := Touch();
      trees := trees[Staging := trees[Staging][file := if ok then data else fault.part]];
    }

    /** Whether a place exists, as far as a look that may fail can tell. */
    method Exists(place: Place) returns (yes: bool)
      modifies this`clock
      ensures clock == old(clock) + 1 && yes == (place in trees && faults(old(clock)).Works?)
    {
      var ok := Touch();
      yes := ok && place in trees;
    }

    method Rename(from: Place, to: Place) returns (ok: bool)
      requires from != to
      modifies this
      ensures clock == old(clock) + 1
      ensures ok == (CanRename(old(trees), from, to) && faults(old(clock)).Works?)
      ensures trees == if ok then Renamed(old(trees), from, to) else old(trees)
    {
      ok := Touch();
      ok := ok && CanRename(trees, from, to);
      if ok {
        trees := Renamed(trees, from, to);
      }
    }

    /** Removal of a whole tree; removing what is absent succeeds. */
    method Remove(place: Place) returns (ok: bool)
      modifies this
      ensures clock == old(clock) + 1 && ok == faults(old(clock)).Works?
      ensures trees - {place} == old(trees) - {place}
      ensures ok ==> trees == old(trees) - {place}
      ensures place in trees ==> place in old(trees)
    {
      var fault := faults(clock);
      ok := Touch();
      if ok {
        trees := trees - {place};
      } else if place in trees {
        trees := trees[place := map f | f in trees[place] && f in fault.left :: trees[place][f]];
      }
    }
  }

  datatype Outcome =
    | Extracted(files: seq<string>)
    | Failed(error: ExtractError, restoreFailed: bool)

  /** The destination in a set of trees. */
  function DestinationOf(trees: Trees): Option<Tree> {
    if Destination in trees then Some(trees[Destination]) else None
  }

  /** Unpacks every entry into the staging directory. */
  method StageEntries(u: Unpacking, rs: seq<Record>, disk: Disk) returns (r: Result<Content, ExtractError>)
    requires Staging in disk.trees && disk.trees[Staging] == map[]
    modifies disk
    ensures disk.trees - {Staging} == old(disk.trees) - {Staging} && Staging in disk.trees
    ensures r.Success? ==> r == ContentOf(u, rs, |rs|) && disk.trees[Staging] == r.value.tree
    ensures r.Failure? ==> r.error == FileOperation || r == ContentOf(u, rs, |rs|)
    ensures disk.clock >= old(disk.clock)
    ensures AllWork(disk.faults, old(disk.clock)) ==> r == ContentOf(u, rs, |rs|)
  {
    var content := Content(map[], []);
    for i := 0 to |rs|
      invariant disk.trees - {Staging} == old(disk.trees) - {Staging} && Staging in disk.trees
      invariant ContentOf(u, rs, i) == Success(content) && disk.trees[Staging] == content.tree
      invariant disk.clock >= old(disk.clock)
    {
      var unpacked := u.unpack(rs[i]);
      if unpacked.Failure? {
        ErrorIsFirst(u, rs, i + 1, |rs|);
        return Failure(unpacked.error);
      }
      if !u.retired(rs[i].path) {
        var made := disk.Touch();
        if !made {
          return Failure(FileOperation);
        }
        var written := disk.Write(u.target(rs[i].path), unpacked.value);
        if !written {
          return Failure(FileOperation);
        }
      }
      content := Put(u, content, rs[i].path, unpacked.value);
    }
    r := Success(content);
  }

  /** The three states a swap can be left in. */
  ghost predicate Untouched(before: Trees, after: Trees) {
    after == before
  }

  ghost predicate MovedAside(before: Trees, after: Trees) {
    Destination in before && after == Renamed(before, Destination, Previous)
  }

  ghost predicate Swapped(before: Trees, after: Trees) {
    Staging in before && Destination in after && after[Destination] == before[Staging]
  }

  /** Moves the staged tree to the destination; `aside` says that the name for the old tree was chosen. */
  method Activate(disk: Disk) returns (ok: bool, aside: bool)
    requires Staging in disk.trees && Previous !in disk.trees
    modifies disk
    ensures ok ==> disk.trees == (old(disk.trees) - {Staging})[Destination := old(disk.trees[Staging])]
    ensures disk.clock >= old(disk.clock) && (AllWork(disk.faults, old(disk.clock)) ==> ok)
    ensures !ok && !aside ==> Untouched(old(disk.trees), disk.trees)
    ensures !ok && aside ==>
      || (Untouched(old(disk.trees), disk.trees) && Destination in disk.trees)
      || MovedAside(old(disk.trees), disk.trees)
      || Swapped(old(disk.trees), disk.trees)
  {
    aside := false;
    ok := disk.Touch();
    if !ok {
      return;
    }
    aside := disk.Exists(Destination);
    if aside {
      ok := disk.Rename(Destination, Previous);
      if !ok {
        return;
      }
    }
    ok := disk.Rename(Staging, Destination);
    if !ok {
      return;
    }
    if aside {
      ghost var swapped := disk.trees;
      assert swapped - {Previous} == (old(disk.trees) - {Staging})[Destination := old(disk.trees[Staging])];
      ok := disk.Remove(Previous);
      KeepsOthers(swapped, disk.trees, Previous, Destination);
    }
  }

  /** Cleans up after a failure and moves the old tree back when nothing stands in its place. */
  method Recover(disk: Disk, aside: bool) returns (restoreFailed: bool)
    modifies disk
    ensures Destination in old(disk.trees) && (old(disk.trees)[Destination] != map[] || Previous !in old(disk.trees) || !aside)
        ==> DestinationOf(disk.trees) == DestinationOf(old(disk.trees))
    ensures Destination !in old(disk.trees) && !aside ==> Destination !in disk.trees
    ensures Destination !in old(disk.trees) && aside && Previous in old(disk.trees) ==>
      if restoreFailed then Destination !in disk.trees && Previous in disk.trees && disk.trees[Previous] == old(disk.trees)[Previous]
      else DestinationOf(disk.trees) == Some(old(disk.trees)[Previous])
    ensures !aside ==> !restoreFailed
    ensures !aside && disk.faults(old(disk.clock)).Works? ==> disk.trees == old(disk.trees) - {Staging}
  {
    restoreFailed := false;
    var removed := disk.Remove(Staging);
    KeepsOthers(old(disk.trees), disk.trees, Staging, Destination);
    KeepsOthers(old(disk.trees), disk.trees, Staging, Previous);
    if aside {
      var exists_ := disk.Exists(Destination);
      if !exists_ {
        var ok := disk.Rename(Previous, Destination);
        restoreFailed := !ok;
      }
    }
  }

  lemma {:induction false} KeepsOthers(before: Trees, after: Trees, changed: Place, place: Place)
    requires after - {changed} == before - {changed} && place != changed
    ensures place in after <==> place in before
    ensures place in after ==> after[place] == before[place]
  {
    assert place in after <==> place in after - {changed};
    assert place in before <==> place in before - {changed};
    if place in after {
      assert (after - {changed})[place] == after[place] && (before - {changed})[place] == before[place];
    }
  }

  /** The complete old tree, the complete new one, or the old one still aside after a failed move back. */
  ghost predicate OldOrNew(before: Trees, unpacked: Tree, after: Trees, restoreFailed: bool) {
    || DestinationOf(after) == DestinationOf(before)
    || DestinationOf(after) == Some(unpacked)
    || (&& restoreFailed && Destination in before && Destination !in after
        && Previous in after && after[Previous] == before[Destination])
  }

  /** Activation, with the clean-up of the handler when it fails. */
  method SwapIn(disk: Disk) returns (ok: bool, restoreFailed: bool)
    requires Staging in disk.trees && disk.trees[Staging] != map[] && Previous !in disk.trees
    modifies disk
    ensures ok ==> disk.trees == (old(disk.trees) - {Staging})[Destination := old(disk.trees[Staging])]
    ensures AllWork(disk.faults, old(disk.clock)) ==> ok
    ensures !ok ==> OldOrNew(old(disk.trees), old(disk.trees[Staging]), disk.trees, restoreFailed)
  {
    var aside;
    ok, aside := Activate(disk);
    restoreFailed := false;
    if !ok {
      restoreFailed := Recover(disk, aside);
    }
  }

  /** What a failed extraction may leave. */
  ghost predicate FailureLeaves(host: Host, parsed: Result<seq<Record>, ZipError>, before: Trees, after: Trees, restoreFailed: bool) {
    || DestinationOf(after) == DestinationOf(before)
    || (&& parsed.Success? && Plan(host, parsed.value).Success?
        && OldOrNew(before, Plan(host, parsed.value).value.tree, after, restoreFailed))
  }

  /** The whole extraction.  Whatever fails, the destination holds its complete old tree or the
      complete new one, unless the move back itself failed: then the old tree is still aside.  When
      every file operation works, the extraction succeeds exactly when its plan does, and otherwise
      leaves everything as it was. */
  method Extract(host: Host, b: Bytes, disk: Disk) returns (r: Outcome, ghost parsed: Result<seq<Record>, ZipError>)
    requires Staging !in disk.trees && Previous !in disk.trees
    modifies disk
    ensures Reads(host.codec, b, parsed)
    ensures r.Extracted? ==>
      && parsed.Success?
      && Plan(host, parsed.value).Success?
      && r.files == Plan(host, parsed.value).value.files
      && disk.trees == old(disk.trees)[Destination := Plan(host, parsed.value).value.tree]
    ensures r.Failed? ==> FailureLeaves(host, parsed, old(disk.trees), disk.trees, r.restoreFailed)
    ensures r.Failed? && parsed.Success? ==> r.error == FileOperation || Plan(host, parsed.value) == Failure(r.error)
    ensures parsed.Failure? ==> r == Failed(Zip(parsed.error), false) && disk.trees == old(disk.trees)
    ensures parsed.Success? && AllWork(disk.faults, old(disk.clock)) ==>
      if Plan(host, parsed.value).Success? then r.Extracted?
      else r == Failed(Plan(host, parsed.value).error, false) && disk.trees == old(disk.trees)
  {
    var records := ParseRecords(host.codec, b);
    parsed := records;
    if records.Failure? {
      return Failed(Zip(records.error), false), parsed;
    }
    r := ExtractRecords(host, records.value, disk);
  }

  method ExtractRecords(host: Host, rs: seq<Record>, disk: Disk) returns (r: Outcome)
    requires Staging !in disk.trees && Previous !in disk.trees
    modifies disk
    ensures r.Extracted? ==>
      && Plan(host, rs).Success?
      && r.files == Plan(host, rs).value.files
      && disk.trees == old(disk.trees)[Destination := Plan(host, rs).value.tree]
    ensures r.Failed? ==> FailureLeaves(host, Success(rs), old(disk.trees), disk.trees, r.restoreFailed)
    ensures r.Failed? ==> r.error == FileOperation || Plan(host, rs) == Failure(r.error)
    ensures AllWork(disk.faults, old(disk.clock)) ==>
      if Plan(host, rs).Success? then r.Extracted? else r == Failed(Plan(host, rs).error, false) && disk.trees == old(disk.trees)
  {
    var accepted := Accept(host, rs);
    if accepted.Failure? {
      return Failed(accepted.error, false);
    }
    if Plan(host, rs).Success? {
      PlanIsNotEmpty(host, rs);
    }
    r := ExtractAccepted(UnpackingOf(host, accepted.value), rs, disk);
  }

  /** What a failure of the extraction of accepted records may leave. */
  ghost predicate ContentLeaves(content: Result<Content, ExtractError>, before: Trees, after: Trees, restoreFailed: bool) {
    || DestinationOf(after) == DestinationOf(before)
    || (content.Success? && OldOrNew(before, content.value.tree, after, restoreFailed))
  }

  /** From the staging directory to the swap. */
  method ExtractAccepted(u: Unpacking, rs: seq<Record>, disk: Disk) returns (r: Outcome)
    requires Staging !in disk.trees && Previous !in disk.trees
    requires ContentOf(u, rs, |rs|).Success? ==> ContentOf(u, rs, |rs|).value.tree != map[]
    modifies disk
    ensures r.Extracted? ==>
      && ContentOf(u, rs, |rs|).Success?
      && r.files == ContentOf(u, rs, |rs|).value.files
      && disk.trees == old(disk.trees)[Destination := ContentOf(u, rs, |rs|).value.tree]
    ensures r.Failed? ==> ContentLeaves(ContentOf(u, rs, |rs|), old(disk.trees), disk.trees, r.restoreFailed)
    ensures r.Failed? ==> r.error == FileOperation || ContentOf(u, rs, |rs|) == Failure(r.error)
    ensures AllWork(disk.faults, old(disk.clock)) ==>
      if ContentOf(u, rs, |rs|).Success? then r.Extracted?
      else r == Failed(ContentOf(u, rs, |rs|).error, false) && disk.trees == old(disk.trees)
  {
    var made := disk.MakeStaging();
    if !made {
      return Failed(FileOperation, false);
    }
    var staged := StageEntries(u, rs, disk);
    assert disk.trees - {Staging} == old(disk.trees);
    KeepsOthers(old(disk.trees), disk.trees, Staging, Destination);
    KeepsOthers(old(disk.trees), disk.trees, Staging, Previous);
    if staged.Failure? {
      var lost := Recover(disk, false);
      return Failed(staged.error, lost);
    }
    var ok, lost := SwapIn(disk);
    r := if ok then Extracted(staged.value.files) else Failed(FileOperation, lost);
  }
}
