/** What an archive promises to unpack: the manifest's checks, the checks of each entry, and
    the tree of files the accepted entries make. */
module ExtractionPlan {
  import opened Options
  import opened Letters
  import opened ZipBytes
  import opened ZipWriter
  import opened ZipReader
  import opened ArchivePaths

  /** A recorded checksum; a size that is not an integer is absent. */
  datatype Checksum = Checksum(sha256: string, sizeBytes: Option<int>)

  /** A parsed manifest; a checksum that is not an object is absent. */
  datatype Manifest = Manifest(
    product: string, formatVersion: int, hasSections: bool, checksums: Option<map<string, Option<Checksum>>>,
    includedFileCount: Option<int>, vastDataIncluded: bool)

  /** The library calls of the extraction besides the codec. */
  datatype Host = Host(codec: Codec, parse: Bytes -> Option<Manifest>, digest: Bytes -> string, isObject: Bytes -> bool)

  datatype ExtractError =
    | Zip(error: ZipError) | ManifestMissing | ManifestUnreadable | ManifestInvalid | UnsafeEntry | UnexpectedFile
    | MissingFile | ChecksumSize | ChecksumDigest | InvalidVastData | FileOperation

  const MANIFEST := "manifest.json"
  const README := "README.md"
  const VAST_DATA := "data/vast-data.json"

  // ---- The manifest ----

  predicate IsDigest(s: string) {
    |s| == 64 && forall i | 0 <= i < 64 :: '0' <= s[i] <= '9' || 'a' <= LowerChar(s[i]) <= 'f'
  }

  predicate IsDataPath(path: string) {
    "data/" < path
  }

  predicate ChecksumOk(path: string, c: Option<Checksum>) {
    && IsDataPath(path)
    && c.Some?
    && IsDigest(c.value.sha256)
    && c.value.sizeBytes.Some?
    && 0 <= c.value.sizeBytes.value <= MAX_ENTRY
  }

  predicate ValidManifest(m: Manifest) {
    && m.product == "Vast"
    && m.formatVersion == 1
    && m.hasSections
    && m.checksums.Some?
    && m.includedFileCount == Some(|m.checksums.value|)
    && m.vastDataIncluded
    && VAST_DATA in m.checksums.value
    && forall path | path in m.checksums.value :: ChecksumOk(path, m.checksums.value[path])
  }

  type Checksums = map<string, Checksum>

  /** The checksums of a valid manifest. */
  function ChecksumsOf(m: Manifest): Checksums
    requires ValidManifest(m)
  {
    map path | path in m.checksums.value :: m.checksums.value[path].value
  }

  // ---- The checks before anything is written ----

  predicate Permitted(sums: Checksums, path: string) {
    path == MANIFEST || path == README || path in sums
  }

  /** The first entry, if any, with an unsafe or unexpected name. */
  function CheckNames(sums: Checksums, rs: seq<Record>): Option<ExtractError> {
    if rs == [] then None
    else if !Safe(rs[0].path) then Some(UnsafeEntry)
    else if !Permitted(sums, rs[0].path) then Some(UnexpectedFile)
    else CheckNames(sums, rs[1..])
  }

  function FindRecord(rs: seq<Record>, path: string): Option<Record> {
    if rs == [] then None else if rs[0].path == path then Some(rs[0]) else FindRecord(rs[1..], path)
  }

  function ReadManifest(host: Host, rs: seq<Record>): Result<Manifest, ExtractError> {
    match FindRecord(rs, MANIFEST)
    case None => Failure(ManifestMissing)
    case Some(r) =>
      match Inflate(host.codec, r)
      case Failure(error) => Failure(Zip(error))
      case Success(data) =>
        match host.parse(data)
        case None => Failure(ManifestUnreadable)
        case Some(m) => if ValidManifest(m) then Success(m) else Failure(ManifestInvalid)
  }

  function Accept(host: Host, rs: seq<Record>): Result<Checksums, ExtractError> {
    match ReadManifest(host, rs)
    case Failure(error) => Failure(error)
    case Success(m) =>
      if !ValidManifest(m) then Failure(ManifestInvalid)
      else
        match CheckNames(ChecksumsOf(m), rs)
        case Some(error) => Failure(error)
        case None =>
          if exists path | path in ChecksumsOf(m) :: FindRecord(rs, path).None? then Failure(MissingFile)
          else Success(ChecksumsOf(m))
  }

  // ---- The checks of one entry ----

  predicate Matches(host: Host, sum: Checksum, data: Bytes) {
    Some(|data|) == sum.sizeBytes && Lower(host.digest(data)) == Lower(sum.sha256)
  }

  function Unpack(host: Host, sums: Checksums, r: Record): Result<Bytes, ExtractError> {
    match Inflate(host.codec, r)
    case Failure(error) => Failure(Zip(error))
    case Success(data) =>
      if r.path in sums && Some(|data|) != sums[r.path].sizeBytes then Failure(ChecksumSize)
      else if r.path in sums && Lower(host.digest(data)) != Lower(sums[r.path].sha256) then Failure(ChecksumDigest)
      else if r.path == VAST_DATA && !host.isObject(data) then Failure(InvalidVastData)
      else Success(data)
  }

  /** Files of products that no longer exist are checked but not written. */
  predicate Retired(path: string) {
    Lower(path) in {
      "license-cache.json", "license-device.json", "password-vault.json",
      "data/license-cache.json", "data/license-device.json", "data/password-vault.json"}
  }

  // ---- The tree ----

  type File = seq<string>

  type Tree = map<File, Bytes>

  /** What the entries so far unpack to: the tree, and the names in the order written. */
  datatype Content = Content(tree: Tree, files: seq<string>)

  /** How one entry is unpacked, which entries are only checked, and the file an entry stands for. */
  datatype Unpacking = Unpacking(unpack: Record -> Result<Bytes, ExtractError>, retired: string -> bool, target: string -> File)

  function UnpackingOf(host: Host, sums: Checksums): Unpacking {
    Unpacking((r: Record) => Unpack(host, sums, r), Retired, Target)
  }

  function Put(u: Unpacking, c: Content, path: string, data: Bytes): Content {
    if u.retired(path) then c else Content(c.tree[u.target(path) := data], c.files + [path])
  }

  /** The content of the first `i` entries. */
  function ContentOf(u: Unpacking, rs: seq<Record>, i: nat): Result<Content, ExtractError>
    requires i <= |rs|
  {
    if i == 0 then Success(Content(map[], []))
    else
      match ContentOf(u, rs, i - 1)
      case Failure(error) => Failure(error)
      case Success(c) =>
        match u.unpack(rs[i - 1])
        case Failure(error) => Failure(error)
        case Success(data) => Success(Put(u, c, rs[i - 1].path, data))
  }

  /** The first entry that does not unpack decides. */
  lemma {:induction false} ErrorIsFirst(u: Unpacking, rs: seq<Record>, i: nat, n: nat)
    requires i <= n <= |rs| && ContentOf(u, rs, i).Failure?
    ensures ContentOf(u, rs, n) == ContentOf(u, rs, i)
    decreases n
  {
    if i < n {
      ErrorIsFirst(u, rs, i, n - 1);
    }
  }

  /** What extracting the records makes, when no file operation fails. */
  function Plan(host: Host, rs: seq<Record>): Result<Content, ExtractError> {
    match Accept(host, rs)
    case Failure(error) => Failure(error)
    case Success(sums) => ContentOf(UnpackingOf(host, sums), rs, |rs|)
  }

  // ---- What an accepted archive unpacks to ----

  lemma {:induction false} FoundIsThere(rs: seq<Record>, path: string)
    ensures FindRecord(rs, path).Some? <==> exists r | r in rs :: r.path == path
  {
    if rs != [] {
      FoundIsThere(rs[1..], path);
      assert rs == [rs[0]] + rs[1..];
    }
  }

  /** A name that the extraction accepts. */
  function Allowed(sums: Checksums): string -> bool {
    (path: string) => Safe(path) && Permitted(sums, path)
  }

  lemma {:induction false} FirstNameChecked(sums: Checksums, rs: seq<Record>)
    requires rs != []
    ensures CheckNames(sums, rs).None? <==> Allowed(sums)(rs[0].path) && CheckNames(sums, rs[1..]).None?
  {
    assert Allowed(sums)(rs[0].path) == (Safe(rs[0].path) && Permitted(sums, rs[0].path));
  }

  predicate AllAllowed(allowed: string -> bool, rs: seq<Record>) {
    forall r | r in rs :: allowed(r.path)
  }

  lemma {:induction false} AllAllowedStep(allowed: string -> bool, rs: seq<Record>)
    requires rs != []
    ensures AllAllowed(allowed, rs) <==> allowed(rs[0].path) && AllAllowed(allowed, rs[1..])
  {
    assert rs == [rs[0]] + rs[1..];
  }

  /** The name checks pass exactly when every name is safe and expected. */
  lemma {:induction false} NamesCheckedIff(sums: Checksums, rs: seq<Record>)
    ensures CheckNames(sums, rs).None? <==> AllAllowed(Allowed(sums), rs)
  {
    if rs != [] {
      NamesCheckedIff(sums, rs[1..]);
      FirstNameChecked(sums, rs);
      AllAllowedStep(Allowed(sums), rs);
    }
  }

  lemma {:induction false} NamesChecked(sums: Checksums, rs: seq<Record>)
    requires CheckNames(sums, rs).None?
    ensures forall r | r in rs :: Safe(r.path) && Permitted(sums, r.path)
  {
    NamesCheckedIff(sums, rs);
    forall r | r in rs ensures Safe(r.path) && Permitted(sums, r.path) {
      assert Allowed(sums)(r.path);
    }
  }

  /** What the checks before the first write establish. */
  lemma {:induction false} AcceptedArchive(host: Host, rs: seq<Record>)
    requires Accept(host, rs).Success?
    ensures var sums := Accept(host, rs).value;
      && (forall r | r in rs :: Safe(r.path) && Permitted(sums, r.path))
      && (forall path | path in sums :: IsDataPath(path) && exists r | r in rs :: r.path == path)
      && VAST_DATA in sums
      && (exists r | r in rs :: r.path == MANIFEST)
  {
    var m := ReadManifest(host, rs).value;
    NamesChecked(ChecksumsOf(m), rs);
    FoundIsThere(rs, MANIFEST);
    forall path | path in ChecksumsOf(m) ensures IsDataPath(path) && exists r | r in rs :: r.path == path {
      assert ChecksumOk(path, m.checksums.value[path]);
      FoundIsThere(rs, path);
    }
  }

  /** The names of the entries besides the manifest and the readme. */
  function DataNames(rs: seq<Record>): set<string> {
    set r | r in rs && r.path != MANIFEST && r.path != README :: r.path
  }

  lemma {:induction false} NamesAreKeys(sums: Checksums, rs: seq<Record>)
    requires forall r | r in rs :: Permitted(sums, r.path)
    requires forall path | path in sums :: path != MANIFEST && path != README && exists r | r in rs :: r.path == path
    ensures DataNames(rs) == sums.Keys
  {
  }

  lemma {:induction false} DataIsNoOther(path: string)
    requires IsDataPath(path)
    ensures path != MANIFEST && path != README
  {
    assert path[0] == 'd';
  }

  /** The file count of an accepted manifest is the number of the archive's data entries. */
  lemma {:induction false} CountedEntries(host: Host, rs: seq<Record>)
    requires Accept(host, rs).Success?
    ensures ReadManifest(host, rs).Success? && ReadManifest(host, rs).value.includedFileCount == Some(|DataNames(rs)|)
  {
    AcceptedArchive(host, rs);
    var m := ReadManifest(host, rs).value;
    forall path | path in ChecksumsOf(m) ensures path != MANIFEST && path != README {
      DataIsNoOther(path);
    }
    NamesAreKeys(ChecksumsOf(m), rs);
    assert ChecksumsOf(m).Keys == m.checksums.value.Keys;
  }

  /** A name is among the files written exactly when a kept entry has it. */
  lemma {:induction false} ContentFiles(u: Unpacking, rs: seq<Record>, i: nat, f: string)
    requires i <= |rs| && ContentOf(u, rs, i).Success?
    ensures f in ContentOf(u, rs, i).value.files <==> !u.retired(f) && exists j | 0 <= j < i :: rs[j].path == f
  {
    if i > 0 {
      ContentFiles(u, rs, i - 1, f);
      PutFiles(u, ContentOf(u, rs, i - 1).value, rs[i - 1].path, u.unpack(rs[i - 1]).value, f);
    }
  }

  lemma {:induction false} PutFiles(u: Unpacking, c: Content, path: string, data: Bytes, f: string)
    ensures f in Put(u, c, path, data).files <==> f in c.files || (f == path && !u.retired(f))
  {
  }

  /** The data files extracted are exactly the manifest's checksum keys minus the retired files. */
  lemma {:induction false} DataFilesAreTheManifests(host: Host, rs: seq<Record>, f: string)
    requires Plan(host, rs).Success?
    ensures IsDataPath(f) ==> (f in Plan(host, rs).value.files <==> f in Accept(host, rs).value && !Retired(f))
    ensures !IsDataPath(f) ==> (f in Plan(host, rs).value.files ==> f == MANIFEST || f == README)
  {
    var sums := Accept(host, rs).value;
    AcceptedArchive(host, rs);
    var u := UnpackingOf(host, sums);
    ContentFiles(u, rs, |rs|, f);
    FilesOfAccepted(sums, rs, ContentOf(u, rs, |rs|).value.files, f);
  }

  lemma {:induction false} FilesOfAccepted(sums: Checksums, rs: seq<Record>, files: seq<string>, f: string)
    requires forall r | r in rs :: Permitted(sums, r.path)
    requires forall path | path in sums :: IsDataPath(path) && exists r | r in rs :: r.path == path
    requires f in files <==> !Retired(f) && exists j | 0 <= j < |rs| :: rs[j].path == f
    ensures IsDataPath(f) ==> (f in files <==> f in sums && !Retired(f))
    ensures !IsDataPath(f) ==> (f in files ==> f == MANIFEST || f == README)
  {
    if f in sums {
      var r :| r in rs && r.path == f;
    } else if f in files {
      var j :| 0 <= j < |rs| && rs[j].path == f;
      assert rs[j] in rs;
      assert MANIFEST[0] == 'm' && README[0] == 'R';
    }
  }

  // ---- The files and the checksums recorded for them ----

  /** Entry `j` is kept, names file `t` and unpacks to `data`. */
  ghost predicate Wrote(u: Unpacking, rs: seq<Record>, j: nat, t: File, data: Bytes)
    requires j < |rs|
  {
    !u.retired(rs[j].path) && u.target(rs[j].path) == t && u.unpack(rs[j]) == Success(data)
  }

  /** Every file was written by an entry, and every kept entry's file is there. */
  lemma {:induction false} TreeComesFromEntries(u: Unpacking, rs: seq<Record>, i: nat)
    requires i <= |rs| && ContentOf(u, rs, i).Success?
    ensures var tree := ContentOf(u, rs, i).value.tree;
      && (forall t | t in tree :: exists j: nat | j < i :: Wrote(u, rs, j, t, tree[t]))
      && (forall j: nat | j < i && !u.retired(rs[j].path) :: u.target(rs[j].path) in tree)
  {
    if i > 0 {
      TreeComesFromEntries(u, rs, i - 1);
      var before := ContentOf(u, rs, i - 1).value.tree;
      var after := ContentOf(u, rs, i).value.tree;
      var r := rs[i - 1];
      forall t | t in after ensures exists j: nat | j < i :: Wrote(u, rs, j, t, after[t]) {
        if !u.retired(r.path) && t == u.target(r.path) {
          assert Wrote(u, rs, i - 1, t, after[t]);
        } else {
          var j: nat :| j < i - 1 && Wrote(u, rs, j, t, before[t]);
          assert Wrote(u, rs, j, t, after[t]);
        }
      }
    }
  }

  predicate SameChecksum(a: Checksum, b: Checksum) {
    a.sizeBytes == b.sizeBytes && Lower(a.sha256) == Lower(b.sha256)
  }

  /** Kept names that stand for one file record one checksum. */
  ghost predicate NoConflict(sums: Checksums, u: Unpacking) {
    forall k, l | k in sums && l in sums && !u.retired(k) && !u.retired(l) && u.target(k) == u.target(l) :: SameChecksum(sums[k], sums[l])
  }

  /** Every kept file is there and has its recorded size and digest. */
  ghost predicate AllMatch(host: Host, sums: Checksums, u: Unpacking, tree: Tree) {
    forall k | k in sums && !u.retired(k) :: u.target(k) in tree && Matches(host, sums[k], tree[u.target(k)])
  }

  /** What is unpacked under a checksum key matches its checksum. */
  ghost predicate Checks(host: Host, sums: Checksums, u: Unpacking) {
    forall r: Record | r.path in sums && u.unpack(r).Success? :: Matches(host, sums[r.path], u.unpack(r).value)
  }

  /** Every key has an entry, and an entry without a key stands for another file than any key. */
  ghost predicate Covers(sums: Checksums, u: Unpacking, rs: seq<Record>) {
    && (forall path | path in sums :: exists r | r in rs :: r.path == path)
    && (forall r, k | r in rs && r.path !in sums && k in sums :: u.target(r.path) != u.target(k))
  }

  lemma {:induction false} OtherFilesAreApart(path: string, k: string)
    requires IsDataPath(k) && (path == MANIFEST || path == README)
    ensures Target(path) != Target(k)
  {
    TargetBelow("data", k);
    PlainTarget(path);
  }

  /** The file a checksum key names was written from an entry with a checksum that matches. */
  lemma {:induction false} FileOfKey(host: Host, sums: Checksums, u: Unpacking, rs: seq<Record>, k: string)
    returns (l: string)
    requires Checks(host, sums, u) && Covers(sums, u, rs)
    requires ContentOf(u, rs, |rs|).Success? && k in sums && !u.retired(k)
    ensures var tree := ContentOf(u, rs, |rs|).value.tree;
      && u.target(k) in tree
      && l in sums && !u.retired(l) && u.target(l) == u.target(k) && Matches(host, sums[l], tree[u.target(k)])
  {
    TreeComesFromEntries(u, rs, |rs|);
    var tree := ContentOf(u, rs, |rs|).value.tree;
    var r :| r in rs && r.path == k;
    var n: nat :| n < |rs| && rs[n] == r;
    assert u.target(rs[n].path) in tree;
    var j: nat :| j < |rs| && Wrote(u, rs, j, u.target(k), tree[u.target(k)]);
    l := rs[j].path;
    assert rs[j] in rs;
  }

  lemma {:induction false} FilesMatch(host: Host, sums: Checksums, u: Unpacking, rs: seq<Record>)
    requires Checks(host, sums, u) && Covers(sums, u, rs) && ContentOf(u, rs, |rs|).Success?
    ensures AllMatch(host, sums, u, ContentOf(u, rs, |rs|).value.tree) <==> NoConflict(sums, u)
  {
    var tree := ContentOf(u, rs, |rs|).value.tree;
    if NoConflict(sums, u) {
      forall k | k in sums && !u.retired(k) ensures u.target(k) in tree && Matches(host, sums[k], tree[u.target(k)]) {
        var l := FileOfKey(host, sums, u, rs, k);
        assert SameChecksum(sums[k], sums[l]);
      }
    }
    if AllMatch(host, sums, u, tree) {
      forall k, l | k in sums && l in sums && !u.retired(k) && !u.retired(l) && u.target(k) == u.target(l)
        ensures SameChecksum(sums[k], sums[l])
      {
        assert Matches(host, sums[k], tree[u.target(k)]) && Matches(host, sums[l], tree[u.target(k)]);
      }
    }
  }

  lemma {:induction false} UnpackingChecks(host: Host, sums: Checksums)
    ensures Checks(host, sums, UnpackingOf(host, sums))
  {
  }

  lemma {:induction false} AcceptedCovers(host: Host, rs: seq<Record>)
    requires Accept(host, rs).Success?
    ensures Covers(Accept(host, rs).value, UnpackingOf(host, Accept(host, rs).value), rs)
  {
    AcceptedArchive(host, rs);
    var sums := Accept(host, rs).value;
    forall r, k | r in rs && r.path !in sums && k in sums ensures Target(r.path) != Target(k) {
      OtherFilesAreApart(r.path, k);
    }
  }

  /** After an extraction every kept file has its recorded size and digest exactly when no two
      kept names of the manifest stand for one file with different checksums. */
  lemma {:induction false} FilesMatchIff(host: Host, rs: seq<Record>)
    requires Plan(host, rs).Success?
    ensures var sums := Accept(host, rs).value; var u := UnpackingOf(host, sums);
      AllMatch(host, sums, u, Plan(host, rs).value.tree) <==> NoConflict(sums, u)
  {
    var sums := Accept(host, rs).value;
    AcceptedCovers(host, rs);
    UnpackingChecks(host, sums);
    FilesMatch(host, sums, UnpackingOf(host, sums), rs);
  }

  lemma {:induction false} EveryEntryUnpacks(u: Unpacking, rs: seq<Record>, i: nat, j: nat)
    requires j < i <= |rs| && ContentOf(u, rs, i).Success?
    ensures u.unpack(rs[j]).Success?
  {
    if j < i - 1 {
      EveryEntryUnpacks(u, rs, i - 1, j);
    }
  }

  /** The profile data that is unpacked is an object. */
  lemma {:induction false} ProfileDataIsObject(host: Host, rs: seq<Record>, j: nat)
    requires Plan(host, rs).Success? && j < |rs| && rs[j].path == VAST_DATA
    ensures Inflate(host.codec, rs[j]).Success? && host.isObject(Inflate(host.codec, rs[j]).value)
  {
    EveryEntryUnpacks(UnpackingOf(host, Accept(host, rs).value), rs, |rs|, j);
  }

  /** An accepted archive unpacks to at least one file. */
  lemma {:induction false} PlanIsNotEmpty(host: Host, rs: seq<Record>)
    requires Plan(host, rs).Success?
    ensures Plan(host, rs).value.tree != map[]
  {
    AcceptedArchive(host, rs);
    var u := UnpackingOf(host, Accept(host, rs).value);
    TreeComesFromEntries(u, rs, |rs|);
    var r :| r in rs && r.path == MANIFEST;
    var n: nat :| n < |rs| && rs[n] == r;
    ManifestIsKept();
    assert u.target(rs[n].path) in Plan(host, rs).value.tree;
  }

  lemma {:induction false} ManifestIsKept()
    ensures !Retired(MANIFEST)
  {
    assert |Lower(MANIFEST)| == 13;
  }
}
