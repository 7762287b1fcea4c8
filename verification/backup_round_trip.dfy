/** A whole backup: what the export writes, with its manifest, is extracted again exactly when
    every file name is one the extraction accepts. */
module BackupRoundTrip {
  import opened Options
  import opened ZipBytes
  import opened ZipWriter
  import opened ZipReader
  import opened ZipSafety
  import opened ZipRoundTrip
  import opened ArchivePaths
  import opened ExtractionPlan

  /** The entries of an export: manifest, readme, files. */
  function Entries(manifest: Bytes, readme: Bytes, files: seq<Input>): seq<Input> {
    [Input(MANIFEST, manifest), Input(README, readme)] + files
  }

  /** The manifest records the size and the digest of every file and of nothing else. */
  ghost predicate Describes(host: Host, m: Manifest, files: seq<Input>) {
    && ValidManifest(m)
    && (forall path :: path in m.checksums.value <==> exists i | 0 <= i < |files| :: files[i].path == path)
    && (forall i | 0 <= i < |files| ::
          m.checksums.value[files[i].path] == Some(Checksum(host.digest(files[i].data), Some(|files[i].data|))))
    && (forall i | 0 <= i < |files| && files[i].path == VAST_DATA :: host.isObject(files[i].data))
  }

  /** The records are those of the entries, and decompress to their data. */
  ghost predicate Carries(host: Host, rs: seq<Record>, inputs: seq<Input>) {
    && |rs| == |inputs|
    && forall i | 0 <= i < |rs| :: rs[i].path == inputs[i].path && Inflate(host.codec, rs[i]) == Success(inputs[i].data)
  }

  predicate AllSafe(files: seq<Input>) {
    forall i | 0 <= i < |files| :: Safe(files[i].path)
  }

  lemma {:induction false} ManifestIsSafe(name: string)
    requires name == MANIFEST
    ensures Safe(name)
  {
    OneDotIsSafe(name, 8);
  }

  lemma {:induction false} ReadmeIsSafe(name: string)
    requires name == README
    ensures Safe(name)
  {
    OneDotIsSafe(name, 6);
  }

  lemma {:induction false} OthersAreNotData(name: string)
    requires name == MANIFEST || name == README
    ensures !IsDataPath(name) && name != VAST_DATA
  {
    assert name[0] == 'm' || name[0] == 'R';
  }

  lemma {:induction false} KeysAreData(m: Manifest, path: string)
    requires ValidManifest(m) && path in ChecksumsOf(m)
    ensures IsDataPath(path)
  {
    assert ChecksumOk(path, m.checksums.value[path]);
  }

  lemma {:induction false} ManifestIsRead(host: Host, m: Manifest, manifest: Bytes, readme: Bytes, files: seq<Input>,
                                          rs: seq<Record>)
    requires Carries(host, rs, Entries(manifest, readme, files)) && host.parse(manifest) == Some(m) && ValidManifest(m)
    ensures ReadManifest(host, rs) == Success(m)
  {
    assert rs[0].path == Entries(manifest, readme, files)[0].path == MANIFEST;
    assert FindRecord(rs, MANIFEST) == Some(rs[0]);
  }

  /** The records are the manifest's, the readme's and the files'. */
  ghost predicate FilesCarried(host: Host, rs: seq<Record>, files: seq<Input>) {
    && |rs| == |files| + 2
    && rs[0].path == MANIFEST && rs[1].path == README
    && Inflate(host.codec, rs[0]).Success? && Inflate(host.codec, rs[1]).Success?
    && (forall i | 0 <= i < |files| :: Carrier(host)(rs[i + 2], files[i]))
  }

  predicate FileCarried(host: Host, r: Record, file: Input) {
    r.path == file.path && Inflate(host.codec, r) == Success(file.data)
  }

  function Carrier(host: Host): (Record, Input) -> bool {
    (r: Record, file: Input) => FileCarried(host, r, file)
  }

  lemma {:induction false} FilesAreCarried(host: Host, manifest: Bytes, readme: Bytes, files: seq<Input>,
                                           rs: seq<Record>)
    requires Carries(host, rs, Entries(manifest, readme, files))
    ensures FilesCarried(host, rs, files)
  {
    var inputs := Entries(manifest, readme, files);
    assert inputs[0].path == MANIFEST && inputs[1].path == README;
    forall i | 0 <= i < |files| ensures Carrier(host)(rs[i + 2], files[i]) {
      assert inputs[i + 2] == files[i];
    }
  }

  /** A property of two names and of those of the files. */
  lemma {:induction false} AllRecords(rs: seq<Record>, files: seq<Input>, ok: string -> bool)
    requires |rs| == |files| + 2 && ok(rs[0].path) && ok(rs[1].path)
    requires forall i | 0 <= i < |files| :: rs[i + 2].path == files[i].path
    ensures (forall r | r in rs :: ok(r.path)) <==> forall i | 0 <= i < |files| :: ok(files[i].path)
  {
    if forall i | 0 <= i < |files| :: ok(files[i].path) {
      forall r | r in rs ensures ok(r.path) {
        var i :| 0 <= i < |rs| && rs[i] == r;
        if i >= 2 {
          assert rs[(i - 2) + 2].path == files[i - 2].path;
        }
      }
    }
    if forall r | r in rs :: ok(r.path) {
      forall i | 0 <= i < |files| ensures ok(files[i].path) {
        assert rs[i + 2] in rs;
      }
    }
  }

  lemma {:induction false} OthersAreAllowed(sums: Checksums, name: string)
    requires name == MANIFEST || name == README
    ensures Allowed(sums)(name)
  {
    if name == MANIFEST {
      ManifestIsSafe(name);
    } else {
      ReadmeIsSafe(name);
    }
  }

  lemma {:induction false} NamesPassIffSafe(sums: Checksums, files: seq<Input>, rs: seq<Record>)
    requires |rs| == |files| + 2 && rs[0].path == MANIFEST && rs[1].path == README
    requires forall i | 0 <= i < |files| :: rs[i + 2].path == files[i].path && files[i].path in sums
    ensures CheckNames(sums, rs).None? <==> AllSafe(files)
  {
    NamesCheckedIff(sums, rs);
    OthersAreAllowed(sums, rs[0].path);
    OthersAreAllowed(sums, rs[1].path);
    AllRecords(rs, files, Allowed(sums));
    assert forall i | 0 <= i < |files| :: Allowed(sums)(files[i].path) <==> Safe(files[i].path);
  }

  lemma {:induction false} KeysAreFound(sums: Checksums, files: seq<Input>, rs: seq<Record>)
    requires |rs| == |files| + 2 && forall i | 0 <= i < |files| :: rs[i + 2].path == files[i].path
    requires forall path | path in sums :: exists i | 0 <= i < |files| :: files[i].path == path
    ensures forall path | path in sums :: FindRecord(rs, path).Some?
  {
    forall path | path in sums ensures FindRecord(rs, path).Some? {
      var i :| 0 <= i < |files| && files[i].path == path;
      assert rs[i + 2] in rs;
      FoundIsThere(rs, path);
    }
  }

  /** The checks before the first write, once the manifest is read. */
  lemma {:induction false} AcceptIs(host: Host, m: Manifest, rs: seq<Record>)
    requires ReadManifest(host, rs) == Success(m) && ValidManifest(m)
    requires forall path | path in ChecksumsOf(m) :: FindRecord(rs, path).Some?
    ensures Accept(host, rs) == match CheckNames(ChecksumsOf(m), rs) case None => Success(ChecksumsOf(m)) case Some(e) => Failure(e)
  {
  }

  /** The checks before the first write pass exactly when every file name is safe. */
  lemma {:induction false} AcceptedIffSafe(host: Host, m: Manifest, files: seq<Input>, rs: seq<Record>)
    requires FilesCarried(host, rs, files) && ReadManifest(host, rs) == Success(m) && Describes(host, m, files)
    ensures Accept(host, rs).Success? <==> AllSafe(files)
    ensures Accept(host, rs).Success? ==> Accept(host, rs).value == ChecksumsOf(m)
  {
    var sums := ChecksumsOf(m);
    NamesOfFiles(host, m, files, rs);
    NamesPassIffSafe(sums, files, rs);
    KeysAreFound(sums, files, rs);
    AcceptIs(host, m, rs);
  }

  lemma {:induction false} NamesOfFiles(host: Host, m: Manifest, files: seq<Input>, rs: seq<Record>)
    requires FilesCarried(host, rs, files) && Describes(host, m, files)
    ensures forall i | 0 <= i < |files| :: rs[i + 2].path == files[i].path && files[i].path in ChecksumsOf(m)
    ensures forall path | path in ChecksumsOf(m) :: exists i | 0 <= i < |files| :: files[i].path == path
  {
    forall i | 0 <= i < |files| ensures rs[i + 2].path == files[i].path && files[i].path in ChecksumsOf(m) {
      assert Carrier(host)(rs[i + 2], files[i]);
    }
  }

  lemma {:induction false} FileUnpacks(host: Host, m: Manifest, files: seq<Input>, i: nat, r: Record)
    requires Describes(host, m, files) && i < |files| && r.path == files[i].path && Inflate(host.codec, r) == Success(files[i].data)
    ensures Unpack(host, ChecksumsOf(m), r) == Success(files[i].data)
  {
    assert ChecksumsOf(m)[r.path] == m.checksums.value[r.path].value;
  }

  lemma {:induction false} OtherUnpacks(host: Host, sums: Checksums, r: Record, data: Bytes)
    requires r.path !in sums && r.path != VAST_DATA && Inflate(host.codec, r) == Success(data)
    ensures Unpack(host, sums, r) == Success(data)
  {
  }

  lemma {:induction false} OthersAreNotKeys(m: Manifest, name: string)
    requires ValidManifest(m) && (name == MANIFEST || name == README)
    ensures name !in ChecksumsOf(m) && name != VAST_DATA
  {
    OthersAreNotData(name);
    if name in ChecksumsOf(m) {
      KeysAreData(m, name);
    }
  }

  /** A record that passes the checks of one entry. */
  function Unpackable(host: Host, sums: Checksums): Record -> bool {
    (r: Record) => Unpack(host, sums, r).Success?
  }

  lemma {:induction false} HeadUnpacks(host: Host, m: Manifest, r: Record)
    requires ValidManifest(m) && (r.path == MANIFEST || r.path == README) && Inflate(host.codec, r).Success?
    ensures Unpackable(host, ChecksumsOf(m))(r)
  {
    OthersAreNotKeys(m, r.path);
    OtherUnpacks(host, ChecksumsOf(m), r, Inflate(host.codec, r).value);
  }

  lemma {:induction false} FileRecordUnpacks(host: Host, m: Manifest, files: seq<Input>, i: nat, r: Record)
    requires Describes(host, m, files) && i < |files| && Carrier(host)(r, files[i])
    ensures Unpackable(host, ChecksumsOf(m))(r)
  {
    FileUnpacks(host, m, files, i, r);
  }

  /** What holds of the first two records and of those of the files holds of all. */
  lemma {:induction false} AllFromParts(rs: seq<Record>, files: seq<Input>, carried: (Record, Input) -> bool,
                                        ok: Record -> bool)
    requires |rs| == |files| + 2 && ok(rs[0]) && ok(rs[1])
    requires forall i | 0 <= i < |files| :: carried(rs[i + 2], files[i])
    requires forall r, i: nat | i < |files| && carried(r, files[i]) :: ok(r)
    ensures forall j: nat | j < |rs| :: ok(rs[j])
  {
    forall j: nat | j < |rs| ensures ok(rs[j]) {
      if j >= 2 {
        assert carried(rs[(j - 2) + 2], files[j - 2]);
      }
    }
  }

  lemma {:induction false} RecordsUnpack(host: Host, m: Manifest, files: seq<Input>, rs: seq<Record>)
    requires FilesCarried(host, rs, files) && Describes(host, m, files)
    ensures forall j: nat | j < |rs| :: Unpackable(host, ChecksumsOf(m))(rs[j])
  {
    HeadUnpacks(host, m, rs[0]);
    HeadUnpacks(host, m, rs[1]);
    forall r, i: nat | i < |files| && Carrier(host)(r, files[i]) ensures Unpackable(host, ChecksumsOf(m))(r) {
      FileRecordUnpacks(host, m, files, i, r);
    }
    AllFromParts(rs, files, Carrier(host), Unpackable(host, ChecksumsOf(m)));
  }

  lemma {:induction false} AllUnpack(host: Host, sums: Checksums, rs: seq<Record>, i: nat)
    requires i <= |rs| && forall j: nat | j < |rs| :: Unpackable(host, sums)(rs[j])
    ensures ContentOf(UnpackingOf(host, sums), rs, i).Success?
  {
    if i > 0 {
      AllUnpack(host, sums, rs, i - 1);
    }
  }

  lemma {:induction false} PlanIs(host: Host, rs: seq<Record>)
    ensures Accept(host, rs).Failure? ==> Plan(host, rs).Failure?
    ensures Accept(host, rs).Success? ==> Plan(host, rs) == ContentOf(UnpackingOf(host, Accept(host, rs).value), rs, |rs|)
  {
  }

  lemma {:induction false} CarriedPlan(host: Host, m: Manifest, manifest: Bytes, readme: Bytes, files: seq<Input>,
                                       rs: seq<Record>)
    requires Carries(host, rs, Entries(manifest, readme, files)) && host.parse(manifest) == Some(m) && Describes(host, m, files)
    ensures Plan(host, rs).Success? <==> AllSafe(files)
  {
    ManifestIsRead(host, m, manifest, readme, files, rs);
    FilesAreCarried(host, manifest, readme, files, rs);
    AcceptedIffSafe(host, m, files, rs);
    PlanIs(host, rs);
    RecordsUnpack(host, m, files, rs);
    AllUnpack(host, ChecksumsOf(m), rs, |rs|);
  }

  lemma {:induction false} ExportCarries(host: Host, inputs: seq<Input>, r: Result<seq<Record>, ZipError>)
    requires Lawful(host.codec) && Exportable(host.codec, ZIP, inputs) && Importable(host.codec, inputs)
    requires Reads(host.codec, Archive(host.codec, ZIP, inputs), r)
    ensures r.Success? && Carries(host, r.value, inputs)
  {
    RoundTrip(host.codec, inputs, r);
    InflatesToDeclaredSizes(host.codec, r.value);
  }

  // ---- The manifest an export writes ----

  /** The files an export collects: below `data/`, each once, none above the entry limit. */
  predicate Collected(files: seq<Input>) {
    && (forall i | 0 <= i < |files| :: IsDataPath(files[i].path) && |files[i].data| <= MAX_ENTRY)
    && NamesDiffer(files)
  }

  predicate NamesDiffer(files: seq<Input>) {
    forall i, j | 0 <= i < j < |files| :: files[i].path != files[j].path
  }

  predicate HasProfile(files: seq<Input>) {
    exists i | 0 <= i < |files| :: files[i].path == VAST_DATA
  }

  function ChecksumOf(host: Host, file: Input): Checksum {
    Checksum(host.digest(file.data), Some(|file.data|))
  }

  /** The checksums recorded for the first `n` files. */
  function Recorded(host: Host, files: seq<Input>, n: nat): map<string, Option<Checksum>>
    requires n <= |files|
  {
    if n == 0 then map[] else Recorded(host, files, n - 1)[files[n - 1].path := Some(ChecksumOf(host, files[n - 1]))]
  }

  function ExportManifest(host: Host, files: seq<Input>): Manifest {
    Manifest("Vast", 1, true, Some(Recorded(host, files, |files|)), Some(|files|), HasProfile(files))
  }

  lemma {:induction false} RecordedKeys(host: Host, files: seq<Input>, n: nat, path: string)
    requires n <= |files|
    ensures path in Recorded(host, files, n) <==> exists i | 0 <= i < n :: files[i].path == path
  {
    if n > 0 {
      RecordedKeys(host, files, n - 1, path);
    }
  }

  lemma {:induction false} RecordedAt(host: Host, files: seq<Input>, n: nat, i: nat)
    requires i < n <= |files| && NamesDiffer(files)
    ensures files[i].path in Recorded(host, files, n)
    ensures Recorded(host, files, n)[files[i].path] == Some(ChecksumOf(host, files[i]))
  {
    if i < n - 1 {
      RecordedAt(host, files, n - 1, i);
    }
  }

  lemma {:induction false} RecordedCount(host: Host, files: seq<Input>, n: nat)
    requires n <= |files| && NamesDiffer(files)
    ensures |Recorded(host, files, n)| == n
  {
    if n > 0 {
      RecordedCount(host, files, n - 1);
      RecordedKeys(host, files, n - 1, files[n - 1].path);
    }
  }

  /** One checksum for every file, and for nothing else. */
  lemma {:induction false} RecordedIs(host: Host, files: seq<Input>)
    requires NamesDiffer(files)
    ensures var sums := Recorded(host, files, |files|);
      && |sums| == |files|
      && (forall path :: path in sums <==> exists i | 0 <= i < |files| :: files[i].path == path)
      && (forall i | 0 <= i < |files| :: sums[files[i].path] == Some(ChecksumOf(host, files[i])))
  {
    RecordedCount(host, files, |files|);
    forall path ensures path in Recorded(host, files, |files|) <==> exists i | 0 <= i < |files| :: files[i].path == path {
      RecordedKeys(host, files, |files|, path);
    }
    forall i | 0 <= i < |files| ensures Recorded(host, files, |files|)[files[i].path] == Some(ChecksumOf(host, files[i])) {
      RecordedAt(host, files, |files|, i);
    }
  }

  /** The manifest of an export is valid exactly when the profile data is among the files. */
  lemma {:induction false} ExportManifestValidIff(host: Host, files: seq<Input>)
    requires Collected(files) && forall data :: IsDigest(host.digest(data))
    ensures ValidManifest(ExportManifest(host, files)) <==> HasProfile(files)
  {
    RecordedIs(host, files);
    var sums := Recorded(host, files, |files|);
    forall path | path in sums ensures ChecksumOk(path, sums[path]) {
      var i :| 0 <= i < |files| && files[i].path == path;
      assert sums[files[i].path] == Some(ChecksumOf(host, files[i]));
    }
  }

  lemma {:induction false} ExportManifestDescribes(host: Host, files: seq<Input>)
    requires Collected(files) && HasProfile(files) && forall data :: IsDigest(host.digest(data))
    requires forall i | 0 <= i < |files| && files[i].path == VAST_DATA :: host.isObject(files[i].data)
    ensures Describes(host, ExportManifest(host, files), files)
  {
    ExportManifestValidIff(host, files);
    RecordedIs(host, files);
  }

  // ---- What the extraction makes of an export ----

  /** No two kept names stand for one file. */
  predicate TargetsApart(files: seq<Input>) {
    forall i, j | 0 <= i < j < |files| && !Retired(files[i].path) && !Retired(files[j].path) :: Target(files[i].path) != Target(files[j].path)
  }

  /** Every kept file is in the tree with its bytes. */
  ghost predicate HoldsFiles(u: Unpacking, files: seq<Input>, tree: Tree) {
    forall i | 0 <= i < |files| && !u.retired(files[i].path) ::
      u.target(files[i].path) in tree && tree[u.target(files[i].path)] == files[i].data
  }

  /** Entries for the same file unpack to the same data. */
  ghost predicate Agrees(u: Unpacking, rs: seq<Record>, i: nat, data: Bytes)
    requires i < |rs|
  {
    forall j | 0 <= j < |rs| && !u.retired(rs[j].path) && u.target(rs[j].path) == u.target(rs[i].path) :: u.unpack(rs[j]) == Success(data)
  }

  lemma {:induction false} AgreedFileIsThere(u: Unpacking, rs: seq<Record>, i: nat, data: Bytes)
    requires i < |rs| && ContentOf(u, rs, |rs|).Success? && !u.retired(rs[i].path) && Agrees(u, rs, i, data)
    ensures var tree := ContentOf(u, rs, |rs|).value.tree; u.target(rs[i].path) in tree && tree[u.target(rs[i].path)] == data
  {
    TreeComesFromEntries(u, rs, |rs|);
    var tree := ContentOf(u, rs, |rs|).value.tree;
    var t := u.target(rs[i].path);
    var j: nat :| j < |rs| && Wrote(u, rs, j, t, tree[t]);
  }

  /** The records after the first two unpack to the files. */
  ghost predicate Unpacks(u: Unpacking, files: seq<Input>, rs: seq<Record>) {
    && |rs| == |files| + 2
    && forall i | 0 <= i < |files| :: rs[i + 2].path == files[i].path && u.unpack(rs[i + 2]) == Success(files[i].data)
  }

  /** Kept files have targets of their own. */
  ghost predicate Apart(u: Unpacking, files: seq<Input>, first: string, second: string) {
    && (forall i, j | 0 <= i < j < |files| && !u.retired(files[i].path) && !u.retired(files[j].path) ::
          u.target(files[i].path) != u.target(files[j].path))
    && (forall i | 0 <= i < |files| :: u.target(files[i].path) != u.target(first) && u.target(files[i].path) != u.target(second))
  }

  lemma {:induction false} FilesAgree(u: Unpacking, files: seq<Input>, rs: seq<Record>, i: nat)
    requires Unpacks(u, files, rs) && Apart(u, files, rs[0].path, rs[1].path)
    requires i < |files| && !u.retired(files[i].path)
    ensures Agrees(u, rs, i + 2, files[i].data)
  {
    forall j | 0 <= j < |rs| && !u.retired(rs[j].path) && u.target(rs[j].path) == u.target(rs[i + 2].path)
      ensures u.unpack(rs[j]) == Success(files[i].data)
    {
      assert rs[i + 2].path == files[i].path;
      if j >= 2 {
        assert rs[(j - 2) + 2].path == files[j - 2].path;
      }
    }
  }

  lemma {:induction false} UnpackedFilesAreThere(u: Unpacking, files: seq<Input>, rs: seq<Record>)
    requires Unpacks(u, files, rs) && Apart(u, files, rs[0].path, rs[1].path) && ContentOf(u, rs, |rs|).Success?
    ensures HoldsFiles(u, files, ContentOf(u, rs, |rs|).value.tree)
  {
    forall i | 0 <= i < |files| && !u.retired(files[i].path)
      ensures u.target(files[i].path) in ContentOf(u, rs, |rs|).value.tree
      ensures ContentOf(u, rs, |rs|).value.tree[u.target(files[i].path)] == files[i].data
    {
      assert rs[i + 2].path == files[i].path;
      FilesAgree(u, files, rs, i);
      AgreedFileIsThere(u, rs, i + 2, files[i].data);
    }
  }

  lemma {:induction false} CarriedUnpacks(host: Host, m: Manifest, files: seq<Input>, rs: seq<Record>)
    requires FilesCarried(host, rs, files) && Describes(host, m, files)
    ensures Unpacks(UnpackingOf(host, ChecksumsOf(m)), files, rs)
  {
    forall i | 0 <= i < |files|
      ensures rs[i + 2].path == files[i].path && UnpackingOf(host, ChecksumsOf(m)).unpack(rs[i + 2]) == Success(files[i].data)
    {
      assert Carrier(host)(rs[i + 2], files[i]);
      FileUnpacks(host, m, files, i, rs[i + 2]);
    }
  }

  lemma {:induction false} CarriedApart(host: Host, m: Manifest, files: seq<Input>, manifest: string, readme: string)
    requires Describes(host, m, files) && TargetsApart(files) && manifest == MANIFEST && readme == README
    ensures Apart(UnpackingOf(host, ChecksumsOf(m)), files, manifest, readme)
  {
    forall i | 0 <= i < |files|
      ensures Target(files[i].path) != Target(manifest) && Target(files[i].path) != Target(readme)
    {
      KeysAreData(m, files[i].path);
      OtherFilesAreApart(manifest, files[i].path);
      OtherFilesAreApart(readme, files[i].path);
    }
  }

  /** What an export needs of its surroundings: digests are digests, the profile data is an object, and
      the manifest reads back from its text. */
  ghost predicate ExportOk(host: Host, manifest: Bytes, files: seq<Input>) {
    && Lawful(host.codec)
    && (forall data :: IsDigest(host.digest(data)))
    && Collected(files) && HasProfile(files)
    && (forall i | 0 <= i < |files| && files[i].path == VAST_DATA :: host.isObject(files[i].data))
    && host.parse(manifest) == Some(ExportManifest(host, files))
  }

  /** An export within the limits of the import is read back, and can be extracted exactly when every
      file name is safe: not absolute, without two dots in a row and without a drive.  The extracted
      tree then holds every kept file with its bytes, if no two names stand for one file. */
  lemma {:induction false} ExportIsExtractable(host: Host, manifest: Bytes, readme: Bytes, files: seq<Input>,
                                               r: Result<seq<Record>, ZipError>)
    requires ExportOk(host, manifest, files)
    requires Exportable(host.codec, ZIP, Entries(manifest, readme, files)) && Importable(host.codec, Entries(manifest, readme, files))
    requires Reads(host.codec, Archive(host.codec, ZIP, Entries(manifest, readme, files)), r)
    ensures r.Success? && (Plan(host, r.value).Success? <==> AllSafe(files))
    ensures AllSafe(files) && TargetsApart(files) ==>
      forall i | 0 <= i < |files| && !Retired(files[i].path) ::
        var tree := Plan(host, r.value).value.tree; Target(files[i].path) in tree && tree[Target(files[i].path)] == files[i].data
  {
    ExportManifestDescribes(host, files);
    ExportCarries(host, Entries(manifest, readme, files), r);
    CarriedPlan(host, ExportManifest(host, files), manifest, readme, files, r.value);
    if AllSafe(files) && TargetsApart(files) {
      PlannedFilesAreThere(host, ExportManifest(host, files), manifest, readme, files, r.value);
    }
  }

  lemma {:induction false} PlannedFilesAreThere(host: Host, m: Manifest, manifest: Bytes, readme: Bytes,
                                                files: seq<Input>, rs: seq<Record>)
    requires Carries(host, rs, Entries(manifest, readme, files)) && host.parse(manifest) == Some(m) && Describes(host, m, files)
    requires TargetsApart(files) && Plan(host, rs).Success?
    ensures forall i | 0 <= i < |files| && !Retired(files[i].path) ::
      var tree := Plan(host, rs).value.tree; Target(files[i].path) in tree && tree[Target(files[i].path)] == files[i].data
  {
    ManifestIsRead(host, m, manifest, readme, files, rs);
    FilesAreCarried(host, manifest, readme, files, rs);
    AcceptedIffSafe(host, m, files, rs);
    PlanIs(host, rs);
    CarriedUnpacks(host, m, files, rs);
    CarriedApart(host, m, files, rs[0].path, rs[1].path);
    UnpackedFilesAreThere(UnpackingOf(host, ChecksumsOf(m)), files, rs);
  }
}
