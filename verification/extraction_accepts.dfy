/** Exactly which archives the extraction accepts, and the tree it makes of them, in terms of the
    manifest's fields and of the entries. */
module ExtractionAccepts {
  import opened Options
  import opened Letters
  import opened ZipBytes
  import opened ZipWriter
  import opened ZipReader
  import opened ZipAccepts
  import opened ArchivePaths
  import opened ExtractionPlan

  // ---- Names ----

  /** The first entry of the name. */
  ghost predicate FirstOf(rs: seq<Record>, path: string, k: nat) {
    k < |rs| && rs[k].path == path && forall j | 0 <= j < k :: rs[j].path != path
  }

  lemma {:induction false} FoundIsFirst(rs: seq<Record>, path: string, r: Record)
    ensures FindRecord(rs, path) == Some(r) <==> exists k: nat :: FirstOf(rs, path, k) && rs[k] == r
  {
    if rs != [] {
      FoundIsFirst(rs[1..], path, r);
      if rs[0].path == path {
        assert FirstOf(rs, path, 0);
      } else {
        if k: nat :| FirstOf(rs[1..], path, k) && rs[1..][k] == r {
          assert FirstOf(rs, path, k + 1);
        }
        if k: nat :| FirstOf(rs, path, k) && rs[k] == r {
          assert FirstOf(rs[1..], path, k - 1);
        }
      }
    }
  }

  // ---- The manifest ----

  predicate IsHexDigit(c: char) {
    '0' <= c <= '9' || 'a' <= c <= 'f' || 'A' <= c <= 'F'
  }

  /** A recorded checksum: below the data directory, with 64 hexadecimal digits and a size of at most 256 MiB. */
  predicate ChecksumIsGood(path: string, c: Option<Checksum>) {
    && "data/" <= path && |path| > 5
    && c.Some?
    && |c.value.sha256| == 64 && (forall i | 0 <= i < 64 :: IsHexDigit(c.value.sha256[i]))
    && c.value.sizeBytes.Some? && 0 <= c.value.sizeBytes.value <= 0x1000_0000
  }

  /** What the fields of a manifest must be. */
  ghost predicate ManifestIsGood(m: Manifest) {
    && m.product == "Vast" && m.formatVersion == 1 && m.hasSections && m.vastDataIncluded && m.checksums.Some?
    && m.includedFileCount == Some(|m.checksums.value|)
    && "data/vast-data.json" in m.checksums.value
    && forall path | path in m.checksums.value :: ChecksumIsGood(path, m.checksums.value[path])
  }

  lemma {:induction false} ChecksumOkIff(path: string, c: Option<Checksum>)
    ensures ChecksumOk(path, c) <==> ChecksumIsGood(path, c)
  {
    if c.Some? && |c.value.sha256| == 64 {
      forall i | 0 <= i < 64
        ensures IsHexDigit(c.value.sha256[i]) <==> '0' <= c.value.sha256[i] <= '9' || 'a' <= LowerChar(c.value.sha256[i]) <= 'f'
      {
      }
    }
  }

  lemma {:induction false} ValidManifestIff(m: Manifest)
    ensures ValidManifest(m) <==> ManifestIsGood(m)
  {
    if m.checksums.Some? {
      forall path | path in m.checksums.value
        ensures ChecksumOk(path, m.checksums.value[path]) <==> ChecksumIsGood(path, m.checksums.value[path])
      {
        ChecksumOkIff(path, m.checksums.value[path]);
      }
    }
  }

  /** The first entry named manifest.json is intact and parses to `m`. */
  ghost predicate ManifestIs(host: Host, rs: seq<Record>, m: Manifest) {
    exists k: nat, data :: FirstOf(rs, "manifest.json", k) && Intact(host.codec, rs[k], data) && host.parse(data) == Some(m)
  }

  lemma {:induction false} ReadManifestIff(host: Host, rs: seq<Record>, m: Manifest)
    ensures ReadManifest(host, rs) == Success(m) <==> ManifestIs(host, rs, m) && ManifestIsGood(m)
  {
    ValidManifestIff(m);
    var found := FindRecord(rs, MANIFEST);
    if found.Some? {
      FoundIsFirst(rs, MANIFEST, found.value);
      if Inflate(host.codec, found.value).Success? {
        InflateIff(host.codec, found.value, Inflate(host.codec, found.value).value);
      }
    }
    if ManifestIs(host, rs, m) {
      var k: nat, data :| FirstOf(rs, "manifest.json", k) && Intact(host.codec, rs[k], data) && host.parse(data) == Some(m);
      FoundIsFirst(rs, MANIFEST, rs[k]);
      InflateIff(host.codec, rs[k], data);
    }
  }

  // ---- One entry ----

  /** The entry decompresses to `data`, which has the recorded size and digest, if the manifest records them, and is an
      object, if it is the profile. */
  ghost predicate UnpacksTo(host: Host, sums: map<string, Option<Checksum>>, r: Record, data: Bytes) {
    && Intact(host.codec, r, data)
    && (r.path in sums ==>
          && sums[r.path].Some? && sums[r.path].value.sizeBytes == Some(|data|)
          && SameButForCase(host.digest(data), sums[r.path].value.sha256))
    && (r.path == "data/vast-data.json" ==> host.isObject(data))
  }

  lemma {:induction false} UnpackIff(host: Host, m: Manifest, r: Record, data: Bytes)
    requires ValidManifest(m)
    ensures Unpack(host, ChecksumsOf(m), r) == Success(data) <==> UnpacksTo(host, m.checksums.value, r, data)
  {
    InflateIff(host.codec, r, data);
    if r.path in m.checksums.value {
      assert ChecksumOk(r.path, m.checksums.value[r.path]);
      LowerIff(host.digest(data), m.checksums.value[r.path].value.sha256);
    }
  }

  // ---- The whole archive ----

  /** Safe names that the manifest expects, and an entry for every checksum. */
  ghost predicate NamesAreGood(sums: map<string, Option<Checksum>>, rs: seq<Record>) {
    && (forall r | r in rs :: Safe(r.path) && (r.path == "manifest.json" || r.path == "README.md" || r.path in sums))
    && (forall path | path in sums :: exists r | r in rs :: r.path == path)
  }

  lemma {:induction false} AllAllowedIff(sums: Checksums, rs: seq<Record>)
    ensures AllAllowed(Allowed(sums), rs) <==> forall r | r in rs :: Safe(r.path) && Permitted(sums, r.path)
  {
    if AllAllowed(Allowed(sums), rs) {
      forall r | r in rs ensures Safe(r.path) && Permitted(sums, r.path) {
        assert Allowed(sums)(r.path);
      }
    }
    forall r | r in rs && Safe(r.path) && Permitted(sums, r.path) ensures Allowed(sums)(r.path) {
    }
  }

  predicate HasAll(keys: set<string>, rs: seq<Record>) {
    forall path | path in keys :: FindRecord(rs, path).Some?
  }

  lemma {:induction false} HasAllIff(keys: set<string>, rs: seq<Record>)
    ensures HasAll(keys, rs) <==> forall path | path in keys :: exists r | r in rs :: r.path == path
  {
    forall path | path in keys ensures FindRecord(rs, path).Some? <==> exists r | r in rs :: r.path == path {
      FoundIsThere(rs, path);
    }
  }

  lemma {:induction false} AcceptMeans(host: Host, rs: seq<Record>, m: Manifest)
    requires ReadManifest(host, rs) == Success(m) && ValidManifest(m)
    ensures Accept(host, rs).Success? <==> CheckNames(ChecksumsOf(m), rs).None? && HasAll(ChecksumsOf(m).Keys, rs)
    ensures Accept(host, rs).Success? ==> Accept(host, rs).value == ChecksumsOf(m)
  {
  }

  lemma {:induction false} AcceptIff(host: Host, rs: seq<Record>, m: Manifest)
    requires ReadManifest(host, rs) == Success(m) && ValidManifest(m)
    ensures Accept(host, rs).Success? <==> NamesAreGood(m.checksums.value, rs)
    ensures Accept(host, rs).Success? ==> Accept(host, rs).value == ChecksumsOf(m)
  {
    var sums := ChecksumsOf(m);
    assert sums.Keys == m.checksums.value.Keys;
    AcceptMeans(host, rs, m);
    NamesCheckedIff(sums, rs);
    AllAllowedIff(sums, rs);
    HasAllIff(sums.Keys, rs);
  }

  lemma {:induction false} ContentIff(u: Unpacking, rs: seq<Record>, i: nat)
    requires i <= |rs|
    ensures ContentOf(u, rs, i).Success? <==> forall j | 0 <= j < i :: u.unpack(rs[j]).Success?
  {
    if i > 0 {
      ContentIff(u, rs, i - 1);
    }
  }

  ghost predicate AllUnpack(host: Host, sums: map<string, Option<Checksum>>, rs: seq<Record>) {
    forall r | r in rs :: exists data :: UnpacksTo(host, sums, r, data)
  }

  /** An archive is accepted under the manifest `m`: it is the archive's and in order, the names are, and every entry
      unpacks. */
  ghost predicate Acceptable(host: Host, rs: seq<Record>, m: Manifest) {
    && ManifestIs(host, rs, m) && ManifestIsGood(m)
    && NamesAreGood(m.checksums.value, rs) && AllUnpack(host, m.checksums.value, rs)
  }

  lemma {:induction false} EntriesUnpackIff(host: Host, rs: seq<Record>, m: Manifest)
    requires ValidManifest(m)
    ensures ContentOf(UnpackingOf(host, ChecksumsOf(m)), rs, |rs|).Success? <==> AllUnpack(host, m.checksums.value, rs)
  {
    var u := UnpackingOf(host, ChecksumsOf(m));
    ContentIff(u, rs, |rs|);
    forall r | r in rs ensures u.unpack(r).Success? <==> exists data :: UnpacksTo(host, m.checksums.value, r, data) {
      EntryUnpacksIff(host, m, r);
      assert u.unpack(r) == Unpack(host, ChecksumsOf(m), r);
    }
    if AllUnpack(host, m.checksums.value, rs) {
      forall j | 0 <= j < |rs| ensures u.unpack(rs[j]).Success? {
        assert rs[j] in rs;
      }
    }
    forall r | r in rs ensures exists j :: 0 <= j < |rs| && rs[j] == r {
    }
  }

  lemma {:induction false} EntryUnpacksIff(host: Host, m: Manifest, r: Record)
    requires ValidManifest(m)
    ensures Unpack(host, ChecksumsOf(m), r).Success? <==> exists data :: UnpacksTo(host, m.checksums.value, r, data)
  {
    if Unpack(host, ChecksumsOf(m), r).Success? {
      UnpackIff(host, m, r, Unpack(host, ChecksumsOf(m), r).value);
    }
    if data :| UnpacksTo(host, m.checksums.value, r, data) {
      UnpackIff(host, m, r, data);
    }
  }

  lemma {:induction false} PlanUnder(host: Host, rs: seq<Record>, m: Manifest)
    requires ReadManifest(host, rs) == Success(m) && ValidManifest(m)
    ensures Plan(host, rs).Success? <==> NamesAreGood(m.checksums.value, rs) && AllUnpack(host, m.checksums.value, rs)
  {
    AcceptIff(host, rs, m);
    EntriesUnpackIff(host, rs, m);
  }

  lemma {:induction false} PlanHasManifest(host: Host, rs: seq<Record>)
    requires Plan(host, rs).Success?
    ensures ReadManifest(host, rs).Success? && ValidManifest(ReadManifest(host, rs).value)
  {
  }

  lemma {:induction false} PlannedIsAcceptable(host: Host, rs: seq<Record>) returns (m: Manifest)
    requires Plan(host, rs).Success?
    ensures Acceptable(host, rs, m)
  {
    PlanHasManifest(host, rs);
    m := ReadManifest(host, rs).value;
    ReadManifestIff(host, rs, m);
    PlanUnder(host, rs, m);
  }

  lemma {:induction false} AcceptableIsPlanned(host: Host, rs: seq<Record>, m: Manifest)
    requires Acceptable(host, rs, m)
    ensures Plan(host, rs).Success?
  {
    ReadManifestIff(host, rs, m);
    ValidManifestIff(m);
    PlanUnder(host, rs, m);
  }

  /** The plan of an extraction succeeds exactly when the archive is acceptable under some manifest. */
  lemma {:induction false} PlanIff(host: Host, rs: seq<Record>)
    ensures Plan(host, rs).Success? <==> exists m :: Acceptable(host, rs, m)
  {
    if Plan(host, rs).Success? {
      var m := PlannedIsAcceptable(host, rs);
    }
    forall m | Acceptable(host, rs, m) ensures Plan(host, rs).Success? {
      AcceptableIsPlanned(host, rs, m);
    }
  }

  /** Every entry of an accepted archive is intact. */
  lemma {:induction false} PlannedIsIntact(host: Host, rs: seq<Record>, r: Record)
    requires Plan(host, rs).Success? && r in rs
    ensures exists data :: Intact(host.codec, r, data)
  {
    var m := PlannedIsAcceptable(host, rs);
    var data :| UnpacksTo(host, m.checksums.value, r, data);
  }

  // ---- Why an archive is refused ----

  /** Entry `k` is the first whose name is not allowed, and the error says why. */
  ghost predicate FirstBadName(sums: Checksums, rs: seq<Record>, k: nat, error: ExtractError) {
    && k < |rs|
    && (forall j | 0 <= j < k :: Allowed(sums)(rs[j].path))
    && !Allowed(sums)(rs[k].path) && error == if Safe(rs[k].path) then UnexpectedFile else UnsafeEntry
  }

  lemma {:induction false} FirstBadGoesOn(sums: Checksums, rs: seq<Record>, k: nat, error: ExtractError)
    requires rs != [] && Allowed(sums)(rs[0].path) && FirstBadName(sums, rs[1..], k, error)
    ensures FirstBadName(sums, rs, k + 1, error)
  {
    forall j | 0 <= j < k + 1 ensures Allowed(sums)(rs[j].path) {
      assert j > 0 ==> rs[j] == rs[1..][j - 1];
    }
  }

  /** The first name that is not allowed decides: unsafe, or else unexpected. */
  lemma {:induction false} NamesFail(sums: Checksums, rs: seq<Record>, error: ExtractError) returns (k: nat)
    requires CheckNames(sums, rs) == Some(error)
    ensures FirstBadName(sums, rs, k, error)
  {
    FirstNameChecked(sums, rs);
    if Allowed(sums)(rs[0].path) {
      k := NamesFail(sums, rs[1..], error);
      FirstBadGoesOn(sums, rs, k, error);
      k := k + 1;
    } else {
      k := 0;
      assert Allowed(sums)(rs[0].path) == (Safe(rs[0].path) && Permitted(sums, rs[0].path));
    }
  }

  /** An entry is refused for what the reader says of it, then for its size, its digest, and a profile that is no object. */
  lemma {:induction false} UnpackFails(host: Host, sums: Checksums, r: Record)
    ensures Inflate(host.codec, r).Failure? ==> Unpack(host, sums, r) == Failure(Zip(Inflate(host.codec, r).error))
    ensures Inflate(host.codec, r).Success? && r.path in sums && sums[r.path].sizeBytes != Some(|Inflate(host.codec, r).value|) ==>
      Unpack(host, sums, r) == Failure(ChecksumSize)
    ensures Inflate(host.codec, r).Success? && r.path in sums && sums[r.path].sizeBytes == Some(|Inflate(host.codec, r).value|)
            && !SameButForCase(host.digest(Inflate(host.codec, r).value), sums[r.path].sha256) ==>
      Unpack(host, sums, r) == Failure(ChecksumDigest)
  {
    if Inflate(host.codec, r).Success? && r.path in sums {
      LowerIff(host.digest(Inflate(host.codec, r).value), sums[r.path].sha256);
    }
  }

  /** The manifest is refused when it is missing, not intact, unreadable or not in order. */
  lemma {:induction false} ManifestFails(host: Host, rs: seq<Record>)
    ensures ReadManifest(host, rs) == Failure(ManifestMissing) <==> forall r | r in rs :: r.path != "manifest.json"
    ensures forall k: nat | FirstOf(rs, "manifest.json", k) ::
      match Inflate(host.codec, rs[k])
      case Failure(error) => ReadManifest(host, rs) == Failure(Zip(error))
      case Success(data) =>
        match host.parse(data)
        case None => ReadManifest(host, rs) == Failure(ManifestUnreadable)
        case Some(m) => ReadManifest(host, rs) == if ManifestIsGood(m) then Success(m) else Failure(ManifestInvalid)
  {
    FoundIsThere(rs, MANIFEST);
    forall k: nat | FirstOf(rs, "manifest.json", k) ensures FindRecord(rs, MANIFEST) == Some(rs[k]) {
      FoundIsFirst(rs, MANIFEST, rs[k]);
    }
    forall m ensures ValidManifest(m) <==> ManifestIsGood(m) {
      ValidManifestIff(m);
    }
  }

  /** With a manifest in order the archive is refused for its names before it is for a missing file. */
  lemma {:induction false} AcceptFails(host: Host, rs: seq<Record>, m: Manifest)
    requires ReadManifest(host, rs) == Success(m) && ValidManifest(m)
    ensures Accept(host, rs) == Failure(MissingFile) <==>
      CheckNames(ChecksumsOf(m), rs).None? && exists path | path in m.checksums.value :: forall r | r in rs :: r.path != path
    ensures CheckNames(ChecksumsOf(m), rs).Some? ==> Accept(host, rs) == Failure(CheckNames(ChecksumsOf(m), rs).value)
  {
    var keys := ChecksumsOf(m).Keys;
    assert keys == m.checksums.value.Keys;
    AcceptIs(host, rs, m);
    HasAllIff(keys, rs);
    NamesAreNoFiles(ChecksumsOf(m), rs);
  }

  lemma {:induction false} AcceptIs(host: Host, rs: seq<Record>, m: Manifest)
    requires ReadManifest(host, rs) == Success(m) && ValidManifest(m)
    ensures Accept(host, rs) ==
      match CheckNames(ChecksumsOf(m), rs)
      case Some(error) => Failure(error)
      case None => if HasAll(ChecksumsOf(m).Keys, rs) then Success(ChecksumsOf(m)) else Failure(MissingFile)
  {
  }

  lemma {:induction false} NamesAreNoFiles(sums: Checksums, rs: seq<Record>)
    ensures CheckNames(sums, rs) != Some(MissingFile)
  {
    if rs != [] {
      NamesAreNoFiles(sums, rs[1..]);
    }
  }

  // ---- The tree ----

  /** The files of products that no longer exist. */
  function RetiredNames(): set<string> {
    {"license-cache.json", "license-device.json", "password-vault.json",
     "data/license-cache.json", "data/license-device.json", "data/password-vault.json"}
  }

  lemma {:induction false} RetiredNamesAreLower()
    ensures forall name | name in RetiredNames() :: HasNoCapital(name)
  {
  }

  lemma {:induction false} SpellsOneIff(path: string, names: set<string>)
    requires forall name | name in names :: HasNoCapital(name)
    ensures Lower(path) in names <==> exists name | name in names :: SameButForCase(path, name)
  {
    forall name | name in names ensures Lower(path) == name <==> SameButForCase(path, name) {
      LowerIs(path, name);
    }
  }

  /** Retired are exactly those files, in any spelling of their letters. */
  lemma {:induction false} RetiredIff(path: string)
    ensures Retired(path) <==> exists name | name in RetiredNames() :: SameButForCase(path, name)
  {
    RetiredNamesAreLower();
    SpellsOneIff(path, RetiredNames());
  }

  /** Entry `j` is the last kept one for file `t`. */
  ghost predicate LastFor(u: Unpacking, rs: seq<Record>, i: nat, j: nat, t: File) {
    && j < i <= |rs| && !u.retired(rs[j].path) && u.target(rs[j].path) == t
    && forall k | j < k < i :: u.retired(rs[k].path) || u.target(rs[k].path) != t
  }

  /** A file holds what the last kept entry for it unpacks to, and there is no file without an entry. */
  lemma {:induction false} TreeIs(u: Unpacking, rs: seq<Record>, i: nat, t: File)
    requires i <= |rs| && ContentOf(u, rs, i).Success?
    ensures var tree := ContentOf(u, rs, i).value.tree;
      && (t in tree ==> exists j: nat :: LastFor(u, rs, i, j, t) && u.unpack(rs[j]) == Success(tree[t]))
      && (forall j: nat | LastFor(u, rs, i, j, t) :: t in tree && u.unpack(rs[j]) == Success(tree[t]))
  {
    if i > 0 {
      TreeIs(u, rs, i - 1, t);
      var before := ContentOf(u, rs, i - 1).value.tree;
      var after := ContentOf(u, rs, i).value.tree;
      if !u.retired(rs[i - 1].path) && u.target(rs[i - 1].path) == t {
        assert LastFor(u, rs, i, i - 1, t);
      } else {
        if t in before {
          var j: nat :| LastFor(u, rs, i - 1, j, t) && u.unpack(rs[j]) == Success(before[t]);
          assert LastFor(u, rs, i, j, t);
        }
        forall j: nat | LastFor(u, rs, i, j, t) ensures LastFor(u, rs, i - 1, j, t) {
        }
      }
    }
  }
}
