/** What the reader guarantees of every buffer, however it was made. */
module ZipSafety {
  import opened Options
  import opened Words
  import opened ZipBytes
  import opened ZipWriter
  import opened ZipReader

  /** The compressed bytes are a stretch of the buffer before the central directory. */
  ghost predicate LiesBefore(b: Bytes, central: nat, data: Bytes) {
    exists start: nat :: start + |data| <= central && Placed(b, start, data)
  }

  ghost predicate RecordOk(b: Bytes, central: nat, r: Record) {
    && r.path != ""
    && |r.compressed| == r.compressedSize
    && r.uncompressedSize <= MAX_ENTRY
    && LiesBefore(b, central, r.compressed)
  }

  predicate DistinctPaths(rs: seq<Record>) {
    forall i, j | 0 <= i < j < |rs| :: rs[i].path != rs[j].path
  }

  /** The declared sizes added up. */
  function Total(rs: seq<Record>): nat {
    if rs == [] then 0 else rs[0].uncompressedSize + Total(rs[1..])
  }

  lemma {:induction false} LocalDataLiesBefore(b: Bytes, central: nat, c: Central)
    requires central <= |b| && LocalData(b, central, c).Success?
    ensures |LocalData(b, central, c).value| == c.compressedSize && LiesBefore(b, central, LocalData(b, central, c).value)
  {
    var start := c.localOffset + 30 + ReadU16(b, c.localOffset + 26) + ReadU16(b, c.localOffset + 28);
    assert Placed(b, start, LocalData(b, central, c).value);
  }

  /** What one accepted record adds. */
  lemma {:induction false} ReadRecordIsSafe(d: Directory, cursor: nat, seen: Seen)
    requires ReadRecord(d, cursor, seen).Success?
    ensures StepIsSafe(d.b, d.central, seen, ReadRecord(d, cursor, seen).value.record)
  {
    var c := CentralAt(d.b, cursor);
    var name := NameAt(d.codec, d.b, cursor, c);
    assert CheckEntry(d.codec, c, name, seen) == None;
    LocalDataLiesBefore(d.b, d.central, c);
  }

  ghost predicate AllSafe(b: Bytes, central: nat, seen: Seen, rs: seq<Record>) {
    && (forall i | 0 <= i < |rs| :: RecordOk(b, central, rs[i]))
    && DistinctPaths(rs)
    && (forall i | 0 <= i < |rs| :: rs[i].path !in seen.names)
    && seen.total + Total(rs) <= MAX_TOTAL
  }

  lemma {:induction false} PrependIsSafe(b: Bytes, central: nat, seen: Seen, r: Record, rs: seq<Record>)
    requires RecordOk(b, central, r) && r.path !in seen.names
    requires AllSafe(b, central, Note(seen, r), rs)
    ensures AllSafe(b, central, seen, [r] + rs)
  {
    assert ([r] + rs)[1..] == rs;
    forall i | 0 <= i < |[r] + rs| ensures RecordOk(b, central, ([r] + rs)[i]) && ([r] + rs)[i].path !in seen.names {
      if i > 0 {
        assert ([r] + rs)[i] == rs[i - 1];
      }
    }
  }

  /** Every record a reader accepts is sound and new. */
  ghost predicate ReadsSafely(read: Reader, b: Bytes, central: nat) {
    forall cursor, seen | read(cursor, seen).Success? :: StepIsSafe(b, central, seen, read(cursor, seen).value.record)
  }

  ghost predicate StepIsSafe(b: Bytes, central: nat, seen: Seen, r: Record) {
    RecordOk(b, central, r) && r.path !in seen.names && seen.total + r.uncompressedSize <= MAX_TOTAL
  }

  lemma {:induction false} ReaderIsSafe(d: Directory)
    ensures ReadsSafely(ReaderOf(d), d.b, d.central)
  {
    forall cursor, seen | ReaderOf(d)(cursor, seen).Success?
      ensures StepIsSafe(d.b, d.central, seen, ReaderOf(d)(cursor, seen).value.record)
    {
      ReadRecordIsSafe(d, cursor, seen);
    }
  }

  lemma {:induction false} ReadRecordsIsSafe(read: Reader, b: Bytes, central: nat, cursor: nat, seen: Seen, n: nat)
    requires ReadsSafely(read, b, central) && seen.total <= MAX_TOTAL && ReadRecords(read, cursor, seen, n).Success?
    ensures var rs := ReadRecords(read, cursor, seen, n).value; |rs| == n && AllSafe(b, central, seen, rs)
    decreases n
  {
    if n > 0 {
      var step := read(cursor, seen).value;
      assert StepIsSafe(b, central, seen, step.record);
      ReadRecordsIsSafe(read, b, central, step.next, Note(seen, step.record), n - 1);
      PrependIsSafe(b, central, seen, step.record, ReadRecords(read, step.next, Note(seen, step.record), n - 1).value);
    }
  }

  /** What the end record found at `end` says of the records. */
  ghost predicate SafeDirectory(b: Bytes, end: nat, rs: seq<Record>)
    requires end + 22 <= |b|
  {
    && ReadU32(b, end + 16) < end
    && |rs| == ReadU16(b, end + 10) <= MAX_ENTRIES
    && AllSafe(b, ReadU32(b, end + 16), UNSEEN, rs)
  }

  lemma {:induction false} DirectoryIsSafe(codec: Codec, b: Bytes, end: nat)
    requires end + 22 <= |b| && ReadDirectory(codec, b, end).Success?
    ensures SafeDirectory(b, end, ReadDirectory(codec, b, end).value)
  {
    var central := ReadU32(b, end + 16);
    ReaderIsSafe(Span(codec, b, end, central));
    ReadRecordsIsSafe(ReaderOf(Span(codec, b, end, central)), b, central, central, UNSEEN, ReadU16(b, end + 10));
  }

  /** Every accepted buffer: as many entries as the end record counts, within the limits, with
      distinct names and compressed bytes before the central directory. */
  lemma {:induction false} ParserIsSafe(codec: Codec, b: Bytes, rs: seq<Record>)
    requires Reads(codec, b, Success(rs))
    ensures exists end: nat | IsEnd(b, end) ::
      && ReadU32(b, end + 16) < end
      && |rs| == ReadU16(b, end + 10) <= MAX_ENTRIES
      && forall i | 0 <= i < |rs| :: RecordOk(b, ReadU32(b, end + 16), rs[i])
    ensures DistinctPaths(rs) && Total(rs) <= MAX_TOTAL
  {
    var end: nat :| IsEnd(b, end) && Success(rs) == ReadDirectory(codec, b, end);
    DirectoryIsSafe(codec, b, end);
    assert SafeDirectory(b, end, rs);
  }

  lemma {:induction false} QuotientAbove(x: real, y: real, bound: real)
    requires y > 0.0 && x > bound * y
    ensures x / y > bound
  {
    if x / y <= bound {
      ProductGrows(x / y, bound, y);
      QuotientTimes(x, y);
    }
  }

  lemma {:induction false} QuotientNotAbove(x: real, y: real, bound: real)
    requires y > 0.0 && x <= bound * y
    ensures x / y <= bound
  {
    if x / y > bound {
      ProductGrowsStrictly(bound, x / y, y);
      QuotientTimes(x, y);
    }
  }

  lemma {:induction false} QuotientTimes(x: real, y: real)
    requires y > 0.0
    ensures x / y * y == x
  {
  }

  lemma {:induction false} ProductGrows(a: real, b: real, y: real)
    requires y > 0.0 && a <= b
    ensures a * y <= b * y
  {
  }

  lemma {:induction false} ProductGrowsStrictly(a: real, b: real, y: real)
    requires y > 0.0 && a < b
    ensures a * y < b * y
  {
  }

  /** A large entry is refused exactly when its sizes stand in a ratio above 250 and its name does not
      belong to a volatile directory. */
  lemma {:induction false} SuspiciousIff(codec: Codec, compressedSize: nat, uncompressedSize: nat, name: string)
    requires uncompressedSize > 1024 * 1024
    ensures Suspicious(codec, compressedSize, uncompressedSize, name)
       <==> compressedSize > 0 && uncompressedSize as real / compressedSize as real > 250.0 && !codec.volatile(name)
  {
    if compressedSize > 0 {
      RatioIff(compressedSize, uncompressedSize);
    }
  }

  lemma {:induction false} RatioIff(compressedSize: nat, uncompressedSize: nat)
    requires compressedSize > 0
    ensures uncompressedSize as real / compressedSize as real > 250.0 <==> uncompressedSize > 250 * compressedSize
  {
    if uncompressedSize > 250 * compressedSize {
      QuotientAbove(uncompressedSize as real, compressedSize as real, 250.0);
    } else {
      QuotientNotAbove(uncompressedSize as real, compressedSize as real, 250.0);
    }
  }

  // ---- Decompressing what was read ----

  function InflateAll(codec: Codec, rs: seq<Record>): Result<seq<Input>, ZipError> {
    if rs == [] then Success([])
    else
      match Inflate(codec, rs[0])
      case Failure(error) => Failure(error)
      case Success(data) =>
        match InflateAll(codec, rs[1..])
        case Failure(error) => Failure(error)
        case Success(rest) => Success([Input(rs[0].path, data)] + rest)
  }

  function TotalData(inputs: seq<Input>): nat {
    if inputs == [] then 0 else |inputs[0].data| + TotalData(inputs[1..])
  }

  lemma {:induction false} InflatesToDeclaredSizes(codec: Codec, rs: seq<Record>)
    requires InflateAll(codec, rs).Success?
    ensures var out := InflateAll(codec, rs).value;
      && |out| == |rs|
      && (forall i | 0 <= i < |rs| :: out[i].path == rs[i].path && Inflate(codec, rs[i]) == Success(out[i].data))
      && TotalData(out) == Total(rs)
  {
    if rs != [] {
      InflatesToDeclaredSizes(codec, rs[1..]);
      var out := InflateAll(codec, rs).value;
      assert out[1..] == InflateAll(codec, rs[1..]).value;
      forall i | 0 <= i < |rs| ensures out[i].path == rs[i].path && Inflate(codec, rs[i]) == Success(out[i].data) {
        if i > 0 {
          assert out[i] == out[1..][i - 1] && rs[i] == rs[1..][i - 1];
        }
      }
    }
  }

  /** Whatever the buffer and whatever decompression answers, what is unpacked stays within the limit. */
  lemma {:induction false} UnpackedIsBounded(codec: Codec, b: Bytes, rs: seq<Record>)
    requires Reads(codec, b, Success(rs)) && InflateAll(codec, rs).Success?
    ensures TotalData(InflateAll(codec, rs).value) <= MAX_TOTAL
  {
    ParserIsSafe(codec, b, rs);
    InflatesToDeclaredSizes(codec, rs);
  }
}
