/** The archive reader: the scan for the end record, the walk over the central directory with
    its limits, and the checked decompression of one entry. */
module ZipReader {
  import opened Options
  import opened Words
  import opened ZipBytes
  import opened ZipWriter
  import Crc

  const MAX_ARCHIVE: nat := 512 * 1024 * 1024
  const MAX_ENTRY: nat := 256 * 1024 * 1024
  const MAX_TOTAL: nat := 2 * 1024 * 1024 * 1024
  const MAX_ENTRIES: nat := 10_000
  const MAX_RATIO: nat := 250

  datatype ZipError =
    | ArchiveTooLarge | NotAnArchive | TooManyFiles | CentralOffset | CentralBounds | CentralRecordInvalid | EntryBounds
    | DuplicateOrEmpty | Encrypted | EntryTooLarge | TotalTooLarge | SuspiciousRatio | LocalOffset | LocalRecordInvalid
    | DataBounds | UnsupportedMethod | Corrupt | SizeMismatch | CrcMismatch

  datatype Record = Record(path: string, compressed: Bytes, compressedSize: nat, uncompressedSize: nat, compressionMethod: nat, expectedCrc: nat)

  /** The fields of a central directory record the reader uses. */
  datatype Central = Central(
    flags: nat, compressionMethod: nat, crc: nat, compressedSize: nat, uncompressedSize: nat, nameLength: nat, extraLength: nat,
    commentLength: nat, localOffset: nat)

  function CentralAt(b: Bytes, at: nat): Central
    requires at + 46 <= |b|
  {
    Central(ReadU16(b, at + 8), ReadU16(b, at + 10), ReadU32(b, at + 16), ReadU32(b, at + 20), ReadU32(b, at + 24),
            ReadU16(b, at + 28), ReadU16(b, at + 30), ReadU16(b, at + 32), ReadU32(b, at + 42))
  }

  function CentralLength(c: Central): nat {
    46 + c.nameLength + c.extraLength + c.commentLength
  }

  function Min(a: int, b: int): int {
    if a < b then a else b
  }

  function Max(a: int, b: int): int {
    if a < b then b else a
  }

  // ---- The end record ----

  /** `at` is where the end record is found: the last signature in the scanned window. */
  ghost predicate IsEnd(b: Bytes, at: int) {
    && Max(0, |b| - 0xffff - 22) <= at <= |b| - 22
    && ReadU32(b, at) == END_SIGNATURE
    && forall k | at < k <= |b| - 22 :: ReadU32(b, k) != END_SIGNATURE
  }

  ghost predicate HasNoEnd(b: Bytes) {
    forall k | Max(0, |b| - 0xffff - 22) <= k <= |b| - 22 :: ReadU32(b, k) != END_SIGNATURE
  }

  method FindEnd(b: Bytes) returns (r: Option<nat>)
    ensures r.Some? ==> IsEnd(b, r.value)
    ensures r.None? ==> HasNoEnd(b)
  {
    var min := Max(0, |b| - 0xffff - 22);
    var offset := |b| - 22;
    while offset >= min
      invariant offset <= |b| - 22
      invariant forall k | offset < k <= |b| - 22 && k >= min :: ReadU32(b, k) != END_SIGNATURE
    {
      if ReadU32(b, offset) == END_SIGNATURE {
        return Some(offset);
      }
      offset := offset - 1;
    }
    r := None;
  }

  // ---- The central directory ----

  /** What the walk over the central directory has seen so far. */
  datatype Seen = Seen(names: set<string>, total: nat)

  /** The checks on the fields of one entry, in the order they are made. */
  function CheckEntry(codec: Codec, c: Central, name: string, seen: Seen): Option<ZipError> {
    if name == "" || name in seen.names then Some(DuplicateOrEmpty)
    else if c.flags % 2 == 1 then Some(Encrypted)
    else if c.uncompressedSize > MAX_ENTRY then Some(EntryTooLarge)
    else if seen.total + c.uncompressedSize > MAX_TOTAL then Some(TotalTooLarge)
    else if Suspicious(codec, c.compressedSize, c.uncompressedSize, name) then Some(SuspiciousRatio)
    else None
  }

  /** More than a megabyte that shrank by more than the permitted ratio. */
  predicate Suspicious(codec: Codec, compressedSize: nat, uncompressedSize: nat, name: string) {
    && uncompressedSize > 1024 * 1024
    && compressedSize > 0
    && uncompressedSize > MAX_RATIO * compressedSize
    && !codec.volatile(name)
  }

  /** The compressed bytes a central record points at. */
  function LocalData(b: Bytes, central: nat, c: Central): Result<Bytes, ZipError>
    requires central <= |b|
  {
    if c.localOffset + 30 > central then Failure(LocalOffset)
    else if ReadU32(b, c.localOffset) != LOCAL_SIGNATURE then Failure(LocalRecordInvalid)
    else
      var start := c.localOffset + 30 + ReadU16(b, c.localOffset + 26) + ReadU16(b, c.localOffset + 28);
      if start + c.compressedSize > central then Failure(DataBounds)
      else Success(b[start..start + c.compressedSize])
  }

  function NameAt(codec: Codec, b: Bytes, cursor: nat, c: Central): string
    requires cursor + 46 + c.nameLength <= |b|
  {
    codec.decode(b[cursor + 46..cursor + 46 + c.nameLength])
  }

  /** A buffer whose central directory lies between `central` and `end`. */
  datatype Span = Span(codec: Codec, b: Bytes, end: nat, central: nat)

  type Directory = d: Span | d.central <= d.end <= |d.b|
    witness Span(Codec(b => b, (b, n) => None, s => [], b => "", s => false), [], 0, 0)

  /** One record and where the next one starts. */
  datatype Step = Step(record: Record, next: nat)

  /** One step of the walk. */
  function ReadRecord(d: Directory, cursor: nat, seen: Seen): Result<Step, ZipError> {
    if cursor + 46 > d.end then Failure(CentralBounds)
    else if ReadU32(d.b, cursor) != CENTRAL_SIGNATURE then Failure(CentralRecordInvalid)
    else
      var c := CentralAt(d.b, cursor);
      if cursor + CentralLength(c) > d.end then Failure(EntryBounds)
      else FinishRecord(d.codec, c, NameAt(d.codec, d.b, cursor, c), LocalData(d.b, d.central, c), cursor + CentralLength(c), seen)
  }

  /** The record, if its fields and its local data pass. */
  function FinishRecord(codec: Codec, c: Central, name: string, local: Result<Bytes, ZipError>, next: nat, seen: Seen): Result<Step, ZipError>
  {
    match CheckEntry(codec, c, name, seen)
    case Some(error) => Failure(error)
    case None =>
      match local
      case Failure(error) => Failure(error)
      case Success(data) =>
        Success(Step(Record(name, data, c.compressedSize, c.uncompressedSize, c.compressionMethod, c.crc), next))
  }

  function Note(seen: Seen, r: Record): Seen {
    Seen(seen.names + {r.path}, seen.total + r.uncompressedSize)
  }

  type Reader = (nat, Seen) -> Result<Step, ZipError>

  /** The walk from `cursor` over `n` more records. */
  function ReadRecords(read: Reader, cursor: nat, seen: Seen, n: nat): Result<seq<Record>, ZipError>
    decreases n
  {
    if n == 0 then Success([])
    else
      match read(cursor, seen)
      case Failure(error) => Failure(error)
      case Success(step) => Prepend([step.record], ReadRecords(read, step.next, Note(seen, step.record), n - 1))
  }

  function ReaderOf(d: Directory): Reader {
    (cursor: nat, seen: Seen) => ReadRecord(d, cursor, seen)
  }

  const UNSEEN := Seen({}, 0)

  /** The walk that starts at the end record found at `end`. */
  function ReadDirectory(codec: Codec, b: Bytes, end: nat): Result<seq<Record>, ZipError>
    requires end + 22 <= |b|
  {
    var count := ReadU16(b, end + 10);
    var central := ReadU32(b, end + 16);
    if count > MAX_ENTRIES then Failure(TooManyFiles)
    else if central >= end then Failure(CentralOffset)
    else ReadRecords(ReaderOf(Span(codec, b, end, central)), central, UNSEEN, count)
  }

  /** The outcome of reading a whole buffer. */
  ghost predicate Reads(codec: Codec, b: Bytes, r: Result<seq<Record>, ZipError>) {
    if |b| > MAX_ARCHIVE then r == Failure(ArchiveTooLarge)
    else if HasNoEnd(b) then r == Failure(NotAnArchive)
    else exists end: nat | IsEnd(b, end) :: r == ReadDirectory(codec, b, end)
  }

  lemma {:induction false} NoEndHasNone(b: Bytes, at: nat)
    requires IsEnd(b, at)
    ensures !HasNoEnd(b)
  {
  }

  function Prepend(done: seq<Record>, rest: Result<seq<Record>, ZipError>): Result<seq<Record>, ZipError> {
    match rest
    case Failure(error) => Failure(error)
    case Success(records) => Success(done + records)
  }

  lemma {:induction false} PrependNone(rest: Result<seq<Record>, ZipError>)
    ensures Prepend([], rest) == rest
  {
    match rest
    case Failure(_) =>
    case Success(records) => assert [] + records == records;
  }

  lemma {:induction false} PrependOne(done: seq<Record>, r: Record, rest: Result<seq<Record>, ZipError>)
    ensures Prepend(done + [r], rest) == Prepend(done, Prepend([r], rest))
  {
    match rest
    case Failure(_) =>
    case Success(records) => assert done + [r] + records == done + ([r] + records);
  }

  /** The walk as a loop that advances a cursor. */
  method WalkDirectory(read: Reader, central: nat, count: nat) returns (r: Result<seq<Record>, ZipError>)
    ensures r == ReadRecords(read, central, UNSEEN, count)
  {
    var entries: seq<Record> := [];
    var seen := UNSEEN;
    var cursor := central;
    PrependNone(ReadRecords(read, central, UNSEEN, count));
    for i := 0 to count
      invariant ReadRecords(read, central, UNSEEN, count) == Prepend(entries, ReadRecords(read, cursor, seen, count - i))
    {
      var step := read(cursor, seen);
      if step.Failure? {
        return Failure(step.error);
      }
      var record := step.value.record;
      PrependOne(entries, record, ReadRecords(read, step.value.next, Note(seen, record), count - i - 1));
      entries := entries + [record];
      cursor := step.value.next;
      seen := Note(seen, record);
    }
    assert entries + [] == entries;
    r := Success(entries);
  }

  method ParseRecords(codec: Codec, b: Bytes) returns (r: Result<seq<Record>, ZipError>)
    ensures Reads(codec, b, r)
  {
    if |b| > MAX_ARCHIVE {
      return Failure(ArchiveTooLarge);
    }
    var found := FindEnd(b);
    if found.None? {
      return Failure(NotAnArchive);
    }
    var end := found.value;
    NoEndHasNone(b, end);
    var count := ReadU16(b, end + 10);
    if count > MAX_ENTRIES {
      return Failure(TooManyFiles);
    }
    var central := ReadU32(b, end + 16);
    if central >= end {
      return Failure(CentralOffset);
    }
    r := WalkDirectory(ReaderOf(Span(codec, b, end, central)), central, count);
  }

  // ---- Decompression ----

  function Inflate(codec: Codec, r: Record): Result<Bytes, ZipError> {
    if r.compressionMethod == 8 then
      match codec.inflate(r.compressed, Min(MAX_ENTRY, r.uncompressedSize + 1))
      case None => Failure(Corrupt)
      case Some(data) => CheckData(r, data)
    else if r.compressionMethod == 0 then CheckData(r, r.compressed)
    else Failure(UnsupportedMethod)
  }

  function CheckData(r: Record, data: Bytes): Result<Bytes, ZipError> {
    if |data| != r.uncompressedSize then Failure(SizeMismatch)
    else if Value(Crc.Crc32(data)) != r.expectedCrc then Failure(CrcMismatch)
    else Success(data)
  }
}
