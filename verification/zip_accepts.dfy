/** Exactly which buffers the reader accepts, what it reads from them, and what their entries
    decompress to, in terms of the bytes. */
module ZipAccepts {
  import opened Options
  import opened Words
  import opened ZipBytes
  import opened ZipWriter
  import opened ZipReader
  import opened ZipSafety
  import Crc

  // ---- One entry ----

  /** The compressed bytes of a record: behind the local header at `local` and its name and extra field. */
  ghost predicate LocalAt(b: Bytes, central: nat, local: nat, r: Record)
    requires central <= |b|
  {
    && local + 30 <= central
    && ReadU32(b, local) == 0x04034b50
    && var start := local + 30 + ReadU16(b, local + 26) + ReadU16(b, local + 28);
       start + r.compressedSize <= central && r.compressed == b[start..start + r.compressedSize]
  }

  /** The record of the central directory at `at` is `r`, and the next one stands at `next`. */
  ghost predicate CentralHolds(d: Directory, at: nat, r: Record, next: nat)
    requires at + 46 <= d.end
  {
    && ReadU32(d.b, at) == 0x02014b50
    && next == at + 46 + ReadU16(d.b, at + 28) + ReadU16(d.b, at + 30) + ReadU16(d.b, at + 32) && next <= d.end
    && r.path == d.codec.decode(d.b[at + 46..at + 46 + ReadU16(d.b, at + 28)])
    && r.compressionMethod == ReadU16(d.b, at + 10)
    && r.expectedCrc == ReadU32(d.b, at + 16)
    && r.compressedSize == ReadU32(d.b, at + 20)
    && r.uncompressedSize == ReadU32(d.b, at + 24)
  }

  /** The limits of one entry: named, at most 256 MiB, and not shrunk by more than 250 from over a megabyte. */
  predicate WithinLimits(codec: Codec, r: Record) {
    && r.path != ""
    && r.uncompressedSize <= 0x1000_0000
    && (r.uncompressedSize <= 0x10_0000 || r.compressedSize == 0 || r.uncompressedSize <= 250 * r.compressedSize || codec.volatile(r.path))
  }

  ghost predicate EntryAt(d: Directory, at: nat, r: Record, next: nat) {
    && at + 46 <= d.end
    && CentralHolds(d, at, r, next)
    && ReadU16(d.b, at + 8) % 2 == 0
    && WithinLimits(d.codec, r)
    && LocalAt(d.b, d.central, ReadU32(d.b, at + 42), r)
  }

  /** The entry is new, and the total stays within two gibibytes. */
  predicate Fits(seen: Seen, r: Record) {
    r.path !in seen.names && seen.total + r.uncompressedSize <= 0x8000_0000
  }

  lemma {:induction false} CheckEntryIff(codec: Codec, c: Central, seen: Seen, r: Record)
    requires r.compressedSize == c.compressedSize && r.uncompressedSize == c.uncompressedSize
    ensures CheckEntry(codec, c, r.path, seen) == None <==> c.flags % 2 == 0 && WithinLimits(codec, r) && Fits(seen, r)
  {
  }

  lemma {:induction false} LocalDataIff(b: Bytes, central: nat, c: Central, r: Record)
    requires central <= |b| && r.compressedSize == c.compressedSize
    ensures LocalData(b, central, c) == Success(r.compressed) <==> LocalAt(b, central, c.localOffset, r)
  {
  }

  /** The record that the fields at `at` give with the compressed bytes `data`. */
  lemma {:induction false} ReadRecordIff(d: Directory, at: nat, seen: Seen, r: Record, next: nat)
    ensures ReadRecord(d, at, seen) == Success(Step(r, next)) <==> EntryAt(d, at, r, next) && Fits(seen, r)
  {
    if at + 46 <= d.end {
      var c := CentralAt(d.b, at);
      if r.compressedSize == c.compressedSize && r.uncompressedSize == c.uncompressedSize {
        CheckEntryIff(d.codec, c, seen, r);
        LocalDataIff(d.b, d.central, c, r);
      }
    }
  }

  // ---- Why an entry is refused ----

  /** The faults an entry can have, each on its own; a fault of a record that is cut off says nothing of its fields. */
  ghost predicate HasFault(d: Directory, at: nat, seen: Seen, error: ZipError) {
    if error == CentralBounds then at + 46 > d.end
    else
      && at + 46 <= d.end
      && var next := at + 46 + ReadU16(d.b, at + 28) + ReadU16(d.b, at + 30) + ReadU16(d.b, at + 32);
         if error == CentralRecordInvalid then ReadU32(d.b, at) != 0x02014b50
         else if error == EntryBounds then next > d.end
         else next <= d.end && FieldFault(d, at, d.codec.decode(d.b[at + 46..at + 46 + ReadU16(d.b, at + 28)]), seen, error)
  }

  ghost predicate FieldFault(d: Directory, at: nat, name: string, seen: Seen, error: ZipError)
    requires at + 46 <= d.end
  {
    var compressed, size, local := ReadU32(d.b, at + 20), ReadU32(d.b, at + 24), ReadU32(d.b, at + 42);
    match error
    case DuplicateOrEmpty => name == "" || name in seen.names
    case Encrypted => ReadU16(d.b, at + 8) % 2 == 1
    case EntryTooLarge => size > 0x1000_0000
    case TotalTooLarge => seen.total + size > 0x8000_0000
    case SuspiciousRatio => size > 0x10_0000 && compressed > 0 && size > 250 * compressed && !d.codec.volatile(name)
    case LocalOffset => local + 30 > d.central
    case LocalRecordInvalid => local + 30 <= d.central && ReadU32(d.b, local) != 0x04034b50
    case DataBounds => local + 30 <= d.central && local + 30 + ReadU16(d.b, local + 26) + ReadU16(d.b, local + 28) + compressed > d.central
    case _ => false
  }

  /** The order in which the faults are looked for. */
  function Rank(error: ZipError): nat {
    match error
    case CentralBounds => 0
    case CentralRecordInvalid => 1
    case EntryBounds => 2
    case DuplicateOrEmpty => 3
    case Encrypted => 4
    case EntryTooLarge => 5
    case TotalTooLarge => 6
    case SuspiciousRatio => 7
    case LocalOffset => 8
    case LocalRecordInvalid => 9
    case DataBounds => 10
    case _ => 11
  }

  /** A refused entry is refused for its first fault. */
  lemma {:induction false} ReadRecordFails(d: Directory, at: nat, seen: Seen, error: ZipError)
    requires ReadRecord(d, at, seen) == Failure(error)
    ensures HasFault(d, at, seen, error) && forall other | Rank(other) < Rank(error) :: !HasFault(d, at, seen, other)
  {
    if at + 46 <= d.end && ReadU32(d.b, at) == CENTRAL_SIGNATURE {
      var c := CentralAt(d.b, at);
      if at + CentralLength(c) <= d.end {
        FinishRecordFails(d, at, c, NameAt(d.codec, d.b, at, c), seen, error);
      }
    }
  }

  lemma {:induction false} FinishRecordFails(d: Directory, at: nat, c: Central, name: string, seen: Seen,
                                             error: ZipError)
    requires at + 46 <= d.end && c == CentralAt(d.b, at)
    requires FinishRecord(d.codec, c, name, LocalData(d.b, d.central, c), at + CentralLength(c), seen) == Failure(error)
    ensures FieldFault(d, at, name, seen, error) && 3 <= Rank(error) <= 10
    ensures forall other | 3 <= Rank(other) < Rank(error) :: !FieldFault(d, at, name, seen, other)
  {
  }

  // ---- The walk ----

  type Entries = (nat, Record, nat) -> bool

  /** What the reader accepts at a place: an entry that fits what was seen so far. */
  ghost predicate ReadsEntry(read: Reader, entry: Entries, at: nat, seen: Seen, r: Record, next: nat) {
    read(at, seen) == Success(Step(r, next)) <==> entry(at, r, next) && Fits(seen, r)
  }

  ghost predicate ReadsEntries(read: Reader, entry: Entries) {
    forall at: nat, seen, r, next: nat :: ReadsEntry(read, entry, at, seen, r, next)
  }

  /** The entries stand one behind the other, from `cursors[0]` on. */
  ghost predicate InARow(entry: Entries, cursors: seq<nat>, rs: seq<Record>) {
    |cursors| == |rs| + 1 && forall i | 0 <= i < |rs| :: entry(cursors[i], rs[i], cursors[i + 1])
  }

  /** No name twice, none seen before, and all sizes together within two gibibytes. */
  ghost predicate AllFit(seen: Seen, rs: seq<Record>) {
    && DistinctPaths(rs)
    && (forall i | 0 <= i < |rs| :: rs[i].path !in seen.names)
    && seen.total + Total(rs) <= 0x8000_0000
  }

  lemma {:induction false} AllFitStep(seen: Seen, r: Record, rest: seq<Record>)
    ensures AllFit(seen, [r] + rest) <==> Fits(seen, r) && AllFit(Note(seen, r), rest)
  {
    var rs := [r] + rest;
    assert rs[1..] == rest;
    if AllFit(seen, rs) {
      assert rs[0] == r;
      forall i | 0 <= i < |rest| ensures rest[i].path !in Note(seen, r).names {
        assert rs[i + 1] == rest[i];
      }
      forall i, j | 0 <= i < j < |rest| ensures rest[i].path != rest[j].path {
        assert rs[i + 1] == rest[i] && rs[j + 1] == rest[j];
      }
    }
    if Fits(seen, r) && AllFit(Note(seen, r), rest) {
      forall i, j | 0 <= i < j < |rs| ensures rs[i].path != rs[j].path {
        assert rs[j] == rest[j - 1] && (i > 0 ==> rs[i] == rest[i - 1]);
      }
    }
  }

  ghost predicate RowFrom(entry: Entries, at: nat, rs: seq<Record>) {
    exists cursors :: InARow(entry, cursors, rs) && cursors[0] == at
  }

  lemma {:induction false} RowStep(entry: Entries, at: nat, r: Record, rest: seq<Record>)
    ensures RowFrom(entry, at, [r] + rest) <==> exists next :: entry(at, r, next) && RowFrom(entry, next, rest)
  {
    var rs := [r] + rest;
    if RowFrom(entry, at, rs) {
      var cursors :| InARow(entry, cursors, rs) && cursors[0] == at;
      assert rs[0] == r && entry(at, r, cursors[1]);
      forall i | 0 <= i < |rest| ensures entry(cursors[1..][i], rest[i], cursors[1..][i + 1]) {
        assert entry(cursors[i + 1], rs[i + 1], cursors[i + 2]);
      }
      assert InARow(entry, cursors[1..], rest);
    }
    if next :| entry(at, r, next) && RowFrom(entry, next, rest) {
      var cursors :| InARow(entry, cursors, rest) && cursors[0] == next;
      var whole := [at] + cursors;
      forall i | 0 <= i < |rs| ensures entry(whole[i], rs[i], whole[i + 1]) {
        if i > 0 {
          assert entry(cursors[i - 1], rest[i - 1], cursors[i]);
        }
      }
      assert InARow(entry, whole, rs);
    }
  }

  lemma {:induction false} NoneInARow(entry: Entries, at: nat)
    ensures RowFrom(entry, at, [])
  {
    assert InARow(entry, [at], []);
  }

  lemma {:induction false} WalkFindsEntries(read: Reader, entry: Entries, at: nat, seen: Seen, n: nat)
    requires ReadsEntries(read, entry) && seen.total <= 0x8000_0000 && ReadRecords(read, at, seen, n).Success?
    ensures var rs := ReadRecords(read, at, seen, n).value; |rs| == n && RowFrom(entry, at, rs) && AllFit(seen, rs)
    decreases n
  {
    if n == 0 {
      NoneInARow(entry, at);
    } else {
      var step := read(at, seen).value;
      assert ReadsEntry(read, entry, at, seen, step.record, step.next);
      WalkFindsEntries(read, entry, step.next, Note(seen, step.record), n - 1);
      var rest := ReadRecords(read, step.next, Note(seen, step.record), n - 1).value;
      RowStep(entry, at, step.record, rest);
      AllFitStep(seen, step.record, rest);
    }
  }

  lemma {:induction false} EntriesAreWalked(read: Reader, entry: Entries, at: nat, seen: Seen, rs: seq<Record>)
    requires ReadsEntries(read, entry) && RowFrom(entry, at, rs) && AllFit(seen, rs)
    ensures ReadRecords(read, at, seen, |rs|) == Success(rs)
    decreases |rs|
  {
    if rs != [] {
      var r, rest := rs[0], rs[1..];
      assert rs == [r] + rest;
      RowStep(entry, at, r, rest);
      AllFitStep(seen, r, rest);
      var next :| entry(at, r, next) && RowFrom(entry, next, rest);
      assert ReadsEntry(read, entry, at, seen, r, next);
      EntriesAreWalked(read, entry, next, Note(seen, r), rest);
    }
  }

  /** The walk succeeds exactly on entries that stand in a row and fit together. */
  lemma {:induction false} ReadRecordsIff(read: Reader, entry: Entries, at: nat, seen: Seen, n: nat, rs: seq<Record>)
    requires ReadsEntries(read, entry) && seen.total <= 0x8000_0000
    ensures ReadRecords(read, at, seen, n) == Success(rs) <==> |rs| == n && RowFrom(entry, at, rs) && AllFit(seen, rs)
  {
    if ReadRecords(read, at, seen, n).Success? {
      WalkFindsEntries(read, entry, at, seen, n);
    }
    if |rs| == n && RowFrom(entry, at, rs) && AllFit(seen, rs) {
      EntriesAreWalked(read, entry, at, seen, rs);
    }
  }

  ghost function EntriesOf(d: Directory): Entries {
    (at: nat, r: Record, next: nat) => EntryAt(d, at, r, next)
  }

  lemma {:induction false} ReaderReadsAt(d: Directory, at: nat, seen: Seen, r: Record, next: nat)
    ensures ReadsEntry(ReaderOf(d), EntriesOf(d), at, seen, r, next)
  {
    ReadRecordIff(d, at, seen, r, next);
    assert ReaderOf(d)(at, seen) == ReadRecord(d, at, seen);
  }

  lemma {:induction false} ReaderReads(d: Directory)
    ensures ReadsEntries(ReaderOf(d), EntriesOf(d))
  {
    var read, entry := ReaderOf(d), EntriesOf(d);
    forall at: nat, seen, r, next: nat ensures ReadsEntry(read, entry, at, seen, r, next) {
      ReaderReadsAt(d, at, seen, r, next);
    }
  }

  // ---- The whole buffer ----

  /** The archive a buffer is, as its end record at `end` describes it. */
  ghost predicate IsArchive(codec: Codec, b: Bytes, end: nat, rs: seq<Record>)
    requires end + 22 <= |b|
  {
    && |rs| == ReadU16(b, end + 10) <= 10_000
    && ReadU32(b, end + 16) < end
    && RowFrom(EntriesOf(Span(codec, b, end, ReadU32(b, end + 16))), ReadU32(b, end + 16), rs)
    && AllFit(Seen({}, 0), rs)
  }

  lemma {:induction false} ReadDirectoryIff(codec: Codec, b: Bytes, end: nat, rs: seq<Record>)
    requires end + 22 <= |b|
    ensures ReadDirectory(codec, b, end) == Success(rs) <==> IsArchive(codec, b, end, rs)
  {
    var central := ReadU32(b, end + 16);
    if central < end {
      var d := Span(codec, b, end, central);
      ReaderReads(d);
      ReadRecordsIff(ReaderOf(d), EntriesOf(d), central, UNSEEN, ReadU16(b, end + 10), rs);
    }
  }

  /** A directory is refused for its counts before any entry is looked at. */
  lemma {:induction false} ReadDirectoryFails(codec: Codec, b: Bytes, end: nat)
    requires end + 22 <= |b|
    ensures ReadU16(b, end + 10) > 10_000 ==> ReadDirectory(codec, b, end) == Failure(TooManyFiles)
    ensures ReadU16(b, end + 10) <= 10_000 && ReadU32(b, end + 16) >= end ==> ReadDirectory(codec, b, end) == Failure(CentralOffset)
  {
  }

  /** The last end record within the last 65557 bytes. */
  ghost predicate LastEnd(b: Bytes, end: nat) {
    && |b| - 65_557 <= end && end + 22 <= |b|
    && ReadU32(b, end) == 0x06054b50
    && forall k: nat | end < k && k + 22 <= |b| :: ReadU32(b, k) != 0x06054b50
  }

  /** A buffer is read as `rs` exactly when it has at most 512 MiB and is the archive of those records. */
  lemma {:induction false} AcceptsIff(codec: Codec, b: Bytes, rs: seq<Record>)
    ensures Reads(codec, b, Success(rs)) <==> |b| <= 0x2000_0000 && exists end: nat :: LastEnd(b, end) && IsArchive(codec, b, end, rs)
  {
    if Reads(codec, b, Success(rs)) {
      var end: nat :| IsEnd(b, end) && Success(rs) == ReadDirectory(codec, b, end);
      ReadDirectoryIff(codec, b, end, rs);
      assert LastEnd(b, end);
    }
    if |b| <= 0x2000_0000 {
      if end: nat :| LastEnd(b, end) && IsArchive(codec, b, end, rs) {
        ReadDirectoryIff(codec, b, end, rs);
        assert IsEnd(b, end);
        NoEndHasNone(b, end);
      }
    }
  }

  // ---- Decompression ----

  /** What the compression method makes of the compressed bytes: method 8 inflates them, up to one byte beyond the
      declared size, and method 0 is the bytes themselves; no other method gives anything. */
  ghost predicate Gives(codec: Codec, r: Record, data: Bytes) {
    || (r.compressionMethod == 8
        && codec.inflate(r.compressed, if r.uncompressedSize < 0x1000_0000 then r.uncompressedSize + 1 else 0x1000_0000) == Some(data))
    || (r.compressionMethod == 0 && data == r.compressed)
  }

  /** The data has the size and the checksum that the record names. */
  ghost predicate Intact(codec: Codec, r: Record, data: Bytes) {
    Gives(codec, r, data) && |data| == r.uncompressedSize && Value(Crc.Crc32(data)) == r.expectedCrc
  }

  /** An entry decompresses to the data its method gives, if that is intact, and to nothing else. */
  lemma {:induction false} InflateIff(codec: Codec, r: Record, data: Bytes)
    ensures Inflate(codec, r) == Success(data) <==> Intact(codec, r, data)
  {
  }

  /** Why an entry does not decompress. */
  lemma {:induction false} InflateFails(codec: Codec, r: Record)
    ensures Inflate(codec, r) == Failure(UnsupportedMethod) <==> r.compressionMethod != 0 && r.compressionMethod != 8
    ensures Inflate(codec, r) == Failure(SizeMismatch) <==> exists data :: Gives(codec, r, data) && |data| != r.uncompressedSize
    ensures Inflate(codec, r) == Failure(CrcMismatch) <==>
      exists data :: Gives(codec, r, data) && |data| == r.uncompressedSize && Value(Crc.Crc32(data)) != r.expectedCrc
    ensures Inflate(codec, r) == Failure(Corrupt) <==> r.compressionMethod == 8 && forall data :: !Gives(codec, r, data)
  {
    if r.compressionMethod == 0 {
      assert Gives(codec, r, r.compressed);
    } else if r.compressionMethod == 8 {
      var inflated := codec.inflate(r.compressed, Min(MAX_ENTRY, r.uncompressedSize + 1));
      if inflated.Some? {
        assert Gives(codec, r, inflated.value);
      }
    }
  }

  /** A list of files is what the entries decompress to. */
  ghost predicate AllIntact(codec: Codec, rs: seq<Record>, out: seq<Input>) {
    |out| == |rs| && forall i | 0 <= i < |rs| :: out[i].path == rs[i].path && Intact(codec, rs[i], out[i].data)
  }

  lemma {:induction false} InflateAllIff(codec: Codec, rs: seq<Record>, out: seq<Input>)
    ensures InflateAll(codec, rs) == Success(out) <==> AllIntact(codec, rs, out)
  {
    if InflateAll(codec, rs) == Success(out) {
      InflatesToDeclaredSizes(codec, rs);
      forall i | 0 <= i < |rs| ensures out[i].path == rs[i].path && Intact(codec, rs[i], out[i].data) {
        InflateIff(codec, rs[i], out[i].data);
      }
    }
    if AllIntact(codec, rs, out) {
      if rs != [] {
        InflateIff(codec, rs[0], out[0].data);
        InflateAllIff(codec, rs[1..], out[1..]);
        assert out == [Input(rs[0].path, out[0].data)] + out[1..];
      }
    }
  }

  /** A record of the central directory, which ends at `end`, names this path, size and checksum. */
  ghost predicate CentralNames(codec: Codec, b: Bytes, end: nat, file: Input) {
    && end + 22 <= |b|
    && exists at: nat | at + 46 <= end ::
         && at + 46 + ReadU16(b, at + 28) <= end && ReadU32(b, at) == 0x02014b50 && file.path == codec.decode(b[at + 46..at + 46 + ReadU16(b, at + 28)])
         && ReadU32(b, at + 24) == |file.data| && ReadU32(b, at + 16) == Value(Crc.Crc32(file.data))
  }

  lemma {:induction false} EntryNames(d: Directory, at: nat, r: Record, next: nat, file: Input)
    requires d.end + 22 <= |d.b| && EntryAt(d, at, r, next) && file.path == r.path && Intact(d.codec, r, file.data)
    ensures CentralNames(d.codec, d.b, d.end, file)
  {
  }

  /** Whatever is unpacked from a buffer stays within the total limit and has, entry by entry, the size and the
      checksum that its central record names. */
  lemma {:induction false} UnpackedIsIntact(codec: Codec, b: Bytes, rs: seq<Record>, out: seq<Input>)
    requires Reads(codec, b, Success(rs)) && InflateAll(codec, rs) == Success(out)
    ensures exists end: nat :: LastEnd(b, end) && forall file | file in out :: CentralNames(codec, b, end, file)
    ensures TotalData(out) <= MAX_TOTAL
  {
    UnpackedIsBounded(codec, b, rs);
    AcceptsIff(codec, b, rs);
    var end: nat :| LastEnd(b, end) && IsArchive(codec, b, end, rs);
    var d: Directory := Span(codec, b, end, ReadU32(b, end + 16));
    var cursors :| InARow(EntriesOf(d), cursors, rs) && cursors[0] == d.central;
    InflateAllIff(codec, rs, out);
    forall file | file in out ensures CentralNames(codec, b, end, file) {
      var i: nat :| i < |out| && out[i] == file;
      assert EntriesOf(d)(cursors[i], rs[i], cursors[i + 1]);
      EntryNames(d, cursors[i], rs[i], cursors[i + 1], file);
    }
  }
}
