/** Reading back what was written: it succeeds with the same names and bytes exactly when the
    entries meet what the reader demands and the writer does not check. */
module ZipRoundTrip {
  import opened Options
  import opened Words
  import opened ZipBytes
  import opened ZipWriter
  import opened ZipReader
  import opened ZipSafety
  import Crc

  /** Decompression undoes compression when its limit allows the size. */
  ghost predicate Lawful(codec: Codec) {
    forall d: Bytes, m: nat | |d| <= m :: codec.inflate(codec.deflate(d), m) == Some(d)
  }

  // ---- The fields read back ----

  function FieldsOf(e: Entry): Central {
    Central(0x0800, 8, e.crc, |e.compressed|, |e.data|, |e.name|, 0, 0, e.offset)
  }

  /** The values fit their fields. */
  predicate Fits(e: Entry) {
    && e.crc < 0x1_0000_0000
    && |e.compressed| < 0x1_0000_0000
    && |e.data| < 0x1_0000_0000
    && |e.name| < 0x1_0000
    && e.offset < 0x1_0000_0000
  }

  lemma {:induction false} SizesReadBack(b: Bytes, at: nat, e: Entry)
    requires Fits(e) && Placed(b, at, CentralSizes(e))
    ensures at + 28 <= |b| && ReadU32(b, at) == CENTRAL_SIGNATURE && ReadU16(b, at + 8) == 0x0800 && ReadU16(b, at + 10) == 8
    ensures ReadU32(b, at + 16) == e.crc && ReadU32(b, at + 20) == |e.compressed| && ReadU32(b, at + 24) == |e.data|
  {
    var s := CentralSizes(e);
    PlacedWithin(b, at, s, 0, U32(CENTRAL_SIGNATURE));
    PlacedWithin(b, at, s, 8, U16(0x0800));
    PlacedWithin(b, at, s, 10, U16(8));
    PlacedWithin(b, at, s, 16, U32(e.crc));
    PlacedWithin(b, at, s, 20, U32(|e.compressed|));
    PlacedWithin(b, at, s, 24, U32(|e.data|));
    ReadsU32(b, at, CENTRAL_SIGNATURE);
    ReadsU16(b, at + 8, 0x0800);
    ReadsU16(b, at + 10, 8);
    ReadsU32(b, at + 16, e.crc);
    ReadsU32(b, at + 20, |e.compressed|);
    ReadsU32(b, at + 24, |e.data|);
  }

  lemma {:induction false} PlaceReadsBack(b: Bytes, at: nat, e: Entry)
    requires Fits(e) && Placed(b, at, CentralPlace(e))
    ensures at + 18 <= |b| && ReadU16(b, at) == |e.name| && ReadU16(b, at + 2) == 0 && ReadU16(b, at + 4) == 0
    ensures ReadU32(b, at + 14) == e.offset
  {
    var s := CentralPlace(e);
    PlacedWithin(b, at, s, 0, U16(|e.name|));
    PlacedWithin(b, at, s, 2, U16(0));
    PlacedWithin(b, at, s, 4, U16(0));
    PlacedWithin(b, at, s, 14, U32(e.offset));
    ReadsU16(b, at, |e.name|);
    ReadsU16(b, at + 2, 0);
    ReadsU16(b, at + 4, 0);
    ReadsU32(b, at + 14, e.offset);
  }

  lemma {:induction false} CentralReadsBack(b: Bytes, at: nat, e: Entry)
    requires Fits(e) && Placed(b, at, CentralRecord(e))
    ensures at + 46 + |e.name| <= |b| && ReadU32(b, at) == CENTRAL_SIGNATURE && CentralAt(b, at) == FieldsOf(e)
    ensures b[at + 46..at + 46 + |e.name|] == e.name
  {
    SplitPlaced(b, at, CentralSizes(e) + CentralPlace(e), e.name);
    SplitPlaced(b, at, CentralSizes(e), CentralPlace(e));
    SizesReadBack(b, at, e);
    PlaceReadsBack(b, at + 28, e);
  }

  lemma {:induction false} LocalReadsBack(b: Bytes, central: nat, e: Entry)
    requires Fits(e) && central <= |b|
    requires Placed(b, e.offset, LocalRecord(e)) && e.offset + |LocalRecord(e)| <= central
    ensures LocalData(b, central, FieldsOf(e)) == Success(e.compressed)
  {
    SplitPlaced(b, e.offset, LocalHead(e) + e.name, e.compressed);
    SplitPlaced(b, e.offset, LocalHead(e), e.name);
    PlacedWithin(b, e.offset, LocalHead(e), 0, U32(LOCAL_SIGNATURE));
    PlacedWithin(b, e.offset, LocalHead(e), 26, U16(|e.name|));
    PlacedWithin(b, e.offset, LocalHead(e), 28, U16(0));
    ReadsU32(b, e.offset, LOCAL_SIGNATURE);
    ReadsU16(b, e.offset + 26, |e.name|);
    ReadsU16(b, e.offset + 28, 0);
  }

  // ---- The walk over a written archive ----

  function RecordOf(codec: Codec, e: Entry): Record {
    Record(codec.decode(e.name), e.compressed, |e.compressed|, |e.data|, 8, e.crc)
  }

  /** Entry `e` is read at `from`, or refused by the checks on its fields. */
  ghost predicate RecordReadsBack(read: Reader, codec: Codec, e: Entry, from: nat, to: nat, seen: Seen) {
    if Accepted(codec, e, seen) then read(from, seen) == Success(Step(RecordOf(codec, e), to))
    else read(from, seen).Failure?
  }

  predicate Accepted(codec: Codec, e: Entry, seen: Seen) {
    CheckEntry(codec, FieldsOf(e), codec.decode(e.name), seen).None?
  }

  /** An entry's two records stand in the buffer where the reader looks for them. */
  ghost predicate EntryLaidOut(layout: Layout, b: Bytes, e: Entry, from: nat, to: nat, start: nat, end: nat) {
    && Fits(e)
    && Placed(b, from, layout.central(e))
    && from + |layout.central(e)| == to <= end
    && Placed(b, e.offset, layout.local(e))
    && e.offset + |layout.local(e)| <= start
  }

  /** What the reader reads at `from` when entry `e` was written there. */
  ghost predicate FieldsRead(d: Directory, e: Entry, from: nat, to: nat) {
    && from + 46 + |e.name| == to <= d.end
    && ReadU32(d.b, from) == CENTRAL_SIGNATURE
    && CentralAt(d.b, from) == FieldsOf(e)
    && d.b[from + 46..from + 46 + |e.name|] == e.name
    && LocalData(d.b, d.central, FieldsOf(e)) == Success(e.compressed)
  }

  lemma {:induction false} WrittenFieldsRead(d: Directory, e: Entry, from: nat, to: nat)
    requires EntryLaidOut(ZIP, d.b, e, from, to, d.central, d.end)
    ensures FieldsRead(d, e, from, to)
  {
    CentralReadsBack(d.b, from, e);
    LocalReadsBack(d.b, d.central, e);
  }

  lemma {:induction false} ReadRecordByFields(d: Directory, e: Entry, from: nat, to: nat, seen: Seen)
    requires FieldsRead(d, e, from, to)
    ensures ReadRecord(d, from, seen) == FinishRecord(d.codec, FieldsOf(e), d.codec.decode(e.name), Success(e.compressed), to, seen)
  {
  }

  /** The reader of one written record: it accepts by the checks on the fields alone. */
  lemma {:induction false} WrittenRecordReadsBack(d: Directory, e: Entry, from: nat, to: nat, seen: Seen)
    requires FieldsRead(d, e, from, to)
    ensures RecordReadsBack(ReaderOf(d), d.codec, e, from, to, seen)
  {
    ReadRecordByFields(d, e, from, to, seen);
  }

  ghost predicate ReadsBackAt(read: Reader, codec: Codec, entries: seq<Entry>, position: seq<nat>, i: nat, seen: Seen)
    requires i < |entries| && |position| == |entries| + 1
  {
    RecordReadsBack(read, codec, entries[i], position[i], position[i + 1], seen)
  }

  /** The walk reads the entries back from their positions. */
  ghost predicate ReadsBack(read: Reader, codec: Codec, entries: seq<Entry>, position: seq<nat>)
    requires |position| == |entries| + 1
  {
    forall i: nat, seen | i < |entries| :: ReadsBackAt(read, codec, entries, position, i, seen)
  }

  /** What has been seen before entry `i`. */
  function SeenBefore(codec: Codec, entries: seq<Entry>, i: nat): Seen
    requires i <= |entries|
  {
    if i == 0 then UNSEEN else Note(SeenBefore(codec, entries, i - 1), RecordOf(codec, entries[i - 1]))
  }

  function RecordsFrom(codec: Codec, entries: seq<Entry>, i: nat): seq<Record>
    requires i <= |entries|
    decreases |entries| - i
  {
    if i == |entries| then [] else [RecordOf(codec, entries[i])] + RecordsFrom(codec, entries, i + 1)
  }

  ghost predicate AllAccepted(codec: Codec, entries: seq<Entry>, i: nat)
    requires i <= |entries|
  {
    forall k: nat | i <= k < |entries| :: Accepted(codec, entries[k], SeenBefore(codec, entries, k))
  }

  lemma {:induction false} WalkReadsBack(read: Reader, codec: Codec, entries: seq<Entry>, position: seq<nat>, i: nat)
    requires |position| == |entries| + 1 && i <= |entries| && ReadsBack(read, codec, entries, position)
    ensures var r := ReadRecords(read, position[i], SeenBefore(codec, entries, i), |entries| - i);
      && (r.Success? <==> AllAccepted(codec, entries, i))
      && (r.Success? ==> r.value == RecordsFrom(codec, entries, i))
    decreases |entries| - i
  {
    if i < |entries| {
      var seen := SeenBefore(codec, entries, i);
      assert ReadsBackAt(read, codec, entries, position, i, seen);
      if Accepted(codec, entries[i], seen) {
        assert Note(seen, RecordOf(codec, entries[i])) == SeenBefore(codec, entries, i + 1);
        WalkReadsBack(read, codec, entries, position, i + 1);
        assert AllAccepted(codec, entries, i) <==> AllAccepted(codec, entries, i + 1);
      }
    }
  }

  // ---- The whole archive ----

  /** The sizes of the first `i` entries. */
  function SumSizes(inputs: seq<Input>, i: nat): nat
    requires i <= |inputs|
  {
    if i == 0 then 0 else SumSizes(inputs, i - 1) + |inputs[i - 1].data|
  }

  /** What the export checks, and what its 16-bit fields hold. */
  ghost predicate Exportable(codec: Codec, layout: Layout, inputs: seq<Input>) {
    && NamesFit(Entries(codec, inputs))
    && |inputs| <= MAX_ENTRIES
    && SumSizes(inputs, |inputs|) <= MAX_TOTAL
    && |Archive(codec, layout, inputs)| <= MAX_ARCHIVE
  }

  /** What the import demands beyond that. */
  ghost predicate Importable(codec: Codec, inputs: seq<Input>) {
    && |inputs| > 0
    && (forall i | 0 <= i < |inputs| :: InputOk(codec, inputs[i]))
    && (forall i, j | 0 <= i < j < |inputs| :: inputs[i].path != inputs[j].path)
  }

  predicate InputOk(codec: Codec, input: Input) {
    && input.path != ""
    && codec.decode(codec.encode(input.path)) == input.path
    && |input.data| <= MAX_ENTRY
    && !Suspicious(codec, |codec.deflate(input.data)|, |input.data|, input.path)
  }

  predicate NamesSurvive(codec: Codec, inputs: seq<Input>) {
    forall k | 0 <= k < |inputs| :: codec.decode(codec.encode(inputs[k].path)) == inputs[k].path
  }

  lemma {:induction false} SumGrows(inputs: seq<Input>, i: nat, n: nat)
    requires i <= n <= |inputs|
    ensures SumSizes(inputs, i) <= SumSizes(inputs, n)
  {
    if i < n {
      SumGrows(inputs, i, n - 1);
    }
  }

  lemma {:induction false} OffsetGrows(codec: Codec, inputs: seq<Input>, i: nat, n: nat)
    requires i <= n <= |inputs|
    ensures Prepared(codec, inputs, i).offset <= Prepared(codec, inputs, n).offset
  {
    if i < n {
      OffsetGrows(codec, inputs, i, n - 1);
    }
  }

  lemma {:induction false} SumFits(data: Bytes)
    ensures Value(Crc.Crc32(data)) < 0x1_0000_0000
  {
    ValueBound(Crc.Crc32(data));
    assert Power2(8) == 256;
    PowerAdds(8, 8);
    PowerAdds(16, 16);
  }

  lemma {:induction false} PowerAdds(a: nat, b: nat)
    ensures Power2(a + b) == Power2(a) * Power2(b)
  {
    if a > 0 {
      PowerAdds(a - 1, b);
    }
  }

  lemma {:induction false} EntryFits(codec: Codec, layout: Layout, inputs: seq<Input>, i: nat)
    requires CountsLocals(layout) && Exportable(codec, layout, inputs) && i < |inputs|
    ensures Fits(Entries(codec, inputs)[i])
  {
    var e := Entries(codec, inputs)[i];
    EntryIs(codec, inputs, i);
    SumFits(inputs[i].data);
    SumGrows(inputs, i + 1, |inputs|);
    EntryEnds(codec, inputs, i);
    EndIsPlaced(codec, layout, inputs);
    assert |e.name| <= MAX_U16;
  }

  /** Where the local record of entry `i` ends. */
  lemma {:induction false} EntryEnds(codec: Codec, inputs: seq<Input>, i: nat)
    requires i < |inputs|
    ensures var e := Entries(codec, inputs)[i]; e.offset + 30 + |e.name| + |e.compressed| <= DirectoryStart(codec, inputs)
  {
    EntryIs(codec, inputs, i);
    OffsetGrows(codec, inputs, i + 1, |inputs|);
  }

  // ---- Where the parts of a written archive stand ----

  function End(codec: Codec, layout: Layout, inputs: seq<Input>): nat {
    CentralPosition(codec, layout, inputs, |inputs|)
  }

  function Positions(codec: Codec, layout: Layout, inputs: seq<Input>): (p: seq<nat>)
    ensures |p| == |inputs| + 1
  {
    seq(|inputs| + 1, i requires 0 <= i <= |inputs| => CentralPosition(codec, layout, inputs, i))
  }

  /** The central record of entry `i` ends where the next one starts. */
  lemma {:induction false} CentralEnds(codec: Codec, layout: Layout, inputs: seq<Input>, i: nat)
    requires i < |inputs|
    ensures CentralPosition(codec, layout, inputs, i) + |layout.central(Entries(codec, inputs)[i])|
         == CentralPosition(codec, layout, inputs, i + 1) <= End(codec, layout, inputs)
  {
    RecordsGrow(layout.central, Entries(codec, inputs), i + 1, |inputs|);
  }

  lemma {:induction false} EntryIsLaidOut(codec: Codec, layout: Layout, inputs: seq<Input>, i: nat)
    requires CountsLocals(layout) && Exportable(codec, layout, inputs) && i < |inputs|
    ensures EntryLaidOut(layout, Archive(codec, layout, inputs), Entries(codec, inputs)[i],
                         CentralPosition(codec, layout, inputs, i), CentralPosition(codec, layout, inputs, i + 1),
                         DirectoryStart(codec, inputs), End(codec, layout, inputs))
  {
    EntryFits(codec, layout, inputs, i);
    EntryEnds(codec, inputs, i);
    OffsetsAreTrue(codec, layout, inputs, i);
    CentralIsPlaced(codec, layout, inputs, i);
    CentralEnds(codec, layout, inputs, i);
  }

  /** The buffer as the reader meets it: the directory's span, its positions and the end record. */
  ghost predicate LaidOut(layout: Layout, b: Bytes, entries: seq<Entry>, position: seq<nat>, start: nat, end: nat) {
    && |position| == |entries| + 1
    && position[0] == start
    && start <= end
    && Placed(b, end, layout.end(|entries|, end - start, start))
    && |b| == end + |layout.end(|entries|, end - start, start)|
    && forall i: nat | i < |entries| :: LaidOutAt(layout, b, entries, position, i, start, end)
  }

  ghost predicate LaidOutAt(layout: Layout, b: Bytes, entries: seq<Entry>, position: seq<nat>, i: nat, start: nat, end: nat)
    requires i < |entries| && |position| == |entries| + 1
  {
    EntryLaidOut(layout, b, entries[i], position[i], position[i + 1], start, end)
  }

  lemma {:induction false} ArchiveIsLaidOut(codec: Codec, layout: Layout, inputs: seq<Input>)
    requires CountsLocals(layout) && Exportable(codec, layout, inputs)
    ensures LaidOut(layout, Archive(codec, layout, inputs), Entries(codec, inputs), Positions(codec, layout, inputs),
                    DirectoryStart(codec, inputs), End(codec, layout, inputs))
  {
    EndIsPlaced(codec, layout, inputs);
    forall i: nat | i < |inputs|
      ensures LaidOutAt(layout, Archive(codec, layout, inputs), Entries(codec, inputs), Positions(codec, layout, inputs), i,
                        DirectoryStart(codec, inputs), End(codec, layout, inputs))
    {
      EntryIsLaidOut(codec, layout, inputs, i);
    }
  }

  // ---- Reading such a buffer ----

  /** What the reader reads of the end record of a written buffer. */
  ghost predicate EndRead(d: Directory, count: nat) {
    && |d.b| == d.end + 22 <= MAX_ARCHIVE
    && count <= MAX_ENTRIES
    && ReadU32(d.b, d.end) == END_SIGNATURE
    && ReadU16(d.b, d.end + 10) == count
    && ReadU32(d.b, d.end + 16) == d.central
  }

  lemma {:induction false} EndReadsBack(d: Directory, count: nat)
    requires Placed(d.b, d.end, EndRecord(count, d.end - d.central, d.central))
    requires count <= MAX_ENTRIES && |d.b| == d.end + 22 <= MAX_ARCHIVE
    ensures EndRead(d, count)
  {
    var r := EndRecord(count, d.end - d.central, d.central);
    PlacedWithin(d.b, d.end, r, 0, U32(END_SIGNATURE));
    PlacedWithin(d.b, d.end, r, 10, U16(count));
    PlacedWithin(d.b, d.end, r, 16, U32(d.central));
    ReadsU32(d.b, d.end, END_SIGNATURE);
    ReadsU16(d.b, d.end + 10, count);
    ReadsU32(d.b, d.end + 16, d.central);
  }

  /** The scan finds an end record that closes the buffer, and no other. */
  lemma {:induction false} EndIsFound(codec: Codec, b: Bytes, end: nat, r: Result<seq<Record>, ZipError>)
    requires 22 <= |b| <= MAX_ARCHIVE && end == |b| - 22 && ReadU32(b, end) == END_SIGNATURE && Reads(codec, b, r)
    ensures r == ReadDirectory(codec, b, end)
  {
    assert IsEnd(b, end);
    NoEndHasNone(b, end);
  }

  lemma {:induction false} DirectoryReadsBack(d: Directory, entries: seq<Entry>, position: seq<nat>)
    requires LaidOut(ZIP, d.b, entries, position, d.central, d.end)
    ensures ReadsBack(ReaderOf(d), d.codec, entries, position)
  {
    forall i: nat, seen | i < |entries| ensures ReadsBackAt(ReaderOf(d), d.codec, entries, position, i, seen) {
      assert LaidOutAt(ZIP, d.b, entries, position, i, d.central, d.end);
      WrittenFieldsRead(d, entries[i], position[i], position[i + 1]);
      WrittenRecordReadsBack(d, entries[i], position[i], position[i + 1], seen);
    }
  }

  lemma {:induction false} ReadDirectoryIs(d: Directory, count: nat)
    requires EndRead(d, count)
    ensures ReadDirectory(d.codec, d.b, d.end) ==
      if d.central == d.end then Failure(CentralOffset) else ReadRecords(ReaderOf(d), d.central, UNSEEN, count)
  {
    assert Span(d.codec, d.b, d.end, d.central) == d;
  }

  /** Reading a written buffer is the walk over its directory; an empty directory is refused. */
  lemma {:induction false} WrittenBufferReads(d: Directory, count: nat, r: Result<seq<Record>, ZipError>)
    requires EndRead(d, count) && Reads(d.codec, d.b, r)
    ensures r == if d.central == d.end then Failure(CentralOffset) else ReadRecords(ReaderOf(d), d.central, UNSEEN, count)
  {
    EndIsFound(d.codec, d.b, d.end, r);
    ReadDirectoryIs(d, count);
  }

  /** The part of the written buffer the reader walks over. */
  function DirectoryOf(codec: Codec, layout: Layout, inputs: seq<Input>): Directory
    requires CountsLocals(layout)
  {
    EndIsPlaced(codec, layout, inputs);
    Span(codec, Archive(codec, layout, inputs), End(codec, layout, inputs), DirectoryStart(codec, inputs))
  }

  lemma {:induction false} DirectoryIsEmpty(codec: Codec, inputs: seq<Input>)
    ensures DirectoryStart(codec, inputs) == End(codec, ZIP, inputs) <==> inputs == []
  {
    if inputs != [] {
      CentralEnds(codec, ZIP, inputs, 0);
    }
  }

  lemma {:induction false} LaidOutReads(d: Directory, entries: seq<Entry>, position: seq<nat>,
                                        r: Result<seq<Record>, ZipError>)
    requires LaidOut(ZIP, d.b, entries, position, d.central, d.end) && EndRead(d, |entries|)
    requires (d.central == d.end <==> entries == []) && Reads(d.codec, d.b, r)
    ensures r.Success? <==> entries != [] && AllAccepted(d.codec, entries, 0)
    ensures r.Success? ==> r.value == RecordsFrom(d.codec, entries, 0)
  {
    WrittenBufferReads(d, |entries|, r);
    if entries != [] {
      DirectoryReadsBack(d, entries, position);
      WalkReadsBack(ReaderOf(d), d.codec, entries, position, 0);
    }
  }

  lemma {:induction false} ArchiveEndReads(codec: Codec, inputs: seq<Input>)
    requires CountsLocals(ZIP) && Exportable(codec, ZIP, inputs)
    ensures EndRead(DirectoryOf(codec, ZIP, inputs), |inputs|)
  {
    EndIsPlaced(codec, ZIP, inputs);
    EndReadsBack(DirectoryOf(codec, ZIP, inputs), |inputs|);
  }

  lemma {:induction false} ArchiveReads(codec: Codec, inputs: seq<Input>, r: Result<seq<Record>, ZipError>)
    requires CountsLocals(ZIP) && Exportable(codec, ZIP, inputs) && Reads(codec, Archive(codec, ZIP, inputs), r)
    ensures r.Success? <==> inputs != [] && AllAccepted(codec, Entries(codec, inputs), 0)
    ensures r.Success? ==> r.value == RecordsFrom(codec, Entries(codec, inputs), 0)
  {
    ArchiveIsLaidOut(codec, ZIP, inputs);
    ArchiveEndReads(codec, inputs);
    DirectoryIsEmpty(codec, inputs);
    LaidOutReads(DirectoryOf(codec, ZIP, inputs), Entries(codec, inputs), Positions(codec, ZIP, inputs), r);
  }

  // ---- The checks on the entries, and what comes out ----

  /** Entry `e` holds the compressed form and the checksum of its data. */
  predicate Genuine(codec: Codec, e: Entry) {
    e.compressed == codec.deflate(e.data) && e.crc == Value(Crc.Crc32(e.data))
  }

  lemma {:induction false} EntryInflates(codec: Codec, e: Entry)
    requires Lawful(codec) && Genuine(codec, e) && |e.data| <= MAX_ENTRY
    ensures Inflate(codec, RecordOf(codec, e)) == Success(e.data)
  {
    assert codec.inflate(codec.deflate(e.data), Min(MAX_ENTRY, |e.data| + 1)) == Some(e.data);
  }

  function OutputsFrom(codec: Codec, entries: seq<Entry>, i: nat): (out: seq<Input>)
    requires i <= |entries|
    ensures |out| == |entries| - i
    decreases |entries| - i
  {
    if i == |entries| then [] else [Input(codec.decode(entries[i].name), entries[i].data)] + OutputsFrom(codec, entries, i + 1)
  }

  lemma {:induction false} OutputAt(codec: Codec, entries: seq<Entry>, i: nat, k: nat)
    requires i <= k < |entries|
    ensures OutputsFrom(codec, entries, i)[k - i] == Input(codec.decode(entries[k].name), entries[k].data)
    decreases |entries| - i
  {
    if i < k {
      OutputAt(codec, entries, i + 1, k);
    }
  }

  lemma {:induction false} AcceptedIsSmall(codec: Codec, e: Entry, seen: Seen)
    requires Accepted(codec, e, seen)
    ensures |e.data| <= MAX_ENTRY
  {
  }

  lemma {:induction false} RecordsInflate(codec: Codec, entries: seq<Entry>, i: nat)
    requires Lawful(codec) && i <= |entries| && forall k | 0 <= k < |entries| :: Genuine(codec, entries[k])
    requires AllAccepted(codec, entries, i)
    ensures InflateAll(codec, RecordsFrom(codec, entries, i)) == Success(OutputsFrom(codec, entries, i))
    decreases |entries| - i
  {
    if i < |entries| {
      AcceptedIsSmall(codec, entries[i], SeenBefore(codec, entries, i));
      EntryInflates(codec, entries[i]);
      RecordsInflate(codec, entries, i + 1);
      assert RecordsFrom(codec, entries, i)[1..] == RecordsFrom(codec, entries, i + 1);
    }
  }

  lemma {:induction false} SeenNames(codec: Codec, entries: seq<Entry>, i: nat, name: string)
    requires i <= |entries|
    ensures name in SeenBefore(codec, entries, i).names <==> exists j | 0 <= j < i :: codec.decode(entries[j].name) == name
  {
    if i > 0 {
      SeenNames(codec, entries, i - 1, name);
    }
  }

  lemma {:induction false} SeenTotal(codec: Codec, inputs: seq<Input>, i: nat)
    requires i <= |inputs|
    ensures SeenBefore(codec, Entries(codec, inputs), i).total == SumSizes(inputs, i)
  {
    if i > 0 {
      SeenTotal(codec, inputs, i - 1);
      EntryIs(codec, inputs, i - 1);
    }
  }

  /** The reader's checks on entry `i`, in terms of the inputs. */
  lemma {:induction false} AcceptedIff(codec: Codec, inputs: seq<Input>, i: nat)
    requires i < |inputs| && SumSizes(inputs, |inputs|) <= MAX_TOTAL
    requires NamesSurvive(codec, inputs)
    ensures Accepted(codec, Entries(codec, inputs)[i], SeenBefore(codec, Entries(codec, inputs), i))
       <==> InputOk(codec, inputs[i]) && forall j | 0 <= j < i :: inputs[j].path != inputs[i].path
  {
    EntryIs(codec, inputs, i);
    SeenTotal(codec, inputs, i);
    SumGrows(inputs, i + 1, |inputs|);
    SeenNames(codec, Entries(codec, inputs), i, inputs[i].path);
    forall j: nat | j < i ensures codec.decode(Entries(codec, inputs)[j].name) == inputs[j].path {
      EntryIs(codec, inputs, j);
    }
  }

  lemma {:induction false} AllAcceptedIff(codec: Codec, inputs: seq<Input>)
    requires SumSizes(inputs, |inputs|) <= MAX_TOTAL
    requires NamesSurvive(codec, inputs)
    ensures AllAccepted(codec, Entries(codec, inputs), 0)
       <==> forall i: nat | i < |inputs| :: InputOk(codec, inputs[i]) && forall j | 0 <= j < i :: inputs[j].path != inputs[i].path
  {
    forall i: nat | i < |inputs|
      ensures Accepted(codec, Entries(codec, inputs)[i], SeenBefore(codec, Entries(codec, inputs), i))
         <==> InputOk(codec, inputs[i]) && forall j | 0 <= j < i :: inputs[j].path != inputs[i].path
    {
      AcceptedIff(codec, inputs, i);
    }
  }

  lemma {:induction false} OutputsAreInputs(codec: Codec, inputs: seq<Input>)
    ensures OutputsFrom(codec, Entries(codec, inputs), 0) == inputs
       <==> NamesSurvive(codec, inputs)
  {
    forall k: nat | k < |inputs|
      ensures OutputsFrom(codec, Entries(codec, inputs), 0)[k] == Input(codec.decode(codec.encode(inputs[k].path)), inputs[k].data)
    {
      EntryIs(codec, inputs, k);
      OutputAt(codec, Entries(codec, inputs), 0, k);
    }
  }

  /** The buffer reads back as the inputs. */
  ghost predicate Restores(codec: Codec, r: Result<seq<Record>, ZipError>, inputs: seq<Input>) {
    r.Success? && InflateAll(codec, r.value) == Success(inputs)
  }

  lemma {:induction false} EntriesAreGenuine(codec: Codec, inputs: seq<Input>)
    ensures forall k | 0 <= k < |inputs| :: Genuine(codec, Entries(codec, inputs)[k])
  {
    forall k: nat | k < |inputs| ensures Genuine(codec, Entries(codec, inputs)[k]) {
      EntryIs(codec, inputs, k);
    }
  }

  lemma {:induction false} RestoresIff(codec: Codec, inputs: seq<Input>, r: Result<seq<Record>, ZipError>)
    requires Lawful(codec) && Exportable(codec, ZIP, inputs) && Reads(codec, Archive(codec, ZIP, inputs), r)
    ensures Restores(codec, r, inputs) <==> inputs != [] && AllAccepted(codec, Entries(codec, inputs), 0) && NamesSurvive(codec, inputs)
  {
    ZipCountsLocals();
    ArchiveReads(codec, inputs, r);
    if r.Success? {
      EntriesAreGenuine(codec, inputs);
      RecordsInflate(codec, Entries(codec, inputs), 0);
      OutputsAreInputs(codec, inputs);
    }
  }

  lemma {:induction false} ImportableIff(codec: Codec, inputs: seq<Input>)
    requires SumSizes(inputs, |inputs|) <= MAX_TOTAL
    ensures Importable(codec, inputs) <==> inputs != [] && AllAccepted(codec, Entries(codec, inputs), 0) && NamesSurvive(codec, inputs)
  {
    if NamesSurvive(codec, inputs) {
      AllAcceptedIff(codec, inputs);
    } else {
      assert exists k | 0 <= k < |inputs| :: !InputOk(codec, inputs[k]);
    }
  }

  /** Whatever the export writes, the import restores it exactly when the list is non-empty, its
      names are distinct, non-empty and survive UTF-8, and every entry meets the size and ratio limits. */
  lemma {:induction false} RoundTrip(codec: Codec, inputs: seq<Input>, r: Result<seq<Record>, ZipError>)
    requires Lawful(codec) && Exportable(codec, ZIP, inputs) && Reads(codec, Archive(codec, ZIP, inputs), r)
    ensures Restores(codec, r, inputs) <==> Importable(codec, inputs)
  {
    RestoresIff(codec, inputs, r);
    ImportableIff(codec, inputs);
  }
}
