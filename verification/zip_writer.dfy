/** The archive writer (sections 4.3.7, 4.3.12 and 4.3.16 of PKWARE APPNOTE.TXT): a first
    pass computes each entry's offset, a second writes the local records, the central
    directory and the end record. */
module ZipWriter {
  import opened Options
  import opened Words
  import opened ZipBytes
  import Crc

  /** The library calls the codec relies on: compression, bounded decompression, UTF-8, and
      the test for paths whose compression ratio is not limited. */
  datatype Codec = Codec(
    deflate: Bytes -> Bytes,
    inflate: (Bytes, nat) -> Option<Bytes>,
    encode: string -> Bytes,
    decode: Bytes -> string,
    volatile: string -> bool)

  datatype Input = Input(path: string, data: Bytes)

  datatype Entry = Entry(name: Bytes, data: Bytes, compressed: Bytes, crc: nat, offset: nat)

  const LOCAL_SIGNATURE: nat := 0x04034b50
  const CENTRAL_SIGNATURE: nat := 0x02014b50
  const END_SIGNATURE: nat := 0x06054b50

  const MAX_U16: nat := 0xffff

  function LocalHead(e: Entry): (r: Bytes)
    ensures |r| == 30
    ensures Placed(r, 0, U32(LOCAL_SIGNATURE)) && Placed(r, 26, U16(|e.name|)) && Placed(r, 28, U16(0))
  {
    U32(LOCAL_SIGNATURE) + U16(20) + U16(0x0800) + U16(8) + U16(0) + U16(0) + U32(e.crc) + U32(|e.compressed|) + U32(|e.data|)
      + U16(|e.name|) + U16(0)
  }

  function LocalRecord(e: Entry): Bytes {
    LocalHead(e) + e.name + e.compressed
  }

  function CentralSizes(e: Entry): (r: Bytes)
    ensures |r| == 28
    ensures Placed(r, 0, U32(CENTRAL_SIGNATURE)) && Placed(r, 8, U16(0x0800)) && Placed(r, 10, U16(8))
    ensures Placed(r, 16, U32(e.crc)) && Placed(r, 20, U32(|e.compressed|)) && Placed(r, 24, U32(|e.data|))
  {
    U32(CENTRAL_SIGNATURE) + U16(20) + U16(20) + U16(0x0800) + U16(8) + U16(0) + U16(0) + U32(e.crc) + U32(|e.compressed|)
      + U32(|e.data|)
  }

  function CentralPlace(e: Entry): (r: Bytes)
    ensures |r| == 18
    ensures Placed(r, 0, U16(|e.name|)) && Placed(r, 2, U16(0)) && Placed(r, 4, U16(0)) && Placed(r, 14, U32(e.offset))
  {
    U16(|e.name|) + U16(0) + U16(0) + U16(0) + U16(0) + U32(0) + U32(e.offset)
  }

  function CentralRecord(e: Entry): Bytes {
    CentralSizes(e) + CentralPlace(e) + e.name
  }

  function EndRecord(count: nat, centralSize: nat, centralOffset: nat): (r: Bytes)
    ensures |r| == 22
    ensures Placed(r, 0, U32(END_SIGNATURE)) && Placed(r, 10, U16(count)) && Placed(r, 16, U32(centralOffset))
    ensures Placed(r, 8, U16(count)) && Placed(r, 12, U32(centralSize))
  {
    U32(END_SIGNATURE) + U16(0) + U16(0) + U16(count) + U16(count) + U32(centralSize) + U32(centralOffset) + U16(0)
  }

  lemma {:induction false} Regroup(s: Bytes, a: Bytes, b: Bytes, c: Bytes, d: Bytes, f: Bytes, g: Bytes, h: Bytes,
                                   i: Bytes, j: Bytes, k: Bytes)
    ensures s + a + b + c + d + f + g + h + i + j + k == s + (a + b + c + d + f + g + h + i + j + k)
  {
  }

  lemma {:induction false} RegroupTail(s: Bytes, j: Bytes, k: Bytes, l: Bytes, m: Bytes, n: Bytes, o: Bytes, q: Bytes)
    ensures s + (j + k + l + m + n + o + q) == s + j + k + (l + m + n + o + q)
  {
  }

  lemma {:induction false} Associate(a: Bytes, b: Bytes, c: Bytes)
    ensures a + b + c == a + (b + c)
  {
  }

  lemma {:induction false} SameMiddle(head: Bytes, centrals: Bytes, front: Bytes, front': Bytes, part: Bytes,
                                      rest: Bytes,
                                      back: Bytes, back': Bytes)
    requires head == front + part && centrals == front' + part + rest
    ensures (head + back)[|front|..|front| + |part|] == part
    ensures (centrals + back')[|front'|..|front'| + |part|] == part
  {
  }

  /** The fields the two records of an entry share. */
  function Shared(e: Entry): (r: Bytes)
    ensures |r| == 26
  {
    U16(20) + U16(0x0800) + U16(8) + U16(0) + U16(0) + U32(e.crc) + U32(|e.compressed|) + U32(|e.data|) + U16(|e.name|) + U16(0)
  }

  lemma {:induction false} LocalSharesFields(e: Entry)
    ensures LocalHead(e) == U32(LOCAL_SIGNATURE) + Shared(e)
  {
    Regroup(U32(LOCAL_SIGNATURE), U16(20), U16(0x0800), U16(8), U16(0), U16(0), U32(e.crc), U32(|e.compressed|), U32(|e.data|),
            U16(|e.name|), U16(0));
  }

  lemma {:induction false} CentralSharesFields(e: Entry)
    ensures CentralSizes(e) + CentralPlace(e)
      == U32(CENTRAL_SIGNATURE) + U16(20) + Shared(e) + (U16(0) + U16(0) + U16(0) + U32(0) + U32(e.offset))
  {
    RegroupTail(CentralSizes(e), U16(|e.name|), U16(0), U16(0), U16(0), U16(0), U32(0), U32(e.offset));
    Regroup(U32(CENTRAL_SIGNATURE) + U16(20), U16(20), U16(0x0800), U16(8), U16(0), U16(0), U32(e.crc), U32(|e.compressed|),
            U32(|e.data|), U16(|e.name|), U16(0));
  }

  /** The version, flags, method, times, checksum, sizes and lengths of an entry are the same bytes in
      its local and in its central record. */
  lemma {:induction false} HeadersAgree(e: Entry)
    ensures LocalRecord(e)[4..30] == CentralRecord(e)[6..32]
  {
    LocalSharesFields(e);
    CentralSharesFields(e);
    SameMiddle(LocalHead(e), CentralSizes(e) + CentralPlace(e), U32(LOCAL_SIGNATURE), U32(CENTRAL_SIGNATURE) + U16(20), Shared(e),
               U16(0) + U16(0) + U16(0) + U32(0) + U32(e.offset), e.name + e.compressed, e.name);
    Associate(LocalHead(e), e.name, e.compressed);
  }

  // ---- The records, byte by byte ----

  lemma {:induction false} LittleOfFour(a: byte, b: byte, c: byte, d: byte)
    ensures U32(a + 256 * (b + 256 * (c + 256 * d))) == [a, b, c, d]
  {
    var z: nat := d;
    var y: nat := c + 256 * z;
    var x: nat := b + 256 * y;
    LittleStep(d, 0, 0);
    LittleStep(c, z, 1);
    LittleStep(b, y, 2);
    LittleStep(a, x, 3);
  }

  lemma {:induction false} LittleStep(a: byte, n: nat, k: nat)
    ensures Little(a + 256 * n, k + 1) == [a] + Little(n, k)
  {
  }

  lemma {:induction false} LittleOfTwo(a: byte, b: byte)
    ensures U16(a + 256 * b) == [a, b]
  {
    LittleStep(b, 0, 0);
    LittleStep(a, b, 1);
  }

  lemma {:induction false} Signatures()
    ensures U32(LOCAL_SIGNATURE) == [0x50, 0x4b, 0x03, 0x04]
    ensures U32(CENTRAL_SIGNATURE) == [0x50, 0x4b, 0x01, 0x02]
    ensures U32(END_SIGNATURE) == [0x50, 0x4b, 0x05, 0x06]
  {
    LittleOfFour(0x50, 0x4b, 0x03, 0x04);
    LittleOfFour(0x50, 0x4b, 0x01, 0x02);
    LittleOfFour(0x50, 0x4b, 0x05, 0x06);
  }

  /** The fields that are the same for every entry: version 2.0, names in UTF-8, method 8, no time and no date. */
  const FIXED: Bytes := [20, 0, 0, 8, 8, 0, 0, 0, 0, 0]

  lemma {:induction false} FixedFields()
    ensures U16(20) + U16(0x0800) + U16(8) + U16(0) + U16(0) == FIXED
  {
    LittleOfTwo(20, 0);
    LittleOfTwo(0, 8);
    LittleOfTwo(8, 0);
    LittleOfTwo(0, 0);
  }

  /** A local record (section 4.3.7): after the signature and the fixed fields the checksum, both sizes, the
      length of the name, no extra field, the name and the data. */
  lemma {:induction false} LocalBytes(e: Entry)
    ensures LocalRecord(e) == [0x50, 0x4b, 0x03, 0x04] + Shared(e) + e.name + e.compressed
    ensures Shared(e) == FIXED + U32(e.crc) + U32(|e.compressed|) + U32(|e.data|) + U16(|e.name|) + [0, 0]
  {
    Signatures();
    FixedFields();
    LittleOfTwo(0, 0);
    LocalSharesFields(e);
  }

  lemma {:induction false} Blank(a: Bytes, b: Bytes)
    requires a == [0, 0] && b == [0, 0, 0, 0]
    ensures a + a + a + b == [0, 0, 0, 0, 0, 0, 0, 0, 0, 0]
  {
  }

  /** A central record (section 4.3.12): the writer's version, the shared fields, no comment, no disk, no
      attributes, and the offset of the local record. */
  lemma {:induction false} CentralBytes(e: Entry)
    ensures CentralRecord(e)
         == [0x50, 0x4b, 0x01, 0x02] + [20, 0] + Shared(e) + ([0, 0, 0, 0, 0, 0, 0, 0, 0, 0] + U32(e.offset)) + e.name
  {
    Signatures();
    LittleOfTwo(20, 0);
    LittleOfTwo(0, 0);
    LittleOfFour(0, 0, 0, 0);
    Blank(U16(0), U32(0));
    CentralSharesFields(e);
  }

  lemma {:induction false} RegroupEnd(s: Bytes, z: Bytes, c: Bytes, d: Bytes, f: Bytes, g: Bytes)
    requires z == [0, 0]
    ensures s + z + z + c + d + f + g + z == s + [0, 0, 0, 0] + c + d + f + g + [0, 0]
  {
    assert s + z + z == s + [0, 0, 0, 0];
  }

  /** The end record (section 4.3.16): one disk, the number of entries twice, the size and the offset of the
      directory, no comment. */
  lemma {:induction false} EndBytes(count: nat, centralSize: nat, centralOffset: nat)
    ensures EndRecord(count, centralSize, centralOffset)
         == [0x50, 0x4b, 0x05, 0x06] + [0, 0, 0, 0] + U16(count) + U16(count) + U32(centralSize) + U32(centralOffset) + [0, 0]
  {
    Signatures();
    LittleOfTwo(0, 0);
    RegroupEnd(U32(END_SIGNATURE), U16(0), U16(count), U16(count), U32(centralSize), U32(centralOffset));
  }

  /** The three kinds of record of an archive. */
  datatype Layout = Layout(local: Entry -> Bytes, central: Entry -> Bytes, end: (nat, nat, nat) -> Bytes)

  const ZIP := Layout(LocalRecord, CentralRecord, EndRecord)

  // ---- What the two passes stand for ----

  function EntryOf(codec: Codec, input: Input, offset: nat): Entry {
    Entry(codec.encode(input.path), input.data, codec.deflate(input.data), Value(Crc.Crc32(input.data)), offset)
  }

  /** The entries so far and the offset the first pass has reached. */
  datatype Pass = Pass(entries: seq<Entry>, offset: nat)

  function Advance(codec: Codec, pass: Pass, input: Input): Pass {
    var e := EntryOf(codec, input, pass.offset);
    Pass(pass.entries + [e], pass.offset + 30 + |e.name| + |e.compressed|)
  }

  /** The first pass over the first `i` inputs. */
  function Prepared(codec: Codec, inputs: seq<Input>, i: nat): (p: Pass)
    requires i <= |inputs|
    ensures |p.entries| == i
  {
    if i == 0 then Pass([], 0) else Advance(codec, Prepared(codec, inputs, i - 1), inputs[i - 1])
  }

  function Entries(codec: Codec, inputs: seq<Input>): seq<Entry> {
    Prepared(codec, inputs, |inputs|).entries
  }

  function DirectoryStart(codec: Codec, inputs: seq<Input>): nat {
    Prepared(codec, inputs, |inputs|).offset
  }

  /** The first `i` entries written one after the other by `record`. */
  function Records(record: Entry -> Bytes, entries: seq<Entry>, i: nat): Bytes
    requires i <= |entries|
  {
    if i == 0 then [] else Records(record, entries, i - 1) + record(entries[i - 1])
  }

  function Archive(codec: Codec, layout: Layout, inputs: seq<Input>): Bytes {
    var entries := Entries(codec, inputs);
    var central := Records(layout.central, entries, |inputs|);
    Records(layout.local, entries, |inputs|) + central + layout.end(|inputs|, |central|, DirectoryStart(codec, inputs))
  }

  /** The 16-bit fields hold the entry count and every name's length. */
  predicate Writable(entries: seq<Entry>) {
    |entries| <= MAX_U16 && NamesFit(entries)
  }

  predicate NamesFit(entries: seq<Entry>) {
    forall i | 0 <= i < |entries| :: |entries[i].name| <= MAX_U16
  }

  lemma {:induction false} FitsField(n: nat)
    ensures n <= MAX_U16 <==> ReadU16(U16(n), 0) == n
  {
    if n <= MAX_U16 {
      assert U16(n)[0..2] == U16(n);
      ReadsU16(U16(n), 0, n);
    }
  }

  /** The archive is written exactly when its 16-bit fields can be read back: the count and every name's length. */
  lemma {:induction false} WritableIff(entries: seq<Entry>)
    ensures Writable(entries) <==>
      && ReadU16(U16(|entries|), 0) == |entries|
      && forall e | e in entries :: ReadU16(U16(|e.name|), 0) == |e.name|
  {
    FitsField(|entries|);
    forall i | 0 <= i < |entries| ensures |entries[i].name| <= MAX_U16 <==> ReadU16(U16(|entries[i].name|), 0) == |entries[i].name| {
      FitsField(|entries[i].name|);
    }
  }

  // ---- The writer ----

  method PrepareEntry(codec: Codec, input: Input, offset: nat, table: array<Word>) returns (e: Entry)
    requires Crc.IsTable(table[..])
    ensures e == EntryOf(codec, input, offset)
  {
    var compressed := codec.deflate(input.data);
    var crc := Crc.TableCrc32(table, input.data);
    e := Entry(codec.encode(input.path), input.data, compressed, Value(crc), offset);
  }

  /** The first pass: compress, sum and place every entry. */
  method Prepare(codec: Codec, inputs: seq<Input>, table: array<Word>) returns (prepared: seq<Entry>, offset: nat)
    requires Crc.IsTable(table[..])
    ensures prepared == Entries(codec, inputs) && offset == DirectoryStart(codec, inputs)
  {
    offset, prepared := 0, [];
    for i := 0 to |inputs|
      invariant Pass(prepared, offset) == Prepared(codec, inputs, i)
    {
      var next := PrepareEntry(codec, inputs[i], offset, table);
      prepared := prepared + [next];
      offset := offset + 30 + |next.name| + |next.compressed|;
    }
  }

  method WriteLocals(record: Entry -> Bytes, prepared: seq<Entry>) returns (r: Option<Bytes>)
    ensures r == if NamesFit(prepared) then Some(Records(record, prepared, |prepared|)) else None
  {
    var locals: Bytes := [];
    for i := 0 to |prepared|
      invariant locals == Records(record, prepared, i)
      invariant forall j | 0 <= j < i :: |prepared[j].name| <= MAX_U16
    {
      if |prepared[i].name| > MAX_U16 {
        return None;
      }
      locals := locals + record(prepared[i]);
    }
    r := Some(locals);
  }

  method WriteCentrals(record: Entry -> Bytes, prepared: seq<Entry>, start: nat) returns (central: Bytes, end: nat)
    ensures central == Records(record, prepared, |prepared|) && end == start + |central|
  {
    central, end := [], start;
    for i := 0 to |prepared|
      invariant central == Records(record, prepared, i) && end == start + |central|
    {
      var item := record(prepared[i]);
      central := central + item;
      end := end + |item|;
    }
  }

  /** The archive of the entries; a name or a count that its 16-bit field cannot hold fails. */
  method WriteEntries(codec: Codec, layout: Layout, inputs: seq<Input>, table: array<Word>) returns (r: Option<Bytes>)
    requires Crc.IsTable(table[..])
    ensures r == if Writable(Entries(codec, inputs)) then Some(Archive(codec, layout, inputs)) else None
  {
    var prepared, centralOffset := Prepare(codec, inputs, table);
    var locals := WriteLocals(layout.local, prepared);
    if locals.None? {
      return None;
    }
    var central, end := WriteCentrals(layout.central, prepared, centralOffset);
    if |prepared| > MAX_U16 {
      return None;
    }
    r := Some(locals.value + central + layout.end(|prepared|, end - centralOffset, centralOffset));
  }

  /** The archive in the ZIP layout, as the export writes it. */
  method WriteZip(codec: Codec, inputs: seq<Input>, table: array<Word>) returns (r: Option<Bytes>)
    requires Crc.IsTable(table[..])
    ensures r == if Writable(Entries(codec, inputs)) then Some(Archive(codec, ZIP, inputs)) else None
  {
    r := WriteEntries(codec, ZIP, inputs, table);
  }

  // ---- The offsets of the first pass are byte positions ----

  lemma {:induction false} RecordsGrow(record: Entry -> Bytes, entries: seq<Entry>, i: nat, n: nat)
    requires i <= n <= |entries|
    ensures Records(record, entries, i) <= Records(record, entries, n)
  {
    if i < n {
      RecordsGrow(record, entries, i, n - 1);
    }
  }

  /** Record `i` stands where the first `i` records end. */
  lemma {:induction false} RecordIsPlaced(record: Entry -> Bytes, entries: seq<Entry>, i: nat)
    requires i < |entries|
    ensures Placed(Records(record, entries, |entries|), |Records(record, entries, i)|, record(entries[i]))
  {
    RecordsGrow(record, entries, i + 1, |entries|);
    var upTo := Records(record, entries, i + 1);
    assert upTo == Records(record, entries, i) + record(entries[i]);
    assert Records(record, entries, |entries|)[..|upTo|] == upTo;
    SplitPlaced(Records(record, entries, |entries|), 0, Records(record, entries, i), record(entries[i]));
  }

  lemma {:induction false} PreparedGrows(codec: Codec, inputs: seq<Input>, i: nat, n: nat)
    requires i <= n <= |inputs|
    ensures Prepared(codec, inputs, i).entries <= Prepared(codec, inputs, n).entries
  {
    if i < n {
      PreparedGrows(codec, inputs, i, n - 1);
    }
  }

  /** Entry `i` of the first pass. */
  lemma {:induction false} EntryIs(codec: Codec, inputs: seq<Input>, i: nat)
    requires i < |inputs|
    ensures Entries(codec, inputs)[i] == EntryOf(codec, inputs[i], Prepared(codec, inputs, i).offset)
  {
    PreparedGrows(codec, inputs, i + 1, |inputs|);
    assert Prepared(codec, inputs, i + 1).entries[i] == EntryOf(codec, inputs[i], Prepared(codec, inputs, i).offset);
  }

  /** The first pass counts the bytes of a local record. */
  ghost predicate CountsLocals(layout: Layout) {
    forall e :: |layout.local(e)| == 30 + |e.name| + |e.compressed|
  }

  lemma {:induction false} ZipCountsLocals()
    ensures CountsLocals(ZIP)
  {
  }

  lemma {:induction false} LocalsReachOffset(codec: Codec, layout: Layout, inputs: seq<Input>, i: nat)
    requires CountsLocals(layout) && i <= |inputs|
    ensures |Records(layout.local, Entries(codec, inputs), i)| == Prepared(codec, inputs, i).offset
  {
    if i > 0 {
      LocalsReachOffset(codec, layout, inputs, i - 1);
      EntryIs(codec, inputs, i - 1);
    }
  }

  lemma {:induction false} PlacedInFront(p: Bytes, q: Bytes, r: Bytes, at: nat, part: Bytes)
    requires Placed(p, at, part)
    ensures Placed(p + q + r, at, part)
  {
    assert (p + q + r)[..|p|] == p;
    PlacedWithin(p + q + r, 0, p, at, part);
  }

  lemma {:induction false} PlacedInMiddle(p: Bytes, q: Bytes, r: Bytes, at: nat, part: Bytes)
    requires Placed(q, at, part)
    ensures Placed(p + q + r, |p| + at, part)
  {
    PlacedJoin(p, q, r);
    PlacedWithin(p + q + r, |p|, q, at, part);
  }

  /** Every entry's local record stands in the archive at the offset the first pass computed. */
  lemma {:induction false} OffsetsAreTrue(codec: Codec, layout: Layout, inputs: seq<Input>, i: nat)
    requires CountsLocals(layout) && i < |inputs|
    ensures var e := Entries(codec, inputs)[i]; Placed(Archive(codec, layout, inputs), e.offset, layout.local(e))
  {
    var entries := Entries(codec, inputs);
    EntryIs(codec, inputs, i);
    LocalsReachOffset(codec, layout, inputs, i);
    RecordIsPlaced(layout.local, entries, i);
    var central := Records(layout.central, entries, |inputs|);
    PlacedInFront(Records(layout.local, entries, |inputs|), central,
      layout.end(|inputs|, |central|, DirectoryStart(codec, inputs)), entries[i].offset, layout.local(entries[i]));
  }

  /** Where the central record of entry `i` stands. */
  function CentralPosition(codec: Codec, layout: Layout, inputs: seq<Input>, i: nat): nat
    requires i <= |inputs|
  {
    DirectoryStart(codec, inputs) + |Records(layout.central, Entries(codec, inputs), i)|
  }

  lemma {:induction false} CentralIsPlaced(codec: Codec, layout: Layout, inputs: seq<Input>, i: nat)
    requires CountsLocals(layout) && i < |inputs|
    ensures Placed(Archive(codec, layout, inputs), CentralPosition(codec, layout, inputs, i),
                   layout.central(Entries(codec, inputs)[i]))
  {
    var entries := Entries(codec, inputs);
    LocalsReachOffset(codec, layout, inputs, |inputs|);
    RecordIsPlaced(layout.central, entries, i);
    var central := Records(layout.central, entries, |inputs|);
    PlacedInMiddle(Records(layout.local, entries, |inputs|), central,
      layout.end(|inputs|, |central|, DirectoryStart(codec, inputs)), |Records(layout.central, entries, i)|, layout.central(entries[i]));
  }

  /** The end record closes the archive and names the true start of the directory. */
  lemma {:induction false} EndIsPlaced(codec: Codec, layout: Layout, inputs: seq<Input>)
    requires CountsLocals(layout)
    ensures var at := CentralPosition(codec, layout, inputs, |inputs|);
      var end := layout.end(|inputs|, at - DirectoryStart(codec, inputs), DirectoryStart(codec, inputs));
      && Placed(Archive(codec, layout, inputs), at, end)
      && |Archive(codec, layout, inputs)| == at + |end|
  {
    LocalsReachOffset(codec, layout, inputs, |inputs|);
    var entries := Entries(codec, inputs);
    var central := Records(layout.central, entries, |inputs|);
    var last := layout.end(|inputs|, |central|, DirectoryStart(codec, inputs));
    var front := Records(layout.local, entries, |inputs|) + central;
    assert front + last + [] == front + last;
    PlacedJoin(front, last, []);
  }

  /** In the ZIP layout: every local record stands at the offset its central record names, the central
      records follow one another from the start of the directory, and the end record, which gives that
      start, the directory's length and the number of entries, closes the archive. */
  lemma {:induction false} ZipIsPlaced(codec: Codec, inputs: seq<Input>)
    ensures forall i: nat | i < |inputs| :: EntryIsPlaced(codec, inputs, i)
    ensures ZipEnds(codec, inputs)
  {
    forall i: nat | i < |inputs| ensures EntryIsPlaced(codec, inputs, i) {
      RecordsArePlaced(codec, inputs, i);
    }
    EndCloses(codec, inputs);
  }

  /** The local record of entry `i` stands at its offset, and its central record in its place in the directory. */
  ghost predicate EntryIsPlaced(codec: Codec, inputs: seq<Input>, i: nat)
    requires i < |inputs|
  {
    && Placed(Archive(codec, ZIP, inputs), Entries(codec, inputs)[i].offset, LocalRecord(Entries(codec, inputs)[i]))
    && Placed(Archive(codec, ZIP, inputs), CentralPosition(codec, ZIP, inputs, i), CentralRecord(Entries(codec, inputs)[i]))
  }

  /** The end record stands behind the last central record and closes the archive. */
  ghost predicate ZipEnds(codec: Codec, inputs: seq<Input>) {
    var start, at := DirectoryStart(codec, inputs), CentralPosition(codec, ZIP, inputs, |inputs|);
    var end := EndRecord(|inputs|, at - start, start);
    Placed(Archive(codec, ZIP, inputs), at, end) && |Archive(codec, ZIP, inputs)| == at + |end|
  }

  lemma {:induction false} RecordsArePlaced(codec: Codec, inputs: seq<Input>, i: nat)
    requires i < |inputs|
    ensures EntryIsPlaced(codec, inputs, i)
  {
    ZipCountsLocals();
    OffsetsAreTrue(codec, ZIP, inputs, i);
    CentralIsPlaced(codec, ZIP, inputs, i);
  }

  lemma {:induction false} EndCloses(codec: Codec, inputs: seq<Input>)
    ensures ZipEnds(codec, inputs)
  {
    ZipCountsLocals();
    EndIsPlaced(codec, ZIP, inputs);
  }
}
