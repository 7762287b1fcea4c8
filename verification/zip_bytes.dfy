/** Little-endian numbers inside a byte buffer. */
module ZipBytes {
  import opened Words

  type Bytes = seq<byte>

  /** `256 ^ k`. */
  function Range(k: nat): (r: nat)
    ensures r > 0
  {
    if k == 0 then 1 else 256 * Range(k - 1)
  }

  /** The `k` low bytes of a number, least significant first; higher bytes are dropped. */
  function Little(n: nat, k: nat): (b: Bytes)
    ensures |b| == k
  {
    if k == 0 then [] else [n % 256] + Little(n / 256, k - 1)
  }

  /** The number its bytes spell. */
  function Number(b: Bytes): nat {
    if b == [] then 0 else b[0] + 256 * Number(b[1..])
  }

  function U16(n: nat): Bytes {
    Little(n, 2)
  }

  function U32(n: nat): Bytes {
    Little(n, 4)
  }

  lemma {:induction false} Quotient(n: nat, r: nat)
    requires n < 256 * r
    ensures n / 256 < r
  {
  }

  lemma {:induction false} NumberOfLittle(n: nat, k: nat)
    requires n < Range(k)
    ensures Number(Little(n, k)) == n
  {
    if k > 0 {
      Quotient(n, Range(k - 1));
      NumberOfLittle(n / 256, k - 1);
    }
  }

  lemma {:induction false} NumberBound(b: Bytes)
    ensures Number(b) < Range(|b|)
  {
    if b != [] {
      NumberBound(b[1..]);
    }
  }

  lemma {:induction false} Ranges()
    ensures Range(2) == 0x1_0000 && Range(4) == 0x1_0000_0000
  {
    assert Range(1) == 256 && Range(3) == 0x100_0000;
  }

  function ReadU16(b: Bytes, at: nat): (n: nat)
    requires at + 2 <= |b|
    ensures n < 0x1_0000
  {
    Ranges();
    NumberBound(b[at..at + 2]);
    Number(b[at..at + 2])
  }

  function ReadU32(b: Bytes, at: nat): (n: nat)
    requires at + 4 <= |b|
    ensures n < 0x1_0000_0000
  {
    Ranges();
    NumberBound(b[at..at + 4]);
    Number(b[at..at + 4])
  }

  /** `part` stands in `b` at offset `at`. */
  predicate Placed(b: Bytes, at: nat, part: Bytes) {
    at + |part| <= |b| && b[at..at + |part|] == part
  }

  lemma {:induction false} PlacedWithin(b: Bytes, at: nat, whole: Bytes, from: nat, part: Bytes)
    requires Placed(b, at, whole) && Placed(whole, from, part)
    ensures Placed(b, at + from, part)
  {
    forall k | 0 <= k < |part| ensures b[at + from + k] == part[k] {
      assert b[at..at + |whole|][from + k] == whole[from + k] == whole[from..from + |part|][k];
    }
  }

  lemma {:induction false} SplitPlaced(b: Bytes, at: nat, p: Bytes, q: Bytes)
    requires Placed(b, at, p + q)
    ensures Placed(b, at, p) && Placed(b, at + |p|, q)
  {
    assert b[at..at + |p|] == (p + q)[..|p|];
    assert b[at + |p|..at + |p| + |q|] == (p + q)[|p|..];
  }

  lemma {:induction false} PlacedJoin(p: Bytes, q: Bytes, r: Bytes)
    ensures Placed(p + q + r, |p|, q)
  {
  }

  lemma {:induction false} ReadsU16(b: Bytes, at: nat, n: nat)
    requires Placed(b, at, U16(n)) && n < 0x1_0000
    ensures ReadU16(b, at) == n
  {
    Ranges();
    NumberOfLittle(n, 2);
  }

  lemma {:induction false} ReadsU32(b: Bytes, at: nat, n: nat)
    requires Placed(b, at, U32(n)) && n < 0x1_0000_0000
    ensures ReadU32(b, at) == n
  {
    Ranges();
    NumberOfLittle(n, 4);
  }
}
