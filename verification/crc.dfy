/** The CRC-32 of the archive entries (section 8 of RFC 1952): the table-driven form the
    backup codec uses, and the bit-by-bit form it stands for. */
module Crc {
  import opened Words

  /** The exponents of the generator below the 32nd. */
  predicate IsTap(k: int) {
    k in {26, 23, 22, 16, 12, 11, 10, 8, 7, 5, 4, 2, 1, 0}
  }

  /** The generator with its coefficients reversed: the set bits of 0xedb88320. */
  function Polynomial(): Word {
    seq(32, i => IsTap(31 - i))
  }

  function One(bit: bool): nat {
    if bit then 1 else 0
  }

  lemma {:induction false} OneBit(w: seq<bool>, i: nat)
    requires i < |w|
    ensures Value(w[i..]) == One(w[i]) + 2 * Value(w[i + 1..])
  {
    assert w[i..][1..] == w[i + 1..];
  }

  /** The hexadecimal digit `k` of a word. */
  function Digit(w: Word, k: nat): nat
    requires k < 8
  {
    One(w[4 * k]) + 2 * One(w[4 * k + 1]) + 4 * One(w[4 * k + 2]) + 8 * One(w[4 * k + 3])
  }

  lemma {:induction false} FourBits(w: Word, k: nat)
    requires k < 8
    ensures Value(w[4 * k..]) == Digit(w, k) + 16 * Value(w[4 * (k + 1)..])
  {
    OneBit(w, 4 * k);
    OneBit(w, 4 * k + 1);
    OneBit(w, 4 * k + 2);
    OneBit(w, 4 * k + 3);
  }

  /** The number that the digits from `k` on spell. */
  function DigitsFrom(digits: seq<nat>, k: nat): nat
    requires k <= |digits|
    decreases |digits| - k
  {
    if k == |digits| then 0 else digits[k] + 16 * DigitsFrom(digits, k + 1)
  }

  lemma {:induction false} ValueOfDigits(w: Word, digits: seq<nat>, k: nat)
    requires k <= |digits| == 8 && forall i | 0 <= i < 8 :: Digit(w, i) == digits[i]
    ensures Value(w[4 * k..]) == DigitsFrom(digits, k)
    decreases 8 - k
  {
    if k < 8 {
      FourBits(w, k);
      ValueOfDigits(w, digits, k + 1);
    }
  }

  lemma {:induction false} PolynomialDigit(k: nat)
    requires k < 8
    ensures Digit(Polynomial(), k) == [0, 2, 3, 8, 8, 0xb, 0xd, 0xe][k]
  {
  }

  lemma {:induction false} DigitsSpell(digits: seq<nat>)
    requires digits == [0, 2, 3, 8, 8, 0xb, 0xd, 0xe]
    ensures DigitsFrom(digits, 0) == 0xedb88320
  {
    assert DigitsFrom(digits, 7) == 0xe && DigitsFrom(digits, 6) == 0xed && DigitsFrom(digits, 5) == 0xedb;
    assert DigitsFrom(digits, 4) == 0xedb8 && DigitsFrom(digits, 3) == 0xedb88 && DigitsFrom(digits, 2) == 0xedb883;
    assert DigitsFrom(digits, 1) == 0xedb8832;
  }

  /** The generator is the constant the table is filled with. */
  lemma {:induction false} PolynomialIs()
    ensures Value(Polynomial()) == 0xedb88320
  {
    var digits := [0, 2, 3, 8, 8, 0xb, 0xd, 0xe];
    forall k | 0 <= k < 8 ensures Digit(Polynomial(), k) == digits[k] {
      PolynomialDigit(k);
    }
    ValueOfDigits(Polynomial(), digits, 0);
    DigitsSpell(digits);
    assert Polynomial()[0..] == Polynomial();
  }

  function Ones(): Word {
    seq(32, _ => true)
  }

  /** One bit of the shift register. */
  function Shift(c: Word): Word {
    if c[0] then Xor(Polynomial(), ShiftRight(c, 1)) else ShiftRight(c, 1)
  }

  function Shifts(c: Word, n: nat): Word {
    if n == 0 then c else Shift(Shifts(c, n - 1))
  }

  /** One byte, bit by bit. */
  function BitwiseByte(crc: Word, b: byte): Word {
    Shifts(Xor(crc, ToWord(b)), 8)
  }

  function BitwiseBytes(crc: Word, data: seq<byte>): Word {
    if data == [] then crc else BitwiseByte(BitwiseBytes(crc, data[..|data| - 1]), data[|data| - 1])
  }

  /** The CRC-32 of a byte string, bit by bit. */
  function Crc32(data: seq<byte>): Word {
    Xor(BitwiseBytes(Ones(), data), Ones())
  }

  // ---- The shift register is linear ----

  lemma {:induction false} ShiftBit(c: Word, i: nat)
    requires i < 32
    ensures Shift(c)[i] == ((c[0] && Polynomial()[i]) != (i < 31 && c[i + 1]))
  {
  }

  lemma {:induction false} ShiftIsLinear(a: Word, b: Word)
    ensures Shift(Xor(a, b)) == Xor(Shift(a), Shift(b))
  {
    forall i: nat | i < 32 ensures Shift(Xor(a, b))[i] == Xor(Shift(a), Shift(b))[i] {
      ShiftBit(Xor(a, b), i);
      ShiftBit(a, i);
      ShiftBit(b, i);
    }
  }

  lemma {:induction false} ShiftsAreLinear(a: Word, b: Word, n: nat)
    ensures Shifts(Xor(a, b), n) == Xor(Shifts(a, n), Shifts(b, n))
  {
    if n > 0 {
      ShiftsAreLinear(a, b, n - 1);
      ShiftIsLinear(Shifts(a, n - 1), Shifts(b, n - 1));
    }
  }

  /** Zero low bits are shifted out without feedback. */
  lemma {:induction false} ShiftsOfHighBits(c: Word, n: nat)
    requires n <= 32 && forall i | 0 <= i < n :: !c[i]
    ensures Shifts(c, n) == ShiftRight(c, n)
  {
    if n > 0 {
      ShiftsOfHighBits(c, n - 1);
      assert ShiftRight(c, n - 1)[0] == c[n - 1];
      assert ShiftRight(ShiftRight(c, n - 1), 1) == ShiftRight(c, n);
    }
  }

  /** The low byte of a word alone, and the rest of it. */
  function Low(c: Word): Word {
    c[..8] + seq(24, _ => false)
  }

  function High(c: Word): Word {
    seq(8, _ => false) + c[8..]
  }

  lemma {:induction false} Split(c: Word)
    ensures c == Xor(Low(c), High(c)) && ShiftRight(High(c), 8) == ShiftRight(c, 8)
  {
  }

  /** A byte reaches only the low byte of the register. */
  lemma {:induction false} ByteIsLow(crc: Word, b: byte)
    ensures ShiftRight(Xor(crc, ToWord(b)), 8) == ShiftRight(crc, 8)
  {
    assert Power2(8) == 256;
    BitsAreFew(b, 8, 32);
  }

  /** Eight shifts are a lookup by the low byte and a shift of the rest. */
  lemma {:induction false} TableStep(c: Word)
    ensures Shifts(c, 8) == Xor(Shifts(Low(c), 8), ShiftRight(c, 8))
  {
    Split(c);
    ShiftsAreLinear(Low(c), High(c), 8);
    ShiftsOfHighBits(High(c), 8);
  }

  lemma {:induction false} LowByteSelects(c: Word)
    ensures ToWord(LowByte(c)) == Low(c)
  {
    var v := LowByte(c);
    BitsOfValue(c[..8]);
    BitsPrefix(v, 8, 32);
    assert Power2(8) == 256;
    BitsAreFew(v, 8, 32);
    assert Bits(v, 32)[..8] == Low(c)[..8];
    assert forall i | 0 <= i < 8 :: Bits(v, 32)[i] == Bits(v, 32)[..8][i] == Low(c)[..8][i];
  }

  // ---- The table and the loop ----

  ghost predicate IsTable(table: seq<Word>) {
    |table| == 256 && forall i: nat | i < 256 :: table[i] == Shifts(ToWord(i), 8)
  }

  method BuildTable() returns (table: array<Word>)
    ensures fresh(table) && IsTable(table[..])
  {
    table := new Word[256];
    for i := 0 to 256
      invariant forall j: nat | j < i :: table[j] == Shifts(ToWord(j), 8)
    {
      var c := ToWord(i);
      for k := 0 to 8
        invariant c == Shifts(ToWord(i), k)
      {
        c := if c[0] then Xor(Polynomial(), ShiftRight(c, 1)) else ShiftRight(c, 1);
      }
      table[i] := c;
    }
  }

  /** One table step is one byte, bit by bit. */
  lemma {:induction false} TableByte(table: seq<Word>, crc: Word, b: byte)
    requires IsTable(table)
    ensures Xor(table[LowByte(Xor(crc, ToWord(b)))], ShiftRight(crc, 8)) == BitwiseByte(crc, b)
  {
    var c := Xor(crc, ToWord(b));
    LowByteSelects(c);
    TableStep(c);
    ByteIsLow(crc, b);
  }

  lemma {:induction false} BitwiseSnoc(crc: Word, data: seq<byte>, i: nat)
    requires i < |data|
    ensures BitwiseBytes(crc, data[..i + 1]) == BitwiseByte(BitwiseBytes(crc, data[..i]), data[i])
  {
    assert data[..i + 1][..i] == data[..i];
  }

  /** The table-driven CRC equals the bit-by-bit CRC-32 on every byte string. */
  method TableCrc32(table: array<Word>, data: seq<byte>) returns (crc: Word)
    requires IsTable(table[..])
    ensures crc == Crc32(data)
  {
    crc := Ones();
    for i := 0 to |data|
      invariant crc == BitwiseBytes(Ones(), data[..i])
    {
      BitwiseSnoc(Ones(), data, i);
      TableByte(table[..], crc, data[i]);
      crc := Xor(table[LowByte(Xor(crc, ToWord(data[i])))], ShiftRight(crc, 8));
    }
    assert data[..|data|] == data;
    crc := Xor(crc, Ones());
  }
}
