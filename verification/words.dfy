/** Bytes, and 32-bit words as their bits, least significant first. */
module Words {
  type byte = b: int | 0 <= b < 256

  type Word = w: seq<bool> | |w| == 32 witness seq(32, _ => false)

  /** The `k` low bits of a number. */
  function Bits(n: nat, k: nat): (bits: seq<bool>)
    ensures |bits| == k
  {
    if k == 0 then [] else [n % 2 == 1] + Bits(n / 2, k - 1)
  }

  /** The number its bits spell. */
  function Value(bits: seq<bool>): nat {
    if bits == [] then 0 else (if bits[0] then 1 else 0) + 2 * Value(bits[1..])
  }

  lemma {:induction false} Halve(bit: nat, v: nat)
    requires bit <= 1
    ensures (bit + 2 * v) % 2 == bit && (bit + 2 * v) / 2 == v
  {
  }

  lemma {:induction false} BitsOfValue(bits: seq<bool>)
    ensures Bits(Value(bits), |bits|) == bits
  {
    if bits != [] {
      BitsOfValue(bits[1..]);
      Halve(if bits[0] then 1 else 0, Value(bits[1..]));
    }
  }

  function Power2(k: nat): nat {
    if k == 0 then 1 else 2 * Power2(k - 1)
  }

  lemma {:induction false} ValueBound(bits: seq<bool>)
    ensures Value(bits) < Power2(|bits|)
  {
    if bits != [] {
      ValueBound(bits[1..]);
    }
  }

  lemma {:induction false} BitsAreFew(n: nat, k: nat, m: nat)
    requires n < Power2(k) && k <= m
    ensures forall i | k <= i < m :: !Bits(n, m)[i]
  {
    if m > 0 {
      if k > 0 {
        BitsAreFew(n / 2, k - 1, m - 1);
      } else {
        BitsAreFew(0, 0, m - 1);
      }
      forall i | k <= i < m ensures !Bits(n, m)[i] {
        if i > 0 {
          assert Bits(n, m)[i] == Bits(n / 2, m - 1)[i - 1];
        }
      }
    }
  }

  lemma {:induction false} BitsPrefix(n: nat, k: nat, m: nat)
    requires k <= m
    ensures Bits(n, m)[..k] == Bits(n, k)
  {
    if k > 0 {
      BitsPrefix(n / 2, k - 1, m - 1);
      assert Bits(n, m)[..k] == [n % 2 == 1] + Bits(n / 2, m - 1)[..k - 1];
    }
  }

  function ToWord(n: nat): Word {
    Bits(n, 32)
  }

  function Xor(a: Word, b: Word): Word {
    seq(32, i requires 0 <= i < 32 => a[i] != b[i])
  }

  /** Logical shift right. */
  function ShiftRight(a: Word, k: nat): Word
    requires k <= 32
  {
    a[k..] + seq(k, _ => false)
  }

  /** The low byte of a word, as a number. */
  function LowByte(a: Word): (b: byte)
  {
    LowByteBound(a);
    Value(a[..8])
  }

  lemma {:induction false} LowByteBound(a: Word)
    ensures Value(a[..8]) < 256
  {
    ValueBound(a[..8]);
    assert Power2(8) == 256;
  }
}
