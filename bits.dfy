/** Bits of the integer handed to the byte transmitter: the bit it tests at
    each step, and the most-significant-bit-first order of a transmitted byte. */
module Bits {
  import Arith

  /** Bit `k` of `c` in two's complement, that is `c & (1 << k) != 0`.
      Dafny's division by 2 rounds down, as an arithmetic right shift does. */
  function Bit(c: int, k: nat): bool
    decreases k
  {
    if k == 0 then c % 2 == 1 else Bit(c / 2, k - 1)
  }

  /** `c` shifted left by `i` places, with no width limit. */
  function Shl(c: int, i: nat): int
  {
    if i == 0 then c else 2 * Shl(c, i - 1)
  }

  /** Two to the power `n`. */
  function Pow2(n: nat): (p: nat)
    ensures p > 0
  {
    if n == 0 then 1 else 2 * Pow2(n - 1)
  }

  /** After `i` left shifts, bit `k + i` holds what bit `k` held before. */
  lemma {:induction false} ShlBit(c: int, i: nat, k: nat)
    ensures Bit(Shl(c, i), k + i) == Bit(c, k)
  {
    if i > 0 {
      ShlBit(c, i - 1, k);
      assert 2 * Shl(c, i - 1) / 2 == Shl(c, i - 1);
    }
  }

  /** The `n` lowest bits of `c`, most significant first. */
  function LowBits(c: int, n: nat): (bits: seq<bool>)
    ensures |bits| == n
    decreases n
  {
    if n == 0 then [] else LowBits(c / 2, n - 1) + [c % 2 == 1]
  }

  /** The eight bits a byte transmission puts on the wire, in wire order. */
  function ByteBits(c: int): (bits: seq<bool>)
    ensures |bits| == 8
  {
    LowBits(c, 8)
  }

  /** The number a most-significant-first bit string spells. */
  function Value(bits: seq<bool>): nat
  {
    if bits == [] then 0
    else 2 * Value(bits[..|bits| - 1]) + (if bits[|bits| - 1] then 1 else 0)
  }

  /** Position `j` of the most-significant-first string is bit `n - 1 - j`. */
  lemma {:induction false} LowBitsAt(c: int, n: nat, j: nat)
    requires j < n
    ensures LowBits(c, n)[j] == Bit(c, n - 1 - j)
    decreases n
  {
    if j < n - 1 {
      LowBitsAt(c / 2, n - 1, j);
    }
  }

  /** Decoding the `n` low bits gives back `c` modulo 2^n. */
  lemma {:induction false} LowBitsValue(c: int, n: nat)
    ensures Value(LowBits(c, n)) == c % Pow2(n)
    decreases n
  {
    if n > 0 {
      LowBitsValue(c / 2, n - 1);
      var bits := LowBits(c, n);
      assert bits[..n - 1] == LowBits(c / 2, n - 1);
      Arith.ModSplit(c, 2, Pow2(n - 1));
    }
  }

  /** Encoding the value of a bit string in as many bits gives the string back. */
  lemma {:induction false} ValueLowBits(bits: seq<bool>)
    ensures LowBits(Value(bits), |bits|) == bits
  {
    if bits != [] {
      var init := bits[..|bits| - 1];
      ValueLowBits(init);
      var v := Value(bits);
      assert v / 2 == Value(init);
      assert bits == init + [bits[|bits| - 1]];
    }
  }

  /** A byte transmission carries exactly the low eight bits of `c`:
      they spell `c % 256`, and no other bit of `c` matters. */
  lemma ByteBitsValue(c: int)
    ensures Value(ByteBits(c)) == c % 256
    ensures ByteBits(c) == ByteBits(c % 256)
  {
    LowBitsValue(c, 8);
    assert Pow2(8) == 256;
    ValueLowBits(ByteBits(c));
  }

  /** The address byte: the 7-bit address, most significant first, followed
      by a clear direction bit (write). */
  lemma AddressBits(address: int)
    ensures ByteBits(address * 2) == LowBits(address, 7) + [false]
  {
    assert address * 2 / 2 == address;
  }
}
