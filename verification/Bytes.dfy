/** Bytes, exclusive or, and little-endian scalars as ReadScalar and WriteScalar see them. */
module Bytes {

  type byte = x: int | 0 <= x < 256

  function Pow2(n: nat): (p: nat)
    ensures p > 0
  {
    if n == 0 then 1 else 2 * Pow2(n - 1)
  }

  /** Exclusive or of the n low bits. */
  function XorBits(a: nat, b: nat, n: nat): (r: nat)
    ensures r < Pow2(n)
  {
    if n == 0 then 0
    else (if a % 2 == b % 2 then 0 else 1) + 2 * XorBits(a / 2, b / 2, n - 1)
  }

  /** Bit j of v in binary, the least significant one being bit 0. */
  predicate Bit(v: nat, j: nat) {
    if j == 0 then v % 2 == 1 else Bit(v / 2, j - 1)
  }

  lemma {:induction false} XorBitsAt(a: nat, b: nat, n: nat, j: nat)
    requires j < n
    ensures Bit(XorBits(a, b, n), j) <==> Bit(a, j) != Bit(b, j)
  {
    var bit := if a % 2 == b % 2 then 0 else 1;
    var high := XorBits(a / 2, b / 2, n - 1);
    var x := bit + 2 * high;
    assert x == XorBits(a, b, n) && x % 2 == bit && x / 2 == high;
    if j > 0 {
      XorBitsAt(a / 2, b / 2, n - 1, j - 1);
    }
  }

  lemma {:induction false} XorBitsTwice(a: nat, b: nat, n: nat)
    requires a < Pow2(n)
    ensures XorBits(XorBits(a, b, n), b, n) == a
  {
    if n > 0 {
      var bit := if a % 2 == b % 2 then 0 else 1;
      var high := XorBits(a / 2, b / 2, n - 1);
      var x := bit + 2 * high;
      assert x == XorBits(a, b, n) && x % 2 == bit && x / 2 == high;
      XorBitsTwice(a / 2, b / 2, n - 1);
    }
  }

  const BYTE_BITS: nat := 8

  lemma EightBits()
    ensures Pow2(BYTE_BITS) == 256
  {
    assert Pow2(8) == 256;
  }

  /** The ^ of two uint8_t. */
  function Xor(a: byte, b: byte): byte {
    EightBits();
    XorBits(a, b, BYTE_BITS)
  }

  /** Bit j of the result is set exactly if bit j of one of the two is. */
  lemma XorAt(a: byte, b: byte, j: nat)
    requires j < BYTE_BITS
    ensures Bit(Xor(a, b), j) <==> Bit(a, j) != Bit(b, j)
  {
    XorBitsAt(a, b, BYTE_BITS, j);
  }

  lemma XorTwice(a: byte, k: byte)
    ensures Xor(Xor(a, k), k) == a
  {
    EightBits();
    XorBitsTwice(a, k, BYTE_BITS);
  }

  /** The n low bytes of v, least significant first. */
  function LE(v: nat, n: nat): (r: seq<byte>)
    ensures |r| == n
  {
    if n == 0 then [] else [v % 256] + LE(v / 256, n - 1)
  }

  function Num(s: seq<byte>): (v: nat) {
    if s == [] then 0 else s[0] + 256 * Num(s[1..])
  }

  function Pow256(n: nat): nat {
    if n == 0 then 1 else 256 * Pow256(n - 1)
  }

  lemma {:induction false} NumLE(v: nat, n: nat)
    requires v < Pow256(n)
    ensures Num(LE(v, n)) == v
  {
    if n > 0 {
      NumLE(v / 256, n - 1);
    }
  }

  const WORD_BYTES: nat := 4

  /** A uint32_t as WriteScalar stores it. */
  function LE32(v: nat): (r: seq<byte>)
    ensures |r| == 4
  {
    LE(v, WORD_BYTES)
  }

  lemma LE32Num(v: nat)
    requires v < 0x1_0000_0000
    ensures Num(LE32(v)) == v
  {
    Pow256Values();
    NumLE(v, WORD_BYTES);
  }

  function Quad(a: nat, b: nat, c: nat, d: nat): nat {
    a + 0x100 * b + 0x1_0000 * c + 0x100_0000 * d
  }

  /** ReadScalar of a uint32_t at index `at`. */
  function Word(m: seq<byte>, at: int): nat
    requires 0 <= at && at + 4 <= |m|
  {
    Quad(m[at], m[at + 1], m[at + 2], m[at + 3])
  }

  lemma WordIsNum(m: seq<byte>, at: int)
    requires 0 <= at && at + 4 <= |m|
    ensures Word(m, at) == Num(m[at..at + 4])
  {
    var w := m[at..at + 4];
    assert Num(w[3..]) == w[3] + 256 * Num(w[4..]);
    assert w[2..][1..] == w[3..] && w[1..][1..] == w[2..] && w[3..][1..] == w[4..];
    assert Num(w[2..]) == w[2] + 256 * Num(w[3..]);
    assert Num(w[1..]) == w[1] + 256 * Num(w[2..]);
  }

  /** A 32-bit word read as a signed int32_t. */
  function Int32(v: nat): int {
    if v < 0x8000_0000 then v else v - 0x1_0000_0000
  }

  /** The 32-bit word that stores v (two's complement). */
  function Word32(v: int): nat
    requires -0x8000_0000 <= v < 0x8000_0000
  {
    if 0 <= v then v else v + 0x1_0000_0000
  }

  lemma Pow256Values()
    ensures Pow256(1) == 0x100 && Pow256(2) == 0x1_0000 && Pow256(4) == 0x1_0000_0000
  {
    assert Pow256(2) == 256 * Pow256(1);
    assert Pow256(3) == 256 * Pow256(2);
  }

  /** The block s with src written over it at index `at`. */
  function Splice(s: seq<byte>, at: nat, src: seq<byte>): (r: seq<byte>)
    requires at + |src| <= |s|
    ensures |r| == |s|
  {
    s[..at] + src + s[at + |src|..]
  }

  /** The n bytes that start at offset off from the end. That the whole block starts at index 0 is
      said separately, because the verifier does badly with s[i..] for an i that may be 0. */
  function FromEnd(s: seq<byte>, off: nat, n: nat): (r: seq<byte>)
    requires n <= off <= |s|
    ensures |r| == n
  {
    if off == |s| then s[..n] else s[|s| - off..|s| - off + n]
  }

  /** memcpy of a whole sequence into an array. */
  method Memcpy(dst: array<byte>, at: nat, src: seq<byte>)
    requires at + |src| <= dst.Length
    modifies dst
    ensures dst[..] == Splice(old(dst[..]), at, src)
  {
    for i := 0 to |src|
      invariant forall k :: 0 <= k < dst.Length ==> dst[k] == if at <= k < at + i then src[k - at] else old(dst[k])
    {
      dst[at + i] := src[i];
    }
  }
}
