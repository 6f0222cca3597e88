/** NetworkServer::Convert, the XOR transform of packet bodies. */
module Cipher {
  import opened Bytes

  /** "MMORPG - MOBIRIX" */
  const KEY: seq<byte> := [77, 77, 79, 82, 80, 71, 32, 45, 32, 77, 79, 66, 73, 82, 73, 88]

  /** The key byte used at position n (uint8_t arithmetic, modulo 256). */
  function KeyAt(n: nat): byte
    decreases n, 1
  {
    NextKey(KeyBefore(n), n)
  }

  function KeyBefore(n: nat): byte
    decreases n, 0
  {
    if n == 0 then 0 else KeyAt(n - 1)
  }

  function NextKey(key: byte, n: nat): byte {
    ((key + KEY[n % 16]) * 253 + 195) % 256
  }

  function Converted(s: seq<byte>): (r: seq<byte>) {
    seq(|s|, i requires 0 <= i < |s| => Xor(s[i], KeyAt(i)))
  }

  // What the transform is ----------------------------------------------------------------

  function Pow253(n: nat): nat {
    if n == 0 then 1 else 253 * Pow253(n - 1)
  }

  /** What the letter of the key at position i adds. */
  function KeyPart(i: nat): nat {
    var letter: int := KEY[i % 16];
    letter * 253 + 195
  }

  /** The sum over i < k of (KEY[i % 16] * 253 + 195) * 253^(n - i). */
  function KeySum(n: nat, k: nat): nat
    requires k <= n + 1
  {
    if k == 0 then 0 else KeySum(n, k - 1) + KeyPart(k - 1) * Pow253(n - (k - 1))
  }

  /** Written out, without reference to the key bytes before it. */
  function KeyByte(n: nat): byte {
    KeySum(n, n + 1) % 256
  }

  lemma {:induction false} KeySumNext(n: nat, k: nat)
    requires k <= n + 1
    ensures KeySum(n + 1, k) == 253 * KeySum(n, k)
  {
    if k > 0 {
      KeySumNext(n, k - 1);
      Shift(KeyPart(k - 1), Pow253(n - (k - 1)), Pow253(n + 1 - (k - 1)));
    }
  }

  lemma Shift(c: nat, p: nat, q: nat)
    requires q == 253 * p
    ensures c * q == 253 * (c * p)
  {
  }

  lemma NextInSum(sum: nat, key: nat, c: nat)
    requires key == sum % 256
    ensures (key * 253 + c) % 256 == (253 * sum + c) % 256
  {
    var q := sum / 256;
    assert sum == 256 * q + key;
    assert 253 * sum + c == 256 * (253 * q) + (key * 253 + c);
  }

  lemma LastInSum(n: nat)
    ensures KeySum(n, n + 1) == KeySum(n, n) + KeyPart(n)
  {
    assert Pow253(0) == 1;
  }

  lemma {:induction false} KeyAtIs(n: nat)
    ensures KeyAt(n) == KeyByte(n)
  {
    LastInSum(n);
    if n > 0 {
      KeyAtIs(n - 1);
      KeySumNext(n - 1, n);
      NextInSum(KeySum(n - 1, n), KeyAt(n - 1), KeyPart(n));
    }
  }

  /** Bit by bit, d is c with the key bytes exclusive-ored in, from position 0 on. */
  ghost predicate Enciphers(c: seq<byte>, d: seq<byte>) {
    && |d| == |c|
    && forall i, j: nat :: 0 <= i < |c| && j < 8 ==> (Bit(d[i], j) <==> Bit(c[i], j) != Bit(KeyByte(i), j))
  }

  lemma ConvertedIs(s: seq<byte>)
    ensures Enciphers(s, Converted(s))
  {
    forall i, j: nat | 0 <= i < |s| && j < 8
      ensures Bit(Converted(s)[i], j) <==> Bit(s[i], j) != Bit(KeyByte(i), j)
    {
      XorAt(s[i], KeyAt(i), j);
      KeyAtIs(i);
    }
  }

  const FIRST_KEY_BYTES: seq<byte> := [220, 72, 254, 211, 90, 224, 195, 243, 138, 62, 28, 169, 237, 6, 214, 57]

  /** One turn of the key, from one of these bytes to the next. */
  lemma NextOfThese(n: nat)
    requires n < 16
    ensures NextKey(if n == 0 then 0 else FIRST_KEY_BYTES[n - 1], n) == FIRST_KEY_BYTES[n]
  {
  }

  /** A body of sixteen zeros is sent as these bytes. */
  lemma {:induction false} FirstKeyBytes(n: nat)
    requires n < 16
    ensures KeyAt(n) == KeyByte(n) == FIRST_KEY_BYTES[n]
  {
    if n > 0 {
      FirstKeyBytes(n - 1);
    }
    NextOfThese(n);
    KeyAtIs(n);
  }

  /** Length-preserving, and its own inverse. */
  lemma ConvertedTwice(s: seq<byte>)
    ensures |Converted(s)| == |s|
    ensures Converted(Converted(s)) == s
  {
    forall i | 0 <= i < |s| ensures Converted(Converted(s))[i] == s[i] {
      XorTwice(s[i], KeyAt(i));
    }
  }

  /** A prefix of the input alone decides the same prefix of the output. */
  lemma ConvertedPrefix(s: seq<byte>, n: nat)
    requires n <= |s|
    ensures Converted(s[..n]) == Converted(s)[..n]
  {
  }

  /** Convert(buffer, bufferSize): n bytes from `at` on, in place. */
  method Convert(a: array<byte>, at: nat, n: nat)
    requires at + n <= a.Length
    modifies a
    ensures a[..] == Splice(old(a[..]), at, Converted(old(a[..])[at..at + n]))
    ensures Enciphers(old(a[..])[at..at + n], a[..][at..at + n])
  {
    var key: byte := 0;
    var i := 0;
    while i < n
      invariant i <= n && key == KeyBefore(i)
      invariant forall k :: 0 <= k < a.Length ==>
                  a[k] == if at <= k < at + i then Xor(old(a[k]), KeyAt(k - at)) else old(a[k])
    {
      key := NextKey(key, i);
      a[at + i] := Xor(a[at + i], key);
      i := i + 1;
    }
    ConvertDone(old(a[..]), a[..], at, n);
    ConvertedIs(old(a[..])[at..at + n]);
  }

  lemma ConvertDone(b: seq<byte>, c: seq<byte>, at: nat, n: nat)
    requires at + n <= |b| == |c|
    requires forall k :: 0 <= k < |b| ==> c[k] == if at <= k < at + n then Xor(b[k], KeyAt(k - at)) else b[k]
    ensures c == Splice(b, at, Converted(b[at..at + n])) && c[at..at + n] == Converted(b[at..at + n])
  {
    var d := Converted(b[at..at + n]);
    assert c[..at] == b[..at] && c[at + n..] == b[at + n..];
    assert c[at..at + n] == d;
    assert c == c[..at] + c[at..at + n] + c[at + n..];
  }
}
