/**
 The buffer that grows from high to low addresses, with a scratch area at its low end.
 Reallocation moves both ends to a larger block.
 */
module VectorDownward {
  import opened Bytes

  function Max(a: nat, b: nat): nat {
    if a < b then b else a
  }

  /** `(x + a - 1) & ~(a - 1)` for a power of two a. */
  function AlignUp(x: nat, a: nat): (r: nat)
    requires a > 0
    ensures r >= x
  {
    var t := x + a - 1;
    t - t % a
  }

  function Zeros(n: nat): (z: seq<byte>)
    ensures |z| == n && forall i :: 0 <= i < n ==> z[i] == 0
  {
    if n == 0 then [] else Zeros(n - 1) + [0]
  }

  /** A write leaves every part below it and every part above it. */
  lemma SpliceParts(s: seq<byte>, at: nat, src: seq<byte>, below: nat, above: nat)
    requires below <= at && at + |src| <= above <= |s|
    ensures Splice(s, at, src)[..below] == s[..below]
    ensures Splice(s, at, src)[above..] == s[above..]
    ensures Splice(s, at, src)[at..] == src + s[at + |src|..]
    ensures Splice(s, at, src)[..at + |src|] == s[..at] + src
  {
    var r := Splice(s, at, src);
    assert r[..at] == s[..at];
    assert r[..below] == r[..at][..below];
    assert r[at + |src|..] == s[at + |src|..];
    assert r[above..] == r[at + |src|..][above - at - |src|..];
  }

  /** Bytes written just in front of d, above the scratch part e. */
  lemma InFront(s: seq<byte>, at: nat, src: seq<byte>, scratch: nat, d: seq<byte>, e: seq<byte>)
    requires scratch <= at && at + |src| + |d| == |s| && s == s[..at + |src|] + d && s[..scratch] == e
    ensures Splice(s, at, src) == Splice(s, at, src)[..at] + (src + d) && Splice(s, at, src)[..scratch] == e
  {
    var b := s[..at + |src|];
    assert s[at + |src|..] == d;
    assert Splice(s, at, src) == s[..at] + src + d;
  }

  /** Bytes written just behind the scratch part e, below d. */
  lemma Behind(s: seq<byte>, at: nat, src: seq<byte>, cur: nat, d: seq<byte>, e: seq<byte>)
    requires 0 < |src| && at + |src| <= cur && cur + |d| == |s| && s == s[..cur] + d && s[..at] == e
    ensures Splice(s, at, src)[..at + |src|] == e + src
    ensures Splice(s, at, src) == Splice(s, at, src)[..cur] + d
  {
    SpliceInFront(s[..cur], at, src, d);
  }

  /** memcpy_downward: the part in use at the back, then the part in use at the front. */
  method MemcpyDownward(p: seq<byte>, block: array<byte>, back: nat, front: nat)
    requires back + front <= |p| <= block.Length
    modifies block
    ensures block[..][block.Length - back..] == p[|p| - back..]
    ensures block[..][..front] == p[..front]
  {
    var high := p[|p| - back..];
    var n := block.Length - back;
    ghost var b0 := block[..];
    Memcpy(block, n, high);
    ghost var b1 := block[..];
    SpliceParts(b0, n, high, 0, block.Length);
    assert b1[n..] == high + b0[block.Length..];
    Memcpy(block, 0, p[..front]);
    SpliceParts(b1, 0, p[..front], 0, n);
  }

  /** The loop of fill. */
  method ZeroOut(dst: array<byte>, at: nat, n: nat)
    requires at + n <= dst.Length
    modifies dst
    ensures dst[..] == Splice(old(dst[..]), at, Zeros(n))
  {
    for i := 0 to n
      invariant forall k :: 0 <= k < dst.Length ==> dst[k] == if at <= k < at + i then 0 else old(dst[k])
    {
      dst[at + i] := 0;
    }
  }

  class Vector {
    const initialSize: nat
    const minAlign: nat
    var buf: array?<byte>            // buf_
    var reserved: nat                // reserved_
    var size: nat                    // size_
    var cur: nat                     // cur_ - buf_
    var scratch: nat                 // scratch_ - buf_

    ghost var data: seq<byte>        // the written part, lowest address first
    ghost var pad: seq<byte>         // the scratch part

    ghost var block: seq<byte>       // the whole block

    ghost predicate Valid()
      reads this, buf
    {
      && minAlign > 0 && scratch <= cur && cur + size == reserved == |block|
      && block == block[..cur] + data && |data| == size && pad == block[..scratch] && |pad| == scratch
      && if buf == null then reserved == 0
         else buf.Length == reserved && forall i :: 0 <= i < reserved ==> buf[i] == block[i]
    }

    constructor (initialSize: nat, minAlign: nat)
      requires minAlign > 0
      ensures Valid() && data == [] && pad == [] && buf == null
    {
      this.initialSize := initialSize;
      this.minAlign := minAlign;
      buf, reserved, size, cur, scratch := null, 0, 0, 0, 0;
      data, pad, block := [], [], [];
    }

    /** The new reserved_: more by len or by half, or the initial size, rounded up. */
    method Grown(len: nat) returns (r: nat)
      requires minAlign > 0
      ensures r >= reserved + len
    {
      r := AlignUp(reserved + Max(len, if reserved != 0 then reserved / 2 else initialSize), minAlign);
    }

    /** reallocate: a bigger block, both ends copied, and room for len bytes in between. */
    method Reallocate(len: nat)
      requires Valid()
      modifies this`buf, this`reserved, this`cur, this`block
      ensures Valid() && fresh(buf) && reserved >= old(reserved) + len && cur - scratch >= len
    {
      var newReserved := Grown(len);
      var bigger := new byte[newReserved](_ => 0);
      if buf != null {
        assert buf[..] == block;
        MemcpyDownward(buf[..], bigger, size, scratch);
      }
      buf := bigger;
      reserved := newReserved;
      cur := newReserved - size;
      block := bigger[..];
    }

    method EnsureSpace(len: nat)
      requires Valid()
      modifies this`buf, this`reserved, this`cur, this`block
      ensures Valid() && cur - scratch >= len && (buf == old(buf) || fresh(buf))
    {
      if len > cur - scratch {
        Reallocate(len);
      }
    }

    /** make_space: len bytes of anything in front of what is there. */
    method MakeSpace(len: nat)
      requires Valid()
      modifies this`buf, this`reserved, this`cur, this`size, this`data, this`block
      ensures Valid() && size == old(size) + len && data == data[..len] + old(data)
      ensures (buf == old(buf) || fresh(buf)) && (len > 0 ==> buf != null)
    {
      if len > 0 {
        EnsureSpace(len);
        cur := cur - len;
        size := size + len;
        data := block[cur..cur + len] + data;
      }
    }

    /** push: num bytes in front of what is there. */
    method Push(bytes: seq<byte>)
      requires Valid()
      modifies this`buf, this`reserved, this`cur, this`size, this`data, this`block, buf
      ensures Valid() && data == bytes + old(data) && (buf == old(buf) || fresh(buf))
    {
      if |bytes| > 0 {
        MakeSpace(|bytes|);
        assert buf[..] == block;
        InFront(block, cur, bytes, scratch, old(data), pad);
        Memcpy(buf, cur, bytes);
        data, block := bytes + old(data), buf[..];
      }
    }

    /** fill: zero bytes in front, written one by one. */
    method Fill(n: nat)
      requires Valid()
      modifies this`buf, this`reserved, this`cur, this`size, this`data, this`block, buf
      ensures Valid() && data == Zeros(n) + old(data) && (buf == old(buf) || fresh(buf))
    {
      MakeSpace(n);
      if n > 0 {
        assert buf[..] == block;
        InFront(block, cur, Zeros(n), scratch, old(data), pad);
        ZeroOut(buf, cur, n);
        data, block := Zeros(n) + old(data), buf[..];
      }
    }

    /** pop removes the bytes written last. */
    method Pop(n: nat)
      requires Valid() && n <= size
      modifies this`cur, this`size, this`data
      ensures Valid() && data == old(data)[n..]
    {
      cur := cur + n;
      size := size - n;
      data := data[n..];
    }

    /** scratch_push_small; a scalar has at least one byte. */
    method ScratchPush(bytes: seq<byte>)
      requires Valid() && |bytes| > 0
      modifies this`buf, this`reserved, this`cur, this`scratch, this`pad, this`block, buf
      ensures Valid() && pad == old(pad) + bytes && (buf == old(buf) || fresh(buf))
    {
      EnsureSpace(|bytes|);
      assert buf[..] == block;
      Behind(block, scratch, bytes, cur, data, pad);
      Memcpy(buf, scratch, bytes);
      scratch := scratch + |bytes|;
      pad, block := pad + bytes, buf[..];
    }

    method ScratchPop(n: nat)
      requires Valid() && n <= scratch
      modifies this`scratch, this`pad
      ensures Valid() && pad == old(pad)[..|old(pad)| - n]
    {
      HeadOfHead(block, scratch, scratch - n);
      scratch := scratch - n;
      pad := block[..scratch];
    }

    method ClearScratch()
      requires Valid()
      modifies this`scratch, this`pad
      ensures Valid() && pad == []
    {
      scratch, pad := 0, [];
    }

    /** What data_at(off) points to. */
    method ReadAt(off: nat, n: nat) returns (bytes: seq<byte>)
      requires Valid() && n <= off <= size
      ensures bytes == FromEnd(data, off, n)
    {
      if n == 0 {
        return [];
      }
      assert buf[..] == block;
      bytes := buf[..][reserved - off..reserved - off + n];
      SliceOfTail(block, cur, size - off, n);
    }

    method ReadScratch(at: nat, n: nat) returns (bytes: seq<byte>)
      requires Valid() && at + n <= scratch
      ensures bytes == pad[at..at + n]
    {
      if n == 0 {
        return [];
      }
      assert buf[..] == block && forall i :: 0 <= i < |pad| ==> pad[i] == block[i];
      bytes := buf[..][at..at + n];
    }

    /** WriteScalar through data_at(off): an overwrite of bytes already there. */
    method WriteAt(off: nat, bytes: seq<byte>)
      requires Valid() && 0 < |bytes| <= off <= size
      modifies buf, this`data, this`block
      ensures Valid() && data == Splice(old(data), |old(data)| - off, bytes)
    {
      assert buf[..] == block;
      ghost var d := Splice(data, size - off, bytes);
      Overwritten(block, cur, size - off, bytes, scratch, data, pad);
      Memcpy(buf, reserved - off, bytes);
      data, block := d, buf[..];
    }
  }

  lemma HeadOfHead(s: seq<byte>, n: nat, m: nat)
    requires m <= n <= |s|
    ensures s[..n][..m] == s[..m]
  {
  }

  lemma SliceOfTail(s: seq<byte>, from: nat, i: nat, n: nat)
    requires from + i + n <= |s|
    ensures s[from..][i..i + n] == s[from + i..from + i + n]
  {
  }

  /** Bytes written inside d, which starts at `from`, above the scratch part e. */
  lemma Overwritten(s: seq<byte>, from: nat, at: nat, src: seq<byte>, scratch: nat, d: seq<byte>, e: seq<byte>)
    requires scratch <= from && from + |d| == |s| && at + |src| <= |d| && s == s[..from] + d && e == s[..scratch]
    ensures Splice(s, from + at, src) == Splice(s, from + at, src)[..from] + Splice(d, at, src)
    ensures Splice(s, from + at, src)[..scratch] == e
  {
    SpliceParts(s, from + at, src, scratch, |s|);
    SpliceInside(s[..from], d, at, src);
  }

  lemma SpliceInFront(front: seq<byte>, at: nat, src: seq<byte>, d: seq<byte>)
    requires at + |src| <= |front|
    ensures Splice(front + d, at, src) == Splice(front, at, src) + d
  {
  }

  lemma SpliceInside(front: seq<byte>, d: seq<byte>, at: nat, src: seq<byte>)
    requires at + |src| <= |d|
    ensures Splice(front + d, |front| + at, src) == front + Splice(d, at, src)
  {
  }
}
