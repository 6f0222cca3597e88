/** Receiving: Complete on the ring, and whole runs of transfers. */
module Reception {
  import opened Bytes
  import opened RingQ
  import opened Receive
  import opened ReceiveProof

  // One completion on the ring -----------------------------------------------------------------

  /** WSARecv: the bytes go to the listed segments in order. */
  method FillSegments(r: Ring, segs: seq<Segment>, data: seq<byte>)
    requires r.Valid() && segs == DirectSegments(r.buf.Length, r.readPos, r.writePos, 2)
    requires |data| <= FreeSize(r.buf.Length, r.readPos, r.writePos)
    modifies r.buf
    ensures Filled(old(r.buf[..]), r.buf[..], Indices(segs), data)
  {
    ghost var was := r.buf[..];
    var idx := Indices(segs);
    ScatterList(r.buf.Length, r.readPos, r.writePos);
    for i := 0 to |data|
      invariant Filled(was, r.buf[..], idx, data[..i])
    {
      ghost var before := r.buf[..];
      r.buf[idx[i]] := data[i];
      FilledStep(was, before, idx, data, i);
    }
    assert data[..|data|] == data;
  }

  lemma FilledStep(b: seq<byte>, c: seq<byte>, idx: seq<int>, data: seq<byte>, i: nat)
    requires i < |data| <= |idx| && Filled(b, c, idx, data[..i])
    requires forall j, k :: 0 <= j < k < |idx| ==> idx[j] != idx[k]
    ensures Filled(b, c[idx[i] := data[i]], idx, data[..i + 1])
  {
    var d := c[idx[i] := data[i]];
    forall j | 0 <= j < i + 1 ensures d[idx[j]] == data[..i + 1][j] {
      assert j < i ==> c[idx[j]] == data[..i][j];
    }
    forall j | 0 <= j < |b| && j !in idx[..i + 1] ensures d[j] == b[j] {
      assert idx[..i + 1] == idx[..i] + [idx[i]];
    }
  }

  /** The transfer that Start asked for, and Complete's MoveWitePosition. */
  method TakeIn(r: Ring, data: seq<byte>)
    requires r.Valid() && |data| <= FreeSize(r.buf.Length, r.readPos, r.writePos)
    modifies r`writePos, r.buf
    ensures r.Valid() && r.Contents() == old(r.Contents()) + data
  {
    Sizes(r.buf.Length, r.readPos, r.writePos);
    var segs := r.GetDirectEnQData();
    ghost var b, rear := r.buf[..], r.writePos;
    FillSegments(r, segs, data);
    ghost var c := r.buf[..];
    TransferAppends(b, c, r.readPos, rear, data);
    r.MoveWritePosition(|data|);
    assert r.buf[..] == c && r.writePos == Rem(rear + |data|, |c|);
  }

  lemma Parsed(b: seq<byte>, y: seq<byte>, front: int, rear: int, s: seq<byte>, r: Looped,
               b': seq<byte>, y': seq<byte>) returns (left: seq<byte>)
    requires InRing(|b|, front, rear) && s == Stored(b, front, rear) && |y| >= |b| + 4
    requires |s| < |b| && Safe(|b|, front, s)
    requires r == Loop(b + y, |b|, front, rear) && r.mem == b' + y' && |b'| == |b| && |y'| == |y|
    ensures InRing(|b|, r.front, rear) && y' == y && left == Stored(b', r.front, rear)
    ensures Yields(s, r.out, left) && |left| <= |s| && r.front == Rem(front + (|s| - |left|), |b|)
  {
    var c := LoopRight(b, y, front, rear, s, r);
    left := Stored(c, r.front, rear);
    SameParts(b', y', c, y);
  }

  lemma SameParts(a: seq<byte>, b: seq<byte>, c: seq<byte>, d: seq<byte>)
    requires a + b == c + d && |a| == |c|
    ensures a == c && b == d
  {
    assert a == (a + b)[..|a|] && c == (c + d)[..|c|];
    assert b == (a + b)[|a|..] && d == (c + d)[|c|..];
  }

  /** A transfer and its completion: take the bytes in, run the loop, ask for more if there is
      room. */
  method Complete(r: Ring, beyond: array<byte>, data: seq<byte>, ghost s: seq<byte>)
    returns (out: seq<seq<byte>>, again: bool)
    requires r.Valid() && beyond != r.buf && beyond.Length >= r.buf.Length + 4
    requires 1 <= |data| <= FreeSize(r.buf.Length, r.readPos, r.writePos) && s == r.Contents() + data
    modifies r`readPos, r`writePos, r.buf, beyond
    ensures r.Valid() && again == (FreeSize(r.buf.Length, r.readPos, r.writePos) > 0) && |s| < r.buf.Length
    ensures Safe(r.buf.Length, old(r.readPos), s) ==>
              && Yields(s, out, r.Contents()) && |r.Contents()| <= |s| && beyond[..] == old(beyond[..])
              && r.readPos == Rem(old(r.readPos) + (|s| - |r.Contents()|), r.buf.Length)
  {
    Sizes(r.buf.Length, r.readPos, r.writePos);
    TakeIn(r, data);
    ghost var b, y, front := r.buf[..], beyond[..], r.readPos;
    out := FrameLoop(r, beyond);
    if Safe(r.buf.Length, front, s) {
      var left := Parsed(b, y, front, r.writePos, s, Loop(b + y, |b|, front, r.writePos), r.buf[..], beyond[..]);
    }
    again := FreeSize(r.buf.Length, r.readPos, r.writePos) > 0;
  }
}
