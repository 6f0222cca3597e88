/**
 Whole runs of transfers into a ring of n bytes: what is handed over, exactly when a message
 is spoilt by the end of the buffer, and exactly when receiving stops.
 */
module ReceptionRun {
  import opened Arith
  import opened Bytes
  import opened RingQ
  import opened Frames
  import opened ReceiveProof
  import opened Reception

  /** Position, unread bytes and messages handed over so far; Spoilt once what is handed over
      depended on memory behind the buffer. */
  datatype Conn = Conn(front: int, left: seq<byte>, out: seq<seq<byte>>) | Spoilt

  predicate Good(n: int, c: Conn) {
    c.Conn? ==> 0 <= c.front < n && |c.left| < n
  }

  /** A transfer that WSARecv can complete with: at least one byte, and no more than the room
      that Start offered. */
  predicate Fits(n: int, c: Conn, chunk: seq<byte>) {
    c.Conn? ==> 1 <= |chunk| && |c.left| + |chunk| < n
  }

  ghost function Transfer(n: int, c: Conn, chunk: seq<byte>): (d: Conn)
    requires Good(n, c) && Fits(n, c, chunk)
    ensures Good(n, d)
  {
    if c.Spoilt? then Spoilt else
    var now := c.left + chunk;
    if !Safe(n, c.front, now) then Spoilt else
    RestShorter(now);
    Conn(Rem(c.front + (|now| - |Rest(now)|), n), Rest(now), c.out + OpenedAll(FramesOf(now)))
  }

  lemma RestShorter(s: seq<byte>)
    ensures |Rest(s)| <= |s|
  {
    YieldsIs(s, [], []);
  }

  /** The run from an empty ring; a transfer that cannot be is skipped. */
  ghost function Run(n: int, chunks: seq<seq<byte>>): (c: Conn)
    requires n > 1
    ensures Good(n, c)
  {
    if chunks == [] then Conn(0, [], []) else
    var c := Run(n, chunks[..|chunks| - 1]);
    if Fits(n, c, chunks[|chunks| - 1]) then Transfer(n, c, chunks[|chunks| - 1]) else c
  }

  /** Every transfer of the run is one that can be. */
  ghost predicate Possible(n: int, chunks: seq<seq<byte>>)
    requires n > 1
  {
    chunks != [] ==>
      && Possible(n, chunks[..|chunks| - 1])
      && Fits(n, Run(n, chunks[..|chunks| - 1]), chunks[|chunks| - 1])
  }

  lemma {:induction false} PossiblePrefix(n: int, chunks: seq<seq<byte>>, k: nat)
    requires n > 1 && Possible(n, chunks) && k <= |chunks|
    ensures Possible(n, chunks[..k])
  {
    if k < |chunks| {
      var before := chunks[..|chunks| - 1];
      PossiblePrefix(n, before, k);
      assert before[..k] == chunks[..k];
    } else {
      assert chunks[..k] == chunks;
    }
  }

  /** What the ring holds and what it has handed over is what c says, unless c is spoilt. */
  ghost predicate Agrees(r: Ring, out: seq<seq<byte>>, c: Conn)
    reads r, r.buf
    requires r.Valid()
  {
    c.Conn? ==> c == Conn(r.readPos, r.Contents(), out)
  }

  /** The ring does what Transfer says. */
  method ReceiveChunk(r: Ring, beyond: array<byte>, chunk: seq<byte>, ghost done: seq<seq<byte>>, ghost c: Conn)
    returns (out: seq<seq<byte>>, again: bool)
    requires r.Valid() && beyond != r.buf && beyond.Length >= r.buf.Length + 4
    requires Good(r.buf.Length, c) && Fits(r.buf.Length, c, chunk) && Agrees(r, done, c)
    requires 1 <= |chunk| <= FreeSize(r.buf.Length, r.readPos, r.writePos)
    modifies r`readPos, r`writePos, r.buf, beyond
    ensures r.Valid() && Agrees(r, done + out, Transfer(r.buf.Length, c, chunk))
    ensures again == (|r.Contents()| < r.buf.Length - 1)
  {
    Sizes(r.buf.Length, r.readPos, r.writePos);
    ghost var s := r.Contents() + chunk;
    out, again := Complete(r, beyond, chunk, s);
    YieldsIs(s, out, r.Contents());
    Sizes(r.buf.Length, r.readPos, r.writePos);
  }

  /** Any list of transfers, one after the other, into a new ring. In a spoilt run a transfer for
      which the ring has no room does not take place. */
  method ReceiveAll(n: nat, beyond: array<byte>, chunks: seq<seq<byte>>) returns (r: Ring, out: seq<seq<byte>>)
    requires n > 1 && beyond.Length >= n + 4 && Possible(n, chunks)
    modifies beyond
    ensures fresh(r) && fresh(r.buf) && r.Valid() && r.buf.Length == n
    ensures Agrees(r, out, Run(n, chunks))
  {
    r := new Ring(n);
    out := [];
    for i := 0 to |chunks|
      invariant fresh(r) && fresh(r.buf) && r.Valid() && r.buf.Length == n
      invariant Agrees(r, out, Run(n, chunks[..i]))
    {
      ghost var c := Run(n, chunks[..i]);
      assert chunks[..i + 1][..i] == chunks[..i];
      PossiblePrefix(n, chunks, i + 1);
      Sizes(n, r.readPos, r.writePos);
      if 1 <= |chunks[i]| <= FreeSize(n, r.readPos, r.writePos) {
        var more, again := ReceiveChunk(r, beyond, chunks[i], out, c);
        out := out + more;
      }
    }
    assert chunks[..|chunks|] == chunks;
  }

  // The stream -----------------------------------------------------------------------------------

  lemma {:induction false} OpenedConcat(xs: seq<seq<byte>>, ys: seq<seq<byte>>)
    ensures OpenedAll(xs + ys) == OpenedAll(xs) + OpenedAll(ys)
  {
    if xs == [] {
      assert xs + ys == ys;
    } else {
      assert (xs + ys)[1..] == xs[1..] + ys;
      OpenedConcat(xs[1..], ys);
    }
  }

  lemma {:induction false} PosAdd(n: int, o: nat, k: nat)
    requires 0 <= k < n
    ensures Rem(Pos(n, o) + k, n) == Pos(n, o + k)
    decreases o
  {
    if o >= n {
      PosAdd(n, o - n, k);
    }
  }

  /** Exactly the complete frames of s have been handed over, opened, exactly the rest is held,
      and the position is the number of bytes taken off, modulo n. */
  predicate Tracks(n: int, c: Conn, s: seq<byte>)
    requires n > 1
  {
    && c.Conn? && c.out == OpenedAll(FramesOf(s)) && c.left == Rest(s)
    && |c.left| <= |s| && c.front == Pos(n, |s| - |c.left|)
  }

  lemma LastTransfer(n: int, chunks: seq<seq<byte>>, before: seq<seq<byte>>, last: seq<byte>)
    requires n > 1 && Possible(n, chunks) && chunks == before + [last]
    ensures Possible(n, before) && Fits(n, Run(n, before), last)
    ensures Run(n, chunks) == Transfer(n, Run(n, before), last)
    ensures Concat(chunks) == Concat(before) + last
  {
    var k := |chunks| - 1;
    assert chunks[..k] == before && chunks[k] == last;
    ConcatSnoc(before, last);
  }

  /** However the stream was cut into transfers, an unspoilt run tracks it. */
  lemma {:induction false} RunIsStream(n: int, chunks: seq<seq<byte>>)
    requires n > 1 && Possible(n, chunks) && Run(n, chunks).Conn?
    ensures Tracks(n, Run(n, chunks), Concat(chunks))
    decreases |chunks|
  {
    if chunks != [] {
      var before, last := chunks[..|chunks| - 1], chunks[|chunks| - 1];
      LastTransfer(n, chunks, before, last);
      RunIsStream(n, before);
      StreamStep(n, Run(n, before), last, Run(n, chunks), Concat(before));
    }
  }

  lemma StreamStep(n: int, b: Conn, last: seq<byte>, c: Conn, t: seq<byte>)
    requires n > 1 && Good(n, b) && Fits(n, b, last) && c == Transfer(n, b, last) && c.Conn? && Tracks(n, b, t)
    ensures Tracks(n, c, t + last)
  {
    var now := b.left + last;
    var rest, more := Rest(now), OpenedAll(FramesOf(now));
    RestShorter(now);
    assert c == Conn(Rem(b.front + (|now| - |rest|), n), rest, b.out + more);
    assert c.out == OpenedAll(FramesOf(t + last)) && rest == Rest(t + last) by { StreamOut(t, last, b.left); }
    StreamFront(n, |t|, |b.left|, |last|, |rest|);
    assert |rest| <= |t + last|;
  }

  lemma StreamOut(t: seq<byte>, last: seq<byte>, left: seq<byte>)
    requires left == Rest(t)
    ensures OpenedAll(FramesOf(t + last)) == OpenedAll(FramesOf(t)) + OpenedAll(FramesOf(left + last))
    ensures Rest(t + last) == Rest(left + last)
  {
    FramesAppend(t, last);
    OpenedConcat(FramesOf(t), FramesOf(left + last));
  }

  lemma StreamFront(n: int, t: nat, left: nat, last: nat, rest: nat)
    requires left <= t && rest <= left + last < n
    ensures Rem(Pos(n, t - left) + (left + last - rest), n) == Pos(n, t + last - rest)
  {
    PosAdd(n, t - left, left + last - rest);
  }
}
