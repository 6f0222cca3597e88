/**
 The loop of NetworkTaskReceiveIO::Complete on the real ring. It reads each header and frame
 through one flat pointer, which does not wrap, and transforms the body in place. Behind the
 ring's buffer lies other memory; the loop is given that memory as well.
 */
module Receive {
  import opened Bytes
  import opened Cipher
  import opened RingQ
  import opened Frames

  // What the loop does to memory ----------------------------------------------------------

  /** m with the body of the frame at `at` transformed. */
  function Rewritten(m: seq<byte>, at: int, size: int): (c: seq<byte>)
    requires 0 <= at && 0 <= size && at + 4 + size <= |m|
    ensures |c| == |m|
  {
    Splice(m, at + 4, Converted(m[at + 4..at + 4 + size]))
  }

  /** The header as read through the flat pointer. */
  function Header(m: seq<byte>, at: int): int
    requires 0 <= at && at + 4 <= |m|
  {
    Int32(Word(m, at))
  }

  predicate Takes(m: seq<byte>, at: int, used: int)
    requires 0 <= at && at + 4 <= |m|
  {
    used >= PACKET_HEADER_SIZE && 0 <= Header(m, at) <= used - PACKET_HEADER_SIZE
  }

  lemma Advance(n: int, front: int, rear: int, k: int)
    requires InRing(n, front, rear) && 0 <= k <= UsedSize(n, front, rear)
    ensures k < n && InRing(n, Rem(front + k, n), rear)
    ensures UsedSize(n, Rem(front + k, n), rear) == UsedSize(n, front, rear) - k
  {
  }

  datatype Turned = Stop | Take(frame: seq<byte>, mem: seq<byte>, front: int)

  /** One turn on memory m, whose first n bytes are the ring's buffer: if a frame is there
      according to its header, move past it, transform its body and hand it over. */
  function TurnOf(m: seq<byte>, n: int, front: int, rear: int): (r: Turned)
    requires InRing(n, front, rear) && |m| >= 2 * n + 4
    ensures r.Take? ==> |r.mem| == |m| && InRing(n, r.front, rear)
                        && UsedSize(n, r.front, rear) < UsedSize(n, front, rear)
  {
    var at := Rem(front + 1, n);
    if !Takes(m, at, UsedSize(n, front, rear)) then Stop else
    var size := Header(m, at);
    Advance(n, front, rear, 4 + size);
    var m1 := Rewritten(m, at, size);
    Take(m1[at..at + 4 + size], m1, Rem(front + 4 + size, n))
  }

  /** Frames handed over, memory and read position after the loop. */
  datatype Looped = Looped(out: seq<seq<byte>>, mem: seq<byte>, front: int)

  function Loop(m: seq<byte>, n: int, front: int, rear: int): (r: Looped)
    requires InRing(n, front, rear) && |m| >= 2 * n + 4
    ensures |r.mem| == |m| && 0 <= r.front < n
    decreases UsedSize(n, front, rear)
  {
    match TurnOf(m, n, front, rear)
    case Stop => Looped([], m, front)
    case Take(frame, m1, front') =>
      var r := Loop(m1, n, front', rear);
      Looped([frame] + r.out, r.mem, r.front)
  }

  /** Convert through the flat pointer: the range may start in the buffer and end behind it. */
  method ConvertFlat(a: array<byte>, beyond: array<byte>, at: nat, n: nat)
    requires a != beyond && at + n <= a.Length + beyond.Length
    modifies a, beyond
    ensures a[..] + beyond[..] == Splice(old(a[..] + beyond[..]), at, Converted(old(a[..] + beyond[..])[at..at + n]))
    ensures Enciphers(old(a[..] + beyond[..])[at..at + n], (a[..] + beyond[..])[at..at + n])
  {
    ghost var b := a[..] + beyond[..];
    var key: byte := 0;
    for i := 0 to n
      invariant key == KeyBefore(i)
      invariant forall k :: 0 <= k < |b| ==>
        (a[..] + beyond[..])[k] == if at <= k < at + i then Xor(b[k], KeyAt(k - at)) else b[k]
    {
      key := NextKey(key, i);
      assert (a[..] + beyond[..])[at + i] == b[at + i];
      if at + i < a.Length {
        a[at + i] := Xor(a[at + i], key);
      } else {
        beyond[at + i - a.Length] := Xor(beyond[at + i - a.Length], key);
      }
    }
    ConvertDone(b, a[..] + beyond[..], at, n);
    ConvertedIs(b[at..at + n]);
  }

  method Turn(r: Ring, beyond: array<byte>) returns (took: bool, frame: seq<byte>)
    requires r.Valid() && beyond != r.buf && beyond.Length >= r.buf.Length + 4
    modifies r`readPos, r.buf, beyond
    ensures TurnOf(old(r.buf[..] + beyond[..]), r.buf.Length, old(r.readPos), r.writePos)
         == if took then Take(frame, r.buf[..] + beyond[..], r.readPos) else Stop
    ensures !took ==> r.buf[..] + beyond[..] == old(r.buf[..] + beyond[..]) && r.readPos == old(r.readPos)
  {
    var used := UsedSize(r.buf.Length, r.readPos, r.writePos);
    if used < PACKET_HEADER_SIZE {
      return false, [];
    }
    var at := Rem(r.readPos + 1, r.buf.Length);
    var size := Header(r.buf[..] + beyond[..], at);
    if size < 0 || size > used - PACKET_HEADER_SIZE {
      return false, [];
    }
    TurnTakes(r.buf[..] + beyond[..], r.buf.Length, r.readPos, r.writePos, at, size);
    r.MoveReadPosition(PACKET_HEADER_SIZE + size);
    frame := OpenAt(r.buf, beyond, at, size);
    took := true;
  }

  /** Transform the body in place and hand the frame over. */
  method OpenAt(a: array<byte>, beyond: array<byte>, at: nat, size: nat) returns (frame: seq<byte>)
    requires a != beyond && at + 4 + size <= a.Length + beyond.Length
    modifies a, beyond
    ensures a[..] + beyond[..] == Rewritten(old(a[..] + beyond[..]), at, size)
    ensures frame == Rewritten(old(a[..] + beyond[..]), at, size)[at..at + 4 + size]
  {
    ConvertFlat(a, beyond, at + PACKET_HEADER_SIZE, size);
    frame := (a[..] + beyond[..])[at..at + PACKET_HEADER_SIZE + size];
  }

  lemma TurnTakes(m: seq<byte>, n: int, front: int, rear: int, at: int, size: int)
    requires InRing(n, front, rear) && |m| >= 2 * n + 4 && at == Rem(front + 1, n) && size == Header(m, at)
    requires 0 <= size <= UsedSize(n, front, rear) - 4
    ensures 4 + size < n
    ensures TurnOf(m, n, front, rear)
         == Take(Rewritten(m, at, size)[at..at + 4 + size], Rewritten(m, at, size), Rem(front + 4 + size, n))
  {
    Advance(n, front, rear, 4 + size);
  }

  /** The loop of Complete does what Loop says, whatever lies behind the buffer. */
  method FrameLoop(r: Ring, beyond: array<byte>) returns (out: seq<seq<byte>>)
    requires r.Valid() && beyond != r.buf && beyond.Length >= r.buf.Length + 4
    modifies r`readPos, r.buf, beyond
    ensures r.Valid()
    ensures Looped(out, r.buf[..] + beyond[..], r.readPos)
         == Loop(old(r.buf[..] + beyond[..]), r.buf.Length, old(r.readPos), r.writePos)
  {
    var n := r.buf.Length;
    ghost var goal := Loop(r.buf[..] + beyond[..], n, r.readPos, r.writePos);
    out := [];
    while true
      invariant r.Valid() && r.buf == old(r.buf)
      invariant Joined(out, Loop(r.buf[..] + beyond[..], n, r.readPos, r.writePos)) == goal
      decreases UsedSize(n, r.readPos, r.writePos)
    {
      ghost var m, front := r.buf[..] + beyond[..], r.readPos;
      var took, frame := Turn(r, beyond);
      if !took {
        break;
      }
      JoinedTurn(out, m, n, front, r.writePos, Take(frame, r.buf[..] + beyond[..], r.readPos));
      out := out + [frame];
    }
  }

  /** Frames already handed over in front of those to come. */
  function Joined(out: seq<seq<byte>>, l: Looped): Looped {
    l.(out := out + l.out)
  }

  lemma JoinedTurn(out: seq<seq<byte>>, m: seq<byte>, n: int, front: int, rear: int, t: Turned)
    requires InRing(n, front, rear) && |m| >= 2 * n + 4 && t == TurnOf(m, n, front, rear) && t.Take?
    ensures Joined(out + [t.frame], Loop(t.mem, n, t.front, rear)) == Joined(out, Loop(m, n, front, rear))
  {
    var r := Loop(t.mem, n, t.front, rear);
    assert out + ([t.frame] + r.out) == out + [t.frame] + r.out;
  }
}
