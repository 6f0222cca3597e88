/** How far receiving gets: part of the messages, messages too long for the ring, and messages
    that run over its end. */
module ReceiveLimits {
  import opened Arith
  import opened Bytes
  import opened Frames
  import opened ReceiveProof
  import opened ReceptionRun
  import opened EndToEnd

  // When the ring is full --------------------------------------------------------------------------

  /** The frame at the head of s is longer than a ring of n bytes can hold, or its size is
      negative. */
  predicate TooLong(n: int, s: seq<byte>) {
    |s| >= 4 && (MessageSize(s) < 0 || 4 + MessageSize(s) > n - 1)
  }

  /** A ring filled with the bytes of s holds no complete frame, so that the loop takes nothing off
      and Start asks for nothing more, if and only if the frame at its head is too long. */
  lemma StopExact(n: int, s: seq<byte>)
    requires 5 <= n && n - 1 <= |s|
    ensures !HasFrame(s[..n - 1]) <==> TooLong(n, s)
  {
  }

  /** Receiving stops, for lack of room, only at a frame that is too long. */
  lemma StopsOnlyThere(n: int, chunks: seq<seq<byte>>)
    requires n >= 5 && Possible(n, chunks) && Run(n, chunks).Conn? && |Run(n, chunks).left| == n - 1
    ensures TooLong(n, Run(n, chunks).left)
  {
    RunIsStream(n, chunks);
    FramesPartition(Concat(chunks));
  }

  /** And there it stops: nothing more is handed over, and every transfer only fills the ring. */
  lemma Blocked(n: int, c: Conn, chunk: seq<byte>, d: Conn)
    requires n > 1 && Good(n, c) && c.Conn? && Fits(n, c, chunk) && d == Transfer(n, c, chunk) && d.Conn?
    requires TooLong(n, c.left)
    ensures d.out == c.out && d.left == c.left + chunk && TooLong(n, d.left)
  {
    var now := c.left + chunk;
    assert MessageSize(now) == MessageSize(c.left);
    assert !HasFrame(now);
    assert FramesOf(now) == [] && Rest(now) == now;
    assert OpenedAll([]) == [];
  }

  // Part of the messages -----------------------------------------------------------------------------

  lemma HeadOrLess(body: seq<byte>, more: seq<byte>, p: seq<byte>)
    requires |body| < 0x8000_0000 && p <= Packet(body) + more
    ensures if |p| < 4 + |body| then !HasFrame(p)
            else HasFrame(p) && FrameSize(p) == 4 + |body| && p[..4 + |body|] == Packet(body) && p[4 + |body|..] <= more
  {
    var s := Packet(body) + more;
    PacketIsFrame(body, more);
    if |p| >= 4 {
      assert MessageSize(p) == MessageSize(s) == |body|;
    }
    if |p| >= 4 + |body| {
      assert p[..4 + |body|] == s[..4 + |body|] == Packet(body);
      assert p[4 + |body|..] <= s[4 + |body|..] == more;
    }
  }

  /** The frames of the first part of what was sent are the first packets, and what is left is less
      than the next one. */
  lemma {:induction false} PartFrames(bodies: seq<seq<byte>>, p: seq<byte>, j: nat)
    requires Sendable(bodies) && p <= Wire(bodies) && j == |FramesOf(p)|
    ensures j <= |bodies| && Sendable(bodies[..j]) && FramesOf(p) == Packets(bodies[..j])
    ensures |p| == Sent(bodies, j) + |Rest(p)|
    ensures if j < |bodies| then |Rest(p)| < 4 + |bodies[j]| else Rest(p) == []
    decreases |bodies|
  {
    if bodies != [] {
      var body, tail := bodies[0], bodies[1..];
      HeadOrLess(body, Wire(tail), p);
      if HasFrame(p) {
        var k := 4 + |body|;
        var next := p[k..];
        FramesStep(p, k, next);
        PartFrames(tail, next, j - 1);
        SentTail(bodies, j - 1);
        assert bodies[..j][1..] == tail[..j - 1] && bodies[..j][0] == body;
        assert j < |bodies| ==> tail[j - 1] == bodies[j];
      }
    }
  }

  lemma {:induction false} OpenedPackets(bodies: seq<seq<byte>>)
    requires Sendable(bodies)
    ensures OpenedAll(Packets(bodies)) == Messages(bodies) && |Packets(bodies)| == |bodies| == |Messages(bodies)|
  {
    if bodies != [] {
      PacketIsFrame(bodies[0], []);
      OpenedPackets(bodies[1..]);
      assert Packets(bodies)[1..] == Packets(bodies[1..]);
    }
  }

  /** Underway: an unspoilt run has handed over exactly the first messages, and holds less than
      the next one. */
  lemma InTransit(n: int, bodies: seq<seq<byte>>, chunks: seq<seq<byte>>) returns (j: nat)
    requires n > 1 && Sendable(bodies) && Possible(n, chunks) && Run(n, chunks).Conn? && Concat(chunks) <= Wire(bodies)
    ensures j <= |bodies| && Sendable(bodies[..j])
    ensures Run(n, chunks).out == Messages(bodies[..j]) && |Run(n, chunks).out| == j
    ensures |Concat(chunks)| == Sent(bodies, j) + |Run(n, chunks).left|
    ensures if j < |bodies| then |Run(n, chunks).left| < 4 + |bodies[j]| else Run(n, chunks).left == []
  {
    var p := Concat(chunks);
    j := |FramesOf(p)|;
    RunIsStream(n, chunks);
    PartFrames(bodies, p, j);
    OpenedPackets(bodies[..j]);
  }

  /** Messages that fit the ring never fill it: Start always has room to ask for more. */
  lemma AlwaysRoom(n: int, bodies: seq<seq<byte>>, chunks: seq<seq<byte>>)
    requires n > 1 && Sendable(bodies) && Possible(n, chunks) && Run(n, chunks).Conn? && Concat(chunks) <= Wire(bodies)
    requires forall i :: 0 <= i < |bodies| ==> 4 + |bodies[i]| <= n - 1
    ensures |Run(n, chunks).left| < n - 1
  {
    var j := InTransit(n, bodies, chunks);
  }

  lemma {:induction false} SentMono(bodies: seq<seq<byte>>, i: nat, j: nat)
    requires i <= j <= |bodies|
    ensures Sent(bodies, i) <= Sent(bodies, j)
  {
    if i < j {
      SentMono(bodies, i, j - 1);
    }
  }

  /** A message that does not fit is never handed over, nor is any after it. */
  lemma {:induction false} NeverBeyond(n: int, bodies: seq<seq<byte>>, chunks: seq<seq<byte>>, i: nat)
    requires n > 1 && Sendable(bodies) && Possible(n, chunks) && Run(n, chunks).Conn? && Concat(chunks) <= Wire(bodies)
    requires i < |bodies| && 4 + |bodies[i]| > n - 1
    ensures |Run(n, chunks).out| <= i
    decreases |chunks|
  {
    if chunks != [] {
      var before, last := chunks[..|chunks| - 1], chunks[|chunks| - 1];
      LastTransfer(n, chunks, before, last);
      assert Concat(before) <= Wire(bodies);
      NeverBeyond(n, bodies, before, i);
      var j := InTransit(n, bodies, before);
      var k := InTransit(n, bodies, chunks);
      TooLongToComplete(n, bodies, i, j, k, |Run(n, before).left|, |last|, |Run(n, chunks).left|);
    }
  }

  lemma TooLongToComplete(n: int, bodies: seq<seq<byte>>, i: nat, j: nat, k: nat, left: nat, last: nat, rest: nat)
    requires i < |bodies| && 4 + |bodies[i]| > n - 1 && j <= i && k <= |bodies| && left + last < n
    requires Sent(bodies, j) + left + last == Sent(bodies, k) + rest
    ensures k <= i
  {
    if k > i {
      SentMono(bodies, j, i);
      SentMono(bodies, i + 1, k);
    }
  }

  /** One message too long for the ring: it can be received up to where the ring is full, and
      then there is no room to receive anything. */
  lemma LongMessageStops(n: int, body: seq<byte>, chunk: seq<byte>)
    requires n >= 5 && n - 4 <= |body| < 0x8000_0000 && chunk == Wire([body])[..n - 1]
    ensures Possible(n, [chunk]) && Run(n, [chunk]) == Conn(0, chunk, []) && |chunk| == n - 1
  {
    assert Wire([body][1..]) == [];
    HeadOrLess(body, [], chunk);
    assert [chunk][..0] == [];
    assert Run(n, []) == Conn(0, [], []);
    assert [] + chunk == chunk;
    assert Safe(n, 0, chunk);
    assert FramesOf(chunk) == [] && Rest(chunk) == chunk;
  }

  /** Two ordinary messages are enough to spoil a run: the second crosses the end of the ring. */
  lemma SecondCrosses(n: int, a: seq<byte>, b: seq<byte>, chunks: seq<seq<byte>>)
    requires n > 1 && 4 + |a| < n - 1 && 4 + |b| <= n - 1 && 4 + |a| + 4 + |b| >= n
    requires Sendable([a, b]) && Possible(n, chunks) && Concat(chunks) == Wire([a, b])
    ensures Run(n, chunks).Spoilt?
  {
    var bodies := [a, b];
    assert Sent(bodies, 1) == Sent(bodies, 0) + 4 + |bodies[0]|;
    assert !InOnePiece(n, 0, bodies) by {
      assert Pos(n, 0 + Sent(bodies, 1) + 1) == 4 + |a| + 1;
      assert bodies[1] == b;
    }
    MessagesArrive(n, bodies, chunks);
  }
}
