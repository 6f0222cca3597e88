/** The receive path: cutting the byte stream into frames and opening them. */
module Frames {
  import opened Bytes
  import opened Cipher

  const PACKET_HEADER_SIZE := 4

  // Frames of a byte stream --------------------------------------------------------

  /** The int32_t message size in the header. */
  function MessageSize(s: seq<byte>): int
    requires |s| >= PACKET_HEADER_SIZE
  {
    Int32(Word(s, 0))
  }

  predicate HasFrame(s: seq<byte>) {
    |s| >= PACKET_HEADER_SIZE && 0 <= MessageSize(s) <= |s| - PACKET_HEADER_SIZE
  }

  function FrameSize(s: seq<byte>): nat
    requires HasFrame(s)
  {
    PACKET_HEADER_SIZE + MessageSize(s)
  }

  /** The complete frames at the head of s, in order. */
  function FramesOf(s: seq<byte>): seq<seq<byte>>
    decreases |s|
  {
    if HasFrame(s) then [s[..FrameSize(s)]] + FramesOf(s[FrameSize(s)..]) else []
  }

  /** What is left of s after its complete frames. */
  function Rest(s: seq<byte>): seq<byte>
    decreases |s|
  {
    if HasFrame(s) then Rest(s[FrameSize(s)..]) else s
  }

  function Concat(xs: seq<seq<byte>>): seq<byte> {
    if xs == [] then [] else xs[0] + Concat(xs[1..])
  }

  /** Nothing is lost or invented: the frames followed by the rest are the stream, and the
      rest holds no further frame. */
  lemma {:induction false} FramesPartition(s: seq<byte>)
    ensures Concat(FramesOf(s)) + Rest(s) == s
    ensures !HasFrame(Rest(s))
    decreases |s|
  {
    if HasFrame(s) {
      var n := FrameSize(s);
      FramesPartition(s[n..]);
      assert s == s[..n] + s[n..];
      assert FramesOf(s)[1..] == FramesOf(s[n..]);
    }
  }

  /** One frame taken off. */
  lemma FramesStep(s: seq<byte>, k: nat, next: seq<byte>)
    requires HasFrame(s) && k == FrameSize(s) && next == s[k..]
    ensures FramesOf(s) == [s[..k]] + FramesOf(next) && Rest(s) == Rest(next)
  {
  }

  lemma HeadKept(s: seq<byte>, more: seq<byte>, t: seq<byte>, k: nat, next: seq<byte>)
    requires HasFrame(s) && k == FrameSize(s) && next == s[k..] && t == s + more
    ensures HasFrame(t) && FrameSize(t) == k && t[..k] == s[..k] && t[k..] == next + more
  {
  }

  /** More bytes never change a frame already complete. */
  lemma {:induction false} FramesAppend(s: seq<byte>, more: seq<byte>)
    ensures FramesOf(s + more) == FramesOf(s) + FramesOf(Rest(s) + more)
    ensures Rest(s + more) == Rest(Rest(s) + more)
    decreases |s|, 1
  {
    if HasFrame(s) {
      AppendStep(s, more, s + more, FrameSize(s), s[FrameSize(s)..]);
    }
  }

  lemma {:induction false} AppendStep(s: seq<byte>, more: seq<byte>, t: seq<byte>, k: nat, next: seq<byte>)
    requires HasFrame(s) && k == FrameSize(s) && next == s[k..] && t == s + more
    ensures FramesOf(t) == FramesOf(s) + FramesOf(Rest(s) + more) && Rest(t) == Rest(Rest(s) + more)
    decreases |s|, 0
  {
    HeadKept(s, more, t, k, next);
    FramesStep(s, k, next);
    FramesStep(t, k, next + more);
    FramesAppend(next, more);
    HeadFirst(s[..k], FramesOf(next), FramesOf(Rest(next) + more), FramesOf(next + more), FramesOf(s), FramesOf(t));
  }

  lemma HeadFirst(x: seq<byte>, xs: seq<seq<byte>>, ys: seq<seq<byte>>, zs: seq<seq<byte>>,
                  front: seq<seq<byte>>, all: seq<seq<byte>>)
    requires zs == xs + ys && front == [x] + xs && all == [x] + zs
    ensures all == front + ys
  {
  }

  lemma {:induction false} ConcatSnoc(xs: seq<seq<byte>>, x: seq<byte>)
    ensures Concat(xs + [x]) == Concat(xs) + x
  {
    if xs != [] {
      assert (xs + [x])[1..] == xs[1..] + [x];
      ConcatSnoc(xs[1..], x);
    }
  }

  // Sending and receiving ------------------------------------------------------------

  /** What NetworkSession::Send puts in a packet: size prefix and transformed body. */
  function Packet(body: seq<byte>): seq<byte>
    requires |body| < 0x8000_0000
  {
    LE32(|body|) + Converted(body)
  }

  /** What the frame loop hands to OnRecvMessage: header and restored body.  (A frame always
      has a header.) */
  function Opened(frame: seq<byte>): seq<byte> {
    if |frame| < PACKET_HEADER_SIZE then frame else frame[..4] + Converted(frame[4..])
  }

  function OpenedAll(frames: seq<seq<byte>>): seq<seq<byte>> {
    if frames == [] then [] else [Opened(frames[0])] + OpenedAll(frames[1..])
  }

  function Wire(bodies: seq<seq<byte>>): seq<byte>
    requires forall b :: b in bodies ==> |b| < 0x8000_0000
  {
    if bodies == [] then [] else Packet(bodies[0]) + Wire(bodies[1..])
  }

  /** The messages as they were before Send transformed them. */
  function Messages(bodies: seq<seq<byte>>): seq<seq<byte>>
    requires forall b :: b in bodies ==> |b| < 0x8000_0000
  {
    if bodies == [] then [] else [LE32(|bodies[0]|) + bodies[0]] + Messages(bodies[1..])
  }

  lemma PacketIsFrame(body: seq<byte>, more: seq<byte>)
    requires |body| < 0x8000_0000
    ensures var s := Packet(body) + more;
            HasFrame(s) && FrameSize(s) == |Packet(body)| && Opened(Packet(body)) == LE32(|body|) + body
  {
    ConvertedTwice(body);
    var s := Packet(body) + more;
    assert MessageSize(s) == |body| by {
      Pow256Values();
      LE32Num(|body|);
      WordIsNum(s, 0);
      assert s[0..4] == LE32(|body|);
    }
    assert Packet(body)[..4] == LE32(|body|) && Packet(body)[4..] == Converted(body);
  }

  /** The bytes of a packet: the size, least significant byte first, then the enciphered body. */
  lemma PacketIs(body: seq<byte>, p: seq<byte>)
    requires |body| < 0x8000_0000 && p == Packet(body)
    ensures |p| == 4 + |body| && Enciphers(body, p[4..])
    ensures var b0: int, b1: int, b2: int, b3: int := p[0], p[1], p[2], p[3];
            |body| == b0 + 0x100 * b1 + 0x1_0000 * b2 + 0x100_0000 * b3
  {
    Pow256Values();
    LE32Num(|body|);
    WordIsNum(p, 0);
    assert p[0..4] == LE32(|body|) && p[4..] == Converted(body);
    ConvertedIs(body);
  }

  lemma {:induction false} WireFrames(bodies: seq<seq<byte>>)
    requires forall b :: b in bodies ==> |b| < 0x8000_0000
    ensures OpenedAll(FramesOf(Wire(bodies))) == Messages(bodies)
    ensures Rest(Wire(bodies)) == []
  {
    if bodies != [] {
      var p := Packet(bodies[0]);
      var more := Wire(bodies[1..]);
      PacketIsFrame(bodies[0], more);
      WireFrames(bodies[1..]);
      assert (p + more)[..|p|] == p && (p + more)[|p|..] == more;
      assert FramesOf(p + more)[1..] == FramesOf(more);
    }
  }
}
