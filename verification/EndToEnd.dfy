/** From Send to the handing over of messages, through the stream and the ring. */
module EndToEnd {
  import opened Arith
  import opened Bytes
  import opened Frames
  import opened ReceiveProof
  import opened ReceptionRun

  // Frames in one piece --------------------------------------------------------------------------

  /** Frames sent one after the other, the first byte being byte number o of the stream and hence
      at index Pos(n, o + 1) of the ring: none of them runs over the end. */
  predicate Straight(n: int, o: nat, fs: seq<seq<byte>>)
    requires n > 1
    decreases |fs|
  {
    fs != [] ==> Pos(n, o + 1) + |fs[0]| <= n && Straight(n, o + |fs[0]|, fs[1..])
  }

  lemma {:induction false} StraightConcat(n: int, o: nat, xs: seq<seq<byte>>, ys: seq<seq<byte>>)
    requires n > 1
    ensures Straight(n, o, xs + ys) <==> Straight(n, o, xs) && Straight(n, o + |Concat(xs)|, ys)
    decreases |xs|
  {
    if xs == [] {
      assert xs + ys == ys;
    } else {
      assert (xs + ys)[1..] == xs[1..] + ys;
      StraightConcat(n, o + |xs[0]|, xs[1..], ys);
    }
  }

  /** An incomplete frame at byte o does no harm. */
  predicate HeaderOk(n: int, o: nat, s: seq<byte>)
    requires n > 1
  {
    |s| >= 4 ==> Pos(n, o + 1) + 4 <= n || Low(s, n - Pos(n, o + 1)) > |s| - 4
  }

  lemma SafeStep(n: int, o: nat, now: seq<byte>, k: nat, next: seq<byte>)
    requires n > 1 && |now| < n && HasFrame(now) && k == FrameSize(now) && next == now[k..]
    ensures Safe(n, Pos(n, o), now) <==> Pos(n, o + 1) + k <= n && Safe(n, Pos(n, o + k), next)
  {
    PosAdd(n, o, 1);
    PosAdd(n, o, k);
  }

  lemma StraightCons(n: int, o: nat, f: seq<byte>, fs: seq<seq<byte>>)
    requires n > 1
    ensures Straight(n, o, [f] + fs) <==> Pos(n, o + 1) + |f| <= n && Straight(n, o + |f|, fs)
  {
    assert ([f] + fs)[1..] == fs;
  }

  /** What the ring holds is safe if and only if its frames are straight and its incomplete rest
      does no harm. */
  lemma {:induction false} SafeIs(n: int, o: nat, now: seq<byte>, fs: seq<seq<byte>>, rest: seq<byte>)
    requires n > 1 && |now| < n && fs == FramesOf(now) && rest == Rest(now) && |rest| <= |now|
    ensures Safe(n, Pos(n, o), now) <==> Straight(n, o, fs) && HeaderOk(n, o + (|now| - |rest|), rest)
    decreases |now|
  {
    if HasFrame(now) {
      var k := FrameSize(now);
      var next, f := now[k..], now[..k];
      var more := FramesOf(next);
      FramesStep(now, k, next);
      RestShorter(next);
      SafeIs(n, o + k, next, more, rest);
      SafeStep(n, o, now, k, next);
      assert Straight(n, o, [f] + more) <==> Pos(n, o + 1) + k <= n && Straight(n, o + k, more) by {
        StraightCons(n, o, f, more);
      }
    } else {
      PosAdd(n, o, 1);
    }
  }

  lemma FramesLength(s: seq<byte>)
    ensures |Concat(FramesOf(s))| + |Rest(s)| == |s|
  {
    FramesPartition(s);
  }

  /** What parsing p gives, and what parsing p with more behind it gives. */
  lemma Append(p: seq<byte>, more: seq<byte>, fs: seq<seq<byte>>, rest: seq<byte>, all: seq<seq<byte>>, end: seq<byte>)
    requires fs == FramesOf(p) && rest == Rest(p) && all == FramesOf(p + more) && end == Rest(p + more)
    ensures all == fs + FramesOf(rest + more) && end == Rest(rest + more)
    ensures |Concat(fs)| + |rest| == |p|
  {
    FramesAppend(p, more);
    FramesLength(p);
  }

  lemma Joined(n: int, o: nat, before: seq<seq<byte>>, mine: seq<seq<byte>>, fs: seq<seq<byte>>)
    requires n > 1 && o == |Concat(before)| && fs == before + mine && Straight(n, 0, before)
    ensures Straight(n, 0, fs) <==> Straight(n, o, mine)
  {
    StraightConcat(n, 0, before, mine);
  }

  /** What is in the ring now is safe if and only if everything received is harmless. */
  lemma NowSafe(n: int, t: seq<byte>, last: seq<byte>, left: seq<byte>, now: seq<byte>, o: nat,
                before: seq<seq<byte>>, mine: seq<seq<byte>>, fs: seq<seq<byte>>, rest: seq<byte>)
    requires n > 1 && left == Rest(t) && now == left + last && |now| < n && |left| <= |t| && o == |t| - |left|
    requires before == FramesOf(t) && mine == FramesOf(now) && fs == FramesOf(t + last) && rest == Rest(t + last)
    requires Straight(n, 0, before)
    ensures Safe(n, Pos(n, o), now) <==> Harmless(n, t + last)
  {
    assert fs == before + mine && rest == Rest(now) && o == |Concat(before)| by {
      Append(t, last, before, left, fs, rest);
    }
    var at := o + (|now| - |rest|);
    assert |rest| <= |now| by { RestShorter(now); }
    assert Straight(n, 0, fs) <==> Straight(n, o, mine) by { Joined(n, o, before, mine, fs); }
    assert Safe(n, Pos(n, o), now) <==> Straight(n, o, mine) && HeaderOk(n, at, rest) by {
      SafeIs(n, o, now, mine, rest);
    }
    assert Harmless(n, t + last) <==> Straight(n, 0, fs) && HeaderOk(n, at, rest) by {
      HarmlessIs(n, t + last, fs, rest, at);
    }
  }

  lemma TransferConn(n: int, b: Conn, last: seq<byte>, now: seq<byte>, c: Conn)
    requires n > 1 && Good(n, b) && Fits(n, b, last) && b.Conn? && now == b.left + last && c == Transfer(n, b, last)
    ensures c.Conn? <==> Safe(n, b.front, now)
  {
  }

  /** One transfer: it spoils the run exactly if it completes a frame that is not straight or
      brings a header that does harm. */
  lemma TransferStraight(n: int, b: Conn, t: seq<byte>, last: seq<byte>, c: Conn)
    requires n > 1 && Good(n, b) && Fits(n, b, last) && c == Transfer(n, b, last)
    requires Tracks(n, b, t) && Straight(n, 0, FramesOf(t))
    ensures c.Conn? <==> Harmless(n, t + last)
  {
    TransferConn(n, b, last, b.left + last, c);
    var now, p := b.left + last, t + last;
    NowSafe(n, t, last, b.left, now, |t| - |b.left|, FramesOf(t), FramesOf(now), FramesOf(p), Rest(p));
  }

  lemma HarmlessIs(n: int, p: seq<byte>, fs: seq<seq<byte>>, rest: seq<byte>, at: nat)
    requires n > 1 && fs == FramesOf(p) && rest == Rest(p) && at == |p| - |rest|
    ensures Harmless(n, p) <==> Straight(n, 0, fs) && HeaderOk(n, at, rest)
  {
  }

  /** The part p of the stream is straight and its incomplete frame does no harm. */
  ghost predicate Harmless(n: int, p: seq<byte>)
    requires n > 1
  {
    |Rest(p)| <= |p| && Straight(n, 0, FramesOf(p)) && HeaderOk(n, |p| - |Rest(p)|, Rest(p))
  }

  /** A transfer into an unspoilt run leaves it unspoilt if and only if everything received is
      harmless. */
  lemma RunExact(n: int, chunks: seq<seq<byte>>, before: seq<seq<byte>>, last: seq<byte>)
    requires n > 1 && Possible(n, chunks) && chunks == before + [last] && Run(n, before).Conn?
    requires Straight(n, 0, FramesOf(Concat(before)))
    ensures Run(n, chunks).Conn? <==> Harmless(n, Concat(chunks))
  {
    LastTransfer(n, chunks, before, last);
    RunIsStream(n, before);
    TransferStraight(n, Run(n, before), Concat(before), last, Run(n, chunks));
  }

  lemma {:induction false} RunStraight(n: int, chunks: seq<seq<byte>>)
    requires n > 1 && Possible(n, chunks) && Run(n, chunks).Conn?
    ensures Straight(n, 0, FramesOf(Concat(chunks)))
    decreases |chunks|
  {
    if chunks != [] {
      var before, last := chunks[..|chunks| - 1], chunks[|chunks| - 1];
      LastTransfer(n, chunks, before, last);
      RunStraight(n, before);
      RunExact(n, chunks, before, last);
    }
  }

  /** If all frames of a stream of whole frames are straight, then so are those of every part p of
      it, and no incomplete one does harm. */
  lemma PartStraight(n: int, p: seq<byte>, more: seq<byte>, fs: seq<seq<byte>>, rest: seq<byte>)
    requires n > 1 && Rest(p + more) == [] && Straight(n, 0, FramesOf(p + more)) && fs == FramesOf(p) && rest == Rest(p)
    ensures |rest| <= |p| && Straight(n, 0, fs) && HeaderOk(n, |p| - |rest|, rest)
  {
    var ahead := rest + more;
    Append(p, more, fs, rest, FramesOf(p + more), []);
    StraightConcat(n, 0, fs, FramesOf(ahead));
    if |rest| >= 4 {
      FirstStraight(n, |Concat(fs)|, ahead);
    }
  }

  lemma FirstStraight(n: int, o: nat, s: seq<byte>)
    requires n > 1 && s != [] && Rest(s) == [] && Straight(n, o, FramesOf(s))
    ensures Pos(n, o + 1) + 4 <= n
  {
    NotEmptyRest(s);
  }

  lemma NotEmptyRest(s: seq<byte>)
    requires s != [] && Rest(s) == []
    ensures HasFrame(s) && FramesOf(s) != [] && FramesOf(s)[0] == s[..FrameSize(s)]
  {
  }

  lemma {:induction false} StraightRun(n: int, chunks: seq<seq<byte>>, s: seq<byte>)
    requires n > 1 && Possible(n, chunks) && Concat(chunks) <= s && Rest(s) == [] && Straight(n, 0, FramesOf(s))
    ensures Run(n, chunks).Conn?
    decreases |chunks|
  {
    if chunks != [] {
      var before, last := chunks[..|chunks| - 1], chunks[|chunks| - 1];
      LastTransfer(n, chunks, before, last);
      StraightRun(n, before, s);
      RunStraight(n, before);
      PartOf(n, Concat(chunks), s);
      RunExact(n, chunks, before, last);
    }
  }

  lemma PartOf(n: int, p: seq<byte>, s: seq<byte>)
    requires n > 1 && p <= s && Rest(s) == [] && Straight(n, 0, FramesOf(s))
    ensures Harmless(n, p)
  {
    var more := s[|p|..];
    assert s == p + more;
    PartStraight(n, p, more, FramesOf(p), Rest(p));
  }

  // Messages ---------------------------------------------------------------------------------------

  predicate Sendable(bodies: seq<seq<byte>>) {
    forall b :: b in bodies ==> |b| < 0x8000_0000
  }

  /** Bytes on the wire before message i. */
  function Sent(bodies: seq<seq<byte>>, i: nat): nat
    requires i <= |bodies|
  {
    if i == 0 then 0 else Sent(bodies, i - 1) + 4 + |bodies[i - 1]|
  }

  /** No message runs over the end of a ring of n bytes that starts at byte o of the stream. */
  predicate InOnePiece(n: int, o: nat, bodies: seq<seq<byte>>)
    requires n > 1
  {
    forall i :: 0 <= i < |bodies| ==> Pos(n, o + Sent(bodies, i) + 1) + 4 + |bodies[i]| <= n
  }

  lemma {:induction false} SentTail(bodies: seq<seq<byte>>, i: nat)
    requires i < |bodies|
    ensures Sent(bodies, i + 1) == 4 + |bodies[0]| + Sent(bodies[1..], i)
  {
    if i > 0 {
      SentTail(bodies, i - 1);
    }
  }

  lemma InOnePieceTail(n: int, o: nat, bodies: seq<seq<byte>>)
    requires n > 1 && bodies != []
    ensures InOnePiece(n, o, bodies) <==>
              Pos(n, o + 1) + 4 + |bodies[0]| <= n && InOnePiece(n, o + 4 + |bodies[0]|, bodies[1..])
  {
    var k, tail := 4 + |bodies[0]|, bodies[1..];
    forall i | 0 <= i < |tail| ensures o + k + Sent(tail, i) == o + Sent(bodies, i + 1) && tail[i] == bodies[i + 1] {
      SentTail(bodies, i);
    }
    assert Sent(bodies, 0) == 0;
    if InOnePiece(n, o, bodies) {
      assert Pos(n, o + Sent(bodies, 0) + 1) + 4 + |bodies[0]| <= n;
    } else {
      var i :| 0 <= i < |bodies| && !(Pos(n, o + Sent(bodies, i) + 1) + 4 + |bodies[i]| <= n);
      assert i > 0 ==> o + k + Sent(tail, i - 1) == o + Sent(bodies, i) && tail[i - 1] == bodies[i];
    }
  }

  function Packets(bodies: seq<seq<byte>>): (ps: seq<seq<byte>>)
    requires Sendable(bodies)
    ensures |ps| == |bodies| && forall i :: 0 <= i < |bodies| ==> |ps[i]| == 4 + |bodies[i]|
  {
    if bodies == [] then [] else [Packet(bodies[0])] + Packets(bodies[1..])
  }

  lemma {:induction false} FramesArePackets(bodies: seq<seq<byte>>)
    requires Sendable(bodies)
    ensures FramesOf(Wire(bodies)) == Packets(bodies)
  {
    if bodies != [] {
      WireHead(bodies[0], Wire(bodies[1..]), Packet(bodies[0]));
      FramesArePackets(bodies[1..]);
    }
  }

  lemma {:induction false} StraightSizes(n: int, o: nat, fs: seq<seq<byte>>, bodies: seq<seq<byte>>)
    requires n > 1 && |fs| == |bodies| && forall i :: 0 <= i < |bodies| ==> |fs[i]| == 4 + |bodies[i]|
    ensures Straight(n, o, fs) <==> InOnePiece(n, o, bodies)
    decreases |bodies|
  {
    if bodies != [] {
      StraightSizes(n, o + |fs[0]|, fs[1..], bodies[1..]);
      InOnePieceTail(n, o, bodies);
    }
  }

  lemma WireHead(body: seq<byte>, more: seq<byte>, p: seq<byte>)
    requires |body| < 0x8000_0000 && p == Packet(body)
    ensures FramesOf(p + more) == [p] + FramesOf(more) && |p| == 4 + |body|
  {
    PacketIsFrame(body, more);
    assert (p + more)[|p|..] == more && (p + more)[..|p|] == p;
    FramesStep(p + more, |p|, more);
  }

  /** Send to OnRecvMessage: when all that was sent has been taken in, however it was cut into
      transfers, the receiver has handed over the messages as they were sent, in order and with
      nothing left over, if and only if none of them ran over the end of the ring. */
  lemma MessagesArrive(n: int, bodies: seq<seq<byte>>, chunks: seq<seq<byte>>)
    requires n > 1 && Sendable(bodies) && Possible(n, chunks) && Concat(chunks) == Wire(bodies)
    ensures Run(n, chunks).Conn? <==> InOnePiece(n, 0, bodies)
    ensures Run(n, chunks).Conn? ==> Run(n, chunks).out == Messages(bodies) && Run(n, chunks).left == []
  {
    WireFrames(bodies);
    FramesArePackets(bodies);
    StraightSizes(n, 0, Packets(bodies), bodies);
    if Run(n, chunks).Conn? {
      RunIsStream(n, chunks);
      RunStraight(n, chunks);
    } else if InOnePiece(n, 0, bodies) {
      StraightRun(n, chunks, Wire(bodies));
    }
  }
}
