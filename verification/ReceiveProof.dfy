/** Exactly when the flat pointer hands over what the ring holds. */
module ReceiveProof {
  import opened Bytes
  import opened Cipher
  import opened RingQ
  import opened Frames
  import opened Receive

  /** The k bytes at the flat pointer. */
  function FlatRead(b: seq<byte>, beyond: seq<byte>, at: int, k: int): seq<byte>
    requires 0 <= at && 0 <= k && at + k <= |b| + |beyond|
  {
    (b + beyond)[at..at + k]
  }

  /** Whatever lies behind the buffer, the k bytes at the flat pointer are the k oldest bytes of
      the ring if and only if they do not run over the end. */
  lemma FlatReadExact(b: seq<byte>, front: int, rear: int, k: int, at: int)
    requires InRing(|b|, front, rear) && 0 <= k <= UsedSize(|b|, front, rear) && at == Rem(front + 1, |b|)
    ensures (forall beyond :: |beyond| == |b| ==> FlatRead(b, beyond, at, k) == Stored(b, front, rear)[..k])
            <==> at + k <= |b|
  {
    if at + k <= |b| {
      forall beyond: seq<byte> | |beyond| == |b|
        ensures FlatRead(b, beyond, at, k) == Stored(b, front, rear)[..k]
      {
        FlatReadRight(b, beyond, front, rear, k, at);
      }
    } else {
      var j := |b| - at;
      var beyond := Different(|b|, Stored(b, front, rear)[j]);
      assert FlatRead(b, beyond, at, k)[j] == beyond[0];
    }
  }

  lemma FlatReadRight(b: seq<byte>, beyond: seq<byte>, front: int, rear: int, k: int, at: int)
    requires InRing(|b|, front, rear) && 0 <= k <= UsedSize(|b|, front, rear)
    requires at == Rem(front + 1, |b|) && at + k <= |b|
    ensures FlatRead(b, beyond, at, k) == Stored(b, front, rear)[..k]
  {
    HeadBytes(b, front, rear, k);
    assert FlatRead(b, beyond, at, k) == b[at..at + k];
  }

  /** n bytes other than x. */
  function Different(n: nat, x: byte): (r: seq<byte>)
    ensures |r| == n && forall i :: 0 <= i < n ==> r[i] != x
  {
    if n == 0 then [] else Different(n - 1, x) + [if x == 0 then 1 else 0]
  }

  lemma HeadBytes(b: seq<byte>, front: int, rear: int, k: int)
    requires InRing(|b|, front, rear) && 0 <= k <= UsedSize(|b|, front, rear)
    requires Rem(front + 1, |b|) + k <= |b|
    ensures b[Rem(front + 1, |b|)..Rem(front + 1, |b|) + k] == Stored(b, front, rear)[..k]
  {
    var w := Stored(b, front, rear);
    forall i | 0 <= i < k ensures b[Rem(front + 1, |b|) + i] == w[i] {
      assert w[i] == b[Rem(Rem(front + 1, |b|) + i, |b|)];
    }
  }

  /** c differs from b only in the k bytes from `at` on. */
  predicate SameOutside(b: seq<byte>, c: seq<byte>, at: int, k: int) {
    |c| == |b| && forall i :: 0 <= i < |b| && !(at <= i < at + k) ==> c[i] == b[i]
  }

  /** Rewriting k consumed bytes in place leaves the unread bytes alone. */
  lemma ConsumedBytesDoNotShow(b: seq<byte>, c: seq<byte>, front: int, rear: int, k: int)
    requires InRing(|b|, front, rear) && 0 <= k <= UsedSize(|b|, front, rear) && |c| == |b|
    requires Rem(front + 1, |b|) + k <= |b|
    requires SameOutside(b, c, Rem(front + 1, |b|), k)
    ensures InRing(|b|, Rem(front + k, |b|), rear)
    ensures Stored(c, Rem(front + k, |b|), rear) == Stored(b, front, rear)[k..]
  {
    Dropped(b, front, rear, k);
    var v := Stored(b, Rem(front + k, |b|), rear);
    var w := Stored(c, Rem(front + k, |b|), rear);
    forall i | 0 <= i < |v| ensures w[i] == v[i] {
      assert w[i] == c[Rem(Rem(Rem(front + k, |b|) + 1, |b|) + i, |b|)];
      assert v[i] == b[Rem(Rem(Rem(front + k, |b|) + 1, |b|) + i, |b|)];
    }
  }

  lemma RewrittenFrame(b: seq<byte>, at: int, size: int, c: seq<byte>)
    requires 0 <= at && 0 <= size && at + 4 + size <= |b| && c == Rewritten(b, at, size)
    ensures c[at..at + 4 + size] == Opened(b[at..at + 4 + size])
  {
    var f := b[at..at + 4 + size];
    var d := Converted(b[at + 4..at + 4 + size]);
    assert f[..4] == b[at..at + 4] && f[4..] == b[at + 4..at + 4 + size];
    assert c[at..at + 4] == b[at..at + 4] && c[at + 4..at + 4 + size] == d;
    assert c[at..at + 4 + size] == c[at..at + 4] + c[at + 4..at + 4 + size];
  }

  lemma RewrittenInside(b: seq<byte>, beyond: seq<byte>, at: int, size: int)
    requires 0 <= at && 0 <= size && at + 4 + size <= |b|
    ensures Rewritten(b + beyond, at, size) == Rewritten(b, at, size) + beyond
  {
    assert (b + beyond)[at + 4..at + 4 + size] == b[at + 4..at + 4 + size];
  }

  lemma FrameOpened(b: seq<byte>, front: int, rear: int, s: seq<byte>, at: int, size: int, c: seq<byte>)
    requires InRing(|b|, front, rear) && s == Stored(b, front, rear) && at == Rem(front + 1, |b|)
    requires 0 <= size && 4 + size <= |s| && at + 4 + size <= |b| && c == Rewritten(b, at, size)
    ensures c[at..at + 4 + size] == Opened(s[..4 + size])
  {
    var raw := b[at..at + 4 + size];
    assert raw == s[..4 + size] by { HeadBytes(b, front, rear, 4 + size); }
    assert c[at..at + 4 + size] == Opened(raw) by { RewrittenFrame(b, at, size, c); }
  }

  /** A frame in one piece: the ring goes on to hold the bytes after it, ... */
  lemma FrameLeft(b: seq<byte>, front: int, rear: int, s: seq<byte>, k: int, front': int, c: seq<byte>)
    requires InRing(|b|, front, rear) && s == Stored(b, front, rear)
    requires 4 <= k <= |s| && Rem(front + 1, |b|) + k <= |b| && k < |b| && front' == Rem(front + k, |b|)
    requires c == Rewritten(b, Rem(front + 1, |b|), k - 4)
    ensures |c| == |b| && InRing(|b|, front', rear) && Stored(c, front', rear) == s[k..]
  {
    assert SameOutside(b, c, Rem(front + 1, |b|), k) by { RewrittenOutside(b, Rem(front + 1, |b|), k - 4, c); }
    ConsumedBytesDoNotShow(b, c, front, rear, k);
  }

  lemma RewrittenOutside(b: seq<byte>, at: int, size: int, c: seq<byte>)
    requires 0 <= at && 0 <= size && at + 4 + size <= |b| && c == Rewritten(b, at, size)
    ensures SameOutside(b, c, at, 4 + size)
  {
  }

  /** ... and it is handed over; what lies behind the buffer is untouched. */
  lemma FrameTaken(b: seq<byte>, beyond: seq<byte>, front: int, rear: int, s: seq<byte>, k: int, front': int,
                   c: seq<byte>, frame: seq<byte>)
    requires InRing(|b|, front, rear) && s == Stored(b, front, rear) && |beyond| >= |b| + 4
    requires HasFrame(s) && k == FrameSize(s) && Rem(front + 1, |b|) + k <= |b| && k < |b|
    requires front' == Rem(front + k, |b|)
    requires c == Rewritten(b, Rem(front + 1, |b|), k - 4)
    requires frame == c[Rem(front + 1, |b|)..Rem(front + 1, |b|) + k]
    ensures TurnOf(b + beyond, |b|, front, rear) == Take(frame, c + beyond, front')
  {
    HeaderRead(b, beyond, front, rear, s);
    FrameTurn(b, beyond, front, rear, Rem(front + 1, |b|), k - 4, c, frame);
  }

  lemma FrameTurn(b: seq<byte>, beyond: seq<byte>, front: int, rear: int, at: int, size: int,
                  c: seq<byte>, frame: seq<byte>)
    requires InRing(|b|, front, rear) && |beyond| >= |b| + 4 && at == Rem(front + 1, |b|)
    requires 0 <= size <= UsedSize(|b|, front, rear) - 4 && at + 4 + size <= |b|
    requires c == Rewritten(b, at, size) && frame == c[at..at + 4 + size] && size == Header(b + beyond, at)
    ensures front + 4 + size < 2 * |b|
    ensures TurnOf(b + beyond, |b|, front, rear) == Take(frame, c + beyond, Rem(front + (4 + size), |b|))
  {
    TurnTakes(b + beyond, |b|, front, rear, at, size);
    RewrittenInside(b, beyond, at, size);
    assert (c + beyond)[at..at + 4 + size] == c[at..at + 4 + size];
  }

  /** A header in one piece is read right. */
  lemma HeaderRead(b: seq<byte>, beyond: seq<byte>, front: int, rear: int, s: seq<byte>)
    requires InRing(|b|, front, rear) && s == Stored(b, front, rear) && |beyond| >= |b| + 4
    requires |s| >= 4 && Rem(front + 1, |b|) + 4 <= |b|
    ensures Header(b + beyond, Rem(front + 1, |b|)) == MessageSize(s)
  {
    var at := Rem(front + 1, |b|);
    assert forall i :: 0 <= i < 4 ==> s[i] == b[at + i];
  }

  // The whole loop ---------------------------------------------------------------------------

  /** What the first j bytes add to a header. */
  function Low(s: seq<byte>, j: int): nat
    requires 1 <= j < 4 <= |s|
  {
    Quad(s[0], if j > 1 then s[1] else 0, if j > 2 then s[2] else 0, 0)
  }

  /** The stream s, whose first byte follows position front, is taken apart right: every complete
      frame lies in one piece, and the header of an incomplete one lies in one piece or what is
      seen of it is already too large. */
  ghost predicate Safe(n: int, front: int, s: seq<byte>)
    requires 0 <= front < n && |s| < n
    decreases |s|
  {
    var at := Rem(front + 1, n);
    if HasFrame(s) then
      at + FrameSize(s) <= n && Safe(n, Rem(front + FrameSize(s), n), s[FrameSize(s)..])
    else
      |s| >= 4 ==> at + 4 <= n || Low(s, n - at) > |s| - 4
  }

  lemma StopsRight(b: seq<byte>, beyond: seq<byte>, front: int, rear: int, s: seq<byte>)
    requires InRing(|b|, front, rear) && s == Stored(b, front, rear) && |beyond| >= |b| + 4
    requires !HasFrame(s) && |s| < |b| && Safe(|b|, front, s)
    ensures TurnOf(b + beyond, |b|, front, rear) == Stop
  {
    var at := Rem(front + 1, |b|);
    if |s| >= 4 {
      if at + 4 <= |b| {
        HeaderRead(b, beyond, front, rear, s);
      } else {
        LargeHeader(b, beyond, front, rear, s, at);
      }
    }
  }

  lemma LargeHeader(b: seq<byte>, beyond: seq<byte>, front: int, rear: int, s: seq<byte>, at: int)
    requires InRing(|b|, front, rear) && s == Stored(b, front, rear) && |beyond| >= |b| + 4
    requires |s| >= 4 && at == Rem(front + 1, |b|) && at + 4 > |b| && Low(s, |b| - at) > |s| - 4
    ensures !(0 <= Header(b + beyond, at) <= |s| - 4)
  {
    HeaderParts(b, beyond, front, rear, s, at, 0);
    HeaderParts(b, beyond, front, rear, s, at, 1);
    HeaderParts(b, beyond, front, rear, s, at, 2);
  }

  /** A header over the end: its first bytes are the ring's, the others lie behind the buffer. */
  lemma HeaderParts(b: seq<byte>, beyond: seq<byte>, front: int, rear: int, s: seq<byte>, at: int, i: int)
    requires InRing(|b|, front, rear) && s == Stored(b, front, rear) && |beyond| >= 4
    requires |s| >= 4 && at == Rem(front + 1, |b|) && at + 4 > |b| && 0 <= i < 4
    ensures (b + beyond)[at + i] == if i < |b| - at then s[i] else beyond[i - (|b| - at)]
  {
    assert s[i] == b[Rem(at + i, |b|)];
  }

  /** Taking frames off s one by one gives out and leaves rest. */
  predicate Yields(s: seq<byte>, out: seq<seq<byte>>, rest: seq<byte>)
    decreases |s|
  {
    if HasFrame(s) then
      out != [] && out[0] == Opened(s[..FrameSize(s)]) && Yields(s[FrameSize(s)..], out[1..], rest)
    else out == [] && rest == s
  }

  lemma {:induction false} YieldsIs(s: seq<byte>, out: seq<seq<byte>>, rest: seq<byte>)
    ensures Yields(s, out, rest) <==> out == OpenedAll(FramesOf(s)) && rest == Rest(s)
    ensures |Rest(s)| <= |s|
    decreases |s|
  {
    if HasFrame(s) {
      var k := FrameSize(s);
      FramesTake(s, k, s[k..]);
      if out != [] {
        YieldsIs(s[k..], out[1..], rest);
        assert out == [out[0]] + out[1..];
      } else {
        YieldsIs(s[k..], [], rest);
      }
    }
  }

  /** On a safe stream the loop hands over exactly the complete frames, opened, and leaves
      exactly the rest, whatever lies behind the buffer; and it leaves that alone. */
  lemma {:induction false} LoopRight(b: seq<byte>, beyond: seq<byte>, front: int, rear: int, s: seq<byte>, r: Looped)
    returns (c: seq<byte>)
    requires InRing(|b|, front, rear) && s == Stored(b, front, rear) && |beyond| >= |b| + 4
    requires |s| < |b| && Safe(|b|, front, s) && r == Loop(b + beyond, |b|, front, rear)
    ensures |c| == |b| && r.mem == c + beyond && InRing(|b|, r.front, rear)
    ensures Yields(s, r.out, Stored(c, r.front, rear))
    ensures |Stored(c, r.front, rear)| <= |s| && r.front == Rem(front + (|s| - |Stored(c, r.front, rear)|), |b|)
    decreases |s|
  {
    if HasFrame(s) {
      var k := FrameSize(s);
      var front', next := Rem(front + k, |b|), s[k..];
      SafeNext(|b|, front, s, k, front', next);
      var d := Rewritten(b, Rem(front + 1, |b|), k - 4);
      FrameLeft(b, front, rear, s, k, front', d);
      var u := Loop(d + beyond, |b|, front', rear);
      var frame := LoopStep(b, beyond, front, rear, s, k, front', d, r, u);
      c := LoopRight(d, beyond, front', rear, next, u);
      YieldsStep(s, k, next, frame, u.out, Stored(c, r.front, rear));
      RemAdd(front, k, |next| - |Stored(c, r.front, rear)|, |b|);
    } else {
      StopsRight(b, beyond, front, rear, s);
      c := b;
    }
  }

  lemma LoopTakes(m: seq<byte>, n: int, front: int, rear: int, frame: seq<byte>, m': seq<byte>, front': int,
                  r: Looped, u: Looped)
    requires InRing(n, front, rear) && |m| >= 2 * n + 4 && TurnOf(m, n, front, rear) == Take(frame, m', front')
    requires r == Loop(m, n, front, rear) && u == Loop(m', n, front', rear)
    ensures r == Looped([frame] + u.out, u.mem, u.front)
  {
  }

  lemma LoopStep(b: seq<byte>, beyond: seq<byte>, front: int, rear: int, s: seq<byte>, k: int, front': int,
                 c: seq<byte>, r: Looped, u: Looped) returns (frame: seq<byte>)
    requires InRing(|b|, front, rear) && s == Stored(b, front, rear) && |beyond| >= |b| + 4
    requires HasFrame(s) && k == FrameSize(s) && Rem(front + 1, |b|) + k <= |b| && k < |b|
    requires front' == Rem(front + k, |b|)
    requires c == Rewritten(b, Rem(front + 1, |b|), k - 4) && InRing(|b|, front', rear)
    requires r == Loop(b + beyond, |b|, front, rear) && u == Loop(c + beyond, |b|, front', rear)
    ensures r == Looped([frame] + u.out, u.mem, u.front) && frame == Opened(s[..k])
  {
    frame := c[Rem(front + 1, |b|)..Rem(front + 1, |b|) + k];
    FrameTaken(b, beyond, front, rear, s, k, front', c, frame);
    LoopTakes(b + beyond, |b|, front, rear, frame, c + beyond, front', r, u);
    FrameOpened(b, front, rear, s, Rem(front + 1, |b|), k - 4, c);
  }

  lemma YieldsStep(s: seq<byte>, k: int, next: seq<byte>, frame: seq<byte>, out: seq<seq<byte>>, rest: seq<byte>)
    requires HasFrame(s) && k == FrameSize(s) && next == s[k..] && frame == Opened(s[..k]) && Yields(next, out, rest)
    ensures Yields(s, [frame] + out, rest)
  {
    assert ([frame] + out)[1..] == out;
  }

  // ...and only then ---------------------------------------------------------------------------

  /** Three ways to go wrong: a body over the end, ... */
  lemma FirstBeyond(b: seq<byte>, beyond: seq<byte>, at: int, k: int, s: seq<byte>) returns (frame: seq<byte>)
    requires 0 <= at && at + 4 <= |b| < at + k <= |b + beyond| && k <= |s| && beyond[0] != s[|b| - at]
    ensures frame == Rewritten(b + beyond, at, k - 4)[at..at + k] && frame != Opened(s[..k])
  {
    frame := FrameIn(b + beyond, at, k, |b|);
    OpenedDiffers((b + beyond)[at..at + k], s[..k], |b| - at);
  }

  /** The frame made from a piece of memory, whose byte j is one of the piece. */
  lemma FrameIn(mem: seq<byte>, at: int, k: int, j: int) returns (frame: seq<byte>)
    requires 0 <= at && 4 <= k && at <= j < at + k <= |mem|
    ensures frame == Rewritten(mem, at, k - 4)[at..at + k] && frame == Opened(mem[at..at + k])
    ensures mem[at..at + k][j - at] == mem[j]
  {
    var size := k - 4;
    var c := Rewritten(mem, at, size);
    frame := c[at..at + k];
    RewrittenFrame(mem, at, size, c);
    assert at + 4 + size == at + k;
  }

  lemma OpenedDiffers(f: seq<byte>, g: seq<byte>, j: nat)
    requires |f| == |g| && 4 <= j < |f| && f[j] != g[j]
    ensures Opened(f) != Opened(g)
  {
    XorTwice(f[j], KeyAt(j - 4));
    XorTwice(g[j], KeyAt(j - 4));
    assert Opened(f)[j] == Xor(f[j], KeyAt(j - 4)) && Opened(g)[j] == Xor(g[j], KeyAt(j - 4));
  }

  /** ... a header over the end that is made to look negative, ... */
  lemma HeaderHidden(b: seq<byte>, front: int, rear: int, s: seq<byte>, beyond: seq<byte>)
    requires InRing(|b|, front, rear) && s == Stored(b, front, rear) && |s| < |b| && |s| >= 4
    requires Rem(front + 1, |b|) + 4 > |b| && beyond == Fill(|b| + 4, 255)
    ensures Header(b + beyond, Rem(front + 1, |b|)) < 0
  {
    HeaderParts(b, beyond, front, rear, s, Rem(front + 1, |b|), 3);
  }

  /** ... and one that is made to look small enough. */
  lemma HeaderInvented(b: seq<byte>, front: int, rear: int, s: seq<byte>, beyond: seq<byte>)
    requires InRing(|b|, front, rear) && s == Stored(b, front, rear) && |s| < |b| && |s| >= 4
    requires var at := Rem(front + 1, |b|); at + 4 > |b| && Low(s, |b| - at) <= |s| - 4
    requires beyond == Fill(|b| + 4, 0) && |b| < 0x8000_0000
    ensures 0 <= Header(b + beyond, Rem(front + 1, |b|)) <= |s| - 4
  {
    var at := Rem(front + 1, |b|);
    HeaderParts(b, beyond, front, rear, s, at, 0);
    HeaderParts(b, beyond, front, rear, s, at, 1);
    HeaderParts(b, beyond, front, rear, s, at, 2);
    HeaderParts(b, beyond, front, rear, s, at, 3);
  }

  function Fill(n: nat, x: byte): (r: seq<byte>)
    ensures |r| == n && forall i :: 0 <= i < n ==> r[i] == x
  {
    if n == 0 then [] else Fill(n - 1, x) + [x]
  }

  /** On an unsafe stream some contents of the memory behind the buffer make the loop hand over
      something else. */
  lemma {:induction false} LoopWrong(b: seq<byte>, front: int, rear: int, s: seq<byte>) returns (beyond: seq<byte>)
    requires InRing(|b|, front, rear) && s == Stored(b, front, rear) && |s| < |b| < 0x8000_0000
    requires !Safe(|b|, front, s)
    ensures |beyond| == |b| + 4
    ensures forall rest :: !Yields(s, Loop(b + beyond, |b|, front, rear).out, rest)
    decreases |s|, 1
  {
    var at := Rem(front + 1, |b|);
    if HasFrame(s) {
      var k := FrameSize(s);
      if at + 4 > |b| {
        beyond := Fill(|b| + 4, 255);
        HeaderHidden(b, front, rear, s, beyond);
        TooFew(b + beyond, |b|, front, rear, s, at);
      } else if at + k > |b| {
        beyond := Different(|b| + 4, s[|b| - at]);
        HeaderRead(b, beyond, front, rear, s);
        var frame := FirstBeyond(b, beyond, at, k, s);
        FirstIsWrong(b + beyond, |b|, front, rear, s, at, k, frame);
      } else {
        beyond := LaterWrong(b, front, rear, s, k);
      }
    } else {
      beyond := Fill(|b| + 4, 0);
      HeaderInvented(b, front, rear, s, beyond);
      TooMany(b + beyond, |b|, front, rear, s, at);
    }
  }

  lemma TooFew(m: seq<byte>, n: int, front: int, rear: int, s: seq<byte>, at: int)
    requires InRing(n, front, rear) && |m| >= 2 * n + 4 && at == Rem(front + 1, n) && HasFrame(s) && Header(m, at) < 0
    ensures forall rest :: !Yields(s, Loop(m, n, front, rear).out, rest)
  {
  }

  lemma LoopHead(m: seq<byte>, n: int, front: int, rear: int, at: int, size: int)
    requires InRing(n, front, rear) && |m| >= 2 * n + 4 && at == Rem(front + 1, n) && size == Header(m, at)
    requires 0 <= size <= UsedSize(n, front, rear) - 4
    ensures 4 + size < n
    ensures var out := Loop(m, n, front, rear).out; out != [] && out[0] == Rewritten(m, at, size)[at..at + 4 + size]
  {
    TurnTakes(m, n, front, rear, at, size);
  }

  lemma TooMany(m: seq<byte>, n: int, front: int, rear: int, s: seq<byte>, at: int)
    requires InRing(n, front, rear) && |m| >= 2 * n + 4 && at == Rem(front + 1, n) && !HasFrame(s)
    requires 0 <= Header(m, at) <= UsedSize(n, front, rear) - 4
    ensures forall rest :: !Yields(s, Loop(m, n, front, rear).out, rest)
  {
    LoopHead(m, n, front, rear, at, Header(m, at));
  }

  lemma NotYielded(s: seq<byte>, out: seq<seq<byte>>, k: int, frame: seq<byte>)
    requires HasFrame(s) && k == FrameSize(s) && out != [] && out[0] == frame != Opened(s[..k])
    ensures forall rest :: !Yields(s, out, rest)
  {
  }

  lemma FirstIsWrong(m: seq<byte>, n: int, front: int, rear: int, s: seq<byte>, at: int, k: int, frame: seq<byte>)
    requires InRing(n, front, rear) && |m| >= 2 * n + 4 && at == Rem(front + 1, n) && HasFrame(s) && k == FrameSize(s)
    requires Header(m, at) == k - 4 <= UsedSize(n, front, rear) - 4
    requires frame == Rewritten(m, at, k - 4)[at..at + k] && frame != Opened(s[..k])
    ensures forall rest :: !Yields(s, Loop(m, n, front, rear).out, rest)
  {
    LoopHead(m, n, front, rear, at, k - 4);
    NotYielded(s, Loop(m, n, front, rear).out, k, frame);
  }

  /** The first frame lies in one piece, so the trouble is further on. */
  lemma {:induction false} LaterWrong(b: seq<byte>, front: int, rear: int, s: seq<byte>, k: int)
    returns (beyond: seq<byte>)
    requires InRing(|b|, front, rear) && s == Stored(b, front, rear) && |s| < |b| < 0x8000_0000
    requires HasFrame(s) && k == FrameSize(s) && Rem(front + 1, |b|) + k <= |b| && !Safe(|b|, front, s)
    ensures |beyond| == |b| + 4
    ensures forall rest :: !Yields(s, Loop(b + beyond, |b|, front, rear).out, rest)
    decreases |s|, 0
  {
    var front', next := Rem(front + k, |b|), s[k..];
    var c := Rewritten(b, Rem(front + 1, |b|), k - 4);
    FrameLeft(b, front, rear, s, k, front', c);
    NextUnsafe(|b|, front, s, k, front', next);
    beyond := LoopWrong(c, front', rear, next);
    var r, u := Loop(b + beyond, |b|, front, rear), Loop(c + beyond, |b|, front', rear);
    var frame := LoopStep(b, beyond, front, rear, s, k, front', c, r, u);
    LaterNotYielded(s, k, next, frame, u.out, r.out);
  }

  lemma LaterNotYielded(s: seq<byte>, k: int, next: seq<byte>, frame: seq<byte>, later: seq<seq<byte>>,
                        out: seq<seq<byte>>)
    requires HasFrame(s) && k == FrameSize(s) && next == s[k..] && out == [frame] + later
    requires forall rest :: !Yields(next, later, rest)
    ensures forall rest :: !Yields(s, out, rest)
  {
    assert out[1..] == later;
  }

  lemma NextUnsafe(n: int, front: int, s: seq<byte>, k: int, front': int, next: seq<byte>)
    requires 0 <= front < n && |s| < n && !Safe(n, front, s) && HasFrame(s) && k == FrameSize(s)
    requires Rem(front + 1, n) + k <= n && 0 <= front' < n && front' == Rem(front + k, n) && next == s[k..]
    ensures !Safe(n, front', next)
  {
  }

  lemma SafeNext(n: int, front: int, s: seq<byte>, k: int, front': int, next: seq<byte>)
    requires 0 <= front < n && |s| < n && Safe(n, front, s) && HasFrame(s) && k == FrameSize(s)
    requires front' == Rem(front + k, n) && next == s[k..]
    ensures Rem(front + 1, n) + k <= n && 0 <= front' < n && Safe(n, front', next)
  {
  }

  lemma RemAdd(front: int, k: int, j: int, n: int)
    requires 0 <= front < n && 0 <= k && 0 <= j && k + j < n
    ensures Rem(Rem(front + k, n) + j, n) == Rem(front + (k + j), n)
  {
  }

  lemma FramesTake(s: seq<byte>, k: nat, next: seq<byte>)
    requires HasFrame(s) && k == FrameSize(s) && next == s[k..]
    ensures OpenedAll(FramesOf(s)) == [Opened(s[..k])] + OpenedAll(FramesOf(next))
  {
    assert FramesOf(s) == [s[..k]] + FramesOf(next);
    assert FramesOf(s)[1..] == FramesOf(next);
  }

  /** The loop hands over exactly the complete frames of the ring, whatever lies behind the
      buffer, if and only if the ring's contents are safe. */
  lemma LoopExact(b: seq<byte>, front: int, rear: int, s: seq<byte>)
    requires InRing(|b|, front, rear) && s == Stored(b, front, rear) && |s| < |b| < 0x8000_0000
    ensures (forall beyond :: |beyond| == |b| + 4 ==> Yields(s, Loop(b + beyond, |b|, front, rear).out, Rest(s)))
            <==> Safe(|b|, front, s)
  {
    if Safe(|b|, front, s) {
      forall beyond: seq<byte> | |beyond| == |b| + 4
        ensures Yields(s, Loop(b + beyond, |b|, front, rear).out, Rest(s))
      {
        var r := Loop(b + beyond, |b|, front, rear);
        var c := LoopRight(b, beyond, front, rear, s, r);
        YieldsIs(s, r.out, Stored(c, r.front, rear));
      }
    } else {
      var beyond := LoopWrong(b, front, rear, s);
      assert !Yields(s, Loop(b + beyond, |b|, front, rear).out, Rest(s));
    }
  }

  /** A five-byte frame whose last byte has wrapped, in the source's 7000-byte buffer: what is
      handed over carries a byte of foreign memory instead. */
  lemma FrameOverTheEnd(b: seq<byte>, beyond: seq<byte>, s: seq<byte>)
    requires |b| == 7000 && |beyond| == 7004 && s == Stored(b, 6995, 0) && beyond[0] != b[0]
    requires b[6996] == 1 && b[6997] == 0 && b[6998] == 0 && b[6999] == 0
    ensures HasFrame(s) && FrameSize(s) == 5 == |s|
    ensures forall rest :: !Yields(s, Loop(b + beyond, 7000, 6995, 0).out, rest)
  {
    assert s[0] == 1 && s[1] == 0 && s[2] == 0 && s[3] == 0 && s[4] == b[0];
    HeaderRead(b, beyond, 6995, 0, s);
    var frame := FirstBeyond(b, beyond, 6996, 5, s);
    FirstIsWrong(b + beyond, 7000, 6995, 0, s, 6996, 5, frame);
  }
}
