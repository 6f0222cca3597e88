/**
 The receive ring.  Bytes live at the positions after `readPos` up to and including
 `writePos`, modulo the buffer size N; the slot at `readPos` is never used, so the
 capacity is N - 1.
 */
module RingQ {
  import opened Bytes

  // Size functions, pure in (N, front, rear) --------------------------------------

  /** C++ `a % n` for the values the ring computes: the sign follows the dividend. */
  function Rem(a: int, n: int): int
    requires -n < a < 2 * n
  {
    if a < n then a else a - n
  }

  lemma RemIsRemainder(a: int, n: int)
    requires -n < a < 2 * n
    ensures Rem(a, n) == if 0 <= a then a % n else -((-a) % n)
  {
  }

  predicate InRing(n: int, front: int, rear: int) {
    n > 1 && 0 <= front < n && 0 <= rear < n
  }

  function FreeSize(n: int, front: int, rear: int): int
    requires InRing(n, front, rear)
  {
    if Rem(rear + 1, n) == front then 0
    else if front > rear then front - rear - 1
    else front + (n - 1) - rear
  }

  function UsedSize(n: int, front: int, rear: int): int
    requires InRing(n, front, rear)
  {
    if rear == front then 0
    else if front < rear then rear - front
    else rear + (n - 1) - front + 1
  }

  function DirectEnqueueSize(n: int, front: int, rear: int): int
    requires InRing(n, front, rear)
  {
    if Rem(rear + 1, n) == front then 0
    else
      var next := Rem(rear + 1, n);
      if next < front then front - next else (n - 1) - next + 1
  }

  function DirectDequeueSize(n: int, front: int, rear: int): int
    requires InRing(n, front, rear)
  {
    if front == rear then 0
    else
      var next := Rem(front + 1, n);
      if next <= rear then rear - next + 1 else (n - 1) - next + 1
  }

  /** Used plus free is always the capacity; a direct size never exceeds it, and what it
      leaves over starts at index 0. */
  lemma Sizes(n: int, front: int, rear: int)
    requires InRing(n, front, rear)
    ensures UsedSize(n, front, rear) + FreeSize(n, front, rear) == n - 1
    ensures 0 <= UsedSize(n, front, rear) && 0 <= FreeSize(n, front, rear)
    ensures UsedSize(n, front, rear) < n && Rem(front + UsedSize(n, front, rear), n) == rear
    ensures 0 <= DirectEnqueueSize(n, front, rear) <= FreeSize(n, front, rear)
    ensures 0 <= DirectDequeueSize(n, front, rear) <= UsedSize(n, front, rear)
    ensures Rem(rear + 1, n) + DirectEnqueueSize(n, front, rear) <= n
    ensures Rem(front + 1, n) + DirectDequeueSize(n, front, rear) <= n
    ensures DirectEnqueueSize(n, front, rear) < FreeSize(n, front, rear) ==>
              Rem(rear + 1, n) + DirectEnqueueSize(n, front, rear) == n
    ensures DirectDequeueSize(n, front, rear) < UsedSize(n, front, rear) ==>
              Rem(front + 1, n) + DirectDequeueSize(n, front, rear) == n
    ensures FreeSize(n, front, rear) > 0 ==> DirectEnqueueSize(n, front, rear) > 0
    ensures UsedSize(n, front, rear) > 0 ==> DirectDequeueSize(n, front, rear) > 0
  {
  }

  // Windows of the ring ---------------------------------------------------------------

  /** len bytes from index `at` on, wrapping. */
  function Window(b: seq<byte>, at: int, len: int): (w: seq<byte>)
    requires 0 <= at < |b| && 0 <= len <= |b|
    ensures |w| == len
    ensures forall i :: 0 <= i < len ==> w[i] == b[Rem(at + i, |b|)]
  {
    seq(len, i requires 0 <= i < len => b[Rem(at + i, |b|)])
  }

  /** The bytes of a ring with these positions. */
  function Stored(b: seq<byte>, front: int, rear: int): (r: seq<byte>)
    requires InRing(|b|, front, rear)
    ensures |r| == UsedSize(|b|, front, rear)
  {
    Window(b, Rem(front + 1, |b|), UsedSize(|b|, front, rear))
  }

  /** How far index i lies after index `at`, going round a ring of n. */
  function Ahead(n: int, at: int, i: int): int {
    if i < at then i - at + n else i - at
  }

  /** b with data written from index `at` on, wrapping. */
  function Written(b: seq<byte>, at: int, data: seq<byte>): (c: seq<byte>)
    requires 0 <= at < |b| && |data| <= |b|
    ensures |c| == |b|
    ensures forall i :: 0 <= i < |b| ==>
              c[i] == if Ahead(|b|, at, i) < |data| then data[Ahead(|b|, at, i)] else b[i]
  {
    seq(|b|, i requires 0 <= i < |b| =>
      if Ahead(|b|, at, i) < |data| then data[Ahead(|b|, at, i)] else b[i])
  }

  lemma AppendedPosition(n: int, front: int, rear: int, k: int)
    requires InRing(n, front, rear) && 0 <= k <= FreeSize(n, front, rear)
    ensures var u := UsedSize(n, front, rear);
            && 0 <= u && u + k < n
            && InRing(n, front, Rem(rear + k, n))
            && UsedSize(n, front, Rem(rear + k, n)) == u + k
            && Rem(Rem(front + 1, n) + u, n) == Rem(rear + 1, n)
  {
  }

  lemma WindowWritten(b: seq<byte>, from: int, u: int, data: seq<byte>)
    requires 0 <= from < |b| && 0 <= u && u + |data| <= |b|
    ensures Window(Written(b, Rem(from + u, |b|), data), from, u + |data|) == Window(b, from, u) + data
  {
    var c := Written(b, Rem(from + u, |b|), data);
    var w := Window(c, from, u + |data|);
    forall i | 0 <= i < u + |data| ensures w[i] == (Window(b, from, u) + data)[i] {
      assert w[i] == c[Rem(from + i, |b|)];
    }
  }

  /** Writing data after rear and advancing rear by its length appends data. */
  lemma Appended(b: seq<byte>, front: int, rear: int, data: seq<byte>)
    requires InRing(|b|, front, rear) && |data| <= FreeSize(|b|, front, rear)
    ensures InRing(|b|, front, Rem(rear + |data|, |b|))
    ensures Stored(Written(b, Rem(rear + 1, |b|), data), front, Rem(rear + |data|, |b|))
            == Stored(b, front, rear) + data
  {
    AppendedPosition(|b|, front, rear, |data|);
    WindowWritten(b, Rem(front + 1, |b|), UsedSize(|b|, front, rear), data);
  }

  /** Enqueue's final position is rear + size, except for the step back from index 0. */
  lemma EnqueueEffect(b: seq<byte>, front: int, rear: int, data: seq<byte>, c: seq<byte>, rear': int)
    requires InRing(|b|, front, rear) && |data| <= FreeSize(|b|, front, rear)
    requires c == Written(b, Rem(rear + 1, |b|), data) && rear' == Rem(Rem(rear + 1, |b|) + |data| - 1, |b|)
    ensures |data| == 0 && rear == |b| - 1 ==> rear' == -1
    ensures !(|data| == 0 && rear == |b| - 1) ==>
              InRing(|c|, front, rear') && Stored(c, front, rear') == Stored(b, front, rear) + data
  {
    Sizes(|b|, front, rear);
    Appended(b, front, rear, data);
    assert !(|data| == 0 && rear == |b| - 1) ==> rear' == Rem(rear + |data|, |b|);
  }

  /** Advancing front by k drops the k oldest bytes. */
  lemma Dropped(b: seq<byte>, front: int, rear: int, k: int)
    requires InRing(|b|, front, rear) && 0 <= k <= UsedSize(|b|, front, rear)
    ensures InRing(|b|, Rem(front + k, |b|), rear)
    ensures Stored(b, Rem(front + k, |b|), rear) == Stored(b, front, rear)[k..]
  {
    var w := Stored(b, front, rear);
    var v := Stored(b, Rem(front + k, |b|), rear);
    assert |v| == |w| - k;
    forall i | 0 <= i < |v| ensures v[i] == w[k + i] {
      assert v[i] == b[Rem(Rem(Rem(front + k, |b|) + 1, |b|) + i, |b|)];
      assert w[k + i] == b[Rem(Rem(front + 1, |b|) + (k + i), |b|)];
    }
  }

  /** One copy that does not reach past the end. */
  lemma WrittenOnce(b: seq<byte>, at: int, data: seq<byte>)
    requires 0 <= at < |b| && at + |data| <= |b|
    ensures Splice(b, at, data) == Written(b, at, data)
  {
  }

  /** Two copies, up to the end and then from index 0. */
  lemma WrittenTwice(b: seq<byte>, at: int, first: seq<byte>, rest: seq<byte>)
    requires 0 <= at < |b| && at + |first| == |b| && |first| + |rest| <= |b|
    ensures Splice(Splice(b, at, first), 0, rest) == Written(b, at, first + rest)
  {
    var c, w := Splice(Splice(b, at, first), 0, rest), Written(b, at, first + rest);
    forall i | 0 <= i < |b| ensures c[i] == w[i] {
      assert c[i] == if i < |rest| then rest[i] else Splice(b, at, first)[i];
      assert Splice(b, at, first)[i] == if at <= i then first[i - at] else b[i];
      assert w[i] == if Ahead(|b|, at, i) < |first + rest| then (first + rest)[Ahead(|b|, at, i)] else b[i];
    }
  }

  datatype Segment = Segment(at: nat, len: nat)      // a WSABUF into m_Buffer

  class Ring {
    var buf: array<byte>
    var readPos: int
    var writePos: int

    ghost predicate Valid()
      reads this
    {
      InRing(buf.Length, readPos, writePos)
    }

    /** The bytes in the ring, oldest first. */
    ghost function Contents(): seq<byte>
      requires Valid()
      reads this, buf
    {
      Stored(buf[..], readPos, writePos)
    }

    constructor (n: nat)
      requires n > 1
      ensures Valid() && Contents() == [] && readPos == writePos == 0 && buf.Length == n && fresh(buf)
    {
      buf := new byte[n](_ => 0);
      readPos := 0;
      writePos := 0;
    }

    /** The one or two memcpys of Enqueue, and the position they end at.  For size 0 that is
        one before `at`, which at index 0 is -1. */
    method Store(at: int, buffer: seq<byte>, direct: int, size: int) returns (rear: int)
      requires 0 <= at < buf.Length && 1 < buf.Length && 0 <= size <= |buffer| && size < buf.Length
      requires 0 <= direct && at + direct <= buf.Length && (direct < size ==> at + direct == buf.Length && 0 < direct)
      modifies buf
      ensures buf[..] == Written(old(buf[..]), at, buffer[..size])
      ensures rear == Rem(at + size - 1, buf.Length)
    {
      var n := buf.Length;
      rear := at;
      if direct < size {
        WrittenTwice(buf[..], at, buffer[..direct], buffer[direct..size]);
        assert buffer[..direct] + buffer[direct..size] == buffer[..size];
        Memcpy(buf, rear, buffer[..direct]);
        rear := Rem(rear + direct - 1, n);
        var diff := size - direct;
        rear := Rem(rear + 1, n);
        Memcpy(buf, rear, buffer[direct..size]);
        rear := Rem(rear + diff - 1, n);
      } else {
        WrittenOnce(buf[..], at, buffer[..size]);
        Memcpy(buf, rear, buffer[..size]);
        rear := Rem(rear + size - 1, n);
      }
    }

    /** Enqueue appends the longest fitting prefix, in one or two copies.

        A request for zero bytes steps the position forward and back; at the last index the
        way back is a C++ remainder of -1, and the ring is left with position -1. */
    method Enqueue(buffer: seq<byte>, size0: int) returns (r: int)
      requires Valid() && 0 <= size0 <= |buffer|
      modifies this`writePos, buf
      ensures r == if FreeSize(buf.Length, readPos, old(writePos)) < size0
                   then FreeSize(buf.Length, readPos, old(writePos)) else size0
      ensures size0 == 0 && old(writePos) == buf.Length - 1 ==> writePos == -1
      ensures !(size0 == 0 && old(writePos) == buf.Length - 1) ==>
                Valid() && Contents() == old(Contents()) + buffer[..r]
    {
      var n := buf.Length;
      var size := size0;
      Sizes(n, readPos, writePos);
      ghost var was := buf[..];
      var free := FreeSize(n, readPos, writePos);
      if free < size {
        size := free;
        if size <= 0 {
          assert Contents() == Contents() + buffer[..0];
          return 0;
        }
      }
      var direct := DirectEnqueueSize(n, readPos, writePos);
      var rear := Store(Rem(writePos + 1, n), buffer, direct, size);
      EnqueueEffect(was, readPos, writePos, buffer[..size], buf[..], rear);
      writePos := rear;
      return size;
    }

    /** The one or two memcpys of Dequeue and Peek. */
    method Load(dest: array<byte>, at: int, direct: int, size: int)
      requires dest != buf && 0 <= at < buf.Length && 0 <= size <= dest.Length && size < buf.Length
      requires 0 <= direct && at + direct <= buf.Length && (direct < size ==> at + direct == buf.Length)
      modifies dest
      ensures dest[..] == Window(buf[..], at, size) + old(dest[size..])
    {
      if direct < size {
        WindowTwice(buf[..], at, direct, size);
        SpliceTwice(dest[..], buf[at..at + direct], buf[..size - direct]);
        Memcpy(dest, 0, buf[at..at + direct]);
        var diff := size - direct;
        Memcpy(dest, direct, buf[..diff]);
      } else {
        WindowOnce(buf[..], at, size);
        SpliceTwice(dest[..], buf[at..at + size], []);
        Memcpy(dest, 0, buf[at..at + size]);
      }
    }

    /** Dequeue removes and returns the longest available prefix.  A request for zero bytes
        has the same flaw as in Enqueue. */
    method Dequeue(dest: array<byte>, size0: int) returns (r: int)
      requires Valid() && dest != buf && 0 <= size0 <= dest.Length
      modifies this`readPos, dest
      ensures r == if UsedSize(buf.Length, old(readPos), writePos) < size0
                   then UsedSize(buf.Length, old(readPos), writePos) else size0
      ensures dest[..] == old(Contents())[..r] + old(dest[r..])
      ensures size0 == 0 && old(readPos) == buf.Length - 1 ==> readPos == -1
      ensures !(size0 == 0 && old(readPos) == buf.Length - 1) ==> Valid() && Contents() == old(Contents())[r..]
    {
      var n := buf.Length;
      var size := size0;
      Sizes(n, readPos, writePos);
      var used := UsedSize(n, readPos, writePos);
      if used < size {
        size := used;
        if size <= 0 {
          return 0;
        }
      }
      var direct := DirectDequeueSize(n, readPos, writePos);
      var at := Rem(readPos + 1, n);
      Load(dest, at, direct, size);
      var front := Rem(at + size - 1, n);
      DequeueEffect(buf[..], readPos, writePos, size, front);
      readPos := front;
      return size;
    }

    /** Peek returns the same bytes and changes nothing in the ring. */
    method Peek(dest: array<byte>, size0: int) returns (r: int)
      requires Valid() && dest != buf && 0 <= size0 <= dest.Length
      modifies dest
      ensures r == if |Contents()| < size0 then |Contents()| else size0
      ensures dest[..] == Contents()[..r] + old(dest[r..])
    {
      var n := buf.Length;
      var size := size0;
      Sizes(n, readPos, writePos);
      var used := UsedSize(n, readPos, writePos);
      if used < size {
        size := used;
        if size <= 0 {
          return 0;
        }
      }
      Load(dest, Rem(readPos + 1, n), DirectDequeueSize(n, readPos, writePos), size);
      Prefix(buf[..], readPos, writePos, size);
      return size;
    }

    /** GetDirectEnQData: the loop lists the direct segments of the free region. */
    method GetDirectEnQData() returns (segs: seq<Segment>)
      requires Valid()
      ensures segs == DirectSegments(buf.Length, readPos, writePos, 2)
    {
      var n := buf.Length;
      var front := readPos;
      var rear := writePos;
      segs := [];
      for i := 0 to 2
        invariant InRing(n, front, rear)
        invariant segs + DirectSegments(n, front, rear, 2 - i) == DirectSegments(n, readPos, writePos, 2)
      {
        if Rem(rear + 1, n) == front {
          break;
        }
        DirectStep(n, front, rear);
        var size := DirectEnqueueSize(n, front, rear);
        segs := segs + [Segment(Rem(rear + 1, n), size)];
        rear := Rem(rear + size, n);
      }
    }

    method MoveWritePosition(size: int)
      requires Valid() && size <= buf.Length
      modifies this`writePos
      ensures writePos == if size < 0 then old(writePos) else Rem(old(writePos) + size, buf.Length)
    {
      if size < 0 {
        return;
      }
      writePos := Rem(writePos + size, buf.Length);
    }

    method MoveReadPosition(size: int)
      requires Valid() && size <= buf.Length
      modifies this`readPos
      ensures readPos == if size < 0 then old(readPos) else Rem(old(readPos) + size, buf.Length)
    {
      if size < 0 {
        return;
      }
      readPos := Rem(readPos + size, buf.Length);
    }
  }

  /** Two blocks copied one behind the other to the start of s. */
  lemma SpliceTwice(s: seq<byte>, x: seq<byte>, y: seq<byte>)
    requires |x| + |y| <= |s|
    ensures Splice(s, 0, x) == x + s[|x|..]
    ensures Splice(Splice(s, 0, x), |x|, y) == x + y + s[|x| + |y|..]
  {
  }

  lemma WindowOnce(b: seq<byte>, at: int, k: int)
    requires 0 <= at < |b| && 0 <= k && at + k <= |b|
    ensures Window(b, at, k) == b[at..at + k]
  {
  }

  lemma WindowTwice(b: seq<byte>, at: int, direct: int, k: int)
    requires 0 <= at < |b| && 0 <= direct <= k < |b| && at + direct == |b|
    ensures Window(b, at, k) == b[at..at + direct] + b[..k - direct]
  {
  }

  /** Dequeue's final position is front + k, except for the step back from index 0. */
  lemma DequeueEffect(b: seq<byte>, front: int, rear: int, k: int, front': int)
    requires InRing(|b|, front, rear) && 0 <= k <= UsedSize(|b|, front, rear)
    requires k < |b| && front' == Rem(Rem(front + 1, |b|) + k - 1, |b|)
    ensures Window(b, Rem(front + 1, |b|), k) == Stored(b, front, rear)[..k]
    ensures k == 0 && front == |b| - 1 ==> front' == -1
    ensures !(k == 0 && front == |b| - 1) ==>
              InRing(|b|, front', rear) && Stored(b, front', rear) == Stored(b, front, rear)[k..]
  {
    Prefix(b, front, rear, k);
    Dropped(b, front, rear, k);
    assert !(k == 0 && front == |b| - 1) ==> front' == Rem(front + k, |b|);
  }

  /** One direct segment: it leaves the rest of the free region starting at index 0, and a
      segment that starts at index 0 leaves nothing. */
  lemma DirectStep(n: int, front: int, rear: int)
    requires InRing(n, front, rear)
    ensures var d := DirectEnqueueSize(n, front, rear);
            && 0 <= d <= FreeSize(n, front, rear) < n
            && 0 <= Rem(rear + 1, n) && Rem(rear + 1, n) + d <= n
            && InRing(n, front, Rem(rear + d, n))
            && FreeSize(n, front, Rem(rear + d, n)) == FreeSize(n, front, rear) - d
            && (d < FreeSize(n, front, rear) ==> Rem(Rem(rear + d, n) + 1, n) == 0)
            && (Rem(rear + 1, n) == 0 ==> d == FreeSize(n, front, rear))
            && (0 < FreeSize(n, front, rear) ==> d > 0)
            && (Rem(rear + 1, n) == front <==> FreeSize(n, front, rear) == 0)
  {
  }

  lemma Prefix(b: seq<byte>, front: int, rear: int, k: int)
    requires InRing(|b|, front, rear) && 0 <= k <= UsedSize(|b|, front, rear)
    ensures Window(b, Rem(front + 1, |b|), k) == Stored(b, front, rear)[..k]
  {
  }

  function Span(s: Segment): (r: seq<int>)
    ensures |r| == s.len && forall i :: 0 <= i < s.len ==> r[i] == s.at + i
  {
    seq(s.len, i => s.at + i)
  }

  /** The indices a list of segments covers, in order. */
  function Indices(segs: seq<Segment>): seq<int> {
    if segs == [] then [] else Span(segs[0]) + Indices(segs[1..])
  }

  /** Up to `left` direct segments of the free region after rear. */
  function DirectSegments(n: int, front: int, rear: int, left: nat): (r: seq<Segment>)
    requires InRing(n, front, rear)
    decreases left
  {
    if left == 0 || Rem(rear + 1, n) == front then []
    else
      DirectStep(n, front, rear);
      var size := DirectEnqueueSize(n, front, rear);
      [Segment(Rem(rear + 1, n), size)] + DirectSegments(n, front, Rem(rear + size, n), left - 1)
  }

  /** The k indices after rear, going round. */
  function FreeIndices(n: int, rear: int, k: int): (r: seq<int>)
    requires 0 <= rear < n && 0 <= k < n
    ensures |r| == k && forall i :: 0 <= i < k ==> r[i] == Rem(rear + 1 + i, n)
  {
    seq(k, i requires 0 <= i < k => Rem(rear + 1 + i, n))
  }

  lemma SpanThenFree(n: int, rear: int, s: Segment, k: int)
    requires 0 <= rear < n && 0 <= k && s.len + k < n
    requires s.at == Rem(rear + 1, n) && s.at + s.len <= n
    ensures Span(s) + FreeIndices(n, Rem(rear + s.len, n), k) == FreeIndices(n, rear, s.len + k)
  {
  }

  lemma {:induction false} SegmentsCover(n: int, front: int, rear: int, left: nat)
    requires InRing(n, front, rear)
    requires 0 <= FreeSize(n, front, rear) < n
    requires left >= 2 || FreeSize(n, front, rear) == 0 || (left == 1 && Rem(rear + 1, n) == 0)
    ensures |DirectSegments(n, front, rear, left)| <= 2
    ensures Indices(DirectSegments(n, front, rear, left)) == FreeIndices(n, rear, FreeSize(n, front, rear))
    ensures Rem(rear + 1, n) == 0 ==> |DirectSegments(n, front, rear, left)| <= 1
    ensures FreeSize(n, front, rear) == 0 ==> DirectSegments(n, front, rear, left) == []
    decreases left
  {
    DirectStep(n, front, rear);
    if FreeSize(n, front, rear) > 0 {
      var size := DirectEnqueueSize(n, front, rear);
      var seg := Segment(Rem(rear + 1, n), size);
      SegmentsCover(n, front, Rem(rear + size, n), left - 1);
      SpanThenFree(n, rear, seg, FreeSize(n, front, rear) - size);
    }
  }

  /** GetDirectEnQData returns at most two segments, which list exactly the free indices,
      each once, in the order the ring will use them. */
  lemma ScatterList(n: int, front: int, rear: int)
    requires InRing(n, front, rear)
    ensures |DirectSegments(n, front, rear, 2)| <= 2
    ensures 0 <= FreeSize(n, front, rear) < n
    ensures Indices(DirectSegments(n, front, rear, 2)) == FreeIndices(n, rear, FreeSize(n, front, rear))
  {
    Sizes(n, front, rear);
    SegmentsCover(n, front, rear, 2);
  }

  /** c is b after a transfer put data, in order, at the first |data| of the indices idx. */
  ghost predicate Filled(b: seq<byte>, c: seq<byte>, idx: seq<int>, data: seq<byte>) {
    && |c| == |b| && |data| <= |idx|
    && (forall i :: 0 <= i < |idx| ==> 0 <= idx[i] < |b|)
    && (forall i :: 0 <= i < |data| ==> c[idx[i]] == data[i])
    && (forall j :: 0 <= j < |b| && j !in idx[..|data|] ==> c[j] == b[j])
  }

  /** A transfer of k bytes into the scatter list, followed by MoveWritePosition(k), appends
      exactly those bytes. */
  lemma TransferAppends(b: seq<byte>, c: seq<byte>, front: int, rear: int, data: seq<byte>)
    requires InRing(|b|, front, rear)
    requires Filled(b, c, Indices(DirectSegments(|b|, front, rear, 2)), data)
    ensures |data| <= FreeSize(|b|, front, rear) && InRing(|c|, front, Rem(rear + |data|, |c|))
    ensures Stored(c, front, Rem(rear + |data|, |c|)) == Stored(b, front, rear) + data
  {
    var n := |b|;
    ScatterList(n, front, rear);
    var idx := FreeIndices(n, rear, FreeSize(n, front, rear));
    var at := Rem(rear + 1, n);
    forall j | 0 <= j < n ensures c[j] == Written(b, at, data)[j] {
      var k := Ahead(n, at, j);
      if k < |data| {
        assert idx[k] == j;
      } else {
        forall i | 0 <= i < |data| ensures idx[i] != j {}
        assert j !in idx[..|data|];
      }
    }
    assert c == Written(b, at, data);
    Appended(b, front, rear, data);
  }
}
