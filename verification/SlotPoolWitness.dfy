/** For every page size of at least two, a run of two threads that drops a slot. */
module SlotPoolWitness {
  import opened SlotPool
  import opened SlotPoolProof

  predicate Distinct(q: seq<Slot>) {
    forall i, j :: 0 <= i < j < |q| ==> q[i] != q[j]
  }

  /** The slots of q are live and were allocated by t. */
  predicate Has(s: Pool, q: seq<Slot>, t: Tid) {
    forall i :: 0 <= i < |q| ==> HasSlot(s, q[i], t)
  }

  predicate HasSlot(s: Pool, x: Slot, t: Tid) {
    x in s.live && x in s.thread && s.thread[x] == t
  }

  /** Live slots other than those of q are as they were. */
  ghost predicate Others(s: Pool, s': Pool, q: seq<Slot>) {
    forall x, t :: HasSlot(s, x, t) && x !in q ==> HasSlot(s', x, t)
  }

  lemma Start0(n: nat, moves: seq<Move>)
    requires n > 0
    ensures Sane(Exec(n, 0, moves)) && Exec(n, 0, moves).n == n
  {
    ExecInv(n, 0, moves);
  }

  lemma Call(n: nat, moves: seq<Move>, s: Pool, m: Move, s': Pool)
    requires n > 0 && s == Exec(n, 0, moves) && Sane(s) && s' == Step(s, m)
    ensures s' == Exec(n, 0, moves + [m]) && s.n == n && Sane(s') && s'.n == n
  {
    assert (moves + [m])[..|moves|] == moves;
    Start0(n, moves);
    Start0(n, moves + [m]);
  }

  lemma TakeOne(s: Pool, t: Tid, p: nat, q: seq<Slot>, s': Pool)
    requires Sane(s) && t in s.tls && s.tls[t] == p && s.pages[p].unused == q != [] && s' == Step(s, AllocBy(t))
    ensures s'.tls == s.tls && s'.batches == s.batches
    ensures s'.pages == s.pages[p := s.pages[p].(unused := q[..|q| - 1])]
    ensures HasSlot(s', Last(q), t) && Others(s, s', [Last(q)])
  {
  }

  /** Thread t takes everything on its page's fresh stack. */
  lemma {:induction false} TakeAll(n: nat, moves: seq<Move>, s: Pool, t: Tid, p: nat, q: seq<Slot>)
    returns (more: seq<Move>, s': Pool)
    requires n > 0 && s == Exec(n, 0, moves) && t in s.tls && s.tls[t] == p < |s.pages|
    requires s.pages[p].unused == q && Distinct(q)
    ensures s' == Exec(n, 0, more) && s'.tls == s.tls && s'.batches == s.batches
    ensures s'.pages == s.pages[p := s.pages[p].(unused := [])]
    ensures Has(s', q, t) && Others(s, s', q)
    decreases |q|
  {
    if q == [] {
      more, s' := moves, s;
    } else {
      var rest, x := q[..|q| - 1], Last(q);
      Start0(n, moves);
      var s1 := Step(s, AllocBy(t));
      Call(n, moves, s, AllocBy(t), s1);
      TakeOne(s, t, p, q, s1);
      more, s' := TakeAll(n, moves + [AllocBy(t)], s1, t, p, rest);
      AllOf(s, s1, s', rest, x, q, t);
    }
  }

  lemma AllOf(s: Pool, s1: Pool, s': Pool, rest: seq<Slot>, x: Slot, q: seq<Slot>, t: Tid)
    requires q == rest + [x] && Distinct(q)
    requires HasSlot(s1, x, t) && Others(s, s1, [x]) && Has(s', rest, t) && Others(s1, s', rest)
    ensures Has(s', q, t) && Others(s, s', q)
  {
    assert x == q[|rest|] && forall i :: 0 <= i < |rest| ==> rest[i] == q[i];
  }

  lemma FreeOne(s: Pool, t: Tid, p: nat, x: Slot, r: seq<Slot>, s': Pool)
    requires Sane(s) && t in s.tls && s.tls[t] == p && s.pages[p].recycled == r && |r| + 1 < s.n && t != 0
    requires HasSlot(s, x, 0) && s' == Step(s, FreeBy(t, x))
    ensures s'.tls == s.tls && s'.batches == s.batches
    ensures s'.pages == s.pages[p := s.pages[p].(recycled := r + [x])] && Others(s, s', [x])
  {
  }

  lemma CallFree(n: nat, moves: seq<Move>, s: Pool, t: Tid, p: nat, x: Slot, r: seq<Slot>) returns (s': Pool)
    requires n > 0 && s == Exec(n, 0, moves) && t in s.tls && s.tls[t] == p < |s.pages| && t != 0
    requires s.pages[p].recycled == r && |r| + 1 < n && HasSlot(s, x, 0)
    ensures s' == Exec(n, 0, moves + [FreeBy(t, x)]) && s'.tls == s.tls && s'.batches == s.batches
    ensures s'.pages == s.pages[p := s.pages[p].(recycled := r + [x])] && Others(s, s', [x])
  {
    Start0(n, moves);
    s' := Step(s, FreeBy(t, x));
    Call(n, moves, s, FreeBy(t, x), s');
    FreeOne(s, t, p, x, r, s');
  }

  /** Thread t frees slots that thread 0 allocated, and its recycled stack does not fill up. */
  lemma {:induction false} FreeSome(n: nat, moves: seq<Move>, s: Pool, t: Tid, p: nat, xs: seq<Slot>, r: seq<Slot>)
    returns (more: seq<Move>, s': Pool)
    requires n > 0 && s == Exec(n, 0, moves) && t in s.tls && s.tls[t] == p < |s.pages| && t != 0
    requires s.pages[p].recycled == r && |r| + |xs| < n && Distinct(xs) && Has(s, xs, 0)
    ensures s' == Exec(n, 0, more) && s'.tls == s.tls && s'.batches == s.batches
    ensures s'.pages == s.pages[p := s.pages[p].(recycled := r + xs)] && Others(s, s', xs)
    decreases |xs|
  {
    if xs == [] {
      more, s' := moves, s;
      assert r + xs == r;
    } else {
      var x, rest := xs[0], xs[1..];
      assert xs == [x] + rest;
      assert HasSlot(s, x, 0);
      var s1 := CallFree(n, moves, s, t, p, x, r);
      RestHeld(s, s1, x, rest, xs);
      more, s' := FreeSome(n, moves + [FreeBy(t, x)], s1, t, p, rest, r + [x]);
      FreedBoth(s, s1, s', p, r, x, rest, xs);
    }
  }

  lemma FreedBoth(s: Pool, s1: Pool, s': Pool, p: nat, r: seq<Slot>, x: Slot, rest: seq<Slot>, xs: seq<Slot>)
    requires xs == [x] + rest && Others(s, s1, [x]) && Others(s1, s', rest) && p < |s.pages|
    requires s1.pages == s.pages[p := s.pages[p].(recycled := r + [x])]
    requires s'.pages == s1.pages[p := s1.pages[p].(recycled := r + [x] + rest)]
    ensures s'.pages == s.pages[p := s.pages[p].(recycled := r + xs)] && Others(s, s', xs)
  {
    assert r + [x] + rest == r + xs;
  }

  lemma RestHeld(s: Pool, s1: Pool, x: Slot, rest: seq<Slot>, xs: seq<Slot>)
    requires xs == [x] + rest && Distinct(xs) && Has(s, xs, 0) && Others(s, s1, [x])
    ensures Has(s1, rest, 0) && Distinct(rest)
  {
    forall i | 0 <= i < |rest| ensures HasSlot(s1, rest[i], 0) {
      assert rest[i] == xs[i + 1] && HasSlot(s, xs[i + 1], 0) && xs[0] == x;
    }
    assert forall i :: 0 <= i < |rest| ==> rest[i] == xs[i + 1];
  }

  /** Thread 1 holds two slots of page 1, whose stacks are empty, and there is a batch: thread 1
      takes the batch and frees both; for the second there is no room. */
  lemma TakeAndLose(n: nat, moves: seq<Move>, s: Pool, b0: Slot, b1: Slot) returns (more: seq<Move>)
    requires n > 1 && s == Exec(n, 0, moves) && 1 in s.tls && s.tls[1] == 1 < |s.pages|
    requires s.pages[1].unused == [] && s.pages[1].recycled == [] && s.batches != []
    requires b0 != b1 && b0.page == 1 && b1.page == 1 && HasSlot(s, b0, 1) && HasSlot(s, b1, 1)
    ensures b1 in Exec(n, 0, more).dropped
  {
    ExecInv(n, 0, moves);
    var s1 := Step(s, AllocBy(1));
    Call(n, moves, s, AllocBy(1), s1);
    AllocKeeps(s, 1, Alloc(s, 1));
    assert |s1.pages[1].unused| == n - 1 && HasSlot(s1, b0, 1) && HasSlot(s1, b1, 1);
    var s2 := Step(s1, FreeBy(1, b0));
    Call(n, moves + [AllocBy(1)], s1, FreeBy(1, b0), s2);
    assert |s2.pages[1].unused| == n && HasSlot(s2, b1, 1);
    var s3 := Step(s2, FreeBy(1, b1));
    more := moves + [AllocBy(1)] + [FreeBy(1, b0)] + [FreeBy(1, b1)];
    Call(n, moves + [AllocBy(1)] + [FreeBy(1, b0)], s2, FreeBy(1, b1), s3);
  }

  lemma PageSlotsDistinct(p: nat, n: nat, k: nat)
    requires k <= n
    ensures Distinct(PageSlots(p, n)[..k])
  {
  }

  lemma FirstTakesAll(n: nat, q: seq<Slot>) returns (moves: seq<Move>, s: Pool)
    requires n > 1 && q == PageSlots(0, n)
    ensures s == Exec(n, 0, moves) && s.tls == map[0 := 0] && s.batches == []
    ensures s.pages == [Page([], [], false)] && Has(s, q, 0)
  {
    var s0 := Exec(n, 0, []);
    PageSlotsDistinct(0, n, n);
    assert q[..n] == q;
    moves, s := TakeAll(n, [], s0, 0, 0, q);
  }

  /** The first Alloc of thread 1 gives it a page. */
  lemma SecondJoins(n: nat, s: Pool, q: seq<Slot>, q1: seq<Slot>, s': Pool)
    requires n > 1 && Sane(s) && s.n == n && s.tls == map[0 := 0] && s.batches == []
    requires s.pages == [Page([], [], false)] && Has(s, q, 0) && q == PageSlots(0, n)
    requires q1 == PageSlots(1, n)[..n - 1] && s' == Step(s, AllocBy(1))
    ensures s'.tls == map[0 := 0, 1 := 1] && s'.batches == [] && s'.pages == [Page([], [], false), Page(q1, [], false)]
    ensures Has(s', q, 0) && HasSlot(s', Slot(1, n - 1), 1)
  {
  }

  /** Thread 0 takes all of page 0 and thread 1 all of its own page 1. */
  lemma BothTakeAll(n: nat, q: seq<Slot>) returns (moves: seq<Move>, s: Pool)
    requires n > 1 && q == PageSlots(0, n)
    ensures s == Exec(n, 0, moves) && s.tls == map[0 := 0, 1 := 1] && s.batches == []
    ensures s.pages == [Page([], [], false), Page([], [], false)]
    ensures Has(s, q, 0) && HasSlot(s, Slot(1, 0), 1) && HasSlot(s, Slot(1, n - 1), 1)
  {
    var m1, s1 := FirstTakesAll(n, q);
    Start0(n, m1);
    var q1 := PageSlots(1, n)[..n - 1];
    var s2 := Step(s1, AllocBy(1));
    SecondJoins(n, s1, q, q1, s2);
    Call(n, m1, s1, AllocBy(1), s2);
    PageSlotsDistinct(1, n, n - 1);
    moves, s := TakeAll(n, m1 + [AllocBy(1)], s2, 1, 1, q1);
    assert q1[0] == Slot(1, 0);
  }

  /** So a slot can be dropped, whatever the page size; that nothing ever hands it out again is GoneForGood. */
  lemma SlotIsLost(n: nat) returns (moves: seq<Move>)
    requires n > 1
    ensures Exec(n, 0, moves).dropped != {}
  {
    var q := PageSlots(0, n);
    var m0, s0 := BothTakeAll(n, q);
    var most, x := q[..n - 1], q[n - 1];
    PageSlotsDistinct(0, n, n - 1);
    var m1, s1 := FreeSome(n, m0, s0, 1, 1, most, []);
    Start0(n, m1);
    assert HasSlot(s0, x, 0) && HasSlot(s1, x, 0);
    var s2 := Step(s1, FreeBy(1, x));
    Call(n, m1, s1, FreeBy(1, x), s2);
    moves := TakeAndLose(n, m1 + [FreeBy(1, x)], s2, Slot(1, 0), Slot(1, n - 1));
  }
}
