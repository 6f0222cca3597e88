/**
 One thread that never has more than n + 1 slots, one page more than a page holds, makes the
 pool take as many pages as one likes. Nothing is dropped and no batch is ever involved: all
 slots of all pages but the last are on stacks that nobody pops again.
 */
module SlotPoolPages {
  import opened SlotPool
  import opened SlotPoolProof
  import opened SlotPoolReach

  /** Slots a up to b of page p. */
  function Own(p: nat, a: nat, b: nat): set<Slot> {
    set i | a <= i < b :: Slot(p, i)
  }

  lemma {:induction false} OwnSize(p: nat, a: nat, b: nat)
    requires a <= b
    ensures |Own(p, a, b)| == b - a
    decreases b - a
  {
    if a == b {
      assert Own(p, a, b) == {};
    } else {
      OwnSize(p, a + 1, b);
      assert Own(p, a, b) == {Slot(p, a)} + Own(p, a + 1, b);
    }
  }

  /** Thread 0 is the only one; pages before k are full again and left behind. */
  predicate Solo(n: nat, s: Pool, k: nat) {
    && s.n == n > 0 && s.batches == [] && s.dropped == {}
    && k < |s.pages| && (forall p :: 0 <= p < k ==> s.pages[p] == Page(PageSlots(p, n), [], false))
    && (forall x :: x in s.live ==> x in s.thread && s.thread[x] == 0)
  }

  /** Thread 0 takes slots from page k; m are left. */
  predicate Taking(n: nat, s: Pool, k: nat, m: nat) {
    && Solo(n, s, k) && m <= n && |s.pages| == k + 1 && s.tls == map[0 := k]
    && s.pages[k] == Page(PageSlots(k, n)[..m], [], false)
    && s.live == Own(k, m, n)
  }

  /** Thread 0 has moved to page k + 1 and gives back the slots of page k; the first j are back. */
  predicate GivingBack(n: nat, s: Pool, k: nat, j: nat) {
    && Solo(n, s, k) && j <= n && |s.pages| == k + 2 && s.tls == map[0 := k + 1]
    && s.pages[k] == Page(PageSlots(k, n)[..j], [], false)
    && s.pages[k + 1] == Page(PageSlots(k + 1, n)[..n - 1], [], false)
    && s.live == Own(k, j, n) + {Slot(k + 1, n - 1)}
  }

  lemma Takes(n: nat, s: Pool, k: nat, m: nat, s': Pool)
    requires Taking(n, s, k, m) && m > 0 && Sane(s) && s' == Step(s, AllocBy(0))
    ensures Taking(n, s', k, m - 1)
  {
    var q := PageSlots(k, n);
    assert q[..m][..m - 1] == q[..m - 1] && Last(q[..m]) == Slot(k, m - 1);
    assert Own(k, m - 1, n) == Own(k, m, n) + {Slot(k, m - 1)};
  }

  lemma MovesOn(n: nat, s: Pool, k: nat, s': Pool)
    requires Taking(n, s, k, 0) && Sane(s) && s' == Step(s, AllocBy(0))
    ensures GivingBack(n, s', k, 0)
  {
    assert PageSlots(k, n)[..0] == [];
  }

  lemma GivesBack(n: nat, s: Pool, k: nat, j: nat, s': Pool)
    requires GivingBack(n, s, k, j) && j < n && Sane(s) && s' == Step(s, FreeBy(0, Slot(k, j)))
    ensures GivingBack(n, s', k, j + 1)
  {
    assert Slot(k, j) in Own(k, j, n);
    assert PageSlots(k, n)[..j + 1] == PageSlots(k, n)[..j] + [Slot(k, j)];
    assert Own(k, j + 1, n) == Own(k, j, n) - {Slot(k, j)};
  }

  lemma AllBack(n: nat, s: Pool, k: nat)
    requires GivingBack(n, s, k, n)
    ensures Taking(n, s, k + 1, n - 1)
  {
    assert PageSlots(k, n)[..n] == PageSlots(k, n);
    assert Own(k + 1, n - 1, n) == {Slot(k + 1, n - 1)} && Own(k, n, n) == {};
  }

  /** At no time in the run are more than n + 1 slots live. */
  ghost predicate Small(n: nat, moves: seq<Move>) {
    forall i :: 0 <= i <= |moves| ==> |Exec(n, 0, moves[..i]).live| <= n + 1
  }

  lemma PrefixSmall(n: nat, moves: seq<Move>, m: Move, i: nat)
    requires Small(n, moves) && i <= |moves|
    ensures |Exec(n, 0, (moves + [m])[..i]).live| <= n + 1
  {
    assert (moves + [m])[..i] == moves[..i];
  }

  lemma SmallGrows(n: nat, moves: seq<Move>, m: Move)
    requires Small(n, moves) && |Exec(n, 0, moves + [m]).live| <= n + 1
    ensures Small(n, moves + [m])
  {
    var all := moves + [m];
    forall i | 0 <= i <= |all| ensures |Exec(n, 0, all[..i]).live| <= n + 1 {
      if i <= |moves| {
        PrefixSmall(n, moves, m, i);
      } else {
        assert all[..i] == all;
      }
    }
  }

  /** The run leads to s. */
  ghost predicate Reached(n: nat, moves: seq<Move>, s: Pool) {
    n > 0 && Small(n, moves) && s == Exec(n, 0, moves) && Sane(s)
  }

  lemma Grow(n: nat, moves: seq<Move>, s: Pool, m: Move, s': Pool)
    requires Reached(n, moves, s) && s' == Step(s, m) && |s'.live| <= n + 1
    ensures Reached(n, moves + [m], s')
  {
    assert (moves + [m])[..|moves|] == moves;
    assert s' == Exec(n, 0, moves + [m]);
    ExecInv(n, 0, moves + [m]);
    SmallGrows(n, moves, m);
  }

  lemma TakeOne(n: nat, moves: seq<Move>, s: Pool, k: nat, m: nat) returns (s': Pool)
    requires Reached(n, moves, s) && Taking(n, s, k, m) && m > 0
    ensures Reached(n, moves + [AllocBy(0)], s') && Taking(n, s', k, m - 1)
  {
    s' := Step(s, AllocBy(0));
    Takes(n, s, k, m, s');
    OwnSize(k, m - 1, n);
    Grow(n, moves, s, AllocBy(0), s');
  }

  lemma MoveOn(n: nat, moves: seq<Move>, s: Pool, k: nat) returns (s': Pool)
    requires Reached(n, moves, s) && Taking(n, s, k, 0)
    ensures Reached(n, moves + [AllocBy(0)], s') && GivingBack(n, s', k, 0)
  {
    s' := Step(s, AllocBy(0));
    MovesOn(n, s, k, s');
    OwnSize(k, 0, n);
    Grow(n, moves, s, AllocBy(0), s');
  }

  lemma GiveOne(n: nat, moves: seq<Move>, s: Pool, k: nat, j: nat) returns (s': Pool)
    requires Reached(n, moves, s) && GivingBack(n, s, k, j) && j < n
    ensures Reached(n, moves + [FreeBy(0, Slot(k, j))], s') && GivingBack(n, s', k, j + 1)
  {
    s' := Step(s, FreeBy(0, Slot(k, j)));
    GivesBack(n, s, k, j, s');
    OwnSize(k, j + 1, n);
    Grow(n, moves, s, FreeBy(0, Slot(k, j)), s');
  }

  /** One round: take what is left of page k, move on to page k + 1, give everything back. */
  lemma Round(n: nat, moves0: seq<Move>, s0: Pool, k: nat, m0: nat) returns (moves: seq<Move>, s: Pool)
    requires Reached(n, moves0, s0) && Taking(n, s0, k, m0)
    ensures Reached(n, moves, s) && Taking(n, s, k + 1, n - 1)
  {
    moves, s := TakeRest(n, moves0, s0, k, m0);
    var s1 := MoveOn(n, moves, s, k);
    moves, s := GiveAllBack(n, moves + [AllocBy(0)], s1, k, 0);
    AllBack(n, s, k);
  }

  lemma {:induction false} TakeRest(n: nat, moves: seq<Move>, s: Pool, k: nat, m: nat)
    returns (more: seq<Move>, s': Pool)
    requires Reached(n, moves, s) && Taking(n, s, k, m)
    ensures Reached(n, more, s') && Taking(n, s', k, 0)
    decreases m
  {
    if m == 0 {
      more, s' := moves, s;
    } else {
      var s1 := TakeOne(n, moves, s, k, m);
      more, s' := TakeRest(n, moves + [AllocBy(0)], s1, k, m - 1);
    }
  }

  lemma {:induction false} GiveAllBack(n: nat, moves: seq<Move>, s: Pool, k: nat, j: nat)
    returns (more: seq<Move>, s': Pool)
    requires Reached(n, moves, s) && GivingBack(n, s, k, j)
    ensures Reached(n, more, s') && GivingBack(n, s', k, n)
    decreases n - j
  {
    if j == n {
      more, s' := moves, s;
    } else {
      var s1 := GiveOne(n, moves, s, k, j);
      more, s' := GiveAllBack(n, moves + [FreeBy(0, Slot(k, j))], s1, k, j + 1);
    }
  }

  lemma FirstPage(n: nat) returns (moves: seq<Move>, s: Pool)
    requires n > 0
    ensures Reached(n, moves, s) && Taking(n, s, 0, n)
  {
    moves, s := [], Start(n, 0);
    assert PageSlots(0, n)[..n] == PageSlots(0, n) && Own(0, n, n) == {};
  }

  /** m is how many slots of page k are not taken yet. */
  lemma {:induction false} Rounds(n: nat, k: nat) returns (moves: seq<Move>, s: Pool, m: nat)
    requires n > 0
    ensures Reached(n, moves, s) && Taking(n, s, k, m)
  {
    if k == 0 {
      moves, s := FirstPage(n);
      m := n;
    } else {
      var moves0, s0, m0 := Rounds(n, k - 1);
      moves, s := Round(n, moves0, s0, k - 1, m0);
      m := n - 1;
    }
  }

  lemma StuckThere(n: nat, s: Pool, k: nat, m: nat, p: nat, i: nat)
    requires Taking(n, s, k, m) && p < k && i < n
    ensures OutOfReach(s, Slot(p, i))
  {
    assert s.pages[p].unused[i] == Slot(p, i);
    assert Slot(p, i) in multiset(s.pages[p].unused);
    assert Stuck(s, p, Slot(p, i));
  }

  lemma AllStuck(n: nat, s: Pool, k: nat, m: nat)
    requires Taking(n, s, k, m)
    ensures |s.pages| == k + 1 && s.dropped == {} && s.batches == []
    ensures forall p :: 0 <= p <= k ==> !s.pages[p].stole
    ensures forall p: nat, i: nat :: p < k && i < n ==> OutOfReach(s, Slot(p, i))
  {
    forall p: nat, i: nat | p < k && i < n ensures OutOfReach(s, Slot(p, i)) {
      StuckThere(n, s, k, m, p, i);
    }
  }

  /** For every page size and every k there is a run with at most n + 1 slots live at any time
      after which k whole pages are out of reach. */
  lemma PagesPileUp(n: nat, k: nat) returns (moves: seq<Move>, s: Pool)
    requires n > 0
    ensures s == Exec(n, 0, moves) && |s.pages| == k + 1 && s.dropped == {} && s.batches == []
    ensures forall i :: 0 <= i <= |moves| ==> |Exec(n, 0, moves[..i]).live| <= n + 1
    ensures forall p :: 0 <= p <= k ==> !s.pages[p].stole
    ensures forall p: nat, i: nat :: p < k && i < n ==> OutOfReach(s, Slot(p, i))
  {
    var m: nat;
    moves, s, m := Rounds(n, k);
    AllStuck(n, s, k, m);
  }
}
