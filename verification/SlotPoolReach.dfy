/**
 Which slots of the pool can be handed out again.

 Alloc pops only from the page in the calling thread's TLS slot and from the global batches.
 When those are empty ChunkAlloc points the thread at a new page and never back; slots freed
 later onto the old page's fresh stack stay there.
 */
module SlotPoolReach {
  import opened SlotPool
  import opened SlotPoolProof

  /** A page in no thread's TLS slot. */
  predicate LeftBehind(s: Pool, p: nat) {
    p < |s.pages| && p !in s.tls.Values
  }

  predicate Stuck(s: Pool, p: nat, x: Slot) {
    LeftBehind(s, p) && PageCount(s.pages[p], x) > 0
  }

  /** Dropped, or on a stack of a page left behind. */
  ghost predicate OutOfReach(s: Pool, x: Slot) {
    x in s.dropped || exists p: nat :: Stuck(s, p, x)
  }

  /** No page is in two TLS slots, and some thread has one. */
  predicate Homes(s: Pool) {
    && s.tls.Keys != {}
    && forall t, u :: t in s.tls && u in s.tls && t != u ==> s.tls[t] != s.tls[u]
  }

  // What a call does to pages and TLS slots ------------------------------------------------------

  /** Alloc touches the caller's page and a new one; it leaves the caller's page only when it must. */
  lemma AllocPages(s: Pool, t: Tid, s': Pool)
    requires Inv(s) && s' == Alloc(s, t).pool
    ensures s'.tls == (if NeedsPage(s, t) then s.tls[t := |s.pages|] else s.tls) && s'.dropped == s.dropped
    ensures |s'.pages| == |s.pages| + Bit(NeedsPage(s, t))
    ensures forall p :: 0 <= p < |s.pages| && (NeedsPage(s, t) || p != s.tls[t]) ==> s'.pages[p] == s.pages[p]
  {
  }

  /** Alloc leaves a page behind exactly when the caller has one and neither its stacks nor the
      batches have a slot left, and it is that page, which is empty. */
  lemma AllocLeaves(s: Pool, t: Tid, s': Pool, p: nat)
    requires Inv(s) && Homes(s) && s' == Alloc(s, t).pool
    ensures Homes(s')
    ensures p in s.tls.Values && p !in s'.tls.Values <==> t in s.tls && NeedsPage(s, t) && p == s.tls[t]
    ensures p in s.tls.Values && p !in s'.tls.Values ==>
              p < |s'.pages| && s'.pages[p].unused == [] && s'.pages[p].recycled == []
  {
    AllocPages(s, t, s');
    if NeedsPage(s, t) {
      assert s'.tls[t] == |s.pages| && t in s'.tls;
      forall u | u in s.tls && u != t ensures s.tls[u] in s'.tls.Values {
        assert s'.tls[u] == s.tls[u];
      }
    }
  }

  lemma FreePages(s: Pool, t: Tid, x: Slot, s': Pool)
    requires Inv(s) && x in s.live && s' == Free(s, t, x) && s.thread[x] != t
    ensures s'.tls == (if t in s.tls then s.tls else s.tls[t := |s.pages|]) && s'.dropped == s.dropped
    ensures |s'.pages| == |s.pages| + Bit(t !in s.tls)
    ensures forall p :: 0 <= p < |s.pages| && (t !in s.tls || p != s.tls[t]) ==> s'.pages[p] == s.pages[p]
  {
  }

  lemma LiveOnNoPage(s: Pool, p: nat, x: Slot)
    requires Inv(s) && x in s.live && p < |s.pages|
    ensures PageCount(s.pages[p], x) == 0 && x !in s.dropped
  {
    InPage(s.pages, p, x);
    assert Places(s, x) == Bit(Exists(s, x));
  }

  // Exactly what puts a slot out of reach -------------------------------------------------------

  /** A free by the thread that allocated x, onto a full stack or onto a page left behind. */
  predicate PutsAway(s: Pool, t: Tid, x: Slot)
    requires Sane(s) && x in s.live
  {
    s.thread[x] == t && (Drops(s, t, x) || x.page !in s.tls.Values)
  }

  lemma AllocReach(s: Pool, t: Tid, s': Pool, x: Slot)
    requires Inv(s) && Homes(s) && s' == Alloc(s, t).pool
    ensures OutOfReach(s', x) <==> OutOfReach(s, x)
  {
    AllocPages(s, t, s');
    if p: nat :| Stuck(s, p, x) {
      assert Stuck(s', p, x);
    }
    if p: nat :| Stuck(s', p, x) {
      AllocLeaves(s, t, s', p);
      assert p != |s.pages| by {
        assert NeedsPage(s, t) ==> s'.tls[t] == |s.pages| && t in s'.tls;
      }
      assert Stuck(s, p, x);
    }
  }

  lemma RecycleReach(s: Pool, t: Tid, x: Slot, s': Pool, y: Slot)
    requires Inv(s) && Homes(s) && x in s.live && s.thread[x] != t && s' == Free(s, t, x)
    ensures Homes(s') && (OutOfReach(s', y) <==> OutOfReach(s, y))
  {
    FreePages(s, t, x, s');
    assert t in s'.tls;
    forall u | u in s.tls ensures s'.tls[u] == s.tls[u] && s.tls[u] in s'.tls.Values {
    }
    if p: nat :| Stuck(s, p, y) {
      assert Stuck(s', p, y);
    }
    if p: nat :| Stuck(s', p, y) {
      assert p != s'.tls[t];
      assert Stuck(s, p, y);
    }
  }

  lemma PushReach(s: Pool, t: Tid, x: Slot, s': Pool, y: Slot)
    requires Inv(s) && Homes(s) && x in s.live && s.thread[x] == t && s' == Free(s, t, x)
    ensures Homes(s') && (OutOfReach(s', y) <==> OutOfReach(s, y) || (y == x && PutsAway(s, t, x)))
  {
    PushCount(s.pages[x.page].unused, x, y);
    if p: nat :| Stuck(s, p, y) {
      assert Stuck(s', p, y);
    }
    if p: nat :| Stuck(s', p, y) {
      LiveOnNoPage(s, p, x);
      if y != x || p != x.page {
        assert Stuck(s, p, y);
      }
    }
    if y == x && PutsAway(s, t, x) && !Drops(s, t, x) {
      assert Stuck(s', x.page, x);
    }
  }

  /** A slot goes out of reach exactly by such a free, and no call brings one back. */
  lemma ReachStep(s: Pool, m: Move, s': Pool, x: Slot)
    requires Inv(s) && Homes(s) && s' == Step(s, m)
    ensures Homes(s')
    ensures OutOfReach(s', x) <==>
            OutOfReach(s, x) || (m.FreeBy? && m.slot == x && x in s.live && PutsAway(s, m.t, x))
  {
    match m
    case AllocBy(t) =>
      AllocLeaves(s, t, s', 0);
      AllocReach(s, t, s', x);
    case FreeBy(t, y) =>
      if y in s.live {
        if s.thread[y] == t {
          PushReach(s, t, y, s', x);
        } else {
          RecycleReach(s, t, y, s', x);
        }
      }
  }

  // Whole runs ---------------------------------------------------------------------------------

  lemma {:induction false} ExecHomes(n: nat, t: Tid, moves: seq<Move>)
    requires n > 0
    ensures Inv(Exec(n, t, moves)) && Homes(Exec(n, t, moves)) && Exec(n, t, moves).n == n
  {
    ExecInv(n, t, moves);
    if moves == [] {
      assert t in Exec(n, t, moves).tls.Keys;
    } else {
      var k := |moves| - 1;
      ExecHomes(n, t, moves[..k]);
      ReachStep(Exec(n, t, moves[..k]), moves[k], Exec(n, t, moves), Slot(0, 0));
    }
  }

  lemma AwayIsNotLive(s: Pool, x: Slot)
    requires Inv(s) && OutOfReach(s, x)
    ensures x !in s.live
  {
    if p: nat :| Stuck(s, p, x) {
      OnStack(s, p, x);
    } else {
      assert Places(s, x) == Bit(Exists(s, x));
    }
  }

  /** Out of reach is for good: whatever anybody calls afterwards, the slot is never live again. */
  lemma {:induction false} GoneForGood(n: nat, t: Tid, moves: seq<Move>, more: seq<Move>, x: Slot)
    requires n > 0 && OutOfReach(Exec(n, t, moves), x)
    ensures OutOfReach(Exec(n, t, moves + more), x) && x !in Exec(n, t, moves + more).live
    decreases |more|
  {
    var all := moves + more;
    ExecHomes(n, t, all);
    if more == [] {
      assert all == moves;
    } else {
      var k := |more| - 1;
      assert all[..|all| - 1] == moves + more[..k] && all[|all| - 1] == more[k];
      GoneForGood(n, t, moves, more[..k], x);
      ExecHomes(n, t, moves + more[..k]);
      ReachStep(Exec(n, t, moves + more[..k]), more[k], Exec(n, t, all), x);
    }
    AwayIsNotLive(Exec(n, t, all), x);
  }

  /** x is on a stack of t's page or in a batch. */
  predicate Near(s: Pool, t: Tid, x: Slot)
    requires Sane(s) && t in s.tls
  {
    PageCount(s.pages[s.tls[t]], x) > 0 || BatchesCount(s.batches, x) > 0
  }

  function Size(p: Page): nat {
    |p.unused| + |p.recycled|
  }

  /** The slots t has to go through at most before one it is near to. */
  predicate Shorter(s: Pool, t: Tid, s': Pool)
    requires Sane(s) && t in s.tls && Sane(s') && t in s'.tls
  {
    || |s'.batches| < |s.batches|
    || (|s'.batches| == |s.batches| && Size(s'.pages[s'.tls[t]]) < Size(s.pages[s.tls[t]]))
  }

  lemma PopProgress(s: Pool, t: Tid, x: Slot, s': Pool)
    requires Sane(s) && t in s.tls && Near(s, t, x) && Sane(s')
    requires var pg := s.pages[s.tls[t]];
             || (pg.unused != [] && s' == PopFresh(s, t, s.tls[t]))
             || (pg.recycled != [] && s' == PopRecycled(s, t, s.tls[t]))
    ensures t in s'.tls && (x in s'.live || Near(s', t, x)) && Shorter(s, t, s')
  {
    var pg := s.pages[s.tls[t]];
    if pg.unused != [] {
      SplitLast(pg.unused, x);
    }
    if pg.recycled != [] {
      SplitLast(pg.recycled, x);
    }
  }

  lemma StealProgress(s: Pool, t: Tid, x: Slot, s': Pool)
    requires Sane(s) && t in s.tls && Near(s, t, x) && s.batches != [] && s' == Steal(s, s.tls[t])
    requires s.pages[s.tls[t]].unused == [] && s.pages[s.tls[t]].recycled == []
    ensures Sane(s') && t in s'.tls && Near(s', t, x) && |s'.batches| < |s.batches|
    ensures s'.tls == s.tls && s'.pages[s.tls[t]].unused != []
  {
  }

  /** An Alloc of t hands x out, or t has fewer slots to go through before it. */
  lemma AllocProgress(s: Pool, t: Tid, x: Slot, s': Pool)
    requires Inv(s) && t in s.tls && Near(s, t, x) && s' == Alloc(s, t).pool
    ensures Sane(s') && t in s'.tls && (x in s'.live || Near(s', t, x)) && Shorter(s, t, s')
  {
    AllocKeeps(s, t, Alloc(s, t));
    var pg := s.pages[s.tls[t]];
    if pg.unused != [] || pg.recycled != [] {
      PopProgress(s, t, x, s');
    } else {
      var s1 := Steal(s, s.tls[t]);
      StealProgress(s, t, x, s1);
      PopProgress(s1, t, x, s');
    }
  }

  /** The pool after further calls. */
  function After(s: Pool, more: seq<Move>): Pool
    decreases |more|
  {
    if more == [] || !Sane(s) then s else After(Step(s, more[0]), more[1..])
  }

  lemma {:induction false} AfterExec(n: nat, t: Tid, moves: seq<Move>, more: seq<Move>)
    requires n > 0
    ensures Exec(n, t, moves + more) == After(Exec(n, t, moves), more)
    decreases |more|
  {
    if more == [] {
      assert moves + more == moves;
    } else {
      var moves' := moves + [more[0]];
      assert moves'[..|moves|] == moves && moves + more == moves' + more[1..];
      ExecInv(n, t, moves);
      AfterExec(n, t, moves', more[1..]);
    }
  }

  lemma {:induction false} HandedOut(s: Pool, t: Tid, x: Slot) returns (more: seq<Move>)
    requires Inv(s) && t in s.tls && Near(s, t, x)
    ensures x in After(s, more).live
    decreases |s.batches|, Size(s.pages[s.tls[t]])
  {
    var s' := Alloc(s, t).pool;
    AllocProgress(s, t, x, s');
    AllocKeeps(s, t, Alloc(s, t));
    var rest := [];
    if x !in s'.live {
      rest := HandedOut(s', t, x);
    }
    more := [AllocBy(t)] + rest;
    assert more[1..] == rest;
  }

  lemma {:induction false} FindPage(pages: seq<Page>, x: Slot) returns (p: nat)
    requires PagesCount(pages, x) > 0
    ensures p < |pages| && PageCount(pages[p], x) > 0
  {
    p := |pages| - 1;
    if PageCount(pages[p], x) == 0 {
      p := FindPage(pages[..p], x);
    }
  }

  /** Every slot that is neither live nor out of reach is handed out by some continuation. */
  lemma HandedOutAgain(n: nat, t0: Tid, moves: seq<Move>, s: Pool, x: Slot) returns (more: seq<Move>)
    requires n > 0 && s == Exec(n, t0, moves) && Exists(s, x) && x !in s.live && !OutOfReach(s, x)
    ensures x in Exec(n, t0, moves + more).live
  {
    ExecHomes(n, t0, moves);
    assert Places(s, x) == Bit(Exists(s, x));
    var t: Tid;
    if BatchesCount(s.batches, x) > 0 {
      t :| t in s.tls;
    } else {
      var p := FindPage(s.pages, x);
      assert !Stuck(s, p, x);
      t :| t in s.tls && s.tls[t] == p;
    }
    more := HandedOut(s, t, x);
    AfterExec(n, t0, moves, more);
  }

  /** In every reachable pool a slot that is not live is out of reach if and only if no
      continuation whatever hands it out. */
  lemma ReachExact(n: nat, t0: Tid, moves: seq<Move>, s: Pool, x: Slot)
    requires n > 0 && s == Exec(n, t0, moves) && Exists(s, x) && x !in s.live
    ensures OutOfReach(s, x) <==> forall more: seq<Move> :: x !in Exec(n, t0, moves + more).live
  {
    if OutOfReach(s, x) {
      forall more: seq<Move> ensures x !in Exec(n, t0, moves + more).live {
        GoneForGood(n, t0, moves, more, x);
      }
    } else {
      var more := HandedOutAgain(n, t0, moves, s, x);
    }
  }
}
