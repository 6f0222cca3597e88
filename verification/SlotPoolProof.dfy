/** What every Alloc and Free of the object pool keeps, and what whole runs promise. */
module SlotPoolProof {
  import opened SlotPool

  ghost predicate Inv(s: Pool) {
    Sane(s) && OwnUnlessStole(s) && Conserved(s)
  }

  lemma InPage(pages: seq<Page>, p: nat, x: Slot)
    requires p < |pages|
    ensures PageCount(pages[p], x) <= PagesCount(pages, x)
  {
    PagesUpdate(pages, p, Page([], [], false), x);
  }

  /** A slot on a stack is on that stack once, exists, and is nowhere else. */
  lemma OnStack(s: Pool, p: nat, x: Slot)
    requires Inv(s) && p < |s.pages| && PageCount(s.pages[p], x) > 0
    ensures Exists(s, x) && x !in s.live && x !in s.dropped && PageCount(s.pages[p], x) == 1
  {
    InPage(s.pages, p, x);
    assert Places(s, x) == Bit(Exists(s, x));
  }

  lemma ChunkAllocKeeps(s: Pool, t: Tid, s': Pool)
    requires Inv(s) && s' == ChunkAlloc(s, t)
    ensures Inv(s') && s'.live == s.live && s'.dropped == s.dropped && s'.batches == s.batches && s'.n == s.n
    ensures |s'.pages| == |s.pages| + 1 && s'.tls[t] == |s.pages| && s'.pages[|s.pages|].unused != []
  {
    var p := |s.pages|;
    forall x ensures Places(s', x) == Bit(Exists(s', x)) {
      assert Places(s, x) == Bit(Exists(s, x));
      assert s'.pages[..p] == s.pages;
      PageSlotsOnce(p, s.n, s.n, x);
      assert PageSlots(p, s.n)[..s.n] == PageSlots(p, s.n);
      assert PageCount(s'.pages[p], x) == Bit(x.page == p && x.index < s.n);
    }
  }

  /** A change of one page moves the count by the difference. */
  lemma PagePlaces(s: Pool, s': Pool, p: nat, y: Slot)
    requires p < |s.pages| == |s'.pages| && s'.pages == s.pages[p := s'.pages[p]] && s'.batches == s.batches
    ensures Places(s', y) + PageCount(s.pages[p], y) + Bit(y in s.live) + Bit(y in s.dropped)
         == Places(s, y) + PageCount(s'.pages[p], y) + Bit(y in s'.live) + Bit(y in s'.dropped)
  {
    PagesUpdate(s.pages, p, s'.pages[p], y);
  }

  lemma PopPlaces(s: Pool, t: Tid, p: nat, x: Slot, s': Pool, y: Slot)
    requires p < |s.pages| && x !in s.live
    requires || (s.pages[p].unused != [] && x == Last(s.pages[p].unused) && s' == PopFresh(s, t, p))
             || (s.pages[p].recycled != [] && x == Last(s.pages[p].recycled) && s' == PopRecycled(s, t, p))
    ensures Places(s', y) == Places(s, y)
  {
    if s.pages[p].unused != [] { SplitLast(s.pages[p].unused, y); }
    if s.pages[p].recycled != [] { SplitLast(s.pages[p].recycled, y); }
    PagePlaces(s, s', p, y);
  }

  lemma PopFreshKeeps(s: Pool, t: Tid, p: nat, x: Slot, s': Pool)
    requires Inv(s) && p < |s.pages| && s.pages[p].unused != []
    requires x == Last(s.pages[p].unused) && s' == PopFresh(s, t, p)
    ensures Inv(s') && x !in s.live && Exists(s, x)
  {
    SplitLast(s.pages[p].unused, x);
    OnStack(s, p, x);
    assert Sane(s') && OwnUnlessStole(s');
    forall y ensures Places(s', y) == Bit(Exists(s', y)) {
      PopPlaces(s, t, p, x, s', y);
    }
  }

  lemma PopRecycledKeeps(s: Pool, t: Tid, p: nat, x: Slot, s': Pool)
    requires Inv(s) && p < |s.pages| && s.pages[p].recycled != []
    requires x == Last(s.pages[p].recycled) && s' == PopRecycled(s, t, p)
    ensures Inv(s') && x !in s.live && Exists(s, x)
  {
    SplitLast(s.pages[p].recycled, x);
    OnStack(s, p, x);
    assert Sane(s') && OwnUnlessStole(s');
    forall y ensures Places(s', y) == Bit(Exists(s', y)) {
      PopPlaces(s, t, p, x, s', y);
    }
  }

  lemma StealKeeps(s: Pool, p: nat, s': Pool)
    requires Inv(s) && p < |s.pages| && s.pages[p].unused == [] && s.batches != [] && s' == Steal(s, p)
    ensures Inv(s') && s'.live == s.live && s'.pages[p].unused != []
  {
    forall y ensures Places(s', y) == Bit(Exists(s', y)) {
      assert Places(s, y) == Bit(Exists(s, y));
      PagesUpdate(s.pages, p, s'.pages[p], y);
    }
  }

  /** Alloc hands out a slot that nobody has, and makes a page only when it must. */
  lemma AllocKeeps(s: Pool, t: Tid, g: Got)
    requires Inv(s) && g == Alloc(s, t)
    ensures Inv(g.pool) && g.slot !in s.live && Exists(g.pool, g.slot)
    ensures g.pool.live == s.live + {g.slot} && g.pool.dropped == s.dropped && g.pool.n == s.n
    ensures g.pool.thread[g.slot] == t
    ensures |g.pool.pages| == |s.pages| + Bit(NeedsPage(s, t))
  {
    var s1 := WithPage(s, t);
    if t !in s.tls {
      ChunkAllocKeeps(s, t, s1);
    }
    var p := s1.tls[t];
    if s1.pages[p].unused != [] {
      PopFreshKeeps(s1, t, p, g.slot, g.pool);
    } else if s1.pages[p].recycled != [] {
      PopRecycledKeeps(s1, t, p, g.slot, g.pool);
    } else if s1.batches != [] {
      StealKeeps(s1, p, Steal(s1, p));
      PopFreshKeeps(Steal(s1, p), t, p, g.slot, g.pool);
    } else {
      ChunkAllocKeeps(s1, t, ChunkAlloc(s1, t));
      PopFreshKeeps(ChunkAlloc(s1, t), t, |s1.pages|, g.slot, g.pool);
    }
  }

  /** The thread has no page yet, or nothing is left in its page and in the global batches. */
  predicate NeedsPage(s: Pool, t: Tid)
    requires Sane(s)
  {
    t !in s.tls || (s.pages[s.tls[t]].unused == [] && s.pages[s.tls[t]].recycled == [] && s.batches == [])
  }

  lemma PushCount(q: seq<Slot>, x: Slot, y: Slot)
    ensures multiset(q + [x])[y] == multiset(q)[y] + Bit(x == y)
  {
  }

  lemma PushFreshPlaces(s: Pool, x: Slot, s': Pool, y: Slot)
    requires x.page < |s.pages| && x in s.live && x !in s.dropped && s' == PushFresh(s.(live := s.live - {x}), x)
    ensures Places(s', y) == Places(s, y)
  {
    PushCount(s.pages[x.page].unused, x, y);
    PagePlaces(s, s', x.page, y);
  }

  lemma PushFreshKeeps(s: Pool, x: Slot, s': Pool)
    requires Inv(s) && x in s.live && s' == PushFresh(s.(live := s.live - {x}), x)
    ensures Inv(s')
  {
    assert Places(s, x) == Bit(Exists(s, x));
    assert Sane(s') && OwnUnlessStole(s');
    forall y ensures Places(s', y) == Bit(Exists(s', y)) {
      PushFreshPlaces(s, x, s', y);
    }
  }

  lemma RecyclePlaces(s: Pool, t: Tid, x: Slot, s': Pool, y: Slot)
    requires Sane(s) && x in s.live && t in s.tls && s' == Recycle(s.(live := s.live - {x}), t, x)
    ensures Places(s', y) == Places(s, y)
  {
    var p := s.tls[t];
    PushCount(s.pages[p].recycled, x, y);
    PagesUpdate(s.pages, p, s'.pages[p], y);
    if |s.pages[p].recycled| + 1 == s.n {
      assert s'.batches[..|s.batches|] == s.batches;
    }
  }

  lemma RecycleKeeps(s: Pool, t: Tid, x: Slot, s': Pool)
    requires Inv(s) && x in s.live && t in s.tls && s' == Recycle(s.(live := s.live - {x}), t, x)
    ensures Inv(s') && s'.dropped == s.dropped
  {
    assert Sane(s') && OwnUnlessStole(s');
    forall y ensures Places(s', y) == Bit(Exists(s', y)) {
      RecyclePlaces(s, t, x, s', y);
    }
  }

  /** Free keeps everything, and drops the slot exactly when it comes back from the thread
      that allocated it to a full stack, which only a page that took a batch can have. */
  lemma FreeKeeps(s: Pool, t: Tid, x: Slot, s': Pool)
    requires Inv(s) && x in s.live && s' == Free(s, t, x)
    ensures Inv(s') && s'.live == s.live - {x} && s'.n == s.n
    ensures s'.dropped == if Drops(s, t, x) then s.dropped + {x} else s.dropped
  {
    if s.thread[x] == t {
      PushFreshKeeps(s, x, s');
    } else {
      var s1 := WithPage(s, t);
      if t !in s.tls {
        ChunkAllocKeeps(s, t, s1);
      }
      var s0 := s.(live := s.live - {x});
      assert WithPage(s0, t) == s1.(live := s0.live);
      assert Recycle(s0, t, x) == Recycle(s1.(live := s0.live), t, x);
      RecycleKeeps(s1, t, x, s');
    }
  }

  predicate Drops(s: Pool, t: Tid, x: Slot)
    requires Sane(s) && x in s.live
  {
    s.thread[x] == t && |s.pages[x.page].unused| == s.n
  }

  // A full stack ---------------------------------------------------------------------------------

  function Indices(q: seq<Slot>): set<nat> {
    set i | 0 <= i < |q| :: q[i].index
  }

  predicate OwnDistinct(q: seq<Slot>, p: nat) {
    && (forall i :: 0 <= i < |q| ==> q[i].page == p)
    && (forall i, j :: 0 <= i < j < |q| ==> q[i] != q[j])
  }

  lemma {:induction false} IndicesSize(q: seq<Slot>, p: nat)
    requires OwnDistinct(q, p)
    ensures |Indices(q)| == |q|
  {
    if q != [] {
      var before := q[..|q| - 1];
      IndicesSize(before, p);
      assert Indices(q) == Indices(before) + {Last(q).index};
      forall i | 0 <= i < |before| ensures before[i].index != Last(q).index {
        assert before[i] == q[i] != Last(q);
      }
    }
  }

  lemma {:induction false} Below(a: set<nat>, n: nat)
    requires forall i :: i in a ==> i < n
    ensures |a| <= n
  {
    if n > 0 {
      Below(a - {n - 1}, n - 1);
    } else {
      assert a == {};
    }
  }

  lemma StackDistinct(s: Pool, p: nat)
    requires Inv(s) && p < |s.pages| && !s.pages[p].stole
    ensures OwnDistinct(s.pages[p].unused, p)
  {
    var q := s.pages[p].unused;
    forall i, j | 0 <= i < j < |q| ensures q[i] != q[j] {
      OnStack(s, p, q[i]);
      assert q == q[..j] + [q[j]] + q[j + 1..];
      assert q[i] in q[..j];
    }
  }

  /** The fresh stack of a page that never took a batch has room for every slot it gave out. */
  lemma RoomUnlessStole(s: Pool, x: Slot)
    requires Inv(s) && x in s.live && !s.pages[x.page].stole
    ensures |s.pages[x.page].unused| < s.n
  {
    var q := s.pages[x.page].unused;
    StackDistinct(s, x.page);
    IndicesSize(q, x.page);
    assert Places(s, x) == Bit(Exists(s, x));
    forall i | 0 <= i < |q| ensures q[i].index < s.n && q[i].index != x.index {
      OnStack(s, x.page, q[i]);
    }
    Below(Indices(q) + {x.index}, s.n);
  }

  // Whole runs ---------------------------------------------------------------------------------

  datatype Move = AllocBy(t: Tid) | FreeBy(t: Tid, slot: Slot)

  /** The pool as its constructor leaves it. */
  function Start(n: nat, t: Tid): Pool {
    ChunkAlloc(Pool(n, [], map[], [], map[], {}, {}), t)
  }

  /** One call. Only live slots are freed; any other free is skipped. */
  function Step(s: Pool, m: Move): Pool
    requires Sane(s)
  {
    match m
    case AllocBy(t) => Alloc(s, t).pool
    case FreeBy(t, x) => if x in s.live then Free(s, t, x) else s
  }

  /** A slot is dropped only by a page that took a batch. */
  predicate DroppedByThieves(s: Pool) {
    forall x :: x in s.dropped ==> x.page < |s.pages| && s.pages[x.page].stole
  }

  /** Pages stay, and a page that took a batch remains one. */
  predicate StoleKept(s: Pool, s': Pool) {
    |s.pages| <= |s'.pages| && forall p :: 0 <= p < |s.pages| && s.pages[p].stole ==> s'.pages[p].stole
  }

  lemma AllocStole(s: Pool, t: Tid)
    requires Sane(s)
    ensures StoleKept(s, Alloc(s, t).pool)
  {
  }

  lemma FreeStole(s: Pool, t: Tid, x: Slot)
    requires Sane(s) && x in s.live
    ensures StoleKept(s, Free(s, t, x))
  {
  }

  lemma StepKeeps(s: Pool, m: Move, s': Pool)
    requires Inv(s) && DroppedByThieves(s) && s' == Step(s, m)
    ensures Inv(s') && DroppedByThieves(s') && s'.n == s.n
  {
    match m
    case AllocBy(t) =>
      AllocKeeps(s, t, Alloc(s, t));
      AllocStole(s, t);
    case FreeBy(t, x) =>
      if x in s.live {
        FreeKeeps(s, t, x, s');
        FreeStole(s, t, x);
        if !s.pages[x.page].stole {
          RoomUnlessStole(s, x);
        }
      }
  }

  /** The pool after a run of calls by any threads. */
  function Exec(n: nat, t: Tid, moves: seq<Move>): Pool {
    if moves == [] then Start(n, t) else
    var before := Exec(n, t, moves[..|moves| - 1]);
    if Sane(before) then Step(before, moves[|moves| - 1]) else before
  }

  lemma {:induction false} ExecInv(n: nat, t: Tid, moves: seq<Move>)
    requires n > 0
    ensures var s := Exec(n, t, moves); Inv(s) && DroppedByThieves(s) && s.n == n
  {
    if moves == [] {
      ChunkAllocKeeps(Pool(n, [], map[], [], map[], {}, {}), t, Start(n, t));
    } else {
      var k := |moves| - 1;
      ExecInv(n, t, moves[..k]);
      StepKeeps(Exec(n, t, moves[..k]), moves[k], Exec(n, t, moves));
    }
  }

  /** In every reachable pool each slot is in exactly one of the fresh stacks, the recycled
      stacks, the batches, the live set and the dropped set; no recycled stack is full. */
  lemma PoolSafe(n: nat, t: Tid, moves: seq<Move>, s: Pool, x: Slot, p: nat)
    requires n > 0 && s == Exec(n, t, moves) && p < |s.pages|
    ensures Places(s, x) == Bit(x.page < |s.pages| && x.index < n)
    ensures |s.pages[p].recycled| < n
    ensures x in s.dropped ==> s.pages[x.page].stole
  {
    ExecInv(n, t, moves);
  }

  /** Whatever the run, Alloc returns a slot nobody holds, after at most one new page. */
  lemma AllocAlways(n: nat, t0: Tid, moves: seq<Move>, s: Pool, t: Tid)
    requires n > 0 && s == Exec(n, t0, moves)
    ensures Sane(s) && var g := Alloc(s, t);
            && g.slot !in s.live && g.slot !in s.dropped && g.pool == Exec(n, t0, moves + [AllocBy(t)])
            && Exists(g.pool, g.slot) && |g.pool.pages| == |s.pages| + Bit(NeedsPage(s, t))
  {
    ExecInv(n, t0, moves);
    var g := Alloc(s, t);
    AllocKeeps(s, t, g);
    assert (moves + [AllocBy(t)])[..|moves|] == moves;
    assert Places(g.pool, g.slot) == Bit(Exists(g.pool, g.slot));
  }
}
