/**
 The object pool: pages of slots, their fresh and recycled stacks, and global batches of
 recycled slots, used by any number of threads. Alloc and Free are atomic here.

 A stack is a sequence with its top last, as PointerStack.Stack keeps it.
 */
module SlotPool {
  import opened Arith

  type Tid = nat

  datatype Slot = Slot(page: nat, index: nat)

  /** m_freshSlots and the stack m_recycledSlots points to; stole is history. */
  datatype Page = Page(unused: seq<Slot>, recycled: seq<Slot>, stole: bool)

  datatype Pool = Pool(
    n: nat,                              // SLOT_COUNT
    pages: seq<Page>,                    // every page ever taken from m_chunkPool
    tls: map<Tid, nat>,                  // the page in each thread's TLS slot
    batches: seq<seq<Slot>>,             // m_globalBatchStack, top last
    thread: map<Slot, Tid>,              // m_metaData.m_allocThread
    live: set<Slot>,                     // history: handed out and not yet freed
    dropped: set<Slot>)                   // history: freed onto a full stack, which drops them

  function CalcSlotCount(s: nat): nat
    requires s > 0
  {
    if s <= 64 then 262144 / s
    else if s <= 256 then 1048576 / s
    else if s <= 1024 then 2097152 / s
    else
      var n := 2097152 / s;
      if n >= 64 then n else 64
  }

  lemma SlotCountAtLeast64(s: nat)
    requires s > 0
    ensures CalcSlotCount(s) >= 64
  {
    if s <= 64 {
      QuotientAtLeast(262144, s, 64);
    } else if s <= 256 {
      QuotientAtLeast(1048576, s, 64);
    } else if s <= 1024 {
      QuotientAtLeast(2097152, s, 64);
    }
  }

  // Operations ------------------------------------------------------------------------------

  function PageSlots(p: nat, n: nat): (r: seq<Slot>)
    ensures |r| == n && forall i :: 0 <= i < n ==> r[i] == Slot(p, i)
  {
    seq(n, i requires 0 <= i < n => Slot(p, i))
  }

  /** ChunkAlloc, with the ChunkPage constructor. */
  function ChunkAlloc(s: Pool, t: Tid): Pool {
    var p := |s.pages|;
    s.(pages := s.pages + [Page(PageSlots(p, s.n), [], false)],
       tls := s.tls[t := p],
       thread := s.thread + (map i: nat | i < s.n :: Slot(p, i) := t))
  }

  /** The current thread's page, made if there is none. */
  function WithPage(s: Pool, t: Tid): Pool {
    if t in s.tls then s else ChunkAlloc(s, t)
  }

  function Last(q: seq<Slot>): Slot
    requires q != []
  {
    q[|q| - 1]
  }

  function Handed(s: Pool, t: Tid, x: Slot): Pool {
    s.(live := s.live + {x}, thread := s.thread[x := t])
  }

  function PopFresh(s: Pool, t: Tid, p: nat): Pool
    requires p < |s.pages| && s.pages[p].unused != []
  {
    var pg := s.pages[p];
    Handed(s.(pages := s.pages[p := pg.(unused := pg.unused[..|pg.unused| - 1])]), t, Last(pg.unused))
  }

  function PopRecycled(s: Pool, t: Tid, p: nat): Pool
    requires p < |s.pages| && s.pages[p].recycled != []
  {
    var pg := s.pages[p];
    Handed(s.(pages := s.pages[p := pg.(recycled := pg.recycled[..|pg.recycled| - 1])]), t, Last(pg.recycled))
  }

  /** TryStealFromGlobal with a batch there: the page's empty fresh stack is swapped for it. */
  function Steal(s: Pool, p: nat): Pool
    requires p < |s.pages| && s.batches != []
  {
    s.(pages := s.pages[p := s.pages[p].(unused := s.batches[|s.batches| - 1], stole := true)],
       batches := s.batches[..|s.batches| - 1])
  }

  datatype Got = Got(pool: Pool, slot: Slot)

  /** The pool's Alloc by thread t. */
  function Alloc(s: Pool, t: Tid): Got
    requires Sane(s)
  {
    var s1 := WithPage(s, t);
    var p := s1.tls[t];
    var pg := s1.pages[p];
    if pg.unused != [] then Got(PopFresh(s1, t, p), Last(pg.unused))
    else if pg.recycled != [] then Got(PopRecycled(s1, t, p), Last(pg.recycled))
    else if s1.batches != [] then
      var s2 := Steal(s1, p);
      Got(PopFresh(s2, t, p), Last(s2.pages[p].unused))
    else
      var s2 := ChunkAlloc(s1, t);
      Got(PopFresh(s2, t, |s1.pages|), Last(s2.pages[|s1.pages|].unused))
  }

  /** A push onto a fresh stack, which ignores it when full. */
  function PushFresh(s: Pool, x: Slot): Pool
    requires x.page < |s.pages|
  {
    var pg := s.pages[x.page];
    if |pg.unused| < s.n then s.(pages := s.pages[x.page := pg.(unused := pg.unused + [x])])
    else s.(dropped := s.dropped + {x})
  }

  /** RecycledToMyLocalPool. */
  function Recycle(s: Pool, t: Tid, x: Slot): Pool
    requires Sane(s)
  {
    var s1 := WithPage(s, t);
    var p := s1.tls[t];
    var pg := s1.pages[p];
    var stack := if |pg.recycled| < s.n then pg.recycled + [x] else pg.recycled;
    if |stack| < s.n then s1.(pages := s1.pages[p := pg.(recycled := stack)])
    else s1.(pages := s1.pages[p := pg.(recycled := [])], batches := s1.batches + [stack])
  }

  /** The pool's Free by thread t of a slot that is live. */
  function Free(s: Pool, t: Tid, x: Slot): Pool
    requires Sane(s) && x in s.live
  {
    var s0 := s.(live := s.live - {x});
    if s.thread[x] == t then PushFresh(s0, x) else Recycle(s0, t, x)
  }

  // What every operation keeps ---------------------------------------------------------------

  predicate PageOk(n: nat, p: Page) {
    |p.unused| <= n && |p.recycled| < n
  }

  /** Sizes and references. Recycled stacks are never full; batches always are. */
  predicate Sane(s: Pool) {
    && s.n > 0
    && (forall p :: 0 <= p < |s.pages| ==> PageOk(s.n, s.pages[p]))
    && (forall b :: 0 <= b < |s.batches| ==> |s.batches[b]| == s.n)
    && (forall t :: t in s.tls ==> s.tls[t] < |s.pages|)
    && (forall x :: x in s.live ==> x.page < |s.pages| && x in s.thread)
  }

  /** A page that never took a batch holds only slots of its own. */
  predicate OwnUnlessStole(s: Pool) {
    forall p, i :: 0 <= p < |s.pages| && !s.pages[p].stole && 0 <= i < |s.pages[p].unused| ==>
      s.pages[p].unused[i].page == p
  }

  // In how many places a slot is ---------------------------------------------------------------

  function PageCount(p: Page, x: Slot): nat {
    multiset(p.unused)[x] + multiset(p.recycled)[x]
  }

  function PagesCount(pages: seq<Page>, x: Slot): nat {
    if pages == [] then 0 else PagesCount(pages[..|pages| - 1], x) + PageCount(pages[|pages| - 1], x)
  }

  function BatchesCount(batches: seq<seq<Slot>>, x: Slot): nat {
    if batches == [] then 0
    else BatchesCount(batches[..|batches| - 1], x) + multiset(batches[|batches| - 1])[x]
  }

  function Bit(b: bool): nat {
    if b then 1 else 0
  }

  function Places(s: Pool, x: Slot): nat {
    PagesCount(s.pages, x) + BatchesCount(s.batches, x) + Bit(x in s.live) + Bit(x in s.dropped)
  }

  predicate Exists(s: Pool, x: Slot) {
    x.page < |s.pages| && x.index < s.n
  }

  /** Every slot of every page is in exactly one place, and nothing else is anywhere. */
  ghost predicate Conserved(s: Pool) {
    forall x :: Places(s, x) == Bit(Exists(s, x))
  }

  lemma {:induction false} PagesUpdate(pages: seq<Page>, p: nat, q: Page, x: Slot)
    requires p < |pages|
    ensures PagesCount(pages[p := q], x) + PageCount(pages[p], x) == PagesCount(pages, x) + PageCount(q, x)
  {
    var n := |pages| - 1;
    if p < n {
      PagesUpdate(pages[..n], p, q, x);
      assert pages[p := q][..n] == pages[..n][p := q];
    } else {
      assert pages[p := q][..n] == pages[..n];
    }
  }

  lemma SplitLast(q: seq<Slot>, x: Slot)
    requires q != []
    ensures multiset(q)[x] == multiset(q[..|q| - 1])[x] + Bit(x == Last(q))
  {
    assert q == q[..|q| - 1] + [Last(q)];
  }

  lemma {:induction false} PageSlotsOnce(p: nat, n: nat, k: nat, x: Slot)
    requires k <= n
    ensures multiset(PageSlots(p, n)[..k])[x] == Bit(x.page == p && x.index < k)
  {
    if k > 0 {
      PageSlotsOnce(p, n, k - 1, x);
      assert PageSlots(p, n)[..k] == PageSlots(p, n)[..k - 1] + [Slot(p, k - 1)];
    }
  }
}
