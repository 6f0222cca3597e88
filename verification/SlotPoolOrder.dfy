/** How many slots a page has, and which slot Alloc takes and where Free puts one. */
module SlotPoolOrder {
  import opened Arith
  import opened SlotPool
  import opened SlotPoolProof

  // Slots of a page ----------------------------------------------------------------------------

  /** The memory a page is made for, by the object's size: 256 KB, 1 MB or 2 MB. */
  function Budget(s: nat): nat {
    if s <= 64 then 256 * 1024 else if s <= 256 then 1024 * 1024 else 2 * 1024 * 1024
  }

  lemma QuotientFits(m: nat, s: nat)
    requires s > 0
    ensures m / s * s <= m < (m / s + 1) * s
  {
    assert m == m / s * s + m % s;
  }

  lemma LessThan64(m: nat, s: nat)
    requires s > 0 && m < 64 * s
    ensures m / s < 64
  {
    QuotientFits(m, s);
    if m / s >= 64 {
      MulMono(64, m / s, s);
    }
  }

  /** As many slots as fit the budget; a page of objects too large for 64 of them in it has 64. */
  lemma SlotCountFills(s: nat, n: nat)
    requires s > 0 && n == CalcSlotCount(s)
    ensures if 64 * s <= Budget(s) then n * s <= Budget(s) < (n + 1) * s else n == 64
  {
    QuotientFits(Budget(s), s);
    if 64 * s <= Budget(s) {
      QuotientAtLeast(Budget(s), s, 64);
    } else {
      LessThan64(Budget(s), s);
    }
  }

  // Alloc --------------------------------------------------------------------------------------

  /** Nothing but page p has changed in the stacks. */
  predicate OnlyPage(s: Pool, s': Pool, p: nat) {
    && p < |s.pages| == |s'.pages| && s'.tls == s.tls
    && forall q :: 0 <= q < |s.pages| && q != p ==> s'.pages[q] == s.pages[q]
  }

  /** The slot comes off the top of the page's fresh stack; if that is empty, of its recycled stack; if
      that is empty too, of the newest batch, the rest of which becomes the fresh stack. */
  predicate TakenFrom(s: Pool, p: nat, s': Pool, x: Slot) {
    && OnlyPage(s, s', p)
    && var pg, pg' := s.pages[p], s'.pages[p];
       if pg.unused != [] then
         pg.unused == pg'.unused + [x] && pg'.recycled == pg.recycled && s'.batches == s.batches
       else if pg.recycled != [] then
         pg'.unused == [] && pg.recycled == pg'.recycled + [x] && s'.batches == s.batches
       else
         pg'.recycled == [] && s.batches == s'.batches + [pg'.unused + [x]]
  }

  /** Or it is the last slot of a new page, which becomes the thread's. */
  predicate TakenNew(s: Pool, t: Tid, s': Pool, x: Slot) {
    && s.n > 0 && s'.pages == s.pages + [Page(PageSlots(|s.pages|, s.n)[..s.n - 1], [], false)]
    && x == Slot(|s.pages|, s.n - 1) && s'.batches == s.batches && s'.tls == s.tls[t := |s.pages|]
  }

  lemma PopOrder(s: Pool, t: Tid, p: nat)
    requires p < |s.pages|
    ensures s.pages[p].unused != [] ==> TakenFrom(s, p, PopFresh(s, t, p), Last(s.pages[p].unused))
    ensures s.pages[p].unused == [] && s.pages[p].recycled != [] ==>
              TakenFrom(s, p, PopRecycled(s, t, p), Last(s.pages[p].recycled))
  {
  }

  lemma StealOrder(s: Pool, t: Tid, p: nat)
    requires p < |s.pages| && s.pages[p].unused == [] && s.pages[p].recycled == [] && s.batches != []
    requires s.batches[|s.batches| - 1] != []
    ensures TakenFrom(s, p, PopFresh(Steal(s, p), t, p), Last(Steal(s, p).pages[p].unused))
  {
    var b := s.batches[|s.batches| - 1];
    assert b == b[..|b| - 1] + [Last(b)];
    assert s.batches == s.batches[..|s.batches| - 1] + [b];
  }

  lemma NewOrder(s: Pool, t: Tid)
    requires s.n > 0
    ensures var s2 := ChunkAlloc(s, t); TakenNew(s, t, PopFresh(s2, t, |s.pages|), Last(s2.pages[|s.pages|].unused))
  {
    var s2 := ChunkAlloc(s, t);
    var s3 := PopFresh(s2, t, |s.pages|);
    assert s3.pages[..|s.pages|] == s.pages;
  }

  /** Alloc takes a slot of the caller's page, or of a batch, in this order, and makes a new page only when
      there is none. */
  lemma AllocOrder(s: Pool, t: Tid, s': Pool, x: Slot)
    requires Inv(s) && Alloc(s, t) == Got(s', x)
    ensures if t in s.tls && (s.pages[s.tls[t]].unused != [] || s.pages[s.tls[t]].recycled != [] || s.batches != [])
            then TakenFrom(s, s.tls[t], s', x)
            else TakenNew(s, t, s', x)
  {
    if t in s.tls {
      PopOrder(s, t, s.tls[t]);
      if s.pages[s.tls[t]].unused == [] && s.pages[s.tls[t]].recycled == [] {
        if s.batches != [] {
          StealOrder(s, t, s.tls[t]);
        } else {
          NewOrder(s, t);
        }
      }
    } else {
      NewOrder(s, t);
    }
  }

  // Free ---------------------------------------------------------------------------------------

  /** The thread that allocated the slot puts it on top of the fresh stack of the slot's page, if there is
      room. */
  lemma FreeOwn(s: Pool, t: Tid, x: Slot, s': Pool)
    requires Inv(s) && x in s.live && s.thread[x] == t && s' == Free(s, t, x)
    ensures OnlyPage(s, s', x.page) && s'.batches == s.batches && s'.pages[x.page].recycled == s.pages[x.page].recycled
    ensures s'.pages[x.page].unused ==
            if |s.pages[x.page].unused| < s.n then s.pages[x.page].unused + [x] else s.pages[x.page].unused
  {
  }

  /** Any other thread puts it on top of its own page's recycled stack, which becomes the newest batch when
      that makes it full. */
  lemma FreeForeign(s: Pool, t: Tid, x: Slot, s': Pool)
    requires Inv(s) && x in s.live && s.thread[x] != t && t in s.tls && s' == Free(s, t, x)
    ensures var p := s.tls[t]; var q := s.pages[p].recycled + [x];
            && OnlyPage(s, s', p) && s'.pages[p].unused == s.pages[p].unused
            && s'.pages[p].recycled == (if |q| < s.n then q else [])
            && s'.batches == (if |q| < s.n then s.batches else s.batches + [q])
  {
  }

  /** A thread that has no page yet gets one for it. */
  lemma FreeForeignFirst(s: Pool, t: Tid, x: Slot, s': Pool)
    requires Inv(s) && x in s.live && s.thread[x] != t && t !in s.tls && s' == Free(s, t, x)
    ensures s'.pages == s.pages + [Page(PageSlots(|s.pages|, s.n), if 1 < s.n then [x] else [], false)]
    ensures s'.tls == s.tls[t := |s.pages|]
    ensures s'.batches == if 1 < s.n then s.batches else s.batches + [[x]]
  {
    assert [] + [x] == [x];
  }

  /** A thread that frees a slot of its page gets it back from its next Alloc. */
  lemma LastInFirstOut(s: Pool, t: Tid, x: Slot)
    requires Inv(s) && x in s.live && s.thread[x] == t && t in s.tls && s.tls[t] == x.page
    requires |s.pages[x.page].unused| < s.n
    ensures Sane(Free(s, t, x)) && Alloc(Free(s, t, x), t).slot == x
  {
    FreeOwn(s, t, x, Free(s, t, x));
  }
}
