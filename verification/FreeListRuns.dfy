/**
 Calls of the free list that are left alone finish, from wherever they are, and do what they are
 for; and Free works on the block it was called with.
 */
module FreeListRuns {
  import opened Options
  import opened FreeList
  import opened FreeListProof

  /** Steps of t inside a call; t calls nothing new. */
  predicate OnlyBy(moves: seq<Move>, t: Tid) {
    forall i :: 0 <= i < |moves| ==> moves[i].t == t && moves[i].act.Run?
  }

  lemma Then(moves: seq<Move>, m: Move)
    ensures Exec(INIT, moves + [m]) == Step(Exec(INIT, moves), m.t, m.act)
  {
    assert (moves + [m])[..|moves|] == moves;
  }

  /** t alone leads from the run `before` to s. */
  ghost predicate Leads(before: seq<Move>, t: Tid, s: State) {
    exists more :: OnlyBy(more, t) && Exec(INIT, before + more) == s
  }

  lemma LeadsNowhere(before: seq<Move>, t: Tid)
    ensures Leads(before, t, Exec(INIT, before))
  {
    var none: seq<Move> := [];
    assert before + none == before && OnlyBy(none, t);
  }

  lemma LeadsOn(before: seq<Move>, t: Tid, s: State, b: Addr)
    requires Leads(before, t, s)
    ensures Leads(before, t, Step(s, t, Run(b)))
  {
    var more :| OnlyBy(more, t) && Exec(INIT, before + more) == s;
    var m := Move(t, Run(b));
    Then(before + more, m);
    assert before + more + [m] == before + (more + [m]) && OnlyBy(more + [m], t);
  }

  /** Equal in everything but history. */
  ghost predicate SameReal(s: State, r: State) {
    s.(h := r.h) == r
  }

  // Alloc --------------------------------------------------------------------------------------

  predicate LinkIn(s: State, p: Link) {
    p.At? ==> p.addr in s.heap
  }

  /** The block on top is handed out, cleared, and the one under it is on top. */
  ghost predicate TopOut(s: State, t: Tid, s': State) {
    && s.top.ptr.At? && s.top.ptr.addr in s.heap
    && SameReal(s', s.(heap := s.heap[s.top.ptr.addr := Block(Nil, false)],
                       top := Top(s.heap[s.top.ptr.addr].next, s.top.id + 1), pcs := s.pcs[t := Idle]))
    && s'.h.log == s.h.log + [Handed(s.top.ptr.addr)]
  }

  /** A block new from the heap is handed out. */
  ghost predicate NewOut(s: State, t: Tid, b: Addr, s': State) {
    && SameReal(s', s.(heap := s.heap[b := Block(Nil, false)], pcs := s.pcs[t := Idle]))
    && s'.h.log == s.h.log + [Handed(b)]
  }

  ghost predicate HandsOut(s: State, t: Tid, b: Addr, none: bool, s': State) {
    if none then NewOut(s, t, b, s') else TopOut(s, t, s')
  }

  lemma HandsOutFrom(s: State, t: Tid, pc: Pc, b: Addr, none: bool, s': State)
    requires HandsOut(Go(s, t, pc), t, b, none, s')
    ensures HandsOut(s, t, b, none, s')
  {
    assert Go(s, t, pc).pcs[t := Idle] == s.pcs[t := Idle];
  }

  lemma TakesTop(s: State, t: Tid, w: Link, s1: State, s2: State)
    requires PcOf(s, t) == AllocCas(s.top, w)
    requires s.top.ptr.At? && s.top.ptr.addr in s.heap && w == s.heap[s.top.ptr.addr].next
    requires s1 == StepAllocCas(s, t, s.top, w) && s2 == StepClear(s1, t, s.top.ptr.addr)
    ensures PcOf(s1, t) == AllocClear(s.top.ptr.addr) && PcOf(s2, t) == AllocConstruct(s.top.ptr.addr)
    ensures TopOut(s, t, StepConstruct(s2, t, s.top.ptr.addr))
  {
    assert s2.pcs[t := Idle] == s.pcs[t := Idle];
    var a := s.top.ptr.addr;
    assert s2.heap[a := s2.heap[a].(next := Nil)] == s.heap[a := Block(Nil, false)];
  }

  lemma Constructs(before: seq<Move>, s: State, t: Tid, a: Addr, s2: State)
    requires Leads(before, t, s) && PcOf(s, t) == AllocClear(a) && s2 == StepClear(s, t, a)
    requires PcOf(s2, t) == AllocConstruct(a)
    ensures Leads(before, t, StepConstruct(s2, t, a))
  {
    LeadsOn(before, t, s, 0);
    LeadsOn(before, t, s2, 0);
  }

  /** From a CAS that is going to work. */
  lemma AllocsNow(before: seq<Move>, s: State, t: Tid, w: Link) returns (s': State)
    requires Leads(before, t, s) && PcOf(s, t) == AllocCas(s.top, w)
    requires s.top.ptr.At? && s.top.ptr.addr in s.heap && w == s.heap[s.top.ptr.addr].next
    ensures Leads(before, t, s') && TopOut(s, t, s')
  {
    var a := s.top.ptr.addr;
    var s1 := StepAllocCas(s, t, s.top, w);
    var s2 := StepClear(s1, t, a);
    TakesTop(s, t, w, s1, s2);
    LeadsOn(before, t, s, 0);
    Constructs(before, s1, t, a, s2);
    s' := StepConstruct(s2, t, a);
  }

  /** From a test of the current top. */
  lemma AllocsTop(before: seq<Move>, s: State, t: Tid, b: Addr) returns (s': State)
    requires Leads(before, t, s) && PcOf(s, t) == AllocTest(s.top) && LinkIn(s, s.top.ptr) && b !in s.heap
    ensures Leads(before, t, s') && HandsOut(s, t, b, s.top.ptr.Nil?, s')
  {
    LeadsOn(before, t, s, b);
    if s.top.ptr.Nil? {
      s' := Step(s, t, Run(b));
    } else {
      var w := s.heap[s.top.ptr.addr].next;
      s' := AllocsNow(before, Go(s, t, AllocCas(s.top, w)), t, w);
      HandsOutFrom(s, t, AllocCas(s.top, w), b, false, s');
    }
  }

  /** A CAS that fails goes on with the current top. */
  lemma AllocsFromCas(before: seq<Move>, s: State, t: Tid, tt: Top, w: Link, b: Addr) returns (s': State)
    requires Leads(before, t, s) && PcOf(s, t) == AllocCas(tt, w) && tt.ptr.At? && b !in s.heap
    requires LinkIn(s, s.top.ptr) && (s.top == tt ==> w == s.heap[tt.ptr.addr].next)
    ensures Leads(before, t, s') && HandsOut(s, t, b, s.top.ptr.Nil?, s')
  {
    if s.top == tt {
      s' := AllocsNow(before, s, t, w);
    } else {
      LeadsOn(before, t, s, 0);
      s' := AllocsTop(before, Go(s, t, AllocTest(s.top)), t, b);
      HandsOutFrom(s, t, AllocTest(s.top), b, s.top.ptr.Nil?, s');
    }
  }

  lemma AllocsFromTest(before: seq<Move>, s: State, t: Tid, tt: Top, b: Addr) returns (s': State)
    requires Leads(before, t, s) && PcOf(s, t) == AllocTest(tt) && b !in s.heap
    requires LinkIn(s, s.top.ptr) && LinkIn(s, tt.ptr)
    ensures Leads(before, t, s') && HandsOut(s, t, b, tt.ptr.Nil? || s.top.ptr.Nil?, s')
  {
    LeadsOn(before, t, s, b);
    if tt.ptr.Nil? {
      s' := Step(s, t, Run(b));
    } else {
      var w := s.heap[tt.ptr.addr].next;
      s' := AllocsFromCas(before, Go(s, t, AllocCas(tt, w)), t, tt, w, b);
      HandsOutFrom(s, t, AllocCas(tt, w), b, s.top.ptr.Nil?, s');
    }
  }

  lemma AllocsFromId(before: seq<Move>, s: State, t: Tid, p: Link, b: Addr) returns (s': State)
    requires Leads(before, t, s) && PcOf(s, t) == AllocLoadId(p) && b !in s.heap
    requires LinkIn(s, s.top.ptr) && LinkIn(s, p)
    ensures Leads(before, t, s') && HandsOut(s, t, b, p.Nil? || s.top.ptr.Nil?, s')
  {
    var tt := Top(p, s.top.id);
    LeadsOn(before, t, s, 0);
    s' := AllocsFromTest(before, Go(s, t, AllocTest(tt)), t, tt, b);
    HandsOutFrom(s, t, AllocTest(tt), b, p.Nil? || s.top.ptr.Nil?, s');
  }

  lemma AllocsFromPtr(before: seq<Move>, s: State, t: Tid, b: Addr) returns (s': State)
    requires Leads(before, t, s) && PcOf(s, t) == AllocLoadPtr && b !in s.heap && LinkIn(s, s.top.ptr)
    ensures Leads(before, t, s') && HandsOut(s, t, b, s.top.ptr.Nil?, s')
  {
    LeadsOn(before, t, s, 0);
    s' := AllocsFromId(before, Go(s, t, AllocLoadId(s.top.ptr)), t, s.top.ptr, b);
    HandsOutFrom(s, t, AllocLoadId(s.top.ptr), b, s.top.ptr.Nil?, s');
  }

  predicate Allocating(pc: Pc) {
    pc.AllocLoadPtr? || pc.AllocLoadId? || pc.AllocTest? || pc.AllocCas?
  }

  /** It has read that there is no block. */
  predicate SawNone(pc: Pc) {
    (pc.AllocLoadId? && pc.p.Nil?) || (pc.AllocTest? && pc.tt.ptr.Nil?)
  }

  lemma TopInHeap(s: State)
    requires Inv(s)
    ensures LinkIn(s, s.top.ptr)
  {
    if s.h.list != [] {
      assert s.h.list[|s.h.list| - 1] in s.h.owner;
    }
  }

  /** Wherever an Alloc is before its CAS has worked, also when it is going to fail: left alone it hands
      out the block on top, unless there is none or it has read that there is none; then it takes a
      new one. */
  lemma SoloAlloc(before: seq<Move>, s: State, t: Tid, b: Addr) returns (s': State)
    requires Leads(before, t, s) && Inv(s) && Allocating(PcOf(s, t)) && b !in s.heap
    ensures Leads(before, t, s')
    ensures HandsOut(s, t, b, SawNone(PcOf(s, t)) || s.top.ptr.Nil?, s')
  {
    assert ThreadOk(s, t);
    TopInHeap(s);
    match PcOf(s, t)
    case AllocLoadPtr => s' := AllocsFromPtr(before, s, t, b);
    case AllocLoadId(p) => s' := AllocsFromId(before, s, t, p, b);
    case AllocTest(tt) => s' := AllocsFromTest(before, s, t, tt, b);
    case AllocCas(tt, w) =>
      if s.top == tt { PopIsCurrent(s, t); }
      s' := AllocsFromCas(before, s, t, tt, w, b);
  }

  /** The whole call. */
  lemma WholeAlloc(before: seq<Move>, s: State, t: Tid, b: Addr) returns (s': State)
    requires s == Exec(INIT, before) && Inv(s) && PcOf(s, t).Idle? && b !in s.heap
    ensures Leads(before + [Move(t, CallAlloc)], t, s') && HandsOut(s, t, b, s.top.ptr.Nil?, s')
  {
    var run := before + [Move(t, CallAlloc)];
    Then(before, Move(t, CallAlloc));
    LeadsNowhere(run, t);
    TopInHeap(s);
    s' := AllocsFromPtr(run, Go(s, t, AllocLoadPtr), t, b);
    HandsOutFrom(s, t, AllocLoadPtr, b, s.top.ptr.Nil?, s');
  }

  // Free ---------------------------------------------------------------------------------------

  /** The block a is on top of what was the list. */
  ghost predicate BackOnTop(s: State, t: Tid, a: Addr, s': State) {
    && a in s.heap
    && SameReal(s', s.(heap := s.heap[a := s.heap[a].(next := s.top.ptr)], top := Top(At(a), s.top.id + 1),
                       pcs := s.pcs[t := Idle]))
    && s'.h.log == s.h.log
  }

  lemma BackOnTopFrom(s: State, r: State, t: Tid, a: Addr, s': State)
    requires BackOnTop(r, t, a, s') && a in s.heap && r.h == s.h && r.top == s.top
    requires r.heap == s.heap[a := r.heap[a]] && r.heap[a].flag == s.heap[a].flag && r.pcs == s.pcs[t := PcOf(r, t)]
    ensures BackOnTop(s, t, a, s')
  {
    assert r.pcs[t := Idle] == s.pcs[t := Idle];
    assert r.heap[a := r.heap[a].(next := r.top.ptr)] == s.heap[a := s.heap[a].(next := s.top.ptr)];
  }

  lemma FreesNow(before: seq<Move>, s: State, t: Tid, a: Addr) returns (s': State)
    requires Leads(before, t, s) && PcOf(s, t) == FreeLink(a, s.top) && a in s.heap
    ensures Leads(before, t, s') && BackOnTop(s, t, a, s')
  {
    var s1 := StepLink(s, t, a, s.top);
    s' := StepFreeCas(s1, t, a, s.top);
    LeadsOn(before, t, s, 0);
    LeadsOn(before, t, s1, 0);
    assert s1.pcs[t := Idle] == s.pcs[t := Idle];
  }

  lemma FreesFromCas(before: seq<Move>, s: State, t: Tid, a: Addr, tt: Top) returns (s': State)
    requires Leads(before, t, s) && PcOf(s, t) == FreeCas(a, tt) && a in s.heap && s.heap[a].next == tt.ptr
    ensures Leads(before, t, s') && BackOnTop(s, t, a, s')
  {
    LeadsOn(before, t, s, 0);
    if s.top == tt {
      s' := StepFreeCas(s, t, a, tt);
      assert s.heap[a := s.heap[a].(next := s.top.ptr)] == s.heap;
    } else {
      var s1 := Go(s, t, FreeLink(a, s.top));
      s' := FreesNow(before, s1, t, a);
      BackOnTopFrom(s, s1, t, a, s');
    }
  }

  lemma FreesFromLink(before: seq<Move>, s: State, t: Tid, a: Addr, tt: Top) returns (s': State)
    requires Leads(before, t, s) && PcOf(s, t) == FreeLink(a, tt) && a in s.heap
    ensures Leads(before, t, s') && BackOnTop(s, t, a, s')
  {
    var s1 := StepLink(s, t, a, tt);
    LeadsOn(before, t, s, 0);
    s' := FreesFromCas(before, s1, t, a, tt);
    BackOnTopFrom(s, s1, t, a, s');
  }

  lemma FreesFromId(before: seq<Move>, s: State, t: Tid, a: Addr, p: Link) returns (s': State)
    requires Leads(before, t, s) && PcOf(s, t) == FreeLoadId(a, p) && a in s.heap
    ensures Leads(before, t, s') && BackOnTop(s, t, a, s')
  {
    var s1 := Go(s, t, FreeLink(a, Top(p, s.top.id)));
    LeadsOn(before, t, s, 0);
    s' := FreesFromLink(before, s1, t, a, Top(p, s.top.id));
    BackOnTopFrom(s, s1, t, a, s');
  }

  lemma FreesFromPtr(before: seq<Move>, s: State, t: Tid, a: Addr) returns (s': State)
    requires Leads(before, t, s) && PcOf(s, t) == FreeLoadPtr(a) && a in s.heap
    ensures Leads(before, t, s') && BackOnTop(s, t, a, s')
  {
    var s1 := Go(s, t, FreeLoadId(a, s.top.ptr));
    LeadsOn(before, t, s, 0);
    s' := FreesFromId(before, s1, t, a, s.top.ptr);
    BackOnTopFrom(s, s1, t, a, s');
  }

  predicate Freeing(pc: Pc) {
    pc.FreeLoadPtr? || pc.FreeLoadId? || pc.FreeLink? || pc.FreeCas?
  }

  /** Wherever a Free is once it has been taken, left alone it puts its block on top. */
  lemma SoloFree(before: seq<Move>, s: State, t: Tid) returns (s': State)
    requires Leads(before, t, s) && Inv(s) && Freeing(PcOf(s, t))
    ensures Leads(before, t, s') && BackOnTop(s, t, PcOf(s, t).a, s')
  {
    assert ThreadOk(s, t);
    match PcOf(s, t)
    case FreeLoadPtr(a) => s' := FreesFromPtr(before, s, t, a);
    case FreeLoadId(a, p) => s' := FreesFromId(before, s, t, a, p);
    case FreeLink(a, tt) => s' := FreesFromLink(before, s, t, a, tt);
    case FreeCas(a, tt) => s' := FreesFromCas(before, s, t, a, tt);
  }

  /** What a whole Free(a) leaves: nothing new if a is no block of the list or its flag is set, and else
      the block on top, with its flag set. */
  ghost predicate Freed(s: State, t: Tid, a: Addr, s': State) {
    if a !in s.heap then SameReal(s', Go(s, t, Idle)) && s'.h.log == s.h.log
    else if s.heap[a].flag then SameReal(s', Go(s, t, Idle)) && s'.h.log == s.h.log + [Rejected(a)]
    else
      && SameReal(s', s.(heap := s.heap[a := Block(s.top.ptr, true)], top := Top(At(a), s.top.id + 1),
                         pcs := s.pcs[t := Idle]))
      && s'.h.log == s.h.log + [Accepted(a)]
  }

  lemma FlagsAndFrees(before: seq<Move>, s: State, t: Tid, a: Addr) returns (s': State)
    requires Leads(before, t, Go(s, t, FreeFlag(a))) && a in s.heap && !s.heap[a].flag
    ensures Leads(before, t, s') && Freed(s, t, a, s')
  {
    var s1 := Go(s, t, FreeFlag(a));
    var s2 := StepFlag(s1, t, a);
    LeadsOn(before, t, s1, 0);
    s' := FreesFromPtr(before, s2, t, a);
    assert s2.pcs[t := Idle] == s.pcs[t := Idle];
    assert s2.heap[a := s2.heap[a].(next := s.top.ptr)] == s.heap[a := Block(s.top.ptr, true)];
  }

  lemma WholeFree(before: seq<Move>, s: State, t: Tid, a: Addr) returns (s': State)
    requires s == Exec(INIT, before) && PcOf(s, t).Idle?
    ensures Leads(before + [Move(t, CallFree(a))], t, s') && Freed(s, t, a, s')
  {
    var run := before + [Move(t, CallFree(a))];
    Then(before, Move(t, CallFree(a)));
    LeadsNowhere(run, t);
    var s1 := Go(s, t, FreeMark(a));
    LeadsOn(run, t, s1, 0);
    if a !in s.heap {
      s' := Go(s1, t, Idle);
      assert s'.pcs == s.pcs[t := Idle];
    } else {
      var s2 := Go(s1, t, FreeFlag(a));
      assert s2 == Go(s, t, FreeFlag(a)) by { assert s2.pcs == s.pcs[t := FreeFlag(a)]; }
      if s.heap[a].flag {
        LeadsOn(run, t, s2, 0);
        s' := StepFlag(s2, t, a);
        assert s'.pcs == s.pcs[t := Idle];
      } else {
        s' := FlagsAndFrees(run, s, t, a);
      }
    }
  }

  // What Free was called with ------------------------------------------------------------------

  predicate InFreeCall(pc: Pc) {
    pc.FreeMark? || pc.FreeFlag? || Freeing(pc)
  }

  /** The argument of the last Free that t has called. */
  function Asked(moves: seq<Move>, t: Tid): Option<Addr>
    decreases |moves|
  {
    if moves == [] then None else
    var before, m := moves[..|moves| - 1], moves[|moves| - 1];
    if m.t == t && PcOf(Exec(INIT, before), t).Idle? && m.act.CallFree? then Some(m.act.a) else Asked(before, t)
  }

  lemma FreeStep(s: State, t: Tid, act: Action, s': State)
    requires s' == Step(s, t, act)
    ensures forall u: Tid :: u != t ==> PcOf(s', u) == PcOf(s, u)
    ensures InFreeCall(PcOf(s', t)) ==>
              if PcOf(s, t).Idle? && act.CallFree? then PcOf(s', t).a == act.a
              else InFreeCall(PcOf(s, t)) && PcOf(s', t).a == PcOf(s, t).a
  {
  }

  /** In every run a Free works on the block it was called with. */
  lemma {:induction false} FreeAsCalled(moves: seq<Move>, t: Tid)
    ensures InFreeCall(PcOf(Exec(INIT, moves), t)) ==> Asked(moves, t) == Some(PcOf(Exec(INIT, moves), t).a)
    decreases |moves|
  {
    if moves != [] {
      var before, m := moves[..|moves| - 1], moves[|moves| - 1];
      FreeAsCalled(before, t);
      FreeStep(Exec(INIT, before), m.t, m.act, Exec(INIT, moves));
    }
  }
}
