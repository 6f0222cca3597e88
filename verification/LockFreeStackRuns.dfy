/** Calls of the stack that are left alone finish, from wherever they are, and do what they are for. */
module LockFreeStackRuns {
  import opened LockFreeStack
  import opened LockFreeStackProof

  /** Steps of t inside a call; t calls nothing new. */
  predicate OnlyBy(moves: seq<Move>, t: Tid) {
    forall i :: 0 <= i < |moves| ==> moves[i].t == t && moves[i].act.Run?
  }

  lemma Then(moves: seq<Move>, m: Move)
    ensures Exec(moves + [m]) == Step(Exec(moves), m.t, m.act)
  {
    assert (moves + [m])[..|moves|] == moves;
  }

  /** t alone leads from the run `before` to s. */
  ghost predicate Leads(before: seq<Move>, t: Tid, s: State) {
    exists more :: OnlyBy(more, t) && Exec(before + more) == s
  }

  lemma LeadsNowhere(before: seq<Move>, t: Tid)
    ensures Leads(before, t, Exec(before))
  {
    var none: seq<Move> := [];
    assert before + none == before && OnlyBy(none, t);
  }

  lemma LeadsOn(before: seq<Move>, t: Tid, s: State, a: Addr)
    requires Leads(before, t, s)
    ensures Leads(before, t, Step(s, t, Run(a)))
  {
    var more :| OnlyBy(more, t) && Exec(before + more) == s;
    var m := Move(t, Run(a));
    Then(before + more, m);
    assert before + more + [m] == before + (more + [m]) && OnlyBy(more + [m], t);
  }

  lemma LeadsInv(before: seq<Move>, t: Tid, s: State)
    requires Leads(before, t, s)
    ensures Inv(s)
  {
    var more :| OnlyBy(more, t) && Exec(before + more) == s;
    ExecInv(before + more);
  }

  /** Equal in everything but history. */
  ghost predicate SameReal(s: State, r: State) {
    s.(h := r.h) == r
  }

  // Push ---------------------------------------------------------------------------------------

  /** The node n with d is on top of what was the stack. */
  ghost predicate OnTop(s: State, t: Tid, d: Data, n: Addr, s': State) {
    && SameReal(s', s.(heap := s.heap[n := Node(d, s.top.ptr)], pool := s.pool - {n},
                       top := Top(At(n), s.top.id + 1), count := s.count + 1, pcs := s.pcs[t := Idle]))
    && s'.h.log == s.h.log + [Pushed(d)]
  }

  lemma OnTopFrom(s: State, r: State, t: Tid, d: Data, n: Addr, s': State)
    requires OnTop(r, t, d, n, s') && r.h.log == s.h.log
    requires r.top == s.top && r.count == s.count && r.pool - {n} == s.pool - {n}
    requires r.heap.Keys + {n} == s.heap.Keys + {n} && r.pcs == s.pcs[t := PcOf(r, t)]
    requires forall a :: a in s.heap && a != n ==> a in r.heap && r.heap[a] == s.heap[a]
    ensures OnTop(s, t, d, n, s')
  {
    assert r.pcs[t := Idle] == s.pcs[t := Idle];
    assert r.heap[n := Node(d, s.top.ptr)] == s.heap[n := Node(d, s.top.ptr)];
  }

  /** From a CAS that is going to work. */
  lemma PushesNow(before: seq<Move>, s: State, t: Tid, d: Data, n: Addr) returns (s': State)
    requires Leads(before, t, s) && PcOf(s, t) == PushCas(d, n, s.top)
    ensures Leads(before, t, s') && OnTop(s, t, d, n, s')
  {
    LeadsInv(before, t, s);
    assert ThreadOk(s, t);
    assert NodeOk(s, n);
    var s1 := StepPushCas(s, t, d, n, s.top);
    s' := StepCount(s1, t);
    LeadsOn(before, t, s, 0);
    LeadsOn(before, t, s1, 0);
    assert s.heap[n := Node(d, s.top.ptr)] == s.heap && s.pool - {n} == s.pool;
    assert s1.pcs[t := Idle] == s.pcs[t := Idle];
  }

  lemma PushesLinked(before: seq<Move>, s: State, t: Tid, d: Data, n: Addr) returns (s': State)
    requires Leads(before, t, s) && PcOf(s, t) == PushLink(d, n, s.top)
    ensures Leads(before, t, s') && OnTop(s, t, d, n, s')
  {
    LeadsInv(before, t, s);
    assert ThreadOk(s, t);
    var s1 := StepLink(s, t, d, n, s.top);
    LeadsOn(before, t, s, 0);
    s' := PushesNow(before, s1, t, d, n);
    OnTopFrom(s, s1, t, d, n, s');
  }

  /** A CAS that fails starts over from the current top. */
  lemma PushesAgain(before: seq<Move>, s: State, t: Tid, d: Data, n: Addr, tt: Top) returns (s': State)
    requires Leads(before, t, s) && PcOf(s, t) == PushCas(d, n, tt)
    ensures Leads(before, t, s') && OnTop(s, t, d, n, s')
  {
    if s.top == tt {
      s' := PushesNow(before, s, t, d, n);
    } else {
      var s1 := Go(s, t, PushLink(d, n, s.top));
      LeadsOn(before, t, s, 0);
      s' := PushesLinked(before, s1, t, d, n);
      OnTopFrom(s, s1, t, d, n, s');
    }
  }

  lemma PushesFromLink(before: seq<Move>, s: State, t: Tid, d: Data, n: Addr, tt: Top) returns (s': State)
    requires Leads(before, t, s) && PcOf(s, t) == PushLink(d, n, tt)
    ensures Leads(before, t, s') && OnTop(s, t, d, n, s')
  {
    LeadsInv(before, t, s);
    assert ThreadOk(s, t);
    var s1 := StepLink(s, t, d, n, tt);
    LeadsOn(before, t, s, 0);
    s' := PushesAgain(before, s1, t, d, n, tt);
    OnTopFrom(s, s1, t, d, n, s');
  }

  lemma PushesFromId(before: seq<Move>, s: State, t: Tid, d: Data, n: Addr, p: Link) returns (s': State)
    requires Leads(before, t, s) && PcOf(s, t) == PushLoadId(d, n, p)
    ensures Leads(before, t, s') && OnTop(s, t, d, n, s')
  {
    var s1 := Go(s, t, PushLink(d, n, Top(p, s.top.id)));
    LeadsOn(before, t, s, 0);
    s' := PushesFromLink(before, s1, t, d, n, Top(p, s.top.id));
    OnTopFrom(s, s1, t, d, n, s');
  }

  lemma PushesFromPtr(before: seq<Move>, s: State, t: Tid, d: Data, n: Addr) returns (s': State)
    requires Leads(before, t, s) && PcOf(s, t) == PushLoadPtr(d, n)
    ensures Leads(before, t, s') && OnTop(s, t, d, n, s')
  {
    var s1 := Go(s, t, PushLoadId(d, n, s.top.ptr));
    LeadsOn(before, t, s, 0);
    s' := PushesFromId(before, s1, t, d, n, s.top.ptr);
    OnTopFrom(s, s1, t, d, n, s');
  }

  lemma PushesFromInit(before: seq<Move>, s: State, t: Tid, d: Data, n: Addr) returns (s': State)
    requires Leads(before, t, s) && PcOf(s, t) == PushInit(d, n)
    ensures Leads(before, t, s') && OnTop(s, t, d, n, s')
  {
    LeadsInv(before, t, s);
    assert ThreadOk(s, t);
    var s1 := StepInit(s, t, d, n);
    LeadsOn(before, t, s, 0);
    s' := PushesFromPtr(before, s1, t, d, n);
    OnTopFrom(s, s1, t, d, n, s');
  }

  /** Wherever a Push is once it has its node, left alone it ends with its value on top. */
  lemma SoloPush(before: seq<Move>, s: State, t: Tid) returns (s': State)
    requires Leads(before, t, s) && Pushing(PcOf(s, t))
    ensures Leads(before, t, s') && OnTop(s, t, PcOf(s, t).d, PcOf(s, t).n, s')
  {
    match PcOf(s, t)
    case PushInit(d, n) => s' := PushesFromInit(before, s, t, d, n);
    case PushLoadPtr(d, n) => s' := PushesFromPtr(before, s, t, d, n);
    case PushLoadId(d, n, p) => s' := PushesFromId(before, s, t, d, n, p);
    case PushLink(d, n, tt) => s' := PushesFromLink(before, s, t, d, n, tt);
    case PushCas(d, n, tt) => s' := PushesAgain(before, s, t, d, n, tt);
  }

  /** The whole call, which gets the node n from the pool or the heap. */
  lemma WholePush(before: seq<Move>, s: State, t: Tid, d: Data, n: Addr) returns (s': State)
    requires s == Exec(before) && PcOf(s, t).Idle? && (n in s.pool || n !in s.heap)
    ensures Leads(before + [Move(t, CallPush(d))], t, s') && OnTop(s, t, d, n, s')
  {
    var run := before + [Move(t, CallPush(d))];
    Then(before, Move(t, CallPush(d)));
    LeadsNowhere(run, t);
    var s1 := Go(s, t, PushAlloc(d));
    var s2 := StepAlloc(s1, t, d, n);
    LeadsOn(run, t, s1, n);
    s' := PushesFromInit(run, s2, t, d, n);
    assert s2.pcs == s.pcs[t := PushInit(d, n)];
    OnTopFrom(s, s2, t, d, n, s');
  }

  // Pop ----------------------------------------------------------------------------------------

  /** The top node is in the pool and its successor on top; the call returns its value. */
  ghost predicate TopGone(s: State, t: Tid, s': State) {
    && s.top.ptr.At? && s.top.ptr.addr in s.heap
    && SameReal(s', s.(top := Top(s.heap[s.top.ptr.addr].next, s.top.id + 1),
                       pool := s.pool + {s.top.ptr.addr}, pcs := s.pcs[t := Idle]))
    && s'.h.log == s.h.log + [Popped(s.heap[s.top.ptr.addr].data)]
  }

  lemma TopGoneFrom(s: State, t: Tid, pc: Pc, s': State)
    requires TopGone(Go(s, t, pc), t, s')
    ensures TopGone(s, t, s')
  {
    assert Go(s, t, pc).pcs[t := Idle] == s.pcs[t := Idle];
  }

  lemma PopsTop(s: State, t: Tid, w: Link, s1: State, s2: State)
    requires PcOf(s, t) == PopCas(s.top, w)
    requires s.top.ptr.At? && s.top.ptr.addr in s.heap && w == s.heap[s.top.ptr.addr].next
    requires s1 == StepPopCas(s, t, s.top, w) && s2 == StepRead(s1, t, s.top.ptr.addr, |s.h.log|)
    ensures PcOf(s1, t) == PopRead(s.top.ptr.addr, |s.h.log|) && PcOf(s2, t).PopFree?
    ensures PcOf(s2, t).a == s.top.ptr.addr && TopGone(s, t, StepFree(s2, t, s.top.ptr.addr))
  {
    assert s2.pcs[t := Idle] == s.pcs[t := Idle];
  }

  lemma PopsNow(before: seq<Move>, s: State, t: Tid, w: Link) returns (s': State)
    requires Leads(before, t, s) && PcOf(s, t) == PopCas(s.top, w)
    requires s.top.ptr.At? && s.top.ptr.addr in s.heap && w == s.heap[s.top.ptr.addr].next
    ensures Leads(before, t, s') && TopGone(s, t, s')
  {
    var a := s.top.ptr.addr;
    var s1 := StepPopCas(s, t, s.top, w);
    var s2 := StepRead(s1, t, a, |s.h.log|);
    PopsTop(s, t, w, s1, s2);
    LeadsOn(before, t, s, 0);
    ReadsAndFrees(before, s1, t, a, |s.h.log|, s2);
    s' := StepFree(s2, t, a);
  }

  lemma ReadsAndFrees(before: seq<Move>, s1: State, t: Tid, a: Addr, k: nat, s2: State)
    requires Leads(before, t, s1) && PcOf(s1, t) == PopRead(a, k) && s2 == StepRead(s1, t, a, k)
    requires PcOf(s2, t).PopFree? && PcOf(s2, t).a == a
    ensures Leads(before, t, StepFree(s2, t, a))
  {
    LeadsOn(before, t, s1, 0);
    LeadsOn(before, t, s2, 0);
  }

  /** What the CAS expects to find under the top node is there. */
  lemma SuccessorIsRead(s: State, t: Tid, tt: Top, w: Link)
    requires Inv(s) && PcOf(s, t) == PopCas(tt, w) && s.top == tt
    ensures s.top.ptr.At? && s.top.ptr.addr in s.heap && w == s.heap[s.top.ptr.addr].next
  {
    assert ThreadOk(s, t);
    NeverEmpty(s, t);
    assert NodeOk(s, s.top.ptr.addr);
  }

  lemma PopsNext(before: seq<Move>, s: State, t: Tid) returns (s': State)
    requires Leads(before, t, s) && PcOf(s, t) == PopNext(s.top)
    ensures Leads(before, t, s') && TopGone(s, t, s')
  {
    LeadsInv(before, t, s);
    NeverEmpty(s, t);
    var w := s.heap[s.top.ptr.addr].next;
    LeadsOn(before, t, s, 0);
    s' := PopsNow(before, Go(s, t, PopCas(s.top, w)), t, w);
    TopGoneFrom(s, t, PopCas(s.top, w), s');
  }

  lemma PopsFromCas(before: seq<Move>, s: State, t: Tid, tt: Top, w: Link) returns (s': State)
    requires Leads(before, t, s) && PcOf(s, t) == PopCas(tt, w)
    ensures Leads(before, t, s') && TopGone(s, t, s')
  {
    LeadsInv(before, t, s);
    if s.top == tt {
      SuccessorIsRead(s, t, tt, w);
      s' := PopsNow(before, s, t, w);
    } else {
      LeadsOn(before, t, s, 0);
      s' := PopsNext(before, Go(s, t, PopNext(s.top)), t);
      TopGoneFrom(s, t, PopNext(s.top), s');
    }
  }

  lemma PopsFromNext(before: seq<Move>, s: State, t: Tid, tt: Top) returns (s': State)
    requires Leads(before, t, s) && PcOf(s, t) == PopNext(tt)
    ensures Leads(before, t, s') && TopGone(s, t, s')
  {
    LeadsInv(before, t, s);
    assert ThreadOk(s, t);
    var w := s.heap[tt.ptr.addr].next;
    LeadsOn(before, t, s, 0);
    s' := PopsFromCas(before, Go(s, t, PopCas(tt, w)), t, tt, w);
    TopGoneFrom(s, t, PopCas(tt, w), s');
  }

  lemma PopsFromId(before: seq<Move>, s: State, t: Tid, p: Link) returns (s': State)
    requires Leads(before, t, s) && PcOf(s, t) == PopLoadId(p)
    ensures Leads(before, t, s') && TopGone(s, t, s')
  {
    LeadsOn(before, t, s, 0);
    s' := PopsFromNext(before, Go(s, t, PopNext(Top(p, s.top.id))), t, Top(p, s.top.id));
    TopGoneFrom(s, t, PopNext(Top(p, s.top.id)), s');
  }

  lemma PopsFromPtr(before: seq<Move>, s: State, t: Tid) returns (s': State)
    requires Leads(before, t, s) && PcOf(s, t) == PopLoadPtr
    ensures Leads(before, t, s') && TopGone(s, t, s')
  {
    LeadsOn(before, t, s, 0);
    s' := PopsFromId(before, Go(s, t, PopLoadId(s.top.ptr)), t, s.top.ptr);
    TopGoneFrom(s, t, PopLoadId(s.top.ptr), s');
  }

  /** Wherever a Pop is once it is past the gate, left alone it ends with the top popped. */
  lemma SoloPop(before: seq<Move>, s: State, t: Tid) returns (s': State)
    requires Leads(before, t, s) && PastGate(PcOf(s, t))
    ensures Leads(before, t, s') && TopGone(s, t, s')
  {
    match PcOf(s, t)
    case PopLoadPtr => s' := PopsFromPtr(before, s, t);
    case PopLoadId(p) => s' := PopsFromId(before, s, t, p);
    case PopNext(tt) => s' := PopsFromNext(before, s, t, tt);
    case PopCas(tt, w) => s' := PopsFromCas(before, s, t, tt, w);
  }

  lemma PoppedFrom(s: State, t: Tid, s2: State, s': State)
    requires s2 == StepGate(Go(s, t, PopGate), t) && 1 <= s.count && TopGone(s2, t, s')
    ensures TopGone(s.(count := s.count - 1), t, s')
  {
    assert s2.pcs[t := Idle] == s.pcs[t := Idle];
  }

  ghost predicate LeavesAll(s: State, t: Tid, s': State) {
    SameReal(s', s.(pcs := s.pcs[t := Idle])) && s'.h.log == s.h.log
  }

  lemma Undoes(before: seq<Move>, s: State, t: Tid) returns (s': State)
    requires Leads(before, t, Go(s, t, PopGate)) && s.count < 1
    ensures Leads(before, t, s') && LeavesAll(s, t, s')
  {
    var s1 := Go(s, t, PopGate);
    var s2 := StepGate(s1, t);
    LeadsOn(before, t, s1, 0);
    LeadsOn(before, t, s2, 0);
    s' := StepUndo(s2, t);
    assert s2.pcs[t := Idle] == s.pcs[t := Idle];
  }

  /** The whole call: it takes the top if the count is positive, and else leaves everything as it was. */
  lemma WholePop(before: seq<Move>, s: State, t: Tid) returns (s': State)
    requires s == Exec(before) && PcOf(s, t).Idle?
    ensures Leads(before + [Move(t, CallPop)], t, s')
    ensures if 1 <= s.count then TopGone(s.(count := s.count - 1), t, s') else LeavesAll(s, t, s')
  {
    var run := before + [Move(t, CallPop)];
    Then(before, Move(t, CallPop));
    LeadsNowhere(run, t);
    var s1 := Go(s, t, PopGate);
    if 1 <= s.count {
      var s2 := StepGate(s1, t);
      LeadsOn(run, t, s1, 0);
      s' := PopsFromPtr(run, s2, t);
      PoppedFrom(s, t, s2, s');
    } else {
      s' := Undoes(run, s, t);
    }
  }
}
