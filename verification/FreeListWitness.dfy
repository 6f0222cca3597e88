/** One run in which a late second Free is taken: the unfair step that Fair rules out. */
module FreeListWitness {
  import opened FreeList
  import opened FreeListProof

  /** Some run ends in s. */
  ghost predicate Reached(s: State) {
    exists moves :: Exec(INIT, moves) == s
  }

  lemma Then(s: State, t: Tid, act: Action, s': State)
    requires Reached(s) && Step(s, t, act) == s'
    ensures Reached(s')
  {
    var moves :| Exec(INIT, moves) == s;
    var next := moves + [Move(t, act)];
    assert next[..|next| - 1] == moves;
    assert Exec(INIT, next) == s';
  }

  /** Thread t takes one step that only moves its program counter. */
  lemma Moves(s: State, t: Tid, act: Action, pc': Pc) returns (s': State)
    requires Reached(s) && Step(s, t, act) == Go(s, t, pc')
    ensures Reached(s') && s' == Go(s, t, pc')
  {
    s' := Go(s, t, pc');
    Then(s, t, act, s');
  }

  /** An Alloc on an empty list returns a new block. */
  lemma AllocNew(s: State, t: Tid, a: Addr) returns (s': State)
    requires Reached(s) && PcOf(s, t) == Idle && s.top.ptr == Nil && a !in s.heap
    ensures Reached(s') && PcOf(s', t) == Idle && (forall u :: u != t ==> PcOf(s', u) == PcOf(s, u))
    ensures s'.top == s.top && s'.heap == s.heap[a := Block(Nil, false)] && s'.h.log == s.h.log + [Handed(a)]
  {
    var s1 := Moves(s, t, CallAlloc, AllocLoadPtr);
    var s2 := Moves(s1, t, CallAlloc, AllocLoadId(Nil));
    var s3 := Moves(s2, t, CallAlloc, AllocTest(s.top));
    s' := StepTest(s3, t, s.top, a);
    Then(s3, t, Run(a), s');
  }

  /** A Free(a) that is about to look at the flag. */
  lemma FreeStarts(s: State, t: Tid, a: Addr) returns (s': State)
    requires Reached(s) && PcOf(s, t) == Idle && a in s.heap
    ensures Reached(s') && PcOf(s', t) == FreeFlag(a) && (forall u :: u != t ==> PcOf(s', u) == PcOf(s, u))
    ensures s'.top == s.top && s'.heap == s.heap && s'.h == s.h
  {
    var s1 := Moves(s, t, CallFree(a), FreeMark(a));
    s' := Moves(s1, t, CallAlloc, FreeFlag(a));
  }

  lemma FreeTaken(s: State, t: Tid, a: Addr) returns (s': State)
    requires Reached(s) && PcOf(s, t) == FreeFlag(a) && a in s.heap && !s.heap[a].flag
    ensures Reached(s') && PcOf(s', t) == FreeLink(a, s.top) && (forall u :: u != t ==> PcOf(s', u) == PcOf(s, u))
    ensures s'.top == s.top && s'.h.log == s.h.log + [Accepted(a)]
    ensures s'.heap == s.heap[a := s.heap[a].(flag := true)]
  {
    var s1 := StepFlag(s, t, a);
    Then(s, t, CallAlloc, s1);
    var s2 := Moves(s1, t, CallAlloc, FreeLoadId(a, s.top.ptr));
    s' := Moves(s2, t, CallAlloc, FreeLink(a, s.top));
  }

  lemma FreeLinks(s: State, t: Tid, a: Addr) returns (s': State)
    requires Reached(s) && PcOf(s, t) == FreeLink(a, s.top) && a in s.heap
    ensures Reached(s') && PcOf(s', t) == Idle && (forall u :: u != t ==> PcOf(s', u) == PcOf(s, u))
    ensures s'.top.ptr == At(a) && s'.h.log == s.h.log
    ensures s'.heap == s.heap[a := s.heap[a].(next := s.top.ptr)]
  {
    var s1 := StepLink(s, t, a, s.top);
    Then(s, t, CallAlloc, s1);
    s' := StepFreeCas(s1, t, a, s.top);
    Then(s1, t, CallAlloc, s');
  }

  /** An Alloc that has popped the top block and not yet cleared its flag. */
  lemma AllocPops(s: State, t: Tid, a: Addr) returns (s': State)
    requires Reached(s) && PcOf(s, t) == Idle && s.top.ptr == At(a) && a in s.heap
    ensures Reached(s') && PcOf(s', t) == AllocClear(a) && (forall u :: u != t ==> PcOf(s', u) == PcOf(s, u))
    ensures s'.heap == s.heap && s'.h.log == s.h.log
  {
    var s1 := Moves(s, t, CallAlloc, AllocLoadPtr);
    var s2 := Moves(s1, t, CallAlloc, AllocLoadId(s.top.ptr));
    var s3 := Moves(s2, t, CallAlloc, AllocTest(s.top));
    var s4 := Moves(s3, t, Run(a), AllocCas(s.top, s.heap[a].next));
    s' := StepAllocCas(s4, t, s.top, s.heap[a].next);
    Then(s4, t, CallAlloc, s');
  }

  /** Threads 0 and 1 both call Free on the block thread 0 was handed. */
  lemma TwoFreers(a: Addr) returns (s: State)
    ensures Reached(s) && PcOf(s, 0) == FreeFlag(a) && PcOf(s, 1) == FreeFlag(a)
    ensures a in s.heap && !s.heap[a].flag && s.h.log == [Handed(a)]
  {
    assert Exec(INIT, []) == INIT;
    var s1 := AllocNew(INIT, 0, a);
    var s2 := FreeStarts(s1, 1, a);
    s := FreeStarts(s2, 0, a);
  }

  /** Thread 0's Free completes, and thread 0 takes the block out again. */
  lemma Recycled(s: State, a: Addr) returns (s': State)
    requires Reached(s) && PcOf(s, 0) == FreeFlag(a) && PcOf(s, 1) == FreeFlag(a)
    requires a in s.heap && !s.heap[a].flag
    ensures Reached(s') && PcOf(s', 0) == AllocClear(a) && PcOf(s', 1) == FreeFlag(a)
    ensures a in s'.heap && s'.h.log == s.h.log + [Accepted(a)]
  {
    var s4 := FreeTaken(s, 0, a);
    var s5 := FreeLinks(s4, 0, a);
    s' := AllocPops(s5, 0, a);
  }

  lemma LateFreeIllegal(a: Addr)
    ensures !Legal([Handed(a)] + [Accepted(a)] + [Accepted(a)])
  {
    Logged([Handed(a)], Accepted(a));
    Logged([Handed(a)] + [Accepted(a)], Accepted(a));
  }

  /** Once thread 0 has cleared the flag, thread 1's overdue Free is taken although the
      block is not out. */
  lemma LateFreeIsTaken(a: Addr) returns (moves: seq<Move>)
    ensures Exec(INIT, moves).h.log == [Handed(a), Accepted(a), Accepted(a)]
    ensures !Legal([Handed(a), Accepted(a), Accepted(a)])
  {
    var s := TwoFreers(a);
    var s6 := Recycled(s, a);
    var s7 := StepClear(s6, 0, a);
    Then(s6, 0, CallAlloc, s7);
    var s8 := StepFlag(s7, 1, a);
    Then(s7, 1, CallAlloc, s8);
    moves :| Exec(INIT, moves) == s8;
    assert [Handed(a)] + [Accepted(a)] + [Accepted(a)] == [Handed(a), Accepted(a), Accepted(a)];
    LateFreeIllegal(a);
  }
}
