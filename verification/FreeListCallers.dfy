/** What the callers of the free list have to keep to, and what they get for it. */
module FreeListCallers {
  import opened FreeList
  import opened FreeListProof

  /** A call Free(a) is under way. */
  predicate Freeing(pc: Pc, a: Addr) {
    (pc.FreeMark? || pc.FreeFlag? || pc.FreeLoadPtr? || pc.FreeLoadId? || pc.FreeLink? || pc.FreeCas?) && pc.a == a
  }

  /** Free(a) is called only for a block that Alloc has returned and that has not been given back
      since, and not while another call gives it back. */
  ghost predicate CallerOk(s: State, t: Tid, act: Action) {
    PcOf(s, t).Idle? && act.CallFree? ==>
      Outstanding(s.h.log, act.a) && forall u: Tid :: !Freeing(PcOf(s, u), act.a)
  }

  ghost predicate CallerRun(moves: seq<Move>)
    decreases |moves|
  {
    moves != [] ==>
      && CallerRun(moves[..|moves| - 1])
      && CallerOk(Exec(INIT, moves[..|moves| - 1]), moves[|moves| - 1].t, moves[|moves| - 1].act)
  }

  /** The call has not yet reached the flag. */
  predicate Undecided(pc: Pc, a: Addr) {
    (pc.FreeMark? || pc.FreeFlag?) && pc.a == a
  }

  ghost predicate PendingOk(s: State, t: Tid) {
    forall a :: Undecided(PcOf(s, t), a) ==> IsOut(s, a) && forall u: Tid :: u != t ==> !Undecided(PcOf(s, u), a)
  }

  /** Blocks being given back are out, each in one call; and no call has thrown "Twice Free". */
  ghost predicate Pending(s: State) {
    && (forall t: Tid {:trigger PendingOk(s, t)} :: PendingOk(s, t))
    && (forall i :: 0 <= i < |s.h.log| ==> !s.h.log[i].Rejected?)
  }

  lemma PendingIsFair(s: State, t: Tid)
    requires Inv(s) && Pending(s)
    ensures Fair(s, t)
  {
    assert PendingOk(s, t);
    if PcOf(s, t).FreeFlag? {
      var a := PcOf(s, t).a;
      assert Undecided(PcOf(s, t), a);
      forall u: Tid ensures PcOf(s, u) != AllocConstruct(a) {
        assert ThreadOk(s, u);
      }
    }
  }

  lemma OutStays(s: State, t: Tid, act: Action, s': State, a: Addr)
    requires Inv(s) && s' == Step(s, t, act) && IsOut(s, a) && PcOf(s, t) != FreeFlag(a)
    ensures IsOut(s', a)
  {
    assert ThreadOk(s, t);
    if !PcOf(s, t).AllocTest? && !PcOf(s, t).AllocConstruct? && !PcOf(s, t).FreeFlag? {
      SilentStep(s, t, act, s');
    }
  }

  /** A call that reaches the flag of a block that is out is taken. */
  lemma NotRejected(s: State, t: Tid, act: Action, s': State)
    requires Inv(s) && PendingOk(s, t) && s' == Step(s, t, act)
    ensures s'.h.log == s.h.log || exists e: Event :: !e.Rejected? && s'.h.log == s.h.log + [e]
  {
    assert ThreadOk(s, t);
    if PcOf(s, t).FreeFlag? {
      var a := PcOf(s, t).a;
      assert Undecided(PcOf(s, t), a);
      assert BlockOk(s, a);
      assert s'.h.log == s.h.log + [Accepted(a)];
    } else if PcOf(s, t).AllocConstruct? {
      assert s'.h.log == s.h.log + [Handed(PcOf(s, t).a)];
    } else if PcOf(s, t).AllocTest? {
      assert s'.h.log == s.h.log || s'.h.log == s.h.log + [Handed(act.block)];
    } else {
      SilentStep(s, t, act, s');
    }
  }

  lemma PendingKeeps(s: State, t: Tid, act: Action, s': State)
    requires Inv(s) && LogOk(s) && Pending(s) && CallerOk(s, t, act) && s' == Step(s, t, act)
    ensures Pending(s')
  {
    assert PendingOk(s, t);
    NotRejected(s, t, act, s');
    forall u: Tid ensures PendingOk(s', u) {
      PendingStays(s, t, act, s', u);
    }
  }

  lemma PendingStays(s: State, t: Tid, act: Action, s': State, u: Tid)
    requires Inv(s) && LogOk(s) && Pending(s) && CallerOk(s, t, act) && s' == Step(s, t, act)
    ensures PendingOk(s', u)
  {
    assert PendingOk(s, u) && PendingOk(s, t);
    forall a | Undecided(PcOf(s', u), a)
      ensures IsOut(s', a) && forall v: Tid :: v != u ==> !Undecided(PcOf(s', v), a)
    {
      NewlyUndecided(s, t, act, s', u, a);
      OutStays(s, t, act, s', a);
      forall v: Tid | v != u ensures !Undecided(PcOf(s', v), a) {
        if Undecided(PcOf(s', v), a) {
          assert PendingOk(s, v);
          NewlyUndecided(s, t, act, s', v, a);
        }
      }
    }
  }

  /** A thread on its way to the flag was so before, or has just made the call. */
  lemma NewlyUndecided(s: State, t: Tid, act: Action, s': State, u: Tid, a: Addr)
    requires s' == Step(s, t, act) && Undecided(PcOf(s', u), a)
    ensures || PcOf(s', u) == PcOf(s, u)
            || (u == t && (PcOf(s, t) == FreeMark(a) || (PcOf(s, t).Idle? && act == CallFree(a))))
  {
  }

  /** Whoever keeps to this meets the condition under which the list is safe, */
  lemma {:induction false} CallersAreFair(moves: seq<Move>)
    requires CallerRun(moves)
    ensures FairRun(moves) && Pending(Exec(INIT, moves))
    decreases |moves|
  {
    if moves != [] {
      var before, last := moves[..|moves| - 1], moves[|moves| - 1];
      CallersAreFair(before);
      ExecInv(before);
      ExecLog(before);
      PendingIsFair(Exec(INIT, before), last.t);
      PendingKeeps(Exec(INIT, before), last.t, last.act, Exec(INIT, moves));
    }
  }

  /** and none of its calls ever throws. */
  lemma CallersAreSafe(moves: seq<Move>)
    requires CallerRun(moves)
    ensures var s := Exec(INIT, moves);
            && Legal(s.h.log) && (forall i :: 0 <= i < |s.h.log| ==> !s.h.log[i].Rejected?)
            && (forall t: Tid :: !PcOf(s, t).Wild?)
            && exists xs :: && Chain(s.heap, s.top.ptr, xs)
                            && (forall i, j :: 0 <= i < j < |xs| ==> xs[i] != xs[j])
                            && (forall a :: a in xs ==> !Outstanding(s.h.log, a))
  {
    CallersAreFair(moves);
    AbaSafe(moves);
  }
}
