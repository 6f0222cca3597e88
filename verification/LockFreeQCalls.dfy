/** What is enqueued is what EnQ was called with, once per call. */
module LockFreeQCalls {
  import opened Ledgers
  import opened LockFreeQ
  import opened LockFreeQInvariant
  import opened LockFreeQSteps
  import opened LockFreeQTheorems
  import opened LockFreeQUse

  /** In EnQ, before CAS 1 has linked the node. */
  predicate Asking(pc: Pc) {
    match pc
    case Crashed(at) => Asking(at)
    case EnqReRead(_, _, _) => false
    case EnqCas2(_, _, _, _) => false
    case EnqCount(_) => false
    case _ => InEnQ(pc)
  }

  /** The value that such a thread carries. */
  function Carried(pc: Pc): Data
    requires Asking(pc)
  {
    if pc.Crashed? then Carried(pc.at) else pc.d
  }

  lemma {:induction false} OnlyInEnQ(pc: Pc)
    ensures Asking(pc) ==> InEnQ(pc)
  {
    if pc.Crashed? {
      OnlyInEnQ(pc.at);
    }
  }

  lemma DequeuerIsNot(pc: Pc)
    requires InDeQ(pc)
    ensures !InEnQ(pc)
  {
  }

  predicate Enqueues(s: State, s': State) {
    |s'.h.log| > |s.h.log| && s'.h.log[|s'.h.log| - 1].Enq?
  }

  /** The ledger after a step of t. */
  function Next(l: Ledger<Data>, s: State, t: Tid, act: Action, s': State): Ledger<Data> {
    if PcOf(s, t).Idle? && act.CallEnQ? then Called(l, t, act.d)
    else if Enqueues(s, s') then Settled(l, t)
    else l
  }

  /** The EnQ calls of a run: a thread that is idle makes one when it moves so, and it takes effect
      when the log gets an Enq by a step of that thread. */
  function EnQCalls(c: int, dummy: Addr, moves: seq<Move>): Ledger<Data>
    decreases |moves|
  {
    if moves == [] then Empty() else
    var before, m := moves[..|moves| - 1], moves[|moves| - 1];
    Next(EnQCalls(c, dummy, before), Exec(Init(c, dummy), before), m.t, m.act, Exec(Init(c, dummy), moves))
  }

  /** The calls are accounted for: what is in the log is what the calls that took effect had as
      arguments, and a thread carries the argument of its own call. */
  ghost predicate Accounted(l: Ledger<Data>, s: State) {
    && Kept(l) && Effects(l) == Enqueued(s.h.log)
    && (forall t: Tid :: t in l.open <==> Asking(PcOf(s, t)))
    && (forall t: Tid :: t in l.open ==> Carried(PcOf(s, t)) == l.args[l.open[t]])
  }

  // What a step does to the call of the thread that makes it --------------------------------

  /** Until CAS 1 it goes on with the same value. */
  lemma AskingStep(s: State, t: Tid, act: Action, s': State)
    requires s' == Step(s, t, act) && Asking(PcOf(s, t)) && !PcOf(s, t).EnqCas1? && !PcOf(s', t).Wild?
    ensures Asking(PcOf(s', t)) && Carried(PcOf(s', t)) == Carried(PcOf(s, t)) && s'.h.log == s.h.log
  {
    if Before(PcOf(s, t)) {
      EarlyStep(s, t, act, s');
    }
  }

  lemma EarlyStep(s: State, t: Tid, act: Action, s': State)
    requires s' == Step(s, t, act) && Asking(PcOf(s, t)) && Before(PcOf(s, t)) && !PcOf(s', t).Wild?
    ensures Asking(PcOf(s', t)) && Carried(PcOf(s', t)) == Carried(PcOf(s, t)) && s'.h.log == s.h.log
  {
    if PcOf(s, t).EnqCheck? {
      assert PcOf(s', t).Crashed? ==> PcOf(s', t).at == PcOf(s, t);
    }
  }

  /** CAS 1 puts it into the log, or fails. */
  lemma Cas1Step(s: State, t: Tid, act: Action, s': State)
    requires s' == Step(s, t, act) && PcOf(s, t).EnqCas1? && !PcOf(s', t).Wild?
    ensures s'.h.log == s.h.log ==> Asking(PcOf(s', t)) && Carried(PcOf(s', t)) == PcOf(s, t).d
    ensures s'.h.log != s.h.log ==> s'.h.log == s.h.log + [Enq(PcOf(s, t).d)] && !Asking(PcOf(s', t))
  {
  }

  /** Others neither ask nor enqueue, unless they call. */
  lemma OtherStep(s: State, t: Tid, act: Action, s': State)
    requires s' == Step(s, t, act) && !Asking(PcOf(s, t))
    ensures !Enqueues(s, s') && Enqueued(s'.h.log) == Enqueued(s.h.log)
    ensures if PcOf(s, t).Idle? && act.CallEnQ? then PcOf(s', t) == EnqCheck(act.d) else !Asking(PcOf(s', t))
  {
    if InDeQ(PcOf(s, t)) {
      DequeuerStep(s, t, act, s');
    } else {
      LateStep(s, t, act, s');
    }
  }

  lemma DequeuerStep(s: State, t: Tid, act: Action, s': State)
    requires s' == Step(s, t, act) && InDeQ(PcOf(s, t))
    ensures !Enqueues(s, s') && Enqueued(s'.h.log) == Enqueued(s.h.log) && !Asking(PcOf(s', t))
  {
    if PcOf(s, t).DeqCas? {
      assert s'.h.log != s.h.log ==> s'.h.log[..|s'.h.log| - 1] == s.h.log;
    } else {
      OtherDeqStep(s, t, act, s');
    }
    StepInDeQ(s, t, act, s');
    DequeuerIsNot(PcOf(s, t));
    OnlyInEnQ(PcOf(s', t));
  }

  lemma LateStep(s: State, t: Tid, act: Action, s': State)
    requires s' == Step(s, t, act) && !Asking(PcOf(s, t)) && !InDeQ(PcOf(s, t))
    ensures s'.h.log == s.h.log
    ensures if PcOf(s, t).Idle? && act.CallEnQ? then PcOf(s', t) == EnqCheck(act.d) else !Asking(PcOf(s', t))
  {
  }

  // Whole runs -----------------------------------------------------------------------------

  ghost predicate OthersStay(s: State, t: Tid, s': State) {
    forall u: Tid :: u != t ==> PcOf(s', u) == PcOf(s, u)
  }

  lemma GoesOn(l: Ledger<Data>, s: State, t: Tid, s': State)
    requires Accounted(l, s) && OthersStay(s, t, s') && Enqueued(s'.h.log) == Enqueued(s.h.log)
    requires Asking(PcOf(s', t)) <==> Asking(PcOf(s, t))
    requires Asking(PcOf(s, t)) ==> Carried(PcOf(s', t)) == Carried(PcOf(s, t))
    ensures Accounted(l, s')
  {
    forall u: Tid
      ensures u in l.open <==> Asking(PcOf(s', u))
      ensures u in l.open ==> Carried(PcOf(s', u)) == l.args[l.open[u]]
    {
      assert u != t ==> PcOf(s', u) == PcOf(s, u);
    }
  }

  lemma CallMade(l: Ledger<Data>, s: State, t: Tid, d: Data, s': State)
    requires Accounted(l, s) && OthersStay(s, t, s') && Enqueued(s'.h.log) == Enqueued(s.h.log)
    requires !Asking(PcOf(s, t)) && PcOf(s', t) == EnqCheck(d)
    ensures Accounted(Called(l, t, d), s')
  {
    CalledKept(l, t, d);
    CalledEffects(l, t, d);
    var r := Called(l, t, d);
    forall u: Tid
      ensures u in r.open <==> Asking(PcOf(s', u))
      ensures u in r.open ==> Carried(PcOf(s', u)) == r.args[r.open[u]]
    {
      assert u != t ==> PcOf(s', u) == PcOf(s, u);
    }
  }

  lemma Settles(l: Ledger<Data>, s: State, t: Tid, s': State)
    requires Accounted(l, s) && OthersStay(s, t, s') && Asking(PcOf(s, t)) && !Asking(PcOf(s', t))
    requires s'.h.log == s.h.log + [Enq(Carried(PcOf(s, t)))]
    ensures Accounted(Settled(l, t), s')
  {
    SettledKept(l, t);
    SettledEffects(l, t);
    var r := Settled(l, t);
    assert s'.h.log[..|s'.h.log| - 1] == s.h.log;
    forall u: Tid
      ensures u in r.open <==> Asking(PcOf(s', u))
      ensures u in r.open ==> Carried(PcOf(s', u)) == r.args[r.open[u]]
    {
      assert u != t ==> PcOf(s', u) == PcOf(s, u);
    }
  }

  lemma AccountedStep(l: Ledger<Data>, s: State, t: Tid, act: Action, s': State)
    requires Accounted(l, s) && s' == Step(s, t, act) && !PcOf(s', t).Wild?
    ensures Accounted(Next(l, s, t, act, s'), s')
  {
    StepLocal(Enqueuing, s, t, act, s');
    assert OthersStay(s, t, s');
    if !Asking(PcOf(s, t)) {
      OtherStep(s, t, act, s');
      if PcOf(s, t).Idle? && act.CallEnQ? {
        CallMade(l, s, t, act.d, s');
      } else {
        GoesOn(l, s, t, s');
      }
    } else if PcOf(s, t).EnqCas1? {
      Cas1Step(s, t, act, s');
      if s'.h.log != s.h.log {
        Settles(l, s, t, s');
      } else {
        GoesOn(l, s, t, s');
      }
    } else {
      AskingStep(s, t, act, s');
      GoesOn(l, s, t, s');
    }
  }

  /** In every run every value enqueued is the argument of an EnQ call, of each at most once, and
      every EnQ call has either enqueued its argument or is under way before its CAS 1 with it. */
  lemma {:induction false} EnQAsCalled(c: int, dummy: Addr, moves: seq<Move>)
    ensures Accounted(EnQCalls(c, dummy, moves), Exec(Init(c, dummy), moves))
    decreases |moves|
  {
    if moves != [] {
      var before, m := moves[..|moves| - 1], moves[|moves| - 1];
      EnQAsCalled(c, dummy, before);
      Safety(c, dummy, moves);
      var s, s' := Exec(Init(c, dummy), before), Exec(Init(c, dummy), moves);
      AccountedStep(EnQCalls(c, dummy, before), s, m.t, m.act, s');
    }
  }

  /** The arguments of the EnQ calls of a run, by its moves: those made by an idle thread. */
  function Arguments(c: int, dummy: Addr, moves: seq<Move>): seq<Data>
    decreases |moves|
  {
    if moves == [] then [] else
    var before, m := moves[..|moves| - 1], moves[|moves| - 1];
    if PcOf(Exec(Init(c, dummy), before), m.t).Idle? && m.act.CallEnQ? then Arguments(c, dummy, before) + [m.act.d]
    else Arguments(c, dummy, before)
  }

  lemma {:induction false} ArgumentsAre(c: int, dummy: Addr, moves: seq<Move>)
    ensures EnQCalls(c, dummy, moves).args == Arguments(c, dummy, moves)
    decreases |moves|
  {
    if moves != [] {
      ArgumentsAre(c, dummy, moves[..|moves| - 1]);
    }
  }

  /** So nothing comes out of the queue that was not put in, and nothing more often. */
  lemma NothingInvented(c: int, dummy: Addr, moves: seq<Move>)
    ensures var log, args := Exec(Init(c, dummy), moves).h.log, multiset(Arguments(c, dummy, moves));
            multiset(Enqueued(log)) <= args && multiset(Dequeued(log)) <= args
  {
    EnQAsCalled(c, dummy, moves);
    ArgumentsAre(c, dummy, moves);
    AtMostOnce(EnQCalls(c, dummy, moves));
    Delivery(c, dummy, moves);
    var s := Exec(Init(c, dummy), moves);
    PrefixBag(Dequeued(s.h.log), Enqueued(s.h.log));
  }

  lemma PrefixBag(xs: seq<Data>, ys: seq<Data>)
    requires xs <= ys
    ensures multiset(xs) <= multiset(ys)
  {
    assert ys == xs + ys[|xs|..];
  }
}
