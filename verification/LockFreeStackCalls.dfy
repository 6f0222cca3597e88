/** What is pushed is what Push was called with, once per call. */
module LockFreeStackCalls {
  import opened Ledgers
  import opened LockFreeStack
  import opened LockFreeStackProof

  /** In Push, before its CAS has worked. */
  predicate Asking(pc: Pc) {
    pc.PushAlloc? || Pushing(pc)
  }

  predicate Pushes(s: State, s': State) {
    |s'.h.log| > |s.h.log| && s'.h.log[|s'.h.log| - 1].Pushed?
  }

  function Next(l: Ledger<Data>, s: State, t: Tid, act: Action, s': State): Ledger<Data> {
    if PcOf(s, t).Idle? && act.CallPush? then Called(l, t, act.d)
    else if Pushes(s, s') then Settled(l, t)
    else l
  }

  /** The Push calls of a run: an idle thread makes one when it moves so, and it takes effect when the log
      gets a Pushed by a step of that thread. */
  function PushCalls(moves: seq<Move>): Ledger<Data>
    decreases |moves|
  {
    if moves == [] then Empty() else
    var before, m := moves[..|moves| - 1], moves[|moves| - 1];
    Next(PushCalls(before), Exec(before), m.t, m.act, Exec(moves))
  }

  function PushedValues(log: seq<Event>): seq<Data> {
    if log == [] then []
    else
      var e := log[|log| - 1];
      PushedValues(log[..|log| - 1]) + if e.Pushed? then [e.v] else []
  }

  /** The log has the arguments of the calls that took effect, and a thread carries that of its own. */
  ghost predicate Accounted(l: Ledger<Data>, s: State) {
    && Kept(l) && Effects(l) == PushedValues(s.h.log)
    && (forall t: Tid :: t in l.open <==> Asking(PcOf(s, t)))
    && (forall t: Tid :: t in l.open ==> PcOf(s, t).d == l.args[l.open[t]])
  }

  // Steps ------------------------------------------------------------------------------------

  ghost predicate OthersStay(s: State, t: Tid, s': State) {
    forall u: Tid :: u != t ==> PcOf(s', u) == PcOf(s, u)
  }

  lemma AskingStep(s: State, t: Tid, act: Action, s': State)
    requires s' == Step(s, t, act) && Asking(PcOf(s, t))
    ensures OthersStay(s, t, s')
    ensures if PcOf(s, t).PushCas? && s.top == PcOf(s, t).tt
            then s'.h.log == s.h.log + [Pushed(PcOf(s, t).d)] && !Asking(PcOf(s', t))
            else s'.h.log == s.h.log && Asking(PcOf(s', t)) && PcOf(s', t).d == PcOf(s, t).d
  {
  }

  lemma OtherStep(s: State, t: Tid, act: Action, s': State)
    requires s' == Step(s, t, act) && !Asking(PcOf(s, t))
    ensures OthersStay(s, t, s') && !Pushes(s, s') && PushedValues(s'.h.log) == PushedValues(s.h.log)
    ensures if PcOf(s, t).Idle? && act.CallPush? then PcOf(s', t) == PushAlloc(act.d) else !Asking(PcOf(s', t))
  {
    if PcOf(s, t).PopCas? {
      PopCasStep(s, t, act, s');
    } else {
      SilentStep(s, t, act, s');
    }
  }

  lemma PopCasStep(s: State, t: Tid, act: Action, s': State)
    requires s' == Step(s, t, act) && PcOf(s, t).PopCas?
    ensures OthersStay(s, t, s') && !Pushes(s, s') && PushedValues(s'.h.log) == PushedValues(s.h.log)
    ensures !Asking(PcOf(s', t))
  {
    assert s'.h.log != s.h.log ==> s'.h.log[..|s'.h.log| - 1] == s.h.log;
  }

  lemma SilentStep(s: State, t: Tid, act: Action, s': State)
    requires s' == Step(s, t, act) && !Asking(PcOf(s, t)) && !PcOf(s, t).PopCas?
    ensures OthersStay(s, t, s') && s'.h.log == s.h.log
    ensures if PcOf(s, t).Idle? && act.CallPush? then PcOf(s', t) == PushAlloc(act.d) else !Asking(PcOf(s', t))
  {
  }

  lemma GoesOn(l: Ledger<Data>, s: State, t: Tid, s': State)
    requires Accounted(l, s) && OthersStay(s, t, s') && PushedValues(s'.h.log) == PushedValues(s.h.log)
    requires Asking(PcOf(s', t)) <==> Asking(PcOf(s, t))
    requires Asking(PcOf(s, t)) ==> PcOf(s', t).d == PcOf(s, t).d
    ensures Accounted(l, s')
  {
    forall u: Tid
      ensures u in l.open <==> Asking(PcOf(s', u))
      ensures u in l.open ==> PcOf(s', u).d == l.args[l.open[u]]
    {
      assert u != t ==> PcOf(s', u) == PcOf(s, u);
    }
  }

  lemma CallMade(l: Ledger<Data>, s: State, t: Tid, d: Data, s': State)
    requires Accounted(l, s) && OthersStay(s, t, s') && PushedValues(s'.h.log) == PushedValues(s.h.log)
    requires !Asking(PcOf(s, t)) && PcOf(s', t) == PushAlloc(d)
    ensures Accounted(Called(l, t, d), s')
  {
    CalledKept(l, t, d);
    CalledEffects(l, t, d);
    var r := Called(l, t, d);
    forall u: Tid
      ensures u in r.open <==> Asking(PcOf(s', u))
      ensures u in r.open ==> PcOf(s', u).d == r.args[r.open[u]]
    {
      assert u != t ==> PcOf(s', u) == PcOf(s, u);
    }
  }

  lemma Settles(l: Ledger<Data>, s: State, t: Tid, s': State)
    requires Accounted(l, s) && OthersStay(s, t, s') && Asking(PcOf(s, t)) && !Asking(PcOf(s', t))
    requires s'.h.log == s.h.log + [Pushed(PcOf(s, t).d)]
    ensures Accounted(Settled(l, t), s')
  {
    SettledKept(l, t);
    SettledEffects(l, t);
    var r := Settled(l, t);
    assert s'.h.log[..|s'.h.log| - 1] == s.h.log;
    forall u: Tid
      ensures u in r.open <==> Asking(PcOf(s', u))
      ensures u in r.open ==> PcOf(s', u).d == r.args[r.open[u]]
    {
      assert u != t ==> PcOf(s', u) == PcOf(s, u);
    }
  }

  lemma AccountedStep(l: Ledger<Data>, s: State, t: Tid, act: Action, s': State)
    requires Accounted(l, s) && s' == Step(s, t, act)
    ensures Accounted(Next(l, s, t, act, s'), s')
  {
    if Asking(PcOf(s, t)) {
      AskingStep(s, t, act, s');
      if PcOf(s, t).PushCas? && s.top == PcOf(s, t).tt {
        Settles(l, s, t, s');
      } else {
        GoesOn(l, s, t, s');
      }
    } else {
      OtherStep(s, t, act, s');
      if PcOf(s, t).Idle? && act.CallPush? {
        CallMade(l, s, t, act.d, s');
      } else {
        GoesOn(l, s, t, s');
      }
    }
  }

  /** In every run every value pushed is the argument of a Push call, of each at most once, and every
      Push call has either pushed its argument or is under way before its CAS with it. */
  lemma {:induction false} PushAsCalled(moves: seq<Move>)
    ensures Accounted(PushCalls(moves), Exec(moves))
    decreases |moves|
  {
    if moves != [] {
      var before, m := moves[..|moves| - 1], moves[|moves| - 1];
      PushAsCalled(before);
      AccountedStep(PushCalls(before), Exec(before), m.t, m.act, Exec(moves));
    }
  }

  /** The arguments of the Push calls of a run, by its moves: those that idle threads make. */
  function Arguments(moves: seq<Move>): seq<Data>
    decreases |moves|
  {
    if moves == [] then [] else
    var before, m := moves[..|moves| - 1], moves[|moves| - 1];
    if PcOf(Exec(before), m.t).Idle? && m.act.CallPush? then Arguments(before) + [m.act.d] else Arguments(before)
  }

  lemma {:induction false} ArgumentsAre(moves: seq<Move>)
    ensures PushCalls(moves).args == Arguments(moves)
    decreases |moves|
  {
    if moves != [] {
      ArgumentsAre(moves[..|moves| - 1]);
    }
  }

  lemma {:induction false} PushedCount(log: seq<Event>, v: Data)
    ensures Count(log, Pushed(v)) == multiset(PushedValues(log))[v]
  {
    if log != [] {
      PushedCount(log[..|log| - 1], v);
    }
  }

  /** So no value comes out of the stack more often than Push was called with it. */
  lemma NothingInvented(moves: seq<Move>, v: Data)
    ensures Count(Exec(moves).h.log, Popped(v)) <= Count(Exec(moves).h.log, Pushed(v)) <= multiset(Arguments(moves))[v]
  {
    PushAsCalled(moves);
    ArgumentsAre(moves);
    AtMostOnce(PushCalls(moves));
    PushedCount(Exec(moves).h.log, v);
    ExecLog(moves);
    Conservation(Exec(moves).h.log, Replay(Exec(moves).h.log).value, v);
  }
}
