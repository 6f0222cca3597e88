/** The jobs of a queue are the ones Push was called with, once per call. */
module JobDispatcherCalls {
  import opened Ledgers
  import opened JobDispatcher
  import opened JobDispatcherProof
  import opened JobDispatcherRuns

  datatype Order = Order(q: Qid, j: Job)

  /** In Push, before the append. */
  predicate Asking(pc: Pc) {
    pc.PushLock? || pc.PushAppend?
  }

  function Next(l: Ledger<Order>, s: State, t: Tid, act: Action): Ledger<Order> {
    if PcOf(s, t).Idle? && act.CallPush? then Called(l, t, Order(act.q, act.j))
    else if PcOf(s, t).PushAppend? then Settled(l, t)
    else l
  }

  /** The Push calls of a run: an idle thread makes one when it moves so, and it takes effect with the
      append. */
  function PushCalls(moves: seq<Move>): Ledger<Order>
    decreases |moves|
  {
    if moves == [] then Empty() else
    var before, m := moves[..|moves| - 1], moves[|moves| - 1];
    Next(PushCalls(before), Exec(before), m.t, m.act)
  }

  /** The jobs of queue q among the orders, in their order. */
  function JobsOf(orders: seq<Order>, q: Qid): seq<Job> {
    if orders == [] then [] else
    var o := orders[|orders| - 1];
    JobsOf(orders[..|orders| - 1], q) + if o.q == q then [o.j] else []
  }

  lemma JobsOfMore(orders: seq<Order>, o: Order, q: Qid)
    ensures JobsOf(orders + [o], q) == JobsOf(orders, q) + if o.q == q then [o.j] else []
  {
    assert (orders + [o])[..|orders|] == orders;
  }

  ghost predicate QueueAccounted(l: Ledger<Order>, s: State, q: Qid)
    requires InRange(l)
  {
    QueueOf(s, q).pushed == JobsOf(Effects(l), q)
  }

  ghost predicate ThreadAccounted(l: Ledger<Order>, s: State, t: Tid)
    requires InRange(l)
  {
    && (t in l.open <==> Asking(PcOf(s, t)))
    && (t in l.open ==> l.args[l.open[t]] == Order(PcOf(s, t).q, PcOf(s, t).j))
  }

  /** The jobs of each queue are those of the calls that took effect, in this order, and a thread
      carries the queue and the job of its own call. */
  ghost predicate Accounted(l: Ledger<Order>, s: State) {
    && Kept(l)
    && (forall q: Qid {:trigger QueueAccounted(l, s, q)} :: QueueAccounted(l, s, q))
    && (forall t: Tid {:trigger ThreadAccounted(l, s, t)} :: ThreadAccounted(l, s, t))
  }

  lemma AskStep(s: State, t: Tid, act: Action, s': State)
    requires s' == Step(s, t, act) && (PcOf(s, t).PushLock? || PcOf(s, t).Idle?)
    ensures forall q: Qid {:trigger QueueOf(s', q)} :: QueueOf(s', q).pushed == QueueOf(s, q).pushed
    ensures if PcOf(s, t).Idle? && act.CallPush? then PcOf(s', t) == PushLock(act.q, act.j)
            else Asking(PcOf(s', t)) <==> Asking(PcOf(s, t))
    ensures PcOf(s, t).PushLock? ==> PcOf(s', t).q == PcOf(s, t).q && PcOf(s', t).j == PcOf(s, t).j
  {
  }

  lemma AppendStep(s: State, t: Tid, act: Action, s': State)
    requires s' == Step(s, t, act) && PcOf(s, t).PushAppend?
    ensures !Asking(PcOf(s', t))
    ensures forall q: Qid {:trigger QueueOf(s', q)} :: QueueOf(s', q).pushed ==
              QueueOf(s, q).pushed + if q == PcOf(s, t).q then [PcOf(s, t).j] else []
  {
  }

  lemma OtherStep(s: State, t: Tid, act: Action, s': State)
    requires s' == Step(s, t, act) && !Asking(PcOf(s, t)) && !PcOf(s, t).Idle?
    ensures !Asking(PcOf(s', t))
    ensures forall q: Qid {:trigger QueueOf(s', q)} :: QueueOf(s', q).pushed == QueueOf(s, q).pushed
  {
    if Pushing(PcOf(s, t)) {
      PusherStep(s, t, act, s');
    } else {
      WorkerStep(s, t, act, s');
    }
  }

  lemma PusherStep(s: State, t: Tid, act: Action, s': State)
    requires s' == Step(s, t, act) && !Asking(PcOf(s, t)) && Pushing(PcOf(s, t))
    ensures !Asking(PcOf(s', t))
    ensures forall q: Qid {:trigger QueueOf(s', q)} :: QueueOf(s', q).pushed == QueueOf(s, q).pushed
  {
  }

  lemma WorkerStep(s: State, t: Tid, act: Action, s': State)
    requires s' == Step(s, t, act) && !Pushing(PcOf(s, t)) && !PcOf(s, t).Idle?
    ensures !Asking(PcOf(s', t))
    ensures forall q: Qid {:trigger QueueOf(s', q)} :: QueueOf(s', q).pushed == QueueOf(s, q).pushed
  {
    if Taking(PcOf(s, t)) {
      TakerStep(s, t, act, s');
    } else {
      RunnerStep(s, t, act, s');
    }
  }

  predicate Taking(pc: Pc) {
    pc.WorkTest? || pc.WorkPop? || pc.WorkSwap? || pc.Stopped?
  }

  lemma TakerStep(s: State, t: Tid, act: Action, s': State)
    requires s' == Step(s, t, act) && Taking(PcOf(s, t))
    ensures !Asking(PcOf(s', t))
    ensures forall q: Qid {:trigger QueueOf(s', q)} :: QueueOf(s', q).pushed == QueueOf(s, q).pushed
  {
  }

  lemma RunnerStep(s: State, t: Tid, act: Action, s': State)
    requires s' == Step(s, t, act) && !Pushing(PcOf(s, t)) && !PcOf(s, t).Idle? && !Taking(PcOf(s, t))
    ensures !Asking(PcOf(s', t))
    ensures forall q: Qid {:trigger QueueOf(s', q)} :: QueueOf(s', q).pushed == QueueOf(s, q).pushed
  {
  }

  lemma GoesOn(l: Ledger<Order>, s: State, t: Tid, s': State)
    requires Accounted(l, s) && forall u: Tid :: u != t ==> PcOf(s', u) == PcOf(s, u)
    requires forall q: Qid {:trigger QueueOf(s', q)} :: QueueOf(s', q).pushed == QueueOf(s, q).pushed
    requires Asking(PcOf(s', t)) <==> Asking(PcOf(s, t))
    requires Asking(PcOf(s, t)) ==> PcOf(s', t).q == PcOf(s, t).q && PcOf(s', t).j == PcOf(s, t).j
    ensures Accounted(l, s')
  {
    forall q: Qid ensures QueueAccounted(l, s', q) {
      assert QueueAccounted(l, s, q);
    }
    forall u: Tid ensures ThreadAccounted(l, s', u) {
      assert ThreadAccounted(l, s, u);
    }
  }

  lemma CallMade(l: Ledger<Order>, s: State, t: Tid, o: Order, s': State)
    requires Accounted(l, s) && forall u: Tid :: u != t ==> PcOf(s', u) == PcOf(s, u)
    requires forall q: Qid {:trigger QueueOf(s', q)} :: QueueOf(s', q).pushed == QueueOf(s, q).pushed
    requires !Asking(PcOf(s, t)) && PcOf(s', t) == PushLock(o.q, o.j)
    ensures Accounted(Called(l, t, o), s')
  {
    assert ThreadAccounted(l, s, t);
    CalledKept(l, t, o);
    CalledEffects(l, t, o);
    var r := Called(l, t, o);
    forall q: Qid ensures QueueAccounted(r, s', q) {
      assert QueueAccounted(l, s, q);
    }
    forall u: Tid ensures ThreadAccounted(r, s', u) {
      assert ThreadAccounted(l, s, u);
    }
  }

  lemma Settles(l: Ledger<Order>, s: State, t: Tid, s': State)
    requires Accounted(l, s) && forall u: Tid :: u != t ==> PcOf(s', u) == PcOf(s, u)
    requires PcOf(s, t).PushAppend? && !Asking(PcOf(s', t))
    requires forall q: Qid {:trigger QueueOf(s', q)} :: QueueOf(s', q).pushed ==
               QueueOf(s, q).pushed + if q == PcOf(s, t).q then [PcOf(s, t).j] else []
    ensures Accounted(Settled(l, t), s')
  {
    assert ThreadAccounted(l, s, t);
    SettledKept(l, t);
    SettledEffects(l, t);
    var r := Settled(l, t);
    forall q: Qid ensures QueueAccounted(r, s', q) {
      assert QueueAccounted(l, s, q);
      JobsOfMore(Effects(l), l.args[l.open[t]], q);
    }
    forall u: Tid ensures ThreadAccounted(r, s', u) {
      assert ThreadAccounted(l, s, u);
    }
  }

  lemma AccountedStep(l: Ledger<Order>, s: State, t: Tid, act: Action, s': State)
    requires Accounted(l, s) && s' == Step(s, t, act)
    ensures Accounted(Next(l, s, t, act), s')
  {
    StopStep(s, t, act, s');
    if PcOf(s, t).PushAppend? {
      AppendStep(s, t, act, s');
      Settles(l, s, t, s');
    } else if PcOf(s, t).Idle? || PcOf(s, t).PushLock? {
      AskStep(s, t, act, s');
      if PcOf(s, t).Idle? && act.CallPush? {
        CallMade(l, s, t, Order(act.q, act.j), s');
      } else {
        GoesOn(l, s, t, s');
      }
    } else {
      OtherStep(s, t, act, s');
      GoesOn(l, s, t, s');
    }
  }

  /** In every run the jobs appended to a queue are exactly those that Push was called with for it, each
      call counting once; every call has appended its job or is about to. */
  lemma {:induction false} PushAsCalled(moves: seq<Move>)
    ensures Accounted(PushCalls(moves), Exec(moves))
    decreases |moves|
  {
    if moves != [] {
      var before, m := moves[..|moves| - 1], moves[|moves| - 1];
      PushAsCalled(before);
      AccountedStep(PushCalls(before), Exec(before), m.t, m.act, Exec(moves));
    }
  }

  /** What Push was called with, by the moves: the calls that idle threads make. */
  function Orders(moves: seq<Move>): seq<Order>
    decreases |moves|
  {
    if moves == [] then [] else
    var before, m := moves[..|moves| - 1], moves[|moves| - 1];
    if PcOf(Exec(before), m.t).Idle? && m.act.CallPush? then Orders(before) + [Order(m.act.q, m.act.j)]
    else Orders(before)
  }

  lemma {:induction false} OrdersAre(moves: seq<Move>)
    ensures PushCalls(moves).args == Orders(moves)
    decreases |moves|
  {
    if moves != [] {
      OrdersAre(moves[..|moves| - 1]);
    }
  }

  /** When no Push is under way, the jobs of each queue are the ones it was given, in some order of the
      calls. */
  lemma AllPushed(moves: seq<Move>)
    requires forall t: Tid :: !Asking(PcOf(Exec(moves), t))
    ensures var l := PushCalls(moves);
            && Kept(l) && l.open == map[] && l.args == Orders(moves) && |Effects(l)| == |l.order|
            && forall q: Qid {:trigger QueueOf(Exec(moves), q)} ::
                 QueueOf(Exec(moves), q).pushed == JobsOf(Effects(l), q)
  {
    var l := PushCalls(moves);
    PushAsCalled(moves);
    OrdersAre(moves);
    forall t: Tid ensures t !in l.open {
      assert ThreadAccounted(l, Exec(moves), t);
    }
    forall q: Qid ensures QueueOf(Exec(moves), q).pushed == JobsOf(Effects(l), q) {
      assert QueueAccounted(l, Exec(moves), q);
    }
  }
}
