/**
 How the queue has to be used so that nobody reads a null pointer.

 The restriction is on the calls alone. It is either that calls of one kind are made one
 at a time, or that certain threads enqueue and certain threads dequeue.
 */
module LockFreeQUse {
  import opened LockFreeQ
  import opened LockFreeQInvariant
  import opened LockFreeQSteps

  datatype Side = Enqueuing | Dequeuing

  predicate InEnQ(pc: Pc) {
    match pc
    case Idle => false
    case Wild => false
    case Crashed(at) => InEnQ(at)
    case _ => !InDeQ(pc)
  }

  predicate Busy(side: Side, pc: Pc) {
    if side.Enqueuing? then InEnQ(pc) else InDeQ(pc)
  }

  predicate Calls(side: Side, act: Action) {
    if side.Enqueuing? then act.CallEnQ? else act.CallDeQ?
  }

  /** A null pointer was followed at `next`: in EnQ after a lost CAS 1, in DeQ from front. */
  predicate NullRead(side: Side, pc: Pc) {
    pc.Crashed? && if side.Enqueuing? then pc.at.EnqReadNext? else pc.at.DeqNext?
  }

  // One call at a time ---------------------------------------------------------------------

  ghost predicate Turn(side: Side, s: State, m: Move) {
    PcOf(s, m.t).Idle? && Calls(side, m.act) ==> forall u: Tid :: !Busy(side, PcOf(s, u))
  }

  /** Calls of one kind are made only while no such call is being executed. */
  ghost predicate OneAtATime(side: Side, s: State, moves: seq<Move>)
    decreases |moves|
  {
    moves == [] ||
    (var k := |moves| - 1;
     OneAtATime(side, s, moves[..k]) && Turn(side, Exec(s, moves[..k]), moves[k]))
  }

  ghost predicate AtMostOne(side: Side, s: State) {
    forall t: Tid, u: Tid :: Busy(side, PcOf(s, t)) && Busy(side, PcOf(s, u)) ==> t == u
  }

  lemma AtMostOneKept(side: Side, s: State, t: Tid, act: Action, s': State)
    requires AtMostOne(side, s) && Turn(side, s, Move(t, act)) && s' == Step(s, t, act)
    ensures AtMostOne(side, s')
  {
    StepLocal(side, s, t, act, s');
  }

  /** A step changes no other thread's counter, and enters a call only by calling. */
  lemma StepLocal(side: Side, s: State, t: Tid, act: Action, s': State)
    requires s' == Step(s, t, act)
    ensures forall u: Tid :: u != t ==> PcOf(s', u) == PcOf(s, u)
    ensures Busy(side, PcOf(s', t)) ==>
              Busy(side, PcOf(s, t)) || (PcOf(s, t).Idle? && Calls(side, act))
  {
    if InDeQ(PcOf(s, t)) {
      StepInDeQ(s, t, act, s');
    } else {
      StepInEnQ(s, t, act, s');
    }
  }

  lemma StepInDeQ(s: State, t: Tid, act: Action, s': State)
    requires s' == Step(s, t, act) && InDeQ(PcOf(s, t))
    ensures s'.pcs == s.pcs || (s'.pcs == s.pcs[t := PcOf(s', t)] && !InEnQ(PcOf(s', t)))
  {
  }

  lemma StepInEnQ(s: State, t: Tid, act: Action, s': State)
    requires s' == Step(s, t, act) && !InDeQ(PcOf(s, t))
    ensures s'.pcs == s.pcs || s'.pcs == s.pcs[t := PcOf(s', t)]
    ensures InEnQ(PcOf(s', t)) ==> InEnQ(PcOf(s, t)) || (PcOf(s, t).Idle? && act.CallEnQ?)
    ensures InDeQ(PcOf(s', t)) ==> PcOf(s, t).Idle? && act.CallDeQ?
  {
    if Before(PcOf(s, t)) {
      StepBefore(s, t, act, s');
    } else {
      StepAfter(s, t, act, s');
    }
  }

  /** Not in a call, or in EnQ up to the tag write. */
  predicate Before(pc: Pc) {
    pc.Idle? || pc.Crashed? || pc.Wild? || pc.EnqCheck? || pc.EnqAlloc? || Constructing(pc)
  }

  lemma StepBefore(s: State, t: Tid, act: Action, s': State)
    requires s' == Step(s, t, act) && !InDeQ(PcOf(s, t)) && Before(PcOf(s, t))
    ensures s'.pcs == s.pcs || s'.pcs == s.pcs[t := PcOf(s', t)]
    ensures InEnQ(PcOf(s', t)) ==> InEnQ(PcOf(s, t)) || (PcOf(s, t).Idle? && act.CallEnQ?)
    ensures InDeQ(PcOf(s', t)) ==> PcOf(s, t).Idle? && act.CallDeQ?
  {
  }

  lemma StepAfter(s: State, t: Tid, act: Action, s': State)
    requires s' == Step(s, t, act) && !InDeQ(PcOf(s, t)) && !Before(PcOf(s, t))
    ensures s'.pcs == s.pcs[t := PcOf(s', t)] && !InDeQ(PcOf(s', t))
  {
  }

  // Dequeuers ------------------------------------------------------------------------------

  /** tempFront is front. */
  predicate FrontFresh(s: State, pc: Pc) {
    match pc
    case DeqLoadId(fn) => fn == s.front.node
    case DeqNext(tf) => tf == s.front
    case DeqData(tf, _) => tf == s.front
    case DeqCas(tf, _, _) => tf == s.front
    case Crashed(at) => !at.DeqNext?
    case _ => true
  }

  ghost predicate AllFrontFresh(s: State) {
    forall t: Tid {:trigger PcOf(s, t)} :: FrontFresh(s, PcOf(s, t))
  }

  /** A dequeuer past the gate whose tempFront is front finds a successor. */
  lemma FrontHasNext(s: State, t: Tid)
    requires Inv(s) && PastGate(PcOf(s, t))
    ensures s.front.node in s.heap && s.heap[s.front.node].next.Ptr?
  {
    assert ThreadOk(s, t);
    FrontBehindRear(s);
    assert LinkOk(s, s.front.id);
  }

  lemma FrontFreshStep(s: State, t: Tid, act: Action, s': State)
    requires Inv(s) && FrontFresh(s, PcOf(s, t)) && InDeQ(PcOf(s, t)) && s' == Step(s, t, act)
    ensures FrontFresh(s', PcOf(s', t))
  {
    if PcOf(s, t).DeqNext? {
      FrontHasNext(s, t);
    }
  }

  lemma FrontKept(s: State, t: Tid, act: Action, s': State)
    requires s' == Step(s, t, act) && !InDeQ(PcOf(s, t)) && FrontFresh(s, PcOf(s, t))
    ensures s'.front == s.front && FrontFresh(s', PcOf(s', t))
  {
  }

  lemma FreshKept(s: State, t: Tid, act: Action, s': State)
    requires Inv(s) && AtMostOne(Dequeuing, s) && AllFrontFresh(s) && s' == Step(s, t, act)
    ensures AllFrontFresh(s')
  {
    StepLocal(Dequeuing, s, t, act, s');
    if InDeQ(PcOf(s, t)) {
      FrontFreshStep(s, t, act, s');
      forall u: Tid | u != t ensures FrontFresh(s', PcOf(s', u)) {
        assert !Busy(Dequeuing, PcOf(s, u)) && FrontFresh(s, PcOf(s, u));
      }
    } else {
      FrontKept(s, t, act, s');
      forall u: Tid ensures FrontFresh(s', PcOf(s', u)) {
        assert FrontFresh(s, PcOf(s, u));
      }
    }
  }

  lemma {:induction false} FreshInRun(c: int, dummy: Addr, moves: seq<Move>)
    requires OneAtATime(Dequeuing, Init(c, dummy), moves)
    ensures var s := Exec(Init(c, dummy), moves); Inv(s) && AtMostOne(Dequeuing, s) && AllFrontFresh(s)
    decreases |moves|
  {
    ExecInv(c, dummy, moves);
    if moves != [] {
      var k := |moves| - 1;
      FreshInRun(c, dummy, moves[..k]);
      var s := Exec(Init(c, dummy), moves[..k]);
      AtMostOneKept(Dequeuing, s, moves[k].t, moves[k].act, Exec(Init(c, dummy), moves));
      FreshKept(s, moves[k].t, moves[k].act, Exec(Init(c, dummy), moves));
    }
  }

  /** If DeQ is called by one thread at a time, whatever the enqueuers do, no DeQ reads null, its
      front node always has a successor, and its CAS succeeds at the first try. */
  lemma OneDeQ(c: int, dummy: Addr, moves: seq<Move>, t: Tid, s: State, pc: Pc)
    requires OneAtATime(Dequeuing, Init(c, dummy), moves)
    requires s == Exec(Init(c, dummy), moves) && pc == PcOf(s, t)
    ensures !NullRead(Dequeuing, pc)
    ensures pc.DeqNext? ==> pc.tf.node in s.heap && s.heap[pc.tf.node].next.Ptr?
    ensures pc.DeqCas? ==> s.front == pc.tf
  {
    FreshInRun(c, dummy, moves);
    assert FrontFresh(s, PcOf(s, t));
    if pc.DeqNext? {
      FrontHasNext(s, t);
    }
  }

  // Enqueuers ------------------------------------------------------------------------------

  /** tempRear is rear, and nobody has to help. */
  predicate RearFresh(s: State, pc: Pc) {
    match pc
    case EnqLoadId(_, _, _, rn) => rn == s.rear.node
    case EnqCas1(_, _, _, tr, _) => tr == s.rear
    case EnqReadNext(_, _, _, _, _) => false
    case EnqReadTag(_, _, _, _, _, _) => false
    case EnqHelp(_, _, _, _, _, _, _) => false
    case EnqReRead(_, tr, _) => tr == s.rear
    case EnqCas2(_, tr, _, _) => tr == s.rear
    case Crashed(at) => !at.EnqReadNext?
    case _ => true
  }

  /** Rear is the last linked node, except between the two CASes of the one EnQ. */
  ghost predicate RearIsTail(s: State) {
    s.h.rp + 1 == |s.h.links| || exists t: Tid :: PcOf(s, t).EnqReRead? || PcOf(s, t).EnqCas2?
  }

  ghost predicate AllRearFresh(s: State) {
    RearIsTail(s) && forall t: Tid {:trigger PcOf(s, t)} :: RearFresh(s, PcOf(s, t))
  }

  /** CAS 1 finds the tag it expects. */
  lemma Cas1Finds(s: State, t: Tid)
    requires Inv(s) && AtMostOne(Enqueuing, s) && AllRearFresh(s) && PcOf(s, t).EnqCas1?
    ensures var tr := PcOf(s, t).tr; tr.node in s.heap && s.heap[tr.node].next == tr.id
    ensures s.h.rp + 1 == |s.h.links|
  {
    assert RearFresh(s, PcOf(s, t)) && Busy(Enqueuing, PcOf(s, t));
    if u: Tid :| PcOf(s, u).EnqReRead? || PcOf(s, u).EnqCas2? {
      assert Busy(Enqueuing, PcOf(s, u));
    }
    assert LinkOk(s, s.h.rp);
  }

  lemma RearFreshStep(s: State, t: Tid, act: Action, s': State)
    requires Inv(s) && AtMostOne(Enqueuing, s) && AllRearFresh(s) && InEnQ(PcOf(s, t)) && s' == Step(s, t, act)
    ensures RearFresh(s', PcOf(s', t))
  {
    assert RearFresh(s, PcOf(s, t));
    if PcOf(s, t).EnqCas1? {
      Cas1Finds(s, t);
    }
  }

  lemma TailKept(s: State, t: Tid, act: Action, s': State)
    requires Inv(s) && AtMostOne(Enqueuing, s) && AllRearFresh(s) && InEnQ(PcOf(s, t)) && s' == Step(s, t, act)
    ensures RearIsTail(s')
  {
    assert ThreadOk(s, t) && RearFresh(s, PcOf(s, t)) && Busy(Enqueuing, PcOf(s, t));
    var pc := PcOf(s, t);
    if pc.EnqCas1? {
      Cas1Finds(s, t);
      assert PcOf(s', t).EnqReRead?;
    } else if pc.EnqReRead? {
      assert PcOf(s', t).EnqCas2?;
    } else if pc.EnqCas2? {
      RearPosition(s, pc.tr, pc.j);
      assert s'.h.rp + 1 == |s'.h.links|;
    } else {
      forall u: Tid | PcOf(s, u).EnqReRead? || PcOf(s, u).EnqCas2? ensures false {
        assert Busy(Enqueuing, PcOf(s, u));
      }
      QuietStep(s, t, act, s');
    }
  }

  /** Steps that touch neither rear nor the list. */
  lemma QuietStep(s: State, t: Tid, act: Action, s': State)
    requires s' == Step(s, t, act) && RearFresh(s, PcOf(s, t))
    requires !PcOf(s, t).EnqCas1? && !PcOf(s, t).EnqCas2?
    ensures s'.rear == s.rear && s'.h.rp == s.h.rp && s'.h.links == s.h.links
    ensures !InEnQ(PcOf(s, t)) ==> RearFresh(s', PcOf(s', t)) && !PcOf(s', t).EnqReRead? && !PcOf(s', t).EnqCas2?
  {
    if InDeQ(PcOf(s, t)) {
      QuietInDeQ(s, t, act, s');
      StepInDeQ(s, t, act, s');
    } else {
      QuietInEnQ(s, t, act, s');
    }
  }

  lemma QuietInDeQ(s: State, t: Tid, act: Action, s': State)
    requires s' == Step(s, t, act) && InDeQ(PcOf(s, t))
    ensures s'.rear == s.rear && s'.h.rp == s.h.rp && s'.h.links == s.h.links
  {
  }

  lemma QuietInEnQ(s: State, t: Tid, act: Action, s': State)
    requires s' == Step(s, t, act) && !InDeQ(PcOf(s, t)) && RearFresh(s, PcOf(s, t))
    requires !PcOf(s, t).EnqCas1? && !PcOf(s, t).EnqCas2?
    ensures s'.rear == s.rear && s'.h.rp == s.h.rp && s'.h.links == s.h.links
    ensures !InEnQ(PcOf(s, t)) ==> RearFresh(s', PcOf(s', t)) && !PcOf(s', t).EnqReRead? && !PcOf(s', t).EnqCas2?
  {
  }

  lemma RearKeptInEnQ(s: State, t: Tid, act: Action, s': State)
    requires Inv(s) && AtMostOne(Enqueuing, s) && AllRearFresh(s) && InEnQ(PcOf(s, t)) && s' == Step(s, t, act)
    ensures AllRearFresh(s')
  {
    StepLocal(Enqueuing, s, t, act, s');
    RearFreshStep(s, t, act, s');
    TailKept(s, t, act, s');
    forall u: Tid | u != t ensures RearFresh(s', PcOf(s', u)) {
      assert Busy(Enqueuing, PcOf(s, t)) && !Busy(Enqueuing, PcOf(s, u)) && RearFresh(s, PcOf(s, u));
    }
  }

  lemma RearKeptElsewhere(s: State, t: Tid, act: Action, s': State)
    requires AllRearFresh(s) && !InEnQ(PcOf(s, t)) && s' == Step(s, t, act)
    ensures AllRearFresh(s')
  {
    StepLocal(Enqueuing, s, t, act, s');
    assert RearFresh(s, PcOf(s, t));
    QuietStep(s, t, act, s');
    if u: Tid :| PcOf(s, u).EnqReRead? || PcOf(s, u).EnqCas2? {
      assert PcOf(s', u) == PcOf(s, u);
    }
    forall u: Tid ensures RearFresh(s', PcOf(s', u)) {
      assert RearFresh(s, PcOf(s, u));
    }
  }

  lemma RearKept(s: State, t: Tid, act: Action, s': State)
    requires Inv(s) && AtMostOne(Enqueuing, s) && AllRearFresh(s) && s' == Step(s, t, act)
    ensures AllRearFresh(s')
  {
    if InEnQ(PcOf(s, t)) {
      RearKeptInEnQ(s, t, act, s');
    } else {
      RearKeptElsewhere(s, t, act, s');
    }
  }

  lemma {:induction false} RearInRun(c: int, dummy: Addr, moves: seq<Move>)
    requires OneAtATime(Enqueuing, Init(c, dummy), moves)
    ensures var s := Exec(Init(c, dummy), moves); Inv(s) && AtMostOne(Enqueuing, s) && AllRearFresh(s)
    decreases |moves|
  {
    ExecInv(c, dummy, moves);
    if moves != [] {
      var k := |moves| - 1;
      RearInRun(c, dummy, moves[..k]);
      var s := Exec(Init(c, dummy), moves[..k]);
      AtMostOneKept(Enqueuing, s, moves[k].t, moves[k].act, Exec(Init(c, dummy), moves));
      RearKept(s, moves[k].t, moves[k].act, Exec(Init(c, dummy), moves));
    }
  }

  /** If EnQ is called by one thread at a time, whatever the dequeuers do, no EnQ reads null,
      tempRear is rear, and CAS 1 succeeds at the first try. */
  lemma OneEnQ(c: int, dummy: Addr, moves: seq<Move>, t: Tid, s: State, pc: Pc)
    requires OneAtATime(Enqueuing, Init(c, dummy), moves)
    requires s == Exec(Init(c, dummy), moves) && pc == PcOf(s, t)
    ensures !NullRead(Enqueuing, pc) && !pc.EnqReadNext?
    ensures pc.EnqCas1? ==> pc.tr == s.rear && pc.tr.node in s.heap && s.heap[pc.tr.node].next == pc.tr.id
  {
    RearInRun(c, dummy, moves);
    assert RearFresh(s, PcOf(s, t));
    if pc.EnqCas1? {
      Cas1Finds(s, t);
    }
  }

  // By threads -----------------------------------------------------------------------------

  /** EnQ is called only by threads in e, DeQ only by threads in d. */
  predicate Roles(moves: seq<Move>, e: set<Tid>, d: set<Tid>) {
    forall i {:trigger moves[i]} :: 0 <= i < |moves| ==>
      (moves[i].act.CallEnQ? ==> moves[i].t in e) && (moves[i].act.CallDeQ? ==> moves[i].t in d)
  }

  lemma RolesPrefix(moves: seq<Move>, e: set<Tid>, d: set<Tid>)
    requires Roles(moves, e, d) && moves != []
    ensures Roles(moves[..|moves| - 1], e, d)
  {
    var before := moves[..|moves| - 1];
    forall i | 0 <= i < |before|
      ensures (before[i].act.CallEnQ? ==> before[i].t in e) && (before[i].act.CallDeQ? ==> before[i].t in d)
    {
      assert before[i] == moves[i];
    }
  }

  function Users(side: Side, e: set<Tid>, d: set<Tid>): set<Tid> {
    if side.Enqueuing? then e else d
  }

  lemma {:induction false} OnlyUsers(c: int, dummy: Addr, moves: seq<Move>,
                                     side: Side, e: set<Tid>, d: set<Tid>, t: Tid)
    requires Roles(moves, e, d) && Busy(side, PcOf(Exec(Init(c, dummy), moves), t))
    ensures t in Users(side, e, d)
    decreases |moves|
  {
    if moves != [] {
      var k := |moves| - 1;
      var s := Exec(Init(c, dummy), moves[..k]);
      StepLocal(side, s, moves[k].t, moves[k].act, Exec(Init(c, dummy), moves));
      if Busy(side, PcOf(s, t)) {
        RolesPrefix(moves, e, d);
        OnlyUsers(c, dummy, moves[..k], side, e, d, t);
      } else {
        assert moves[k].t == t;
      }
    }
  }

  /** A single user makes its calls one at a time. */
  lemma {:induction false} SingleUser(c: int, dummy: Addr, moves: seq<Move>,
                                      side: Side, e: set<Tid>, d: set<Tid>, x: Tid)
    requires Roles(moves, e, d) && Users(side, e, d) == {x}
    ensures OneAtATime(side, Init(c, dummy), moves)
    decreases |moves|
  {
    if moves != [] {
      var k := |moves| - 1;
      var s := Exec(Init(c, dummy), moves[..k]);
      RolesPrefix(moves, e, d);
      SingleUser(c, dummy, moves[..k], side, e, d, x);
      if PcOf(s, moves[k].t).Idle? && Calls(side, moves[k].act) {
        assert moves[k].t == x;
        forall u: Tid ensures !Busy(side, PcOf(s, u)) {
          if Busy(side, PcOf(s, u)) {
            OnlyUsers(c, dummy, moves[..k], side, e, d, u);
          }
        }
      }
    }
  }
}
