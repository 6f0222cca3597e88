/** Runs in which a null pointer is read, and for which users of the queue there are such runs. */
module LockFreeQNullRuns {
  import opened LockFreeQ
  import opened LockFreeQUse
  import opened LockFreeQSolo

  /** Some run in which only threads of e call EnQ and only threads of d call DeQ leads from the
      constructor's state to s. */
  ghost predicate Reaches(e: set<Tid>, d: set<Tid>, s: State) {
    exists moves :: Roles(moves, e, d) && Exec(Start(), moves) == s
  }

  /** Room for more than a hundred values; the dummy node is node 0. */
  function Start(): State {
    Init(100, 0)
  }

  lemma ReachesStart(e: set<Tid>, d: set<Tid>)
    ensures Reaches(e, d, Start())
  {
    var none: seq<Move> := [];
    assert Roles(none, e, d) && Exec(Start(), none) == Start();
  }

  lemma {:induction false} ExecAppend(s: State, moves: seq<Move>, more: seq<Move>)
    ensures Exec(s, moves + more) == Exec(Exec(s, moves), more)
    decreases |more|
  {
    if more == [] {
      assert moves + more == moves;
    } else {
      assert (moves + more)[..|moves + more| - 1] == moves + more[..|more| - 1];
      ExecAppend(s, moves, more[..|more| - 1]);
    }
  }

  lemma RolesAppend(moves: seq<Move>, more: seq<Move>, e: set<Tid>, d: set<Tid>)
    requires Roles(moves, e, d) && Roles(more, e, d)
    ensures Roles(moves + more, e, d)
  {
    var all := moves + more;
    forall i | 0 <= i < |all|
      ensures (all[i].act.CallEnQ? ==> all[i].t in e) && (all[i].act.CallDeQ? ==> all[i].t in d)
    {
      assert all[i] == if i < |moves| then moves[i] else more[i - |moves|];
    }
  }

  lemma ReachesMore(e: set<Tid>, d: set<Tid>, s: State, more: seq<Move>)
    requires Reaches(e, d, s) && Roles(more, e, d)
    ensures Reaches(e, d, Exec(s, more))
  {
    var moves :| Roles(moves, e, d) && Exec(Start(), moves) == s;
    RolesAppend(moves, more, e, d);
    ExecAppend(Start(), moves, more);
  }

  lemma ReachesStep(e: set<Tid>, d: set<Tid>, s: State, t: Tid, act: Action)
    requires Reaches(e, d, s) && (act.CallEnQ? ==> t in e) && (act.CallDeQ? ==> t in d)
    ensures Reaches(e, d, Step(s, t, act))
  {
    var m := [Move(t, act)];
    assert m[..0] == [] && Exec(s, m) == Step(s, t, act);
    ReachesMore(e, d, s, m);
  }

  lemma ReachesAlone(e: set<Tid>, d: set<Tid>, t: Tid, s: State, s': State)
    requires Reaches(e, d, s) && Alone(t, s, s')
    ensures Reaches(e, d, s')
  {
    var more := AloneIsExec(t, s, s');
    ReachesMore(e, d, s, more);
  }

  // Whole calls ----------------------------------------------------------------------------

  /** An EnQ call of x, from start to end. */
  lemma Enqueues(e: set<Tid>, d: set<Tid>, s: State, x: Tid, v: Data, a: Addr) returns (s': State)
    requires Reaches(e, d, s) && x in e && PcOf(s, x) == Idle && s.count <= s.maxCount
    requires a !in s.heap && s.rear.node in s.heap && s.heap[s.rear.node].next == s.rear.id
    ensures Reaches(e, d, s') && SameReal(s', Appended(s, x, v, a))
  {
    var s1 := Go(s, x, EnqCheck(v));
    ReachesStep(e, d, s, x, CallEnQ(v));
    AloneStart(x, s1);
    s' := EnqAtTail(s1, s1, x, v, a);
    ReachesAlone(e, d, x, s1, s');
    assert s1.pcs[x := Idle] == s.pcs[x := Idle];
  }

  function Removed(s: State, x: Tid, m: Addr): State {
    s.(count := s.count - 1, front := Front(m, s.front.id + 1), pool := s.pool + {s.front.node},
       pcs := s.pcs[x := Idle])
  }

  /** A DeQ call of x, from start to end. */
  lemma Dequeues(e: set<Tid>, d: set<Tid>, s: State, x: Tid, m: Addr) returns (s': State)
    requires Reaches(e, d, s) && x in d && PcOf(s, x) == Idle && 1 <= s.count
    requires s.front.node in s.heap && s.heap[s.front.node].next == Ptr(m) && m in s.heap
    ensures Reaches(e, d, s') && SameReal(s', Removed(s, x, m))
  {
    var s1 := Go(s, x, DeqGate);
    ReachesStep(e, d, s, x, CallDeQ);
    AloneStart(x, s1);
    s' := DeqAtFront(s1, s1, x, m);
    ReachesAlone(e, d, x, s1, s');
    assert s1.pcs[x := Idle] == s.pcs[x := Idle];
  }

  /** The start of an EnQ call of x, in which the freed node 0 is constructed again. */
  lemma Reuses(e: set<Tid>, d: set<Tid>, s: State, x: Tid) returns (s': State)
    requires Reaches(e, d, s) && x in e && PcOf(s, x) == Idle && s.count <= s.maxCount && 0 in s.pool
    ensures Reaches(e, d, s') && 0 in s'.heap && s'.heap[0].next == Null
    ensures forall t: Tid :: t != x ==> PcOf(s', t) == PcOf(s, t)
  {
    var s1 := Go(s, x, EnqCheck(9));
    ReachesStep(e, d, s, x, CallEnQ(9));
    AloneStart(x, s1);
    s' := CheckAlloc(s1, s1, x, 9, 0);
    ReachesAlone(e, d, x, s1, s');
  }

  // A dequeuer reads null ------------------------------------------------------------------

  lemma TwoEnqueued(e: set<Tid>, d: set<Tid>, x: Tid) returns (s: State)
    requires x in e
    ensures Reaches(e, d, s) && forall u: Tid :: PcOf(s, u) == Idle
    ensures s.front == Front(0, 0) && s.count == 2 && s.maxCount == 100
    ensures 0 in s.heap && s.heap[0].next == Ptr(1) && 1 in s.heap
  {
    ReachesStart(e, d);
    var s1 := Enqueues(e, d, Start(), x, 7, 1);
    s := Enqueues(e, d, s1, x, 8, 2);
  }

  /** Two enqueues; t reads front; y dequeues, which frees node 0. */
  lemma StaleDequeuer(e: set<Tid>, d: set<Tid>, x: Tid, t: Tid, y: Tid) returns (s: State)
    requires x in e && t in d && y in d && t != x && t != y
    ensures Reaches(e, d, s) && s.count <= s.maxCount && 0 in s.pool
    ensures PcOf(s, x) == Idle && PcOf(s, t) == DeqNext(Front(0, 0))
  {
    var s1 := TwoEnqueued(e, d, x);
    assert PcOf(s1, t) == Idle && PcOf(s1, x) == Idle && PcOf(s1, y) == Idle;
    var s2 := Go(s1, t, DeqGate);
    ReachesStep(e, d, s1, t, CallDeQ);
    AloneStart(t, s2);
    var s3 := DeqStarts(s2, s2, t);
    ReachesAlone(e, d, t, s2, s3);
    s := Dequeues(e, d, s3, y, 1);
  }

  /** With two dequeuers t and y there is a run in which t reads null. */
  lemma DeqNullReadHappens(e: set<Tid>, d: set<Tid>, x: Tid, t: Tid, y: Tid) returns (moves: seq<Move>)
    requires x in e && t in d && y in d && t != x && t != y
    ensures Roles(moves, e, d) && PcOf(Exec(Start(), moves), t) == Crashed(DeqNext(Front(0, 0)))
  {
    var s1 := StaleDequeuer(e, d, x, t, y);
    var s2 := Reuses(e, d, s1, x);
    ReachesStep(e, d, s2, t, Run(0));
    moves :| Roles(moves, e, d) && Exec(Start(), moves) == Step(s2, t, Run(0));
  }

  // An enqueuer reads null -----------------------------------------------------------------

  /** About to try CAS 1 on the dummy node. */
  predicate AtDummy(pc: Pc) {
    pc.EnqCas1? && pc.tr == Rear(0, Tag(KERNEL_ADDRESS))
  }

  /** t reads rear and is about to try CAS 1. */
  lemma EarlyEnqueuer(e: set<Tid>, d: set<Tid>, t: Tid) returns (s: State)
    requires t in e
    ensures Reaches(e, d, s) && AtDummy(PcOf(s, t)) && forall u: Tid :: u != t ==> PcOf(s, u) == Idle
    ensures s.heap == map[0 := Node(NULL_DATA, Tag(KERNEL_ADDRESS)), 1 := Node(5, Tag(KERNEL_ADDRESS + 1))]
    ensures s.front == Front(0, 0) && s.rear == Rear(0, Tag(KERNEL_ADDRESS)) && s.count == 0 && s.maxCount == 100
  {
    ReachesStart(e, d);
    ReachesStep(e, d, Start(), t, CallEnQ(5));
    var s1 := Go(Start(), t, EnqCheck(5));
    AloneStart(t, s1);
    var s2 := EnqFirstHalf(s1, s1, t, 5, 1);
    ReachesAlone(e, d, t, s1, s2);
    s := Step(s2, t, Run(0));
    ReachesStep(e, d, s2, t, Run(0));
  }

  /** Then x enqueues, and y dequeues, which frees node 0. */
  lemma StaleEnqueuer(e: set<Tid>, d: set<Tid>, t: Tid, x: Tid, y: Tid) returns (s: State)
    requires t in e && x in e && y in d && t != x && t != y
    ensures Reaches(e, d, s) && s.count <= s.maxCount && 0 in s.pool
    ensures PcOf(s, x) == Idle && AtDummy(PcOf(s, t))
  {
    var s1 := EarlyEnqueuer(e, d, t);
    var s2 := Enqueues(e, d, s1, x, 7, 2);
    assert PcOf(s1, y) == Idle && PcOf(s2, y) == Idle;
    s := Dequeues(e, d, s2, y, 2);
  }

  /** CAS 1 fails on a node that is being constructed, and its next is null. */
  lemma ReadsNull(s: State, t: Tid, s1: State, s2: State)
    requires AtDummy(PcOf(s, t)) && 0 in s.heap && s.heap[0].next == Null
    requires s1 == Step(s, t, Run(0)) && s2 == Step(s1, t, Run(0))
    ensures NullRead(Enqueuing, PcOf(s2, t)) && PcOf(s2, t).at.tr == Rear(0, Tag(KERNEL_ADDRESS))
  {
  }

  /** With two enqueuers t and x, and a single dequeuer as in the send queue, there is a run in
      which t reads null. */
  lemma EnqNullReadHappens(e: set<Tid>, d: set<Tid>, t: Tid, x: Tid, y: Tid) returns (moves: seq<Move>)
    requires t in e && x in e && y in d && t != x && t != y
    ensures Roles(moves, e, d)
    ensures NullRead(Enqueuing, PcOf(Exec(Start(), moves), t))
    ensures PcOf(Exec(Start(), moves), t).at.tr == Rear(0, Tag(KERNEL_ADDRESS))
  {
    var s1 := StaleEnqueuer(e, d, t, x, y);
    var s2 := Reuses(e, d, s1, x);
    ReachesStep(e, d, s2, t, Run(0));
    var s3 := Step(s2, t, Run(0));
    ReachesStep(e, d, s3, t, Run(0));
    var s4 := Step(s3, t, Run(0));
    ReadsNull(s2, t, s3, s4);
    moves :| Roles(moves, e, d) && Exec(Start(), moves) == s4;
  }

  // Exactly who is safe --------------------------------------------------------------------

  /** No call on this side reads null, in any run of these users on any queue. */
  ghost predicate Safe(side: Side, e: set<Tid>, d: set<Tid>) {
    forall c: int, dummy: Addr, moves: seq<Move>, t: Tid {:trigger PcOf(Exec(Init(c, dummy), moves), t)} ::
      Roles(moves, e, d) ==> !NullRead(side, PcOf(Exec(Init(c, dummy), moves), t))
  }

  lemma SingleIsSafe(side: Side, e: set<Tid>, d: set<Tid>, x: Tid)
    requires Users(side, e, d) == {x}
    ensures Safe(side, e, d)
  {
    forall c: int, dummy: Addr, moves: seq<Move>, t: Tid | Roles(moves, e, d)
      ensures !NullRead(side, PcOf(Exec(Init(c, dummy), moves), t))
    {
      var s := Exec(Init(c, dummy), moves);
      SingleUser(c, dummy, moves, side, e, d, x);
      if side.Enqueuing? {
        OneEnQ(c, dummy, moves, t, s, PcOf(s, t));
      } else {
        OneDeQ(c, dummy, moves, t, s, PcOf(s, t));
      }
    }
  }

  /** A set with more than one element has two, the first of them not the one to avoid. */
  lemma TwoOf(u: set<Tid>, avoid: Tid) returns (t: Tid, other: Tid)
    requires |u| >= 2
    ensures t in u && other in u && t != other && t != avoid
  {
    var a :| a in u;
    assert |u - {a}| >= 1;
    var b :| b in u - {a};
    t, other := if a == avoid then b else a, if a == avoid then a else b;
  }

  lemma ManyAreNot(side: Side, e: set<Tid>, d: set<Tid>)
    requires e != {} && d != {} && |Users(side, e, d)| >= 2
    ensures !Safe(side, e, d)
  {
    if side.Enqueuing? {
      var y :| y in d;
      var t, x := TwoOf(e, y);
      var moves := EnqNullReadHappens(e, d, t, x, y);
      assert NullRead(side, PcOf(Exec(Init(100, 0), moves), t));
    } else {
      var x :| x in e;
      var t, y := TwoOf(d, x);
      var moves := DeqNullReadHappens(e, d, x, t, y);
      assert NullRead(side, PcOf(Exec(Init(100, 0), moves), t));
    }
  }

  /** Enqueuers are safe from reading null in every run if and only if there is just one of them,
      and dequeuers likewise, whatever the other side looks like. */
  lemma SafeExact(side: Side, e: set<Tid>, d: set<Tid>)
    requires e != {} && d != {}
    ensures Safe(side, e, d) <==> |Users(side, e, d)| == 1
  {
    var u := Users(side, e, d);
    if |u| == 1 {
      var x :| x in u;
      assert |u - {x}| == 0;
      assert u == {x};
      SingleIsSafe(side, e, d, x);
    } else {
      ManyAreNot(side, e, d);
    }
  }
}
