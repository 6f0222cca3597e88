/** What the lock-free queue promises its callers, over every interleaving. */
module LockFreeQTheorems {
  import opened Options
  import opened LockFreeQ
  import opened LockFreeQInvariant
  import opened LockFreeQSteps

  /** Run a history of queue events against a sequential FIFO queue; None if some
      Deq(v) did not find v at the head. */
  function Replay(log: seq<Event>): Option<seq<Data>> {
    if log == [] then Some([])
    else
      match (Replay(log[..|log| - 1]), log[|log| - 1])
      case (None, _) => None
      case (Some(q), Enq(v)) => Some(q + [v])
      case (Some(q), Deq(v)) => if q != [] && q[0] == v then Some(q[1..]) else None
  }

  /** Following m_next from node a, the m_data fields read xs and the last m_next is a tag. */
  ghost predicate Reads(heap: map<Addr, Node>, a: Addr, xs: seq<Data>)
    decreases |xs|
  {
    && a in heap
    && if xs == [] then heap[a].next.Tag?
       else
         && heap[a].next.Ptr?
         && var b := heap[a].next.addr;
            b in heap && heap[b].data == xs[0] && Reads(heap, b, xs[1..])
  }

  /** The data of links from.. on. */
  function Values(links: seq<Entry>, from: nat): seq<Data>
    requires from <= |links|
    decreases |links| - from
  {
    if from == |links| then [] else [links[from].data] + Values(links, from + 1)
  }

  lemma {:induction false} ValuesAppend(links: seq<Entry>, from: nat, e: Entry)
    requires from <= |links|
    ensures Values(links + [e], from) == Values(links, from) + [e.data]
    decreases |links| - from
  {
    if from < |links| {
      ValuesAppend(links, from + 1, e);
    }
  }

  lemma ReplayAppend(log: seq<Event>, e: Event)
    ensures Replay(log + [e]) == match (Replay(log), e)
                                 case (None, _) => None
                                 case (Some(q), Enq(v)) => Some(q + [v])
                                 case (Some(q), Deq(v)) => if q != [] && q[0] == v then Some(q[1..]) else None
  {
    assert (log + [e])[..|log + [e]| - 1] == log;
  }

  ghost predicate LogOk(s: State) {
    && s.front.id < |s.h.links|
    && Replay(s.h.log) == Some(Values(s.h.links, s.front.id + 1))
  }

  ghost predicate SameHistory(s: State, s': State) {
    s'.h.log == s.h.log && s'.h.links == s.h.links && s'.front.id == s.front.id
  }

  ghost predicate IsEnqueue(s: State, s': State, t: Tid) {
    && PcOf(s, t).EnqCas1?
    && s'.h.log == s.h.log + [Enq(PcOf(s, t).d)]
    && s'.front == s.front
    && s'.h.links == s.h.links + [Entry(PcOf(s, t).n, PcOf(s, t).id, PcOf(s, t).d)]
  }

  ghost predicate IsDequeue(s: State, s': State, t: Tid) {
    && PcOf(s, t).DeqCas?
    && s'.h.log == s.h.log + [Deq(PcOf(s, t).v)]
    && s'.h.links == s.h.links
    && s'.front.id == s.front.id + 1 < |s.h.links|
    && PcOf(s, t).v == s.h.links[s.front.id + 1].data
  }

  lemma OtherEnqStep(s: State, t: Tid, act: Action, s': State)
    requires s' == Step(s, t, act)
    requires !InDeQ(PcOf(s, t)) && !PcOf(s, t).EnqCas1?
    ensures SameHistory(s, s')
  {
  }

  lemma OtherDeqStep(s: State, t: Tid, act: Action, s': State)
    requires s' == Step(s, t, act)
    requires InDeQ(PcOf(s, t)) && !PcOf(s, t).DeqCas?
    ensures SameHistory(s, s')
  {
  }

  /** Which steps linearize: CAS1 as an enqueue, the front CAS as a dequeue. */
  lemma LogStep(s: State, t: Tid, act: Action, s': State)
    requires Inv(s) && s' == Step(s, t, act)
    ensures SameHistory(s, s') || IsEnqueue(s, s', t) || IsDequeue(s, s', t)
  {
    assert ThreadOk(s, t);
    if InDeQ(PcOf(s, t)) {
      if !PcOf(s, t).DeqCas? { OtherDeqStep(s, t, act, s'); }
    } else {
      if !PcOf(s, t).EnqCas1? { OtherEnqStep(s, t, act, s'); }
    }
  }

  lemma LogKeeps(s: State, t: Tid, act: Action)
    requires Inv(s) && LogOk(s)
    ensures LogOk(Step(s, t, act))
  {
    var s' := Step(s, t, act);
    LogStep(s, t, act, s');
    if PcOf(s, t).EnqCas1? && |s'.h.log| > |s.h.log| {
      ReplayAppend(s.h.log, Enq(PcOf(s, t).d));
      ValuesAppend(s.h.links, s.front.id + 1, Entry(PcOf(s, t).n, PcOf(s, t).id, PcOf(s, t).d));
    } else if PcOf(s, t).DeqCas? && |s'.h.log| > |s.h.log| {
      ReplayAppend(s.h.log, Deq(PcOf(s, t).v));
    }
  }

  lemma {:induction false} ExecLog(maxCount: int, dummy: Addr, moves: seq<Move>)
    ensures LogOk(Exec(Init(maxCount, dummy), moves))
    decreases |moves|
  {
    if moves != [] {
      ExecLog(maxCount, dummy, moves[..|moves| - 1]);
      ExecInv(maxCount, dummy, moves[..|moves| - 1]);
      var last := moves[|moves| - 1];
      LogKeeps(Exec(Init(maxCount, dummy), moves[..|moves| - 1]), last.t, last.act);
    }
  }

  lemma {:induction false} ReadsLinks(s: State, i: nat)
    requires Inv(s) && s.front.id <= i < |s.h.links|
    ensures Reads(s.heap, s.h.links[i].addr, Values(s.h.links, i + 1))
    decreases |s.h.links| - i
  {
    assert LinkOk(s, i);
    if i + 1 < |s.h.links| {
      assert LinkOk(s, i + 1);
      ReadsLinks(s, i + 1);
    }
  }

  // Promises over whole runs -----------------------------------------------------------

  function Enqueued(log: seq<Event>): seq<Data> {
    if log == [] then []
    else
      var e := log[|log| - 1];
      Enqueued(log[..|log| - 1]) + if e.Enq? then [e.v] else []
  }

  function Dequeued(log: seq<Event>): seq<Data> {
    if log == [] then []
    else
      var e := log[|log| - 1];
      Dequeued(log[..|log| - 1]) + if e.Deq? then [e.v] else []
  }

  /** In a legal FIFO history what came out, followed by what is left, is what went in. */
  lemma {:induction false} FifoHistory(log: seq<Event>, q: seq<Data>)
    requires Replay(log) == Some(q)
    ensures Enqueued(log) == Dequeued(log) + q
    decreases |log|
  {
    if log != [] {
      var q0 := Replay(log[..|log| - 1]).value;
      FifoHistory(log[..|log| - 1], q0);
      if log[|log| - 1].Deq? {
        assert q0 == [q0[0]] + q;
      }
    }
  }

  /** Linearizability: in every interleaving the CAS1s and front CASes, in the order they
      happened, are a legal run of a sequential FIFO queue, and walking the real nodes
      from front reads exactly that queue's contents. */
  lemma Linearizable(maxCount: int, dummy: Addr, moves: seq<Move>)
    ensures var s := Exec(Init(maxCount, dummy), moves);
            exists q :: Replay(s.h.log) == Some(q) && Reads(s.heap, s.front.node, q)
  {
    var s := Exec(Init(maxCount, dummy), moves);
    ExecInv(maxCount, dummy, moves);
    ExecLog(maxCount, dummy, moves);
    ReadsLinks(s, s.front.id);
  }

  lemma {:induction false} EnqueuedIsLinks(maxCount: int, dummy: Addr, moves: seq<Move>)
    ensures var s := Exec(Init(maxCount, dummy), moves);
            |s.h.links| >= 1 && Enqueued(s.h.log) == Values(s.h.links, 1)
    decreases |moves|
  {
    if moves != [] {
      var s := Exec(Init(maxCount, dummy), moves[..|moves| - 1]);
      var last := moves[|moves| - 1];
      EnqueuedIsLinks(maxCount, dummy, moves[..|moves| - 1]);
      ExecInv(maxCount, dummy, moves[..|moves| - 1]);
      var s' := Step(s, last.t, last.act);
      LogStep(s, last.t, last.act, s');
      if |s'.h.log| > |s.h.log| {
        assert s'.h.log[..|s'.h.log| - 1] == s.h.log;
        if PcOf(s, last.t).EnqCas1? {
          var pc := PcOf(s, last.t);
          ValuesAppend(s.h.links, 1, Entry(pc.n, pc.id, pc.d));
        }
      }
    }
  }

  lemma {:induction false} ValuesAt(links: seq<Entry>, from: nat, k: nat)
    requires from + k < |links|
    ensures k < |Values(links, from)| && Values(links, from)[k] == links[from + k].data
    decreases k
  {
    if k > 0 {
      ValuesAt(links, from + 1, k - 1);
    }
  }

  /** The k-th dequeuer gets the k-th enqueued value, and what DeQ returned is what was
      removed, although it was read before the CAS. */
  lemma Delivery(maxCount: int, dummy: Addr, moves: seq<Move>)
    ensures var s := Exec(Init(maxCount, dummy), moves);
            && Dequeued(s.h.log) <= Enqueued(s.h.log)
            && (forall k :: k in s.h.tickets <==> 0 <= k < s.front.id)
            && (forall k :: k in s.h.tickets ==>
                  k < |Enqueued(s.h.log)| && s.h.tickets[k].v == Enqueued(s.h.log)[k])
            && (forall t: Tid :: PcOf(s, t).DeqFree? ==>
                  && PcOf(s, t).k in s.h.tickets
                  && s.h.tickets[PcOf(s, t).k] == Claimed(t, PcOf(s, t).v))
  {
    var s := Exec(Init(maxCount, dummy), moves);
    ExecInv(maxCount, dummy, moves);
    ExecLog(maxCount, dummy, moves);
    EnqueuedIsLinks(maxCount, dummy, moves);
    FifoHistory(s.h.log, Replay(s.h.log).value);
    forall k | k in s.h.tickets
      ensures k < |Enqueued(s.h.log)| && s.h.tickets[k].v == Enqueued(s.h.log)[k]
    {
      ValuesAt(s.h.links, 1, k);
    }
    forall t: Tid | PcOf(s, t).DeqFree?
      ensures PcOf(s, t).k in s.h.tickets && s.h.tickets[PcOf(s, t).k] == Claimed(t, PcOf(s, t).v)
    {
      assert ThreadOk(s, t);
    }
  }

  /** A delivered value is delivered once: a ticket never changes again. */
  lemma DeliveredOnce(s: State, t: Tid, act: Action, k: nat)
    requires Inv(s) && k in s.h.tickets && s.h.tickets[k].Delivered?
    ensures k in Step(s, t, act).h.tickets && Step(s, t, act).h.tickets[k] == s.h.tickets[k]
  {
    assert ThreadOk(s, t);
  }

  /** Type-stable memory is enough: no thread ever follows an address that is no node,
      front never passes rear, rear is the last or second-last linked node, and the nodes
      front and rear point to are neither pooled nor in any thread's hands. */
  lemma Safety(maxCount: int, dummy: Addr, moves: seq<Move>)
    ensures var s := Exec(Init(maxCount, dummy), moves);
            && (forall t: Tid :: !PcOf(s, t).Wild?)
            && s.front.id <= s.front.id + |s.h.poppers| <= |s.h.counted| <= s.h.rp
            && s.h.rp < |s.h.links| <= s.h.rp + 2
            && s.rear.node == s.h.links[s.h.rp].addr && s.front.node == s.h.links[s.front.id].addr
            && s.rear.node !in s.pool && s.front.node !in s.pool
            && (forall t: Tid :: HeldNode(PcOf(s, t)) != Some(s.rear.node)
                                 && HeldNode(PcOf(s, t)) != Some(s.front.node))
  {
    var s := Exec(Init(maxCount, dummy), moves);
    ExecInv(maxCount, dummy, moves);
    FrontBehindRear(s);
    assert LinkOk(s, s.h.rp) && LinkOk(s, s.front.id);
    assert NodeOk(s, s.rear.node) && NodeOk(s, s.front.node);
    forall t: Tid
      ensures !PcOf(s, t).Wild?
      ensures HeldNode(PcOf(s, t)) != Some(s.rear.node) && HeldNode(PcOf(s, t)) != Some(s.front.node)
    {
      assert ThreadOk(s, t);
    }
  }

  /** Every tag lives in at most one node, in every run. */
  lemma TagsUnique(maxCount: int, dummy: Addr, moves: seq<Move>, a: Addr, b: Addr, id: int)
    requires var s := Exec(Init(maxCount, dummy), moves);
             a in s.heap && b in s.heap && s.heap[a].next == Tag(id) && s.heap[b].next == Tag(id)
    ensures a == b
  {
    var s := Exec(Init(maxCount, dummy), moves);
    ExecInv(maxCount, dummy, moves);
    assert NodeOk(s, a) && NodeOk(s, b);
    if s.h.owner[a].HeldBy? {
      assert ThreadOk(s, s.h.owner[a].t);
    }
  }

  /** Rear only moves forward and one linked node at a time, and a step that moves it is a CAS on
      rear; nothing else changes where it points. */
  lemma RearAdvances(s: State, t: Tid, act: Action, s': State)
    requires Inv(s) && s' == Step(s, t, act)
    ensures Inv(s') && s.h.rp < |s.h.links| && s'.h.rp < |s'.h.links|
    ensures s'.rear.node == s'.h.links[s'.h.rp].addr
    ensures (s'.h.rp == s.h.rp && s'.rear == s.rear)
         || (s'.h.rp == s.h.rp + 1 && s'.h.links == s.h.links && (PcOf(s, t).EnqHelp? || PcOf(s, t).EnqCas2?))
  {
    StepKeeps(s, t, act);
    assert ThreadOk(s, t);
    if PcOf(s, t).EnqHelp? {
      RearPosition(s, PcOf(s, t).tr, PcOf(s, t).j);
    } else if PcOf(s, t).EnqCas2? {
      RearPosition(s, PcOf(s, t).tr, PcOf(s, t).j);
    } else if InDeQ(PcOf(s, t)) {
      RearInDeQ(s, t, act, s');
    } else {
      RearInEnQ(s, t, act, s');
    }
  }

  lemma RearInDeQ(s: State, t: Tid, act: Action, s': State)
    requires s' == Step(s, t, act) && InDeQ(PcOf(s, t))
    ensures s'.h.rp == s.h.rp && s'.rear == s.rear
  {
  }

  lemma RearInEnQ(s: State, t: Tid, act: Action, s': State)
    requires s' == Step(s, t, act) && !InDeQ(PcOf(s, t)) && !PcOf(s, t).EnqHelp? && !PcOf(s, t).EnqCas2?
    ensures s'.h.rp == s.h.rp && s'.rear == s.rear
  {
  }

  // Where a null pointer is read -------------------------------------------------------

  /** A dequeuer dereferences null exactly when its (stale) front node is one that an EnQ
      has constructed and not yet tagged. */
  lemma DeqNullReadExact(s: State, t: Tid, act: Action)
    requires Inv(s) && PcOf(s, t).DeqNext?
    ensures PcOf(Step(s, t, act), t).Crashed? <==>
            exists u: Tid :: Constructing(PcOf(s, u)) && HeldNode(PcOf(s, u)) == Some(PcOf(s, t).tf.node)
  {
    assert ThreadOk(s, t);
    NullExact(s, PcOf(s, t).tf.node);
  }

  /** The same for an enqueuer that lost CAS 1 and looks for the successor of its tempRear. */
  lemma EnqNullReadExact(s: State, t: Tid, act: Action)
    requires Inv(s) && PcOf(s, t).EnqReadNext?
    ensures PcOf(Step(s, t, act), t).Crashed? <==>
            exists u: Tid :: Constructing(PcOf(s, u)) && HeldNode(PcOf(s, u)) == Some(PcOf(s, t).tr.node)
  {
    assert ThreadOk(s, t);
    NullExact(s, PcOf(s, t).tr.node);
  }

  lemma NullExact(s: State, a: Addr)
    requires Inv(s) && a in s.heap
    ensures s.heap[a].next == Null <==>
            exists u: Tid :: Constructing(PcOf(s, u)) && HeldNode(PcOf(s, u)) == Some(a)
  {
    assert NodeOk(s, a);
    if u: Tid :| Constructing(PcOf(s, u)) && HeldNode(PcOf(s, u)) == Some(a) {
      assert ThreadOk(s, u);
    }
  }
}
