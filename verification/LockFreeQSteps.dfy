/** Each step of the lock-free queue keeps the invariant. */
module LockFreeQSteps {
  import opened Options
  import opened LockFreeQ
  import opened LockFreeQInvariant

  // Steps that only move the program counter -----------------------------------------

  lemma CheckKeeps(s: State, t: Tid, act: Action, s': State)
    requires Inv(s) && PcOf(s, t).EnqCheck? && s' == Step(s, t, act)
    ensures Inv(s')
  {
    assert ThreadOk(s, t);
    var EnqCheck(d) := PcOf(s, t);
    MoveOnly(s, t, if s.maxCount < s.count then Crashed(EnqCheck(d)) else EnqAlloc(d));
  }

  lemma LoadRearNodeKeeps(s: State, t: Tid, act: Action, s': State)
    requires Inv(s) && PcOf(s, t).EnqLoadNode? && s' == Step(s, t, act)
    ensures Inv(s')
  {
    assert ThreadOk(s, t);
    var EnqLoadNode(d, n, id) := PcOf(s, t);
    assert LinkOk(s, s.h.rp);
    MoveOnly(s, t, EnqLoadId(d, n, id, s.rear.node));
  }

  lemma LoadRearIdKeeps(s: State, t: Tid, act: Action, s': State)
    requires Inv(s) && PcOf(s, t).EnqLoadId? && s' == Step(s, t, act)
    ensures Inv(s')
  {
    assert ThreadOk(s, t);
    var EnqLoadId(d, n, id, rn) := PcOf(s, t);
    MoveOnly(s, t, EnqCas1(d, n, id, Rear(rn, s.rear.id), s.h.rp));
  }

  /** A tag pins down a link position. */
  lemma RearPosition(s: State, tr: Rear, j: nat)
    requires SharedOk(s) && SawRear(s, tr, j)
    ensures s.rear == tr ==> s.h.rp == j
  {
    assert s.h.home[s.h.links[j].tag] == AtLink(j);
    assert s.h.home[s.h.links[s.h.rp].tag] == AtLink(s.h.rp);
  }

  /** While rear has not moved, tempRear's successor is the last link. */
  lemma SuccessorSeen(s: State, tr: Rear, j: nat)
    requires SharedOk(s) && SawRear(s, tr, j)
    ensures s.heap[tr.node].next.Ptr? ==> SawSuccessor(s, tr, j, s.heap[tr.node].next.addr)
  {
    assert NodeOk(s, tr.node);
    assert LinkOk(s, s.h.rp);
    RearPosition(s, tr, j);
  }

  lemma ReadNextKeeps(s: State, t: Tid, act: Action, s': State)
    requires Inv(s) && PcOf(s, t).EnqReadNext? && s' == Step(s, t, act)
    ensures Inv(s')
  {
    assert ThreadOk(s, t);
    var EnqReadNext(d, n, id, tr, j) := PcOf(s, t);
    SuccessorSeen(s, tr, j);
    match s.heap[tr.node].next
    case Tag(_) => MoveOnly(s, t, EnqLoadNode(d, n, id));
    case Null => MoveOnly(s, t, Crashed(EnqReadNext(d, n, id, tr, j)));
    case Ptr(m) => MoveOnly(s, t, EnqReadTag(d, n, id, tr, j, m));
  }

  lemma ReadTagKeeps(s: State, t: Tid, act: Action, s': State)
    requires Inv(s) && PcOf(s, t).EnqReadTag? && s' == Step(s, t, act)
    ensures Inv(s')
  {
    assert ThreadOk(s, t);
    var EnqReadTag(d, n, id, tr, j, m) := PcOf(s, t);
    if s.rear == tr {
      RearPosition(s, tr, j);
      assert LinkOk(s, j + 1);
    }
    MoveOnly(s, t, EnqHelp(d, n, id, tr, j, m, s.heap[m].next));
  }

  lemma ReReadKeeps(s: State, t: Tid, act: Action, s': State)
    requires Inv(s) && PcOf(s, t).EnqReRead? && s' == Step(s, t, act)
    ensures Inv(s')
  {
    assert ThreadOk(s, t);
    var EnqReRead(n, tr, j) := PcOf(s, t);
    if |s.h.links| == j + 2 {
      assert LinkOk(s, j + 1);
    }
    MoveOnly(s, t, EnqCas2(n, tr, j, s.heap[n].next));
  }

  lemma LoadFrontKeeps(s: State, t: Tid, act: Action, s': State)
    requires Inv(s) && PcOf(s, t).DeqLoadNode? && s' == Step(s, t, act)
    ensures Inv(s')
  {
    assert ThreadOk(s, t);
    assert LinkOk(s, s.front.id);
    MoveOnly(s, t, DeqLoadId(s.front.node));
  }

  lemma LoadFrontIdKeeps(s: State, t: Tid, act: Action, s': State)
    requires Inv(s) && PcOf(s, t).DeqLoadId? && s' == Step(s, t, act)
    ensures Inv(s')
  {
    assert ThreadOk(s, t);
    var DeqLoadId(fn) := PcOf(s, t);
    MoveOnly(s, t, DeqNext(Front(fn, s.front.id)));
  }

  // The counter gate -----------------------------------------------------------------

  /** A set of positive numbers up to n has at most n elements. */
  lemma {:induction false} SizeUpTo(c: set<nat>, n: nat)
    requires forall k :: k in c ==> 1 <= k <= n
    ensures |c| <= n
  {
    if n == 0 {
      assert c == {};
    } else {
      SizeUpTo(c - {n}, n - 1);
    }
  }

  /** front position <= dequeues past the gate <= counted enqueues <= rear position;
      a dequeuer past the gate finds front strictly before rear. */
  lemma FrontBehindRear(s: State)
    requires Inv(s)
    ensures s.front.id <= s.front.id + |s.h.poppers| <= |s.h.counted| <= s.h.rp
    ensures forall t :: t in s.h.poppers ==> s.front.id < s.h.rp
  {
    SizeUpTo(s.h.counted, s.h.rp);
    if t :| t in s.h.poppers {
      assert s.h.poppers == (s.h.poppers - {t}) + {t};
    }
  }

  lemma NextKeeps(s: State, t: Tid, act: Action, s': State)
    requires Inv(s) && PcOf(s, t).DeqNext? && s' == Step(s, t, act)
    ensures Inv(s')
  {
    assert ThreadOk(s, t);
    var DeqNext(tf) := PcOf(s, t);
    FrontBehindRear(s);
    assert LinkOk(s, s.front.id);
    assert NodeOk(s, tf.node);
    match s.heap[tf.node].next
    case Tag(_) =>
    case Null => MoveOnly(s, t, Crashed(DeqNext(tf)));
    case Ptr(m) => MoveOnly(s, t, DeqData(tf, m));
  }

  lemma DataKeeps(s: State, t: Tid, act: Action, s': State)
    requires Inv(s) && PcOf(s, t).DeqData? && s' == Step(s, t, act)
    ensures Inv(s')
  {
    assert ThreadOk(s, t);
    var DeqData(tf, m) := PcOf(s, t);
    if s.front == tf {
      assert LinkOk(s, tf.id + 1);
    }
    MoveOnly(s, t, DeqCas(tf, m, s.heap[m].data));
  }

  /** Nothing but counters and the mover's program counter changes. */
  lemma SameList(s: State, s': State, t: Tid, pc': Pc)
    requires Inv(s) && s'.pcs == s.pcs[t := pc']
    requires s' == s.(pcs := s'.pcs, count := s'.count,
                      h := s.h.(counted := s'.h.counted, pending := s'.h.pending,
                                poppers := s'.h.poppers, failing := s'.h.failing))
    requires HeldNode(pc') == HeldNode(PcOf(s, t)) == None
    requires CountsOk(s') && LocalOk(s', t, pc')
    requires forall u :: u != t ==> Rely(s, s', u)
    ensures Inv(s')
  {
    assert ListOk(s') by {
      forall i: nat | s'.front.id <= i < |s'.h.links| ensures LinkOk(s', i) { assert LinkOk(s, i); }
    }
    assert NodesOk(s') by {
      forall a | a in s'.heap ensures NodeOk(s', a) { assert NodeOk(s, a); }
    }
    Assemble(s, s', t, pc');
  }

  lemma CountKeeps(s: State, t: Tid, act: Action, s': State)
    requires Inv(s) && PcOf(s, t).EnqCount? && s' == Step(s, t, act)
    ensures Inv(s')
  {
    assert ThreadOk(s, t);
    var EnqCount(k) := PcOf(s, t);
    SameList(s, s', t, Idle);
  }

  /** The decrement went below zero: t holds a temporary decrement. */
  lemma GateFails(s: State, t: Tid)
    requires Inv(s) && PcOf(s, t).DeqGate? && s.count - 1 < 0
    ensures Inv(StepGate(s, t))
  {
    assert ThreadOk(s, t);
    SameList(s, StepGate(s, t), t, DeqUndo);
  }

  /** The decrement stayed non-negative: one counted enqueue is reserved for t. */
  lemma GatePasses(s: State, t: Tid)
    requires Inv(s) && PcOf(s, t).DeqGate? && 0 <= s.count - 1
    ensures Inv(StepGate(s, t))
  {
    assert ThreadOk(s, t);
    SameList(s, StepGate(s, t), t, DeqLoadNode);
  }

  lemma GateKeeps(s: State, t: Tid, act: Action, s': State)
    requires Inv(s) && PcOf(s, t).DeqGate? && s' == Step(s, t, act)
    ensures Inv(s')
  {
    if s.count - 1 < 0 {
      GateFails(s, t);
    } else {
      GatePasses(s, t);
    }
  }

  lemma UndoKeeps(s: State, t: Tid, act: Action, s': State)
    requires Inv(s) && PcOf(s, t).DeqUndo? && s' == Step(s, t, act)
    ensures Inv(s')
  {
    assert ThreadOk(s, t);
    SameList(s, s', t, Idle);
  }

  // Private nodes ------------------------------------------------------------------------

  /** Only node a, which is in nobody's list, changes; t ends up holding it. */
  ghost predicate WritesPrivate(s: State, s': State, t: Tid, a: Addr, pc': Pc) {
    && s'.pcs == s.pcs[t := pc']
    && (a in s.heap ==> a in s.h.owner && (s.h.owner[a] == HeldBy(t) || s.h.owner[a] == Pooled))
    && a in s'.heap
    && s' == s.(pcs := s'.pcs, heap := s.heap[a := s'.heap[a]], pool := s.pool - {a}, rearID := s'.rearID,
                h := s.h.(owner := s.h.owner[a := HeldBy(t)], home := s'.h.home))
    && s.rearID <= s'.rearID
    && (s'.h.home == s.h.home
        || (s'.h.home == s.h.home[s.rearID + 1 := AtThread(t)] && s'.rearID == s.rearID + 1))
    && (HeldNode(PcOf(s, t)) == None || HeldNode(PcOf(s, t)) == Some(a))
    && HeldNode(pc') == Some(a)
    && (match s'.heap[a].next
        case Null => Constructing(pc')
        case Tag(id) => id in s'.h.home && s'.h.home[id] == AtThread(t)
        case Ptr(_) => false)
  }

  lemma PrivateWriteNodes(s: State, s': State, t: Tid, a: Addr, pc': Pc)
    requires TagsOk(s) && NodesOk(s) && WritesPrivate(s, s', t, a, pc')
    ensures NodesOk(s')
  {
    forall b | b in s'.heap ensures NodeOk(s', b) {
      if b != a { assert NodeOk(s, b); }
    }
  }

  lemma PrivateWrite(s: State, s': State, t: Tid, a: Addr, pc': Pc)
    requires SharedOk(s) && WritesPrivate(s, s', t, a, pc')
    ensures SharedOk(s')
    ensures forall u :: u != t ==> Rely(s, s', u)
  {
    PrivateWriteNodes(s, s', t, a, pc');
    forall i: nat | s'.front.id <= i < |s'.h.links| ensures LinkOk(s', i) { assert LinkOk(s, i); }
  }

  lemma AllocKeeps(s: State, t: Tid, act: Action, s': State)
    requires Inv(s) && PcOf(s, t).EnqAlloc? && s' == Step(s, t, act)
    ensures Inv(s')
  {
    assert ThreadOk(s, t);
    var EnqAlloc(d) := PcOf(s, t);
    if act.Run? && (act.a in s.pool || act.a !in s.heap) {
      if act.a in s.heap { assert NodeOk(s, act.a); }
      PrivateWrite(s, s', t, act.a, EnqSetData(d, act.a));
      Assemble(s, s', t, EnqSetData(d, act.a));
    }
  }

  lemma SetDataKeeps(s: State, t: Tid, act: Action, s': State)
    requires Inv(s) && PcOf(s, t).EnqSetData? && s' == Step(s, t, act)
    ensures Inv(s')
  {
    assert ThreadOk(s, t);
    var EnqSetData(d, n) := PcOf(s, t);
    assert NodeOk(s, n);
    assert s.h.owner[n := HeldBy(t)] == s.h.owner;
    assert s.pool - {n} == s.pool;
    PrivateWrite(s, s', t, n, EnqNewTag(d, n));
    Assemble(s, s', t, EnqNewTag(d, n));
  }

  lemma NewTagKeeps(s: State, t: Tid, act: Action, s': State)
    requires Inv(s) && PcOf(s, t).EnqNewTag? && s' == Step(s, t, act)
    ensures Inv(s')
  {
    assert ThreadOk(s, t);
    var EnqNewTag(d, n) := PcOf(s, t);
    assert NodeOk(s, n);
    assert s.h.owner[n := HeldBy(t)] == s.h.owner;
    assert s.pool - {n} == s.pool;
    assert s.heap[n := s.heap[n]] == s.heap;
    PrivateWrite(s, s', t, n, EnqSetNext(d, n, s.rearID + 1));
    Assemble(s, s', t, EnqSetNext(d, n, s.rearID + 1));
  }

  lemma SetNextKeeps(s: State, t: Tid, act: Action, s': State)
    requires Inv(s) && PcOf(s, t).EnqSetNext? && s' == Step(s, t, act)
    ensures Inv(s')
  {
    assert ThreadOk(s, t);
    var EnqSetNext(d, n, id) := PcOf(s, t);
    assert NodeOk(s, n);
    assert s.h.owner[n := HeldBy(t)] == s.h.owner;
    assert s.pool - {n} == s.pool;
    PrivateWrite(s, s', t, n, EnqLoadNode(d, n, id));
    Assemble(s, s', t, EnqLoadNode(d, n, id));
  }

  // Linking ------------------------------------------------------------------------------

  /** CAS 1 can only succeed on the true tail, however torn or stale tempRear is,
      and then tempRear is the current rear. */
  lemma Cas1OnTrueTail(s: State, t: Tid, d: Data, n: Addr, id: int, tr: Rear, j: nat)
    requires Inv(s) && PcOf(s, t) == EnqCas1(d, n, id, tr, j)
    requires tr.node in s.heap && s.heap[tr.node].next == tr.id
    ensures j == s.h.rp == |s.h.links| - 1 && tr == s.rear
  {
    assert ThreadOk(s, t);
    assert s.h.home[s.h.links[j].tag] == AtLink(j);
    assert NodeOk(s, tr.node);
    assert LinkOk(s, j);
  }

  ghost predicate AtTail(s: State, t: Tid, d: Data, n: Addr, id: int, tr: Rear, j: nat) {
    && SharedOk(s) && PcOf(s, t) == EnqCas1(d, n, id, tr, j) && LocalOk(s, t, PcOf(s, t))
    && j == s.h.rp == |s.h.links| - 1 && tr == s.rear
    && s.heap[tr.node].next == tr.id
  }

  lemma Cas1Nodes(s: State, t: Tid, d: Data, n: Addr, id: int, tr: Rear, j: nat)
    requires AtTail(s, t, d, n, id, tr, j)
    ensures NodesOk(StepCas1(s, t, d, n, id, tr, j))
  {
    var s' := StepCas1(s, t, d, n, id, tr, j);
    assert NodeOk(s, n);
    assert LinkOk(s, j);
    forall a | a in s'.heap ensures NodeOk(s', a) { assert NodeOk(s, a); }
  }

  lemma Cas1List(s: State, t: Tid, d: Data, n: Addr, id: int, tr: Rear, j: nat)
    requires AtTail(s, t, d, n, id, tr, j)
    ensures ListOk(StepCas1(s, t, d, n, id, tr, j)) && TagsOk(StepCas1(s, t, d, n, id, tr, j))
  {
    var s' := StepCas1(s, t, d, n, id, tr, j);
    assert LinkOk(s, j);
    forall i: nat | s'.front.id <= i < |s'.h.links| ensures LinkOk(s', i) {
      if i < |s.h.links| { assert LinkOk(s, i); }
    }
  }

  lemma Cas1Shared(s: State, t: Tid, d: Data, n: Addr, id: int, tr: Rear, j: nat)
    requires AtTail(s, t, d, n, id, tr, j)
    ensures var s' := StepCas1(s, t, d, n, id, tr, j);
            && SharedOk(s') && LocalOk(s', t, EnqReRead(n, tr, j))
            && forall u :: u != t ==> Rely(s, s', u)
  {
    Cas1Nodes(s, t, d, n, id, tr, j);
    Cas1List(s, t, d, n, id, tr, j);
    assert LinkOk(s, j);
    assert |s.h.links| !in s.h.counted;
  }

  lemma Cas1Keeps(s: State, t: Tid, act: Action, s': State)
    requires Inv(s) && PcOf(s, t).EnqCas1? && s' == Step(s, t, act)
    ensures Inv(s')
  {
    assert ThreadOk(s, t);
    var EnqCas1(d, n, id, tr, j) := PcOf(s, t);
    if s.heap[tr.node].next != tr.id {
      MoveOnly(s, t, EnqReadNext(d, n, id, tr, j));
    } else {
      Cas1OnTrueTail(s, t, d, n, id, tr, j);
      Cas1Shared(s, t, d, n, id, tr, j);
      Assemble(s, s', t, EnqReRead(n, tr, j));
    }
  }

  function Swing(s: State, j: nat): State
    requires j + 1 < |s.h.links|
  {
    s.(rear := Rear(s.h.links[j + 1].addr, Tag(s.h.links[j + 1].tag)), h := s.h.(rp := j + 1))
  }

  /** Both rear CASes: if they succeed, they move rear from link j to link j + 1. */
  lemma SwingShared(s: State, t: Tid, j: nat, pc': Pc)
    requires SharedOk(s)
    requires j == s.h.rp && j + 2 == |s.h.links|
    requires HeldNode(pc') == HeldNode(PcOf(s, t)) && !Constructing(PcOf(s, t))
    ensures SharedOk(Go(Swing(s, j), t, pc'))
    ensures forall u :: Rely(s, Go(Swing(s, j), t, pc'), u)
  {
    var s' := Go(Swing(s, j), t, pc');
    assert ListOk(s') by {
      forall i: nat | s'.front.id <= i < |s'.h.links| ensures LinkOk(s', i) { assert LinkOk(s, i); }
    }
    assert NodesOk(s') by {
      forall a | a in s'.heap ensures NodeOk(s', a) { assert NodeOk(s, a); }
    }
  }

  lemma HelpKeeps(s: State, t: Tid, act: Action, s': State)
    requires Inv(s) && PcOf(s, t).EnqHelp? && s' == Step(s, t, act)
    ensures Inv(s')
  {
    assert ThreadOk(s, t);
    var EnqHelp(d, n, id, tr, j, m, w) := PcOf(s, t);
    if s.rear == tr {
      RearPosition(s, tr, j);
      SwingShared(s, t, j, EnqLoadNode(d, n, id));
      Assemble(s, s', t, EnqLoadNode(d, n, id));
    } else {
      MoveOnly(s, t, EnqLoadNode(d, n, id));
    }
  }

  lemma Cas2Keeps(s: State, t: Tid, act: Action, s': State)
    requires Inv(s) && PcOf(s, t).EnqCas2? && s' == Step(s, t, act)
    ensures Inv(s')
  {
    assert ThreadOk(s, t);
    var EnqCas2(n, tr, j, w) := PcOf(s, t);
    RearPosition(s, tr, j);
    if s.rear == tr {
      SwingShared(s, t, j, EnqCount(j + 1));
      Assemble(s, s', t, EnqCount(j + 1));
    } else {
      MoveOnly(s, t, EnqCount(j + 1));
    }
  }

  // Unlinking ----------------------------------------------------------------------------

  ghost predicate AtFront(s: State, t: Tid, tf: Front, m: Addr, v: Data) {
    && SharedOk(s) && PcOf(s, t) == DeqCas(tf, m, v) && LocalOk(s, t, PcOf(s, t))
    && s.front == tf && tf.id < s.h.rp
  }

  lemma DeqCasNodes(s: State, t: Tid, tf: Front, m: Addr, v: Data)
    requires AtFront(s, t, tf, m, v)
    ensures NodesOk(StepDeqCas(s, t, tf, m, v))
  {
    var s' := StepDeqCas(s, t, tf, m, v);
    assert LinkOk(s, tf.id);
    forall a | a in s'.heap ensures NodeOk(s', a) { assert NodeOk(s, a); }
  }

  lemma DeqCasList(s: State, t: Tid, tf: Front, m: Addr, v: Data)
    requires AtFront(s, t, tf, m, v)
    ensures ListOk(StepDeqCas(s, t, tf, m, v))
  {
    var s' := StepDeqCas(s, t, tf, m, v);
    assert LinkOk(s, tf.id);
    forall i: nat | s'.front.id <= i < |s'.h.links| ensures LinkOk(s', i) { assert LinkOk(s, i); }
  }

  /** The front CAS: the datum read before the CAS is the datum of the node it moves to. */
  lemma DeqCasShared(s: State, t: Tid, tf: Front, m: Addr, v: Data)
    requires AtFront(s, t, tf, m, v)
    ensures SharedOk(StepDeqCas(s, t, tf, m, v))
  {
    DeqCasNodes(s, t, tf, m, v);
    DeqCasList(s, t, tf, m, v);
  }

  lemma DeqCasOwn(s: State, t: Tid, tf: Front, m: Addr, v: Data)
    requires AtFront(s, t, tf, m, v)
    ensures LocalOk(StepDeqCas(s, t, tf, m, v), t, DeqFree(tf.node, v, tf.id))
  {
    assert LinkOk(s, tf.id);
  }

  lemma DeqCasOthers(s: State, t: Tid, tf: Front, m: Addr, v: Data)
    requires AtFront(s, t, tf, m, v)
    ensures forall u :: u != t ==> Rely(s, StepDeqCas(s, t, tf, m, v), u)
  {
    assert LinkOk(s, tf.id);
  }

  lemma DeqCasKeeps(s: State, t: Tid, act: Action, s': State)
    requires Inv(s) && PcOf(s, t).DeqCas? && s' == Step(s, t, act)
    ensures Inv(s')
  {
    assert ThreadOk(s, t);
    var DeqCas(tf, m, v) := PcOf(s, t);
    if s.front == tf {
      FrontBehindRear(s);
      DeqCasShared(s, t, tf, m, v);
      DeqCasOwn(s, t, tf, m, v);
      DeqCasOthers(s, t, tf, m, v);
      Assemble(s, s', t, DeqFree(tf.node, v, tf.id));
    } else {
      assert LinkOk(s, s.front.id);
      MoveOnly(s, t, DeqNext(s.front));
    }
  }

  lemma FreeNodes(s: State, t: Tid, dead: Addr, v: Data, k: nat)
    requires NodesOk(s) && PcOf(s, t) == DeqFree(dead, v, k)
    requires Holds(s, t, dead) && s.heap[dead].next.Ptr?
    ensures NodesOk(StepFree(s, t, dead, v, k))
  {
    var s' := StepFree(s, t, dead, v, k);
    forall a | a in s'.heap ensures NodeOk(s', a) { assert NodeOk(s, a); }
  }

  lemma FreeShared(s: State, t: Tid, dead: Addr, v: Data, k: nat)
    requires SharedOk(s) && PcOf(s, t) == DeqFree(dead, v, k) && LocalOk(s, t, PcOf(s, t))
    ensures SharedOk(StepFree(s, t, dead, v, k))
  {
    var s' := StepFree(s, t, dead, v, k);
    FreeNodes(s, t, dead, v, k);
    forall i: nat | s'.front.id <= i < |s'.h.links| ensures LinkOk(s', i) { assert LinkOk(s, i); }
  }

  lemma FreeOthers(s: State, t: Tid, dead: Addr, v: Data, k: nat)
    requires SharedOk(s) && PcOf(s, t) == DeqFree(dead, v, k) && LocalOk(s, t, PcOf(s, t))
    ensures forall u :: u != t ==> Rely(s, StepFree(s, t, dead, v, k), u)
  {
  }

  lemma FreeKeeps(s: State, t: Tid, act: Action, s': State)
    requires Inv(s) && PcOf(s, t).DeqFree? && s' == Step(s, t, act)
    ensures Inv(s')
  {
    assert ThreadOk(s, t);
    var DeqFree(dead, v, k) := PcOf(s, t);
    FreeShared(s, t, dead, v, k);
    FreeOthers(s, t, dead, v, k);
    Assemble(s, s', t, Idle);
  }

  // All steps ----------------------------------------------------------------------------

  lemma EnqStepKeeps(s: State, t: Tid, act: Action, s': State)
    requires Inv(s) && s' == Step(s, t, act)
    requires !PcOf(s, t).Idle? && !InDeQ(PcOf(s, t))
    ensures Inv(s')
  {
    assert ThreadOk(s, t);
    match PcOf(s, t)
    case Crashed(_) =>
    case Wild =>
    case EnqCheck(_) => CheckKeeps(s, t, act, s');
    case EnqAlloc(_) => AllocKeeps(s, t, act, s');
    case EnqSetData(_, _) => SetDataKeeps(s, t, act, s');
    case EnqNewTag(_, _) => NewTagKeeps(s, t, act, s');
    case EnqSetNext(_, _, _) => SetNextKeeps(s, t, act, s');
    case EnqLoadNode(_, _, _) => LoadRearNodeKeeps(s, t, act, s');
    case EnqLoadId(_, _, _, _) => LoadRearIdKeeps(s, t, act, s');
    case EnqCas1(_, _, _, _, _) => Cas1Keeps(s, t, act, s');
    case EnqReadNext(_, _, _, _, _) => ReadNextKeeps(s, t, act, s');
    case EnqReadTag(_, _, _, _, _, _) => ReadTagKeeps(s, t, act, s');
    case EnqHelp(_, _, _, _, _, _, _) => HelpKeeps(s, t, act, s');
    case EnqReRead(_, _, _) => ReReadKeeps(s, t, act, s');
    case EnqCas2(_, _, _, _) => Cas2Keeps(s, t, act, s');
    case EnqCount(_) => CountKeeps(s, t, act, s');
  }

  lemma DeqStepKeeps(s: State, t: Tid, act: Action, s': State)
    requires Inv(s) && s' == Step(s, t, act)
    requires PcOf(s, t).Idle? || InDeQ(PcOf(s, t))
    ensures Inv(s')
  {
    assert ThreadOk(s, t);
    match PcOf(s, t)
    case Crashed(_) =>
    case Idle =>
      if act.CallEnQ? {
        MoveOnly(s, t, EnqCheck(act.d));
      } else if act.CallDeQ? {
        MoveOnly(s, t, DeqGate);
      }
    case DeqGate => GateKeeps(s, t, act, s');
    case DeqUndo => UndoKeeps(s, t, act, s');
    case DeqLoadNode => LoadFrontKeeps(s, t, act, s');
    case DeqLoadId(_) => LoadFrontIdKeeps(s, t, act, s');
    case DeqNext(_) => NextKeeps(s, t, act, s');
    case DeqData(_, _) => DataKeeps(s, t, act, s');
    case DeqCas(_, _, _) => DeqCasKeeps(s, t, act, s');
    case DeqFree(_, _, _) => FreeKeeps(s, t, act, s');
  }

  lemma StepKeeps(s: State, t: Tid, act: Action)
    requires Inv(s)
    ensures Inv(Step(s, t, act))
  {
    if PcOf(s, t).Idle? || InDeQ(PcOf(s, t)) {
      DeqStepKeeps(s, t, act, Step(s, t, act));
    } else {
      EnqStepKeeps(s, t, act, Step(s, t, act));
    }
  }

  lemma InitInv(maxCount: int, dummy: Addr)
    ensures Inv(Init(maxCount, dummy))
  {
    var s := Init(maxCount, dummy);
    assert LinkOk(s, 0);
    assert NodeOk(s, dummy);
  }

  /** The invariant holds after every interleaving of any number of calls. */
  lemma {:induction false} ExecInv(maxCount: int, dummy: Addr, moves: seq<Move>)
    ensures Inv(Exec(Init(maxCount, dummy), moves))
    decreases |moves|
  {
    if moves == [] {
      InitInv(maxCount, dummy);
    } else {
      ExecInv(maxCount, dummy, moves[..|moves| - 1]);
      var last := moves[|moves| - 1];
      StepKeeps(Exec(Init(maxCount, dummy), moves[..|moves| - 1]), last.t, last.act);
    }
  }
}
