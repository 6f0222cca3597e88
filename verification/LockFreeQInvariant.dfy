/** What every step of the lock-free queue keeps. */
module LockFreeQInvariant {
  import opened Options
  import opened LockFreeQ

  function HeldNode(pc: Pc): Option<Addr> {
    match pc
    case EnqSetData(_, n) => Some(n)
    case EnqNewTag(_, n) => Some(n)
    case EnqSetNext(_, n, _) => Some(n)
    case EnqLoadNode(_, n, _) => Some(n)
    case EnqLoadId(_, n, _, _) => Some(n)
    case EnqCas1(_, n, _, _, _) => Some(n)
    case EnqReadNext(_, n, _, _, _) => Some(n)
    case EnqReadTag(_, n, _, _, _, _) => Some(n)
    case EnqHelp(_, n, _, _, _, _, _) => Some(n)
    case DeqFree(n, _, _) => Some(n)
    case Crashed(at) => HeldNode(at)
    case _ => None
  }

  /** An EnQ between the construction of its node and the tag write. */
  predicate Constructing(pc: Pc) {
    pc.EnqSetData? || pc.EnqNewTag? || pc.EnqSetNext?
  }

  predicate PastGate(pc: Pc) {
    pc.DeqLoadNode? || pc.DeqLoadId? || pc.DeqNext? || pc.DeqData? || pc.DeqCas?
    || (pc.Crashed? && PastGate(pc.at))
  }

  predicate InDeQ(pc: Pc) {
    PastGate(pc) || pc.DeqGate? || pc.DeqUndo? || pc.DeqFree?
  }

  // Shared part -----------------------------------------------------------------

  ghost predicate LinkOk(s: State, i: nat)
    requires i < |s.h.links|
  {
    var e := s.h.links[i];
    && e.addr in s.heap
    && e.addr in s.h.owner
    && s.h.owner[e.addr] == Linked(i)
    && s.heap[e.addr].data == e.data
    && s.heap[e.addr].next == (if i + 1 < |s.h.links| then Ptr(s.h.links[i + 1].addr) else Tag(e.tag))
  }

  ghost predicate ListOk(s: State) {
    && s.front.id <= s.h.rp < |s.h.links| <= s.h.rp + 2
    && s.front.node == s.h.links[s.front.id].addr
    && s.rear == Rear(s.h.links[s.h.rp].addr, Tag(s.h.links[s.h.rp].tag))
    && (forall i: nat {:trigger LinkOk(s, i)} :: s.front.id <= i < |s.h.links| ==> LinkOk(s, i))
  }

  ghost predicate TagsOk(s: State) {
    && (forall i :: 0 <= i < |s.h.links| ==>
          s.h.links[i].tag in s.h.home && s.h.home[s.h.links[i].tag] == AtLink(i))
    && (forall id :: id in s.h.home ==> id <= s.rearID)
  }

  /** What each node may hold, by owner. */
  ghost predicate NodeOk(s: State, a: Addr)
    requires a in s.heap && a in s.h.owner
  {
    && (s.h.owner[a].Pooled? <==> a in s.pool)
    && (s.h.owner[a].Linked? ==> s.front.id <= s.h.owner[a].k < |s.h.links| && s.h.links[s.h.owner[a].k].addr == a)
    && (s.h.owner[a].HeldBy? ==> HeldNode(PcOf(s, s.h.owner[a].t)) == Some(a))
    && (match s.heap[a].next
        case Null => s.h.owner[a].HeldBy? && Constructing(PcOf(s, s.h.owner[a].t))
        case Ptr(b) => b in s.heap
        case Tag(id) =>
          && id in s.h.home
          && s.h.owner[a] == (match s.h.home[id] case AtThread(t) => HeldBy(t) case AtLink(k) => Linked(k)))
  }

  ghost predicate NodesOk(s: State) {
    && s.heap.Keys == s.h.owner.Keys
    && s.pool <= s.heap.Keys
    && (forall a {:trigger NodeOk(s, a)} :: a in s.heap ==> NodeOk(s, a))
  }

  ghost predicate CountsOk(s: State) {
    && s.count == |s.h.counted| - s.front.id - |s.h.poppers| - |s.h.failing|
    && s.front.id + |s.h.poppers| <= |s.h.counted|
    && (forall k :: k in s.h.counted ==> 1 <= k <= s.h.rp)
    && (forall k :: k in s.h.pending ==> 1 <= k < |s.h.links| && k !in s.h.counted)
  }

  ghost predicate TicketsOk(s: State) {
    && s.front.id < |s.h.links|
    && (forall k :: k in s.h.tickets <==> 0 <= k < s.front.id)
    && (forall k :: k in s.h.tickets ==> s.h.tickets[k].v == s.h.links[k + 1].data)
  }

  ghost predicate SharedOk(s: State) {
    ListOk(s) && TagsOk(s) && NodesOk(s) && CountsOk(s) && TicketsOk(s)
  }

  // Per-thread part -----------------------------------------------------------------

  /** t owns n and nobody else can reach it. */
  ghost predicate Holds(s: State, t: Tid, n: Addr) {
    n in s.heap && n in s.h.owner && s.h.owner[n] == HeldBy(t)
  }

  /** t owns the finished private node n carrying datum d and tag id. */
  ghost predicate HasNode(s: State, t: Tid, d: Data, n: Addr, id: int) {
    && Holds(s, t, n)
    && id in s.h.home && s.h.home[id] == AtThread(t)
    && s.heap[n] == Node(d, Tag(id))
  }

  /** tr.id is the tag of link j, which rear had reached; tr.node may be anything. */
  ghost predicate SawRear(s: State, tr: Rear, j: nat) {
    && j <= s.h.rp < |s.h.links|
    && tr.node in s.heap
    && tr.id == Tag(s.h.links[j].tag)
  }

  /** If rear still is tr, then m is the one node after it. */
  ghost predicate SawSuccessor(s: State, tr: Rear, j: nat, m: Addr) {
    && m in s.heap
    && (s.rear == tr ==> |s.h.links| == j + 2 && m == s.h.links[j + 1].addr)
  }

  ghost predicate LinkedOnce(s: State, t: Tid, n: Addr, tr: Rear, j: nat) {
    && SawRear(s, tr, j)
    && j + 1 < |s.h.links|
    && s.h.links[j].addr == tr.node
    && s.h.links[j + 1].addr == n
    && n in s.heap
    && j + 1 in s.h.pending && s.h.pending[j + 1] == t
  }

  ghost predicate SawFront(s: State, tf: Front) {
    tf.id <= s.front.id && tf.node in s.heap
  }

  ghost predicate EnqOk(s: State, t: Tid, pc: Pc) {
    match pc
    case EnqSetData(d, n) => Holds(s, t, n) && s.heap[n].next == Null
    case EnqNewTag(d, n) => Holds(s, t, n) && s.heap[n] == Node(d, Null)
    case EnqSetNext(d, n, id) =>
      Holds(s, t, n) && s.heap[n] == Node(d, Null) && id in s.h.home && s.h.home[id] == AtThread(t)
    case EnqLoadNode(d, n, id) => HasNode(s, t, d, n, id)
    case EnqLoadId(d, n, id, rn) => HasNode(s, t, d, n, id) && rn in s.heap
    case EnqCas1(d, n, id, tr, j) => HasNode(s, t, d, n, id) && SawRear(s, tr, j)
    case EnqReadNext(d, n, id, tr, j) => HasNode(s, t, d, n, id) && SawRear(s, tr, j)
    case EnqReadTag(d, n, id, tr, j, m) =>
      HasNode(s, t, d, n, id) && SawRear(s, tr, j) && SawSuccessor(s, tr, j, m)
    case EnqHelp(d, n, id, tr, j, m, w) =>
      && HasNode(s, t, d, n, id) && SawRear(s, tr, j) && SawSuccessor(s, tr, j, m)
      && (s.rear == tr ==> w == Tag(s.h.links[j + 1].tag))
    case EnqReRead(n, tr, j) => LinkedOnce(s, t, n, tr, j)
    case EnqCas2(n, tr, j, w) =>
      LinkedOnce(s, t, n, tr, j) && (|s.h.links| == j + 2 ==> w == Tag(s.h.links[j + 1].tag))
    case EnqCount(k) => 1 <= k <= s.h.rp && k in s.h.pending && s.h.pending[k] == t
    case Crashed(at) => HeldNode(at).Some? ==> Holds(s, t, HeldNode(at).value)
    case _ => true
  }

  ghost predicate DeqOk(s: State, t: Tid, pc: Pc) {
    match pc
    case DeqLoadId(fn) => fn in s.heap
    case DeqNext(tf) => SawFront(s, tf)
    case DeqData(tf, m) =>
      && SawFront(s, tf) && m in s.heap
      && (s.front == tf ==> tf.id + 1 < |s.h.links| && m == s.h.links[tf.id + 1].addr)
    case DeqCas(tf, m, v) =>
      && SawFront(s, tf) && m in s.heap
      && (s.front == tf ==> tf.id + 1 < |s.h.links| && m == s.h.links[tf.id + 1].addr
                            && v == s.h.links[tf.id + 1].data)
    case DeqFree(o, v, k) =>
      && Holds(s, t, o) && s.heap[o].next.Ptr?
      && k in s.h.tickets && s.h.tickets[k] == Claimed(t, v)
    case _ => true
  }

  ghost predicate LocalOk(s: State, t: Tid, pc: Pc) {
    && (t in s.h.poppers <==> PastGate(pc))
    && (t in s.h.failing <==> pc.DeqUndo?)
    && !pc.Wild?
    && EnqOk(s, t, pc)
    && DeqOk(s, t, pc)
  }

  ghost predicate ThreadOk(s: State, t: Tid) {
    LocalOk(s, t, PcOf(s, t))
  }

  ghost predicate ThreadsOk(s: State) {
    forall t: Tid {:trigger ThreadOk(s, t)} :: ThreadOk(s, t)
  }

  ghost predicate Inv(s: State) {
    SharedOk(s) && ThreadsOk(s)
  }

  // Interference ------------------------------------------------------------------

  /** What a step of another thread leaves true for thread u. */
  ghost predicate Rely(s: State, s': State, u: Tid) {
    && s.h.links <= s'.h.links
    && s.front.id <= s'.front.id
    && s.h.rp <= s'.h.rp
    && s.heap.Keys <= s'.heap.Keys
    && (forall a :: a in s.heap && a in s.h.owner && s.h.owner[a] == HeldBy(u) ==>
          a in s'.h.owner && s'.h.owner[a] == HeldBy(u) && s'.heap[a] == s.heap[a])
    && (forall id :: id in s.h.home && s.h.home[id] == AtThread(u) ==>
          id in s'.h.home && s'.h.home[id] == AtThread(u))
    && (forall k :: k in s.h.pending && s.h.pending[k] == u ==> k in s'.h.pending && s'.h.pending[k] == u)
    && (forall k :: k in s.h.tickets && s.h.tickets[k].Claimed? && s.h.tickets[k].t == u ==>
          k in s'.h.tickets && s'.h.tickets[k] == s.h.tickets[k])
    && (u in s.h.poppers <==> u in s'.h.poppers)
    && (u in s.h.failing <==> u in s'.h.failing)
  }

  lemma StableEnq(s: State, s': State, u: Tid, pc: Pc)
    requires TagsOk(s') && ListOk(s) && ListOk(s') && NodesOk(s') && Rely(s, s', u)
    requires EnqOk(s, u, pc)
    ensures EnqOk(s', u, pc)
  {
    forall j: nat | j <= s.h.rp
      ensures s'.rear.id == Tag(s.h.links[j].tag) ==> s.h.rp == s'.h.rp == j
    {
      assert s'.h.links[j] == s.h.links[j];
      assert s'.h.home[s'.h.links[j].tag] == AtLink(j);
      assert s'.h.home[s'.h.links[s'.h.rp].tag] == AtLink(s'.h.rp);
    }
  }

  lemma StableDeq(s: State, s': State, u: Tid, pc: Pc)
    requires ListOk(s) && ListOk(s') && NodesOk(s') && Rely(s, s', u)
    requires DeqOk(s, u, pc)
    ensures DeqOk(s', u, pc)
  {
    assert s'.h.links[s.front.id] == s.h.links[s.front.id];
  }

  /** A thread's own knowledge survives everybody else's steps. */
  lemma Stable(s: State, s': State, u: Tid, pc: Pc)
    requires SharedOk(s) && SharedOk(s') && Rely(s, s', u)
    requires LocalOk(s, u, pc)
    ensures LocalOk(s', u, pc)
  {
    StableEnq(s, s', u, pc);
    StableDeq(s, s', u, pc);
  }

  /** It is enough to check the shared part, the mover, and the interference. */
  lemma Assemble(s: State, s': State, t: Tid, pc': Pc)
    requires Inv(s) && SharedOk(s')
    requires s'.pcs == s.pcs[t := pc']
    requires forall u :: u != t ==> Rely(s, s', u)
    requires LocalOk(s', t, pc')
    ensures Inv(s')
  {
    forall u: Tid ensures ThreadOk(s', u) {
      assert ThreadOk(s, u);
      if u != t {
        assert PcOf(s', u) == PcOf(s, u);
        Stable(s, s', u, PcOf(s, u));
      }
    }
  }

  lemma MoveOnlyNodes(s: State, t: Tid, pc': Pc)
    requires NodesOk(s)
    requires HeldNode(pc') == HeldNode(PcOf(s, t))
    requires Constructing(PcOf(s, t)) ==> Constructing(pc')
    ensures NodesOk(Go(s, t, pc'))
  {
    var s' := Go(s, t, pc');
    forall a | a in s'.heap ensures NodeOk(s', a) { assert NodeOk(s, a); }
  }

  /** A step that changes nothing but the program counter. */
  lemma MoveOnly(s: State, t: Tid, pc': Pc)
    requires Inv(s)
    requires HeldNode(pc') == HeldNode(PcOf(s, t))
    requires Constructing(PcOf(s, t)) ==> Constructing(pc')
    requires LocalOk(s, t, pc')
    ensures Inv(Go(s, t, pc'))
  {
    var s' := Go(s, t, pc');
    assert ThreadOk(s, t);
    MoveOnlyNodes(s, t, pc');
    forall i: nat | s'.front.id <= i < |s'.h.links| ensures LinkOk(s', i) { assert LinkOk(s, i); }
    Assemble(s, s', t, pc');
  }
}
