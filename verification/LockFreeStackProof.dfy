/** The counter gate keeps poppers off an empty stack; the versioned top keeps it linearizable. */
module LockFreeStackProof {
  import opened Options
  import opened LockFreeStack

  function LinkTo(list: seq<Addr>): Link {
    if list == [] then Nil else At(list[|list| - 1])
  }

  predicate Pushing(pc: Pc) {
    pc.PushInit? || pc.PushLoadPtr? || pc.PushLoadId? || pc.PushLink? || pc.PushCas?
  }

  predicate Holding(pc: Pc, a: Addr) {
    (Pushing(pc) && pc.n == a) || (pc.PopRead? && pc.a == a) || (pc.PopFree? && pc.a == a)
  }

  predicate PastGate(pc: Pc) {
    pc.PopLoadPtr? || pc.PopLoadId? || pc.PopNext? || pc.PopCas?
  }

  ghost predicate NodeOk(s: State, a: Addr)
    requires a in s.heap && a in s.h.owner
  {
    && (a in s.pool <==> s.h.owner[a] == Pooled)
    && (match s.h.owner[a]
        case Pooled => true
        case Listed(i) => i < |s.h.list| && s.h.list[i] == a && s.heap[a].next == LinkTo(s.h.list[..i])
        case HeldBy(t) => Holding(PcOf(s, t), a))
  }

  ghost predicate ListOk(s: State) {
    && s.heap.Keys == s.h.owner.Keys
    && s.pool <= s.heap.Keys
    && s.top.ptr == LinkTo(s.h.list)
    && (forall i :: 0 <= i < |s.h.list| ==> s.h.list[i] in s.h.owner && s.h.owner[s.h.list[i]] == Listed(i))
    && (forall a {:trigger NodeOk(s, a)} :: a in s.heap ==> NodeOk(s, a))
  }

  /** Pushed minus popped covers every popper past the gate. */
  ghost predicate CountsOk(s: State) {
    && s.count + |s.h.poppers| + |s.h.failing| + |s.h.uncounted| == |s.h.list|
    && |s.h.poppers| + |s.h.uncounted| <= |s.h.list|
  }

  ghost predicate SharedOk(s: State) {
    ListOk(s) && CountsOk(s)
  }

  ghost predicate LinkOk(s: State, p: Link) {
    p.At? ==> p.addr in s.heap
  }

  ghost predicate Holds(s: State, t: Tid, a: Addr) {
    a in s.heap && a in s.h.owner && s.h.owner[a] == HeldBy(t)
  }

  ghost predicate LocalOk(s: State, t: Tid, pc: Pc) {
    && (t in s.h.uncounted <==> pc.PushCount?)
    && (t in s.h.poppers <==> PastGate(pc))
    && (t in s.h.failing <==> pc.PopUndo?)
    && !pc.Crashed? && !pc.Wild?
    && (Pushing(pc) ==> Holds(s, t, pc.n))
    && (match pc
        case PushLoadPtr(d, n) => s.heap[n].data == d
        case PushLoadId(d, n, p) => s.heap[n].data == d && LinkOk(s, p)
        case PushLink(d, n, tt) => s.heap[n].data == d && LinkOk(s, tt.ptr) && tt.id <= s.top.id
        case PushCas(d, n, tt) => s.heap[n] == Node(d, tt.ptr) && LinkOk(s, tt.ptr) && tt.id <= s.top.id
        case PopLoadId(p) => p.At? && LinkOk(s, p)
        case PopNext(tt) => tt.ptr.At? && LinkOk(s, tt.ptr) && tt.id <= s.top.id
        case PopCas(tt, w) =>
          && tt.ptr.At? && LinkOk(s, tt.ptr) && tt.id <= s.top.id
          && (s.top == tt ==> |s.h.list| > 0 && w == LinkTo(s.h.list[..|s.h.list| - 1]))
        case PopRead(a, k) => Holds(s, t, a) && k < |s.h.log| && s.h.log[k] == Popped(s.heap[a].data)
        case PopFree(a, v, k) => Holds(s, t, a) && k < |s.h.log| && s.h.log[k] == Popped(v)
        case _ => true)
  }

  ghost predicate ThreadOk(s: State, t: Tid) {
    LocalOk(s, t, PcOf(s, t))
  }

  ghost predicate Inv(s: State) {
    && SharedOk(s)
    && (forall t: Tid {:trigger ThreadOk(s, t)} :: ThreadOk(s, t))
  }

  /** What another thread's step leaves true for u: a moved top has a new version. */
  ghost predicate Rely(s: State, s': State, u: Tid) {
    && s.heap.Keys <= s'.heap.Keys
    && s.top.id <= s'.top.id
    && (s.top.id == s'.top.id ==> s.top == s'.top && s.h.list == s'.h.list)
    && s.h.log <= s'.h.log
    && (forall a :: a in s.heap && a in s.h.owner && s.h.owner[a] == HeldBy(u) ==>
          a in s'.h.owner && s'.h.owner[a] == HeldBy(u) && s'.heap[a] == s.heap[a])
    && (u in s.h.uncounted <==> u in s'.h.uncounted)
    && (u in s.h.poppers <==> u in s'.h.poppers)
    && (u in s.h.failing <==> u in s'.h.failing)
  }

  lemma Stable(s: State, s': State, u: Tid, pc: Pc)
    requires ListOk(s) && ListOk(s') && Rely(s, s', u) && LocalOk(s, u, pc)
    ensures LocalOk(s', u, pc)
  {
  }

  lemma Assemble(s: State, s': State, t: Tid, pc': Pc)
    requires Inv(s) && SharedOk(s')
    requires s'.pcs == s.pcs[t := pc']
    requires forall u :: u != t ==> Rely(s, s', u)
    requires LocalOk(s', t, pc')
    ensures Inv(s')
  {
    forall u: Tid ensures ThreadOk(s', u) {
      assert ThreadOk(s, u);
      if u != t {
        assert PcOf(s', u) == PcOf(s, u);
        Stable(s, s', u, PcOf(s, u));
      }
    }
  }

  /** The list stays; counters and t's program counter may change. */
  lemma SameList(s: State, s': State, t: Tid, pc': Pc)
    requires Inv(s) && s'.pcs == s.pcs[t := pc']
    requires s' == s.(pcs := s'.pcs, count := s'.count,
                      h := s.h.(uncounted := s'.h.uncounted, poppers := s'.h.poppers, failing := s'.h.failing))
    requires forall a :: Holding(PcOf(s, t), a) ==> Holding(pc', a)
    requires CountsOk(s') && LocalOk(s', t, pc')
    requires forall u :: u != t ==> Rely(s, s', u)
    ensures Inv(s')
  {
    forall a | a in s'.heap ensures NodeOk(s', a) { assert NodeOk(s, a); }
    Assemble(s, s', t, pc');
  }

  lemma MoveOnly(s: State, t: Tid, pc': Pc)
    requires Inv(s) && LocalOk(s, t, pc')
    requires forall a :: Holding(PcOf(s, t), a) ==> Holding(pc', a)
    ensures Inv(Go(s, t, pc'))
  {
    SameList(s, Go(s, t, pc'), t, pc');
  }

  /** Only node a, private to t, changes. */
  lemma PrivateWrite(s: State, s': State, t: Tid, a: Addr, pc': Pc)
    requires Inv(s) && s'.pcs == s.pcs[t := pc']
    requires a in s.heap ==> a in s.h.owner && (s.h.owner[a] == HeldBy(t) || s.h.owner[a] == Pooled)
    requires a in s'.heap
    requires s' == s.(pcs := s'.pcs, heap := s.heap[a := s'.heap[a]], pool := s.pool - {a},
                      h := s.h.(owner := s.h.owner[a := HeldBy(t)]))
    requires forall b :: Holding(PcOf(s, t), b) ==> b == a
    requires Pushing(pc') && pc'.n == a && LocalOk(s', t, pc')
    requires t !in s.h.uncounted && t !in s.h.poppers && t !in s.h.failing
    ensures Inv(s')
  {
    PrivateShared(s, s', t, a, pc');
    Assemble(s, s', t, pc');
  }

  lemma PrivateShared(s: State, s': State, t: Tid, a: Addr, pc': Pc)
    requires SharedOk(s) && s'.pcs == s.pcs[t := pc']
    requires a in s.heap ==> a in s.h.owner && (s.h.owner[a] == HeldBy(t) || s.h.owner[a] == Pooled)
    requires a in s'.heap
    requires s' == s.(pcs := s'.pcs, heap := s.heap[a := s'.heap[a]], pool := s.pool - {a},
                      h := s.h.(owner := s.h.owner[a := HeldBy(t)]))
    requires forall b :: Holding(PcOf(s, t), b) ==> b == a
    requires Pushing(pc') && pc'.n == a
    ensures SharedOk(s')
  {
    forall b | b in s'.heap ensures NodeOk(s', b) { if b != a { assert NodeOk(s, b); } }
  }

  // Push steps ------------------------------------------------------------------------

  lemma AllocKeeps(s: State, t: Tid, act: Action, s': State)
    requires Inv(s) && PcOf(s, t).PushAlloc? && s' == Step(s, t, act)
    ensures Inv(s')
  {
    assert ThreadOk(s, t);
    if act.Run? && (act.a in s.pool || act.a !in s.heap) {
      if act.a in s.heap { assert NodeOk(s, act.a); }
      PrivateWrite(s, s', t, act.a, PushInit(PcOf(s, t).d, act.a));
    }
  }

  lemma WriteKeeps(s: State, t: Tid, act: Action, s': State)
    requires Inv(s) && (PcOf(s, t).PushInit? || PcOf(s, t).PushLink?) && s' == Step(s, t, act)
    ensures Inv(s')
  {
    assert ThreadOk(s, t);
    var n := PcOf(s, t).n;
    assert NodeOk(s, n);
    assert s.h.owner[n := HeldBy(t)] == s.h.owner;
    assert s.pool - {n} == s.pool;
    PrivateWrite(s, s', t, n, PcOf(s', t));
  }

  lemma PushShared(s: State, t: Tid, d: Data, n: Addr, s': State)
    requires SharedOk(s) && PcOf(s, t) == PushCas(d, n, s.top) && LocalOk(s, t, PcOf(s, t))
    requires s' == StepPushCas(s, t, d, n, s.top)
    ensures SharedOk(s')
  {
    assert NodeOk(s, n);
    forall b | b in s'.heap ensures NodeOk(s', b) {
      assert NodeOk(s, b);
      if b == n {
        assert s'.h.list[..|s.h.list|] == s.h.list;
      } else if s.h.owner[b].Listed? {
        assert s'.h.list[..s.h.owner[b].i] == s.h.list[..s.h.owner[b].i];
      }
    }
  }

  lemma PushRely(s: State, t: Tid, d: Data, n: Addr, s': State)
    requires PcOf(s, t) == PushCas(d, n, s.top) && LocalOk(s, t, PcOf(s, t))
    requires s' == StepPushCas(s, t, d, n, s.top)
    ensures forall u :: u != t ==> Rely(s, s', u)
  {
  }

  lemma PushCasKeeps(s: State, t: Tid, act: Action, s': State)
    requires Inv(s) && PcOf(s, t).PushCas? && s' == Step(s, t, act)
    ensures Inv(s')
  {
    assert ThreadOk(s, t);
    if s.top == PcOf(s, t).tt {
      PushShared(s, t, PcOf(s, t).d, PcOf(s, t).n, s');
      PushRely(s, t, PcOf(s, t).d, PcOf(s, t).n, s');
      Assemble(s, s', t, PushCount);
    } else {
      assert s.top.ptr.At? ==> s.top.ptr.addr in s.heap;
      MoveOnly(s, t, PushLink(PcOf(s, t).d, PcOf(s, t).n, s.top));
    }
  }

  lemma CountKeeps(s: State, t: Tid, act: Action, s': State)
    requires Inv(s) && PcOf(s, t).PushCount? && s' == Step(s, t, act)
    ensures Inv(s')
  {
    assert ThreadOk(s, t);
    SameList(s, s', t, Idle);
  }

  // Pop steps -------------------------------------------------------------------------

  lemma GateKeeps(s: State, t: Tid, act: Action, s': State)
    requires Inv(s) && PcOf(s, t).PopGate? && s' == Step(s, t, act)
    ensures Inv(s')
  {
    assert ThreadOk(s, t);
    SameList(s, s', t, if s.count - 1 < 0 then PopUndo else PopLoadPtr);
  }

  lemma UndoKeeps(s: State, t: Tid, act: Action, s': State)
    requires Inv(s) && PcOf(s, t).PopUndo? && s' == Step(s, t, act)
    ensures Inv(s')
  {
    assert ThreadOk(s, t);
    SameList(s, s', t, Idle);
  }

  /** The gate: a popper past it never finds a null top. */
  lemma NeverEmpty(s: State, t: Tid)
    requires Inv(s) && PastGate(PcOf(s, t))
    ensures |s.h.list| > 0 && s.top.ptr.At? && s.top.ptr.addr in s.heap
  {
    assert ThreadOk(s, t);
    assert s.h.poppers == (s.h.poppers - {t}) + {t};
  }

  lemma NextKeeps(s: State, t: Tid, act: Action, s': State)
    requires Inv(s) && PcOf(s, t).PopNext? && s' == Step(s, t, act)
    ensures Inv(s')
  {
    assert ThreadOk(s, t);
    var tt := PcOf(s, t).tt;
    NeverEmpty(s, t);
    assert NodeOk(s, s.top.ptr.addr);
    MoveOnly(s, t, PopCas(tt, s.heap[tt.ptr.addr].next));
  }

  lemma PopShared(s: State, t: Tid, w: Link, s': State)
    requires SharedOk(s) && PcOf(s, t) == PopCas(s.top, w) && LocalOk(s, t, PcOf(s, t))
    requires s' == StepPopCas(s, t, s.top, w)
    ensures SharedOk(s')
  {
    var a := s.top.ptr.addr;
    assert NodeOk(s, a);
    assert s.h.poppers == (s.h.poppers - {t}) + {t};
    forall b | b in s'.heap ensures NodeOk(s', b) {
      assert NodeOk(s, b);
      if b != a && s.h.owner[b].Listed? {
        assert s'.h.list[..s.h.owner[b].i] == s.h.list[..s.h.owner[b].i];
      }
    }
  }

  lemma PopCasKeeps(s: State, t: Tid, act: Action, s': State)
    requires Inv(s) && PcOf(s, t).PopCas? && s' == Step(s, t, act)
    ensures Inv(s')
  {
    assert ThreadOk(s, t);
    if s.top == PcOf(s, t).tt {
      PopShared(s, t, PcOf(s, t).w, s');
      Assemble(s, s', t, PopRead(s.top.ptr.addr, |s.h.log|));
    } else {
      NeverEmpty(s, t);
      MoveOnly(s, t, PopNext(s.top));
    }
  }

  lemma FreeKeeps(s: State, t: Tid, act: Action, s': State)
    requires Inv(s) && PcOf(s, t).PopFree? && s' == Step(s, t, act)
    ensures Inv(s')
  {
    assert ThreadOk(s, t);
    FreeShared(s, t, PcOf(s, t).a, s');
    FreeRely(s, t, PcOf(s, t).a, s');
    Assemble(s, s', t, Idle);
  }

  lemma FreeShared(s: State, t: Tid, a: Addr, s': State)
    requires SharedOk(s) && PcOf(s, t).PopFree? && PcOf(s, t).a == a && Holds(s, t, a) && s' == Step(s, t, Run(a))
    ensures SharedOk(s')
  {
    assert NodeOk(s, a);
    forall b | b in s'.heap ensures NodeOk(s', b) { assert NodeOk(s, b); }
  }

  lemma FreeRely(s: State, t: Tid, a: Addr, s': State)
    requires PcOf(s, t).PopFree? && PcOf(s, t).a == a && Holds(s, t, a) && s' == Step(s, t, Run(a))
    ensures forall u :: u != t ==> Rely(s, s', u)
  {
  }

  lemma LoadKeeps(s: State, t: Tid, act: Action, s': State)
    requires Inv(s) && s' == Step(s, t, act)
    requires var pc := PcOf(s, t); pc.Idle? || pc.PushLoadPtr? || pc.PushLoadId?
                                   || pc.PopLoadPtr? || pc.PopLoadId? || pc.PopRead?
    ensures Inv(s')
  {
    assert ThreadOk(s, t);
    assert s.top.ptr.At? ==> s.top.ptr.addr in s.heap;
    if PastGate(PcOf(s, t)) { NeverEmpty(s, t); }
    if PcOf(s, t).Idle? && act.Run? {
    } else {
      MoveOnly(s, t, PcOf(s', t));
    }
  }

  lemma StepKeeps(s: State, t: Tid, act: Action, s': State)
    requires Inv(s) && s' == Step(s, t, act)
    ensures Inv(s')
  {
    match PcOf(s, t)
    case Crashed =>
    case Wild =>
    case PushAlloc(_) => AllocKeeps(s, t, act, s');
    case PushInit(_, _) => WriteKeeps(s, t, act, s');
    case PushLink(_, _, _) => WriteKeeps(s, t, act, s');
    case PushCas(_, _, _) => PushCasKeeps(s, t, act, s');
    case PushCount => CountKeeps(s, t, act, s');
    case PopGate => GateKeeps(s, t, act, s');
    case PopUndo => UndoKeeps(s, t, act, s');
    case PopNext(_) => NextKeeps(s, t, act, s');
    case PopCas(_, _) => PopCasKeeps(s, t, act, s');
    case PopFree(_, _, _) => FreeKeeps(s, t, act, s');
    case _ => LoadKeeps(s, t, act, s');
  }

  lemma {:induction false} ExecInv(moves: seq<Move>)
    ensures Inv(Exec(moves))
    decreases |moves|
  {
    if moves != [] {
      var before := moves[..|moves| - 1];
      ExecInv(before);
      StepKeeps(Exec(before), moves[|moves| - 1].t, moves[|moves| - 1].act, Exec(moves));
    }
  }

  // Promises over whole runs ------------------------------------------------------------

  /** Run a history against a sequential stack (top last); None if some pop was wrong. */
  function Replay(log: seq<Event>): Option<seq<Data>> {
    if log == [] then Some([])
    else
      match (Replay(log[..|log| - 1]), log[|log| - 1])
      case (None, _) => None
      case (Some(q), Pushed(v)) => Some(q + [v])
      case (Some(q), Popped(v)) => if q != [] && q[|q| - 1] == v then Some(q[..|q| - 1]) else None
  }

  lemma ReplayAppend(log: seq<Event>, e: Event)
    ensures Replay(log + [e]) == match (Replay(log), e)
                                 case (None, _) => None
                                 case (Some(q), Pushed(v)) => Some(q + [v])
                                 case (Some(q), Popped(v)) =>
                                   if q != [] && q[|q| - 1] == v then Some(q[..|q| - 1]) else None
  {
    assert (log + [e])[..|log + [e]| - 1] == log;
  }

  /** The real nodes, bottom first, hold xs. */
  ghost predicate Stacked(s: State, xs: seq<Data>) {
    && |xs| == |s.h.list|
    && forall i :: 0 <= i < |xs| ==> s.h.list[i] in s.heap && s.heap[s.h.list[i]].data == xs[i]
  }

  ghost predicate LogOk(s: State) {
    Replay(s.h.log).Some? && Stacked(s, Replay(s.h.log).value)
  }

  /** Every step but the two successful CASes leaves the stacked data alone. */
  ghost predicate SameStack(s: State, s': State) {
    && s'.h.log == s.h.log && s'.h.list == s.h.list
    && forall i :: 0 <= i < |s.h.list| && s.h.list[i] in s.heap ==>
         s.h.list[i] in s'.heap && s'.heap[s.h.list[i]].data == s.heap[s.h.list[i]].data
  }

  lemma QuietStep(s: State, t: Tid, act: Action, s': State)
    requires Inv(s) && s' == Step(s, t, act)
    requires !PcOf(s, t).PushCas? && !PcOf(s, t).PopCas?
    ensures SameStack(s, s')
  {
    assert ThreadOk(s, t);
    if PcOf(s, t).PushAlloc? && act.Run? && act.a in s.heap { assert NodeOk(s, act.a); }
  }

  lemma PushLog(s: State, t: Tid, act: Action, s': State)
    requires Inv(s) && LogOk(s) && PcOf(s, t).PushCas? && s' == Step(s, t, act)
    ensures LogOk(s')
  {
    var PushCas(d, n, tt) := PcOf(s, t);
    assert ThreadOk(s, t);
    if s.top == tt {
      var q := Replay(s.h.log).value;
      assert s'.h.log == s.h.log + [Pushed(d)] && s'.h.list == s.h.list + [n] && s'.heap == s.heap;
      assert Replay(s'.h.log) == Some(q + [d]) by { ReplayAppend(s.h.log, Pushed(d)); }
      assert Stacked(s', q + [d]);
    }
  }

  lemma PopLog(s: State, t: Tid, act: Action, s': State)
    requires Inv(s) && LogOk(s) && PcOf(s, t).PopCas? && s' == Step(s, t, act)
    ensures LogOk(s')
  {
    var PopCas(tt, w) := PcOf(s, t);
    assert ThreadOk(s, t);
    NeverEmpty(s, t);
    if s.top == tt {
      var q, v := Replay(s.h.log).value, s.heap[s.top.ptr.addr].data;
      var n := |q| - 1;
      assert s'.h.log == s.h.log + [Popped(v)] && s'.h.list == s.h.list[..n] && s'.heap == s.heap;
      assert q[n] == v;
      assert Replay(s'.h.log) == Some(q[..n]) by { ReplayAppend(s.h.log, Popped(v)); }
      assert Stacked(s', q[..n]);
    }
  }

  lemma LogKeeps(s: State, t: Tid, act: Action, s': State)
    requires Inv(s) && LogOk(s) && s' == Step(s, t, act)
    ensures LogOk(s')
  {
    if PcOf(s, t).PushCas? {
      PushLog(s, t, act, s');
    } else if PcOf(s, t).PopCas? {
      PopLog(s, t, act, s');
    } else {
      QuietStep(s, t, act, s');
    }
  }

  lemma {:induction false} ExecLog(moves: seq<Move>)
    ensures LogOk(Exec(moves))
    decreases |moves|
  {
    if moves != [] {
      var before := moves[..|moves| - 1];
      ExecInv(before);
      ExecLog(before);
      LogKeeps(Exec(before), moves[|moves| - 1].t, moves[|moves| - 1].act, Exec(moves));
    }
  }

  /** Following m_next from l reads xs from its last element down to null. */
  ghost predicate Reads(heap: map<Addr, Node>, l: Link, xs: seq<Data>)
    decreases |xs|
  {
    if xs == [] then l == Nil
    else
      && l.At? && l.addr in heap && heap[l.addr].data == xs[|xs| - 1]
      && Reads(heap, heap[l.addr].next, xs[..|xs| - 1])
  }

  lemma {:induction false} ReadsList(s: State, xs: seq<Data>, i: nat)
    requires Inv(s) && Stacked(s, xs) && i <= |xs|
    ensures Reads(s.heap, LinkTo(s.h.list[..i]), xs[..i])
    decreases i
  {
    if i > 0 {
      assert NodeOk(s, s.h.list[i - 1]);
      ReadsList(s, xs, i - 1);
      assert xs[..i][..i - 1] == xs[..i - 1];
    }
  }

  /** In every interleaving the successful CASes, in order, are a legal run of a sequential
      stack; walking the real nodes from top reads that stack's contents; every popper
      returns the value its CAS removed; and nobody ever dereferences null. */
  lemma Linearizable(moves: seq<Move>)
    ensures var s := Exec(moves);
            && (exists xs :: Replay(s.h.log) == Some(xs) && Reads(s.heap, s.top.ptr, xs))
            && (forall t: Tid :: !PcOf(s, t).Crashed? && !PcOf(s, t).Wild?)
            && (forall t: Tid :: PcOf(s, t).PopFree? ==>
                  PcOf(s, t).k < |s.h.log| && s.h.log[PcOf(s, t).k] == Popped(PcOf(s, t).v))
  {
    var s := Exec(moves);
    ExecInv(moves);
    ExecLog(moves);
    var xs := Replay(s.h.log).value;
    ReadsList(s, xs, |xs|);
    assert xs[..|xs|] == xs && s.h.list[..|xs|] == s.h.list;
    forall t: Tid
      ensures !PcOf(s, t).Crashed? && !PcOf(s, t).Wild?
      ensures PcOf(s, t).PopFree? ==>
                PcOf(s, t).k < |s.h.log| && s.h.log[PcOf(s, t).k] == Popped(PcOf(s, t).v)
    {
      assert ThreadOk(s, t);
    }
  }

  function Count(log: seq<Event>, e: Event): nat {
    if log == [] then 0 else Count(log[..|log| - 1], e) + if log[|log| - 1] == e then 1 else 0
  }

  /** Conservation: of every value, what was pushed is what was popped plus what is left. */
  lemma {:induction false} Conservation(log: seq<Event>, xs: seq<Data>, v: Data)
    requires Replay(log) == Some(xs)
    ensures Count(log, Pushed(v)) == Count(log, Popped(v)) + multiset(xs)[v]
    decreases |log|
  {
    if log != [] {
      var q := Replay(log[..|log| - 1]).value;
      Conservation(log[..|log| - 1], q, v);
      if log[|log| - 1].Popped? {
        assert q == xs + [q[|q| - 1]];
      }
    }
  }
}
