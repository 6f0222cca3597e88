/** The free list is ABA-safe: what every step keeps, and what callers get. */
module FreeListProof {
  import opened FreeList

  // The calls as the clients see them ----------------------------------------------

  /** Alloc has returned a and no Free(a) has been taken since. */
  predicate Outstanding(log: seq<Event>, a: Addr) {
    if log == [] then false
    else
      match log[|log| - 1]
      case Handed(b) => a == b || Outstanding(log[..|log| - 1], a)
      case Accepted(b) => a != b && Outstanding(log[..|log| - 1], a)
      case Rejected(_) => Outstanding(log[..|log| - 1], a)
  }

  /** Alloc never hands out a block that is out; Free takes exactly the blocks that are out. */
  predicate Legal(log: seq<Event>) {
    if log == [] then true
    else
      var before := log[..|log| - 1];
      && Legal(before)
      && match log[|log| - 1]
         case Handed(a) => !Outstanding(before, a)
         case Accepted(a) => Outstanding(before, a)
         case Rejected(a) => !Outstanding(before, a)
  }

  lemma Logged(log: seq<Event>, e: Event)
    ensures Legal(log + [e]) <==> Legal(log) && (e.Accepted? <==> Outstanding(log, e.a))
    ensures forall a :: Outstanding(log + [e], a) <==>
                          (if a == e.a && !e.Rejected? then e.Handed? else Outstanding(log, a))
  {
    assert (log + [e])[..|log + [e]| - 1] == log;
  }

  // Invariant ----------------------------------------------------------------------

  function LinkTo(list: seq<Addr>): Link {
    if list == [] then Nil else At(list[|list| - 1])
  }

  ghost predicate BlockOk(s: State, a: Addr)
    requires a in s.heap && a in s.h.owner
  {
    match s.h.owner[a]
    case Out => !s.heap[a].flag
    case Listed(i) =>
      && i < |s.h.list| && s.h.list[i] == a && s.heap[a].flag
      && s.heap[a].next == LinkTo(s.h.list[..i])
    case InFree(t) =>
      var pc := PcOf(s, t);
      s.heap[a].flag && (pc.FreeLoadPtr? || pc.FreeLoadId? || pc.FreeLink? || pc.FreeCas?) && pc.a == a
    case InAlloc(t) =>
      PcOf(s, t) == (if s.heap[a].flag then AllocClear(a) else AllocConstruct(a))
  }

  ghost predicate SharedOk(s: State) {
    && s.heap.Keys == s.h.owner.Keys
    && s.top.ptr == LinkTo(s.h.list)
    && (forall i :: 0 <= i < |s.h.list| ==> s.h.list[i] in s.h.owner && s.h.owner[s.h.list[i]] == Listed(i))
    && (forall a {:trigger BlockOk(s, a)} :: a in s.heap ==> BlockOk(s, a))
  }

  ghost predicate SawTop(s: State, tt: Top) {
    && tt.id <= s.top.id
    && (tt.ptr.At? ==> tt.ptr.addr in s.heap)
  }

  ghost predicate Owns(s: State, a: Addr, o: Owner) {
    a in s.heap && a in s.h.owner && s.h.owner[a] == o
  }

  ghost predicate LocalOk(s: State, t: Tid, pc: Pc) {
    match pc
    case Idle => true
    case Wild => false
    case AllocLoadPtr => true
    case AllocLoadId(p) => p.At? ==> p.addr in s.heap
    case AllocTest(tt) => SawTop(s, tt)
    case AllocCas(tt, w) =>
      && SawTop(s, tt) && tt.ptr.At?
      && (s.top == tt ==> |s.h.list| > 0 && w == LinkTo(s.h.list[..|s.h.list| - 1]))
    case AllocClear(a) => Owns(s, a, InAlloc(t)) && s.heap[a].flag
    case AllocConstruct(a) => Owns(s, a, InAlloc(t)) && !s.heap[a].flag
    case FreeMark(a) => true
    case FreeFlag(a) => a in s.heap
    case FreeLoadPtr(a) => Owns(s, a, InFree(t))
    case FreeLoadId(a, p) => Owns(s, a, InFree(t)) && (p.At? ==> p.addr in s.heap)
    case FreeLink(a, tt) => Owns(s, a, InFree(t)) && SawTop(s, tt)
    case FreeCas(a, tt) => Owns(s, a, InFree(t)) && SawTop(s, tt) && s.heap[a].next == tt.ptr
  }

  ghost predicate ThreadOk(s: State, t: Tid) {
    LocalOk(s, t, PcOf(s, t))
  }

  ghost predicate Inv(s: State) {
    && SharedOk(s)
    && (forall t: Tid {:trigger ThreadOk(s, t)} :: ThreadOk(s, t))
  }

  /** What another thread's step leaves true for u: a moved top has a new version. */
  ghost predicate Rely(s: State, s': State, u: Tid) {
    && s.heap.Keys <= s'.heap.Keys
    && s.top.id <= s'.top.id
    && (s.top.id == s'.top.id ==> s.top == s'.top && s.h.list == s'.h.list)
    && (forall a :: a in s.heap && a in s.h.owner && (s.h.owner[a] == InFree(u) || s.h.owner[a] == InAlloc(u)) ==>
          a in s'.h.owner && s'.h.owner[a] == s.h.owner[a] && s'.heap[a] == s.heap[a])
  }

  lemma Assemble(s: State, s': State, t: Tid, pc': Pc)
    requires Inv(s) && SharedOk(s')
    requires s'.pcs == s.pcs[t := pc']
    requires forall u :: u != t ==> Rely(s, s', u)
    requires LocalOk(s', t, pc')
    ensures Inv(s')
  {
    forall u: Tid ensures ThreadOk(s', u) {
      assert ThreadOk(s, u);
      if u != t {
        assert PcOf(s', u) == PcOf(s, u);
        assert Rely(s, s', u);
      }
    }
  }

  /** Steps that change nothing but t's program counter. */
  lemma MoveOnly(s: State, t: Tid, pc': Pc)
    requires Inv(s) && LocalOk(s, t, pc')
    requires !PcOf(s, t).AllocClear? && !PcOf(s, t).AllocConstruct?
    requires PcOf(s, t).FreeLoadPtr? || PcOf(s, t).FreeLoadId? || PcOf(s, t).FreeLink? || PcOf(s, t).FreeCas? ==>
               (pc'.FreeLoadId? || pc'.FreeLink?) && pc'.a == PcOf(s, t).a
    ensures Inv(Go(s, t, pc'))
  {
    var s' := Go(s, t, pc');
    forall a | a in s'.heap ensures BlockOk(s', a) { assert BlockOk(s, a); }
    Assemble(s, s', t, pc');
  }

  /** The list, the top and the history stay; only block a's contents change, and t owns it. */
  lemma OwnWrite(s: State, s': State, t: Tid, a: Addr, pc': Pc)
    requires Inv(s) && s'.pcs == s.pcs[t := pc']
    requires Owns(s, a, InFree(t)) || Owns(s, a, InAlloc(t))
    requires a in s'.heap && s' == s.(pcs := s'.pcs, heap := s.heap[a := s'.heap[a]])
    requires BlockOk(s', a) && LocalOk(s', t, pc')
    ensures Inv(s')
  {
    assert BlockOk(s, a);
    forall b | b in s'.heap ensures BlockOk(s', b) { assert BlockOk(s, b); }
    Assemble(s, s', t, pc');
  }

  // Alloc steps --------------------------------------------------------------------

  lemma TestKeeps(s: State, t: Tid, act: Action, s': State)
    requires Inv(s) && PcOf(s, t).AllocTest? && s' == Step(s, t, act)
    ensures Inv(s')
  {
    assert ThreadOk(s, t);
    var tt := PcOf(s, t).tt;
    if !act.Run? {
    } else if tt.ptr.At? {
      if s.top == tt {
        assert BlockOk(s, tt.ptr.addr);
        assert s.h.list[..|s.h.list|] == s.h.list;
      }
      MoveOnly(s, t, AllocCas(tt, s.heap[tt.ptr.addr].next));
    } else if act.block !in s.heap {
      forall b | b in s'.heap ensures BlockOk(s', b) { if b != act.block { assert BlockOk(s, b); } }
      Assemble(s, s', t, Idle);
    }
  }

  /** ABA safety: if the pop CAS succeeds, the successor it installs is the current one,
      even though the top was read in two steps and the successor before the CAS. */
  lemma PopIsCurrent(s: State, t: Tid)
    requires Inv(s) && PcOf(s, t).AllocCas? && s.top == PcOf(s, t).tt
    ensures |s.h.list| > 0
    ensures s.top.ptr == At(s.h.list[|s.h.list| - 1]) && s.top.ptr.addr in s.heap
    ensures PcOf(s, t).w == s.heap[s.top.ptr.addr].next == LinkTo(s.h.list[..|s.h.list| - 1])
  {
    assert ThreadOk(s, t);
    assert BlockOk(s, s.top.ptr.addr);
  }

  lemma PopShared(s: State, t: Tid, s': State)
    requires Inv(s) && PcOf(s, t).AllocCas? && s.top == PcOf(s, t).tt
    requires s' == StepAllocCas(s, t, s.top, PcOf(s, t).w)
    ensures SharedOk(s')
  {
    PopIsCurrent(s, t);
    var a := s.top.ptr.addr;
    assert BlockOk(s, a);
    forall b | b in s'.heap ensures BlockOk(s', b) {
      assert BlockOk(s, b);
      if b != a && s.h.owner[b].Listed? {
        assert s'.h.list[..s.h.owner[b].i] == s.h.list[..s.h.owner[b].i];
      }
    }
  }

  lemma AllocCasKeeps(s: State, t: Tid, act: Action, s': State)
    requires Inv(s) && PcOf(s, t).AllocCas? && s' == Step(s, t, act)
    ensures Inv(s')
  {
    assert ThreadOk(s, t);
    if s.top == PcOf(s, t).tt {
      PopIsCurrent(s, t);
      assert BlockOk(s, s.top.ptr.addr);
      PopShared(s, t, s');
      Assemble(s, s', t, AllocClear(s.top.ptr.addr));
    } else {
      MoveOnly(s, t, AllocTest(s.top));
    }
  }

  lemma ClearKeeps(s: State, t: Tid, act: Action, s': State)
    requires Inv(s) && PcOf(s, t).AllocClear? && s' == Step(s, t, act)
    ensures Inv(s')
  {
    assert ThreadOk(s, t);
    OwnWrite(s, s', t, PcOf(s, t).a, AllocConstruct(PcOf(s, t).a));
  }

  lemma ConstructKeeps(s: State, t: Tid, act: Action, s': State)
    requires Inv(s) && PcOf(s, t).AllocConstruct? && s' == Step(s, t, act)
    ensures Inv(s')
  {
    assert ThreadOk(s, t);
    var a := PcOf(s, t).a;
    assert BlockOk(s, a);
    forall b | b in s'.heap ensures BlockOk(s', b) { assert BlockOk(s, b); }
    Assemble(s, s', t, Idle);
  }

  // Free steps ---------------------------------------------------------------------

  lemma FlagKeeps(s: State, t: Tid, act: Action, s': State)
    requires Inv(s) && PcOf(s, t).FreeFlag? && Fair(s, t) && s' == Step(s, t, act)
    ensures Inv(s')
  {
    assert ThreadOk(s, t);
    var a := PcOf(s, t).a;
    var pc' := if s.heap[a].flag then Idle else FreeLoadPtr(a);
    assert BlockOk(s, a);
    FlagShared(s, t, a, s');
    Assemble(s, s', t, pc');
  }

  lemma FlagShared(s: State, t: Tid, a: Addr, s': State)
    requires SharedOk(s) && PcOf(s, t) == FreeFlag(a) && a in s.heap && Fair(s, t) && s' == StepFlag(s, t, a)
    ensures SharedOk(s')
  {
    assert BlockOk(s, a);
    forall b | b in s'.heap ensures BlockOk(s', b) { assert BlockOk(s, b); }
  }

  lemma LinkKeeps(s: State, t: Tid, act: Action, s': State)
    requires Inv(s) && PcOf(s, t).FreeLink? && s' == Step(s, t, act)
    ensures Inv(s')
  {
    assert ThreadOk(s, t);
    assert BlockOk(s, PcOf(s, t).a);
    OwnWrite(s, s', t, PcOf(s, t).a, FreeCas(PcOf(s, t).a, PcOf(s, t).tt));
  }

  lemma PushShared(s: State, t: Tid, a: Addr, s': State)
    requires SharedOk(s) && PcOf(s, t) == FreeCas(a, s.top) && s' == StepFreeCas(s, t, a, s.top)
    requires Owns(s, a, InFree(t)) && s.heap[a].next == s.top.ptr
    ensures SharedOk(s')
  {
    assert BlockOk(s, a);
    forall b | b in s'.heap ensures BlockOk(s', b) {
      assert BlockOk(s, b);
      if b == a {
        assert s'.h.list[..|s.h.list|] == s.h.list;
      } else if s.h.owner[b].Listed? {
        assert s'.h.list[..s.h.owner[b].i] == s.h.list[..s.h.owner[b].i];
      }
    }
  }

  lemma FreeCasKeeps(s: State, t: Tid, act: Action, s': State)
    requires Inv(s) && PcOf(s, t).FreeCas? && s' == Step(s, t, act)
    ensures Inv(s')
  {
    assert ThreadOk(s, t);
    var a := PcOf(s, t).a;
    if s.top == PcOf(s, t).tt {
      PushShared(s, t, a, s');
      Assemble(s, s', t, Idle);
    } else {
      assert s.top.ptr.At? ==> s.top.ptr.addr in s.heap;
      MoveOnly(s, t, FreeLink(a, s.top));
    }
  }

  // All steps ----------------------------------------------------------------------

  lemma LoadKeeps(s: State, t: Tid, act: Action, s': State)
    requires Inv(s) && s' == Step(s, t, act)
    requires var pc := PcOf(s, t); pc.Idle? || pc.AllocLoadPtr? || pc.AllocLoadId? || pc.FreeMark?
                                   || pc.FreeLoadPtr? || pc.FreeLoadId?
    ensures Inv(s')
  {
    assert ThreadOk(s, t);
    assert s.top.ptr.At? ==> s.top.ptr.addr in s.heap;
    if PcOf(s, t).Idle? && act.Run? {
    } else {
      MoveOnly(s, t, PcOf(s', t));
    }
  }

  lemma StepKeeps(s: State, t: Tid, act: Action, s': State)
    requires Inv(s) && Fair(s, t) && s' == Step(s, t, act)
    ensures Inv(s')
  {
    match PcOf(s, t)
    case Wild =>
    case AllocTest(_) => TestKeeps(s, t, act, s');
    case AllocCas(_, _) => AllocCasKeeps(s, t, act, s');
    case AllocClear(_) => ClearKeeps(s, t, act, s');
    case AllocConstruct(_) => ConstructKeeps(s, t, act, s');
    case FreeFlag(_) => FlagKeeps(s, t, act, s');
    case FreeLink(_, _) => LinkKeeps(s, t, act, s');
    case FreeCas(_, _) => FreeCasKeeps(s, t, act, s');
    case _ => LoadKeeps(s, t, act, s');
  }

  lemma {:induction false} ExecInv(moves: seq<Move>)
    requires FairRun(moves)
    ensures Inv(Exec(INIT, moves))
    decreases |moves|
  {
    if moves != [] {
      var before := moves[..|moves| - 1];
      var last := moves[|moves| - 1];
      ExecInv(before);
      StepKeeps(Exec(INIT, before), last.t, last.act, Exec(INIT, moves));
    }
  }

  // The calls, in order --------------------------------------------------------------

  ghost predicate LogOk(s: State) {
    && Legal(s.h.log)
    && (forall a {:trigger Outstanding(s.h.log, a)} ::
          Outstanding(s.h.log, a) <==> IsOut(s, a))
  }

  /** The flag decides exactly: Free(a) throws "Twice Free" if and only if a is not out. */
  lemma TwiceFreeExact(s: State, t: Tid)
    requires Inv(s) && LogOk(s) && PcOf(s, t).FreeFlag? && Fair(s, t)
    ensures PcOf(s, t).a in s.heap
    ensures s.heap[PcOf(s, t).a].flag <==> !Outstanding(s.h.log, PcOf(s, t).a)
  {
    assert ThreadOk(s, t);
    assert BlockOk(s, PcOf(s, t).a);
  }

  ghost predicate IsOut(s: State, a: Addr) {
    a in s.h.owner && s.h.owner[a] == Out
  }

  /** No call returned or was taken, and the same blocks are out. */
  ghost predicate Silent(s: State, s': State) {
    s'.h.log == s.h.log && forall a :: IsOut(s', a) <==> IsOut(s, a)
  }

  /** Exactly event e happened. */
  ghost predicate Spoke(s: State, s': State, e: Event) {
    && s'.h.log == s.h.log + [e]
    && forall a :: IsOut(s', a) <==> if a == e.a && !e.Rejected? then e.Handed? else IsOut(s, a)
  }

  lemma SilentStep(s: State, t: Tid, act: Action, s': State)
    requires Inv(s) && s' == Step(s, t, act)
    requires !PcOf(s, t).AllocTest? && !PcOf(s, t).AllocConstruct? && !PcOf(s, t).FreeFlag?
    ensures Silent(s, s')
  {
    assert ThreadOk(s, t);
    if PcOf(s, t).AllocCas? && s.top == PcOf(s, t).tt { PopIsCurrent(s, t); }
  }

  /** Alloc gets a block from the heap. */
  lemma TestLog(s: State, t: Tid, act: Action, s': State)
    requires Inv(s) && LogOk(s) && PcOf(s, t).AllocTest? && s' == Step(s, t, act)
    ensures LogOk(s')
  {
    assert ThreadOk(s, t);
    if act.Run? && PcOf(s, t).tt.ptr == Nil && act.block !in s.heap {
      Heard(s, s', Handed(act.block));
    } else {
      assert Silent(s, s');
    }
  }

  /** Alloc returns a block from the list. */
  lemma ConstructLog(s: State, t: Tid, act: Action, s': State)
    requires Inv(s) && LogOk(s) && PcOf(s, t).AllocConstruct? && s' == Step(s, t, act)
    ensures LogOk(s')
  {
    assert ThreadOk(s, t);
    Heard(s, s', Handed(PcOf(s, t).a));
  }

  lemma FlagLog(s: State, t: Tid, act: Action, s': State)
    requires Inv(s) && LogOk(s) && Fair(s, t) && PcOf(s, t).FreeFlag? && s' == Step(s, t, act)
    ensures LogOk(s')
  {
    assert ThreadOk(s, t);
    TwiceFreeExact(s, t);
    var a := PcOf(s, t).a;
    Heard(s, s', if s.heap[a].flag then Rejected(a) else Accepted(a));
  }

  lemma LogKeeps(s: State, t: Tid, act: Action, s': State)
    requires Inv(s) && LogOk(s) && Fair(s, t) && s' == Step(s, t, act)
    ensures LogOk(s')
  {
    match PcOf(s, t)
    case AllocTest(_) => TestLog(s, t, act, s');
    case AllocConstruct(_) => ConstructLog(s, t, act, s');
    case FreeFlag(_) => FlagLog(s, t, act, s');
    case _ => SilentStep(s, t, act, s');
  }

  lemma Heard(s: State, s': State, e: Event)
    requires LogOk(s) && Spoke(s, s', e) && (e.Accepted? <==> IsOut(s, e.a))
    ensures LogOk(s')
  {
    Logged(s.h.log, e);
  }

  lemma {:induction false} ExecLog(moves: seq<Move>)
    requires FairRun(moves)
    ensures LogOk(Exec(INIT, moves))
    decreases |moves|
  {
    if moves != [] {
      var before := moves[..|moves| - 1];
      var last := moves[|moves| - 1];
      ExecInv(before);
      ExecLog(before);
      LogKeeps(Exec(INIT, before), last.t, last.act, Exec(INIT, moves));
    }
  }

  // Promises over whole runs ----------------------------------------------------------

  /** Following m_next from l visits exactly the blocks xs and then null. */
  ghost predicate Chain(heap: map<Addr, Block>, l: Link, xs: seq<Addr>)
    decreases |xs|
  {
    if xs == [] then l == Nil
    else l == At(xs[0]) && xs[0] in heap && Chain(heap, heap[xs[0]].next, xs[1..])
  }

  function Reversed(xs: seq<Addr>): seq<Addr> {
    if xs == [] then [] else [xs[|xs| - 1]] + Reversed(xs[..|xs| - 1])
  }

  lemma {:induction false} ListIsChain(s: State, i: nat)
    requires Inv(s) && i <= |s.h.list|
    ensures Chain(s.heap, LinkTo(s.h.list[..i]), Reversed(s.h.list[..i]))
    ensures forall a :: a in Reversed(s.h.list[..i]) <==> a in s.h.list[..i]
    decreases i
  {
    if i > 0 {
      var a := s.h.list[i - 1];
      assert a in s.h.owner;
      assert BlockOk(s, a);
      assert s.h.list[..i][..i - 1] == s.h.list[..i - 1];
      ListIsChain(s, i - 1);
      assert s.h.list[..i] == s.h.list[..i - 1] + [a];
    }
  }

  lemma {:induction false} ReversedDistinct(s: State, i: nat)
    requires Inv(s) && i <= |s.h.list|
    ensures |Reversed(s.h.list[..i])| == i
    ensures forall j :: 0 <= j < i ==> Reversed(s.h.list[..i])[j] == s.h.list[i - 1 - j]
    decreases i
  {
    if i > 0 {
      assert s.h.list[..i][..i - 1] == s.h.list[..i - 1];
      ReversedDistinct(s, i - 1);
    }
  }

  /** In every fair run the chain from top is acyclic and repeats no block, no block on it
      is out, and the calls alternate: a block is handed out only when it is not out, and
      Free takes it exactly when it is. */
  lemma AbaSafe(moves: seq<Move>)
    requires FairRun(moves)
    ensures var s := Exec(INIT, moves);
            && Legal(s.h.log)
            && (forall t: Tid :: !PcOf(s, t).Wild?)
            && exists xs :: && Chain(s.heap, s.top.ptr, xs)
                            && (forall i, j :: 0 <= i < j < |xs| ==> xs[i] != xs[j])
                            && (forall a :: a in xs ==> !Outstanding(s.h.log, a))
  {
    var s := Exec(INIT, moves);
    ExecInv(moves);
    ExecLog(moves);
    var n := |s.h.list|;
    assert s.h.list[..n] == s.h.list;
    ListIsChain(s, n);
    ReversedDistinct(s, n);
    var xs := Reversed(s.h.list);
    forall i, j | 0 <= i < j < |xs| ensures xs[i] != xs[j] {
      assert s.h.owner[s.h.list[n - 1 - i]] == Listed(n - 1 - i);
      assert s.h.owner[s.h.list[n - 1 - j]] == Listed(n - 1 - j);
    }
    forall a | a in xs ensures !Outstanding(s.h.log, a) {
      var i :| 0 <= i < n && s.h.list[i] == a;
      assert s.h.owner[s.h.list[i]] == Listed(i);
    }
    forall t: Tid ensures !PcOf(s, t).Wild? { assert ThreadOk(s, t); }
  }

  // Why Fair is needed -----------------------------------------------------------------

  /** A step keeps the calls legal exactly when it is fair. */
  lemma FairExact(s: State, t: Tid, act: Action)
    requires Inv(s) && LogOk(s)
    ensures Legal(Step(s, t, act).h.log) <==> Fair(s, t)
  {
    var s' := Step(s, t, act);
    if Fair(s, t) {
      LogKeeps(s, t, act, s');
    } else {
      var a := PcOf(s, t).a;
      var u: Tid :| PcOf(s, u) == AllocConstruct(a);
      assert ThreadOk(s, u) && ThreadOk(s, t);
      Logged(s.h.log, Accepted(a));
    }
  }
}
