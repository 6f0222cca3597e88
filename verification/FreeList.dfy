/**
 The lock-free free list (a versioned Treiber stack) as a step machine, with clients
 that may free a node twice, from any thread.
 */
module FreeList {

  type Tid = nat
  type Addr = nat

  datatype Link = Nil | At(addr: Addr)
  /** FreeList::Node::m_next and MemHeader::m_freeFlag. */
  datatype Block = Block(next: Link, flag: bool)
  datatype Top = Top(ptr: Link, id: int)

  datatype Pc =
    | Idle
    | Wild                                     // an address that is no block was dereferenced
      // Alloc; `tt` is tempTop
    | AllocLoadPtr
    | AllocLoadId(p: Link)
    | AllocTest(tt: Top)
    | AllocCas(tt: Top, w: Link)
    | AllocClear(a: Addr)
    | AllocConstruct(a: Addr)
      // Free(a)
    | FreeMark(a: Addr)
    | FreeFlag(a: Addr)
    | FreeLoadPtr(a: Addr)
    | FreeLoadId(a: Addr, p: Link)
    | FreeLink(a: Addr, tt: Top)
    | FreeCas(a: Addr, tt: Top)

  /** What the callers see: Alloc returned a; Free(a) was taken; Free(a) threw "Twice Free". */
  datatype Event = Handed(a: Addr) | Accepted(a: Addr) | Rejected(a: Addr)

  /** History: who may touch a block. */
  datatype Owner = Out | Listed(i: nat) | InFree(t: Tid) | InAlloc(t: Tid)
  datatype History = History(
    list: seq<Addr>,              // the free blocks, bottom first
    owner: map<Addr, Owner>,
    log: seq<Event>)

  datatype State = State(
    heap: map<Addr, Block>,
    top: Top,
    pcs: map<Tid, Pc>,
    h: History)

  function PcOf(s: State, t: Tid): Pc {
    if t in s.pcs then s.pcs[t] else Idle
  }

  function Go(s: State, t: Tid, pc: Pc): State {
    s.(pcs := s.pcs[t := pc])
  }

  const INIT: State := State(map[], Top(Nil, 0), map[], History([], map[], []))

  // Alloc ------------------------------------------------------------------------

  /** Empty: take a block from the heap, else read the successor of tempTop. */
  function StepTest(s: State, t: Tid, tt: Top, block: Addr): State {
    match tt.ptr
    case Nil =>
      if block in s.heap then s
      else Go(s.(heap := s.heap[block := Block(Nil, false)],
                 h := s.h.(owner := s.h.owner[block := Out], log := s.h.log + [Handed(block)])), t, Idle)
    case At(p) =>
      if p !in s.heap then Go(s, t, Wild) else Go(s, t, AllocCas(tt, s.heap[p].next))
  }

  /** The 128-bit CAS that pops; on failure tempTop becomes the current top. */
  function StepAllocCas(s: State, t: Tid, tt: Top, w: Link): State {
    if s.top == tt && tt.ptr.At? then
      Go(s.(top := Top(w, tt.id + 1),
            h := s.h.(list := if s.h.list == [] then [] else s.h.list[..|s.h.list| - 1],
                      owner := s.h.owner[tt.ptr.addr := InAlloc(t)])), t, AllocClear(tt.ptr.addr))
    else
      Go(s, t, AllocTest(s.top))
  }

  function StepClear(s: State, t: Tid, a: Addr): State {
    if a !in s.heap then Go(s, t, Wild) else
    Go(s.(heap := s.heap[a := s.heap[a].(flag := false)]), t, AllocConstruct(a))
  }

  function StepConstruct(s: State, t: Tid, a: Addr): State {
    if a !in s.heap then Go(s, t, Wild) else
    Go(s.(heap := s.heap[a := s.heap[a].(next := Nil)],
          h := s.h.(owner := s.h.owner[a := Out], log := s.h.log + [Handed(a)])), t, Idle)
  }

  // Free -------------------------------------------------------------------------

  /** A pointer that carries no front mark throws "Underflow Violation". */
  function StepMark(s: State, t: Tid, a: Addr): State {
    if a !in s.heap then Go(s, t, Idle) else Go(s, t, FreeFlag(a))
  }

  function StepFlag(s: State, t: Tid, a: Addr): State {
    if a !in s.heap then Go(s, t, Wild)
    else if s.heap[a].flag then
      Go(s.(h := s.h.(log := s.h.log + [Rejected(a)])), t, Idle)
    else
      Go(s.(heap := s.heap[a := s.heap[a].(flag := true)],
            h := s.h.(owner := s.h.owner[a := InFree(t)], log := s.h.log + [Accepted(a)])), t, FreeLoadPtr(a))
  }

  function StepLink(s: State, t: Tid, a: Addr, tt: Top): State {
    if a !in s.heap then Go(s, t, Wild) else
    Go(s.(heap := s.heap[a := s.heap[a].(next := tt.ptr)]), t, FreeCas(a, tt))
  }

  function StepFreeCas(s: State, t: Tid, a: Addr, tt: Top): State {
    if s.top == tt then
      Go(s.(top := Top(At(a), tt.id + 1),
            h := s.h.(list := s.h.list + [a], owner := s.h.owner[a := Listed(|s.h.list|)])), t, Idle)
    else
      Go(s, t, FreeLink(a, s.top))
  }

  // The machine ------------------------------------------------------------------

  datatype Action = CallAlloc | CallFree(a: Addr) | Run(block: Addr)

  function Step(s: State, t: Tid, act: Action): State {
    match PcOf(s, t)
    case Idle => (match act
                  case CallAlloc => Go(s, t, AllocLoadPtr)
                  case CallFree(a) => Go(s, t, FreeMark(a))
                  case Run(_) => s)
    case Wild => s
    case AllocLoadPtr => Go(s, t, AllocLoadId(s.top.ptr))
    case AllocLoadId(p) => Go(s, t, AllocTest(Top(p, s.top.id)))
    case AllocTest(tt) => if act.Run? then StepTest(s, t, tt, act.block) else s
    case AllocCas(tt, w) => StepAllocCas(s, t, tt, w)
    case AllocClear(a) => StepClear(s, t, a)
    case AllocConstruct(a) => StepConstruct(s, t, a)
    case FreeMark(a) => StepMark(s, t, a)
    case FreeFlag(a) => StepFlag(s, t, a)
    case FreeLoadPtr(a) => Go(s, t, FreeLoadId(a, s.top.ptr))
    case FreeLoadId(a, p) => Go(s, t, FreeLink(a, Top(p, s.top.id)))
    case FreeLink(a, tt) => StepLink(s, t, a, tt)
    case FreeCas(a, tt) => StepFreeCas(s, t, a, tt)
  }

  /** The one thing asked of the clients: no Free reaches the flag of a block that an
      Alloc has unflagged and is about to hand out. */
  ghost predicate Fair(s: State, t: Tid) {
    PcOf(s, t).FreeFlag? ==> forall u: Tid :: PcOf(s, u) != AllocConstruct(PcOf(s, t).a)
  }

  datatype Move = Move(t: Tid, act: Action)

  function Exec(s: State, moves: seq<Move>): State
    decreases |moves|
  {
    if moves == [] then s
    else
      var last := moves[|moves| - 1];
      Step(Exec(s, moves[..|moves| - 1]), last.t, last.act)
  }

  /** Every step of the run meets Fair. */
  ghost predicate FairRun(moves: seq<Move>)
    decreases |moves|
  {
    moves != [] ==>
      && FairRun(moves[..|moves| - 1])
      && Fair(Exec(INIT, moves[..|moves| - 1]), moves[|moves| - 1].t)
  }
}
