/** The lock-free stack (versioned top plus a counter gate) as a step machine. */
module LockFreeStack {

  type Tid = nat
  type Addr = nat
  type Data = int

  datatype Link = Nil | At(addr: Addr)
  datatype Node = Node(data: Data, next: Link)
  datatype Top = Top(ptr: Link, id: int)

  datatype Pc =
    | Idle
    | Crashed                                  // a null top was dereferenced
    | Wild                                     // an address that is no node was dereferenced
      // Push(d) with new node n; `tt` is tempTop
    | PushAlloc(d: Data)
    | PushInit(d: Data, n: Addr)
    | PushLoadPtr(d: Data, n: Addr)
    | PushLoadId(d: Data, n: Addr, p: Link)
    | PushLink(d: Data, n: Addr, tt: Top)
    | PushCas(d: Data, n: Addr, tt: Top)
    | PushCount
      // Pop; `k` (history) is the number of this pop's event
    | PopGate
    | PopUndo
    | PopLoadPtr
    | PopLoadId(p: Link)
    | PopNext(tt: Top)
    | PopCas(tt: Top, w: Link)
    | PopRead(a: Addr, k: nat)
    | PopFree(a: Addr, v: Data, k: nat)

  datatype Event = Pushed(v: Data) | Popped(v: Data)

  datatype Owner = Pooled | Listed(i: nat) | HeldBy(t: Tid)
  datatype History = History(
    list: seq<Addr>,              // the stacked nodes, bottom first
    owner: map<Addr, Owner>,
    uncounted: set<Tid>,          // pushed, m_count not yet incremented
    poppers: set<Tid>,            // past the gate, top not yet moved
    failing: set<Tid>,            // holding a temporary decrement
    log: seq<Event>)              // successful CASes in order

  datatype State = State(
    heap: map<Addr, Node>,
    pool: set<Addr>,
    top: Top,
    count: int,
    pcs: map<Tid, Pc>,
    h: History)

  function PcOf(s: State, t: Tid): Pc {
    if t in s.pcs then s.pcs[t] else Idle
  }

  function Go(s: State, t: Tid, pc: Pc): State {
    s.(pcs := s.pcs[t := pc])
  }

  const INIT: State := State(map[], {}, Top(Nil, -1), 0, map[], History([], map[], {}, {}, {}, []))

  // Push -------------------------------------------------------------------------

  function StepAlloc(s: State, t: Tid, d: Data, a: Addr): State {
    if a in s.pool || a !in s.heap then
      Go(s.(heap := s.heap[a := Node(0, Nil)], pool := s.pool - {a},
            h := s.h.(owner := s.h.owner[a := HeldBy(t)])), t, PushInit(d, a))
    else s
  }

  function StepInit(s: State, t: Tid, d: Data, n: Addr): State {
    Go(s.(heap := s.heap[n := Node(d, Nil)]), t, PushLoadPtr(d, n))
  }

  function StepLink(s: State, t: Tid, d: Data, n: Addr, tt: Top): State {
    Go(s.(heap := s.heap[n := Node(d, tt.ptr)]), t, PushCas(d, n, tt))
  }

  function StepPushCas(s: State, t: Tid, d: Data, n: Addr, tt: Top): State {
    if s.top == tt then
      Go(s.(top := Top(At(n), tt.id + 1),
            h := s.h.(list := s.h.list + [n], owner := s.h.owner[n := Listed(|s.h.list|)],
                      uncounted := s.h.uncounted + {t}, log := s.h.log + [Pushed(d)])), t, PushCount)
    else
      Go(s, t, PushLink(d, n, s.top))
  }

  function StepCount(s: State, t: Tid): State {
    Go(s.(count := s.count + 1, h := s.h.(uncounted := s.h.uncounted - {t})), t, Idle)
  }

  // Pop --------------------------------------------------------------------------

  function StepGate(s: State, t: Tid): State {
    var c := s.count - 1;
    if c < 0 then Go(s.(count := c, h := s.h.(failing := s.h.failing + {t})), t, PopUndo)
    else Go(s.(count := c, h := s.h.(poppers := s.h.poppers + {t})), t, PopLoadPtr)
  }

  function StepUndo(s: State, t: Tid): State {
    Go(s.(count := s.count + 1, h := s.h.(failing := s.h.failing - {t})), t, Idle)
  }

  /** `tempTop.m_topPtr->m_next` */
  function StepNext(s: State, t: Tid, tt: Top): State {
    match tt.ptr
    case Nil => Go(s, t, Crashed)
    case At(p) => if p !in s.heap then Go(s, t, Wild) else Go(s, t, PopCas(tt, s.heap[p].next))
  }

  function StepPopCas(s: State, t: Tid, tt: Top, w: Link): State {
    if s.top == tt && tt.ptr.At? && tt.ptr.addr in s.heap then
      Go(s.(top := Top(w, tt.id + 1),
            h := s.h.(list := if s.h.list == [] then [] else s.h.list[..|s.h.list| - 1],
                      owner := s.h.owner[tt.ptr.addr := HeldBy(t)],
                      poppers := s.h.poppers - {t},
                      log := s.h.log + [Popped(s.heap[tt.ptr.addr].data)])),
         t, PopRead(tt.ptr.addr, |s.h.log|))
    else
      Go(s, t, PopNext(s.top))
  }

  function StepRead(s: State, t: Tid, a: Addr, k: nat): State {
    if a !in s.heap then Go(s, t, Wild) else Go(s, t, PopFree(a, s.heap[a].data, k))
  }

  function StepFree(s: State, t: Tid, a: Addr): State {
    Go(s.(pool := s.pool + {a}, h := s.h.(owner := s.h.owner[a := Pooled])), t, Idle)
  }

  // The machine ------------------------------------------------------------------

  datatype Action = CallPush(d: Data) | CallPop | Run(a: Addr)

  function Step(s: State, t: Tid, act: Action): State {
    match PcOf(s, t)
    case Idle => (match act
                  case CallPush(d) => Go(s, t, PushAlloc(d))
                  case CallPop => Go(s, t, PopGate)
                  case Run(_) => s)
    case Crashed => s
    case Wild => s
    case PushAlloc(d) => if act.Run? then StepAlloc(s, t, d, act.a) else s
    case PushInit(d, n) => StepInit(s, t, d, n)
    case PushLoadPtr(d, n) => Go(s, t, PushLoadId(d, n, s.top.ptr))
    case PushLoadId(d, n, p) => Go(s, t, PushLink(d, n, Top(p, s.top.id)))
    case PushLink(d, n, tt) => StepLink(s, t, d, n, tt)
    case PushCas(d, n, tt) => StepPushCas(s, t, d, n, tt)
    case PushCount => StepCount(s, t)
    case PopGate => StepGate(s, t)
    case PopUndo => StepUndo(s, t)
    case PopLoadPtr => Go(s, t, PopLoadId(s.top.ptr))
    case PopLoadId(p) => Go(s, t, PopNext(Top(p, s.top.id)))
    case PopNext(tt) => StepNext(s, t, tt)
    case PopCas(tt, w) => StepPopCas(s, t, tt, w)
    case PopRead(a, k) => StepRead(s, t, a, k)
    case PopFree(a, v, k) => StepFree(s, t, a)
  }

  datatype Move = Move(t: Tid, act: Action)

  function Exec(moves: seq<Move>): State
    decreases |moves|
  {
    if moves == [] then INIT
    else
      var last := moves[|moves| - 1];
      Step(Exec(moves[..|moves| - 1]), last.t, last.act)
  }
}
