/**
 The lock-free queue as a step machine.

 Every read, write, interlocked add and compare-and-swap on shared memory is one
 step of one thread; any number of threads interleave.  A thread's program counter
 carries its local variables.  The two halves of `m_rearCheck` and of `m_frontCheck`
 are read in two steps, so the copies a thread holds may be torn.

 `History` holds proof-only variables.  No step reads them to decide what the real
 fields become.
 */
module LockFreeQ {

  type Tid = nat
  type Addr = nat
  type Data = int

  const KERNEL_ADDRESS: int := 0x80000000000
  const NULL_DATA: Data := 0

  /** A 64-bit word of `m_next` or of the rear `m_checkID`: null, a node address
      (below KERNEL_ADDRESS), or a tag (at or above it). */
  datatype Word = Null | Ptr(addr: Addr) | Tag(id: int)
  datatype Node = Node(data: Data, next: Word)
  datatype Front = Front(node: Addr, id: nat)
  datatype Rear = Rear(node: Addr, id: Word)

  datatype Pc =
    | Idle
    | Crashed(at: Pc)                         // CRASH(), or a null pointer was dereferenced there
    | Wild                                    // an address that is no node was dereferenced
      // EnQ.  `d` is the argument, `n` the new node, `id` its tag, `tr` is tempRear;
      // `j` (history) is the link position whose tag was read into `tr.id`.
    | EnqCheck(d: Data)
    | EnqAlloc(d: Data)
    | EnqSetData(d: Data, n: Addr)
    | EnqNewTag(d: Data, n: Addr)
    | EnqSetNext(d: Data, n: Addr, id: int)
    | EnqLoadNode(d: Data, n: Addr, id: int)
    | EnqLoadId(d: Data, n: Addr, id: int, rn: Addr)
    | EnqCas1(d: Data, n: Addr, id: int, tr: Rear, j: nat)
    | EnqReadNext(d: Data, n: Addr, id: int, tr: Rear, j: nat)
    | EnqReadTag(d: Data, n: Addr, id: int, tr: Rear, j: nat, m: Addr)
    | EnqHelp(d: Data, n: Addr, id: int, tr: Rear, j: nat, m: Addr, w: Word)
    | EnqReRead(n: Addr, tr: Rear, j: nat)
    | EnqCas2(n: Addr, tr: Rear, j: nat, w: Word)
    | EnqCount(k: nat)
      // DeQ.  `tf` is tempFront, `m` the successor, `v` is tempData.
    | DeqGate
    | DeqUndo
    | DeqLoadNode
    | DeqLoadId(fn: Addr)
    | DeqNext(tf: Front)
    | DeqData(tf: Front, m: Addr)
    | DeqCas(tf: Front, m: Addr, v: Data)
    | DeqFree(dead: Addr, v: Data, k: nat)

  datatype Event = Enq(v: Data) | Deq(v: Data)

  // History ------------------------------------------------------------------

  /** The k-th node ever linked: its address at that time, its tag and its datum. */
  datatype Entry = Entry(addr: Addr, tag: int, data: Data)
  /** Who may touch a node: the pool, the list (as link number k), or one thread. */
  datatype Owner = Pooled | Linked(k: nat) | HeldBy(t: Tid)
  /** Where a tag lives: in a thread's private node, or at a link position. */
  datatype Home = AtThread(t: Tid) | AtLink(k: nat)
  datatype Ticket = Claimed(t: Tid, v: Data) | Delivered(v: Data)

  datatype History = History(
    links: seq<Entry>,
    rp: nat,                        // link position of rear
    owner: map<Addr, Owner>,
    home: map<int, Home>,
    pending: map<nat, Tid>,         // linked, not yet counted, with its enqueuer
    counted: set<nat>,              // link positions whose EnQ incremented m_count
    poppers: set<Tid>,              // past the gate, front not yet moved
    failing: set<Tid>,              // holding a temporary decrement
    tickets: map<nat, Ticket>,      // the k-th front CAS and what became of its value
    log: seq<Event>)                // CAS1 and front CAS events in order

  datatype State = State(
    maxCount: int,
    heap: map<Addr, Node>,
    pool: set<Addr>,
    front: Front,
    rear: Rear,
    rearID: int,
    count: int,
    pcs: map<Tid, Pc>,
    h: History)

  function PcOf(s: State, t: Tid): Pc {
    if t in s.pcs then s.pcs[t] else Idle
  }

  function Go(s: State, t: Tid, pc: Pc): State {
    s.(pcs := s.pcs[t := pc])
  }

  /** The constructor: one dummy node, front and rear on it. */
  function Init(maxCount: int, dummy: Addr): State {
    State(maxCount,
          map[dummy := Node(NULL_DATA, Tag(KERNEL_ADDRESS))],
          {},
          Front(dummy, 0),
          Rear(dummy, Tag(KERNEL_ADDRESS)),
          KERNEL_ADDRESS,
          0,
          map[],
          History([Entry(dummy, KERNEL_ADDRESS, NULL_DATA)], 0, map[dummy := Linked(0)],
                  map[KERNEL_ADDRESS := AtLink(0)], map[], {}, {}, {}, map[], []))
  }

  // EnQ steps ----------------------------------------------------------------

  function StepCheck(s: State, t: Tid, d: Data): State {
    if s.maxCount < s.count then Go(s, t, Crashed(EnqCheck(d))) else Go(s, t, EnqAlloc(d))
  }

  /** `m_memoryPool.Alloc()`: a pooled node or a new one, freshly constructed. */
  function StepAlloc(s: State, t: Tid, d: Data, a: Addr): State {
    if a in s.pool || a !in s.heap then
      var s' := s.(heap := s.heap[a := Node(NULL_DATA, Null)], pool := s.pool - {a},
                   h := s.h.(owner := s.h.owner[a := HeldBy(t)]));
      Go(s', t, EnqSetData(d, a))
    else
      s
  }

  function StepSetData(s: State, t: Tid, d: Data, n: Addr): State {
    if n !in s.heap then Go(s, t, Wild) else
    Go(s.(heap := s.heap[n := s.heap[n].(data := d)]), t, EnqNewTag(d, n))
  }

  function StepNewTag(s: State, t: Tid, d: Data, n: Addr): State {
    var id := s.rearID + 1;
    Go(s.(rearID := id, h := s.h.(home := s.h.home[id := AtThread(t)])), t, EnqSetNext(d, n, id))
  }

  function StepSetNext(s: State, t: Tid, d: Data, n: Addr, id: int): State {
    if n !in s.heap then Go(s, t, Wild) else
    Go(s.(heap := s.heap[n := s.heap[n].(next := Tag(id))]), t, EnqLoadNode(d, n, id))
  }

  function StepLoadRearNode(s: State, t: Tid, d: Data, n: Addr, id: int): State {
    Go(s, t, EnqLoadId(d, n, id, s.rear.node))
  }

  function StepLoadRearId(s: State, t: Tid, d: Data, n: Addr, id: int, rn: Addr): State {
    Go(s, t, EnqCas1(d, n, id, Rear(rn, s.rear.id), s.h.rp))
  }

  /** CAS 1: link the new node if tempRear's next still holds tempRear's tag. */
  function StepCas1(s: State, t: Tid, d: Data, n: Addr, id: int, tr: Rear, j: nat): State {
    if tr.node !in s.heap then Go(s, t, Wild)
    else if s.heap[tr.node].next != tr.id then Go(s, t, EnqReadNext(d, n, id, tr, j))
    else
      var k := |s.h.links|;
      var s' := s.(heap := s.heap[tr.node := s.heap[tr.node].(next := Ptr(n))],
                   h := s.h.(links := s.h.links + [Entry(n, id, d)],
                             owner := s.h.owner[n := Linked(k)],
                             home := s.h.home[id := AtLink(k)],
                             pending := s.h.pending[k := t],
                             log := s.h.log + [Enq(d)]));
      Go(s', t, EnqReRead(n, tr, j))
  }

  function StepReadNext(s: State, t: Tid, d: Data, n: Addr, id: int, tr: Rear, j: nat): State {
    if tr.node !in s.heap then Go(s, t, Wild) else
    match s.heap[tr.node].next
    case Tag(_) => Go(s, t, EnqLoadNode(d, n, id))
    case Null => Go(s, t, Crashed(EnqReadNext(d, n, id, tr, j)))
    case Ptr(m) => Go(s, t, EnqReadTag(d, n, id, tr, j, m))
  }

  function StepReadTag(s: State, t: Tid, d: Data, n: Addr, id: int, tr: Rear, j: nat, m: Addr): State {
    if m !in s.heap then Go(s, t, Wild) else
    Go(s, t, EnqHelp(d, n, id, tr, j, m, s.heap[m].next))
  }

  /** The helping 128-bit CAS on rear. */
  function StepHelp(s: State, t: Tid, d: Data, n: Addr, id: int, tr: Rear, j: nat, m: Addr, w: Word): State {
    if s.rear == tr then
      Go(s.(rear := Rear(m, w), h := s.h.(rp := j + 1)), t, EnqLoadNode(d, n, id))
    else
      Go(s, t, EnqLoadNode(d, n, id))
  }

  function StepReRead(s: State, t: Tid, n: Addr, tr: Rear, j: nat): State {
    if n !in s.heap then Go(s, t, Wild) else
    Go(s, t, EnqCas2(n, tr, j, s.heap[n].next))
  }

  /** CAS 2: swing rear to the new node; its outcome is ignored. */
  function StepCas2(s: State, t: Tid, n: Addr, tr: Rear, j: nat, w: Word): State {
    if s.rear == tr then
      Go(s.(rear := Rear(n, w), h := s.h.(rp := j + 1)), t, EnqCount(j + 1))
    else
      Go(s, t, EnqCount(j + 1))
  }

  function StepCount(s: State, t: Tid, k: nat): State {
    Go(s.(count := s.count + 1,
          h := s.h.(counted := s.h.counted + {k}, pending := s.h.pending - {k})), t, Idle)
  }

  // DeQ steps ----------------------------------------------------------------

  function StepGate(s: State, t: Tid): State {
    var c := s.count - 1;
    if c < 0 then
      Go(s.(count := c, h := s.h.(failing := s.h.failing + {t})), t, DeqUndo)
    else
      Go(s.(count := c, h := s.h.(poppers := s.h.poppers + {t})), t, DeqLoadNode)
  }

  function StepUndo(s: State, t: Tid): State {
    Go(s.(count := s.count + 1, h := s.h.(failing := s.h.failing - {t})), t, Idle)
  }

  function StepLoadFrontNode(s: State, t: Tid): State {
    Go(s, t, DeqLoadId(s.front.node))
  }

  function StepLoadFrontId(s: State, t: Tid, fn: Addr): State {
    Go(s, t, DeqNext(Front(fn, s.front.id)))
  }

  function StepNext(s: State, t: Tid, tf: Front): State {
    if tf.node !in s.heap then Go(s, t, Wild) else
    match s.heap[tf.node].next
    case Tag(_) => s                       // `continue`: read the same next again
    case Null => Go(s, t, Crashed(DeqNext(tf)))
    case Ptr(m) => Go(s, t, DeqData(tf, m))
  }

  function StepData(s: State, t: Tid, tf: Front, m: Addr): State {
    if m !in s.heap then Go(s, t, Wild) else
    Go(s, t, DeqCas(tf, m, s.heap[m].data))
  }

  /** The 128-bit CAS on front; on failure tempFront becomes the current front. */
  function StepDeqCas(s: State, t: Tid, tf: Front, m: Addr, v: Data): State {
    if s.front == tf then
      var s' := s.(front := Front(m, tf.id + 1),
                   h := s.h.(owner := s.h.owner[tf.node := HeldBy(t)],
                             poppers := s.h.poppers - {t},
                             tickets := s.h.tickets[tf.id := Claimed(t, v)],
                             log := s.h.log + [Deq(v)]));
      Go(s', t, DeqFree(tf.node, v, tf.id))
    else
      Go(s, t, DeqNext(s.front))
  }

  /** `m_memoryPool.Free(tempFront.m_nodePtr)` and the return of tempData. */
  function StepFree(s: State, t: Tid, dead: Addr, v: Data, k: nat): State {
    Go(s.(pool := s.pool + {dead},
          h := s.h.(owner := s.h.owner[dead := Pooled],
                    tickets := s.h.tickets[k := Delivered(v)])), t, Idle)
  }

  // The machine --------------------------------------------------------------

  datatype Action = CallEnQ(d: Data) | CallDeQ | Run(a: Addr)

  /** One step of thread t.  `act` resolves what the program does not: the call an
      idle thread makes, and the node the pool hands out. */
  function Step(s: State, t: Tid, act: Action): State {
    match PcOf(s, t)
    case Idle => (match act
                  case CallEnQ(d) => Go(s, t, EnqCheck(d))
                  case CallDeQ => Go(s, t, DeqGate)
                  case Run(_) => s)
    case Crashed(_) => s
    case Wild => s
    case EnqCheck(d) => StepCheck(s, t, d)
    case EnqAlloc(d) => if act.Run? then StepAlloc(s, t, d, act.a) else s
    case EnqSetData(d, n) => StepSetData(s, t, d, n)
    case EnqNewTag(d, n) => StepNewTag(s, t, d, n)
    case EnqSetNext(d, n, id) => StepSetNext(s, t, d, n, id)
    case EnqLoadNode(d, n, id) => StepLoadRearNode(s, t, d, n, id)
    case EnqLoadId(d, n, id, rn) => StepLoadRearId(s, t, d, n, id, rn)
    case EnqCas1(d, n, id, tr, j) => StepCas1(s, t, d, n, id, tr, j)
    case EnqReadNext(d, n, id, tr, j) => StepReadNext(s, t, d, n, id, tr, j)
    case EnqReadTag(d, n, id, tr, j, m) => StepReadTag(s, t, d, n, id, tr, j, m)
    case EnqHelp(d, n, id, tr, j, m, w) => StepHelp(s, t, d, n, id, tr, j, m, w)
    case EnqReRead(n, tr, j) => StepReRead(s, t, n, tr, j)
    case EnqCas2(n, tr, j, w) => StepCas2(s, t, n, tr, j, w)
    case EnqCount(k) => StepCount(s, t, k)
    case DeqGate => StepGate(s, t)
    case DeqUndo => StepUndo(s, t)
    case DeqLoadNode => StepLoadFrontNode(s, t)
    case DeqLoadId(fn) => StepLoadFrontId(s, t, fn)
    case DeqNext(tf) => StepNext(s, t, tf)
    case DeqData(tf, m) => StepData(s, t, tf, m)
    case DeqCas(tf, m, v) => StepDeqCas(s, t, tf, m, v)
    case DeqFree(o, v, k) => StepFree(s, t, o, v, k)
  }

  datatype Move = Move(t: Tid, act: Action)

  /** The state after a whole interleaving. */
  function Exec(s: State, moves: seq<Move>): State
    decreases |moves|
  {
    if moves == [] then s
    else
      var last := moves[|moves| - 1];
      Step(Exec(s, moves[..|moves| - 1]), last.t, last.act)
  }
}
