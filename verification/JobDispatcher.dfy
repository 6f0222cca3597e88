/**
 Per-session job serialization as a step machine: any number of threads push jobs to any
 number of job queues while any number of dispatcher threads run them.

 `std::mutex` sections with one effect are one step; JobQueue::Push, which keeps its lock
 over the append, the fetch_add and PushJobQueue, is several.
 */
module JobDispatcher {
  import opened Options

  type Tid = nat
  type Qid = nat
  type Job = int

  /** History: who will see to it that a queue with work gets run. */
  datatype Token = NoToken | InDeque | WithWorker(t: Tid) | WithPusher(t: Tid)

  /** JobQueue: m_dataQueue, m_dbJobCount, m_lock; then history. */
  datatype Queue = Queue(
    data: seq<Job>,
    count: int,
    lock: Option<Tid>,
    pushed: seq<Job>,             // jobs in the order they were appended
    executed: seq<Job>,           // jobs in the order they were started
    token: Token)

  datatype Pc =
    | Idle
      // JobQueue::Push
    | PushLock(q: Qid, j: Job)
    | PushAppend(q: Qid, j: Job)
    | PushAdd(q: Qid)
    | PushWake(q: Qid)
    | PushUnlock(q: Qid)
      // JobDispatcher::Run
    | WorkTest
    | WorkPop
    | WorkSwap(q: Qid)
    | WorkNext(q: Qid, batch: seq<Job>, i: nat)
    | WorkInJob(q: Qid, batch: seq<Job>, i: nat)
    | WorkDecrement(q: Qid, n: nat)
    | WorkRepush(q: Qid)
    | Stopped

  datatype State = State(
    queues: map<Qid, Queue>,
    active: seq<Qid>,             // m_activeJobQueue
    running: bool,
    pcs: map<Tid, Pc>)

  const INIT: State := State(map[], [], true, map[])

  function QueueOf(s: State, q: Qid): Queue {
    if q in s.queues then s.queues[q] else Queue([], 0, None, [], [], NoToken)
  }

  function PcOf(s: State, t: Tid): Pc {
    if t in s.pcs then s.pcs[t] else Idle
  }

  function Go(s: State, t: Tid, pc: Pc): State {
    s.(pcs := s.pcs[t := pc])
  }

  function Put(s: State, q: Qid, r: Queue): State {
    s.(queues := s.queues[q := r])
  }

  // JobQueue::Push ---------------------------------------------------------------

  function StepLock(s: State, t: Tid, q: Qid, j: Job): State {
    var r := QueueOf(s, q);
    if r.lock == None then Go(Put(s, q, r.(lock := Some(t))), t, PushAppend(q, j)) else s
  }

  function StepAppend(s: State, t: Tid, q: Qid, j: Job): State {
    var r := QueueOf(s, q);
    Go(Put(s, q, r.(data := r.data + [j], pushed := r.pushed + [j])), t, PushAdd(q))
  }

  /** `m_dbJobCount.fetch_add(1) == 0` */
  function StepAdd(s: State, t: Tid, q: Qid): State {
    var r := QueueOf(s, q);
    if r.count == 0 then
      Go(Put(s, q, r.(count := r.count + 1, token := WithPusher(t))), t, PushWake(q))
    else
      Go(Put(s, q, r.(count := r.count + 1)), t, PushUnlock(q))
  }

  function StepWake(s: State, t: Tid, q: Qid): State {
    Go(Put(s, q, QueueOf(s, q).(token := InDeque)).(active := s.active + [q]), t, PushUnlock(q))
  }

  function StepUnlock(s: State, t: Tid, q: Qid): State {
    Go(Put(s, q, QueueOf(s, q).(lock := None)), t, Idle)
  }

  // JobDispatcher::Run -----------------------------------------------------------

  function StepTest(s: State, t: Tid): State {
    if s.running then Go(s, t, WorkPop) else Go(s, t, Stopped)
  }

  /** PopJobQueue: the front queue, or nothing after a timeout or a stop. */
  function StepPop(s: State, t: Tid, timeout: bool): State {
    if s.active != [] then
      var q := s.active[0];
      Go(Put(s, q, QueueOf(s, q).(token := WithWorker(t))).(active := s.active[1..]), t, WorkSwap(q))
    else if timeout || !s.running then Go(s, t, WorkTest)
    else s
  }

  /** JobQueue::Pop swaps the whole deque out under the lock. */
  function StepSwap(s: State, t: Tid, q: Qid): State {
    var r := QueueOf(s, q);
    if r.lock == None then Go(Put(s, q, r.(data := [])), t, WorkNext(q, r.data, 0)) else s
  }

  function StepNext(s: State, t: Tid, q: Qid, batch: seq<Job>, i: nat): State {
    if i < |batch| then
      var r := QueueOf(s, q);
      Go(Put(s, q, r.(executed := r.executed + [batch[i]])), t, WorkInJob(q, batch, i))
    else
      Go(s, t, WorkDecrement(q, |batch|))
  }

  function StepJobDone(s: State, t: Tid, q: Qid, batch: seq<Job>, i: nat): State {
    Go(s, t, WorkNext(q, batch, i + 1))
  }

  function StepDecrement(s: State, t: Tid, q: Qid, n: nat): State {
    var r := QueueOf(s, q);
    var c := r.count - n;
    if 0 < c then Go(Put(s, q, r.(count := c)), t, WorkRepush(q))
    else Go(Put(s, q, r.(count := c, token := NoToken)), t, WorkTest)
  }

  function StepRepush(s: State, t: Tid, q: Qid): State {
    Go(Put(s, q, QueueOf(s, q).(token := InDeque)).(active := s.active + [q]), t, WorkTest)
  }

  // The machine ------------------------------------------------------------------

  datatype Action = CallPush(q: Qid, j: Job) | StartWorker | Stop | Run(timeout: bool)

  function Step(s: State, t: Tid, act: Action): State {
    match PcOf(s, t)
    case Idle => (match act
                  case CallPush(q, j) => Go(s, t, PushLock(q, j))
                  case StartWorker => Go(s, t, WorkTest)
                  case Stop => Go(s.(running := false), t, Idle)
                  case Run(_) => s)
    case PushLock(q, j) => StepLock(s, t, q, j)
    case PushAppend(q, j) => StepAppend(s, t, q, j)
    case PushAdd(q) => StepAdd(s, t, q)
    case PushWake(q) => StepWake(s, t, q)
    case PushUnlock(q) => StepUnlock(s, t, q)
    case WorkTest => StepTest(s, t)
    case WorkPop => StepPop(s, t, act.Run? && act.timeout)
    case WorkSwap(q) => StepSwap(s, t, q)
    case WorkNext(q, b, i) => StepNext(s, t, q, b, i)
    case WorkInJob(q, b, i) => StepJobDone(s, t, q, b, i)
    case WorkDecrement(q, n) => StepDecrement(s, t, q, n)
    case WorkRepush(q) => StepRepush(s, t, q)
    case Stopped => s
  }

  datatype Move = Move(t: Tid, act: Action)

  function Exec(moves: seq<Move>): State
    decreases |moves|
  {
    if moves == [] then INIT
    else
      var last := moves[|moves| - 1];
      Step(Exec(moves[..|moves| - 1]), last.t, last.act)
  }
}
