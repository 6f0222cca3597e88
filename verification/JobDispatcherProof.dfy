/** Jobs of one session run one at a time, in order, and no wake-up is lost. */
module JobDispatcherProof {
  import opened Options
  import opened JobDispatcher

  // Invariant -----------------------------------------------------------------------

  predicate HasLock(pc: Pc, q: Qid) {
    (pc.PushAppend? || pc.PushAdd? || pc.PushWake? || pc.PushUnlock?) && pc.q == q
  }

  predicate HasWork(pc: Pc, q: Qid) {
    (pc.WorkSwap? || pc.WorkNext? || pc.WorkInJob? || pc.WorkDecrement? || pc.WorkRepush?) && pc.q == q
  }

  /** Jobs taken from the queue by the worker and not yet subtracted from the count. */
  function InBatch(s: State, r: Queue): nat {
    if !r.token.WithWorker? then 0
    else
      match PcOf(s, r.token.t)
      case WorkNext(_, b, _) => |b|
      case WorkInJob(_, b, _) => |b|
      case WorkDecrement(_, n) => n
      case _ => 0
  }

  /** Jobs of the batch that have not been started. */
  function Unstarted(s: State, r: Queue): seq<Job> {
    if !r.token.WithWorker? then []
    else
      match PcOf(s, r.token.t)
      case WorkNext(_, b, i) => if i <= |b| then b[i..] else []
      case WorkInJob(_, b, i) => if i < |b| then b[i + 1..] else []
      case _ => []
  }

  /** 1 while a pusher is between the append and the fetch_add. */
  function MidPush(s: State, r: Queue): nat {
    if r.lock.Some? && PcOf(s, r.lock.value).PushAdd? then 1 else 0
  }

  ghost predicate QueueOk(s: State, q: Qid) {
    var r := QueueOf(s, q);
    && (r.lock.Some? ==> HasLock(PcOf(s, r.lock.value), q))
    && r.count == |r.data| + InBatch(s, r) - MidPush(s, r)
    && (r.count > 0 <==> r.token != NoToken)
    && r.pushed == r.executed + Unstarted(s, r) + r.data
    && (r.token == InDeque <==> q in s.active)
    && (r.token.WithWorker? ==> HasWork(PcOf(s, r.token.t), q))
    && (r.token.WithPusher? ==> r.lock == Some(r.token.t) && PcOf(s, r.token.t) == PushWake(q))
  }

  ghost predicate ThreadOk(s: State, t: Tid) {
    var pc := PcOf(s, t);
    && (forall q :: HasLock(pc, q) ==> QueueOf(s, q).lock == Some(t))
    && (forall q :: HasWork(pc, q) ==> QueueOf(s, q).token == WithWorker(t))
    && (pc.PushWake? ==> QueueOf(s, pc.q).token == WithPusher(t))
    && (pc.WorkNext? ==> pc.i <= |pc.batch| && |pc.batch| > 0)
    && (pc.WorkInJob? ==> pc.i < |pc.batch|)
    && (pc.WorkDecrement? ==> pc.n > 0)
  }

  ghost predicate Inv(s: State) {
    && (forall q: Qid {:trigger QueueOk(s, q)} :: QueueOk(s, q))
    && (forall t: Tid {:trigger ThreadOk(s, t)} :: ThreadOk(s, t))
    && (forall i, j :: 0 <= i < j < |s.active| ==> s.active[i] != s.active[j])
  }

  /** A step of t on queue q: every other queue and thread is untouched. */
  lemma Local(s: State, s': State, t: Tid, q: Qid, r': Queue, pc': Pc)
    requires Inv(s)
    requires s'.queues == s.queues[q := r'] && s'.pcs == s.pcs[t := pc']
    requires forall p :: HasLock(PcOf(s, t), p) || HasWork(PcOf(s, t), p) ==> p == q
    requires forall p :: p != q ==> (p in s'.active <==> p in s.active)
    requires forall i, j :: 0 <= i < j < |s'.active| ==> s'.active[i] != s'.active[j]
    requires forall u: Tid :: u != t && QueueOf(s, q).lock == Some(u) ==> r'.lock == Some(u)
    requires forall u: Tid :: u != t && QueueOf(s, q).token == WithWorker(u) ==> r'.token == WithWorker(u)
    requires forall u: Tid :: u != t && QueueOf(s, q).token == WithPusher(u) ==> r'.token == WithPusher(u)
    requires QueueOk(s', q) && ThreadOk(s', t)
    ensures Inv(s')
  {
    forall p: Qid ensures QueueOk(s', p) {
      if p != q {
        assert QueueOk(s, p);
        assert QueueOf(s', p) == QueueOf(s, p);
      }
    }
    forall u: Tid ensures ThreadOk(s', u) {
      if u != t {
        assert ThreadOk(s, u);
        assert PcOf(s', u) == PcOf(s, u);
      }
    }
  }

  predicate HoldsNothing(pc: Pc) {
    pc.Idle? || pc.PushLock? || pc.WorkTest? || pc.WorkPop? || pc.Stopped?
  }

  lemma MoveOnly(s: State, s': State, t: Tid, pc': Pc)
    requires Inv(s) && HoldsNothing(PcOf(s, t)) && HoldsNothing(pc')
    requires s'.queues == s.queues && s'.active == s.active && s'.pcs == s.pcs[t := pc']
    ensures Inv(s')
  {
    forall q: Qid ensures QueueOk(s', q) {
      assert QueueOk(s, q);
      MovedQueue(s, s', t, pc', q);
    }
    forall u: Tid ensures ThreadOk(s', u) {
      assert ThreadOk(s, u);
      assert u != t ==> PcOf(s', u) == PcOf(s, u);
    }
  }

  lemma MovedQueue(s: State, s': State, t: Tid, pc': Pc, q: Qid)
    requires QueueOk(s, q) && HoldsNothing(PcOf(s, t)) && HoldsNothing(pc')
    requires s'.queues == s.queues && s'.active == s.active && s'.pcs == s.pcs[t := pc']
    ensures QueueOk(s', q)
  {
    assert QueueOf(s', q) == QueueOf(s, q);
  }

  // Push ------------------------------------------------------------------------------

  lemma LockKeeps(s: State, t: Tid, act: Action, s': State)
    requires Inv(s) && s' == Step(s, t, act)
    requires PcOf(s, t).PushLock? || PcOf(s, t).PushUnlock?
    ensures Inv(s')
  {
    var q := PcOf(s, t).q;
    assert ThreadOk(s, t) && QueueOk(s, q);
    if s' != s {
      Local(s, s', t, q, QueueOf(s', q), PcOf(s', t));
    }
  }

  lemma AppendKeeps(s: State, t: Tid, act: Action, s': State)
    requires Inv(s) && s' == Step(s, t, act) && PcOf(s, t).PushAppend?
    ensures Inv(s')
  {
    var q := PcOf(s, t).q;
    assert ThreadOk(s, t) && QueueOk(s, q);
    Local(s, s', t, q, QueueOf(s', q), PcOf(s', t));
  }

  lemma AddKeeps(s: State, t: Tid, act: Action, s': State)
    requires Inv(s) && s' == Step(s, t, act) && PcOf(s, t).PushAdd?
    ensures Inv(s')
  {
    var q := PcOf(s, t).q;
    assert ThreadOk(s, t) && QueueOk(s, q);
    Local(s, s', t, q, QueueOf(s', q), PcOf(s', t));
  }

  lemma WakeKeeps(s: State, t: Tid, act: Action, s': State)
    requires Inv(s) && s' == Step(s, t, act) && (PcOf(s, t).PushWake? || PcOf(s, t).WorkRepush?)
    ensures Inv(s')
  {
    var q := PcOf(s, t).q;
    assert ThreadOk(s, t) && QueueOk(s, q);
    Local(s, s', t, q, QueueOf(s', q), PcOf(s', t));
  }

  // Run -------------------------------------------------------------------------------

  lemma PopKeeps(s: State, t: Tid, act: Action, s': State)
    requires Inv(s) && s' == Step(s, t, act) && PcOf(s, t).WorkPop?
    ensures Inv(s')
  {
    if s.active != [] {
      var q := s.active[0];
      assert ThreadOk(s, t) && QueueOk(s, q);
      assert s.active == [q] + s.active[1..];
      Local(s, s', t, q, QueueOf(s', q), WorkSwap(q));
    } else if s' != s {
      MoveOnly(s, s', t, WorkTest);
    }
  }

  /** A queue popped from the active deque has work: the swap never yields an empty batch. */
  lemma BatchNotEmpty(s: State, t: Tid)
    requires Inv(s) && PcOf(s, t).WorkSwap?
    ensures QueueOf(s, PcOf(s, t).q).data != []
  {
    assert ThreadOk(s, t) && QueueOk(s, PcOf(s, t).q);
  }

  lemma SwapKeeps(s: State, t: Tid, act: Action, s': State)
    requires Inv(s) && s' == Step(s, t, act) && PcOf(s, t).WorkSwap?
    ensures Inv(s')
  {
    var q := PcOf(s, t).q;
    assert ThreadOk(s, t) && QueueOk(s, q);
    BatchNotEmpty(s, t);
    if s' != s {
      var b := QueueOf(s, q).data;
      assert b[0..] == b;
      Local(s, s', t, q, QueueOf(s', q), WorkNext(q, b, 0));
    }
  }

  lemma JobStarts(s: State, t: Tid, act: Action, s': State, q: Qid, b: seq<Job>, i: nat)
    requires Inv(s) && s' == Step(s, t, act) && PcOf(s, t) == WorkNext(q, b, i) && i < |b|
    ensures Inv(s')
  {
    assert ThreadOk(s, t) && QueueOk(s, q);
    assert b[i..] == [b[i]] + b[i + 1..];
    Local(s, s', t, q, QueueOf(s', q), WorkInJob(q, b, i));
  }

  lemma NextKeeps(s: State, t: Tid, act: Action, s': State)
    requires Inv(s) && s' == Step(s, t, act) && PcOf(s, t).WorkNext?
    ensures Inv(s')
  {
    var WorkNext(q, b, i) := PcOf(s, t);
    assert ThreadOk(s, t) && QueueOk(s, q);
    if i < |b| {
      JobStarts(s, t, act, s', q, b, i);
    } else {
      assert b[i..] == [];
      Unchanged(s, s', t, q, WorkDecrement(q, |b|));
    }
  }

  /** The worker moves on; neither the batch size nor what is unstarted changes. */
  lemma Unchanged(s: State, s': State, t: Tid, q: Qid, pc': Pc)
    requires Inv(s) && HasWork(PcOf(s, t), q) && HasWork(pc', q) && s' == Go(s, t, pc')
    requires InBatch(s', QueueOf(s, q)) == InBatch(s, QueueOf(s, q))
    requires Unstarted(s', QueueOf(s, q)) == Unstarted(s, QueueOf(s, q))
    requires ThreadOk(s', t)
    ensures Inv(s')
  {
    assert ThreadOk(s, t) && QueueOk(s, q);
    forall p: Qid ensures QueueOk(s', p) {
      assert QueueOk(s, p);
      UnchangedQueue(s, s', t, q, pc', p);
    }
    forall u: Tid ensures ThreadOk(s', u) {
      assert ThreadOk(s, u);
      assert u != t ==> PcOf(s', u) == PcOf(s, u);
    }
  }

  lemma UnchangedQueue(s: State, s': State, t: Tid, q: Qid, pc': Pc, p: Qid)
    requires QueueOk(s, p) && HasWork(PcOf(s, t), q) && HasWork(pc', q) && s' == Go(s, t, pc')
    requires QueueOf(s, q).token == WithWorker(t)
    requires InBatch(s', QueueOf(s, q)) == InBatch(s, QueueOf(s, q))
    requires Unstarted(s', QueueOf(s, q)) == Unstarted(s, QueueOf(s, q))
    ensures QueueOk(s', p)
  {
    assert QueueOf(s', p) == QueueOf(s, p);
  }

  lemma JobDoneKeeps(s: State, t: Tid, act: Action, s': State)
    requires Inv(s) && s' == Step(s, t, act) && PcOf(s, t).WorkInJob?
    ensures Inv(s')
  {
    var WorkInJob(q, b, i) := PcOf(s, t);
    assert ThreadOk(s, t);
    Unchanged(s, s', t, q, WorkNext(q, b, i + 1));
  }

  lemma DecrementKeeps(s: State, t: Tid, act: Action, s': State)
    requires Inv(s) && s' == Step(s, t, act) && PcOf(s, t).WorkDecrement?
    ensures Inv(s')
  {
    var q := PcOf(s, t).q;
    assert ThreadOk(s, t) && QueueOk(s, q);
    Local(s, s', t, q, QueueOf(s', q), PcOf(s', t));
  }

  lemma StepKeeps(s: State, t: Tid, act: Action, s': State)
    requires Inv(s) && s' == Step(s, t, act)
    ensures Inv(s')
  {
    match PcOf(s, t)
    case Idle => if !act.Run? { MoveOnly(s, s', t, PcOf(s', t)); }
    case PushLock(_, _) => LockKeeps(s, t, act, s');
    case PushAppend(_, _) => AppendKeeps(s, t, act, s');
    case PushAdd(_) => AddKeeps(s, t, act, s');
    case PushWake(_) => WakeKeeps(s, t, act, s');
    case PushUnlock(_) => LockKeeps(s, t, act, s');
    case WorkTest => MoveOnly(s, s', t, PcOf(s', t));
    case WorkPop => PopKeeps(s, t, act, s');
    case WorkSwap(_) => SwapKeeps(s, t, act, s');
    case WorkNext(_, _, _) => NextKeeps(s, t, act, s');
    case WorkInJob(_, _, _) => JobDoneKeeps(s, t, act, s');
    case WorkDecrement(_, _) => DecrementKeeps(s, t, act, s');
    case WorkRepush(_) => WakeKeeps(s, t, act, s');
    case Stopped =>
  }

  lemma {:induction false} ExecInv(moves: seq<Move>)
    ensures Inv(Exec(moves))
    decreases |moves|
  {
    if moves != [] {
      var before := moves[..|moves| - 1];
      ExecInv(before);
      StepKeeps(Exec(before), moves[|moves| - 1].t, moves[|moves| - 1].act, Exec(moves));
    }
  }

  // Promises over whole runs -------------------------------------------------------------

  /** Serialization: no two threads are in jobs of one queue, the jobs started so far are a
      prefix of the jobs pushed, a queue is in the deque at most once, and never while a
      worker has it. */
  lemma Serialized(moves: seq<Move>)
    ensures var s := Exec(moves);
            && (forall t, u, q :: HasWork(PcOf(s, t), q) && HasWork(PcOf(s, u), q) ==> t == u)
            && (forall t, q :: HasWork(PcOf(s, t), q) ==> q !in s.active)
            && (forall i, j :: 0 <= i < j < |s.active| ==> s.active[i] != s.active[j])
            && (forall q: Qid {:trigger QueueOf(s, q)} :: QueueOf(s, q).executed <= QueueOf(s, q).pushed)
  {
    var s := Exec(moves);
    ExecInv(moves);
    forall t, u, q | HasWork(PcOf(s, t), q) && HasWork(PcOf(s, u), q) ensures t == u {
      assert ThreadOk(s, t) && ThreadOk(s, u);
    }
    forall t, q | HasWork(PcOf(s, t), q) ensures q !in s.active {
      assert ThreadOk(s, t) && QueueOk(s, q);
    }
    forall q: Qid ensures QueueOf(s, q).executed <= QueueOf(s, q).pushed {
      assert QueueOk(s, q);
    }
  }

  /** Somebody will see to queue q: it is in the deque, a worker has it, or the pusher that
      found the count at zero is about to put it in the deque. */
  ghost predicate LookedAfter(s: State, q: Qid) {
    || q in s.active
    || (exists t :: HasWork(PcOf(s, t), q))
    || (exists t :: PcOf(s, t) == PushWake(q))
  }

  /** No lost wake-up: the count is queued plus in-batch jobs (less one while a pusher is
      between append and fetch_add), and it is positive exactly when the queue is looked
      after. */
  lemma NoLostWakeUp(moves: seq<Move>, q: Qid)
    ensures var s := Exec(moves); var r := QueueOf(s, q);
            && r.count == |r.data| + InBatch(s, r) - MidPush(s, r)
            && (r.count > 0 <==> LookedAfter(s, q))
  {
    var s := Exec(moves);
    var r := QueueOf(s, q);
    ExecInv(moves);
    assert QueueOk(s, q);
    assert r.token.WithWorker? ==> HasWork(PcOf(s, r.token.t), q);
    if t: Tid :| HasWork(PcOf(s, t), q) {
      assert ThreadOk(s, t);
    } else if t: Tid :| PcOf(s, t) == PushWake(q) {
      assert ThreadOk(s, t);
    }
  }

  /** When every thread is between calls and nothing is in the deque, every pushed job of
      every queue has been run, in order. */
  lemma Drained(moves: seq<Move>)
    requires Exec(moves).active == []
    requires forall t: Tid :: HoldsNothing(PcOf(Exec(moves), t))
    ensures forall q: Qid {:trigger QueueOf(Exec(moves), q)} ::
              QueueOf(Exec(moves), q).executed == QueueOf(Exec(moves), q).pushed
  {
    var s := Exec(moves);
    ExecInv(moves);
    forall q: Qid ensures QueueOf(s, q).executed == QueueOf(s, q).pushed {
      assert QueueOk(s, q);
      var r := QueueOf(s, q);
      assert r.token.WithWorker? ==> !HasWork(PcOf(s, r.token.t), q);
      assert r.lock.Some? ==> !HasLock(PcOf(s, r.lock.value), q);
      assert r.data == [];
    }
  }
}
