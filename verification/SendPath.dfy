/**
 Send, NetworkTaskSend::Start and NetworkTaskSend::Complete of one session, interleaved.

 The send queue is a FIFO queue whose DeQ may also fail although an element is present
 (another DeQ may hold a temporary decrement).  WSASend and its completion are outcomes
 chosen by the environment.
 */
module SendPath {
  import opened Options

  type Tid = nat                 // a thread inside NetworkSession::Send
  type Task = nat                // a NetworkTaskSend object
  type Packet = int

  datatype TaskPc =
    | Posted                                       // in the completion port, m_step None
    | Draining(batch: seq<Packet>)                 // won m_isSending, DeQ loop
    | Submitting(batch: seq<Packet>)               // about to call WSASend
    | InFlight(batch: seq<Packet>)                 // m_step Running, waiting for completion
    | Deleting(batch: seq<Packet>, i: nat)         // delete p; for each
    | Releasing                                    // m_isSending.exchange(false)
    | Gone

  datatype State = State(
    queue: seq<Packet>,
    sending: bool,
    posting: set<Tid>,             // senders between EnQ and WorkerPush
    tasks: seq<TaskPc>,
    // history
    owner: Option<Task>,           // who set m_isSending
    enqueued: seq<Packet>,
    submitted: seq<Packet>,        // packets of all batches given to WSASend, in order
    deleted: seq<Packet>)

  const INIT: State := State([], false, {}, [], None, [], [], [])

  function Put(s: State, k: Task, pc: TaskPc): State
    requires k < |s.tasks|
  {
    s.(tasks := s.tasks[k := pc])
  }

  // NetworkSession::Send ----------------------------------------------------------

  function StepEnQ(s: State, t: Tid, p: Packet): State {
    if t in s.posting then s
    else s.(queue := s.queue + [p], enqueued := s.enqueued + [p], posting := s.posting + {t})
  }

  function StepPost(s: State, t: Tid): State {
    if t !in s.posting then s
    else s.(posting := s.posting - {t}, tasks := s.tasks + [Posted])
  }

  // NetworkTaskSend ---------------------------------------------------------------

  /** `if (m_isSending.exchange(true) == true) return false;` */
  function StepStart(s: State, k: Task): State
    requires k < |s.tasks|
  {
    if s.sending then Put(s, k, Gone)
    else Put(s, k, Draining([])).(sending := true, owner := Some(k))
  }

  /** One DeQ of the drain loop; `fails` only matters on a non-empty queue. */
  function StepDrain(s: State, k: Task, batch: seq<Packet>, fails: bool): State
    requires k < |s.tasks|
  {
    if s.queue != [] && !fails then
      Put(s, k, Draining(batch + [s.queue[0]])).(queue := s.queue[1..])
    else if batch == [] then Put(s, k, Releasing)
    else Put(s, k, Submitting(batch))
  }

  function StepSubmit(s: State, k: Task, batch: seq<Packet>, fails: bool): State
    requires k < |s.tasks|
  {
    Put(s, k, if fails then Deleting(batch, 0) else InFlight(batch)).(submitted := s.submitted + batch)
  }

  function StepDelete(s: State, k: Task, batch: seq<Packet>, i: nat): State
    requires k < |s.tasks|
  {
    if i < |batch| then Put(s, k, Deleting(batch, i + 1)).(deleted := s.deleted + [batch[i]])
    else Put(s, k, Releasing)
  }

  function StepRelease(s: State, k: Task): State
    requires k < |s.tasks|
  {
    Put(s, k, Gone).(sending := false, owner := None)
  }

  // The machine -------------------------------------------------------------------

  /** Run is a step of the task's own code; Completed is the completion of its WSASend, after
      which a worker runs Complete. */
  datatype Move = EnQ(t: Tid, p: Packet) | Post(t: Tid) | Run(k: Task, fails: bool) | Completed(k: Task)

  /** The next step of the task's own code. */
  function StepTask(s: State, k: Task, fails: bool): State
    requires k < |s.tasks|
  {
    match s.tasks[k]
    case Posted => StepStart(s, k)
    case Draining(b) => StepDrain(s, k, b, fails)
    case Submitting(b) => StepSubmit(s, k, b, fails)
    case InFlight(_) => s
    case Deleting(b, i) => StepDelete(s, k, b, i)
    case Releasing => StepRelease(s, k)
    case Gone => s
  }

  function StepCompleted(s: State, k: Task): State
    requires k < |s.tasks|
  {
    if s.tasks[k].InFlight? then Put(s, k, Deleting(s.tasks[k].batch, 0)) else s
  }

  function Step(s: State, m: Move): State {
    match m
    case EnQ(t, p) => StepEnQ(s, t, p)
    case Post(t) => StepPost(s, t)
    case Run(k, fails) => if k < |s.tasks| then StepTask(s, k, fails) else s
    case Completed(k) => if k < |s.tasks| then StepCompleted(s, k) else s
  }

  function Exec(moves: seq<Move>): State
    decreases |moves|
  {
    if moves == [] then INIT else Step(Exec(moves[..|moves| - 1]), moves[|moves| - 1])
  }

  // Invariant ---------------------------------------------------------------------

  predicate Active(pc: TaskPc) {
    !pc.Posted? && !pc.Gone?
  }

  /** Packets in the hands of the sending task, not yet deleted. */
  function InHand(s: State): seq<Packet> {
    match s.owner
    case None => []
    case Some(k) =>
      if k >= |s.tasks| then []
      else
        match s.tasks[k]
        case Draining(b) => b
        case Submitting(b) => b
        case InFlight(b) => b
        case Deleting(b, i) => if i <= |b| then b[i..] else []
        case _ => []
  }

  /** Of those, the packets not yet given to WSASend. */
  function Unsubmitted(s: State): seq<Packet> {
    if s.owner.Some? && s.owner.value < |s.tasks|
       && (s.tasks[s.owner.value].Draining? || s.tasks[s.owner.value].Submitting?)
    then s.tasks[s.owner.value].batch
    else []
  }

  ghost predicate TaskOk(s: State, k: Task)
    requires k < |s.tasks|
  {
    && (Active(s.tasks[k]) <==> s.owner == Some(k))
    && (s.tasks[k].Deleting? ==> s.tasks[k].i <= |s.tasks[k].batch|)
  }

  ghost predicate Inv(s: State) {
    && (s.sending <==> s.owner.Some?)
    && (s.owner.Some? ==> s.owner.value < |s.tasks|)
    && (forall k: Task {:trigger TaskOk(s, k)} :: k < |s.tasks| ==> TaskOk(s, k))
    && s.enqueued == s.deleted + InHand(s) + s.queue
    && s.enqueued == s.submitted + Unsubmitted(s) + s.queue
  }

  lemma TasksKept(s: State, s': State, k: Task)
    requires Inv(s) && k < |s.tasks| && |s'.tasks| == |s.tasks| && s'.tasks == s.tasks[k := s'.tasks[k]]
    requires TaskOk(s', k)
    requires s'.owner == s.owner || (s.owner == None && s'.owner == Some(k))
          || (s.owner == Some(k) && s'.owner == None)
    ensures forall j: Task {:trigger TaskOk(s', j)} :: j < |s'.tasks| ==> TaskOk(s', j)
  {
    forall j: Task | j < |s'.tasks| ensures TaskOk(s', j) { assert TaskOk(s, j); }
  }

  lemma SendKeeps(s: State, m: Move, s': State)
    requires Inv(s) && (m.EnQ? || m.Post?) && s' == Step(s, m)
    ensures Inv(s')
  {
    forall j: Task | j < |s'.tasks| ensures TaskOk(s', j) {
      if j < |s.tasks| { assert TaskOk(s, j); }
    }
  }

  lemma DeleteKeeps(s: State, k: Task, s': State)
    requires Inv(s) && k < |s.tasks| && s.tasks[k].Deleting? && s' == StepDelete(s, k, s.tasks[k].batch, s.tasks[k].i)
    ensures Inv(s')
  {
    assert TaskOk(s, k);
    TasksKept(s, s', k);
    var b, i := s.tasks[k].batch, s.tasks[k].i;
    assert InHand(s) == b[i..] && Unsubmitted(s) == [] == Unsubmitted(s');
    if i < |b| {
      assert InHand(s') == b[i + 1..] && s'.deleted == s.deleted + [b[i]];
      DeletedOne(s.deleted, b, i, s.queue);
    } else {
      assert InHand(s') == [] == b[i..];
    }
  }

  lemma DeletedOne(deleted: seq<Packet>, b: seq<Packet>, i: nat, queue: seq<Packet>)
    requires i < |b|
    ensures deleted + b[i..] + queue == deleted + [b[i]] + b[i + 1..] + queue
  {
    assert b[i..] == [b[i]] + b[i + 1..];
  }

  lemma TakeKeeps(s: State, k: Task, s': State)
    requires Inv(s) && k < |s.tasks| && s.tasks[k].Draining? && s.queue != []
    requires s' == StepDrain(s, k, s.tasks[k].batch, false)
    ensures Inv(s')
  {
    assert TaskOk(s, k);
    TasksKept(s, s', k);
    var b := s.tasks[k].batch;
    assert s.queue == [s.queue[0]] + s.queue[1..];
    assert InHand(s') == b + [s.queue[0]] == Unsubmitted(s');
    assert s.deleted + b + s.queue == s'.deleted + InHand(s') + s'.queue;
    assert s.submitted + b + s.queue == s'.submitted + Unsubmitted(s') + s'.queue;
  }

  lemma DrainKeeps(s: State, k: Task, fails: bool, s': State)
    requires Inv(s) && k < |s.tasks| && s.tasks[k].Draining? && s' == StepDrain(s, k, s.tasks[k].batch, fails)
    ensures Inv(s')
  {
    assert TaskOk(s, k);
    if s.queue != [] && !fails {
      TakeKeeps(s, k, s');
    } else {
      TasksKept(s, s', k);
    }
  }

  lemma StepKeeps(s: State, m: Move, s': State)
    requires Inv(s) && s' == Step(s, m)
    ensures Inv(s')
  {
    if m.EnQ? || m.Post? {
      SendKeeps(s, m, s');
    } else if m.k < |s.tasks| && s.tasks[m.k] != Gone {
      assert TaskOk(s, m.k);
      if m.Completed? {
        TasksKept(s, s', m.k);
      } else if s.tasks[m.k].Draining? {
        DrainKeeps(s, m.k, m.fails, s');
      } else if s.tasks[m.k].Deleting? {
        DeleteKeeps(s, m.k, s');
      } else {
        TasksKept(s, s', m.k);
      }
    }
  }

  lemma {:induction false} ExecInv(moves: seq<Move>)
    ensures Inv(Exec(moves))
    decreases |moves|
  {
    if moves != [] {
      var before := moves[..|moves| - 1];
      ExecInv(before);
      StepKeeps(Exec(before), moves[|moves| - 1], Exec(moves));
    }
  }

  // Promises ------------------------------------------------------------------------

  /** In every interleaving at most one task is past m_isSending; every packet is in exactly
      one place (deleted once, in the sender's hands, or queued), in enqueue order; the
      batches given to WSASend, put together, are a prefix of the enqueue order; and a
      packet is deleted only after it was submitted. */
  lemma OneSendAtATime(moves: seq<Move>)
    ensures var s := Exec(moves);
            && (forall j, k :: 0 <= j < |s.tasks| && 0 <= k < |s.tasks| ==>
                  Active(s.tasks[j]) && Active(s.tasks[k]) ==> j == k)
            && s.enqueued == s.deleted + InHand(s) + s.queue
            && s.submitted <= s.enqueued
            && s.deleted <= s.submitted
  {
    var s := Exec(moves);
    ExecInv(moves);
    forall j, k | 0 <= j < |s.tasks| && 0 <= k < |s.tasks| && Active(s.tasks[j]) && Active(s.tasks[k])
      ensures j == k
    {
      assert TaskOk(s, j) && TaskOk(s, k);
    }
    var n := |s.enqueued| - |s.queue|;
    assert s.enqueued[..n] == s.deleted + InHand(s);
    assert s.enqueued[..n] == s.submitted + Unsubmitted(s);
    assert s.owner.Some? ==> TaskOk(s, s.owner.value);
    assert |s.deleted| <= |s.submitted|;
  }

  /** A packet waits with somebody on the way to it. */
  ghost predicate Expected(s: State) {
    || s.posting != {}
    || exists k :: 0 <= k < |s.tasks| && OnTheWay(s.tasks[k])
  }

  predicate OnTheWay(pc: TaskPc) {
    pc.Posted? || pc.Draining?
  }

  /** The last task on the way to a non-empty queue gives up: it finds m_isSending set, or its
      DeQ fails spuriously. */
  predicate Strands(s: State, m: Move) {
    && m.Run? && m.k < |s.tasks| && s.queue != [] && s.posting == {}
    && (if s.tasks[m.k].Posted? then s.sending else s.tasks[m.k].Draining? && m.fails)
    && forall j :: 0 <= j < |s.tasks| && j != m.k ==> !OnTheWay(s.tasks[j])
  }

  /** Exactly such a step leaves packets in the queue with nobody on the way to them. */
  lemma StrandExact(s: State, m: Move, s': State)
    requires s' == Step(s, m) && (s.queue != [] ==> Expected(s))
    ensures s'.queue != [] && !Expected(s') <==> Strands(s, m)
  {
    if Strands(s, m) {
      assert s'.queue != [] && s'.posting == {};
    } else if s'.queue != [] {
      if m.EnQ? && m.t !in s.posting {
        assert m.t in s'.posting;
      } else if m.Post? && m.t in s.posting {
        assert s'.tasks[|s.tasks|].Posted?;
      } else if s.posting != {} {
        assert s'.posting == s.posting;
      } else {
        StillExpected(s, m, s');
      }
    }
  }

  lemma StillExpected(s: State, m: Move, s': State)
    requires s' == Step(s, m) && !Strands(s, m) && s.queue != [] && Expected(s) && s.posting == {} && !m.EnQ?
    ensures Expected(s')
  {
    var k :| 0 <= k < |s.tasks| && OnTheWay(s.tasks[k]);
    if m.Run? && m.k == k && !OnTheWay(s'.tasks[k]) {
      var j :| 0 <= j < |s.tasks| && j != k && OnTheWay(s.tasks[j]);
      assert OnTheWay(s'.tasks[j]);
    } else {
      assert OnTheWay(s'.tasks[k]);
    }
  }

  /** Nobody is in Send and no task is left. */
  ghost predicate Quiet(s: State) {
    s.posting == {} && forall k :: 0 <= k < |s.tasks| ==> s.tasks[k] == Gone
  }

  /** Packets wait and nobody is on the way to them. */
  ghost predicate Stranded(s: State) {
    s.queue != [] && !Expected(s)
  }

  /** A Send that starts: its packet goes to the queue and its own task will follow. */
  predicate Queues(s: State, m: Move) {
    m.EnQ? && m.t !in s.posting
  }

  /** At some step of the run the last task on the way gave up on a non-empty queue, and no Send
      has queued anything since. */
  predicate LeftBehind(moves: seq<Move>)
    decreases |moves|
  {
    moves != [] &&
    var before, m := moves[..|moves| - 1], moves[|moves| - 1];
    Strands(Exec(before), m) || (LeftBehind(before) && !Queues(Exec(before), m))
  }

  lemma StaysStranded(s: State, m: Move, s': State)
    requires s' == Step(s, m) && Stranded(s)
    ensures !Strands(s, m) && (Stranded(s') <==> !Queues(s, m))
  {
    if m.Run? && m.k < |s.tasks| {
      assert !OnTheWay(s.tasks[m.k]);
    }
    if Queues(s, m) {
      assert m.t in s'.posting;
    }
  }

  /** Over whole runs: packets are stranded if and only if the run left them behind. */
  lemma {:induction false} StrandedExact(moves: seq<Move>)
    ensures Stranded(Exec(moves)) <==> LeftBehind(moves)
    decreases |moves|
  {
    if moves != [] {
      var before, m := moves[..|moves| - 1], moves[|moves| - 1];
      StrandedExact(before);
      if Stranded(Exec(before)) {
        StaysStranded(Exec(before), m, Exec(moves));
      } else {
        StrandExact(Exec(before), m, Exec(moves));
      }
    }
  }

  /** When everything has come to rest, every packet has been submitted and deleted if and only if
      the run left none behind. */
  lemma NothingStranded(moves: seq<Move>)
    requires Quiet(Exec(moves))
    ensures var s := Exec(moves);
            (s.queue == [] && s.submitted == s.enqueued && s.deleted == s.enqueued) <==> !LeftBehind(moves)
  {
    StrandedExact(moves);
    ExecInv(moves);
    var s := Exec(moves);
    assert s.owner.Some? ==> TaskOk(s, s.owner.value);
  }

  lemma Then(moves: seq<Move>, s: State, m: Move)
    requires Exec(moves) == s
    ensures Exec(moves + [m]) == Step(s, m)
  {
    assert (moves + [m])[..|moves|] == moves;
  }

  /** A packet can be left behind: packet q is queued after the
      drain loop of the first task ended and its own task runs while that send is still in
      flight; when everything is at rest, q is still queued. */
  lemma StrandedPacket(p: Packet, q: Packet) returns (moves: seq<Move>)
    ensures Quiet(Exec(moves)) && Exec(moves).queue == [q]
  {
    moves := [];
    var s0 := INIT;
    Then(moves, s0, EnQ(0, p)); moves := moves + [EnQ(0, p)];
    var s1 := s0.(queue := [p], enqueued := [p], posting := {0});
    Then(moves, s1, Post(0)); moves := moves + [Post(0)];
    var s2 := s1.(posting := {}, tasks := [Posted]);
    assert s1.posting - {0} == {};
    Then(moves, s2, Run(0, false)); moves := moves + [Run(0, false)];
    var s3 := s2.(tasks := [Draining([])], sending := true, owner := Some(0));
    Then(moves, s3, Run(0, false)); moves := moves + [Run(0, false)];
    var s4 := s3.(tasks := [Draining([p])], queue := []);
    Then(moves, s4, Run(0, false)); moves := moves + [Run(0, false)];
    var s5 := s4.(tasks := [Submitting([p])]);
    moves := LateTask(moves, s5, p, q);
  }

  lemma LateTask(before: seq<Move>, s5: State, p: Packet, q: Packet) returns (moves: seq<Move>)
    requires Exec(before) == s5
    requires s5 == INIT.(enqueued := [p], tasks := [Submitting([p])], sending := true, owner := Some(0))
    ensures Quiet(Exec(moves)) && Exec(moves).queue == [q]
  {
    moves := before;
    Then(moves, s5, EnQ(0, q)); moves := moves + [EnQ(0, q)];
    var s6 := s5.(queue := [q], enqueued := [p, q], posting := {0});
    Then(moves, s6, Post(0)); moves := moves + [Post(0)];
    var s7 := s6.(posting := {}, tasks := [Submitting([p]), Posted]);
    assert s6.posting - {0} == {};
    Then(moves, s7, Run(1, false)); moves := moves + [Run(1, false)];
    var s8 := s7.(tasks := [Submitting([p]), Gone]);
    Then(moves, s8, Run(0, false)); moves := moves + [Run(0, false)];
    var s9 := s8.(tasks := [InFlight([p]), Gone], submitted := [p]);
    Then(moves, s9, Completed(0)); moves := moves + [Completed(0)];
    var s10 := s9.(tasks := [Deleting([p], 0), Gone]);
    Then(moves, s10, Run(0, false)); moves := moves + [Run(0, false)];
    var s11 := s10.(tasks := [Deleting([p], 1), Gone], deleted := [p]);
    Then(moves, s11, Run(0, false)); moves := moves + [Run(0, false)];
    var s12 := s11.(tasks := [Releasing, Gone]);
    Then(moves, s12, Run(0, false)); moves := moves + [Run(0, false)];
    assert Exec(moves).tasks == [Gone, Gone];
  }
}
