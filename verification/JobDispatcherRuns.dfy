/**
 What the callers and the workers of the dispatcher can count on: when workers stop, what a
 worker does with a queue, what a Push does, and that exactly the jobs given to Push are run.
 */
module JobDispatcherRuns {
  import opened Options
  import opened JobDispatcher
  import opened JobDispatcherProof

  // Stopping ---------------------------------------------------------------------------------

  /** Some idle thread has made the dispatcher stop. */
  predicate StopMade(moves: seq<Move>)
    decreases |moves|
  {
    moves != [] &&
    var before, m := moves[..|moves| - 1], moves[|moves| - 1];
    StopMade(before) || (m.act.Stop? && PcOf(Exec(before), m.t).Idle?)
  }

  predicate Pushing(pc: Pc) {
    pc.PushLock? || pc.PushAppend? || pc.PushAdd? || pc.PushWake? || pc.PushUnlock?
  }

  /** A step moves only its own thread, only Stop changes m_running, and a worker leaves its loop only
      when that is not set. */
  ghost predicate Orderly(s: State, t: Tid, act: Action, s': State) {
    && (s'.running <==> s.running && !(act.Stop? && PcOf(s, t).Idle?))
    && (PcOf(s', t).Stopped? ==> PcOf(s, t).Stopped? || !s.running)
    && forall u: Tid :: u != t ==> PcOf(s', u) == PcOf(s, u)
  }

  lemma PushStep(s: State, t: Tid, act: Action, s': State)
    requires s' == Step(s, t, act) && (Pushing(PcOf(s, t)) || PcOf(s, t).Idle?)
    ensures Orderly(s, t, act, s')
  {
  }

  lemma WorkStep(s: State, t: Tid, act: Action, s': State)
    requires s' == Step(s, t, act) && !Pushing(PcOf(s, t)) && !PcOf(s, t).Idle?
    ensures Orderly(s, t, act, s')
  {
  }

  lemma StopStep(s: State, t: Tid, act: Action, s': State)
    requires s' == Step(s, t, act)
    ensures Orderly(s, t, act, s')
  {
    if Pushing(PcOf(s, t)) || PcOf(s, t).Idle? {
      PushStep(s, t, act, s');
    } else {
      WorkStep(s, t, act, s');
    }
  }

  /** Workers go on until the dispatcher is stopped: it is running, and no worker has left its loop,
      unless Stop has been made. */
  lemma {:induction false} StopsWhenTold(moves: seq<Move>)
    ensures Exec(moves).running <==> !StopMade(moves)
    ensures forall t: Tid :: PcOf(Exec(moves), t).Stopped? ==> StopMade(moves)
    decreases |moves|
  {
    if moves != [] {
      var before, m := moves[..|moves| - 1], moves[|moves| - 1];
      StopsWhenTold(before);
      StopStep(Exec(before), m.t, m.act, Exec(moves));
    }
  }

  // Runs of one thread -----------------------------------------------------------------------

  /** Steps of t inside what it does; t calls nothing new. */
  predicate OnlyBy(moves: seq<Move>, t: Tid) {
    forall i :: 0 <= i < |moves| ==> moves[i].t == t && moves[i].act.Run?
  }

  lemma Then(moves: seq<Move>, m: Move)
    ensures Exec(moves + [m]) == Step(Exec(moves), m.t, m.act)
  {
    assert (moves + [m])[..|moves|] == moves;
  }

  /** t alone leads from the run `before` to s. */
  ghost predicate Leads(before: seq<Move>, t: Tid, s: State) {
    exists more :: OnlyBy(more, t) && Exec(before + more) == s
  }

  lemma LeadsNowhere(before: seq<Move>, t: Tid)
    ensures Leads(before, t, Exec(before))
  {
    var none: seq<Move> := [];
    assert before + none == before && OnlyBy(none, t);
  }

  lemma LeadsOn(before: seq<Move>, t: Tid, s: State, timeout: bool)
    requires Leads(before, t, s)
    ensures Leads(before, t, Step(s, t, Run(timeout)))
  {
    var more :| OnlyBy(more, t) && Exec(before + more) == s;
    var m := Move(t, Run(timeout));
    Then(before + more, m);
    assert before + more + [m] == before + (more + [m]) && OnlyBy(more + [m], t);
  }

  // A worker ---------------------------------------------------------------------------------

  /** After the worker's Decrement: back in the deque, behind the others, if the count is still
      positive. */
  function Decremented(s: State, t: Tid, q: Qid, n: nat): State {
    var r := QueueOf(s, q);
    var more := 0 < r.count - n;
    Go(Put(s, q, r.(count := r.count - n, token := if more then InDeque else NoToken)), t, WorkTest)
      .(active := if more then s.active + [q] else s.active)
  }

  lemma Repushed(s: State, t: Tid, q: Qid, n: nat, s1: State)
    requires PcOf(s, t) == WorkDecrement(q, n) && s1 == StepDecrement(s, t, q, n) && PcOf(s1, t) == WorkRepush(q)
    ensures StepRepush(s1, t, q) == Decremented(s, t, q, n)
  {
    var d := Decremented(s, t, q, n);
    assert s1.pcs[t := WorkTest] == d.pcs && s1.queues[q := QueueOf(s1, q).(token := InDeque)] == d.queues;
  }

  lemma Finishes(before: seq<Move>, s: State, t: Tid, q: Qid, n: nat)
    requires Leads(before, t, s) && PcOf(s, t) == WorkDecrement(q, n)
    ensures Leads(before, t, Decremented(s, t, q, n))
  {
    LeadsOn(before, t, s, false);
    var s1 := StepDecrement(s, t, q, n);
    if QueueOf(s, q).count - n > 0 {
      Repushed(s, t, q, n, s1);
      LeadsOn(before, t, s1, false);
    }
  }

  /** After the rest of the batch: every job of it started, in order. */
  function Worked(s: State, t: Tid, q: Qid, b: seq<Job>, i: nat): State
    requires i <= |b| && q in s.queues
  {
    var r := s.queues[q];
    Go(Put(s, q, r.(executed := r.executed + b[i..])), t, WorkDecrement(q, |b|))
  }

  lemma OneJob(s: State, t: Tid, q: Qid, b: seq<Job>, i: nat, s1: State, s2: State)
    requires i < |b| && PcOf(s, t) == WorkNext(q, b, i) && q in s.queues
    requires s1 == StepNext(s, t, q, b, i) && s2 == StepJobDone(s1, t, q, b, i)
    ensures PcOf(s2, t) == WorkNext(q, b, i + 1) && q in s2.queues
    ensures Worked(s2, t, q, b, i + 1) == Worked(s, t, q, b, i)
  {
    var r := s.queues[q];
    assert r.executed + [b[i]] + b[i + 1..] == r.executed + b[i..];
    var w := Worked(s, t, q, b, i);
    assert s2.queues[q := r.(executed := r.executed + b[i..])] == w.queues;
    assert s2.pcs[t := WorkDecrement(q, |b|)] == w.pcs;
  }

  lemma AllJobs(s: State, t: Tid, q: Qid, b: seq<Job>)
    requires PcOf(s, t) == WorkNext(q, b, |b|) && q in s.queues
    ensures StepNext(s, t, q, b, |b|) == Worked(s, t, q, b, |b|)
  {
    var r := s.queues[q];
    assert r.executed + b[|b|..] == r.executed;
    assert s.queues[q := r] == s.queues;
  }

  lemma {:induction false} Works(before: seq<Move>, s: State, t: Tid, q: Qid, b: seq<Job>, i: nat)
    requires Leads(before, t, s) && i <= |b| && PcOf(s, t) == WorkNext(q, b, i) && q in s.queues
    ensures Leads(before, t, Worked(s, t, q, b, i))
    decreases |b| - i
  {
    LeadsOn(before, t, s, false);
    if i < |b| {
      var s1 := StepNext(s, t, q, b, i);
      var s2 := StepJobDone(s1, t, q, b, i);
      LeadsOn(before, t, s1, false);
      OneJob(s, t, q, b, i, s1, s2);
      Works(before, s2, t, q, b, i + 1);
    } else {
      AllJobs(s, t, q, b);
    }
  }

  /** After the test, the pop and the swap: the front queue's data is the batch. */
  function Taken(s: State, t: Tid): State
    requires s.active != [] && s.active[0] in s.queues
  {
    var q := s.active[0];
    var r := s.queues[q];
    Go(Put(s, q, r.(data := [], token := WithWorker(t))).(active := s.active[1..]), t, WorkNext(q, r.data, 0))
  }

  lemma TakenIs(s: State, t: Tid, s1: State, s2: State)
    requires s.active != [] && s.active[0] in s.queues && s.queues[s.active[0]].lock == None
    requires s1 == Go(s, t, WorkPop) && s2 == StepPop(s1, t, false)
    ensures PcOf(s2, t) == WorkSwap(s.active[0]) && StepSwap(s2, t, s.active[0]) == Taken(s, t)
  {
    var q := s.active[0];
    var k := Taken(s, t);
    assert s2.pcs[t := WorkNext(q, s.queues[q].data, 0)] == k.pcs;
    assert s2.queues[q := s2.queues[q].(data := [])] == k.queues;
  }

  lemma Takes(before: seq<Move>, s: State, t: Tid)
    requires Leads(before, t, s) && PcOf(s, t) == WorkTest && s.running
    requires s.active != [] && s.active[0] in s.queues && s.queues[s.active[0]].lock == None
    ensures Leads(before, t, Taken(s, t))
  {
    var s1 := Go(s, t, WorkPop);
    var s2 := StepPop(s1, t, false);
    TakenIs(s, t, s1, s2);
    LeadsOn(before, t, s, false);
    LeadsOn(before, t, s1, false);
    LeadsOn(before, t, s2, false);
  }

  /** One turn of a worker that is left alone: the front queue leaves the deque, all its jobs are run in
      order, and its count goes down by their number. */
  function Served(s: State, t: Tid): State
    requires s.active != [] && s.active[0] in s.queues
  {
    var q := s.active[0];
    var r := s.queues[q];
    s.(queues := s.queues[q := r.(data := [], executed := r.executed + r.data, count := r.count - |r.data|,
                                  token := NoToken)],
       active := s.active[1..], pcs := s.pcs[t := WorkTest])
  }

  lemma ServedIs(s: State, t: Tid)
    requires s.active != [] && s.active[0] in s.queues && s.queues[s.active[0]].count == |s.queues[s.active[0]].data|
    ensures var q := s.active[0]; var r := s.queues[q];
            && PcOf(Taken(s, t), t) == WorkNext(q, r.data, 0) && q in Taken(s, t).queues
            && Decremented(Worked(Taken(s, t), t, q, r.data, 0), t, q, |r.data|) == Served(s, t)
  {
    var q := s.active[0];
    var r := s.queues[q];
    var w, v := Worked(Taken(s, t), t, q, r.data, 0), Served(s, t);
    assert r.data[0..] == r.data;
    assert w.pcs[t := WorkTest] == v.pcs && w.queues[q := v.queues[q]] == v.queues;
  }

  /** In every reachable state of a running dispatcher a worker at its test that is left alone serves the
      front queue of the deque, unless a Push holds that queue's lock: no job of it is left, and it
      is looked after no more. */
  lemma Serves(before: seq<Move>, s: State, t: Tid)
    requires s == Exec(before) && PcOf(s, t) == WorkTest && s.running && s.active != []
    requires QueueOf(s, s.active[0]).lock == None
    ensures s.active[0] in s.queues && s.queues[s.active[0]].count == |s.queues[s.active[0]].data| > 0
    ensures Leads(before, t, Served(s, t))
  {
    var q := s.active[0];
    ExecInv(before);
    assert QueueOk(s, q);
    LeadsNowhere(before, t);
    Takes(before, s, t);
    ServedIs(s, t);
    var k, r := Taken(s, t), s.queues[q];
    Works(before, k, t, q, r.data, 0);
    var w := Worked(k, t, q, r.data, 0);
    Finishes(before, w, t, q, |r.data|);
  }

  lemma EndsAtTest(before: seq<Move>, s: State, t: Tid)
    requires Leads(before, t, s) && !s.running && PcOf(s, t).WorkTest?
    ensures Leads(before, t, Go(s, t, Stopped))
  {
    LeadsOn(before, t, s, false);
  }

  lemma WaitsNoMore(before: seq<Move>, s: State, t: Tid)
    requires Leads(before, t, s) && !s.running && PcOf(s, t).WorkPop? && s.active == []
    ensures Leads(before, t, Go(s, t, WorkTest))
  {
    LeadsOn(before, t, s, false);
  }

  /** Once the dispatcher has been stopped, a worker left alone at its test, or waiting at an empty deque,
      ends. */
  lemma Ends(before: seq<Move>, s: State, t: Tid)
    requires s == Exec(before) && !s.running
    requires PcOf(s, t).WorkTest? || (PcOf(s, t).WorkPop? && s.active == [])
    ensures Leads(before, t, Go(s, t, Stopped))
  {
    LeadsNowhere(before, t);
    if PcOf(s, t).WorkPop? {
      WaitsNoMore(before, s, t);
      EndsAtTest(before, Go(s, t, WorkTest), t);
      assert Go(s, t, WorkTest).pcs[t := Stopped] == s.pcs[t := Stopped];
    } else {
      EndsAtTest(before, s, t);
    }
  }

  // Push ---------------------------------------------------------------------------------------

  /** A Push that is left alone: the job is behind the others, and the queue behind the other queues in
      the deque if it had no jobs before. */
  function Pushed(s: State, t: Tid, q: Qid, j: Job): State {
    var r := QueueOf(s, q);
    s.(queues := s.queues[q := r.(data := r.data + [j], pushed := r.pushed + [j], count := r.count + 1,
                                  token := if r.count == 0 then InDeque else r.token)],
       active := if r.count == 0 then s.active + [q] else s.active, pcs := s.pcs[t := Idle])
  }

  /** Up to the append. */
  function Appended(s: State, t: Tid, q: Qid, j: Job): State {
    var r := QueueOf(s, q);
    Go(Put(s, q, r.(data := r.data + [j], pushed := r.pushed + [j], lock := Some(t))), t, PushAdd(q))
  }

  lemma AppendedIs(s: State, t: Tid, q: Qid, j: Job)
    requires QueueOf(s, q).lock == None
    ensures StepAppend(StepLock(Go(s, t, PushLock(q, j)), t, q, j), t, q, j) == Appended(s, t, q, j)
  {
    var s2 := StepLock(Go(s, t, PushLock(q, j)), t, q, j);
    var d := Appended(s, t, q, j);
    assert s2.pcs[t := PushAdd(q)] == d.pcs;
    assert s2.queues[q := d.queues[q]] == d.queues;
  }

  lemma PushedIs(s: State, t: Tid, q: Qid, j: Job, s3: State)
    requires QueueOf(s, q).lock == None && s3 == Appended(s, t, q, j)
    ensures PcOf(s3, t) == PushAdd(q) && QueueOf(s3, q).count == QueueOf(s, q).count
    ensures var s4 := StepAdd(s3, t, q);
            var s5 := if QueueOf(s, q).count == 0 then StepWake(s4, t, q) else s4;
            PcOf(s5, t) == PushUnlock(q) && StepUnlock(s5, t, q) == Pushed(s, t, q, j)
  {
    var s4 := StepAdd(s3, t, q);
    var s5 := if QueueOf(s, q).count == 0 then StepWake(s4, t, q) else s4;
    var d := Pushed(s, t, q, j);
    assert s5.pcs[t := Idle] == d.pcs;
    assert s5.queues[q := d.queues[q]] == d.queues;
  }

  lemma Appends(before: seq<Move>, s: State, t: Tid, q: Qid, j: Job)
    requires Leads(before, t, s) && PcOf(s, t) == PushLock(q, j) && QueueOf(s, q).lock == None
    ensures Leads(before, t, StepAppend(StepLock(s, t, q, j), t, q, j))
  {
    LeadsOn(before, t, s, false);
    LeadsOn(before, t, StepLock(s, t, q, j), false);
  }

  lemma Counts(before: seq<Move>, s: State, t: Tid, q: Qid)
    requires Leads(before, t, s) && PcOf(s, t) == PushAdd(q)
    ensures var s4 := StepAdd(s, t, q);
            Leads(before, t, if QueueOf(s, q).count == 0 then StepWake(s4, t, q) else s4)
  {
    LeadsOn(before, t, s, false);
    if QueueOf(s, q).count == 0 {
      LeadsOn(before, t, StepAdd(s, t, q), false);
    }
  }

  lemma Unlocks(before: seq<Move>, s: State, t: Tid, q: Qid)
    requires Leads(before, t, s) && PcOf(s, t) == PushUnlock(q)
    ensures Leads(before, t, StepUnlock(s, t, q))
  {
    LeadsOn(before, t, s, false);
  }

  /** An idle thread's Push to a queue that nobody has locked. */
  lemma Pushes(before: seq<Move>, s: State, t: Tid, q: Qid, j: Job)
    requires s == Exec(before) && PcOf(s, t).Idle? && QueueOf(s, q).lock == None
    ensures Leads(before + [Move(t, CallPush(q, j))], t, Pushed(s, t, q, j))
  {
    var run := before + [Move(t, CallPush(q, j))];
    Then(before, Move(t, CallPush(q, j)));
    LeadsNowhere(run, t);
    var s1 := Go(s, t, PushLock(q, j));
    Appends(run, s1, t, q, j);
    AppendedIs(s, t, q, j);
    var s3 := Appended(s, t, q, j);
    PushedIs(s, t, q, j, s3);
    Counts(run, s3, t, q);
    var s4 := StepAdd(s3, t, q);
    Unlocks(run, if QueueOf(s, q).count == 0 then StepWake(s4, t, q) else s4, t, q);
  }
}
