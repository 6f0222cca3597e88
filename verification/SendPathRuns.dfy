/**
 What one send does over a run: who queued what, from when to when a batch is in flight, and
 how a task that is left alone ends.
 */
module SendPathRuns {
  import opened Options
  import opened SendPath

  // What the callers did ------------------------------------------------------------------

  /** Thread t is between EnQ and WorkerPush, going by the moves alone. */
  predicate Midway(moves: seq<Move>, t: Tid)
    decreases |moves|
  {
    moves != [] &&
    var m := moves[|moves| - 1];
    if m == Post(t) then false else (m.EnQ? && m.t == t) || Midway(moves[..|moves| - 1], t)
  }

  /** The packets given to Send, in order; a thread has to be through with one Send before the
      next. */
  function Given(moves: seq<Move>): seq<Packet>
    decreases |moves|
  {
    if moves == [] then [] else
    var before, m := moves[..|moves| - 1], moves[|moves| - 1];
    if m.EnQ? && !Midway(before, m.t) then Given(before) + [m.p] else Given(before)
  }

  /** How many Sends have handed their task to the completion port. */
  function Handed(moves: seq<Move>): nat
    decreases |moves|
  {
    if moves == [] then 0 else
    var before, m := moves[..|moves| - 1], moves[|moves| - 1];
    Handed(before) + if m.Post? && Midway(before, m.t) then 1 else 0
  }

  ghost predicate AsGiven(moves: seq<Move>, s: State) {
    && s.enqueued == Given(moves) && |s.tasks| == Handed(moves)
    && forall t: Tid :: t in s.posting <==> Midway(moves, t)
  }

  /** Only Send touches these, and only from where its thread is. */
  lemma SendStep(s: State, m: Move, s': State)
    requires s' == Step(s, m)
    ensures s'.enqueued == if m.EnQ? && m.t !in s.posting then s.enqueued + [m.p] else s.enqueued
    ensures |s'.tasks| == if m.Post? && m.t in s.posting then |s.tasks| + 1 else |s.tasks|
    ensures s'.posting == if m.EnQ? then s.posting + {m.t} else if m.Post? then s.posting - {m.t} else s.posting
  {
  }

  /** The send queue was given exactly the packets that the callers gave to Send, and there is one
      task for every Send that has come so far. */
  lemma {:induction false} QueuedAsGiven(moves: seq<Move>)
    ensures AsGiven(moves, Exec(moves))
    decreases |moves|
  {
    if moves != [] {
      var before, m := moves[..|moves| - 1], moves[|moves| - 1];
      QueuedAsGiven(before);
      SendStep(Exec(before), m, Exec(moves));
      GivenStep(before, Exec(before), m, moves, Exec(moves));
    }
  }

  lemma GivenStep(before: seq<Move>, s: State, m: Move, moves: seq<Move>, s': State)
    requires AsGiven(before, s) && moves == before + [m]
    requires s'.enqueued == if m.EnQ? && m.t !in s.posting then s.enqueued + [m.p] else s.enqueued
    requires |s'.tasks| == if m.Post? && m.t in s.posting then |s.tasks| + 1 else |s.tasks|
    requires s'.posting == if m.EnQ? then s.posting + {m.t} else if m.Post? then s.posting - {m.t} else s.posting
    ensures AsGiven(moves, s')
  {
    assert moves[..|moves| - 1] == before;
  }

  // In flight -----------------------------------------------------------------------------

  /** The batch of task k is in flight, and nothing was deleted or submitted since s. */
  ghost predicate Flying(s: State, k: Task, batch: seq<Packet>, e: State) {
    && k < |e.tasks| && e.tasks[k] == InFlight(batch) && e.sending
    && e.deleted == s.deleted && e.submitted == s.submitted + batch
  }

  lemma StillFlying(s: State, k: Task, batch: seq<Packet>, e: State, m: Move)
    requires Inv(e) && Flying(s, k, batch, e) && m != Completed(k)
    ensures Flying(s, k, batch, Step(e, m))
  {
    assert TaskOk(e, k);
    if (m.Run? || m.Completed?) && m.k < |e.tasks| {
      assert TaskOk(e, m.k);
    }
  }

  /** From the move in which WSASend accepts a batch until the completion of that send, whatever
      everybody else does: the task stays in flight, m_isSending stays set, no packet is deleted
      and no other batch is submitted. */
  lemma {:induction false} InFlightUntilCompleted(before: seq<Move>, k: Task, more: seq<Move>)
    requires k < |Exec(before).tasks| && Exec(before).tasks[k].Submitting? && Completed(k) !in more
    ensures Flying(Exec(before), k, Exec(before).tasks[k].batch, Exec(before + [Run(k, false)] + more))
    decreases |more|
  {
    var s, accepted := Exec(before), before + [Run(k, false)];
    if more == [] {
      ExecInv(before);
      assert TaskOk(s, k);
      Then(before, s, Run(k, false));
      assert accepted + more == accepted;
    } else {
      var n := |more| - 1;
      InFlightUntilCompleted(before, k, more[..n]);
      var run := accepted + more[..n];
      ExecInv(run);
      StillFlying(s, k, s.tasks[k].batch, Exec(run), more[n]);
      Then(run, Exec(run), more[n]);
      assert run + [more[n]] == accepted + more;
    }
  }

  // A task left alone ---------------------------------------------------------------------

  /** All moves are steps of task k. */
  predicate OnlyTask(k: Task, moves: seq<Move>) {
    forall i :: 0 <= i < |moves| ==> moves[i].Run? && moves[i].k == k
  }

  /** How a task ends that has come through m_isSending.exchange(true). */
  function Ended(s: State, k: Task, batch: seq<Packet>): State
    requires k < |s.tasks|
  {
    s.(tasks := s.tasks[k := Gone], sending := false, owner := None, deleted := s.deleted + batch)
  }

  lemma {:induction false} Deletes(before: seq<Move>, s: State, k: Task, batch: seq<Packet>, i: nat)
    returns (more: seq<Move>)
    requires s == Exec(before) && k < |s.tasks| && i <= |batch| && s.tasks[k] == Deleting(batch, i)
    ensures OnlyTask(k, more) && Exec(before + more) == Ended(s, k, batch[i..])
    decreases |batch| - i
  {
    var m := Run(k, false);
    var s1 := Step(s, m);
    Then(before, s, m);
    if i < |batch| {
      var rest := Deletes(before + [m], s1, k, batch, i + 1);
      more := [m] + rest;
      assert before + [m] + rest == before + more;
      assert s.deleted + [batch[i]] + batch[i + 1..] == s.deleted + batch[i..];
      assert s1.tasks[k := Gone] == s.tasks[k := Gone];
    } else {
      more := [m, m];
      Then(before + [m], s1, m);
      assert before + [m] + [m] == before + more;
      assert s.deleted + batch[i..] == s.deleted;
      assert s1.tasks[k := Gone] == s.tasks[k := Gone];
    }
  }

  /** When WSASend fails, the task deletes its batch and releases m_isSending. */
  lemma FailedSend(before: seq<Move>, s: State, k: Task) returns (more: seq<Move>)
    requires s == Exec(before) && k < |s.tasks| && s.tasks[k].Submitting?
    ensures OnlyTask(k, more) && more != [] && more[0].fails
    ensures Exec(before + more) == Ended(s.(submitted := s.submitted + s.tasks[k].batch), k, s.tasks[k].batch)
  {
    var m := Run(k, true);
    var s1 := Step(s, m);
    Then(before, s, m);
    var rest := Deletes(before + [m], s1, k, s.tasks[k].batch, 0);
    more := [m] + rest;
    assert before + [m] + rest == before + more;
    assert s1.tasks[k := Gone] == s.tasks[k := Gone];
  }

  /** So it does on completion. */
  lemma CompletedSend(before: seq<Move>, s: State, k: Task) returns (more: seq<Move>)
    requires s == Exec(before) && k < |s.tasks| && s.tasks[k].InFlight?
    ensures OnlyTask(k, more) && Exec(before + [Completed(k)] + more) == Ended(s, k, s.tasks[k].batch)
  {
    var m := Completed(k);
    var s1 := Step(s, m);
    Then(before, s, m);
    more := Deletes(before + [m], s1, k, s.tasks[k].batch, 0);
    assert s1.tasks[k := Gone] == s.tasks[k := Gone];
  }

  /** Start has submitted the whole queue. */
  function Submitted(s: State, k: Task): State
    requires k < |s.tasks|
  {
    s.(queue := [], tasks := s.tasks[k := InFlight(s.queue)], sending := true, owner := Some(k),
       submitted := s.submitted + s.queue)
  }

  /** The queue taken to the end, behind the batch taken so far. */
  function Drained(s: State, k: Task, batch: seq<Packet>): State
    requires k < |s.tasks|
  {
    s.(queue := [], tasks := s.tasks[k := InFlight(batch + s.queue)], submitted := s.submitted + (batch + s.queue))
  }

  lemma DrainsOne(s: State, k: Task, batch: seq<Packet>, s1: State)
    requires k < |s.tasks| && s.tasks[k] == Draining(batch) && s.queue != [] && s1 == Step(s, Run(k, false))
    ensures k < |s1.tasks| && s1.tasks[k] == Draining(batch + [s.queue[0]]) && s1.queue == s.queue[1..]
    ensures Drained(s1, k, batch + [s.queue[0]]) == Drained(s, k, batch)
  {
    assert batch + [s.queue[0]] + s.queue[1..] == batch + s.queue;
    assert s1.tasks[k := InFlight(batch + s.queue)] == s.tasks[k := InFlight(batch + s.queue)];
  }

  lemma DrainsNone(s: State, k: Task, batch: seq<Packet>, s1: State)
    requires k < |s.tasks| && s.tasks[k] == Draining(batch) && s.queue == [] && batch != []
    requires s1 == Step(s, Run(k, false))
    ensures Step(s1, Run(k, false)) == Drained(s, k, batch)
  {
    assert batch + s.queue == batch;
    assert s1.tasks[k := InFlight(batch)] == s.tasks[k := InFlight(batch)];
  }

  lemma {:induction false} Drains(before: seq<Move>, s: State, k: Task, batch: seq<Packet>) returns (more: seq<Move>)
    requires s == Exec(before) && k < |s.tasks| && s.tasks[k] == Draining(batch) && batch + s.queue != []
    ensures OnlyTask(k, more) && Exec(before + more) == Drained(s, k, batch)
    decreases |s.queue|
  {
    var m := Run(k, false);
    var s1 := Step(s, m);
    Then(before, s, m);
    if s.queue != [] {
      DrainsOne(s, k, batch, s1);
      var rest := Drains(before + [m], s1, k, batch + [s.queue[0]]);
      more := [m] + rest;
      assert before + [m] + rest == before + more;
    } else {
      DrainsNone(s, k, batch, s1);
      more := [m, m];
      Then(before + [m], s1, m);
      assert before + [m] + [m] == before + more;
    }
  }

  /** A task that starts while nothing is being sent, and is left alone with the queue, submits
      everything in it as one batch, or releases m_isSending if there is nothing. */
  lemma SoloStart(before: seq<Move>, s: State, k: Task) returns (more: seq<Move>)
    requires s == Exec(before) && k < |s.tasks| && s.tasks[k].Posted? && !s.sending
    ensures OnlyTask(k, more)
    ensures Exec(before + more) == if s.queue != [] then Submitted(s, k) else Ended(s, k, [])
  {
    var m := Run(k, false);
    var s1 := Step(s, m);
    Then(before, s, m);
    if s.queue != [] {
      var rest := Drains(before + [m], s1, k, []);
      more := [m] + rest;
      assert before + [m] + rest == before + more;
      assert [] + s.queue == s.queue;
      assert s1.tasks[k := InFlight(s.queue)] == s.tasks[k := InFlight(s.queue)];
    } else {
      var s2 := Step(s1, m);
      Then(before + [m], s1, m);
      Then(before + [m] + [m], s2, m);
      more := [m, m, m];
      assert before + [m] + [m] + [m] == before + more;
      assert s.deleted + [] == s.deleted;
      assert s2.tasks[k := Gone] == s.tasks[k := Gone];
    }
  }

  /** A task that starts while something is being sent is gone at once and leaves everything else
      as it was. */
  lemma StartWhileSending(before: seq<Move>, s: State, k: Task, fails: bool)
    requires s == Exec(before) && k < |s.tasks| && s.tasks[k].Posted? && s.sending
    ensures Exec(before + [Run(k, fails)]) == s.(tasks := s.tasks[k := Gone])
  {
    Then(before, s, Run(k, fails));
  }
}
