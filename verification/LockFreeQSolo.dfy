/** Calls that run without interference. */
module LockFreeQSolo {
  import opened LockFreeQ
  import opened LockFreeQInvariant
  import opened LockFreeQSteps

  /** The states that the moves lead through. */
  ghost predicate Trace(tr: seq<State>, moves: seq<Move>) {
    && |tr| == |moves| + 1
    && forall i {:trigger moves[i]} :: 0 <= i < |moves| ==> tr[i + 1] == Step(tr[i], moves[i].t, moves[i].act)
  }

  lemma {:induction false} TraceIsExec(tr: seq<State>, moves: seq<Move>)
    requires Trace(tr, moves)
    ensures Exec(tr[0], moves) == tr[|moves|]
    decreases |moves|
  {
    if moves != [] {
      var k := |moves| - 1;
      assert moves[k] in moves;
      forall i | 0 <= i < k ensures tr[..|moves|][i + 1] == Step(tr[..|moves|][i], moves[..k][i].t, moves[..k][i].act) {
        assert moves[..k][i] == moves[i];
      }
      TraceIsExec(tr[..|moves|], moves[..k]);
    }
  }

  /** Steps of t inside a call; t calls nothing new. */
  predicate OnlyBy(moves: seq<Move>, t: Tid) {
    forall i {:trigger moves[i]} :: 0 <= i < |moves| ==> moves[i].t == t && moves[i].act.Run?
  }

  /** Steps of t alone lead from s to s'. */
  ghost predicate Alone(t: Tid, s: State, s': State) {
    exists tr, moves :: Trace(tr, moves) && OnlyBy(moves, t) && tr[0] == s && tr[|moves|] == s'
  }

  lemma TraceStart(s: State)
    ensures Trace([s], [])
  {
  }

  lemma AloneStart(t: Tid, s: State)
    ensures Alone(t, s, s)
  {
    TraceStart(s);
    var none: seq<Move> := [];
    assert OnlyBy(none, t) && [s][0] == s && [s][|none|] == s;
  }

  lemma TraceAppend(tr: seq<State>, moves: seq<Move>, tr2: seq<State>, more: seq<Move>)
    requires Trace(tr, moves) && Trace(tr2, more) && tr[|moves|] == tr2[0]
    ensures Trace(tr + tr2[1..], moves + more)
  {
    var ts, ms := tr + tr2[1..], moves + more;
    forall i | 0 <= i < |ms| ensures ts[i + 1] == Step(ts[i], ms[i].t, ms[i].act) {
      if i < |moves| {
        assert ms[i] == moves[i] && ts[i] == tr[i] && ts[i + 1] == tr[i + 1];
      } else {
        var j := i - |moves|;
        assert ms[i] == more[j] && ts[i] == tr2[j] && ts[i + 1] == tr2[j + 1];
      }
    }
  }

  lemma AloneStep(t: Tid, o: State, a: State, b: State, act: Action)
    requires Alone(t, o, a) && act.Run? && b == Step(a, t, act)
    ensures Alone(t, o, b)
  {
    var tr, m :| Trace(tr, m) && OnlyBy(m, t) && tr[0] == o && tr[|m|] == a;
    var k := [Move(t, act)];
    assert Trace([a, b], k);
    TraceAppend(tr, m, [a, b], k);
    var ts, ms := tr + [a, b][1..], m + k;
    assert OnlyBy(ms, t) && ts[0] == o && ts[|ms|] == b;
  }

  lemma AloneStep2(t: Tid, o: State, a: State, b: State, c: State, act: Action)
    requires Alone(t, o, a) && act.Run? && b == Step(a, t, act) && c == Step(b, t, act)
    ensures Alone(t, o, c)
  {
    AloneStep(t, o, a, b, act);
    AloneStep(t, o, b, c, act);
  }

  /** Alone in terms of runs. */
  lemma AloneIsExec(t: Tid, s: State, s': State) returns (moves: seq<Move>)
    requires Alone(t, s, s')
    ensures OnlyBy(moves, t) && Exec(s, moves) == s'
  {
    var tr, m :| Trace(tr, m) && OnlyBy(m, t) && tr[0] == s && tr[|m|] == s';
    TraceIsExec(tr, m);
    moves := m;
  }

  /** Equal in everything but history. */
  ghost predicate SameReal(s: State, r: State) {
    s.(h := r.h) == r
  }

  lemma CheckAlloc(o: State, s: State, t: Tid, d: Data, a: Addr) returns (s2: State)
    requires PcOf(s, t) == EnqCheck(d) && s.count <= s.maxCount && (a in s.pool || a !in s.heap)
    requires Alone(t, o, s)
    ensures Alone(t, o, s2)
    ensures SameReal(s2, s.(heap := s.heap[a := Node(NULL_DATA, Null)], pool := s.pool - {a},
                            pcs := s.pcs[t := EnqSetData(d, a)]))
  {
    var s1 := Go(s, t, EnqAlloc(d));
    s2 := Step(s1, t, Run(a));
    AloneStep2(t, o, s, s1, s2, Run(a));
    assert s1.pcs[t := EnqSetData(d, a)] == s.pcs[t := EnqSetData(d, a)];
  }

  lemma SetDataTag(o: State, s: State, t: Tid, d: Data, a: Addr) returns (s2: State)
    requires PcOf(s, t) == EnqSetData(d, a) && a in s.heap
    requires Alone(t, o, s)
    ensures Alone(t, o, s2)
    ensures SameReal(s2, s.(heap := s.heap[a := s.heap[a].(data := d)], rearID := s.rearID + 1,
                            pcs := s.pcs[t := EnqSetNext(d, a, s.rearID + 1)]))
  {
    var s1 := StepSetData(s, t, d, a);
    s2 := Step(s1, t, Run(a));
    AloneStep2(t, o, s, s1, s2, Run(a));
    assert s1.pcs[t := EnqSetNext(d, a, s.rearID + 1)] == s.pcs[t := EnqSetNext(d, a, s.rearID + 1)];
  }

  lemma SetNextLoad(o: State, s: State, t: Tid, d: Data, a: Addr, id: int) returns (s2: State)
    requires PcOf(s, t) == EnqSetNext(d, a, id) && a in s.heap
    requires Alone(t, o, s)
    ensures Alone(t, o, s2)
    ensures SameReal(s2, s.(heap := s.heap[a := s.heap[a].(next := Tag(id))],
                            pcs := s.pcs[t := EnqLoadId(d, a, id, s.rear.node)]))
  {
    var s1 := StepSetNext(s, t, d, a, id);
    s2 := Step(s1, t, Run(a));
    AloneStep2(t, o, s, s1, s2, Run(a));
    assert s1.pcs[t := EnqLoadId(d, a, id, s.rear.node)] == s.pcs[t := EnqLoadId(d, a, id, s.rear.node)];
  }

  lemma LoadCas1(o: State, s: State, t: Tid, d: Data, a: Addr, id: int) returns (s2: State)
    requires PcOf(s, t) == EnqLoadId(d, a, id, s.rear.node)
    requires s.rear.node in s.heap && s.heap[s.rear.node].next == s.rear.id
    requires Alone(t, o, s)
    ensures Alone(t, o, s2)
    ensures SameReal(s2, s.(heap := s.heap[s.rear.node := s.heap[s.rear.node].(next := Ptr(a))],
                            pcs := s.pcs[t := EnqReRead(a, s.rear, s.h.rp)]))
  {
    var s1 := Go(s, t, EnqCas1(d, a, id, s.rear, s.h.rp));
    s2 := Step(s1, t, Run(a));
    AloneStep2(t, o, s, s1, s2, Run(a));
    assert s1.pcs[t := EnqReRead(a, s.rear, s.h.rp)] == s.pcs[t := EnqReRead(a, s.rear, s.h.rp)];
  }

  lemma ReReadCas2(o: State, s: State, t: Tid, a: Addr, j: nat) returns (s2: State)
    requires PcOf(s, t) == EnqReRead(a, s.rear, j) && a in s.heap
    requires Alone(t, o, s)
    ensures Alone(t, o, s2)
    ensures SameReal(s2, s.(rear := Rear(a, s.heap[a].next), pcs := s.pcs[t := EnqCount(j + 1)]))
  {
    var s1 := Go(s, t, EnqCas2(a, s.rear, j, s.heap[a].next));
    s2 := Step(s1, t, Run(a));
    AloneStep2(t, o, s, s1, s2, Run(a));
    assert s1.pcs[t := EnqCount(j + 1)] == s.pcs[t := EnqCount(j + 1)];
  }

  /** What an EnQ(d) that obtains node a leaves behind. */
  function Appended(s: State, t: Tid, d: Data, a: Addr): State
    requires s.rear.node in s.heap
  {
    s.(heap := s.heap[a := Node(d, Tag(s.rearID + 1))][s.rear.node := s.heap[s.rear.node].(next := Ptr(a))],
       pool := s.pool - {a},
       rear := Rear(a, Tag(s.rearID + 1)),
       rearID := s.rearID + 1,
       count := s.count + 1,
       pcs := s.pcs[t := Idle])
  }

  lemma EnqFirstHalf(o: State, s: State, t: Tid, d: Data, a: Addr) returns (s6: State)
    requires PcOf(s, t) == EnqCheck(d) && s.count <= s.maxCount && (a in s.pool || a !in s.heap)
    requires Alone(t, o, s)
    ensures Alone(t, o, s6)
    ensures SameReal(s6, s.(heap := s.heap[a := Node(d, Tag(s.rearID + 1))], pool := s.pool - {a},
                            rearID := s.rearID + 1,
                            pcs := s.pcs[t := EnqLoadId(d, a, s.rearID + 1, s.rear.node)]))
  {
    var s2 := CheckAlloc(o, s, t, d, a);
    var s4 := SetDataTag(o, s2, t, d, a);
    s6 := SetNextLoad(o, s4, t, d, a, s.rearID + 1);
    assert s6.pcs == s.pcs[t := EnqLoadId(d, a, s.rearID + 1, s.rear.node)];
    assert s6.heap == s.heap[a := Node(d, Tag(s.rearID + 1))];
  }

  lemma Counts(o: State, s: State, t: Tid, k: nat) returns (s1: State)
    requires PcOf(s, t) == EnqCount(k)
    requires Alone(t, o, s)
    ensures Alone(t, o, s1)
    ensures SameReal(s1, s.(count := s.count + 1, pcs := s.pcs[t := Idle]))
  {
    s1 := StepCount(s, t, k);
    AloneStep(t, o, s, s1, Run(0));
  }

  lemma EnqSecondHalf(o: State, s: State, t: Tid, d: Data, a: Addr, id: int) returns (s': State)
    requires PcOf(s, t) == EnqLoadId(d, a, id, s.rear.node) && a in s.heap
    requires s.rear.node in s.heap && s.rear.node != a && s.heap[s.rear.node].next == s.rear.id
    requires Alone(t, o, s)
    ensures Alone(t, o, s')
    ensures SameReal(s', s.(heap := s.heap[s.rear.node := s.heap[s.rear.node].(next := Ptr(a))],
                            rear := Rear(a, s.heap[a].next), count := s.count + 1, pcs := s.pcs[t := Idle]))
  {
    var s2 := LoadCas1(o, s, t, d, a, id);
    var s4 := ReReadCas2(o, s2, t, a, s.h.rp);
    s' := Counts(o, s4, t, s.h.rp + 1);
    assert s'.pcs == s.pcs[t := Idle];
  }

  /** EnQ of a node, run alone while rear is the true tail. */
  lemma EnqAtTail(o: State, s: State, t: Tid, d: Data, a: Addr) returns (s': State)
    requires PcOf(s, t) == EnqCheck(d) && s.count <= s.maxCount && (a in s.pool || a !in s.heap)
    requires s.rear.node in s.heap && s.rear.node != a && s.heap[s.rear.node].next == s.rear.id
    requires Alone(t, o, s)
    ensures Alone(t, o, s')
    ensures SameReal(s', Appended(s, t, d, a))
  {
    var s7 := EnqFirstHalf(o, s, t, d, a);
    s' := EnqSecondHalf(o, s7, t, d, a, s.rearID + 1);
    assert s'.pcs == s.pcs[t := Idle];
    assert s'.heap == Appended(s, t, d, a).heap;
  }

  /** Rear lags behind: CAS 1 fails and the helping CAS moves rear to the true tail m. */
  lemma Helps(o: State, s: State, t: Tid, d: Data, a: Addr, id: int, m: Addr) returns (s': State)
    requires PcOf(s, t) == EnqLoadId(d, a, id, s.rear.node) && s.rear.id.Tag?
    requires s.rear.node in s.heap && s.heap[s.rear.node].next == Ptr(m) && m in s.heap
    requires Alone(t, o, s)
    ensures Alone(t, o, s')
    ensures SameReal(s', s.(rear := Rear(m, s.heap[m].next), pcs := s.pcs[t := EnqLoadId(d, a, id, m)]))
  {
    var s1 := Go(s, t, EnqCas1(d, a, id, s.rear, s.h.rp));
    var s2 := Go(s1, t, EnqReadNext(d, a, id, s.rear, s.h.rp));
    var s3 := Go(s2, t, EnqReadTag(d, a, id, s.rear, s.h.rp, m));
    var s4 := Go(s3, t, EnqHelp(d, a, id, s.rear, s.h.rp, m, s.heap[m].next));
    AloneStep2(t, o, s, s1, s2, Run(0));
    AloneStep2(t, o, s2, s3, s4, Run(0));
    s' := HelpSwings(o, s4, t, d, a, id, s.rear, s.h.rp, m, s.heap[m].next);
    assert s'.pcs == s.pcs[t := EnqLoadId(d, a, id, m)];
  }

  lemma HelpSwings(o: State, s: State, t: Tid, d: Data, a: Addr, id: int, tr: Rear, j: nat, m: Addr, w: Word)
    returns (s': State)
    requires PcOf(s, t) == EnqHelp(d, a, id, tr, j, m, w) && s.rear == tr
    requires Alone(t, o, s)
    ensures Alone(t, o, s')
    ensures SameReal(s', s.(rear := Rear(m, w), pcs := s.pcs[t := EnqLoadId(d, a, id, m)]))
  {
    var s1 := StepHelp(s, t, d, a, id, tr, j, m, w);
    s' := Step(s1, t, Run(0));
    AloneStep2(t, o, s, s1, s', Run(0));
    assert s1.pcs[t := EnqLoadId(d, a, id, m)] == s.pcs[t := EnqLoadId(d, a, id, m)];
  }

  /** EnQ of a node, run alone while rear lags one node behind. */
  lemma EnqBehindTail(o: State, s: State, t: Tid, d: Data, a: Addr, m: Addr) returns (s': State)
    requires PcOf(s, t) == EnqCheck(d) && s.count <= s.maxCount && (a in s.pool || a !in s.heap)
    requires s.rear.node in s.heap && s.rear.node != a && s.rear.id.Tag? && s.heap[s.rear.node].next == Ptr(m)
    requires m in s.heap && m != a && s.heap[m].next.Tag?
    requires Alone(t, o, s)
    ensures Alone(t, o, s')
    ensures SameReal(s', Appended(s.(rear := Rear(m, s.heap[m].next)), t, d, a))
  {
    var s7 := EnqFirstHalf(o, s, t, d, a);
    var s8 := Helps(o, s7, t, d, a, s.rearID + 1, m);
    s' := EnqSecondHalf(o, s8, t, d, a, s.rearID + 1);
    var want := Appended(s.(rear := Rear(m, s.heap[m].next)), t, d, a);
    assert s'.pcs == want.pcs;
    assert s'.heap == want.heap;
  }

  /** The last linked node, which rear points to unless it lags. */
  function Tail(s: State): Rear
    requires s.h.links != []
  {
    var e := s.h.links[|s.h.links| - 1];
    Rear(e.addr, Tag(e.tag))
  }

  /** An EnQ(d) of t with node a has put d at the tail and rear there. */
  ghost predicate PutsAtTail(s: State, t: Tid, d: Data, a: Addr, s': State) {
    s.h.links != [] && Tail(s).node in s.heap && SameReal(s', Appended(s.(rear := Tail(s)), t, d, a))
  }

  /** Obstruction freedom: in every reachable state an EnQ that starts below capacity and is left
      alone finishes, having appended its value to the true tail, even when rear lags behind it. */
  lemma SoloEnQ(s: State, t: Tid, d: Data, a: Addr) returns (s': State)
    requires Inv(s) && PcOf(s, t) == EnqCheck(d) && s.count <= s.maxCount && (a in s.pool || a !in s.heap)
    ensures Alone(t, s, s') && PutsAtTail(s, t, d, a, s')
  {
    var n := |s.h.links|;
    assert LinkOk(s, s.h.rp) && LinkOk(s, n - 1);
    assert NodeOk(s, s.rear.node) && NodeOk(s, Tail(s).node);
    AloneStart(t, s);
    if s.h.rp == n - 1 {
      s' := EnqAtTail(s, s, t, d, a);
    } else {
      s' := EnqBehindTail(s, s, t, d, a, Tail(s).node);
    }
  }

  lemma GateLoad(o: State, s: State, t: Tid) returns (s2: State)
    requires PcOf(s, t) == DeqGate && 1 <= s.count
    requires Alone(t, o, s)
    ensures Alone(t, o, s2)
    ensures SameReal(s2, s.(count := s.count - 1, pcs := s.pcs[t := DeqLoadId(s.front.node)]))
  {
    var s1 := StepGate(s, t);
    s2 := Step(s1, t, Run(0));
    AloneStep2(t, o, s, s1, s2, Run(0));
    assert s1.pcs[t := DeqLoadId(s.front.node)] == s.pcs[t := DeqLoadId(s.front.node)];
  }

  /** A DeQ that has read front and nothing else. */
  lemma DeqStarts(o: State, s: State, t: Tid) returns (s': State)
    requires PcOf(s, t) == DeqGate && 1 <= s.count
    requires Alone(t, o, s)
    ensures Alone(t, o, s')
    ensures SameReal(s', s.(count := s.count - 1, pcs := s.pcs[t := DeqNext(s.front)]))
  {
    var s3 := GateLoad(o, s, t);
    s' := Go(s3, t, DeqNext(s.front));
    AloneStep(t, o, s3, s', Run(0));
    assert s'.pcs == s.pcs[t := DeqNext(s.front)];
  }

  lemma NextData(o: State, s: State, t: Tid, m: Addr) returns (s2: State)
    requires PcOf(s, t) == DeqNext(s.front)
    requires s.front.node in s.heap && s.heap[s.front.node].next == Ptr(m) && m in s.heap
    requires Alone(t, o, s)
    ensures Alone(t, o, s2)
    ensures SameReal(s2, s.(pcs := s.pcs[t := DeqCas(s.front, m, s.heap[m].data)]))
  {
    var s1 := Go(s, t, DeqData(s.front, m));
    s2 := Step(s1, t, Run(0));
    AloneStep2(t, o, s, s1, s2, Run(0));
    assert s1.pcs[t := DeqCas(s.front, m, s.heap[m].data)] == s.pcs[t := DeqCas(s.front, m, s.heap[m].data)];
  }

  lemma CasFree(o: State, s: State, t: Tid, m: Addr, v: Data) returns (s2: State)
    requires PcOf(s, t) == DeqCas(s.front, m, v)
    requires Alone(t, o, s)
    ensures Alone(t, o, s2)
    ensures SameReal(s2, s.(front := Front(m, s.front.id + 1), pool := s.pool + {s.front.node},
                            pcs := s.pcs[t := Idle]))
  {
    var s1 := StepDeqCas(s, t, s.front, m, v);
    s2 := Step(s1, t, Run(0));
    AloneStep2(t, o, s, s1, s2, Run(0));
    assert s1.pcs[t := Idle] == s.pcs[t := Idle];
  }

  lemma DeqAtFront(o: State, s: State, t: Tid, m: Addr) returns (s': State)
    requires PcOf(s, t) == DeqGate && 1 <= s.count
    requires s.front.node in s.heap && s.heap[s.front.node].next == Ptr(m) && m in s.heap
    requires Alone(t, o, s)
    ensures Alone(t, o, s')
    ensures SameReal(s', s.(count := s.count - 1, front := Front(m, s.front.id + 1),
                            pool := s.pool + {s.front.node}, pcs := s.pcs[t := Idle]))
  {
    var s4 := DeqStarts(o, s, t);
    var s6 := NextData(o, s4, t, m);
    s' := CasFree(o, s6, t, m, s.heap[m].data);
    assert s'.pcs == s.pcs[t := Idle];
  }

  /** A DeQ of t has moved front on to the next linked node and pooled the old one. */
  ghost predicate TakesFirst(s: State, t: Tid, s': State) {
    && s.front.id + 1 < |s.h.links|
    && SameReal(s', s.(count := s.count - 1, front := Front(s.h.links[s.front.id + 1].addr, s.front.id + 1),
                       pool := s.pool + {s.front.node}, pcs := s.pcs[t := Idle]))
  }

  /** Obstruction freedom: in every reachable state with a positive count a DeQ left alone
      finishes, moves front to the next linked node and gives the old node back to the pool. */
  lemma SoloDeQ(s: State, t: Tid) returns (s': State)
    requires Inv(s) && PcOf(s, t) == DeqGate && 1 <= s.count
    ensures Alone(t, s, s') && TakesFirst(s, t, s')
  {
    SizeUpTo(s.h.counted, s.h.rp);
    assert LinkOk(s, s.front.id) && LinkOk(s, s.front.id + 1);
    AloneStart(t, s);
    s' := DeqAtFront(s, s, t, s.h.links[s.front.id + 1].addr);
  }

  // Whole calls ------------------------------------------------------------------------------

  lemma {:induction false} ExecFrom(s: State, m: Move, moves: seq<Move>)
    ensures Exec(s, [m] + moves) == Exec(Step(s, m.t, m.act), moves)
    decreases |moves|
  {
    var all := [m] + moves;
    if moves == [] {
      assert all == [m] && all[..0] == [];
      assert Exec(s, all[..0]) == s;
    } else {
      var k := |moves| - 1;
      assert all[..|all| - 1] == [m] + moves[..k];
      ExecFrom(s, m, moves[..k]);
    }
  }

  /** An idle thread calls and then moves alone. */
  ghost predicate CallsAlone(s: State, t: Tid, act: Action, s': State) {
    exists moves :: OnlyBy(moves, t) && Exec(s, [Move(t, act)] + moves) == s'
  }

  lemma AloneAfterCall(s: State, t: Tid, act: Action, s': State)
    requires Alone(t, Step(s, t, act), s')
    ensures CallsAlone(s, t, act, s')
  {
    var moves := AloneIsExec(t, Step(s, t, act), s');
    ExecFrom(s, Move(t, act), moves);
  }

  /** Calling changes nothing but the caller's program counter. */
  lemma Calling(s: State, t: Tid, act: Action, s1: State)
    requires Inv(s) && PcOf(s, t).Idle? && !act.Run? && s1 == Step(s, t, act)
    ensures Inv(s1) && s1 == Go(s, t, if act.CallEnQ? then EnqCheck(act.d) else DeqGate)
  {
    StepKeeps(s, t, act);
  }

  lemma SameAfterCall(s: State, t: Tid, pc: Pc, d: Data, a: Addr, s': State)
    ensures PutsAtTail(Go(s, t, pc), t, d, a, s') ==> PutsAtTail(s, t, d, a, s')
    ensures TakesFirst(Go(s, t, pc), t, s') ==> TakesFirst(s, t, s')
  {
    assert Go(s, t, pc).pcs[t := Idle] == s.pcs[t := Idle];
  }

  /** EnQ(d) below capacity puts d at the tail. */
  lemma WholeEnQ(s: State, t: Tid, d: Data, a: Addr) returns (s': State)
    requires Inv(s) && PcOf(s, t).Idle? && s.count <= s.maxCount && (a in s.pool || a !in s.heap)
    ensures CallsAlone(s, t, CallEnQ(d), s') && PutsAtTail(s, t, d, a, s')
  {
    var s1 := Step(s, t, CallEnQ(d));
    Calling(s, t, CallEnQ(d), s1);
    s' := SoloEnQ(s1, t, d, a);
    AloneAfterCall(s, t, CallEnQ(d), s');
    SameAfterCall(s, t, EnqCheck(d), d, a, s');
  }

  /** Above capacity it crashes at its first step. */
  lemma FullEnQ(s: State, t: Tid, d: Data) returns (s': State)
    requires PcOf(s, t).Idle? && s.maxCount < s.count
    ensures CallsAlone(s, t, CallEnQ(d), s') && PcOf(s', t) == Crashed(EnqCheck(d))
    ensures s' == s.(pcs := s'.pcs)
  {
    var s1 := Step(s, t, CallEnQ(d));
    s' := Step(s1, t, Run(0));
    AloneStart(t, s1);
    AloneStep(t, s1, s1, s', Run(0));
    AloneAfterCall(s, t, CallEnQ(d), s');
  }

  /** DeQ with a positive count takes the oldest value: the node after front's becomes front's. */
  lemma WholeDeQ(s: State, t: Tid) returns (s': State)
    requires Inv(s) && PcOf(s, t).Idle? && 1 <= s.count
    ensures CallsAlone(s, t, CallDeQ, s') && TakesFirst(s, t, s')
  {
    var s1 := Step(s, t, CallDeQ);
    Calling(s, t, CallDeQ, s1);
    s' := SoloDeQ(s1, t);
    AloneAfterCall(s, t, CallDeQ, s');
    SameAfterCall(s, t, DeqGate, 0, 0, s');
  }

  lemma GateAndUndo(s: State, t: Tid, s2: State, s3: State)
    requires PcOf(s, t) == DeqGate && s.count < 1 && s2 == StepGate(s, t) && s3 == StepUndo(s2, t)
    ensures PcOf(s2, t) == DeqUndo && SameReal(s3, s.(pcs := s.pcs[t := Idle]))
  {
    assert s2.pcs[t := Idle] == s.pcs[t := Idle];
  }

  ghost predicate LeavesAll(s: State, t: Tid, s': State) {
    SameReal(s', s.(pcs := s.pcs[t := Idle]))
  }

  lemma SoloEmptyDeQ(s: State, t: Tid) returns (s': State)
    requires PcOf(s, t) == DeqGate && s.count < 1
    ensures Alone(t, s, s') && LeavesAll(s, t, s')
  {
    var s2 := StepGate(s, t);
    s' := StepUndo(s2, t);
    GateAndUndo(s, t, s2, s');
    AloneStart(t, s);
    AloneStep2(t, s, s, s2, s', Run(0));
  }

  lemma AllAfterCall(s: State, t: Tid, pc: Pc, s': State)
    requires LeavesAll(Go(s, t, pc), t, s')
    ensures LeavesAll(s, t, s')
  {
    assert Go(s, t, pc).pcs[t := Idle] == s.pcs[t := Idle];
  }

  /** Otherwise it leaves everything as it was. */
  lemma EmptyDeQ(s: State, t: Tid) returns (s': State)
    requires PcOf(s, t).Idle? && s.count < 1
    ensures CallsAlone(s, t, CallDeQ, s') && LeavesAll(s, t, s')
  {
    var s1 := Go(s, t, DeqGate);
    assert s1 == Step(s, t, CallDeQ);
    s' := SoloEmptyDeQ(s1, t);
    AloneAfterCall(s, t, CallDeQ, s');
    AllAfterCall(s, t, DeqGate, s');
  }
}
