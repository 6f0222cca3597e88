/** What one Tick does to each bot: the session it gets, when it sends, disconnects and reconnects, and
    the times it is given. */
module BotManagerTicks {
  import opened BotManager

  // Sessions -----------------------------------------------------------------------------------

  /** How many of the first k bots are connecting. */
  function Waiting(bots: seq<Bot>, k: nat): nat
    requires k <= |bots|
  {
    if k == 0 then 0 else Waiting(bots, k - 1) + if bots[k - 1].state == Connecting then 1 else 0
  }

  /** The sessions with the n ids after `last` are found. */
  predicate AllFound(last: int, n: int, found: int -> bool) {
    forall id :: last < id <= last + n ==> found(id)
  }

  /** Of n bots that wait, m get a session: as many as are found without a gap. */
  predicate Granted(last: int, n: nat, m: int, found: int -> bool) {
    0 <= m <= n && AllFound(last, m, found) && (m < n ==> !found(last + m + 1))
  }

  /** A connecting bot is given the next id after those before it, if all these sessions are found. */
  predicate Joined(s: State, i: nat, found: int -> bool, b: Bot)
    requires i < |s.bots|
  {
    var id := s.last + Waiting(s.bots, i) + 1;
    b == if s.bots[i].state == Connecting && AllFound(s.last, Waiting(s.bots, i) + 1, found)
         then s.bots[i].(sessionID := id, state := Connected) else s.bots[i]
  }

  lemma GrantedMore(last: int, n: nat, m: int, found: int -> bool)
    requires Granted(last, n, m, found)
    ensures AllFound(last, n + 1, found) <==> m == n && found(last + n + 1)
    ensures Granted(last, n + 1, if m == n && found(last + n + 1) then m + 1 else m, found)
  {
    if m < n {
      assert last < last + m + 1 <= last + n + 1;
    }
  }

  /** TryAssignSessionIDs, bot by bot. */
  lemma {:induction false} JoinsInOrder(s: State, k: nat, found: int -> bool, r: State)
    requires k <= |s.bots| && r == Assigned(s, k, found)
    ensures r.last >= s.last && Granted(s.last, Waiting(s.bots, k), r.last - s.last, found)
    ensures forall i :: 0 <= i < |s.bots| ==> if i < k then Joined(s, i, found, r.bots[i]) else r.bots[i] == s.bots[i]
  {
    if k > 0 {
      var q := Assigned(s, k - 1, found);
      JoinsInOrder(s, k - 1, found, q);
      var n, m := Waiting(s.bots, k - 1), q.last - s.last;
      GrantedMore(s.last, n, m, found);
      assert q.bots[k - 1] == s.bots[k - 1];
      if s.bots[k - 1].state == Connecting && found(q.last + 1) {
        GapFree(s.last, n, m, found);
      }
    }
  }

  /** If the next session is found, there was no gap. */
  lemma GapFree(last: int, n: nat, m: int, found: int -> bool)
    requires Granted(last, n, m, found) && found(last + m + 1)
    ensures m == n
  {
  }

  // Turns --------------------------------------------------------------------------------------

  /** It is connected, has packets of its cycle left and its time has come. */
  predicate SendsNow(cfg: Config, b: Bot, e: Env) {
    b.state == Connected && b.packetsSent < cfg.packetsPerBot && e.now >= b.nextSendTime
  }

  function SentNow(cfg: Config, b: Bot, e: Env, i: int): int {
    if SendsNow(cfg, b, e) && e.sends(i) then 1 else 0
  }

  /** Its cycle is over. */
  predicate CycleOver(cfg: Config, b: Bot, e: Env, i: int) {
    b.state == Connected && b.packetsSent + SentNow(cfg, b, e, i) >= cfg.packetsPerBot
  }

  /** Then it disconnects: always in one scenario, and in the other if it is one of the first
      ceil(botCount * rate / 100). */
  predicate Leaves(cfg: Config, b: Bot, e: Env, i: int) {
    && CycleOver(cfg, b, e, i)
    && match cfg.scenario
       case StaticSendRecv => false
       case DisconnectOnly => true
       case Reconnect => b.slot < (cfg.botCount * cfg.reconnectRatePct + 99) / 100
  }

  /** It is disconnected and its waiting time is over. */
  predicate ComesBack(b: Bot, e: Env) {
    b.state == Disconnected && e.now >= b.nextActionTime
  }

  /** What bot i, b after the sessions have been given out, is after its turn. */
  predicate Turned(cfg: Config, b: Bot, e: Env, i: int, b': Bot) {
    && b'.slot == b.slot
    && b'.totalPacketsSent == b.totalPacketsSent + SentNow(cfg, b, e, i)
    && b'.nextSendTime == (if SendsNow(cfg, b, e) then e.now + cfg.packetIntervalMs else b.nextSendTime)
    && b'.state == (if Leaves(cfg, b, e, i) then Disconnected else if ComesBack(b, e) then Connecting else b.state)
    && b'.sessionID == (if Leaves(cfg, b, e, i) then 0 else b.sessionID)
    && b'.nextActionTime == (if Leaves(cfg, b, e, i) then e.later + cfg.reconnectDelayMs else b.nextActionTime)
    && b'.reconnectCount == (if ComesBack(b, e) then b.reconnectCount + 1 else b.reconnectCount)
    && b'.packetsSent ==
       if ComesBack(b, e) || (CycleOver(cfg, b, e, i) && !Leaves(cfg, b, e, i)) then 0
       else b.packetsSent + SentNow(cfg, b, e, i)
  }

  lemma TurnIs(cfg: Config, s: State, i: nat, e: Env, r: State)
    requires i < |s.bots| && cfg.botCount > 0 && s.bots[i].slot >= 0 && r == TickedBot(cfg, s, i, e)
    ensures Turned(cfg, s.bots[i], e, i, r.bots[i])
    ensures forall j :: 0 <= j < |s.bots| && j != i ==> r.bots[j] == s.bots[j]
    ensures r.errors == s.errors + if SendsNow(cfg, s.bots[i], e) && !e.sends(i) then 1 else 0
  {
    ReconnectingSlots(cfg, s.bots[i].slot);
  }

  /** How many of the first k bots fail to send. */
  function Failures(cfg: Config, bots: seq<Bot>, k: nat, e: Env): nat
    requires k <= |bots|
  {
    if k == 0 then 0
    else Failures(cfg, bots, k - 1, e) + if SendsNow(cfg, bots[k - 1], e) && !e.sends(k - 1) then 1 else 0
  }

  predicate Slots(bots: seq<Bot>) {
    forall i :: 0 <= i < |bots| ==> bots[i].slot >= 0
  }

  lemma {:induction false} TurnsAre(cfg: Config, s: State, k: nat, e: Env, r: State)
    requires k <= |s.bots| == cfg.botCount && Slots(s.bots) && r == TickedBots(cfg, s, k, e)
    ensures forall i :: 0 <= i < |s.bots| ==>
              if i < k then Turned(cfg, s.bots[i], e, i, r.bots[i]) else r.bots[i] == s.bots[i]
    ensures r.errors == s.errors + Failures(cfg, s.bots, k, e)
  {
    if k > 0 {
      var q := TickedBots(cfg, s, k - 1, e);
      TurnsAre(cfg, s, k - 1, e, q);
      TurnIs(cfg, q, k - 1, e, r);
    }
  }

  /** One Tick: every bot gets its session if it is found, and then has its turn; and the errors are the
      sends that failed. After Stop nothing changes. */
  lemma TickIs(cfg: Config, s: State, e: Env, a: State, r: State)
    requires |s.bots| == cfg.botCount && Slots(s.bots) && a == Assigned(s, |s.bots|, e.found) && r == Ticked(cfg, s, e)
    ensures e.stop ==> r == s
    ensures !e.stop ==> r.last == a.last && Granted(s.last, Waiting(s.bots, |s.bots|), a.last - s.last, e.found)
    ensures !e.stop ==> r.errors == s.errors + Failures(cfg, a.bots, |a.bots|, e)
    ensures forall i :: !e.stop && 0 <= i < |s.bots| ==>
              Joined(s, i, e.found, a.bots[i]) && Turned(cfg, a.bots[i], e, i, r.bots[i])
  {
    JoinsInOrder(s, |s.bots|, e.found, a);
    assert Slots(a.bots);
    TurnsAre(cfg, a, |a.bots|, e, TickedBots(cfg, a, |a.bots|, e));
    LastStays(cfg, a, |a.bots|, e);
    ErrorsStay(s, |s.bots|, e.found);
  }

  lemma {:induction false} LastStays(cfg: Config, s: State, k: nat, e: Env)
    requires k <= |s.bots|
    ensures TickedBots(cfg, s, k, e).last == s.last
  {
    if k > 0 {
      LastStays(cfg, s, k - 1, e);
    }
  }

  lemma {:induction false} ErrorsStay(s: State, k: nat, found: int -> bool)
    requires k <= |s.bots|
    ensures Assigned(s, k, found).errors == s.errors
  {
    if k > 0 {
      ErrorsStay(s, k - 1, found);
    }
  }

  /** Before the first Tick every bot is connecting and may send at once. */
  lemma StartIs(cfg: Config, now: int, s: State)
    requires cfg.botCount >= 0 && s == Exec(cfg, now, [])
    ensures |s.bots| == cfg.botCount && s.last == s.sent == s.disconnects == s.reconnects == s.errors == 0
    ensures forall i :: 0 <= i < |s.bots| ==>
              && s.bots[i].slot == i && s.bots[i].state == Connecting && s.bots[i].nextSendTime == now
              && s.bots[i].packetsSent == s.bots[i].totalPacketsSent == s.bots[i].reconnectCount == 0
  {
  }
}
