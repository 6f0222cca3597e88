/**
 The load generator's bots: they connect, send, disconnect and reconnect, and the totals that
 the statistics print are kept along the way.

 The clock, the session table and the result of a send are inputs of each Tick.
 */
module BotManager {
  import opened Arith

  datatype Scenario = StaticSendRecv | DisconnectOnly | Reconnect

  datatype Config = Config(scenario: Scenario, botCount: int, packetsPerBot: int, packetIntervalMs: int,
                           reconnectDelayMs: int, reconnectRatePct: int)

  datatype BotState = Connecting | Connected | Disconnected

  datatype Bot = Bot(slot: int, sessionID: int, packetsSent: int, totalPacketsSent: int, reconnectCount: int,
                     state: BotState, nextSendTime: int, nextActionTime: int)

  /** m_bots, m_lastAssignedID and the totals. */
  datatype State = State(bots: seq<Bot>, last: int, sent: int, disconnects: int, reconnects: int, errors: int)

  /** What one Tick sees: whether a stop was requested, the sessions that FindSession finds, whether each
      send works, the time at its start and the time when it disconnects a bot. */
  datatype Env = Env(stop: bool, found: int -> bool, sends: int -> bool, now: int, later: int)

  function Max(a: int, b: int): int {
    if a < b then b else a
  }

  /** ShouldThisBotReconnect; slots are not negative, so the division rounds down. */
  predicate ShouldReconnect(cfg: Config, slot: int) {
    slot * 100 / Max(cfg.botCount, 1) < cfg.reconnectRatePct
  }

  // What a Tick does ----------------------------------------------------------------------------

  /** TryAssignSessionIDs on the first k bots. */
  function Assigned(s: State, k: nat, found: int -> bool): (r: State)
    requires k <= |s.bots|
    ensures |r.bots| == |s.bots|
  {
    if k == 0 then s else
    var r := Assigned(s, k - 1, found);
    if r.bots[k - 1].state == Connecting && found(r.last + 1) then
      r.(bots := r.bots[k - 1 := r.bots[k - 1].(sessionID := r.last + 1, state := Connected)], last := r.last + 1)
    else r
  }

  function SendPart(cfg: Config, s: State, i: nat, e: Env): (r: State)
    requires i < |s.bots|
    ensures |r.bots| == |s.bots|
  {
    var b := s.bots[i];
    if !(b.packetsSent < cfg.packetsPerBot && e.now >= b.nextSendTime) then s else
    var b' := b.(nextSendTime := e.now + cfg.packetIntervalMs);
    if e.sends(i) then
      s.(bots := s.bots[i := b'.(packetsSent := b.packetsSent + 1, totalPacketsSent := b.totalPacketsSent + 1)],
         sent := s.sent + 1)
    else s.(bots := s.bots[i := b'], errors := s.errors + 1)
  }

  function Disconnect(cfg: Config, s: State, i: nat, e: Env): (r: State)
    requires i < |s.bots|
    ensures |r.bots| == |s.bots|
  {
    var b := s.bots[i];
    if b.state != Connected then s else
    s.(bots := s.bots[i := b.(sessionID := 0, state := Disconnected, nextActionTime := e.later + cfg.reconnectDelayMs)],
       disconnects := s.disconnects + 1)
  }

  function CyclePart(cfg: Config, s: State, i: nat, e: Env): (r: State)
    requires i < |s.bots|
    ensures |r.bots| == |s.bots|
  {
    if s.bots[i].packetsSent < cfg.packetsPerBot then s
    else if cfg.scenario == DisconnectOnly || (cfg.scenario == Reconnect && ShouldReconnect(cfg, s.bots[i].slot))
    then Disconnect(cfg, s, i, e)
    else s.(bots := s.bots[i := s.bots[i].(packetsSent := 0)])
  }

  /** ReconnectBot. */
  function Reconnected(s: State, i: nat): (r: State)
    requires i < |s.bots|
    ensures |r.bots| == |s.bots|
  {
    var b := s.bots[i];
    s.(bots := s.bots[i := b.(state := Connecting, packetsSent := 0, reconnectCount := b.reconnectCount + 1)],
       reconnects := s.reconnects + 1)
  }

  function TickedBot(cfg: Config, s: State, i: nat, e: Env): (r: State)
    requires i < |s.bots|
    ensures |r.bots| == |s.bots|
  {
    match s.bots[i].state
    case Connected => CyclePart(cfg, SendPart(cfg, s, i, e), i, e)
    case Disconnected => if e.now >= s.bots[i].nextActionTime then Reconnected(s, i) else s
    case Connecting => s
  }

  function TickedBots(cfg: Config, s: State, k: nat, e: Env): (r: State)
    requires k <= |s.bots|
    ensures |r.bots| == |s.bots|
  {
    if k == 0 then s else TickedBot(cfg, TickedBots(cfg, s, k - 1, e), k - 1, e)
  }

  function Ticked(cfg: Config, s: State, e: Env): State {
    if e.stop then s else
    var a := Assigned(s, |s.bots|, e.found);
    TickedBots(cfg, a, |a.bots|, e)
  }

  // The conservation laws -------------------------------------------------------------------------

  function Bit(b: bool): int {
    if b then 1 else 0
  }

  function Count(bots: seq<Bot>, state: BotState): int {
    if bots == [] then 0 else Count(bots[..|bots| - 1], state) + Bit(bots[|bots| - 1].state == state)
  }

  function TotalSent(bots: seq<Bot>): int {
    if bots == [] then 0 else TotalSent(bots[..|bots| - 1]) + bots[|bots| - 1].totalPacketsSent
  }

  function TotalReconnects(bots: seq<Bot>): int {
    if bots == [] then 0 else TotalReconnects(bots[..|bots| - 1]) + bots[|bots| - 1].reconnectCount
  }

  predicate BotOk(b: Bot, i: int, last: int) {
    b.slot == i && if b.state == Connected then 1 <= b.sessionID <= last else b.sessionID == 0
  }

  predicate Ids(s: State) {
    && (forall i :: 0 <= i < |s.bots| ==> BotOk(s.bots[i], i, s.last))
    && (forall i, j :: 0 <= i < j < |s.bots| && s.bots[i].state == Connected && s.bots[j].state == Connected ==>
         s.bots[i].sessionID != s.bots[j].sessionID)
  }

  predicate Totals(s: State) {
    && s.last == Count(s.bots, Connected) + s.disconnects
    && s.disconnects == s.reconnects + Count(s.bots, Disconnected)
    && s.sent == TotalSent(s.bots)
    && s.reconnects == TotalReconnects(s.bots)
  }

  predicate Laws(s: State) {
    s.last >= 0 && Ids(s) && Totals(s)
  }

  lemma {:induction false} SumsUpdate(bots: seq<Bot>, i: nat, b: Bot, state: BotState)
    requires i < |bots|
    ensures Count(bots[i := b], state) == Count(bots, state) - Bit(bots[i].state == state) + Bit(b.state == state)
    ensures TotalSent(bots[i := b]) == TotalSent(bots) - bots[i].totalPacketsSent + b.totalPacketsSent
    ensures TotalReconnects(bots[i := b]) == TotalReconnects(bots) - bots[i].reconnectCount + b.reconnectCount
  {
    var n := |bots| - 1;
    if i < n {
      SumsUpdate(bots[..n], i, b, state);
      assert bots[i := b][..n] == bots[..n][i := b];
    } else {
      assert bots[i := b][..n] == bots[..n];
    }
  }

  /** A change of one bot, with the totals moved to match, keeps the laws. */
  lemma OneBot(s: State, i: nat, b: Bot, r: State)
    requires Laws(s) && i < |s.bots| && r.bots == s.bots[i := b] && s.last <= r.last && BotOk(b, i, r.last)
    requires b.state == Connected ==> b.sessionID == s.bots[i].sessionID != 0 || s.last < b.sessionID
    requires r.last - s.last ==
             Bit(b.state == Connected) - Bit(s.bots[i].state == Connected) + r.disconnects - s.disconnects
    requires r.disconnects - s.disconnects ==
             r.reconnects - s.reconnects + Bit(b.state == Disconnected) - Bit(s.bots[i].state == Disconnected)
    requires r.sent - s.sent == b.totalPacketsSent - s.bots[i].totalPacketsSent
    requires r.reconnects - s.reconnects == b.reconnectCount - s.bots[i].reconnectCount
    ensures Laws(r)
  {
    SumsUpdate(s.bots, i, b, Connected);
    SumsUpdate(s.bots, i, b, Disconnected);
  }

  lemma {:induction false} AssignedKeeps(s: State, k: nat, found: int -> bool)
    requires Laws(s) && k <= |s.bots|
    ensures Laws(Assigned(s, k, found))
  {
    if k > 0 {
      AssignedKeeps(s, k - 1, found);
      var r := Assigned(s, k - 1, found);
      var t := Assigned(s, k, found);
      if t != r {
        OneBot(r, k - 1, t.bots[k - 1], t);
      }
    }
  }

  lemma TickedBotKeeps(cfg: Config, s: State, i: nat, e: Env)
    requires Laws(s) && i < |s.bots|
    ensures Laws(TickedBot(cfg, s, i, e))
  {
    var b := s.bots[i];
    if b.state == Connected {
      var m := SendPart(cfg, s, i, e);
      OneBot(s, i, m.bots[i], m);
      var r := CyclePart(cfg, m, i, e);
      OneBot(m, i, r.bots[i], r);
    } else {
      var r := TickedBot(cfg, s, i, e);
      OneBot(s, i, r.bots[i], r);
    }
  }

  lemma {:induction false} TickedBotsKeeps(cfg: Config, s: State, k: nat, e: Env)
    requires Laws(s) && k <= |s.bots|
    ensures Laws(TickedBots(cfg, s, k, e))
  {
    if k > 0 {
      TickedBotsKeeps(cfg, s, k - 1, e);
      var r := TickedBots(cfg, s, k - 1, e);
      var t := TickedBot(cfg, r, k - 1, e);
      TickedBotKeeps(cfg, r, k - 1, e);
      assert TickedBots(cfg, s, k, e) == t;
    }
  }

  /** Initialize and Start. */
  function Started(count: nat, now: int): (s: State)
    ensures |s.bots| == count
  {
    State(seq(count, i => Bot(i, 0, 0, 0, 0, Connecting, now, 0)), 0, 0, 0, 0, 0)
  }

  function Exec(cfg: Config, now: int, ticks: seq<Env>): State
    requires cfg.botCount >= 0
  {
    if ticks == [] then Started(cfg.botCount, now)
    else Ticked(cfg, Exec(cfg, now, ticks[..|ticks| - 1]), ticks[|ticks| - 1])
  }

  lemma {:induction false} StartedSums(count: nat, now: int, k: nat)
    requires k <= count
    ensures var bots := Started(count, now).bots[..k];
            && Count(bots, Connected) == 0 && Count(bots, Disconnected) == 0
            && TotalSent(bots) == 0 && TotalReconnects(bots) == 0
  {
    if k > 0 {
      StartedSums(count, now, k - 1);
      assert Started(count, now).bots[..k][..k - 1] == Started(count, now).bots[..k - 1];
    }
  }

  /** After any number of Ticks the connected bots have distinct ids in 1..last, every id given
      out is in use or was disconnected, every disconnect was followed by a reconnect or is
      pending, and the totals are the sums over the bots. */
  lemma {:induction false} ExecLaws(cfg: Config, now: int, ticks: seq<Env>)
    requires cfg.botCount >= 0
    ensures Laws(Exec(cfg, now, ticks)) && |Exec(cfg, now, ticks).bots| == cfg.botCount
  {
    if ticks == [] {
      var s := Started(cfg.botCount, now);
      StartedSums(cfg.botCount, now, cfg.botCount);
      assert s.bots[..cfg.botCount] == s.bots;
    } else {
      var s := Exec(cfg, now, ticks[..|ticks| - 1]);
      var e := ticks[|ticks| - 1];
      ExecLaws(cfg, now, ticks[..|ticks| - 1]);
      if !e.stop {
        AssignedKeeps(s, |s.bots|, e.found);
        TickedBotsKeeps(cfg, Assigned(s, |s.bots|, e.found), |s.bots|, e);
      }
    }
  }

  /** The slots that reconnect are the first ceil(botCount * rate / 100), and no more than there
      are bots while the rate is a percentage. */
  lemma ReconnectingSlots(cfg: Config, slot: nat)
    requires cfg.botCount > 0
    ensures var share := (cfg.botCount * cfg.reconnectRatePct + 99) / 100;
            && (ShouldReconnect(cfg, slot) <==> slot < share)
            && (0 <= cfg.reconnectRatePct <= 100 ==> 0 <= share <= cfg.botCount)
  {
    QuotientBelow(slot * 100, cfg.botCount, cfg.reconnectRatePct);
    if 0 <= cfg.reconnectRatePct <= 100 {
      MulMono(cfg.reconnectRatePct, 100, cfg.botCount);
      MulMono(0, cfg.reconnectRatePct, cfg.botCount);
    }
  }

  // The object ---------------------------------------------------------------------------------------

  /** Once FindSession has failed for the next id, the rest of the bots get none. */
  lemma {:induction false} NothingMore(s: State, i: nat, k: nat, found: int -> bool)
    requires i <= k <= |s.bots| && !found(Assigned(s, i, found).last + 1)
    ensures Assigned(s, k, found) == Assigned(s, i, found)
  {
    if i < k {
      NothingMore(s, i, k - 1, found);
    }
  }

  class Manager {
    const cfg: Config
    var bots: seq<Bot>
    var last: int
    var sent: int
    var disconnects: int
    var reconnects: int
    var errors: int

    function Now(): State
      reads this
    {
      State(bots, last, sent, disconnects, reconnects, errors)
    }

    /** Initialize, then Start. */
    constructor (cfg: Config, now: int)
      requires cfg.botCount >= 0
      ensures this.cfg == cfg && Now() == Exec(cfg, now, [])
    {
      this.cfg := cfg;
      bots := Started(cfg.botCount, now).bots;
      last, sent, disconnects, reconnects, errors := 0, 0, 0, 0, 0;
    }

    method TryAssignSessionIDs(found: int -> bool)
      modifies this`bots, this`last
      ensures Now() == Assigned(old(Now()), |old(bots)|, found)
    {
      ghost var s := Now();
      for i := 0 to |bots|
        invariant |bots| == |s.bots| && Now() == Assigned(s, i, found)
      {
        if bots[i].state != Connecting {
          continue;
        }
        if !found(last + 1) {
          NothingMore(s, i, |bots|, found);
          return;
        }
        bots := bots[i := bots[i].(sessionID := last + 1, state := Connected)];
        last := last + 1;
      }
    }

    method DisconnectBot(i: nat, e: Env)
      requires i < |bots|
      modifies this`bots, this`disconnects
      ensures Now() == Disconnect(cfg, old(Now()), i, e)
    {
      if bots[i].state != Connected {
        return;
      }
      bots := bots[i := bots[i].(sessionID := 0, state := Disconnected,
                                 nextActionTime := e.later + cfg.reconnectDelayMs)];
      disconnects := disconnects + 1;
    }

    method ReconnectBot(i: nat)
      requires i < |bots|
      modifies this`bots, this`reconnects
      ensures Now() == Reconnected(old(Now()), i)
    {
      bots := bots[i := bots[i].(state := Connecting, packetsSent := 0, reconnectCount := bots[i].reconnectCount + 1)];
      reconnects := reconnects + 1;
    }

    /** The sending half of a connected bot's turn. */
    method SendTurn(i: nat, e: Env)
      requires i < |bots|
      modifies this`bots, this`sent, this`errors
      ensures Now() == SendPart(cfg, old(Now()), i, e)
    {
      if bots[i].packetsSent < cfg.packetsPerBot && e.now >= bots[i].nextSendTime {
        if e.sends(i) {
          bots := bots[i := bots[i].(packetsSent := bots[i].packetsSent + 1,
                                     totalPacketsSent := bots[i].totalPacketsSent + 1)];
          sent := sent + 1;
        } else {
          errors := errors + 1;
        }
        bots := bots[i := bots[i].(nextSendTime := e.now + cfg.packetIntervalMs)];
      }
    }

    method Tick(e: Env)
      modifies this
      ensures Now() == Ticked(cfg, old(Now()), e)
    {
      if e.stop {
        return;
      }
      TryAssignSessionIDs(e.found);
      ghost var s := Now();
      for i := 0 to |bots|
        invariant |bots| == |s.bots| && Now() == TickedBots(cfg, s, i, e)
      {
        if bots[i].state == Connected {
          SendTurn(i, e);
          if bots[i].packetsSent >= cfg.packetsPerBot {
            if cfg.scenario == StaticSendRecv {
              bots := bots[i := bots[i].(packetsSent := 0)];
            } else if cfg.scenario == DisconnectOnly {
              DisconnectBot(i, e);
            } else if ShouldReconnect(cfg, bots[i].slot) {
              DisconnectBot(i, e);
            } else {
              bots := bots[i := bots[i].(packetsSent := 0)];
            }
          }
        } else if bots[i].state == Disconnected {
          if e.now >= bots[i].nextActionTime {
            ReconnectBot(i);
          }
        }
      }
    }
  }
}
