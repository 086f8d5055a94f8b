/**
 One replay as a run of two machines in step: the shared broker, and per pair the
 orchestrator's queue with its safety brake. What holds at every event, whatever the
 detectors, structure gates and lot sizing answer.
 */
module ReplayWorlds {
  import opened Wrappers
  import opened Market
  import opened Calendar
  import opened PositionSimulator
  import opened RiskManagement
  import opened SmcOrchestration
  import opened OrchestratorRuns
  import opened SimulatedBroking
  import opened ReplayTimeline
  import opened RiskNumbers

  /** What the outside supplies at one event. */
  datatype MarketInput = MarketInput(
    spread: real,
    m15Atr: Option<real>,
    d1Adx: real,
    inBlackout: bool,
    oracle: Oracle)

  datatype PlacedOrder = PlacedOrder(symbol: string, sweepTime: Option<int>)

  /** The broker, each pair's orchestrator state, the orders placed, and the pair of each closed position. */
  datatype ReplayState = ReplayState(
    broker: BrokerState,
    states: string -> SymbolState,
    orders: seq<PlacedOrder>,
    closedOn: seq<string>)

  /** Every pair's brake starts from the replay's own parameters. */
  function RiskOf(cfg: ReplayConfig, symbol: string): RiskConfig {
    RiskConfig(cfg.initialBalance, cfg.riskPercent, 4.0, 5, cfg.maxOpenPositions, cfg.broker.lotSizeUnits(symbol),
               cfg.broker.quotedInYen(symbol))
  }

  function AtStart(cfg: ReplayConfig): ReplayState {
    ReplayState(Opening(cfg.initialBalance), symbol => FreshSymbol(RiskOf(cfg, symbol)), [], [])
  }

  ghost predicate Placeable(cfg: ReplayConfig) {
    cfg.broker.retrace.Some? ==> cfg.broker.retrace.value.frac != 1.0
  }

  function With(states: string -> SymbolState, symbol: string, state: SymbolState): string -> SymbolState {
    other => if other == symbol then state else states(other)
  }

  // ----- The bar -----

  function BarOf(cfg: ReplayConfig, event: TimelineEvent): Bar {
    Bar(event.candle, cfg.spreadAt(event.symbol, event.candle.openTime))
  }

  function LiveReason(reason: ReplayExit): LiveExit {
    match reason case SlExit => Sl case TpExit => Tp case FlushExit => Other
  }

  /** The orchestrator is told of each exit, in order. */
  function ToldExits(pair: PairConfig, state: SymbolState, exits: seq<ClosedPosition>): SymbolState {
    if exits == [] then state
    else
      var last := exits[|exits| - 1];
      RecordExit(pair, ToldExits(pair, state, exits[..|exits| - 1]), LiveReason(last.exitReason), DayOf(last.closedAt),
                 Some(last.pnl))
  }

  function NewlyClosed(before: seq<ClosedPosition>, after: seq<ClosedPosition>): seq<ClosedPosition> {
    if |before| <= |after| then after[|before|..] else []
  }

  function Same(symbol: string, n: nat): seq<string> {
    seq(n, i => symbol)
  }

  function Exited(cfg: ReplayConfig, w: ReplayState, symbol: string, broker: BrokerState): ReplayState {
    var exits := NewlyClosed(w.broker.closed, broker.closed);
    w.(broker := broker,
    states := With(w.states, symbol, ToldExits(cfg.pairConfig(symbol), w.states(symbol), exits)),
    closedOn := w.closedOn + Same(symbol, |exits|))
  }

  ghost function AfterBar(cfg: ReplayConfig, w: ReplayState, event: TimelineEvent): ReplayState {
    Exited(cfg, w, event.symbol, ProcessCandle(cfg.broker, w.broker, event.symbol, BarOf(cfg, event)))
  }

  // ----- The close -----

  function TimesUpTo(bars: seq<Candle>, n: nat): seq<int>
    requires n <= |bars|
  {
    seq(n, i requires 0 <= i < n => bars[i].openTime)
  }

  /** What the orchestrator sees: exactly the M15 bars opened and the H1 bars closed, and the broker's book. */
  function CloseOf(bundle: Bundle, cursor: Cursor, event: TimelineEvent, input: MarketInput, ctx: LiveContext): M15Close
    requires 0 < cursor.m15 <= |bundle.m15| && cursor.h1 <= |bundle.h1|
  {
    M15Close(MarketView(cursor.m15, TimesUpTo(bundle.h1, cursor.h1), event.candle.openTime,
                        bundle.m15[cursor.m15 - 1].close, input.spread, input.m15Atr, input.d1Adx, input.inBlackout),
             ctx, input.oracle)
  }

  /** The cursor that sees exactly what has opened or closed by the time. */
  function CursorAt(bundle: Bundle, time: int): (cursor: Cursor)
    ensures cursor.m15 <= |bundle.m15| && cursor.h1 <= |bundle.h1| && cursor.d1 <= |bundle.d1|
  {
    Cursor(CountUpTo(bundle.m15, time), CountUpTo(bundle.h1, time + 1 - MS_PER_HOUR),
           CountUpTo(bundle.d1, time + 1 - MS_PER_DAY))
  }

  function Tags(signal: Signal, time: int, last: string): seq<string> {
    ["SMC", "SWEEP", if UtcHour(time) < 12 then "LONDON" else "NY",
     match signal.mode case Reversal => "REVERSAL" case Continuation => "CONTINUATION", last]
  }

  /** The last leg runs; a leg before it is the partial. */
  function OrderOf(signal: Signal, time: int): (order: Order)
    ensures |order.legs| == |signal.legs|
  {
    Order(signal.side, signal.entryPrice, signal.slPrice,
          seq(|signal.legs|, i requires 0 <= i < |signal.legs| =>
            OrderLeg(signal.legs[i].lotSize, signal.legs[i].tpPrice,
                     Tags(signal, time, if i + 1 < |signal.legs| then "TP1" else "RUNNER"))))
  }

  /** The order is placed, and committed when a leg was filled or a limit was parked. */
  ghost function AfterSignal(cfg: ReplayConfig, w: ReplayState, symbol: string, signal: Signal, time: int): ReplayState
    requires Placeable(cfg)
  {
    var placed := w.(broker := PlaceOrder(cfg.broker, w.broker, symbol, OrderOf(signal, time), time),
                  orders := w.orders + [PlacedOrder(symbol, signal.h1SweepTime)]);
    if cfg.broker.retrace.Some? || signal.legs != []
    then placed.(states := With(w.states, symbol, RecordEntry(w.states(symbol), signal))) else placed
  }

  ghost function ContextOf(s: BrokerState, symbol: string): LiveContext {
    LiveContext(OpenSides(ListOf(s.positions, symbol)), TotalOpen(s.positions))
  }

  ghost function Evaluated(cfg: ReplayConfig, w: ReplayState, symbol: string, close: M15Close): ReplayState
    requires Placeable(cfg)
  {
    var (state, signal) := Evaluate(cfg.pairConfig(symbol), RiskOf(cfg, symbol), w.states(symbol), close);
    var w' := w.(states := With(w.states, symbol, state));
    if signal.Some? then AfterSignal(cfg, w', symbol, signal.value, close.view.now) else w'
  }

  predicate EnoughBars(cursor: Cursor) {
    cursor.m15 >= MIN_BARS && cursor.h1 >= MIN_BARS
  }

  ghost function AfterClose(cfg: ReplayConfig, w: ReplayState, bundle: Bundle, event: TimelineEvent,
                            input: MarketInput): ReplayState
    requires Placeable(cfg)
  {
    var cursor := CursorAt(bundle, event.candle.openTime);
    if EnoughBars(cursor)
    then Evaluated(cfg, w, event.symbol, CloseOf(bundle, cursor, event, input, ContextOf(w.broker, event.symbol))) else w
  }

  ghost function AfterEvent(cfg: ReplayConfig, w: ReplayState, bundle: Bundle, event: TimelineEvent,
                            input: MarketInput): ReplayState
    requires Placeable(cfg)
  {
    AfterClose(cfg, AfterBar(cfg, w, event), bundle, event, input)
  }

  /** The replay after its first `n` events. */
  ghost function Played(cfg: ReplayConfig, candles: map<string, Bundle>, inputs: nat -> MarketInput,
                        timeline: seq<TimelineEvent>, n: nat): ReplayState
    requires Placeable(cfg) && n <= |timeline|
    requires forall k :: 0 <= k < |timeline| ==> timeline[k].symbol in candles
  {
    if n == 0 then AtStart(cfg)
    else
      var event := timeline[n - 1];
      AfterEvent(cfg, Played(cfg, candles, inputs, timeline, n - 1), candles[event.symbol], event, inputs(n - 1))
  }

  // ----- What holds at every event -----

  /** In one pair's list the positions of a side are the legs, at most two, of one signal. */
  ghost predicate OneSignalPerSide(list: seq<OpenPosition>) {
    && (forall p, q :: p in list && q in list && p.position.side == q.position.side ==>
          p.position.entryTime == q.position.entryTime && p.position.entryPrice == q.position.entryPrice)
    && (forall side :: CountSide(list, side) <= 2)
  }

  function CountSide(list: seq<OpenPosition>, side: Side): nat {
    if list == [] then 0
    else CountSide(list[..|list| - 1], side) + if list[|list| - 1].position.side == side then 1 else 0
  }

  /** No sweep of a pair is ordered twice, and every order's sweep is marked as taken. */
  ghost predicate OncePerSweep(w: ReplayState) {
    && (forall i, j :: 0 <= i < j < |w.orders| && w.orders[i].sweepTime.Some? ==> w.orders[i] != w.orders[j])
    && (forall i :: 0 <= i < |w.orders| && w.orders[i].sweepTime.Some? ==>
          w.orders[i].sweepTime in w.states(w.orders[i].symbol).actionedSweeps)
  }

  /** The pnl of the closed positions of one pair. */
  function PairPnl(closed: seq<ClosedPosition>, closedOn: seq<string>, symbol: string): real
    requires |closed| == |closedOn|
  {
    if closed == [] then 0.0
    else
      PairPnl(closed[..|closed| - 1], closedOn[..|closed| - 1], symbol)
      + if closedOn[|closed| - 1] == symbol then closed[|closed| - 1].pnl else 0.0
  }

  /** An exit as its brake logs it. */
  function LoggedExit(exit: ClosedPosition): LoggedTrade {
    RiskRuns.Logged(DayOf(exit.closedAt), exit.pnl, RiskReason(LiveReason(exit.exitReason)))
  }

  /** The closed positions of one pair, in order, as its brake should have logged them. */
  function PairLog(closed: seq<ClosedPosition>, closedOn: seq<string>, symbol: string): seq<LoggedTrade>
    requires |closed| == |closedOn|
  {
    if closed == [] then []
    else
      PairLog(closed[..|closed| - 1], closedOn[..|closed| - 1], symbol)
      + if closedOn[|closed| - 1] == symbol then [LoggedExit(closed[|closed| - 1])] else []
  }

  /** A losing streak after some exits: a target ends it, a losing stop-out adds to it. */
  function StreakFrom(streak: int, exits: seq<ClosedPosition>): int {
    if exits == [] then streak
    else
      var before, last := StreakFrom(streak, exits[..|exits| - 1]), exits[|exits| - 1];
      if last.exitReason == TpExit then 0 else if last.pnl < 0.0 then before + 1 else before
  }

  /** The losing streak of one pair. */
  function PairStreak(closed: seq<ClosedPosition>, closedOn: seq<string>, symbol: string): int
    requires |closed| == |closedOn|
  {
    if closed == [] then 0
    else
      var n := |closed| - 1;
      var before := PairStreak(closed[..n], closedOn[..n], symbol);
      if closedOn[n] == symbol then StreakFrom(before, [closed[n]]) else before
  }

  /** Each pair's brake has logged and booked exactly the exits of its own pair, in order. */
  ghost predicate BrakesAgree(cfg: ReplayConfig, w: ReplayState) {
    && |w.closedOn| == |w.broker.closed|
    && (forall symbol :: w.states(symbol).risk.account.balance
                         == cfg.initialBalance + PairPnl(w.broker.closed, w.closedOn, symbol))
    && (forall symbol :: w.states(symbol).risk.tradeLog == PairLog(w.broker.closed, w.closedOn, symbol))
    && (forall symbol :: w.states(symbol).risk.account.consecutiveLosses
                         == PairStreak(w.broker.closed, w.closedOn, symbol))
  }

  /** In market mode the position limit holds over all pairs, up to the second leg of the last order. */
  ghost predicate WithinLimit(cfg: ReplayConfig, s: BrokerState) {
    TotalOpen(s.positions) == 0 || TotalOpen(s.positions) <= cfg.maxOpenPositions + 1
  }

  ghost predicate MarketBook(cfg: ReplayConfig, s: BrokerState) {
    && s.limits == map[] && WithinLimit(cfg, s)
    && (forall symbol :: OneSignalPerSide(ListOf(s.positions, symbol)))
  }

  ghost predicate InStep(cfg: ReplayConfig, w: ReplayState) {
    && Conserves(w.broker, cfg.initialBalance) && OncePerSweep(w) && BrakesAgree(cfg, w)
    && (cfg.broker.retrace.None? ==> MarketBook(cfg, w.broker))
  }

  // ----- A bar keeps it -----

  function LogOf(exits: seq<ClosedPosition>): seq<LoggedTrade> {
    seq(|exits|, i requires 0 <= i < |exits| => LoggedExit(exits[i]))
  }

  /** How many bars of waiting an exit calls for: two after a target, the pair's own number after a stop. */
  function WaitAfter(pair: PairConfig, reason: ReplayExit): int {
    match reason
    case SlExit => pair.slCooldownBars
    case TpExit => 2
    case FlushExit => 1
  }

  lemma ToldOneWaits(pair: PairConfig, state: SymbolState, exit: ClosedPosition)
    ensures var told := RecordExit(pair, state, LiveReason(exit.exitReason), DayOf(exit.closedAt), Some(exit.pnl));
            && told.cooldownBarsRemaining >= state.cooldownBarsRemaining
            && told.cooldownBarsRemaining >= WaitAfter(pair, exit.exitReason)
  {
    hide RecordTrade;
  }

  /** Once told of its exits, a pair waits at least as long as each of them calls for, and as it did before. */
  lemma {:induction false} ToldWaits(pair: PairConfig, state: SymbolState, exits: seq<ClosedPosition>, i: nat)
    requires i < |exits|
    ensures ToldExits(pair, state, exits).cooldownBarsRemaining >= WaitAfter(pair, exits[i].exitReason)
    ensures ToldExits(pair, state, exits).cooldownBarsRemaining >= state.cooldownBarsRemaining
  {
    hide RecordExit, WaitAfter, LiveReason;
    var n := |exits| - 1;
    ToldOneWaits(pair, ToldExits(pair, state, exits[..n]), exits[n]);
    if i < n {
      ToldWaits(pair, state, exits[..n], i);
    } else if n > 0 {
      ToldWaits(pair, state, exits[..n], 0);
    }
  }

  lemma LogOfLast(exits: seq<ClosedPosition>)
    requires exits != []
    ensures LogOf(exits) == LogOf(exits[..|exits| - 1]) + [LoggedExit(exits[|exits| - 1])]
  {
  }

  lemma StreakOfLast(streak: int, exits: seq<ClosedPosition>)
    requires exits != []
    ensures StreakFrom(streak, exits) == StreakFrom(StreakFrom(streak, exits[..|exits| - 1]), [exits[|exits| - 1]])
  {
    assert [exits[|exits| - 1]][..0] == [];
  }

  lemma NoStreak(streak: int)
    ensures StreakFrom(streak, []) == streak
  {
  }

  lemma NothingLogged()
    ensures LogOf([]) == []
  {
  }

  lemma ToldOne(pair: PairConfig, state: SymbolState, exit: ClosedPosition)
    ensures var told := RecordExit(pair, state, LiveReason(exit.exitReason), DayOf(exit.closedAt), Some(exit.pnl));
            && told.actionedSweeps == state.actionedSweeps
            && told.risk.account.balance == state.risk.account.balance + exit.pnl
            && told.risk.tradeLog == state.risk.tradeLog + [LoggedExit(exit)]
            && told.risk.account.consecutiveLosses == StreakFrom(state.risk.account.consecutiveLosses, [exit])
  {
    hide RecordTrade, BrakesTrade;
    assert [exit][..0] == [];
    TradeByNumbers(state.risk, exit.pnl, DayOf(exit.closedAt), RiskReason(LiveReason(exit.exitReason)));
  }

  lemma {:induction false} ToldKeeps(pair: PairConfig, state: SymbolState, exits: seq<ClosedPosition>)
    ensures ToldExits(pair, state, exits).actionedSweeps == state.actionedSweeps
    ensures ToldExits(pair, state, exits).risk.account.balance == state.risk.account.balance + PnlSum(exits)
    ensures ToldExits(pair, state, exits).risk.tradeLog == state.risk.tradeLog + LogOf(exits)
    ensures ToldExits(pair, state, exits).risk.account.consecutiveLosses
         == StreakFrom(state.risk.account.consecutiveLosses, exits)
  {
    hide RecordExit, LoggedExit, LogOf, StreakFrom;
    if exits == [] {
      NothingLogged();
      NoStreak(state.risk.account.consecutiveLosses);
      assert state.risk.tradeLog + [] == state.risk.tradeLog;
    } else {
      var init, last := exits[..|exits| - 1], exits[|exits| - 1];
      ToldKeeps(pair, state, init);
      ToldOne(pair, ToldExits(pair, state, init), last);
      StreakOfLast(state.risk.account.consecutiveLosses, exits);
      LogOfLast(exits);
      assert state.risk.tradeLog + (LogOf(init) + [LoggedExit(last)]) == (state.risk.tradeLog + LogOf(init)) + [LoggedExit(last)];
    }
  }

  lemma {:induction false} PairPnlJoin(closed: seq<ClosedPosition>, closedOn: seq<string>, exits: seq<ClosedPosition>,
                                       symbol: string, other: string)
    requires |closed| == |closedOn|
    ensures PairPnl(closed + exits, closedOn + Same(symbol, |exits|), other)
         == PairPnl(closed, closedOn, other) + if other == symbol then PnlSum(exits) else 0.0
  {
    var all, allOn := closed + exits, closedOn + Same(symbol, |exits|);
    if exits == [] {
      assert all == closed && allOn == closedOn;
    } else {
      PairPnlJoin(closed, closedOn, exits[..|exits| - 1], symbol, other);
      assert all[..|all| - 1] == closed + exits[..|exits| - 1];
      assert allOn[..|allOn| - 1] == closedOn + Same(symbol, |exits| - 1);
    }
  }

  lemma {:induction false} PairLogJoin(closed: seq<ClosedPosition>, closedOn: seq<string>, exits: seq<ClosedPosition>,
                                       symbol: string, other: string)
    requires |closed| == |closedOn|
    ensures PairLog(closed + exits, closedOn + Same(symbol, |exits|), other)
         == PairLog(closed, closedOn, other) + if other == symbol then LogOf(exits) else []
  {
    var all, allOn := closed + exits, closedOn + Same(symbol, |exits|);
    if exits == [] {
      assert all == closed && allOn == closedOn;
    } else {
      var init := exits[..|exits| - 1];
      PairLogJoin(closed, closedOn, init, symbol, other);
      assert all[..|all| - 1] == closed + init;
      assert allOn[..|allOn| - 1] == closedOn + Same(symbol, |init|);
      LogOfLast(exits);
    }
  }

  lemma {:induction false} PairStreakJoin(closed: seq<ClosedPosition>, closedOn: seq<string>, exits: seq<ClosedPosition>,
                                          symbol: string, other: string)
    requires |closed| == |closedOn|
    ensures PairStreak(closed + exits, closedOn + Same(symbol, |exits|), other)
         == if other == symbol then StreakFrom(PairStreak(closed, closedOn, other), exits) else PairStreak(closed, closedOn, other)
  {
    var all, allOn := closed + exits, closedOn + Same(symbol, |exits|);
    if exits == [] {
      assert all == closed && allOn == closedOn;
    } else {
      hide StreakFrom;
      var init := exits[..|exits| - 1];
      PairStreakJoin(closed, closedOn, init, symbol, other);
      assert all[..|all| - 1] == closed + init;
      assert allOn[..|allOn| - 1] == closedOn + Same(symbol, |init|);
      StreakOfLast(PairStreak(closed, closedOn, other), exits);
    }
  }

  /** The broker appends a bar's exits to what has closed. */
  lemma CandleAppends(cfg: BrokerConfig, s: BrokerState, symbol: string, bar: Bar)
    ensures var closed := ProcessCandle(cfg, s, symbol, bar).closed; closed == s.closed + NewlyClosed(s.closed, closed)
  {
    PendingLimitsKeepMoney(cfg, s, symbol, bar.candle);
  }

  lemma ExitedKeeps(cfg: ReplayConfig, w: ReplayState, symbol: string, broker: BrokerState)
    requires OncePerSweep(w) && BrakesAgree(cfg, w)
    requires broker.closed == w.broker.closed + NewlyClosed(w.broker.closed, broker.closed)
    ensures OncePerSweep(Exited(cfg, w, symbol, broker)) && BrakesAgree(cfg, Exited(cfg, w, symbol, broker))
  {
    hide LogOf, LoggedExit, PairLog, PairPnl, PairStreak, StreakFrom, RecordExit;
    var exits := NewlyClosed(w.broker.closed, broker.closed);
    ToldKeeps(cfg.pairConfig(symbol), w.states(symbol), exits);
    forall other
      ensures PairPnl(broker.closed, w.closedOn + Same(symbol, |exits|), other)
           == PairPnl(w.broker.closed, w.closedOn, other) + if other == symbol then PnlSum(exits) else 0.0
      ensures PairLog(broker.closed, w.closedOn + Same(symbol, |exits|), other)
           == PairLog(w.broker.closed, w.closedOn, other) + if other == symbol then LogOf(exits) else []
      ensures PairStreak(broker.closed, w.closedOn + Same(symbol, |exits|), other)
           == if other == symbol then StreakFrom(PairStreak(w.broker.closed, w.closedOn, other), exits)
              else PairStreak(w.broker.closed, w.closedOn, other)
    {
      PairStreakJoin(w.broker.closed, w.closedOn, exits, symbol, other);
      PairPnlJoin(w.broker.closed, w.closedOn, exits, symbol, other);
      PairLogJoin(w.broker.closed, w.closedOn, exits, symbol, other);
    }
  }

  lemma {:induction false} StillOpenMembers(exitOf: OpenPosition -> Option<ClosedPosition>, list: seq<OpenPosition>)
    ensures forall p :: p in StillOpen(exitOf, list) ==> p in list
    ensures forall side :: CountSide(StillOpen(exitOf, list), side) <= CountSide(list, side)
  {
    if list != [] {
      var init, last := list[..|list| - 1], list[|list| - 1];
      var still := StillOpen(exitOf, init);
      StillOpenMembers(exitOf, init);
      assert list == init + [last];
      if exitOf(last).Some? {
        assert StillOpen(exitOf, list) == still;
      } else {
        assert StillOpen(exitOf, list)[..|still|] == still;
      }
    }
  }

  lemma ManageKeepsEntry(p: OpenPosition, bar: Bar)
    ensures var q := Manage(p, bar);
            && q.id == p.id && q.position.side == p.position.side
            && q.position.entryTime == p.position.entryTime && q.position.entryPrice == p.position.entryPrice
  {
  }

  lemma {:induction false} ManageKeepsSides(list: seq<OpenPosition>, bar: Bar)
    ensures forall side :: CountSide(ManageList(list, bar), side) == CountSide(list, side)
  {
    if list != [] {
      var init, last := list[..|list| - 1], list[|list| - 1];
      ManageKeepsSides(init, bar);
      ManageKeepsEntry(last, bar);
      assert ManageList(list, bar)[..|init|] == ManageList(init, bar);
    }
  }

  lemma ManagedOneSignal(list: seq<OpenPosition>, bar: Bar)
    requires OneSignalPerSide(list)
    ensures OneSignalPerSide(ManageList(list, bar))
  {
    hide Manage;
    ManageKeepsSides(list, bar);
    forall p | p in ManageList(list, bar)
      ensures exists q :: q in list && p.position.side == q.position.side
                          && p.position.entryTime == q.position.entryTime && p.position.entryPrice == q.position.entryPrice
    {
      var k :| 0 <= k < |list| && p == ManageList(list, bar)[k];
      ManageKeepsEntry(list[k], bar);
      assert list[k] in list;
    }
  }

  lemma ListOfWith(m: map<string, seq<OpenPosition>>, symbol: string, list: seq<OpenPosition>)
    ensures forall other ::
              ListOf(WithList(m, symbol, list), other) == if other == symbol then list else ListOf(m, other)
  {
  }

  lemma ExitsKeepSides(cfg: BrokerConfig, s: BrokerState, symbol: string, bar: Bar)
    requires forall other :: OneSignalPerSide(ListOf(s.positions, other))
    ensures forall other :: OneSignalPerSide(ListOf(ProcessOpen(cfg, s, symbol, bar).positions, other))
  {
    hide OneSignalPerSide, ListOf, WithList;
    var list := ListOf(s.positions, symbol);
    if list != [] {
      var managed := ManageList(list, bar);
      var exitOf := p => ExitOn(cfg, symbol, p, bar.candle);
      ManagedOneSignal(list, bar);
      StillOneSignal(exitOf, managed);
      ListOfWith(s.positions, symbol, StillOpen(exitOf, managed));
    }
  }

  /** Exits only take away: no count rises, and no list mixes signals. */
  lemma OpenKeepsMarket(cfg: ReplayConfig, s: BrokerState, symbol: string, bar: Bar)
    requires MarketBook(cfg, s)
    ensures MarketBook(cfg, ProcessOpen(cfg.broker, s, symbol, bar))
  {
    hide WithinLimit, OneSignalPerSide, ListOf;
    ExitsKeepSides(cfg.broker, s, symbol, bar);
    ProcessOpenShrinks(cfg.broker, s, symbol, bar);
    LimitShrinks(cfg, s, ProcessOpen(cfg.broker, s, symbol, bar));
  }

  lemma StillOneSignal(exitOf: OpenPosition -> Option<ClosedPosition>, list: seq<OpenPosition>)
    requires OneSignalPerSide(list)
    ensures OneSignalPerSide(StillOpen(exitOf, list))
  {
    StillOpenMembers(exitOf, list);
  }

  lemma LimitShrinks(cfg: ReplayConfig, s: BrokerState, s': BrokerState)
    requires WithinLimit(cfg, s) && TotalOpen(s'.positions) <= TotalOpen(s.positions)
    ensures WithinLimit(cfg, s')
  {
  }

  lemma ProcessOpenShrinks(cfg: BrokerConfig, s: BrokerState, symbol: string, bar: Bar)
    ensures TotalOpen(ProcessOpen(cfg, s, symbol, bar).positions) <= TotalOpen(s.positions)
  {
    var list := ListOf(s.positions, symbol);
    if list != [] {
      var managed := ManageList(list, bar);
      var exitOf := p => ExitOn(cfg, symbol, p, bar.candle);
      SameIds(list, managed);
      SplitIds(exitOf, managed);
      OpenIdsAt(s.positions, symbol);
      OpenIdsWith(s.positions, symbol, StillOpen(exitOf, managed));
    }
  }

  lemma BarKeeps(cfg: ReplayConfig, w: ReplayState, event: TimelineEvent)
    requires Placeable(cfg) && InStep(cfg, w)
    ensures InStep(cfg, AfterBar(cfg, w, event))
  {
    hide Conserves, OncePerSweep, BrakesAgree, ProcessCandle, MarketBook;
    var bar := BarOf(cfg, event);
    CandleAppends(cfg.broker, w.broker, event.symbol, bar);
    ExitedKeeps(cfg, w, event.symbol, ProcessCandle(cfg.broker, w.broker, event.symbol, bar));
    StepConserves(cfg.broker, w.broker, Call.Candle(event.symbol, bar), cfg.initialBalance);
    if cfg.broker.retrace.None? {
      MarketBar(cfg, w.broker, event.symbol, bar);
    }
  }

  lemma MarketBar(cfg: ReplayConfig, s: BrokerState, symbol: string, bar: Bar)
    requires MarketBook(cfg, s)
    ensures MarketBook(cfg, ProcessCandle(cfg.broker, s, symbol, bar))
  {
    OpenKeepsMarket(cfg, s, symbol, bar);
  }

  // ----- A close keeps it -----

  lemma EvaluateKeepsMoney(pair: PairConfig, risk: RiskConfig, state: SymbolState, close: M15Close)
    ensures Evaluate(pair, risk, state, close).0.risk.account.balance == state.risk.account.balance
    ensures Evaluate(pair, risk, state, close).0.risk.tradeLog == state.risk.tradeLog
    ensures Evaluate(pair, risk, state, close).0.risk.account.consecutiveLosses == state.risk.account.consecutiveLosses
  {
    if Processes(close.view) {
      var refreshed := Refreshed(pair, state, close);
      RiskRuns.AskFrame(risk, refreshed.risk, DayOf(close.view.now), close.ctx.totalOpenPositions);
      var risk' := CanTrade(risk, refreshed.risk, DayOf(close.view.now), close.ctx.totalOpenPositions).0;
      ScanEffect(pair, refreshed.(risk := risk'), close);
    }
  }

  /** A signal only comes below the position limit. */
  lemma SignalBelowLimit(pair: PairConfig, risk: RiskConfig, state: SymbolState, close: M15Close)
    requires Evaluate(pair, risk, state, close).1.Some?
    ensures close.ctx.totalOpenPositions < risk.maxOpenPositions
  {
    OffersExactlyWhen(pair, risk, state, close);
    RiskRuns.GateFacts(risk, state.risk, DayOf(close.view.now), close.ctx.totalOpenPositions);
  }

  /** Placing an order leaves what has closed alone. */
  lemma PlacedOrderFrame(cfg: BrokerConfig, s: BrokerState, symbol: string, order: Order, time: int)
    requires cfg.retrace.Some? ==> cfg.retrace.value.frac != 1.0
    ensures PlaceOrder(cfg, s, symbol, order, time).closed == s.closed
  {
    OpenLegsFrame(cfg, s, symbol, order, order.legs, order.entryPrice, time, 1.0);
  }

  /** `list'` is `list` with `n` positions more at its end, all of one side, time and price. */
  ghost predicate ListLonger(list: seq<OpenPosition>, list': seq<OpenPosition>, side: Side, time: int, price: real, n: nat) {
    && |list'| == |list| + n && list' == list + list'[|list|..]
    && (forall i :: |list| <= i < |list'| ==>
          && list'[i].position.side == side && list'[i].position.entryTime == time
          && list'[i].position.entryPrice == price)
  }

  ghost predicate Longer(s: BrokerState, s': BrokerState, symbol: string, side: Side, time: int, price: real, n: nat) {
    && ListLonger(ListOf(s.positions, symbol), ListOf(s'.positions, symbol), side, time, price, n)
    && (forall other :: other != symbol ==> ListOf(s'.positions, other) == ListOf(s.positions, other))
    && TotalOpen(s'.positions) == TotalOpen(s.positions) + n
    && s'.limits == s.limits
  }

  lemma OneOnList(list: seq<OpenPosition>, list1: seq<OpenPosition>, p: OpenPosition, n: nat)
    requires ListLonger(list, list1, p.position.side, p.position.entryTime, p.position.entryPrice, n)
    ensures ListLonger(list, list1 + [p], p.position.side, p.position.entryTime, p.position.entryPrice, n + 1)
  {
  }

  lemma OpenOneLists(s: BrokerState, symbol: string, p: Position)
    ensures var s' := OpenOne(s, symbol, p);
            && ListOf(s'.positions, symbol) == ListOf(s.positions, symbol) + [OpenPosition(s.nextId, p)]
            && (forall other :: other != symbol ==> ListOf(s'.positions, other) == ListOf(s.positions, other))
            && s'.limits == s.limits
  {
  }

  lemma OneLonger(s: BrokerState, s1: BrokerState, symbol: string, p: Position, n: nat)
    requires Longer(s, s1, symbol, p.side, p.entryTime, p.entryPrice, n)
    ensures Longer(s, OpenOne(s1, symbol, p), symbol, p.side, p.entryTime, p.entryPrice, n + 1)
  {
    hide TotalOpen, ListOf, ListLonger, OpenOne;
    OpenOneIds(s1, symbol, p);
    OpenOneLists(s1, symbol, p);
    OneOnList(ListOf(s.positions, symbol), ListOf(s1.positions, symbol), OpenPosition(s1.nextId, p), n);
  }

  lemma {:induction false} LegsList(cfg: BrokerConfig, s: BrokerState, symbol: string, order: Order,
                                    legs: seq<OrderLeg>, entryPrice: real, time: int, scale: real)
    ensures Longer(s, OpenLegs(cfg, s, symbol, order, legs, entryPrice, time, scale), symbol, order.side, time,
                   entryPrice, |legs|)
  {
    if legs != [] {
      hide Longer, OpenOne;
      var init := legs[..|legs| - 1];
      LegsList(cfg, s, symbol, order, init, entryPrice, time, scale);
      OneLonger(s, OpenLegs(cfg, s, symbol, order, init, entryPrice, time, scale), symbol,
                NewPosition(cfg, order, legs[|legs| - 1], entryPrice, time, scale), |init|);
    }
  }

  lemma {:induction false} CountSideJoin(a: seq<OpenPosition>, b: seq<OpenPosition>, side: Side)
    ensures CountSide(a + b, side) == CountSide(a, side) + CountSide(b, side)
  {
    if b == [] {
      assert a + b == a;
    } else {
      assert (a + b)[..|a + b| - 1] == a + b[..|b| - 1];
      CountSideJoin(a, b[..|b| - 1], side);
    }
  }

  lemma {:induction false} CountSideBounds(list: seq<OpenPosition>, side: Side)
    ensures CountSide(list, side) <= |list|
    ensures (forall i :: 0 <= i < |list| ==> list[i].position.side != side) ==> CountSide(list, side) == 0
  {
    if list != [] {
      CountSideBounds(list[..|list| - 1], side);
    }
  }

  /** New legs on a side with nothing open keep the signals apart. */
  lemma FreshSide(list: seq<OpenPosition>, legs: seq<OpenPosition>, side: Side, time: int, price: real)
    requires OneSignalPerSide(list) && side !in OpenSides(list) && |legs| <= 2
    requires forall i :: 0 <= i < |legs| ==>
               legs[i].position.side == side && legs[i].position.entryTime == time && legs[i].position.entryPrice == price
    ensures OneSignalPerSide(list + legs)
  {
    forall other
      ensures CountSide(list + legs, other) <= 2
    {
      CountSideJoin(list, legs, other);
      CountSideBounds(legs, other);
      if other == side {
        assert forall i :: 0 <= i < |list| ==> list[i].position.side in OpenSides(list);
        CountSideBounds(list, other);
      }
    }
    assert forall p :: p in list ==> p.position.side in OpenSides(list);
  }

  /** In market mode an order of at most two legs on a free side, placed below the limit, keeps the book. */
  lemma OrderKeepsMarket(cfg: ReplayConfig, s: BrokerState, symbol: string, order: Order, time: int)
    requires Placeable(cfg) && cfg.broker.retrace.None? && MarketBook(cfg, s)
    requires |order.legs| <= 2 && order.side !in OpenSides(ListOf(s.positions, symbol))
    requires TotalOpen(s.positions) < cfg.maxOpenPositions
    ensures MarketBook(cfg, PlaceOrder(cfg.broker, s, symbol, order, time))
  {
    hide OneSignalPerSide, ListOf, OpenLegs, TotalOpen, OpenSides;
    var s' := PlaceOrder(cfg.broker, s, symbol, order, time);
    var list, list' := ListOf(s.positions, symbol), ListOf(s'.positions, symbol);
    LegsList(cfg.broker, s, symbol, order, order.legs, order.entryPrice, time, 1.0);
    FreshSide(list, list'[|list|..], order.side, time, order.entryPrice);
  }

  lemma OrderKeepsOnce(cfg: ReplayConfig, w: ReplayState, symbol: string, signal: Signal, time: int)
    requires Placeable(cfg) && OncePerSweep(w)
    requires signal.legs != [] && signal.h1SweepTime !in w.states(symbol).actionedSweeps
    ensures OncePerSweep(AfterSignal(cfg, w, symbol, signal, time))
  {
    hide PlaceOrder, OrderOf;
  }

  lemma SignalKeeps(cfg: ReplayConfig, w: ReplayState, symbol: string, signal: Signal, time: int)
    requires Placeable(cfg) && InStep(cfg, w)
    requires 1 <= |signal.legs| <= 2 && signal.h1SweepTime !in w.states(symbol).actionedSweeps
    requires signal.side !in OpenSides(ListOf(w.broker.positions, symbol))
    requires TotalOpen(w.broker.positions) < cfg.maxOpenPositions
    ensures InStep(cfg, AfterSignal(cfg, w, symbol, signal, time))
  {
    hide Conserves, OncePerSweep, PlaceOrder, MarketBook, PairPnl, PairLog, PairStreak, TotalOpen, OpenSides;
    var order := OrderOf(signal, time);
    OrderKeepsOnce(cfg, w, symbol, signal, time);
    PlacedOrderFrame(cfg.broker, w.broker, symbol, order, time);
    StepConserves(cfg.broker, w.broker, Call.Place(symbol, order, time), cfg.initialBalance);
    if cfg.broker.retrace.None? {
      OrderKeepsMarket(cfg, w.broker, symbol, order, time);
    }
  }

  /** Evaluating moves neither the money nor the marks of any pair. */
  lemma StateKeeps(cfg: ReplayConfig, w: ReplayState, symbol: string, state: SymbolState)
    requires InStep(cfg, w)
    requires state.risk.account.balance == w.states(symbol).risk.account.balance
    requires state.risk.tradeLog == w.states(symbol).risk.tradeLog
    requires state.risk.account.consecutiveLosses == w.states(symbol).risk.account.consecutiveLosses
    requires state.actionedSweeps == w.states(symbol).actionedSweeps
    ensures InStep(cfg, w.(states := With(w.states, symbol, state)))
  {
    hide Conserves, MarketBook, PairPnl, PairLog, PairStreak;
  }

  lemma EvaluatedKeeps(cfg: ReplayConfig, w: ReplayState, symbol: string, close: M15Close)
    requires Placeable(cfg) && InStep(cfg, w) && close.ctx == ContextOf(w.broker, symbol)
    ensures InStep(cfg, Evaluated(cfg, w, symbol, close))
  {
    hide InStep, Evaluate, AfterSignal, TotalOpen, OpenSides;
    var pair, risk := cfg.pairConfig(symbol), RiskOf(cfg, symbol);
    var (state, signal) := Evaluate(pair, risk, w.states(symbol), close);
    EvaluateKeepsMoney(pair, risk, w.states(symbol), close);
    EvaluateOffersUntaken(pair, risk, w.states(symbol), close);
    StateKeeps(cfg, w, symbol, state);
    if signal.Some? {
      SignalBelowLimit(pair, risk, w.states(symbol), close);
      SignalKeeps(cfg, w.(states := With(w.states, symbol, state)), symbol, signal.value, close.view.now);
    }
  }

  lemma EventKeeps(cfg: ReplayConfig, w: ReplayState, bundle: Bundle, event: TimelineEvent, input: MarketInput)
    requires Placeable(cfg) && InStep(cfg, w)
    ensures InStep(cfg, AfterEvent(cfg, w, bundle, event, input))
  {
    hide InStep, AfterBar, Evaluated, ContextOf;
    BarKeeps(cfg, w, event);
    var w', cursor := AfterBar(cfg, w, event), CursorAt(bundle, event.candle.openTime);
    if EnoughBars(cursor) {
      EvaluatedKeeps(cfg, w', event.symbol, CloseOf(bundle, cursor, event, input, ContextOf(w'.broker, event.symbol)));
    }
  }

  /**
   At every event of a replay, whatever is signalled: the shared money is conserved; each pair's
   brake has booked exactly the exits of its pair; no sweep of a pair has been ordered twice; and
   in market mode at most one position more than the limit is open over all pairs, and each side
   of a pair holds the legs of one signal.
   */
  lemma {:induction false} ReplayStaysInStep(cfg: ReplayConfig, candles: map<string, Bundle>, inputs: nat -> MarketInput,
                                             timeline: seq<TimelineEvent>, n: nat)
    requires Placeable(cfg) && n <= |timeline|
    requires forall k :: 0 <= k < |timeline| ==> timeline[k].symbol in candles
    ensures InStep(cfg, Played(cfg, candles, inputs, timeline, n))
  {
    hide InStep, AfterEvent, AtStart;
    if n == 0 {
      StartsInStep(cfg);
    } else {
      ReplayStaysInStep(cfg, candles, inputs, timeline, n - 1);
      EventKeeps(cfg, Played(cfg, candles, inputs, timeline, n - 1), candles[timeline[n - 1].symbol], timeline[n - 1],
                 inputs(n - 1));
    }
  }

  lemma StartsInStep(cfg: ReplayConfig)
    ensures InStep(cfg, AtStart(cfg))
  {
  }

  // ----- The shared account and the brakes -----

  ghost predicate ClosedOnly(w: ReplayState, pairs: seq<string>) {
    forall i :: 0 <= i < |w.closedOn| ==> w.closedOn[i] in pairs
  }

  lemma EventClosesOnItsPair(cfg: ReplayConfig, w: ReplayState, bundle: Bundle, event: TimelineEvent, input: MarketInput,
                             pairs: seq<string>)
    requires Placeable(cfg) && ClosedOnly(w, pairs) && event.symbol in pairs
    ensures ClosedOnly(AfterEvent(cfg, w, bundle, event, input), pairs)
  {
    hide ProcessCandle, Evaluate, PlaceOrder, RecordEntry, OrderOf, ContextOf, CloseOf, CursorAt, With, ToldExits, NewlyClosed;
    var w' := AfterBar(cfg, w, event);
    assert ClosedOnly(w', pairs);
    assert AfterClose(cfg, w', bundle, event, input).closedOn == w'.closedOn;
  }

  lemma {:induction false} ClosedOnPairs(cfg: ReplayConfig, candles: map<string, Bundle>, inputs: nat -> MarketInput,
                                         timeline: seq<TimelineEvent>, n: nat)
    requires Placeable(cfg) && n <= |timeline|
    requires forall k :: 0 <= k < |timeline| ==> timeline[k].symbol in candles && timeline[k].symbol in cfg.pairs
    ensures ClosedOnly(Played(cfg, candles, inputs, timeline, n), cfg.pairs)
  {
    hide AfterEvent, ClosedOnly;
    if n == 0 {
      assert ClosedOnly(AtStart(cfg), cfg.pairs) by {
        NothingClosed(cfg);
      }
    } else {
      var event := timeline[n - 1];
      ClosedOnPairs(cfg, candles, inputs, timeline, n - 1);
      EventClosesOnItsPair(cfg, Played(cfg, candles, inputs, timeline, n - 1), candles[event.symbol], event, inputs(n - 1),
                           cfg.pairs);
    }
  }

  lemma NothingClosed(cfg: ReplayConfig)
    ensures ClosedOnly(AtStart(cfg), cfg.pairs)
  {
  }

  /** What the brakes of the pairs have gained over their starting balances. */
  function BrakeGains(cfg: ReplayConfig, w: ReplayState, pairs: seq<string>): real {
    if pairs == [] then 0.0
    else
      BrakeGains(cfg, w, pairs[..|pairs| - 1])
      + (w.states(pairs[|pairs| - 1]).risk.account.balance - cfg.initialBalance)
  }

  function PairsPnl(closed: seq<ClosedPosition>, closedOn: seq<string>, pairs: seq<string>): real
    requires |closed| == |closedOn|
  {
    if pairs == [] then 0.0
    else PairsPnl(closed, closedOn, pairs[..|pairs| - 1]) + PairPnl(closed, closedOn, pairs[|pairs| - 1])
  }

  ghost predicate Distinct(pairs: seq<string>) {
    forall i, j :: 0 <= i < j < |pairs| ==> pairs[i] != pairs[j]
  }

  lemma {:induction false} PairsPnlLast(closed: seq<ClosedPosition>, closedOn: seq<string>, pairs: seq<string>)
    requires |closed| == |closedOn| > 0 && Distinct(pairs)
    ensures PairsPnl(closed, closedOn, pairs)
         == PairsPnl(closed[..|closed| - 1], closedOn[..|closed| - 1], pairs)
            + if closedOn[|closed| - 1] in pairs then closed[|closed| - 1].pnl else 0.0
  {
    if pairs != [] {
      var init, last := pairs[..|pairs| - 1], pairs[|pairs| - 1];
      PairsPnlLast(closed, closedOn, init);
      assert pairs == init + [last];
    }
  }

  lemma {:induction false} NoPnl(pairs: seq<string>)
    ensures PairsPnl([], [], pairs) == 0.0
  {
    if pairs != [] {
      NoPnl(pairs[..|pairs| - 1]);
    }
  }

  lemma {:induction false} PairsShareAll(closed: seq<ClosedPosition>, closedOn: seq<string>, pairs: seq<string>)
    requires |closed| == |closedOn| && Distinct(pairs)
    requires forall i :: 0 <= i < |closedOn| ==> closedOn[i] in pairs
    ensures PairsPnl(closed, closedOn, pairs) == PnlSum(closed)
  {
    if closed == [] {
      NoPnl(pairs);
    } else {
      PairsShareAll(closed[..|closed| - 1], closedOn[..|closed| - 1], pairs);
      PairsPnlLast(closed, closedOn, pairs);
    }
  }

  lemma {:induction false} GainsArePnl(cfg: ReplayConfig, w: ReplayState, pairs: seq<string>)
    requires BrakesAgree(cfg, w)
    ensures BrakeGains(cfg, w, pairs) == PairsPnl(w.broker.closed, w.closedOn, pairs)
  {
    if pairs != [] {
      GainsArePnl(cfg, w, pairs[..|pairs| - 1]);
    }
  }

  /** At every event the shared account has gained exactly what the brakes of all pairs have booked together. */
  lemma AccountIsTheBrakes(cfg: ReplayConfig, candles: map<string, Bundle>, inputs: nat -> MarketInput,
                           timeline: seq<TimelineEvent>, n: nat)
    requires Placeable(cfg) && n <= |timeline| && Distinct(cfg.pairs)
    requires forall k :: 0 <= k < |timeline| ==> timeline[k].symbol in candles && timeline[k].symbol in cfg.pairs
    ensures var w := Played(cfg, candles, inputs, timeline, n);
            w.broker.balance == cfg.initialBalance + BrakeGains(cfg, w, cfg.pairs)
  {
    hide Played, MarketBook, OncePerSweep;
    var w := Played(cfg, candles, inputs, timeline, n);
    ReplayStaysInStep(cfg, candles, inputs, timeline, n);
    ClosedOnPairs(cfg, candles, inputs, timeline, n);
    GainsArePnl(cfg, w, cfg.pairs);
    PairsShareAll(w.broker.closed, w.closedOn, cfg.pairs);
  }
}
