/** What the positions of a replay's broker can lose, each against the leg as it was filled. */
module ReplayLosses {
  import opened Wrappers
  import opened Market
  import opened PositionSimulator
  import opened PositionExits
  import opened SmcOrchestration
  import opened SimulatedBroking
  import opened ReplayTimeline
  import opened ReplayWorlds

  /**
   A stop-out loses at most the initial risk and, once breakeven is active, earns a tenth of it;
   a target on its proper side never loses: within half a cent. Flushed positions are not bounded.
   */
  ghost predicate WithinRisk(p: Position, exit: ClosedPosition, units: real) {
    var atRisk := InitialRisk(p, units);
    && (exit.exitReason == SlExit ==> exit.pnl >= -atRisk - 0.005)
    && (exit.exitReason == SlExit && exit.position.breakevenActivated ==> exit.pnl >= 0.1 * atRisk - 0.005)
    && (exit.exitReason == TpExit && p.tpPrice.Some? && MoveTo(p, p.tpPrice.value) >= 0.0 ==> exit.pnl >= -0.005)
  }

  /** The bound, for legs with a lot on symbols that are not quoted in yen. */
  ghost predicate BoundedExit(cfg: BrokerConfig, leg: FilledLeg, exit: ClosedPosition) {
    leg.position.lotSize >= 0.0 && !cfg.quotedInYen(leg.symbol) && cfg.lotSizeUnits(leg.symbol) >= 0.0 ==>
      WithinRisk(leg.position, exit, cfg.lotSizeUnits(leg.symbol))
  }

  /** The open position descends from the leg filled under its id on this symbol. */
  ghost predicate FromLeg(s: BrokerState, symbol: string, t: OpenPosition) {
    && t.id < s.nextId && t.id in s.filledAs && s.filledAs[t.id].symbol == symbol
    && Descends(s.filledAs[t.id].position, t.position)
  }

  ghost predicate AllFromLegs(s: BrokerState) {
    forall symbol, i :: 0 <= i < |ListOf(s.positions, symbol)| ==> FromLeg(s, symbol, ListOf(s.positions, symbol)[i])
  }

  ghost predicate ExitFromLeg(cfg: BrokerConfig, s: BrokerState, exit: ClosedPosition) {
    exit.id < s.nextId && exit.id in s.filledAs && BoundedExit(cfg, s.filledAs[exit.id], exit)
  }

  /** Every open position descends from its leg, and every exit is bounded by the risk of its leg. */
  ghost predicate LossesBounded(cfg: BrokerConfig, s: BrokerState) {
    && AllFromLegs(s)
    && (forall i :: 0 <= i < |s.closed| ==> ExitFromLeg(cfg, s, s.closed[i]))
  }

  // ----- Fills -----

  lemma OpenOneBounded(cfg: BrokerConfig, s: BrokerState, symbol: string, p: Position)
    requires LossesBounded(cfg, s) && Untouched(p)
    ensures LossesBounded(cfg, OpenOne(s, symbol, p))
  {
    hide BoundedExit, TotalOpen;
    var s' := OpenOne(s, symbol, p);
    var list := ListOf(s.positions, symbol);
    assert Descends(p, p);
    assert ListOf(s'.positions, symbol) == list + [OpenPosition(s.nextId, p)];
    forall other, i | 0 <= i < |ListOf(s'.positions, other)|
      ensures FromLeg(s', other, ListOf(s'.positions, other)[i])
    {
      if other != symbol || i < |list| {
        assert FromLeg(s, other, ListOf(s.positions, other)[i]);
      }
    }
    forall i | 0 <= i < |s'.closed|
      ensures ExitFromLeg(cfg, s', s'.closed[i])
    {
      assert ExitFromLeg(cfg, s, s.closed[i]);
    }
  }

  lemma NewIsUntouched(cfg: BrokerConfig, order: Order, leg: OrderLeg, entryPrice: real, time: int, scale: real)
    ensures Untouched(NewPosition(cfg, order, leg, entryPrice, time, scale))
  {
  }

  lemma {:induction false} LegsBounded(cfg: BrokerConfig, s: BrokerState, symbol: string, order: Order,
                                       legs: seq<OrderLeg>, entryPrice: real, time: int, scale: real)
    requires LossesBounded(cfg, s)
    ensures LossesBounded(cfg, OpenLegs(cfg, s, symbol, order, legs, entryPrice, time, scale))
  {
    if legs != [] {
      hide LossesBounded, Untouched, NewPosition, OpenOne;
      var init, last := legs[..|legs| - 1], legs[|legs| - 1];
      LegsBounded(cfg, s, symbol, order, init, entryPrice, time, scale);
      NewIsUntouched(cfg, order, last, entryPrice, time, scale);
      OpenOneBounded(cfg, OpenLegs(cfg, s, symbol, order, init, entryPrice, time, scale), symbol,
                     NewPosition(cfg, order, last, entryPrice, time, scale));
    }
  }

  lemma FillBounded(cfg: BrokerConfig, s: BrokerState, symbol: string, order: Order, entryPrice: real, time: int,
                    scale: real)
    requires LossesBounded(cfg, s)
    ensures LossesBounded(cfg, FillAt(cfg, s, symbol, order, entryPrice, time, scale))
  {
    hide OpenLegs, BoundedExit, Descends;
    LegsBounded(cfg, s, symbol, order, order.legs, entryPrice, time, scale);
    var s' := OpenLegs(cfg, s, symbol, order, order.legs, entryPrice, time, scale);
    SameBook(cfg, s', Marked(s'));
  }

  /** Only the book, the closed list and the history matter. */
  lemma SameBook(cfg: BrokerConfig, s: BrokerState, s': BrokerState)
    requires LossesBounded(cfg, s)
    requires s'.positions == s.positions && s'.closed == s.closed && s'.nextId == s.nextId && s'.filledAs == s.filledAs
    ensures LossesBounded(cfg, s')
  {
    hide BoundedExit, Descends;
    forall symbol, i | 0 <= i < |ListOf(s'.positions, symbol)|
      ensures FromLeg(s', symbol, ListOf(s'.positions, symbol)[i])
    {
      assert FromLeg(s, symbol, ListOf(s.positions, symbol)[i]);
    }
    forall i | 0 <= i < |s'.closed|
      ensures ExitFromLeg(cfg, s', s'.closed[i])
    {
      assert ExitFromLeg(cfg, s, s.closed[i]);
    }
  }

  lemma {:induction false} FillTouchedBounded(cfg: BrokerConfig, s: BrokerState, symbol: string, list: seq<ParkedLimit>,
                                              candle: Candle)
    requires LossesBounded(cfg, s)
    ensures LossesBounded(cfg, FillTouched(cfg, s, symbol, list, candle))
  {
    if list != [] {
      hide LossesBounded, FillAt;
      var init, last := list[..|list| - 1], list[|list| - 1];
      FillTouchedBounded(cfg, s, symbol, init, candle);
      if Touches(last, candle) {
        FillBounded(cfg, FillTouched(cfg, s, symbol, init, candle), symbol, last.order, last.limitPrice, candle.openTime,
                    last.scale);
      }
    }
  }

  // ----- Exits -----

  lemma StopPnl(p: Position, q: Position, units: real)
    requires Descends(p, q) && p.lotSize >= 0.0 && units >= 0.0
    ensures var pnl := CalculatePnl(q, q.slPrice, 0.0, units, false);
            && pnl >= -InitialRisk(p, units) - 0.005
            && (q.breakevenActivated ==> pnl >= 0.1 * InitialRisk(p, units) - 0.005)
  {
    hide CalculatePnl;
    RiskNonNegative(Risk(p), p.lotSize, units);
    PnlAtLeast(q, q.slPrice, 0.0, units, if q.breakevenActivated then 0.1 else -1.0, Risk(p));
  }

  lemma TargetPnl(p: Position, q: Position, units: real)
    requires Descends(p, q) && p.lotSize >= 0.0 && units >= 0.0
    requires q.tpPrice.Some? && MoveTo(p, q.tpPrice.value) >= 0.0
    ensures CalculatePnl(q, q.tpPrice.value, 0.0, units, false) >= -0.005
  {
    hide CalculatePnl;
    PnlAtLeast(q, q.tpPrice.value, 0.0, units, 0.0, Risk(p));
    assert 0.0 * (Risk(p) * p.lotSize * units) == 0.0;
  }

  lemma TargetKept(p: Position, q: Position)
    requires Descends(p, q)
    ensures q.tpPrice.Some? ==> q.tpPrice == p.tpPrice
  {
  }

  lemma ExitWithin(cfg: BrokerConfig, leg: FilledLeg, t: OpenPosition, candle: Candle)
    requires Descends(leg.position, t.position)
    ensures var exit := ExitOn(cfg, leg.symbol, t, candle);
            exit.Some? ==> exit.value.id == t.id && BoundedExit(cfg, leg, exit.value)
  {
    var p, q, units := leg.position, t.position, cfg.lotSizeUnits(leg.symbol);
    if p.lotSize >= 0.0 && !cfg.quotedInYen(leg.symbol) && units >= 0.0 {
      hide CalculatePnl, Descends, InitialRisk, MoveTo;
      StopPnl(p, q, units);
      TargetKept(p, q);
      if q.tpPrice.Some? && MoveTo(p, q.tpPrice.value) >= 0.0 {
        TargetPnl(p, q, units);
      }
    }
  }

  lemma {:induction false} ClosingMembers(exitOf: OpenPosition -> Option<ClosedPosition>, list: seq<OpenPosition>)
    ensures forall exit :: exit in Closing(exitOf, list) ==> exists t :: t in list && exitOf(t) == Some(exit)
  {
    if list != [] {
      ClosingMembers(exitOf, list[..|list| - 1]);
      assert list == list[..|list| - 1] + [list[|list| - 1]];
    }
  }

  /** Settling keeps the bounds when what stays and what closes descend from legs of the symbol. */
  lemma SettleBounded(cfg: BrokerConfig, s: BrokerState, symbol: string, still: seq<OpenPosition>,
                      done: seq<ClosedPosition>)
    requires LossesBounded(cfg, s)
    requires forall i :: 0 <= i < |still| ==> FromLeg(s, symbol, still[i])
    requires forall i :: 0 <= i < |done| ==> ExitFromLeg(cfg, s, done[i])
    ensures LossesBounded(cfg, Settle(s, symbol, still, done))
  {
    hide BoundedExit, Descends, TotalOpen, ListOf, WithList;
    var s' := Settle(s, symbol, still, done);
    ListOfWith(s.positions, symbol, still);
    forall other, i | 0 <= i < |ListOf(s'.positions, other)|
      ensures FromLeg(s', other, ListOf(s'.positions, other)[i])
    {
      assert other != symbol ==> FromLeg(s, other, ListOf(s.positions, other)[i]);
      assert other == symbol ==> FromLeg(s, symbol, still[i]);
    }
    forall i | 0 <= i < |s'.closed|
      ensures ExitFromLeg(cfg, s', s'.closed[i])
    {
      assert ExitFromLeg(cfg, s, if i < |s.closed| then s.closed[i] else done[i - |s.closed|]);
    }
  }

  lemma ManageFromLeg(s: BrokerState, symbol: string, t: OpenPosition, bar: Bar)
    requires FromLeg(s, symbol, t)
    ensures FromLeg(s, symbol, Manage(t, bar))
  {
    hide Descends, UpdatePositionManagement;
    ManagementDescends(s.filledAs[t.id].position, t.position, bar);
  }

  lemma ExitOfLeg(cfg: BrokerConfig, s: BrokerState, symbol: string, t: OpenPosition, candle: Candle)
    requires FromLeg(s, symbol, t)
    ensures var exit := ExitOn(cfg, symbol, t, candle); exit.Some? ==> ExitFromLeg(cfg, s, exit.value)
  {
    hide Descends, ExitOn, BoundedExit;
    ExitWithin(cfg, s.filledAs[t.id], t, candle);
  }

  lemma ProcessOpenBounded(cfg: BrokerConfig, s: BrokerState, symbol: string, bar: Bar)
    requires LossesBounded(cfg, s)
    ensures LossesBounded(cfg, ProcessOpen(cfg, s, symbol, bar))
  {
    var list := ListOf(s.positions, symbol);
    if list != [] {
      hide FromLeg, ExitFromLeg, Manage, ExitOn, Settle;
      var managed := ManageList(list, bar);
      var exitOf := p => ExitOn(cfg, symbol, p, bar.candle);
      forall t | t in managed
        ensures FromLeg(s, symbol, t) && (exitOf(t).Some? ==> ExitFromLeg(cfg, s, exitOf(t).value))
      {
        var i :| 0 <= i < |list| && t == Manage(list[i], bar);
        ManageFromLeg(s, symbol, list[i], bar);
        ExitOfLeg(cfg, s, symbol, t, bar.candle);
      }
      StillOpenMembers(exitOf, managed);
      ClosingMembers(exitOf, managed);
      forall i | 0 <= i < |StillOpen(exitOf, managed)|
        ensures FromLeg(s, symbol, StillOpen(exitOf, managed)[i])
      {
        assert StillOpen(exitOf, managed)[i] in managed;
      }
      forall i | 0 <= i < |Closing(exitOf, managed)|
        ensures ExitFromLeg(cfg, s, Closing(exitOf, managed)[i])
      {
        assert Closing(exitOf, managed)[i] in Closing(exitOf, managed);
      }
      SettleBounded(cfg, s, symbol, StillOpen(exitOf, managed), Closing(exitOf, managed));
    }
  }

  lemma FlushBounded(cfg: BrokerConfig, s: BrokerState, symbol: string, price: real, time: int)
    requires LossesBounded(cfg, s)
    ensures LossesBounded(cfg, CloseAllForSymbol(cfg, s, symbol, price, time))
  {
    hide Settle, CalcPnl, Descends;
    var list := ListOf(s.positions, symbol);
    var done := FlushList(cfg, symbol, list, price, time);
    forall i | 0 <= i < |done|
      ensures ExitFromLeg(cfg, s, done[i])
    {
      assert FromLeg(s, symbol, list[i]) && done[i].exitReason == FlushExit;
    }
    SettleBounded(cfg, s, symbol, [], done);
  }

  // ----- Runs -----

  lemma CandleBounded(cfg: BrokerConfig, s: BrokerState, symbol: string, bar: Bar)
    requires LossesBounded(cfg, s)
    ensures LossesBounded(cfg, ProcessCandle(cfg, s, symbol, bar))
  {
    hide LossesBounded, FillTouched, ProcessOpen;
    var list := ListOf(s.limits, symbol);
    var s1 := ProcessPendingLimits(cfg, s, symbol, bar.candle);
    FillTouchedBounded(cfg, s, symbol, list, bar.candle);
    if list != [] {
      SameBook(cfg, FillTouched(cfg, s, symbol, list, bar.candle), s1);
    }
    ProcessOpenBounded(cfg, s1, symbol, bar);
  }

  lemma OrderBounded(cfg: BrokerConfig, s: BrokerState, symbol: string, order: Order, time: int)
    requires cfg.retrace.Some? ==> cfg.retrace.value.frac != 1.0
    requires LossesBounded(cfg, s)
    ensures LossesBounded(cfg, PlaceOrder(cfg, s, symbol, order, time))
  {
    hide LossesBounded, FillAt;
    if cfg.retrace.Some? {
      SameBook(cfg, s, PlaceOrder(cfg, s, symbol, order, time));
    } else {
      FillBounded(cfg, s, symbol, order, order.entryPrice, time, 1.0);
    }
  }

  /** After any calls on the broker, every exit is bounded by the risk of the leg filled under its id. */
  lemma {:induction false} BrokerLossBound(cfg: BrokerConfig, initialBalance: real, calls: seq<Call>)
    requires cfg.retrace.Some? ==> cfg.retrace.value.frac != 1.0
    ensures LossesBounded(cfg, Run(cfg, initialBalance, calls))
  {
    if calls != [] {
      hide LossesBounded, ProcessCandle, PlaceOrder, CloseAllForSymbol;
      var s, call := Run(cfg, initialBalance, calls[..|calls| - 1]), calls[|calls| - 1];
      BrokerLossBound(cfg, initialBalance, calls[..|calls| - 1]);
      match call {
        case Candle(symbol, bar) => CandleBounded(cfg, s, symbol, bar);
        case Place(symbol, order, time) => OrderBounded(cfg, s, symbol, order, time);
        case CloseAll(symbol, price, time) => FlushBounded(cfg, s, symbol, price, time);
      }
    }
  }

  lemma EventBounded(cfg: ReplayConfig, w: ReplayState, bundle: Bundle, event: TimelineEvent, input: MarketInput)
    requires Placeable(cfg) && LossesBounded(cfg.broker, w.broker)
    ensures LossesBounded(cfg.broker, AfterEvent(cfg, w, bundle, event, input).broker)
  {
    hide LossesBounded, ProcessCandle, PlaceOrder, Evaluate, CloseOf, ContextOf, OrderOf, RecordEntry, CursorAt;
    CandleBounded(cfg.broker, w.broker, event.symbol, BarOf(cfg, event));
    var w1, cursor := AfterBar(cfg, w, event), CursorAt(bundle, event.candle.openTime);
    if EnoughBars(cursor) {
      var close := CloseOf(bundle, cursor, event, input, ContextOf(w1.broker, event.symbol));
      var signal := Evaluate(cfg.pairConfig(event.symbol), RiskOf(cfg, event.symbol), w1.states(event.symbol), close).1;
      if signal.Some? {
        OrderBounded(cfg.broker, w1.broker, event.symbol, OrderOf(signal.value, close.view.now), close.view.now);
      }
    }
  }

  /** At every event of a replay, whatever is signalled, the same. */
  lemma {:induction false} ReplayLossBound(cfg: ReplayConfig, candles: map<string, Bundle>, inputs: nat -> MarketInput,
                                           timeline: seq<TimelineEvent>, n: nat)
    requires Placeable(cfg) && n <= |timeline|
    requires forall k :: 0 <= k < |timeline| ==> timeline[k].symbol in candles
    ensures LossesBounded(cfg.broker, Played(cfg, candles, inputs, timeline, n).broker)
  {
    hide LossesBounded, AfterEvent;
    if n == 0 {
      StartsBounded(cfg);
    } else {
      ReplayLossBound(cfg, candles, inputs, timeline, n - 1);
      EventBounded(cfg, Played(cfg, candles, inputs, timeline, n - 1), candles[timeline[n - 1].symbol], timeline[n - 1],
                   inputs(n - 1));
    }
  }

  lemma StartsBounded(cfg: ReplayConfig)
    ensures LossesBounded(cfg.broker, AtStart(cfg).broker)
  {
  }
}
