/** What one event of a replay asks of the orchestrator and of the broker, told in numbers. */
module ReplayNumbers {
  import opened Market
  import opened RiskManagement
  import opened SmcOrchestration
  import opened SimulatedBroking
  import opened ReplayTimeline
  import opened ReplayWorlds
  import opened ReplayEngine

  /** The number of bars opened by a time, in time order. */
  ghost predicate OpenedBy(bars: seq<Candle>, time: int, n: int) {
    && 0 <= n <= |bars|
    && (forall i :: 0 <= i < n ==> bars[i].openTime <= time)
    && (forall i :: n <= i < |bars| ==> bars[i].openTime > time)
  }

  /** The close that the event presents: its own bar the last of `m15`, and `h1` closed bars. */
  ghost predicate Presents(close: M15Close, bundle: Bundle, s: BrokerState, event: TimelineEvent, input: MarketInput,
                           m15: int, h1: int)
    requires 0 <= h1 <= |bundle.h1|
  {
    && close.view.m15Count == m15 && |close.view.h1Times| == h1
    && (forall i :: 0 <= i < h1 ==> close.view.h1Times[i] == bundle.h1[i].openTime)
    && close.view.now == event.candle.openTime && close.view.lastClose == event.candle.close
    && close.view.spread == input.spread && close.view.m15Atr == input.m15Atr && close.view.d1Adx == input.d1Adx
    && close.view.inBlackout == input.inBlackout && close.oracle == input.oracle
    && close.ctx.totalOpenPositions == TotalOpen(s.positions)
    && (forall side :: side in close.ctx.openDirections <==>
          exists i :: 0 <= i < |ListOf(s.positions, event.symbol)|
                      && ListOf(s.positions, event.symbol)[i].position.side == side)
  }

  lemma CutOnce(bars: seq<Candle>, limit: int, n: int)
    requires OpenedBy(bars, limit, n)
    ensures CountUpTo(bars, limit) == n
  {
    CutIsCount(bars, limit, n);
  }

  lemma SidesAre(list: seq<OpenPosition>)
    ensures forall side :: side in OpenSides(list) <==> exists i :: 0 <= i < |list| && list[i].position.side == side
  {
    forall side | side in OpenSides(list)
      ensures exists i :: 0 <= i < |list| && list[i].position.side == side
    {
      var p :| p in list && p.position.side == side;
    }
    assert forall i :: 0 <= i < |list| ==> list[i] in list;
  }

  /**
   With thirty M15 bars opened by the event and thirty H1 bars closed within a millisecond after
   it, the orchestrator sees exactly those, the event's close and the book after the bar's exits,
   under a brake with the replay's balance, risk and limit, a daily loss of four percent and five
   losses; with fewer it is not asked.
   */
  lemma EventByNumbers(cfg: ReplayConfig, w: ReplayState, bundle: Bundle, event: TimelineEvent, input: MarketInput,
                       m15: int, h1: int)
    requires Placeable(cfg) && StrictlyIncreasing(bundle.m15) && event.candle in bundle.m15
    requires OpenedBy(bundle.m15, event.candle.openTime, m15)
    requires OpenedBy(bundle.h1, event.candle.openTime + 1 - 60 * 60 * 1000, h1)
    ensures var after, w' := AfterBar(cfg, w, event), AfterEvent(cfg, w, bundle, event, input);
            && (m15 < 30 || h1 < 30 ==> w' == after)
            && (m15 >= 30 && h1 >= 30 ==>
                  exists close :: Presents(close, bundle, after.broker, event, input, m15, h1)
                                  && w' == Evaluated(cfg, after, event.symbol, close))
    ensures RiskOf(cfg, event.symbol)
         == RiskConfig(cfg.initialBalance, cfg.riskPercent, 4.0, 5, cfg.maxOpenPositions,
                       cfg.broker.lotSizeUnits(event.symbol), cfg.broker.quotedInYen(event.symbol))
  {
    hide AfterBar, Evaluated, TotalOpen, CountUpTo, OpenSides;
    var after, cursor := AfterBar(cfg, w, event), CursorAt(bundle, event.candle.openTime);
    CutOnce(bundle.m15, event.candle.openTime, m15);
    CutOnce(bundle.h1, event.candle.openTime + 1 - 60 * 60 * 1000, h1);
    if m15 >= 30 && h1 >= 30 {
      LastVisibleIsTheEvents(bundle, event.candle, m15);
      SidesAre(ListOf(after.broker.positions, event.symbol));
      var close := CloseOf(bundle, cursor, event, input, ContextOf(after.broker, event.symbol));
      assert Presents(close, bundle, after.broker, event, input, m15, h1);
    }
  }

  /** The order of a signal: its side, prices and legs, the last one tagged as the runner and any other as the partial. */
  lemma OrderByNumbers(signal: Signal, time: int)
    ensures var order := OrderOf(signal, time);
            && order.side == signal.side && order.entryPrice == signal.entryPrice && order.slPrice == signal.slPrice
            && |order.legs| == |signal.legs|
            && (forall i :: 0 <= i < |order.legs| ==>
                  && order.legs[i].lotSize == signal.legs[i].lotSize && order.legs[i].tpPrice == signal.legs[i].tpPrice
                  && ("TP1" in order.legs[i].setupTags <==> i < |order.legs| - 1)
                  && ("RUNNER" in order.legs[i].setupTags <==> i == |order.legs| - 1)
                  && "RANGE_ENGINE" !in order.legs[i].setupTags && "FVG_FILL" !in order.legs[i].setupTags)
  {
    forall i | 0 <= i < |signal.legs|
      ensures var tags := OrderOf(signal, time).legs[i].setupTags;
              && ("TP1" in tags <==> i < |signal.legs| - 1) && ("RUNNER" in tags <==> i == |signal.legs| - 1)
              && "RANGE_ENGINE" !in tags && "FVG_FILL" !in tags
    {
      TagsAre(signal, time, if i + 1 < |signal.legs| then "TP1" else "RUNNER");
    }
  }

  lemma TagsAre(signal: Signal, time: int, last: string)
    requires last == "TP1" || last == "RUNNER"
    ensures var tags := Tags(signal, time, last);
            && ("TP1" in tags <==> last == "TP1") && ("RUNNER" in tags <==> last == "RUNNER")
            && "RANGE_ENGINE" !in tags && "FVG_FILL" !in tags
  {
    var tags := Tags(signal, time, last);
    assert tags[4] == last;
    assert "TP1" != "RUNNER" by {
      assert |"TP1"| != |"RUNNER"|;
    }
    assert forall i :: 0 <= i < 4 ==> tags[i] != "TP1" && tags[i] != "RUNNER" && tags[i] != "RANGE_ENGINE" && tags[i] != "FVG_FILL";
  }

  /** A placed signal is taken from its pair's queue and marked; no other pair changes. */
  lemma PlacedByNumbers(cfg: ReplayConfig, w: ReplayState, symbol: string, signal: Signal, time: int)
    requires Placeable(cfg) && signal.legs != []
    ensures var w' := AfterSignal(cfg, w, symbol, signal, time);
            && w'.broker == PlaceOrder(cfg.broker, w.broker, symbol, OrderOf(signal, time), time)
            && w'.states(symbol) == RecordEntry(w.states(symbol), signal)
            && (forall other :: other != symbol ==> w'.states(other) == w.states(other))
            && w'.orders == w.orders + [PlacedOrder(symbol, signal.h1SweepTime)]
  {
    hide PlaceOrder, RecordEntry, OrderOf;
  }

  /** What is still open on a pair at the end closes at the close of the pair's last M15 bar. */
  lemma FlushByNumbers(cfg: ReplayConfig, candles: map<string, Bundle>, s: BrokerState, symbol: string)
    requires symbol in candles && candles[symbol].m15 != []
    ensures var s', last := FlushedPair(cfg, candles, s, symbol), candles[symbol].m15[|candles[symbol].m15| - 1];
            var list := ListOf(s.positions, symbol);
            && |s'.closed| == |s.closed| + |list| && s'.closed[..|s.closed|] == s.closed
            && (forall i :: 0 <= i < |list| ==>
                  var c := s'.closed[|s.closed| + i];
                  && c.id == list[i].id && c.position == list[i].position && c.exitReason == FlushExit
                  && c.closePrice == last.close && c.closedAt == last.openTime
                  && c.pnl == CalcPnl(cfg.broker, symbol, list[i].position, last.close))
            && ListOf(s'.positions, symbol) == []
  {
    hide CalcPnl, TotalOpen;
  }
}
