/** The position limit of a replay is asked once per signal, not once per leg. */
module ReplayLimit {
  import opened Wrappers
  import opened Market
  import opened SmcOrchestration
  import opened OrchestratorRuns
  import opened SimulatedBroking
  import opened ReplayTimeline
  import opened ReplayWorlds
  import opened LadderExample

  /** In market mode a close leaves more than the limit open exactly when a ladder fires with one place free. */
  lemma LimitExceededExactlyWhen(cfg: ReplayConfig, w: ReplayState, symbol: string, close: M15Close)
    requires cfg.broker.retrace.None? && close.ctx == ContextOf(w.broker, symbol)
    requires TotalOpen(w.broker.positions) <= cfg.maxOpenPositions
    ensures TotalOpen(Evaluated(cfg, w, symbol, close).broker.positions) > cfg.maxOpenPositions <==>
              && Evaluate(cfg.pairConfig(symbol), RiskOf(cfg, symbol), w.states(symbol), close).1.Some?
              && cfg.pairConfig(symbol).tp1PartialFraction > 0.0
              && TotalOpen(w.broker.positions) == cfg.maxOpenPositions - 1
  {
    hide Evaluate, OpenLegs, TotalOpen, OpenSides, RecordEntry, OrderOf;
    var pair, risk := cfg.pairConfig(symbol), RiskOf(cfg, symbol);
    var signal := Evaluate(pair, risk, w.states(symbol), close).1;
    EvaluateOffersUntaken(pair, risk, w.states(symbol), close);
    if signal.Some? {
      var order := OrderOf(signal.value, close.view.now);
      SignalBelowLimit(pair, risk, w.states(symbol), close);
      LegsList(cfg.broker, w.broker, symbol, order, order.legs, order.entryPrice, close.view.now, 1.0);
    }
  }

  // ----- A replay of one event: a ladder pair and a limit of one -----

  function Flat(time: int): Candle {
    Candle.Candle(time, 2.0, 2.0, 2.0, 2.0)
  }

  /** Flat bars, `step` apart. */
  function Series(first: int, step: int, n: nat): seq<Candle> {
    seq(n, i => Flat(first + i * step))
  }

  const M15_FIRST := NOW - 29 * 15 * MS_PER_MINUTE

  /** Thirty closed H1 bars, and thirty M15 bars of which the last opens as the last H1 bar closes. */
  function Book(): Bundle {
    Bundle(Series(M15_FIRST, 15 * MS_PER_MINUTE, 30), Series(0, MS_PER_HOUR, 30), [])
  }

  function LastBar(symbol: string): TimelineEvent {
    TimelineEvent(symbol, Flat(NOW))
  }

  function SweepInput(): MarketInput {
    MarketInput(0.0, None, 0.0, false, SweepOracle())
  }

  /** A market replay of that one pair over that one bar, with a limit of one position. */
  ghost predicate IsLadderReplay(cfg: ReplayConfig, symbol: string) {
    && cfg.broker.retrace.None? && cfg.initialBalance > 0.0 && cfg.maxOpenPositions == 1
    && cfg.pairs == [symbol] && cfg.pairConfig(symbol) == Ladder() && cfg.startMs == cfg.endMs == NOW
  }

  lemma StepsApart(step: int, i: int, j: int)
    requires step > 0 && i < j
    ensures i * step < j * step
  {
  }

  lemma SeriesIncreases(first: int, step: int, n: nat)
    requires step > 0
    ensures StrictlyIncreasing(Series(first, step, n))
  {
    forall i, j | 0 <= i < j < n
      ensures Series(first, step, n)[i].openTime < Series(first, step, n)[j].openTime
    {
      StepsApart(step, i, j);
    }
  }

  lemma BookIsValid(symbol: string)
    ensures ValidBundles(map[symbol := Book()])
  {
    hide Series;
    SeriesIncreases(M15_FIRST, 15 * MS_PER_MINUTE, 30);
    SeriesIncreases(0, MS_PER_HOUR, 30);
  }

  /** All of a series is visible once its last bar is. */
  lemma SeriesCount(first: int, step: int, n: nat, limit: int)
    requires step > 0 && n > 0 && first + (n - 1) * step <= limit
    ensures CountUpTo(Series(first, step, n), limit) == n
  {
    forall i | 0 <= i < n
      ensures Series(first, step, n)[i].openTime <= limit
    {
      if i < n - 1 {
        StepsApart(step, i, n - 1);
      }
    }
    CutIsCount(Series(first, step, n), limit, n);
  }

  lemma {:induction false} NoneInWindow(symbol: string, bars: seq<Candle>, startMs: int, endMs: int)
    requires forall i :: 0 <= i < |bars| ==> !InWindow(bars[i], startMs, endMs)
    ensures EventsOf(symbol, bars, startMs, endMs) == []
  {
    if bars != [] {
      NoneInWindow(symbol, bars[..|bars| - 1], startMs, endMs);
    }
  }

  lemma OnlyLastInWindow(symbol: string, first: int, step: int, n: nat, last: int)
    requires step > 0 && n > 0 && first + (n - 1) * step == last
    ensures EventsOf(symbol, Series(first, step, n), last, last) == [TimelineEvent(symbol, Flat(last))]
  {
    var init := Series(first, step, n)[..n - 1];
    forall i | 0 <= i < |init|
      ensures !InWindow(init[i], last, last)
    {
      StepsApart(step, i, n - 1);
    }
    NoneInWindow(symbol, init, last, last);
  }

  lemma OnePair(symbol: string, bundle: Bundle, event: TimelineEvent, now: int)
    requires EventsOf(symbol, bundle.m15, now, now) == [event]
    ensures StableSort(Collected([symbol], map[symbol := bundle], now, now)) == [event]
  {
    assert [symbol][..0] == [] && Collected([], map[symbol := bundle], now, now) == [];
    assert Collected([symbol], map[symbol := bundle], now, now) == [event];
    assert [event][..0] == [] && StableSort([]) == [];
  }

  lemma OneEvent(cfg: ReplayConfig, symbol: string)
    requires IsLadderReplay(cfg, symbol)
    ensures Timeline(cfg, map[symbol := Book()]) == [LastBar(symbol)]
  {
    hide EventsOf, StableSort, Collected, Series;
    OnlyLastInWindow(symbol, M15_FIRST, 15 * MS_PER_MINUTE, 30, NOW);
    OnePair(symbol, Book(), LastBar(symbol), NOW);
  }

  lemma CursorIsFull()
    ensures CursorAt(Book(), NOW) == Cursor(30, 30, 0)
  {
    hide Series, CountUpTo;
    SeriesCount(M15_FIRST, 15 * MS_PER_MINUTE, 30, NOW);
    SeriesCount(0, MS_PER_HOUR, 30, NOW + 1 - MS_PER_HOUR);
    assert CountUpTo([], NOW + 1 - MS_PER_DAY) == 0 by {
      NoBars(NOW + 1 - MS_PER_DAY);
    }
  }

  lemma NoBars(limit: int)
    ensures CountUpTo([], limit) == 0
  {
  }

  lemma CloseIsFirst(symbol: string)
    ensures CloseOf(Book(), Cursor(30, 30, 0), LastBar(symbol), SweepInput(), LiveContext({}, 0)) == FirstClose()
  {
    assert TimesUpTo(Book().h1, 30) == seq(30, i => i * MS_PER_HOUR);
  }

  lemma QuietBar(cfg: ReplayConfig, symbol: string)
    ensures var w := AfterBar(cfg, AtStart(cfg), LastBar(symbol));
            && w.broker == AtStart(cfg).broker && w.states(symbol) == FreshSymbol(RiskOf(cfg, symbol))
            && TotalOpen(w.broker.positions) == 0 && ContextOf(w.broker, symbol) == LiveContext({}, 0)
  {
  }

  lemma OneEventAfter(cfg: ReplayConfig, symbol: string)
    requires Placeable(cfg)
    ensures AfterEvent(cfg, AtStart(cfg), Book(), LastBar(symbol), SweepInput())
         == Evaluated(cfg, AfterBar(cfg, AtStart(cfg), LastBar(symbol)), symbol, FirstClose())
  {
    hide Evaluated, AfterBar, AtStart, ContextOf, Book, CloseOf, SweepInput, CursorAt, FirstClose;
    QuietBar(cfg, symbol);
    CursorIsFull();
    CloseIsFirst(symbol);
  }

  lemma FirstPlayed(cfg: ReplayConfig, candles: map<string, Bundle>, inputs: nat -> MarketInput, event: TimelineEvent)
    requires Placeable(cfg) && event.symbol in candles
    ensures Played(cfg, candles, inputs, [event], 1)
         == AfterEvent(cfg, AtStart(cfg), candles[event.symbol], event, inputs(0))
  {
    hide AfterEvent, AtStart;
    assert Played(cfg, candles, inputs, [event], 0) == AtStart(cfg);
  }

  lemma OneEventOpensTwo(cfg: ReplayConfig, symbol: string)
    requires IsLadderReplay(cfg, symbol)
    ensures TotalOpen(Evaluated(cfg, AfterBar(cfg, AtStart(cfg), LastBar(symbol)), symbol, FirstClose()).broker.positions)
         == 2
  {
    hide TotalOpen, Evaluate, Evaluated, AfterBar, AtStart, ContextOf, FirstClose, InStep;
    var w := AfterBar(cfg, AtStart(cfg), LastBar(symbol));
    QuietBar(cfg, symbol);
    FirstCloseOffers(RiskOf(cfg, symbol));
    assert FirstClose().ctx == LiveContext({}, 0) by {
      FirstContext();
    }
    LimitExceededExactlyWhen(cfg, w, symbol, FirstClose());
    StartsInStep(cfg);
    BarKeeps(cfg, AtStart(cfg), LastBar(symbol));
    EvaluatedKeeps(cfg, w, symbol, FirstClose());
    AtMostTwo(cfg, Evaluated(cfg, w, symbol, FirstClose()));
  }

  lemma FirstContext()
    ensures FirstClose().ctx == LiveContext({}, 0)
  {
  }

  /** The one event of this replay leaves two positions open where the limit is one. */
  lemma LadderExceedsLimit(cfg: ReplayConfig, symbol: string)
    requires IsLadderReplay(cfg, symbol)
    ensures var candles := map[symbol := Book()];
            && ValidBundles(candles) && Timeline(cfg, candles) == [LastBar(symbol)]
            && TotalOpen(Played(cfg, candles, n => SweepInput(), [LastBar(symbol)], 1).broker.positions) == 2
  {
    hide TotalOpen, AfterEvent, Evaluated, AfterBar, AtStart, Book, Played, Timeline, ValidBundles, SweepInput, FirstClose;
    BookIsValid(symbol);
    OneEvent(cfg, symbol);
    FirstPlayed(cfg, map[symbol := Book()], n => SweepInput(), LastBar(symbol));
    OneEventAfter(cfg, symbol);
    OneEventOpensTwo(cfg, symbol);
  }

  lemma AtMostTwo(cfg: ReplayConfig, w: ReplayState)
    requires cfg.broker.retrace.None? && InStep(cfg, w) && cfg.maxOpenPositions == 1
    ensures TotalOpen(w.broker.positions) <= 2
  {
  }
}
