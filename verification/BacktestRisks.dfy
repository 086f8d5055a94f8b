/**
 What the positions of one signal risk together in a run of the backtest: a split entry, and a
 scale-in whose stop lies at its parent's entry.
 */
module BacktestRisks {
  import opened Wrappers
  import opened Numbers
  import opened Market
  import opened Calendar
  import opened PositionSimulator
  import opened PositionExits
  import opened RiskManagement
  import opened LotSizing
  import opened SimulatedBroking
  import opened Metrics
  import opened BacktestEngine

  // ----- The first bar -----

  /** The brakes of a pair that has just started let it trade. */
  ghost predicate StartsOpen(config: RiskConfig) {
    && config.initialBalance > 0.0 && config.maxDailyLossPercent > 0.0
    && config.maxConsecutiveLosses > 0 && config.maxOpenPositions > 0
  }

  lemma FirstAsk(config: RiskConfig, date: int)
    requires StartsOpen(config)
    ensures var (risk, ok) := CanTrade(config, InitialState(config), date, 0);
            && ok && risk.account == InitialAccount(config) && risk.tradeLog == []
            && risk.overallPeakEquity == config.initialBalance
  {
    RiskRuns.AskFrame(config, InitialState(config), date, 0);
  }

  /** Before the entry of the first bar nothing happens. */
  lemma FirstBarIsQuiet(cfg: EngineConfig, input: BarInput)
    ensures var s := EmptyBook(cfg).(lastDate := Some(DayOf(input.bar.candle.openTime)));
            StepBar(cfg, EmptyBook(cfg), input, 0) == Entered(cfg, s, input, 0)
  {
    hide Entered;
    var day := NewDay(EmptyBook(cfg), DayOf(input.bar.candle.openTime));
    var managed := Managed(day, input.bar);
    assert managed == day;
    assert MaxBarsSwept(cfg, managed, input, 0) == managed;
    assert Swept(managed, ExitSweep(cfg, input.bar, 0)) == managed;
    assert ScaledIn(cfg, managed, input, 0) == managed;
  }

  /** The first bar opens what its signal asks for. */
  lemma FirstBarEnters(cfg: EngineConfig, input: BarInput)
    requires StartsOpen(cfg.risk) && !input.inBlackout && input.signal.Some? && input.signal.value.lotSize > 0.0
    ensures var date := DayOf(input.bar.candle.openTime);
            var asked := CanTrade(cfg.risk, InitialState(cfg.risk), date, 0).0;
            var s := EmptyBook(cfg).(lastDate := Some(date), risk := asked);
            RunBars(cfg, [input])
            == OpenAll(s, NewPositions(cfg, input.signal.value, input.bar.candle, 0)).(cool := s.cool.(until := 1))
  {
    hide CanTrade, NewPositions, OpenAll, StepBar;
    assert [input][..0] == [];
    assert RunBars(cfg, []) == EmptyBook(cfg);
    FirstBarIsQuiet(cfg, input);
    FirstAsk(cfg.risk, DayOf(input.bar.candle.openTime));
  }

  // ----- A split entry -----

  lemma OpenTwo(s: Book, p: Position, q: Position)
    requires s.open == []
    ensures OpenAll(s, [p, q]).open == [OpenPosition(s.nextId, p), OpenPosition(s.nextId + 1, q)]
  {
    assert [p, q][..1] == [p] && [p][..0] == [];
    assert OpenAll(s, [p]) == Joined(OpenAll(s, []), p);
  }

  /**
   One bar of a backtest whose signal carries the lot sized for it: the runner with 1.00 lots
   and the locker with 0.30 are open together, both with a stop forty points away.
   */
  lemma SplitRunExceedsSizedRisk(cfg: EngineConfig, input: BarInput)
    requires cfg.risk.initialBalance == 10000.0 && cfg.risk.riskPercent == 4.0
    requires cfg.risk.lotSizeUnits == 100000.0 && !cfg.risk.quotedInYen && StartsOpen(cfg.risk)
    requires !input.inBlackout && input.signal == Some(WideSignal(1.0))
    ensures IsSized(cfg, InitialState(cfg.risk), WideSignal(1.0), Some(StrongTrend), Some(60.0), Some(55.0))
    ensures var open := RunBars(cfg, [input]).open;
            && |open| == 2 && open[0].position.lotSize == 1.0 && open[1].position.lotSize == 0.3
            && StopRisk(open, cfg.risk.lotSizeUnits) == 520.0 > 0.044 * cfg.risk.initialBalance
  {
    hide RunBars, CanTrade, OpenAll, IsSized;
    WideSignalIsSized(cfg);
    FirstBarEnters(cfg, input);
    var open := RunBars(cfg, [input]).open;
    var ps := NewPositions(cfg, WideSignal(1.0), input.bar.candle, 0);
    assert LockerLot(1.0) == 0.3;
    assert ps == [ps[0], ps[1]];
    var date := DayOf(input.bar.candle.openTime);
    OpenTwo(EmptyBook(cfg).(lastDate := Some(date), risk := CanTrade(cfg.risk, InitialState(cfg.risk), date, 0).0), ps[0], ps[1]);
    assert open[..1][..0] == [];
    assert StopRisk(open[..1], 100000.0) == StopRisk(open[..1][..0], 100000.0) + 400.0;
  }

  // ----- A scale-in and its parent -----

  /** What a position books at its current stop, before commission and rounding. */
  function StopMoney(p: Position, units: real): real {
    MoveTo(p, p.slPrice) * p.lotSize * units
  }

  /** Parent and scale-in, stopped out together, lose nothing. */
  ghost predicate FreeTogether(parent: Position, child: Position, units: real) {
    StopMoney(parent, units) + StopMoney(child, units) >= 0.0
  }

  /** Breakeven can only improve the stop. */
  ghost predicate StopBelowLock(p: Position) {
    p.breakevenActivated || MoveTo(p, p.slPrice) <= Risk(p) * 0.1
  }

  ghost predicate NoLooser(p: Position, q: Position) {
    && q.side == p.side && q.entryPrice == p.entryPrice && q.originalSlPrice == p.originalSlPrice
    && q.lotSize == p.lotSize && MoveTo(q, q.slPrice) >= MoveTo(p, p.slPrice) && StopBelowLock(q)
  }

  lemma RatchetNeverLoosens(p: Position, peak: real, threshold: real, removal: Option<real>, trail: real)
    requires StopBelowLock(p)
    ensures NoLooser(p, Ratchet(p, peak, Risk(p) * 0.1, threshold, removal, trail))
  {
  }

  lemma UpdateNeverLoosens(p: Position, bar: Bar)
    requires StopBelowLock(p)
    ensures NoLooser(p, UpdatePositionManagement(p, bar))
  {
    hide Ratchet, NoLooser, UpdatedPeak, StopBelowLock;
    if HasTag(p, "RANGE_ENGINE") {
      RangeStep(p, bar);
      SameIsNoLooser(p);
    } else {
      var peak := UpdatedPeak(p, bar);
      UpdateUnfolds(p, bar, peak, MoveTo(p, peak));
      RatchetNeverLoosens(p, peak, BreakevenThreshold(Risk(p), Config(p)), RemovalThreshold(Risk(p), Config(p)),
                          TrailAt(p, MoveTo(p, peak)));
    }
  }

  lemma SameIsNoLooser(p: Position)
    requires StopBelowLock(p)
    ensures NoLooser(p, p)
  {
  }

  lemma {:induction false} ManagementNeverLoosens(p: Position, bars: seq<Bar>)
    requires StopBelowLock(p)
    ensures NoLooser(p, ManageAll(p, bars))
  {
    if bars != [] {
      hide UpdatePositionManagement;
      ManagementNeverLoosens(p, bars[..|bars| - 1]);
      UpdateNeverLoosens(ManageAll(p, bars[..|bars| - 1]), bars[|bars| - 1]);
    }
  }

  lemma StopMoneyRises(p: Position, q: Position, units: real)
    requires NoLooser(p, q) && p.lotSize >= 0.0 && units >= 0.0
    ensures StopMoney(q, units) >= StopMoney(p, units)
  {
    MulMonotone(p.lotSize, MoveTo(p, p.slPrice), MoveTo(q, q.slPrice));
    MulMonotone(units, MoveTo(p, p.slPrice) * p.lotSize, MoveTo(q, q.slPrice) * p.lotSize);
  }

  lemma Weighed(a: real, b: real, units: real)
    requires units > 0.0
    ensures a * units + b * units >= 0.0 <==> a + b >= 0.0
  {
    assert a * units + b * units == (a + b) * units;
  }

  /** At the moment of the scale-in, in prices and lots. */
  lemma FreeAtFirstExactlyWhen(cfg: EngineConfig, p: Position, bar: Bar, i: int, units: real)
    requires units > 0.0
    ensures var child := ScaleInOf(cfg, p, bar, i);
            FreeTogether(p, child, units) <==>
            MoveTo(p, p.slPrice) * p.lotSize >= MoveTo(p, child.entryPrice) * child.lotSize
  {
    var child := ScaleInOf(cfg, p, bar, i);
    assert MoveTo(child, child.slPrice) == -MoveTo(p, child.entryPrice);
    Weighed(MoveTo(p, p.slPrice) * p.lotSize, MoveTo(child, child.slPrice) * child.lotSize, units);
    assert MoveTo(child, child.slPrice) * child.lotSize == -(MoveTo(p, child.entryPrice) * child.lotSize);
  }

  lemma FreeStaysFree(parent: Position, child: Position, bars: seq<Bar>, units: real)
    requires StopBelowLock(parent) && StopBelowLock(child)
    requires parent.lotSize >= 0.0 && child.lotSize >= 0.0 && units >= 0.0
    requires FreeTogether(parent, child, units)
    ensures FreeTogether(ManageAll(parent, bars), ManageAll(child, bars), units)
  {
    hide ManageAll, StopMoney, StopBelowLock, NoLooser;
    ManagementNeverLoosens(parent, bars);
    ManagementNeverLoosens(child, bars);
    StopMoneyRises(parent, ManageAll(parent, bars), units);
    StopMoneyRises(child, ManageAll(child, bars), units);
  }

  lemma ScaleInFacts(cfg: EngineConfig, p: Position, bar: Bar, i: int)
    requires ScaleInLot(p) >= 0.01
    requires Protective(p.side, RoundTo(EntrySidePrice(p, bar), cfg.priceFactor), p.entryPrice)
    ensures var child := ScaleInOf(cfg, p, bar, i);
            p.lotSize >= 0.0 && child.lotSize >= 0.0 && StopBelowLock(child)
  {
    hide RoundTo;
  }

  /**
   A scale-in is a free trade, through any bars to come, exactly when the parent's stop already
   locks in, on the parent's lot, what the scale-in pays on its own lot for entering later.
   */
  lemma ScaleInIsFreeExactlyWhen(cfg: EngineConfig, p: Position, bar: Bar, i: int, units: real)
    requires units > 0.0 && p.breakevenActivated && ScaleInLot(p) >= 0.01
    requires Protective(p.side, RoundTo(EntrySidePrice(p, bar), cfg.priceFactor), p.entryPrice)
    ensures var child := ScaleInOf(cfg, p, bar, i);
            (forall bars :: FreeTogether(ManageAll(p, bars), ManageAll(child, bars), units)) <==>
            MoveTo(p, p.slPrice) * p.lotSize >= MoveTo(p, child.entryPrice) * child.lotSize
  {
    hide ManageAll, ScaleInOf, FreeTogether, MoveTo, ScaleInLot, RoundTo;
    var child := ScaleInOf(cfg, p, bar, i);
    ScaleInFacts(cfg, p, bar, i);
    FreeAtFirstExactlyWhen(cfg, p, bar, i, units);
    NothingManaged(p);
    NothingManaged(child);
    if FreeTogether(p, child, units) {
      forall bars
        ensures FreeTogether(ManageAll(p, bars), ManageAll(child, bars), units)
      {
        FreeStaysFree(p, child, bars, units);
      }
    } else {
      assert !FreeTogether(ManageAll(p, []), ManageAll(child, []), units);
    }
  }

  lemma NothingManaged(p: Position)
    ensures ManageAll(p, []) == p
  {
  }

  /** The stop exits of one bar book their stop money, less commission, to the half cent. */
  lemma StopExitBooksStopMoney(cfg: EngineConfig, bar: Bar, t: OpenPosition)
    requires !cfg.risk.quotedInYen
    ensures var exit := RegularExit(cfg, bar, t);
            exit.Some? && exit.value.exitReason != TakeProfit ==>
              Abs(exit.value.pnl - (StopMoney(t.position, cfg.risk.lotSizeUnits) - CommissionOf(cfg, t.position))) <= 0.005
  {
    hide Round2, CommissionOf;
    assert RawPnl(t.position, t.position.slPrice, cfg.risk.lotSizeUnits) == StopMoney(t.position, cfg.risk.lotSizeUnits);
    Round2Near(StopMoney(t.position, cfg.risk.lotSizeUnits) - CommissionOf(cfg, t.position));
  }

  // ----- A run in which they lose together -----

  const M15 := 15 * MS_PER_MINUTE

  function PlainSignal(): EntrySignal {
    EntrySignal(Buy, 100.0, 99.0, None, [], 1.0, TrailConfig(1.0, 0.0, 3.0, None), false, false, false)
  }

  /** The entry; a close 1.2 times the risk above it, in a trend; and a fall through both stops. */
  function EntryBar(time: int): BarInput {
    BarInput(Bar(Candle.Candle(time, 100.0, 100.0, 100.0, 100.0), 0.0), false, None, false, Some(PlainSignal()))
  }

  function TrendBar(time: int): BarInput {
    BarInput(Bar(Candle.Candle(time, 100.5, 101.2, 100.5, 101.2), 0.0), false, Some(Buy), true, None)
  }

  function FallBar(time: int): BarInput {
    BarInput(Bar(Candle.Candle(time, 100.5, 100.5, 99.0, 99.5), 0.0), false, None, false, None)
  }

  function ThreeBars(time: int): seq<BarInput> {
    [EntryBar(time), TrendBar(time + M15), FallBar(time + 2 * M15)]
  }

  /** An engine without V6 rules, commission or conversion, on prices of two decimals. */
  ghost predicate PlainEngine(cfg: EngineConfig) {
    && StartsOpen(cfg.risk) && cfg.risk.initialBalance == 1000.0 && cfg.risk.maxOpenPositions >= 2
    && cfg.risk.lotSizeUnits == 1.0 && !cfg.risk.quotedInYen
    && !cfg.isV6 && cfg.commissionPerLot == 0.0 && cfg.priceFactor == 100.0
  }

  function PlainPosition(time: int): Position {
    Position(Buy, 100.0, 99.0, None, 99.0, false, 100.0, 1.0, time, 0, [], Some(TrailConfig(1.0, 0.0, 3.0, None)), false,
             false)
  }

  /** The parent once the trend bar has been managed. */
  function Trailed(time: int): Position {
    PlainPosition(time).(peakFavorablePrice := 101.2, breakevenActivated := true, slPrice := 100.2)
  }

  function PlainChild(time: int): Position {
    Position(Buy, 101.2, 100.0, None, 100.0, false, 101.2, 0.5, time, 1, ["SCALED_IN"],
             Some(TrailConfig(1.0, 0.0, 3.0, None)), true, false)
  }

  lemma AfterEntryBar(cfg: EngineConfig, time: int)
    requires PlainEngine(cfg)
    ensures var s := RunBars(cfg, [EntryBar(time)]);
            && s.open == [OpenPosition(0, PlainPosition(time))] && s.closed == [] && s.cool == Cooldowns(1, -1, 0, 0)
            && s.nextId == 1 && s.risk.account == InitialAccount(cfg.risk) && s.risk.tradeLog == []
            && s.risk.overallPeakEquity == 1000.0 && s.lastDate.Some?
  {
    hide RunBars, CanTrade;
    var date := DayOf(time);
    FirstBarEnters(cfg, EntryBar(time));
    FirstAsk(cfg.risk, date);
    var ps := NewPositions(cfg, PlainSignal(), EntryBar(time).bar.candle, 0);
    assert ps == [PlainPosition(time)];
    assert [PlainPosition(time)][..0] == [];
  }

  lemma TrendManages(time: int, bar: Bar)
    requires bar == TrendBar(time + M15).bar
    ensures UpdatePositionManagement(PlainPosition(time), bar) == Trailed(time)
  {
    var p := PlainPosition(time);
    UpdateUnfolds(p, bar, 101.2, MoveTo(p, 101.2));
    assert TrailAt(p, MoveTo(p, 101.2)) == 1.0;
  }

  lemma TrendMayScaleIn(cfg: EngineConfig, risk: RiskState, time: int)
    requires PlainEngine(cfg) && risk.account.balance == 1000.0
    ensures var t := OpenPosition(0, Trailed(time)); MayScaleIn(cfg, risk, [t], TrendBar(time + M15), t)
  {
    var t := OpenPosition(0, Trailed(time));
    assert [t][..0] == [] && StopRisk([], 1.0) == 0.0;
    assert StopRisk([t], 1.0) == 0.2;
    assert ScaleInLot(t.position) == 0.5;
  }

  lemma TrendChild(cfg: EngineConfig, time: int)
    requires PlainEngine(cfg)
    ensures ScaleInOf(cfg, Trailed(time), TrendBar(time + M15).bar, 1) == PlainChild(time + M15)
  {
    assert InheritedTags([]) == [];
    assert ScaleInLot(Trailed(time)) == 0.5;
    assert RoundTo(101.2, 100.0) == 101.2;
  }

  /** Without a signal the book and the trades stay as they are. */
  lemma NoSignalNoEntry(cfg: EngineConfig, s: Book, input: BarInput, i: int)
    requires input.signal.None?
    ensures Entered(cfg, s, input, i).open == s.open && Entered(cfg, s, input, i).closed == s.closed
    ensures Entered(cfg, s, input, i).nextId == s.nextId && Entered(cfg, s, input, i).parentOf == s.parentOf
  {
    hide CanTrade;
  }

  lemma OneManaged(s: Book, t: OpenPosition, bar: Bar)
    requires s.open == [t]
    ensures Managed(s, bar) == s.(open := [t.(position := UpdatePositionManagement(t.position, bar))])
  {
    hide UpdatePositionManagement;
  }

  lemma OneStays(cfg: EngineConfig, s: Book, t: OpenPosition, bar: Bar, i: int)
    requires s.open == [t] && RegularExit(cfg, bar, t).None?
    ensures Swept(s, ExitSweep(cfg, bar, i)) == s
  {
    hide RegularExit;
    assert [t][1..] == [];
    var exitOf := ExitSweep(cfg, bar, i).exitOf;
    assert Kept(exitOf, []) == [] && Exits(exitOf, []) == [];
    assert Kept(exitOf, s.open) == [t] && Exits(exitOf, s.open) == [];
    assert s.closed + [] == s.closed;
  }

  lemma NotDefensive(s: RiskState)
    requires s.account.balance == s.account.equity == s.overallPeakEquity > 0.0
    requires s.account.consecutiveLosses == 0 && s.tradeLog == []
    ensures GetTradingMode(s) != Defensive
  {
    assert DdPercent(s.overallPeakEquity, s.account.equity) == 0.0;
  }

  /** The book after the entry bar, as far as the later bars look at it. */
  ghost predicate Entered1(cfg: EngineConfig, s: Book, time: int) {
    && s.open == [OpenPosition(0, PlainPosition(time))] && s.closed == [] && s.cool.until == 1 && s.nextId == 1
    && s.risk.account == InitialAccount(cfg.risk) && s.risk.tradeLog == [] && s.risk.overallPeakEquity == 1000.0
  }

  lemma TrendBarScalesIn(cfg: EngineConfig, s: Book, time: int)
    requires PlainEngine(cfg) && Entered1(cfg, s, time)
    ensures var s' := StepBar(cfg, s, TrendBar(time + M15), 1);
            && s'.open == [OpenPosition(0, Trailed(time).(hasScaleIn := true)), OpenPosition(1, PlainChild(time + M15))]
            && s'.closed == [] && s'.nextId == 2
  {
    hide UpdatePositionManagement, MayScaleIn, ScaleInOf, RegularExit, GetTradingMode, CanTrade;
    var input := TrendBar(time + M15);
    var day := NewDay(s, DayOf(time + M15));
    var t := OpenPosition(0, Trailed(time));
    TrendManages(time, input.bar);
    OneManaged(day, OpenPosition(0, PlainPosition(time)), input.bar);
    var managed := Managed(day, input.bar);
    assert managed == day.(open := [t]);
    assert RegularExit(cfg, input.bar, t).None? by {
      TrendDoesNotExit(cfg, time);
    }
    OneStays(cfg, managed, t, input.bar, 1);
    NotDefensive(managed.risk);
    TrendMayScaleIn(cfg, managed.risk, time);
    TrendChild(cfg, time);
    assert ScaledIn(cfg, managed, input, 1) == AddScaleIn(cfg, managed, input.bar, 1, 0);
    NoSignalNoEntry(cfg, ScaledIn(cfg, managed, input, 1), input, 1);
  }

  lemma TrendDoesNotExit(cfg: EngineConfig, time: int)
    requires PlainEngine(cfg)
    ensures RegularExit(cfg, TrendBar(time + M15).bar, OpenPosition(0, Trailed(time))).None?
  {
  }

  lemma FallManages(cfg: EngineConfig, time: int, bar: Bar)
    requires bar == FallBar(time + 2 * M15).bar
    ensures var parent := Trailed(time).(hasScaleIn := true); UpdatePositionManagement(parent, bar) == parent
    ensures UpdatePositionManagement(PlainChild(time + M15), bar) == PlainChild(time + M15)
  {
    var parent, child := Trailed(time).(hasScaleIn := true), PlainChild(time + M15);
    UpdateUnfolds(parent, bar, 101.2, MoveTo(parent, 101.2));
    assert TrailAt(parent, MoveTo(parent, 101.2)) == 1.0;
    UpdateUnfolds(child, bar, 101.2, MoveTo(child, 101.2));
  }

  lemma FallStopsBoth(cfg: EngineConfig, time: int)
    requires PlainEngine(cfg)
    ensures var parent := OpenPosition(0, Trailed(time).(hasScaleIn := true));
            var exit := RegularExit(cfg, FallBar(time + 2 * M15).bar, parent);
            exit.Some? && exit.value.pnl == 0.2
    ensures var exit := RegularExit(cfg, FallBar(time + 2 * M15).bar, OpenPosition(1, PlainChild(time + M15)));
            exit.Some? && exit.value.pnl == -0.6
  {
    assert Round2(0.2) == 0.2 && Round2(-0.6) == -0.6;
  }

  lemma BothExit(exitOf: OpenPosition -> Option<ClosedTrade>, a: OpenPosition, b: OpenPosition)
    requires exitOf(a).Some? && exitOf(b).Some?
    ensures Kept(exitOf, [a, b]) == []
    ensures Exits(exitOf, [a, b]) == [ClosedRecord(b.id, exitOf(b).value), ClosedRecord(a.id, exitOf(a).value)]
  {
    assert [a, b][1..] == [b] && [b][1..] == [];
    assert Kept(exitOf, [b]) == Kept(exitOf, []) == [];
    assert Exits(exitOf, [b]) == Exits(exitOf, []) + [ClosedRecord(b.id, exitOf(b).value)];
  }

  lemma FallBarClosesBoth(cfg: EngineConfig, s: Book, time: int)
    requires PlainEngine(cfg) && s.closed == []
    requires s.open == [OpenPosition(0, Trailed(time).(hasScaleIn := true)), OpenPosition(1, PlainChild(time + M15))]
    ensures var s' := StepBar(cfg, s, FallBar(time + 2 * M15), 2);
            && s'.open == [] && |s'.closed| == 2
            && s'.closed[0].id == 1 && s'.closed[0].trade.pnl == -0.6 && s'.closed[1].id == 0 && s'.closed[1].trade.pnl == 0.2
  {
    hide UpdatePositionManagement, RegularExit, CanTrade, RecordAll, CoolAll;
    var input := FallBar(time + 2 * M15);
    var day := NewDay(s, DayOf(time + 2 * M15));
    FallManages(cfg, time, input.bar);
    var managed := Managed(day, input.bar);
    assert managed.open == s.open;
    FallStopsBoth(cfg, time);
    var sweep := ExitSweep(cfg, input.bar, 2);
    BothExit(sweep.exitOf, s.open[0], s.open[1]);
    var swept := Swept(managed, sweep);
    assert swept.open == [];
    NoSignalNoEntry(cfg, ScaledIn(cfg, swept, input, 2), input, 2);
  }

  lemma PrefixesOfThree(time: int)
    ensures var b := ThreeBars(time); b[..2][..1] == [EntryBar(time)] && |b| == 3
    ensures var b := ThreeBars(time); b[..2][1] == TrendBar(time + M15) && b[2] == FallBar(time + 2 * M15)
  {
  }

  lemma TwoTrades(a: ClosedRecord, b: ClosedRecord)
    ensures PnlTotal(TradesOf([a, b])) == a.trade.pnl + b.trade.pnl
  {
    assert [a, b][..1] == [a] && [a][..0] == [];
    assert TradesOf([a]) == TradesOf([]) + [a.trade] == [a.trade];
    assert TradesOf([a, b]) == [a.trade, b.trade];
    assert [a.trade, b.trade][..1] == [a.trade] && [a.trade][..0] == [];
    assert PnlTotal([a.trade]) == PnlTotal([]) + a.trade.pnl;
  }

  /**
   Three bars: an entry, a scale-in 1.2 times the risk above it, a fall through both stops. The
   parent earns 0.20, its scale-in loses 0.60: the trade called free costs 0.40.
   */
  lemma ScaleInCanLose(cfg: EngineConfig, time: int)
    requires PlainEngine(cfg)
    ensures var s := RunBars(cfg, ThreeBars(time));
            && s.open == [] && |s.closed| == 2 && s.closed[0].id == 1 && s.closed[1].id == 0
            && s.closed[0].trade.pnl == -0.6 && s.closed[1].trade.pnl == 0.2 && PnlTotal(TradesOf(s.closed)) == -0.4
  {
    hide StepBar, Trailed, PlainChild, PlainPosition;
    var bars := ThreeBars(time);
    PrefixesOfThree(time);
    AfterEntryBar(cfg, time);
    var s0 := RunBars(cfg, bars[..2][..1]);
    var s1 := RunBars(cfg, bars[..2]);
    assert s1 == StepBar(cfg, s0, TrendBar(time + M15), 1);
    TrendBarScalesIn(cfg, s0, time);
    var s2 := RunBars(cfg, bars);
    assert s2 == StepBar(cfg, s1, FallBar(time + 2 * M15), 2);
    FallBarClosesBoth(cfg, s1, time);
    assert s2.closed == [s2.closed[0], s2.closed[1]];
    TwoTrades(s2.closed[0], s2.closed[1]);
  }
}
