/** What the backtest needs for an entry or a scale-in, what it opens, and how long it waits, told in numbers. */
module BacktestNumbers {
  import opened Wrappers
  import opened Numbers
  import opened Market
  import opened Calendar
  import opened PositionSimulator
  import opened PositionExits
  import opened RiskManagement
  import opened SimulatedBroking
  import opened BacktestEngine
  import opened TrailTiers
  import opened RiskNumbers

  // ----- Entries -----

  /** Nothing is open on the side. */
  ghost predicate SideIsFree(open: seq<OpenPosition>, side: Side) {
    forall j :: 0 <= j < |open| ==> open[j].position.side != side
  }

  /** Position `k` is the only one open on its side. */
  ghost predicate IsAlone(open: seq<OpenPosition>, k: int) {
    0 <= k < |open| && forall j :: 0 <= j < |open| && j != k ==> open[j].position.side != open[k].position.side
  }

  lemma {:induction false} SameSideMembers(open: seq<OpenPosition>, side: Side)
    ensures SameSide(open, side) == [] <==> SideIsFree(open, side)
    ensures forall k :: IsAlone(open, k) && open[k].position.side == side ==> SameSide(open, side) == [open[k]]
    ensures |SameSide(open, side)| == 1 ==> exists k :: IsAlone(open, k) && open[k].position.side == side
  {
    if open != [] {
      var n, init := |open| - 1, open[..|open| - 1];
      var last := open[n];
      SameSideMembers(init, side);
      assert forall j :: 0 <= j < n ==> init[j] == open[j];
      forall k | IsAlone(open, k) && open[k].position.side == side
        ensures SameSide(open, side) == [open[k]]
      {
        if k < n {
          assert IsAlone(init, k) && last.position.side != side;
        } else {
          assert SideIsFree(init, side);
        }
      }
      if |SameSide(open, side)| == 1 {
        if last.position.side == side {
          assert IsAlone(open, n);
        } else {
          var k :| IsAlone(init, k) && init[k].position.side == side;
          assert IsAlone(open, k);
        }
      }
    }
  }

  /** What one position can lose at its current stop. */
  function AtStop(p: Position, units: real): real {
    Abs(p.entryPrice - p.slPrice) * p.lotSize * units
  }

  lemma StopRiskOfOne(t: OpenPosition, units: real)
    ensures StopRisk([t], units) == AtStop(t.position, units)
  {
    assert [t][..0] == [] && StopRisk([], units) == 0.0;
  }

  /** A second position beside the `k`th: that one is at breakeven, the trend strong and calm, the mode not defensive, and both risk at most a fifth. */
  ghost predicate MayStack(cfg: EngineConfig, risk: RiskState, open: seq<OpenPosition>, signal: EntrySignal, k: int)
    requires 0 <= k < |open|
  {
    && IsAlone(open, k) && open[k].position.side == signal.side && open[k].position.breakevenActivated
    && signal.strongTrend && !signal.elevatedVol && !IsDefensive(risk)
    && AtStop(open[k].position, cfg.risk.lotSizeUnits)
       + Abs(signal.entryPrice - signal.slPrice) * signal.lotSize * cfg.risk.lotSizeUnits
       <= risk.account.balance * (20.0 / 100.0)
  }

  lemma StackIs(cfg: EngineConfig, risk: RiskState, open: seq<OpenPosition>, signal: EntrySignal, k: int)
    requires IsAlone(open, k) && open[k].position.side == signal.side && SameSide(open, signal.side) == [open[k]]
    requires StopRisk([open[k]], cfg.risk.lotSizeUnits) == AtStop(open[k].position, cfg.risk.lotSizeUnits)
    requires GetTradingMode(risk) == Defensive <==> IsDefensive(risk)
    ensures StackingBlocked(cfg, risk, open, signal) <==> !MayStack(cfg, risk, open, signal, k)
  {
    hide IsDefensive, GetTradingMode, AtStop, SameSide, StopRisk;
  }

  lemma StackingByNumbers(cfg: EngineConfig, risk: RiskState, open: seq<OpenPosition>, signal: EntrySignal)
    ensures !StackingBlocked(cfg, risk, open, signal) <==>
              SideIsFree(open, signal.side) || exists k :: 0 <= k < |open| && MayStack(cfg, risk, open, signal, k)
  {
    hide IsDefensive, GetTradingMode, AtStop, SameSide, StopRisk, SideIsFree;
    var same := SameSide(open, signal.side);
    SameSideMembers(open, signal.side);
    ModeByNumbers(risk);
    if |same| == 1 {
      StopRiskOfOne(same[0], cfg.risk.lotSizeUnits);
      var k :| IsAlone(open, k) && open[k].position.side == signal.side;
      assert same == [open[k]];
      StackIs(cfg, risk, open, signal, k);
    }
    forall k | 0 <= k < |open| && MayStack(cfg, risk, open, signal, k)
      ensures same == [open[k]] && !StackingBlocked(cfg, risk, open, signal)
    {
      StopRiskOfOne(open[k], cfg.risk.lotSizeUnits);
      StackIs(cfg, risk, open, signal, k);
    }
  }

  /** Stop-outs of the signal's side today. */
  function StopOuts(cool: Cooldowns, side: Side): nat {
    match side
    case Buy => cool.slBuys
    case Sell => cool.slSells
  }

  /** Everything a signal needs at bar `i`, the brake having been asked on `date`. */
  ghost predicate MayEnter(cfg: EngineConfig, s: Book, input: BarInput, i: int, date: int) {
    && input.signal.Some? && i > s.cool.until && i > s.cool.slUntil && !input.inBlackout
    && GateIsOpen(cfg.risk, s.risk, date, |s.open|)
    && StopOuts(s.cool, input.signal.value.side) < 3 && input.signal.value.lotSize > 0.0
    && (SideIsFree(s.open, input.signal.value.side)
        || exists k :: 0 <= k < |s.open|
                       && MayStack(cfg, CanTrade(cfg.risk, s.risk, date, |s.open|).0, s.open, input.signal.value, k))
  }

  lemma {:induction false} OpenAllCounts(s: Book, ps: seq<Position>)
    ensures OpenAll(s, ps).nextId == s.nextId + |ps|
  {
    if ps != [] {
      OpenAllCounts(s, ps[..|ps| - 1]);
    }
  }

  /** A bar opens its signal exactly when nothing is in the way; then entries wait until the next bar but one. */
  lemma EntersExactlyWhen(cfg: EngineConfig, s: Book, input: BarInput, i: int)
    ensures var s', date := Entered(cfg, s, input, i), DayOf(input.bar.candle.openTime);
            && (s'.nextId > s.nextId <==> MayEnter(cfg, s, input, i, date))
            && (s'.nextId == s.nextId ==> s'.open == s.open && s'.cool == s.cool)
            && (s'.nextId > s.nextId ==> s'.cool == Cooldowns(i + 1, s.cool.slUntil, s.cool.slBuys, s.cool.slSells))
  {
    hide CanTrade, GateIsOpen, MayStack, SideIsFree, StackingBlocked, NewPositions, OpenAll;
    var date := DayOf(input.bar.candle.openTime);
    GateByNumbers(cfg.risk, s.risk, date, |s.open|);
    if input.signal.Some? {
      var asked := s.(risk := CanTrade(cfg.risk, s.risk, date, |s.open|).0);
      var ps := NewPositions(cfg, input.signal.value, input.bar.candle, i);
      StackingByNumbers(cfg, asked.risk, s.open, input.signal.value);
      OpenAllCounts(asked, ps);
      OpenAllFrame(asked, ps);
      assert |ps| >= 1;
    }
  }

  /** A position of the signal as opened at bar `i`. */
  ghost predicate OpensAs(p: Position, signal: EntrySignal, candle: Candle, i: int) {
    && p.side == signal.side && p.entryPrice == signal.entryPrice && p.peakFavorablePrice == signal.entryPrice
    && p.slPrice == signal.slPrice && p.originalSlPrice == signal.slPrice && !p.breakevenActivated
    && p.entryTime == candle.openTime && p.entryIndex == i && p.trailConfig == Some(signal.trailConfig)
    && !p.isScaleIn && !p.hasScaleIn
  }

  /**
   A strong or high-quality signal of at least 0.02 lots that is no pyramid opens a runner with
   the whole lot and the signal's target and, if that is a hundredth, a locker with three tenths
   of the lot and its target one risk away; any other signal opens one position.
   */
  lemma PositionsByNumbers(cfg: EngineConfig, signal: EntrySignal, candle: Candle, i: int)
    ensures var ps := NewPositions(cfg, signal, candle, i);
            var splits := (signal.strongTrend || signal.highQuality) && "PYRAMID" !in signal.setupTags && signal.lotSize >= 0.02;
            && (forall k :: 0 <= k < |ps| ==> OpensAs(ps[k], signal, candle, i))
            && ps[0].lotSize == signal.lotSize && ps[0].tpPrice == signal.tpPrice
            && ps[0].setupTags == (if splits then signal.setupTags + ["RUNNER"] else signal.setupTags)
            && (!splits ==> |ps| == 1)
            && (splits ==>
                  |ps| == 2
                  && IsRounded(ps[1].lotSize, signal.lotSize * 0.3, 100.0) && ps[1].setupTags == signal.setupTags + ["LOCKER"]
                  && ps[1].tpPrice.Some?
                  && IsRounded(ps[1].tpPrice.value,
                               if signal.side == Buy then signal.entryPrice + Abs(signal.entryPrice - signal.slPrice)
                               else signal.entryPrice - Abs(signal.entryPrice - signal.slPrice), cfg.priceFactor))
  {
    hide Round2, RoundTo, IsRounded;
    if signal.lotSize >= 0.02 {
      LockerLotBounds(signal.lotSize);
    }
    Round2IsRounded(signal.lotSize * 0.3);
    RoundToIsRounded(if signal.side == Buy then signal.entryPrice + Abs(signal.entryPrice - signal.slPrice)
                     else signal.entryPrice - Abs(signal.entryPrice - signal.slPrice), cfg.priceFactor);
  }

  // ----- Waiting -----

  /** A target or breakeven exit makes entries wait one bar, a stop-out two and counts against its side; V6 waits one bar less. */
  lemma WaitByNumbers(c: Cooldowns, trade: ClosedTrade, i: int, isV6: bool)
    requires trade.exitReason != ForcedClose
    ensures AfterMaxBars(c, i).until == i + 1 && AfterMaxBars(c, i).slUntil == c.slUntil
    ensures var c', stopped := AfterExit(c, trade, i, isV6), trade.exitReason == StopLoss;
            && c'.until == i + (if stopped then 2 else 1) - (if isV6 then 1 else 0)
            && c'.slUntil == (if stopped then c'.until else c.slUntil)
            && c'.slBuys == c.slBuys + (if stopped && trade.position.side == Buy then 1 else 0)
            && c'.slSells == c.slSells + (if stopped && trade.position.side == Sell then 1 else 0)
  {
  }

  /** A V6 position is closed at the bar's close exactly when it has had 48 bars without reaching breakeven. */
  lemma MaxBarsByNumbers(cfg: EngineConfig, i: int, bar: Bar, t: OpenPosition)
    ensures var exit := MaxBarsExit(cfg, i, bar, t);
            && (exit.Some? <==> i - t.position.entryIndex >= 48 && !t.position.breakevenActivated)
            && (exit.Some? ==>
                  exit.value.exitReason == ForcedClose && exit.value.exitPrice == bar.candle.close
                  && exit.value.exitTime == bar.candle.openTime)
  {
    hide CalculatePnl;
  }

  // ----- Scale-ins -----

  /** The position may get a scale-in at this bar: its trend goes on, it is at breakeven and between 1 and 1.5 risks ahead. */
  ghost predicate MayGrow(cfg: EngineConfig, s: Book, input: BarInput, t: OpenPosition) {
    var p, bar := t.position, input.bar;
    var exitPrice := if p.side == Buy then bar.candle.close - bar.spread / 2.0 else bar.candle.close + bar.spread / 2.0;
    var risk := Abs(p.entryPrice - p.originalSlPrice);
    && !p.isScaleIn && !p.hasScaleIn && p.breakevenActivated
    && "RANGE_ENGINE" !in p.setupTags && "SCALED_IN" !in p.setupTags && "LOCKER" !in p.setupTags
    && input.trend == Some(p.side)
    && risk != 0.0 && 1.0 <= Gain(p, exitPrice) / risk <= 1.5
    && ScaleInLot(p) >= 0.01
    && StopRisk(s.open, cfg.risk.lotSizeUnits)
       + Abs(exitPrice - p.entryPrice) * ScaleInLot(p) * cfg.risk.lotSizeUnits
       <= s.risk.account.balance * (20.0 / 100.0)
  }

  /** In a confident trend, not defensive and below the limit, the first position that may grow does; otherwise nothing happens. */
  lemma ScalesInExactlyWhen(cfg: EngineConfig, s: Book, input: BarInput, i: int)
    ensures var s' := ScaledIn(cfg, s, input, i);
            var allowed := input.trend.Some? && input.confident && !IsDefensive(s.risk) && |s.open| < cfg.risk.maxOpenPositions;
            && (!allowed || (forall k :: 0 <= k < |s.open| ==> !MayGrow(cfg, s, input, s.open[k])) ==> s' == s)
            && (forall k :: allowed && 0 <= k < |s.open| && MayGrow(cfg, s, input, s.open[k])
                            && (forall j :: 0 <= j < k ==> !MayGrow(cfg, s, input, s.open[j])) ==>
                  s' == AddScaleIn(cfg, s, input.bar, i, k))
  {
    hide IsDefensive, GetTradingMode, MayGrow, MayScaleIn, AddScaleIn;
    ModeByNumbers(s.risk);
    forall k | 0 <= k < |s.open|
      ensures MayScaleIn(cfg, s.risk, s.open, input, s.open[k]) <==> MayGrow(cfg, s, input, s.open[k])
    {
      GrowsIs(cfg, s, input, s.open[k]);
    }
  }

  lemma GrowsIs(cfg: EngineConfig, s: Book, input: BarInput, t: OpenPosition)
    ensures MayScaleIn(cfg, s.risk, s.open, input, t) <==> MayGrow(cfg, s, input, t)
  {
    hide StopRisk, ScaleInLot;
  }

  /** The scale-in: half the parent's lot at the bar's entry price, its stop at the parent's entry, and no target. */
  lemma ScaleInByNumbers(cfg: EngineConfig, p: Position, bar: Bar, i: int)
    ensures var child := ScaleInOf(cfg, p, bar, i);
            var price := if p.side == Buy then bar.candle.close + bar.spread / 2.0 else bar.candle.close - bar.spread / 2.0;
            && child.side == p.side && child.isScaleIn && !child.hasScaleIn && child.tpPrice == None
            && IsRounded(child.entryPrice, price, cfg.priceFactor) && child.peakFavorablePrice == price
            && child.slPrice == p.entryPrice && child.originalSlPrice == p.entryPrice && !child.breakevenActivated
            && IsRounded(child.lotSize, p.lotSize * 0.5, 100.0) && child.trailConfig == p.trailConfig
            && child.entryIndex == i && child.entryTime == bar.candle.openTime
            && (forall tag :: tag in child.setupTags <==>
                  || tag == "SCALED_IN"
                  || (tag in p.setupTags && tag != "RUNNER" && tag != "LOCKER" && (tag == "" || tag[0] != 'Q')))
  {
    hide Round2, RoundTo, IsRounded, InheritedTags;
    TagsByNumbers(p.setupTags);
    Round2IsRounded(p.lotSize * 0.5);
    RoundToIsRounded(if p.side == Buy then bar.candle.close + bar.spread / 2.0 else bar.candle.close - bar.spread / 2.0,
                     cfg.priceFactor);
  }

  // ----- Commission -----

  /** Every exit of the backtest, forced ones and the final flush included, is charged the commission per lot. */
  lemma CommissionByNumbers(cfg: EngineConfig, i: int, bar: Bar, t: OpenPosition)
    ensures var due := t.position.lotSize * cfg.commissionPerLot;
            && (RegularExit(cfg, bar, t).Some? ==> RegularExit(cfg, bar, t).value.commission == due)
            && (MaxBarsExit(cfg, i, bar, t).Some? ==> MaxBarsExit(cfg, i, bar, t).value.commission == due)
            && Flushed(cfg, t.position, bar.candle).commission == due
            && Flushed(cfg, t.position, bar.candle).exitPrice == bar.candle.close
            && Flushed(cfg, t.position, bar.candle).exitReason == ForcedClose
  {
    hide CalculatePnl;
  }

  /** A regular exit is the exit check of the position under its commission; a yen pair is converted unless a price is 0. */
  lemma RegularExitByNumbers(cfg: EngineConfig, bar: Bar, t: OpenPosition)
    ensures var inYen := cfg.risk.quotedInYen && t.position.slPrice != 0.0 && t.position.tpPrice != Some(0.0);
            RegularExit(cfg, bar, t)
            == CheckPositionExit(t.position, bar, t.position.lotSize * cfg.commissionPerLot, cfg.risk.lotSizeUnits, inYen)
  {
    hide CheckPositionExit, CommissionOf;
    CommissionIs(cfg, t.position);
  }

  lemma CommissionIs(cfg: EngineConfig, p: Position)
    ensures CommissionOf(cfg, p) == p.lotSize * cfg.commissionPerLot
  {
  }

  /** A scale-in inherits its parent's tags but for the quality mark and the leg. */
  lemma {:induction false} TagsByNumbers(tags: seq<string>)
    ensures forall tag :: tag in InheritedTags(tags) <==>
                          tag in tags && tag != "RUNNER" && tag != "LOCKER" && (tag == "" || tag[0] != 'Q')
  {
    if tags != [] {
      TagsByNumbers(tags[..|tags| - 1]);
      assert tags == tags[..|tags| - 1] + [tags[|tags| - 1]];
    }
  }
}
