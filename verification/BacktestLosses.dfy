/** What the trades of a whole backtest can lose, each against the position as it was opened. */
module BacktestLosses {
  import opened Wrappers
  import opened Market
  import opened Calendar
  import opened PositionSimulator
  import opened PositionExits
  import opened RiskManagement
  import opened SimulatedBroking
  import opened BacktestEngine

  /** `q` is what management has made of `p`, which was opened with a lot. */
  ghost predicate Holds(p: Position, q: Position) {
    Descends(p, q) && p.lotSize >= 0.0
  }

  /**
   A stop-out loses at most the initial risk, a breakeven exit earns a tenth of it, and a
   target on its proper side never loses: before commission, within half a cent. Forced closes
   are not bounded.
   */
  ghost predicate WithinRisk(p: Position, trade: ClosedTrade, units: real) {
    var atRisk := InitialRisk(p, units);
    && (trade.exitReason == StopLoss ==> trade.pnl >= -atRisk - trade.commission - 0.005)
    && (trade.exitReason == Breakeven ==> trade.pnl >= 0.1 * atRisk - trade.commission - 0.005)
    && (trade.exitReason == TakeProfit && p.tpPrice.Some? && MoveTo(p, p.tpPrice.value) >= 0.0 ==>
          trade.pnl >= -trade.commission - 0.005)
  }

  lemma ManagementKeepsHold(p: Position, q: Position, bar: Bar)
    requires Holds(p, q)
    ensures Holds(p, UpdatePositionManagement(q, bar))
  {
    ManagementDescends(p, q, bar);
  }

  lemma ExitWithin(p: Position, q: Position, bar: Bar, commission: real, units: real)
    requires Holds(p, q) && units >= 0.0
    ensures var exit := CheckPositionExit(q, bar, commission, units, false);
            exit.Some? ==> WithinRisk(p, exit.value, units)
  {
    hide CalculatePnl;
    PnlAtLeast(q, q.slPrice, commission, units, if q.breakevenActivated then 0.1 else -1.0, Risk(p));
    if q.tpPrice.Some? && MoveTo(q, q.tpPrice.value) >= 0.0 {
      PnlAtLeast(q, q.tpPrice.value, commission, units, 0.0, Risk(p));
    }
  }

  lemma RegularExitWithin(cfg: EngineConfig, bar: Bar, p: Position, t: OpenPosition)
    requires !cfg.risk.quotedInYen && cfg.risk.lotSizeUnits >= 0.0 && Holds(p, t.position)
    ensures var exit := RegularExit(cfg, bar, t); exit.Some? ==> WithinRisk(p, exit.value, cfg.risk.lotSizeUnits)
  {
    hide CheckPositionExit, WithinRisk, Holds;
    ExitWithin(p, t.position, bar, CommissionOf(cfg, t.position), cfg.risk.lotSizeUnits);
  }

  /** Every open position descends from how it was opened, and every closed trade is bounded by it. */
  ghost predicate Bounded(cfg: EngineConfig, s: Book) {
    && (forall t :: t in s.open ==> t.id < s.nextId && t.id in s.atEntry && Holds(s.atEntry[t.id], t.position))
    && (forall r :: r in s.closed ==>
          r.id < s.nextId && r.id in s.atEntry && WithinRisk(s.atEntry[r.id], r.trade, cfg.risk.lotSizeUnits))
  }

  lemma ManagedBounded(cfg: EngineConfig, s: Book, bar: Bar)
    requires Bounded(cfg, s)
    ensures Bounded(cfg, Managed(s, bar))
  {
    var open := Managed(s, bar).open;
    forall t | t in open
      ensures t.id < s.nextId && t.id in s.atEntry && Holds(s.atEntry[t.id], t.position)
    {
      var k :| 0 <= k < |open| && open[k] == t;
      assert s.open[k] in s.open;
      ManagementKeepsHold(s.atEntry[t.id], s.open[k].position, bar);
    }
  }

  lemma {:induction false} ExitOrigins(exitOf: OpenPosition -> Option<ClosedTrade>, open: seq<OpenPosition>)
    ensures forall r :: r in Exits(exitOf, open) ==> exists t :: t in open && t.id == r.id && exitOf(t) == Some(r.trade)
  {
    if open != [] {
      ExitOrigins(exitOf, open[1..]);
      assert open == [open[0]] + open[1..];
    }
  }

  /** A sweep is bounded when each exit it makes of a descending position is. */
  lemma SweptBounded(cfg: EngineConfig, s: Book, sweep: Sweep)
    requires Bounded(cfg, s)
    requires forall p: Position, t: OpenPosition :: Holds(p, t.position) && sweep.exitOf(t).Some? ==>
                              WithinRisk(p, sweep.exitOf(t).value, cfg.risk.lotSizeUnits)
    ensures Bounded(cfg, Swept(s, sweep))
  {
    hide Holds, WithinRisk;
    KeptMembers(sweep.exitOf, s.open);
    ExitOrigins(sweep.exitOf, s.open);
  }

  lemma ExitSweepBounded(cfg: EngineConfig, s: Book, bar: Bar, i: int)
    requires !cfg.risk.quotedInYen && cfg.risk.lotSizeUnits >= 0.0 && Bounded(cfg, s)
    ensures Bounded(cfg, Swept(s, ExitSweep(cfg, bar, i)))
  {
    hide WithinRisk, Holds, RegularExit;
    var sweep := ExitSweep(cfg, bar, i);
    forall p: Position, t: OpenPosition | Holds(p, t.position) && sweep.exitOf(t).Some?
      ensures WithinRisk(p, sweep.exitOf(t).value, cfg.risk.lotSizeUnits)
    {
      RegularExitWithin(cfg, bar, p, t);
    }
    SweptBounded(cfg, s, sweep);
  }

  lemma MaxBarsSweepBounded(cfg: EngineConfig, s: Book, bar: Bar, i: int)
    requires Bounded(cfg, s)
    ensures Bounded(cfg, Swept(s, MaxBarsSweep(cfg, bar, i)))
  {
    var sweep := MaxBarsSweep(cfg, bar, i);
    forall p: Position, t: OpenPosition | Holds(p, t.position) && sweep.exitOf(t).Some?
      ensures WithinRisk(p, sweep.exitOf(t).value, cfg.risk.lotSizeUnits)
    {
      assert sweep.exitOf(t).value.exitReason == ForcedClose;
    }
    SweptBounded(cfg, s, sweep);
  }

  lemma JoinedBounded(cfg: EngineConfig, s: Book, p: Position)
    requires Bounded(cfg, s) && Untouched(p) && p.lotSize >= 0.0
    ensures Bounded(cfg, Joined(s, p))
  {
    assert Holds(p, p);
  }

  lemma {:induction false} OpenAllBounded(cfg: EngineConfig, s: Book, ps: seq<Position>)
    requires Bounded(cfg, s) && forall p :: p in ps ==> Untouched(p) && p.lotSize >= 0.0
    ensures Bounded(cfg, OpenAll(s, ps))
  {
    if ps != [] {
      OpenAllBounded(cfg, s, ps[..|ps| - 1]);
      JoinedBounded(cfg, OpenAll(s, ps[..|ps| - 1]), ps[|ps| - 1]);
    }
  }

  lemma ScaledInBounded(cfg: EngineConfig, s: Book, input: BarInput, i: int)
    requires Bounded(cfg, s)
    ensures Bounded(cfg, ScaledIn(cfg, s, input, i))
  {
    if ScaleInsAllowed(cfg, s, input) {
      var k := FirstIndex(t => MayScaleIn(cfg, s.risk, s.open, input, t), s.open);
      if k < |s.open| {
        assert MayScaleIn(cfg, s.risk, s.open, input, s.open[k]);
        AddScaleInBounded(cfg, s, input.bar, i, k);
      }
    }
  }

  lemma AddScaleInBounded(cfg: EngineConfig, s: Book, bar: Bar, i: int, k: nat)
    requires Bounded(cfg, s) && k < |s.open| && ScaleInLot(s.open[k].position) >= 0.01
    ensures Bounded(cfg, AddScaleIn(cfg, s, bar, i, k))
  {
    var s' := AddScaleIn(cfg, s, bar, i, k);
    var child := ScaleInOf(cfg, s.open[k].position, bar, i);
    assert Holds(child, child);
    assert s.open[k] in s.open;
    forall t | t in s'.open
      ensures t.id < s'.nextId && t.id in s'.atEntry && Holds(s'.atEntry[t.id], t.position)
    {
      var j :| 0 <= j < |s'.open| && s'.open[j] == t;
      assert j < |s.open| ==> s.open[j] in s.open;
    }
  }

  lemma EnteredBounded(cfg: EngineConfig, s: Book, input: BarInput, i: int)
    requires Bounded(cfg, s)
    ensures Bounded(cfg, Entered(cfg, s, input, i))
  {
    hide CanTrade;
    var s1 := s.(risk := CanTrade(cfg.risk, s.risk, DayOf(input.bar.candle.openTime), |s.open|).0);
    if input.signal.Some? && input.signal.value.lotSize > 0.0 {
      OpenAllBounded(cfg, s1, NewPositions(cfg, input.signal.value, input.bar.candle, i));
    }
  }

  lemma StepBounded(cfg: EngineConfig, s: Book, input: BarInput, i: int)
    requires !cfg.risk.quotedInYen && cfg.risk.lotSizeUnits >= 0.0 && Bounded(cfg, s)
    ensures Bounded(cfg, StepBar(cfg, s, input, i))
  {
    hide Bounded, Managed, Swept, ScaledIn, Entered;
    var day := NewDay(s, DayOf(input.bar.candle.openTime));
    NewDayBounded(cfg, s, DayOf(input.bar.candle.openTime));
    ManagedBounded(cfg, day, input.bar);
    var s1 := Managed(day, input.bar);
    MaxBarsSweepBounded(cfg, s1, input.bar, i);
    var s2 := MaxBarsSwept(cfg, s1, input, i);
    ExitSweepBounded(cfg, s2, input.bar, i);
    var s3 := Swept(s2, ExitSweep(cfg, input.bar, i));
    ScaledInBounded(cfg, s3, input, i);
    EnteredBounded(cfg, ScaledIn(cfg, s3, input, i), input, i);
  }

  lemma NewDayBounded(cfg: EngineConfig, s: Book, date: int)
    requires Bounded(cfg, s)
    ensures Bounded(cfg, NewDay(s, date))
  {
  }

  /**
   Whatever signals arrive on a pair not quoted in yen, no stop-out of the whole backtest
   loses more than the risk its position was opened with, and no breakeven exit earns less
   than a tenth of it.
   */
  lemma {:induction false} BacktestLossBound(cfg: EngineConfig, inputs: seq<BarInput>)
    requires !cfg.risk.quotedInYen && cfg.risk.lotSizeUnits >= 0.0
    ensures Bounded(cfg, RunBars(cfg, inputs))
  {
    if inputs != [] {
      hide StepBar;
      BacktestLossBound(cfg, inputs[..|inputs| - 1]);
      StepBounded(cfg, RunBars(cfg, inputs[..|inputs| - 1]), inputs[|inputs| - 1], |inputs| - 1);
    }
  }
}
