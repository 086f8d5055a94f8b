/**
 How an open position leaves the book: the stop and target checks of one candle, the
 money they book, and what a position can lose over its whole life.
 */
module PositionExits {
  import opened Wrappers
  import opened Numbers
  import opened Market
  import opened PositionSimulator

  datatype ExitReason = StopLoss | TakeProfit | Breakeven | ForcedClose

  datatype ClosedTrade = ClosedTrade(
    position: Position,
    exitPrice: real,
    pnl: real,
    commission: real,
    exitTime: int,
    exitReason: ExitReason)

  function RawPnl(p: Position, exitPrice: real, lotSizeUnits: real): real {
    MoveTo(p, exitPrice) * p.lotSize * lotSizeUnits
  }

  /** Profit in the account currency, rounded to the cent; a yen-quoted pair is converted at the exit price. */
  function CalculatePnl(p: Position, exitPrice: real, commission: real, lotSizeUnits: real, quotedInYen: bool): real
    requires quotedInYen ==> exitPrice != 0.0
  {
    var rawPnl := RawPnl(p, exitPrice, lotSizeUnits);
    Round2((if quotedInYen then rawPnl / exitPrice else rawPnl) - commission)
  }

  predicate StopHit(p: Position, bar: Bar) {
    match p.side
    case Buy => bar.candle.low - bar.spread / 2.0 <= p.slPrice
    case Sell => bar.candle.high + bar.spread / 2.0 >= p.slPrice
  }

  predicate TargetHit(p: Position, bar: Bar) {
    p.tpPrice.Some? &&
    match p.side
    case Buy => bar.candle.high - bar.spread / 2.0 >= p.tpPrice.value
    case Sell => bar.candle.low + bar.spread / 2.0 <= p.tpPrice.value
  }

  predicate PricesConvertible(p: Position, quotedInYen: bool) {
    quotedInYen ==> p.slPrice != 0.0 && p.tpPrice != Some(0.0)
  }

  /** The exit a candle triggers, if any; a bar that hits both counts as the target once breakeven is active. */
  function CheckPositionExit(p: Position, bar: Bar, commission: real, lotSizeUnits: real,
                             quotedInYen: bool): Option<ClosedTrade>
    requires PricesConvertible(p, quotedInYen)
  {
    var slHit, tpHit := StopHit(p, bar), TargetHit(p, bar);
    if !slHit && !tpHit then None
    else
      var reason :=
        if slHit && tpHit then (if p.breakevenActivated then TakeProfit else StopLoss)
        else if slHit then (if p.breakevenActivated then Breakeven else StopLoss)
        else TakeProfit;
      var exitPrice := if reason == TakeProfit then p.tpPrice.value else p.slPrice;
      Some(ClosedTrade(p, exitPrice, CalculatePnl(p, exitPrice, commission, lotSizeUnits, quotedInYen),
                       commission, bar.candle.openTime, reason))
  }

  function ForceClosePosition(p: Position, closePrice: real, closeTime: int, commission: real, lotSizeUnits: real,
                              quotedInYen: bool): ClosedTrade
    requires quotedInYen ==> closePrice != 0.0
  {
    ClosedTrade(p, closePrice, CalculatePnl(p, closePrice, commission, lotSizeUnits, quotedInYen), commission,
                closeTime, ForcedClose)
  }

  // ----- What a position can lose over its whole life -----

  /** A position as it is opened, with its stop and target on their proper sides of the entry. */
  ghost predicate Opened(p: Position) {
    && !p.breakevenActivated
    && p.slPrice == p.originalSlPrice
    && SaneConfig(Config(p))
    && MoveTo(p, p.originalSlPrice) < 0.0
    && (p.tpPrice.Some? ==> MoveTo(p, p.tpPrice.value) > 0.0)
    && p.lotSize >= 0.0
  }

  function InitialRisk(p: Position, lotSizeUnits: real): real {
    Risk(p) * p.lotSize * lotSizeUnits
  }

  /** `q` is `p` after management: the stop is the original one, or locks in at least a tenth of the risk. */
  ghost predicate StopKept(p: Position, q: Position) {
    && q.side == p.side && q.entryPrice == p.entryPrice && q.lotSize == p.lotSize
    && (q.tpPrice == p.tpPrice || q.tpPrice == None)
    && (if q.breakevenActivated then MoveTo(p, q.slPrice) >= Risk(p) * 0.1 else q.slPrice == p.originalSlPrice)
  }

  lemma ManagedStop(p: Position, bars: seq<Bar>)
    requires Opened(p)
    ensures StopKept(p, ManageAll(p, bars))
  {
    if HasTag(p, "RANGE_ENGINE") {
      RangeUnmanaged(p, bars);
    } else {
      TrailClosedForm(p, bars);
    }
  }

  /** Range trades keep their stop and target whatever happens. */
  lemma {:induction false} RangeUnmanaged(p: Position, bars: seq<Bar>)
    requires HasTag(p, "RANGE_ENGINE")
    ensures ManageAll(p, bars) == p
  {
    if bars != [] {
      RangeUnmanaged(p, bars[..|bars| - 1]);
    }
  }

  lemma ScaledProduct(k: real, risk: real, lot: real, units: real)
    ensures (k * risk) * lot * units == k * (risk * lot * units)
  {
  }

  /** An exit at `k` times the risk or better books at least `k` times the money at risk. */
  lemma PnlAtLeast(p: Position, exitPrice: real, commission: real, units: real, k: real, risk: real)
    requires MoveTo(p, exitPrice) >= k * risk
    requires p.lotSize >= 0.0 && units >= 0.0
    ensures CalculatePnl(p, exitPrice, commission, units, false) >= k * (risk * p.lotSize * units) - commission - 0.005
  {
    var move := MoveTo(p, exitPrice);
    MulMonotone(p.lotSize, k * risk, move);
    MulMonotone(units, k * risk * p.lotSize, move * p.lotSize);
    ScaledProduct(k, risk, p.lotSize, units);
    Round2Near(move * p.lotSize * units - commission);
  }

  /**
   An exit loses at most the money at risk, a stop-out after breakeven earns a tenth of it and
   a target never loses: all before commission, within half a cent.
   */
  ghost predicate ExitWithinRisk(exit: Option<ClosedTrade>, atRisk: real) {
    exit.Some? ==>
      && exit.value.pnl >= -atRisk - exit.value.commission - 0.005
      && (exit.value.exitReason == Breakeven ==> exit.value.pnl >= 0.1 * atRisk - exit.value.commission - 0.005)
      && (exit.value.exitReason == TakeProfit ==> exit.value.pnl >= -exit.value.commission - 0.005)
  }

  lemma ExitBounds(q: Position, risk: real, atRisk: real, bar: Bar, commission: real, units: real)
    requires q.lotSize >= 0.0 && units >= 0.0 && atRisk >= 0.0 && atRisk == risk * q.lotSize * units
    requires MoveTo(q, q.slPrice) >= if q.breakevenActivated then 0.1 * risk else -1.0 * risk
    requires q.tpPrice.Some? ==> MoveTo(q, q.tpPrice.value) >= 0.0
    ensures ExitWithinRisk(CheckPositionExit(q, bar, commission, units, false), atRisk)
  {
    hide CalculatePnl;
    if q.tpPrice.Some? {
      PnlAtLeast(q, q.tpPrice.value, commission, units, 0.0, risk);
    }
    PnlAtLeast(q, q.slPrice, commission, units, if q.breakevenActivated then 0.1 else -1.0, risk);
  }

  lemma RiskNonNegative(risk: real, lot: real, units: real)
    requires risk >= 0.0 && lot >= 0.0 && units >= 0.0
    ensures risk * lot * units >= 0.0
  {
    MulMonotone(risk, 0.0, lot);
    MulMonotone(units, 0.0, risk * lot);
  }

  lemma BoundsAfterManagement(p: Position, q: Position, bar: Bar, commission: real, units: real)
    requires Opened(p) && units >= 0.0
    requires StopKept(p, q)
    ensures ExitWithinRisk(CheckPositionExit(q, bar, commission, units, false), InitialRisk(p, units))
  {
    RiskNonNegative(Risk(p), p.lotSize, units);
    assert MoveTo(q, q.slPrice) >= if q.breakevenActivated then 0.1 * Risk(p) else -1.0 * Risk(p);
    ExitBounds(q, Risk(p), InitialRisk(p, units), bar, commission, units);
  }

  /** No stop, target or breakeven exit after any management steps leaves the bounds set at entry. */
  lemma LifetimeLossBound(p: Position, bars: seq<Bar>, bar: Bar, commission: real, units: real)
    requires Opened(p) && units >= 0.0
    ensures ExitWithinRisk(CheckPositionExit(ManageAll(p, bars), bar, commission, units, false), InitialRisk(p, units))
  {
    ManagedStop(p, bars);
    BoundsAfterManagement(p, ManageAll(p, bars), bar, commission, units);
  }

  // ----- Descent, step by step -----

  /** `q` is what management has made of `p`: its stop is the original one or locks in a tenth of the risk. */
  ghost predicate Descends(p: Position, q: Position) {
    StopKept(p, q) && q.originalSlPrice == p.originalSlPrice
  }

  /** A position as an engine opens it, wherever its stop and target lie. */
  ghost predicate Untouched(p: Position) {
    !p.breakevenActivated && p.slPrice == p.originalSlPrice
  }

  lemma ManagementDescends(p: Position, q: Position, bar: Bar)
    requires Descends(p, q)
    ensures Descends(p, UpdatePositionManagement(q, bar))
  {
    if !HasTag(q, "RANGE_ENGINE") {
      var peak := UpdatedPeak(q, bar);
      UpdateUnfolds(q, bar, peak, MoveTo(q, peak));
      RatchetDescends(p, q, peak, BreakevenThreshold(Risk(q), Config(q)), RemovalThreshold(Risk(q), Config(q)),
                      TrailAt(q, MoveTo(q, peak)));
    }
  }

  lemma RatchetDescends(p: Position, q: Position, peak: real, threshold: real, removal: Option<real>, trail: real)
    requires Descends(p, q)
    ensures Descends(p, Ratchet(q, peak, Risk(q) * 0.1, threshold, removal, trail))
  {
  }
}
