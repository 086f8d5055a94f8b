/** When a position leaves the book and with what money, told in numbers: of the backtest, and of the replay's broker. */
module ExitNumbers {
  import opened Wrappers
  import opened Numbers
  import opened Market
  import opened PositionSimulator
  import opened PositionExits
  import opened SimulatedBroking
  import opened TrailTiers

  /** The bar's bid falls to a BUY's stop, or its ask rises to a SELL's. */
  ghost predicate StopIsHit(p: Position, bar: Bar) {
    match p.side
    case Buy => bar.candle.low - bar.spread / 2.0 <= p.slPrice
    case Sell => p.slPrice <= bar.candle.high + bar.spread / 2.0
  }

  /** The bar's bid rises to a BUY's target, or its ask falls to a SELL's. */
  ghost predicate TargetIsHit(p: Position, bar: Bar) {
    p.tpPrice.Some? &&
    match p.side
    case Buy => p.tpPrice.value <= bar.candle.high - bar.spread / 2.0
    case Sell => bar.candle.low + bar.spread / 2.0 <= p.tpPrice.value
  }

  /** The gain in prices, times the lot and the units of a lot. */
  function Gross(p: Position, price: real, units: real): real {
    Gain(p, price) * p.lotSize * units
  }

  /** The money in the account currency: a yen-quoted pair's is converted at the exit price. */
  function Converted(gross: real, price: real, inYen: bool): real
    requires inYen ==> price != 0.0
  {
    if inYen then gross / price else gross
  }

  lemma PnlByNumbers(p: Position, price: real, commission: real, units: real, inYen: bool)
    requires inYen ==> price != 0.0
    ensures IsRounded(CalculatePnl(p, price, commission, units, inYen),
                      Converted(Gross(p, price, units), price, inYen) - commission, 100.0)
  {
    hide Round2, IsRounded, RawPnl, Gross;
    GrossIs(p, price, units);
    Round2IsRounded(Converted(Gross(p, price, units), price, inYen) - commission);
  }

  lemma GrossIs(p: Position, price: real, units: real)
    ensures RawPnl(p, price, units) == Gross(p, price, units)
  {
  }

  /** The trade that an exit at `price` books. */
  ghost predicate Books(p: Position, bar: Bar, commission: real, units: real, inYen: bool, exit: ClosedTrade, price: real,
                        reason: ExitReason)
    requires inYen ==> price != 0.0
  {
    && exit.position == p && exit.exitPrice == price && exit.exitTime == bar.candle.openTime
    && exit.commission == commission && exit.exitReason == reason
    && IsRounded(exit.pnl, Converted(Gross(p, price, units), price, inYen) - commission, 100.0)
  }

  /**
   A bar closes a position exactly when it hits its stop or its target. One that hits both pays
   the target once breakeven is active and the stop before; a stop after breakeven is a
   breakeven exit.
   */
  lemma ExitByNumbers(p: Position, bar: Bar, commission: real, units: real, inYen: bool)
    requires PricesConvertible(p, inYen)
    ensures var exit := CheckPositionExit(p, bar, commission, units, inYen);
            && (exit.None? <==> !StopIsHit(p, bar) && !TargetIsHit(p, bar))
            && (TargetIsHit(p, bar) && (p.breakevenActivated || !StopIsHit(p, bar)) ==>
                  exit.Some? && Books(p, bar, commission, units, inYen, exit.value, p.tpPrice.value, TakeProfit))
            && (StopIsHit(p, bar) && !p.breakevenActivated ==>
                  exit.Some? && Books(p, bar, commission, units, inYen, exit.value, p.slPrice, StopLoss))
            && (StopIsHit(p, bar) && p.breakevenActivated && !TargetIsHit(p, bar) ==>
                  exit.Some? && Books(p, bar, commission, units, inYen, exit.value, p.slPrice, Breakeven))
  {
    hide CalculatePnl, IsRounded, Gross, Converted;
    PnlByNumbers(p, p.slPrice, commission, units, inYen);
    if p.tpPrice.Some? {
      PnlByNumbers(p, p.tpPrice.value, commission, units, inYen);
    }
  }

  /** A forced close books the close of the bar. */
  lemma ForcedByNumbers(p: Position, price: real, time: int, commission: real, units: real, inYen: bool)
    requires inYen ==> price != 0.0
    ensures var exit := ForceClosePosition(p, price, time, commission, units, inYen);
            && exit.position == p && exit.exitPrice == price && exit.exitTime == time && exit.exitReason == ForcedClose
            && exit.commission == commission
            && IsRounded(exit.pnl, Converted(Gross(p, price, units), price, inYen) - commission, 100.0)
  {
    hide CalculatePnl, IsRounded, Gross, Converted;
    PnlByNumbers(p, price, commission, units, inYen);
  }

  // ----- The replay's broker -----

  /** The broker charges no commission, and leaves a yen pair closed at a price of 0 unconverted. */
  lemma BrokerPnlByNumbers(cfg: BrokerConfig, symbol: string, p: Position, price: real)
    ensures IsRounded(CalcPnl(cfg, symbol, p, price),
                      Converted(Gross(p, price, cfg.lotSizeUnits(symbol)), price, cfg.quotedInYen(symbol) && price != 0.0),
                      100.0)
  {
    hide CalculatePnl, IsRounded, Gross, Converted;
    PnlByNumbers(p, price, 0.0, cfg.lotSizeUnits(symbol), cfg.quotedInYen(symbol) && price != 0.0);
  }

  /** A filled leg: the order's side, stop and price, its own target, and the trail that its tag calls for. */
  lemma LegByNumbers(cfg: BrokerConfig, order: Order, leg: OrderLeg, price: real, time: int, scale: real)
    ensures var p := NewPosition(cfg, order, leg, price, time, scale);
            && p.side == order.side && p.entryPrice == price && p.peakFavorablePrice == price && p.entryTime == time
            && p.slPrice == order.slPrice && p.originalSlPrice == order.slPrice && p.tpPrice == Some(leg.tpPrice)
            && p.setupTags == leg.setupTags && !p.breakevenActivated
            && p.trailConfig == Some(if "TP1" in leg.setupTags then TrailConfig(0.6, 0.0, 3.0, None) else cfg.runnerTrail)
            && IsRounded(p.lotSize, leg.lotSize * scale, 100.0)
  {
    hide ScaledLot, IsRounded;
    ScaledIsRounded(leg.lotSize, scale);
  }

  lemma ScaledIsRounded(lotSize: real, scale: real)
    ensures IsRounded(ScaledLot(lotSize, scale), lotSize * scale, 100.0)
  {
    hide Round2, IsRounded;
    Round2IsRounded(lotSize * scale);
  }

  /** A parked limit lies the fraction of the stop distance back from the entry, towards the stop, with its lots scaled up. */
  lemma ParkedByNumbers(order: Order, retrace: RetraceEntry)
    requires retrace.frac != 1.0
    ensures var limit := Park(order, retrace);
            var distance := Abs(order.entryPrice - order.slPrice);
            && limit.order == order && limit.barsLeft == retrace.expiryBars
            && limit.scale * (1.0 - retrace.frac) == 1.0
            && (order.side == Buy ==> order.entryPrice - limit.limitPrice == distance * retrace.frac)
            && (order.side == Sell ==> limit.limitPrice - order.entryPrice == distance * retrace.frac)
  {
  }
}
