/** How large a position the risk manager allows, and the money that size can lose. */
module LotSizing {
  import opened Wrappers
  import opened Numbers
  import opened Market
  import opened PositionSimulator
  import opened PositionExits
  import opened RiskManagement

  datatype DetailedRegime = StrongTrend | WeakTrend | Ranging | Volatile | Transitioning

  function RegimeMultiplier(regime: Option<DetailedRegime>): real {
    match regime
    case None => 1.0
    case Some(StrongTrend) => 1.2
    case Some(WeakTrend) => 0.9
    case Some(Ranging) => 0.7
    case Some(Volatile) => 0.6
    case Some(Transitioning) => 0.8
  }

  function QualityMultiplier(quality: Option<real>): real {
    if quality.None? then 1.0
    else if quality.value >= 75.0 then 1.3
    else if quality.value >= 65.0 then 1.15
    else if quality.value >= 55.0 then 1.0
    else if quality.value >= 45.0 then 0.85
    else if quality.value >= 35.0 then 0.7
    else 0.5
  }

  function ConfidenceMultiplier(confidence: Option<real>): real {
    if confidence.None? then 1.0
    else if confidence.value >= 70.0 then 1.2
    else if confidence.value >= 60.0 then 1.1
    else if confidence.value >= 50.0 then 1.0
    else if confidence.value >= 40.0 then 0.9
    else if confidence.value >= 30.0 then 0.8
    else 0.7
  }

  function DdMultiplier(dd: real): real {
    if dd < 10.0 then 1.0 else if dd < 20.0 then 0.5 else if dd < 30.0 then 0.25 else 0.10
  }

  function BaseRisk(riskPercent: real, regime: real, quality: real, confidence: real, dd: real): real {
    riskPercent * regime * quality * confidence * dd
  }

  /** In defensive mode half the risk, unless three wins in a row show recovery. */
  function DefensiveRisk(s: RiskState, base: real): real {
    if GetTradingMode(s) == Defensive && s.account.consecutiveWins < 3 then base * 0.5 else base
  }

  /** The risk per trade in percent of the balance, clamped to [0.5, 4]. */
  function EffectiveRisk(config: RiskConfig, s: RiskState, quality: Option<real>, regime: Option<DetailedRegime>,
                         confidence: Option<real>): (r: real)
    ensures 0.5 <= r <= 4.0
  {
    var base := BaseRisk(config.riskPercent, RegimeMultiplier(regime), QualityMultiplier(quality),
                         ConfidenceMultiplier(confidence), DdMultiplier(DdPercent(s.overallPeakEquity, s.account.equity)));
    Max(0.5, Min(4.0, DefensiveRisk(s, base)))
  }

  /** What one lot risks in the account currency when the stop is `slPoints` away. */
  function UsdPerLot(config: RiskConfig, slPoints: real, currentPrice: Option<real>): real {
    if config.quotedInYen && currentPrice.Some? && currentPrice.value != 0.0
    then slPoints * config.lotSizeUnits / currentPrice.value
    else slPoints * config.lotSizeUnits
  }

  function IdealLot(balance: real, effectiveRisk: real, usdPerLot: real): real
    requires usdPerLot != 0.0
  {
    balance * (effectiveRisk / 100.0) / usdPerLot
  }

  function RoundedLot(idealLot: real): real {
    Round2(Max(0.01, Min(1.0, idealLot)))
  }

  /** The lot for an effective risk, or 0 when even the rounded lot over-risks by more than a tenth. */
  function LotFor(balance: real, effectiveRisk: real, usdPerLot: real): real
    requires balance > 0.0 && usdPerLot > 0.0
  {
    var lotSize := RoundedLot(IdealLot(balance, effectiveRisk, usdPerLot));
    var actualRiskPct := lotSize * usdPerLot / balance * 100.0;
    if actualRiskPct > effectiveRisk * 1.10 then 0.0 else lotSize
  }

  function CalculateLotSize(config: RiskConfig, s: RiskState, slPoints: real, quality: Option<real>,
                            regime: Option<DetailedRegime>, confidence: Option<real>, currentPrice: Option<real>): real
    requires s.account.balance > 0.0 && UsdPerLot(config, slPoints, currentPrice) > 0.0
  {
    LotFor(s.account.balance, EffectiveRisk(config, s, quality, regime, confidence),
           UsdPerLot(config, slPoints, currentPrice))
  }

  // ----- The arithmetic of the rounded lot -----

  function Hundredths(n: int): real {
    n as real / 100.0
  }

  /** A lot the broker accepts: a multiple of 0.01 from 0.01 to 1. */
  predicate IsHundredths(lot: real) {
    exists n :: 1 <= n <= 100 && lot == Hundredths(n)
  }

  lemma RoundedLotIsTradeable(idealLot: real)
    ensures IsHundredths(RoundedLot(idealLot))
    ensures Max(0.01, Min(1.0, idealLot)) - 0.005 <= RoundedLot(idealLot) <= Max(0.01, Min(1.0, idealLot)) + 0.005
  {
    var clamped := Max(0.01, Min(1.0, idealLot));
    Round2Near(clamped);
    RoundMonotone(1.0, clamped * 100.0);
    RoundMonotone(clamped * 100.0, 100.0);
    var n := Round(clamped * 100.0);
    assert 1 <= n <= 100 && RoundedLot(idealLot) == Hundredths(n);
  }

  lemma DivMulCancel(x: real, d: real)
    requires d != 0.0
    ensures x / d * d == x
  {
  }

  lemma MulStrict(k: real, a: real, b: real)
    requires k > 0.0
    ensures a > b <==> k * a > k * b
  {
  }

  lemma TenthMore(balance: real, risk: real)
    ensures 1.10 * (balance * (risk / 100.0)) == balance * (risk * 1.10 / 100.0)
  {
  }

  lemma MulAssociates(k: real, a: real, b: real)
    ensures a * (k * b) == k * (b * a)
  {
  }

  /** The over-risk test compares the rounded lot's risk with 1.1 times the effective risk ... */
  lemma OverRiskInMoney(balance: real, risk: real, money: real)
    requires balance > 0.0
    ensures money / balance * 100.0 > risk * 1.10 <==> money > balance * (risk * 1.10 / 100.0)
  {
    DivMulCancel(money, balance);
    MulStrict(balance, money / balance, risk * 1.10 / 100.0);
  }

  /** ... which is to compare the rounded lot with 1.1 times the ideal one. */
  lemma OverRiskInLots(balance: real, risk: real, usdPerLot: real, lot: real)
    requires usdPerLot > 0.0
    ensures lot * usdPerLot > balance * (risk * 1.10 / 100.0) <==> lot > 1.10 * IdealLot(balance, risk, usdPerLot)
  {
    var ideal := IdealLot(balance, risk, usdPerLot);
    DivMulCancel(balance * (risk / 100.0), usdPerLot);
    TenthMore(balance, risk);
    MulAssociates(1.10, usdPerLot, ideal);
    MulStrict(usdPerLot, lot, 1.10 * ideal);
  }

  lemma OverRiskMeaning(balance: real, risk: real, usdPerLot: real, lot: real)
    requires balance > 0.0 && usdPerLot > 0.0
    ensures lot * usdPerLot / balance * 100.0 > risk * 1.10 <==> lot > 1.10 * IdealLot(balance, risk, usdPerLot)
    ensures lot * usdPerLot / balance * 100.0 > risk * 1.10 <==> lot * usdPerLot > balance * (risk * 1.10 / 100.0)
  {
    OverRiskInMoney(balance, risk, lot * usdPerLot);
    OverRiskInLots(balance, risk, usdPerLot, lot);
  }

  /** The result is 0 or a tradeable hundredth in [0.01, 1] risking at most 1.1 times the effective risk. */
  lemma LotIsBounded(balance: real, risk: real, usdPerLot: real)
    requires balance > 0.0 && usdPerLot > 0.0
    ensures var lot := LotFor(balance, risk, usdPerLot);
            lot == 0.0 || (IsHundredths(lot) && lot * usdPerLot <= balance * (risk * 1.10 / 100.0))
  {
    var lot := RoundedLot(IdealLot(balance, risk, usdPerLot));
    RoundedLotIsTradeable(IdealLot(balance, risk, usdPerLot));
    OverRiskMeaning(balance, risk, usdPerLot, lot);
  }

  /** A trade is skipped exactly when rounding the clamped ideal lot overshoots it by more than a tenth. */
  lemma SkippedExactlyWhen(balance: real, risk: real, usdPerLot: real)
    requires balance > 0.0 && usdPerLot > 0.0
    ensures var ideal := IdealLot(balance, risk, usdPerLot);
            LotFor(balance, risk, usdPerLot) == 0.0 <==> RoundedLot(ideal) > 1.10 * ideal
  {
    var ideal := IdealLot(balance, risk, usdPerLot);
    RoundedLotIsTradeable(ideal);
    OverRiskMeaning(balance, risk, usdPerLot, RoundedLot(ideal));
  }

  /** From an ideal lot of 0.05 on, no trade is skipped and the lot is the ideal one to half a hundredth, capped at 1. */
  lemma LargeLotsAreKept(balance: real, risk: real, usdPerLot: real)
    requires balance > 0.0 && usdPerLot > 0.0
    requires IdealLot(balance, risk, usdPerLot) >= 0.05
    ensures var lot, capped := LotFor(balance, risk, usdPerLot), Min(1.0, IdealLot(balance, risk, usdPerLot));
            lot > 0.0 && capped - 0.005 <= lot <= capped + 0.005
  {
    RoundedLotIsTradeable(IdealLot(balance, risk, usdPerLot));
    SkippedExactlyWhen(balance, risk, usdPerLot);
  }

  /** Whatever the market and the scores, the sized position risks at most 4.4% of the balance. */
  lemma SizedRiskIsBounded(config: RiskConfig, s: RiskState, slPoints: real, quality: Option<real>,
                           regime: Option<DetailedRegime>, confidence: Option<real>, currentPrice: Option<real>)
    requires s.account.balance > 0.0 && UsdPerLot(config, slPoints, currentPrice) > 0.0
    ensures var lot := CalculateLotSize(config, s, slPoints, quality, regime, confidence, currentPrice);
            (lot == 0.0 || IsHundredths(lot))
            && lot * UsdPerLot(config, slPoints, currentPrice) <= 0.044 * s.account.balance
  {
    var balance, usd := s.account.balance, UsdPerLot(config, slPoints, currentPrice);
    var risk := EffectiveRisk(config, s, quality, regime, confidence);
    LotIsBounded(balance, risk, usd);
    MulMonotone(balance, risk * 1.10 / 100.0, 0.044);
  }

  lemma SizedRisk(config: RiskConfig, p: Position)
    requires !config.quotedInYen
    ensures InitialRisk(p, config.lotSizeUnits) == p.lotSize * UsdPerLot(config, Risk(p), Some(p.entryPrice))
  {
  }

  /** The bounds of an exit only widen with the money at risk. */
  lemma ExitWithinLargerRisk(exit: Option<ClosedTrade>, atRisk: real, cap: real)
    requires ExitWithinRisk(exit, atRisk) && atRisk <= cap
    ensures exit.Some? ==> exit.value.pnl >= -cap - exit.value.commission - 0.005
  {
  }

  /**
   From sizing to the last exit: a position sized by the risk manager on its own stop
   distance never books a stop, target or breakeven exit that loses more than 4.4% of the
   balance it was sized on, before commission and within half a cent.
   */
  lemma SizedLifetimeLoss(config: RiskConfig, s: RiskState, p: Position, quality: Option<real>,
                          regime: Option<DetailedRegime>, confidence: Option<real>, bars: seq<Bar>, bar: Bar, commission: real)
    requires !config.quotedInYen && config.lotSizeUnits > 0.0 && s.account.balance > 0.0
    requires UsdPerLot(config, Risk(p), Some(p.entryPrice)) > 0.0
    requires Opened(p)
    requires p.lotSize == CalculateLotSize(config, s, Risk(p), quality, regime, confidence, Some(p.entryPrice))
    ensures var exit := CheckPositionExit(ManageAll(p, bars), bar, commission, config.lotSizeUnits, false);
            exit.Some? ==> exit.value.pnl >= -(0.044 * s.account.balance) - exit.value.commission - 0.005
  {
    var exit := CheckPositionExit(ManageAll(p, bars), bar, commission, config.lotSizeUnits, false);
    LifetimeLossBound(p, bars, bar, commission, config.lotSizeUnits);
    assert InitialRisk(p, config.lotSizeUnits) <= 0.044 * s.account.balance by {
      SizedRiskIsBounded(config, s, Risk(p), quality, regime, confidence, Some(p.entryPrice));
      SizedRisk(config, p);
    }
    ExitWithinLargerRisk(exit, InitialRisk(p, config.lotSizeUnits), 0.044 * s.account.balance);
  }
}
