/**
 What stop management does, told in numbers from the position and the candles alone: the
 breakeven threshold, the five trend tiers, the three gap tiers and the target's removal.
 */
module TrailTiers {
  import opened Wrappers
  import opened Numbers
  import opened Market
  import opened PositionSimulator

  /** How far a price lies on the winning side of the position's entry. */
  function Gain(p: Position, price: real): real {
    if p.side == Buy then price - p.entryPrice else p.entryPrice - price
  }

  /** The best price at which a bar could have closed the position: half the spread inside its high or low. */
  function BestClose(side: Side, bar: Bar): real {
    if side == Buy then bar.candle.high - bar.spread / 2.0 else bar.candle.low + bar.spread / 2.0
  }

  /** `m` is the largest gain over the starting peak and the bars. */
  ghost predicate IsBest(p: Position, bars: seq<Bar>, m: real) {
    && Gain(p, p.peakFavorablePrice) <= m
    && (forall i :: 0 <= i < |bars| ==> Gain(p, BestClose(p.side, bars[i])) <= m)
    && (m == Gain(p, p.peakFavorablePrice) || exists i :: 0 <= i < |bars| && m == Gain(p, BestClose(p.side, bars[i])))
  }

  /** The parameters in force: the position's own, or the default ones. */
  function Params(p: Position): TrailConfig {
    match p.trailConfig
    case Some(config) => config
    case None => TrailConfig(1.0, 2.0, 3.0, None)
  }

  /** A multiple of the risk. */
  function Multiple(risk: real, times: real): real {
    risk * times
  }

  /** `k` widths of the risk. */
  function Widths(width: real, risk: real, k: real): real {
    width * risk * k
  }

  /** The stop locks in the larger of a tenth of the risk and the best gain less `k` widths of the risk. */
  ghost predicate LocksIn(p: Position, stop: real, m: real, risk: real, width: real, k: real) {
    Gain(p, stop) == Max(Multiple(risk, 0.1), m - Widths(width, risk, k))
  }

  /** How many widths the trail keeps, `t` being its tightness. */
  ghost predicate TrendTier(m: real, risk: real, t: real, k: real) {
    && (m < risk * 2.0 ==> k == 1.0)
    && (risk * 2.0 <= m < risk * 3.0 ==> k == 0.6 + 0.15 * t)
    && (risk * 3.0 <= m < risk * 4.0 ==> k == 0.5 + 0.1 * t)
    && (risk * 4.0 <= m < risk * 5.0 ==> k == 0.4 + 0.1 * t)
    && (risk * 5.0 <= m ==> k == 0.3 + 0.1 * t)
  }

  ghost predicate GapTier(m: real, risk: real, t: real, k: real) {
    && (m < risk * 1.5 ==> k == 1.0)
    && (risk * 1.5 <= m < risk * 2.0 ==> k == 0.6 + 0.1 * t)
    && (risk * 2.0 <= m < risk * 3.0 ==> k == 0.5 + 0.1 * t)
    && (risk * 3.0 <= m ==> k == 0.4 + 0.1 * t)
  }

  /** A position as an engine opens it for the trail to manage. */
  ghost predicate Manageable(p: Position) {
    && "RANGE_ENGINE" !in p.setupTags && !p.breakevenActivated && p.slPrice == p.originalSlPrice
    && Params(p).slClampMaxAtr >= 0.0 && (Params(p).trailWidthMult.Some? ==> Params(p).trailWidthMult.value >= 0.0)
  }

  /** What the best gain `m` makes of a manageable position. */
  ghost predicate ManagedTo(p: Position, q: Position, m: real, k: real) {
    var config, risk := Params(p), Abs(p.entryPrice - p.originalSlPrice);
    var width := if config.trailWidthMult.Some? then config.trailWidthMult.value else 1.0;
    var t := if config.slClampMaxAtr < 3.0 then config.slClampMaxAtr / 3.0 else 1.0;
    && (if "FVG_FILL" in p.setupTags then GapTier(m, risk, t, k) else TrendTier(m, risk, t, k))
    && Gain(p, q.peakFavorablePrice) == m
    && (q.breakevenActivated <==> m >= Multiple(risk, config.beThresholdR))
    && (if q.breakevenActivated then LocksIn(p, q.slPrice, m, risk, width, k) else q.slPrice == p.originalSlPrice)
    && (if q.breakevenActivated && config.tpRemovalR > 0.0 && m >= Multiple(risk, config.tpRemovalR)
        then q.tpPrice == None else q.tpPrice == p.tpPrice)
  }

  lemma BestIsBestMove(p: Position, bars: seq<Bar>, m: real)
    requires IsBest(p, bars, m)
    ensures m == BestMove(p, bars)
  {
    assert forall b :: BarMove(p, b) == Gain(p, BestClose(p.side, b));
    assert forall i :: 0 <= i < |bars| ==> bars[i] in bars;
  }

  lemma OutcomeParts(p: Position, m: real, lock: real, threshold: real, removal: Option<real>, trail: real)
    ensures var q := Outcome(p, m, lock, threshold, removal, trail);
            && Gain(p, q.peakFavorablePrice) == m
            && (q.breakevenActivated <==> m >= threshold)
            && (if q.breakevenActivated then Gain(p, q.slPrice) == Max(lock, m - trail) else q.slPrice == p.originalSlPrice)
            && (if q.breakevenActivated && removal.Some? && m >= removal.value
                then q.tpPrice == None else q.tpPrice == p.tpPrice)
  {
  }

  lemma ParamsInForce(p: Position)
    ensures Config(p) == Params(p)
  {
  }

  lemma DistanceIs(m: real, risk: real, config: TrailConfig, isFvg: bool)
    ensures ComputeTrailDistance(m, risk, config, isFvg)
         == Widths(config.trailWidthMult.GetOr(1.0), risk, TierFactor(m, risk, config, isFvg))
  {
    hide TierFactor;
  }

  lemma TrailIs(p: Position, m: real, k: real)
    requires TierFactor(m, Risk(p), Config(p), HasTag(p, "FVG_FILL")) == k
    ensures var config := Params(p);
            TrailAt(p, m) == Widths(if config.trailWidthMult.Some? then config.trailWidthMult.value else 1.0, Risk(p), k)
  {
    hide TierFactor, ComputeTrailDistance, Widths, Config, Params, HasTag, Risk;
    ParamsInForce(p);
    DistanceIs(m, Risk(p), Config(p), HasTag(p, "FVG_FILL"));
  }

  lemma ConfigThresholds(risk: real, config: TrailConfig)
    ensures BreakevenThreshold(risk, config) == Multiple(risk, config.beThresholdR)
    ensures RemovalThreshold(risk, config).Some? <==> config.tpRemovalR > 0.0
    ensures config.tpRemovalR > 0.0 ==> RemovalThreshold(risk, config).value == Multiple(risk, config.tpRemovalR)
  {
  }

  lemma ThresholdsAre(p: Position)
    ensures Risk(p) == Abs(p.entryPrice - p.originalSlPrice) && Risk(p) * 0.1 == Multiple(Risk(p), 0.1)
    ensures BreakevenThreshold(Risk(p), Config(p)) == Multiple(Risk(p), Params(p).beThresholdR)
    ensures RemovalThreshold(Risk(p), Config(p)).Some? <==> Params(p).tpRemovalR > 0.0
    ensures Params(p).tpRemovalR > 0.0 ==>
              RemovalThreshold(Risk(p), Config(p)).value == Multiple(Risk(p), Params(p).tpRemovalR)
  {
    hide BreakevenThreshold, RemovalThreshold, Config, Params;
    ParamsInForce(p);
    ConfigThresholds(Risk(p), Params(p));
  }

  lemma ClosedFormIs(p: Position, m: real)
    ensures ClosedForm(p, m)
         == Outcome(p, m, Multiple(Risk(p), 0.1), BreakevenThreshold(Risk(p), Config(p)),
                    RemovalThreshold(Risk(p), Config(p)), TrailAt(p, m))
  {
    hide Outcome, TrailAt, BreakevenThreshold, RemovalThreshold;
  }

  /** The parts of the closed form once its factor is known. */
  lemma ClosedFormParts(p: Position, m: real, k: real)
    requires TierFactor(m, Risk(p), Config(p), HasTag(p, "FVG_FILL")) == k
    ensures var q, config, risk := ClosedForm(p, m), Params(p), Abs(p.entryPrice - p.originalSlPrice);
            var width := if config.trailWidthMult.Some? then config.trailWidthMult.value else 1.0;
            && Gain(p, q.peakFavorablePrice) == m
            && (q.breakevenActivated <==> m >= Multiple(risk, config.beThresholdR))
            && (if q.breakevenActivated then LocksIn(p, q.slPrice, m, risk, width, k) else q.slPrice == p.originalSlPrice)
            && (if q.breakevenActivated && config.tpRemovalR > 0.0 && m >= Multiple(risk, config.tpRemovalR)
                then q.tpPrice == None else q.tpPrice == p.tpPrice)
  {
    hide TierFactor, Outcome, ClosedForm, TrailAt, Config, Params, Gain, Max, Multiple, Widths, Risk, Abs, BreakevenThreshold,
         RemovalThreshold;
    ThresholdsAre(p);
    TrailIs(p, m, k);
    ClosedFormIs(p, m);
    OutcomeParts(p, m, Multiple(Risk(p), 0.1), BreakevenThreshold(Risk(p), Config(p)), RemovalThreshold(Risk(p), Config(p)),
                 TrailAt(p, m));
  }

  /** After any bars, everything management has done to a position follows from its best gain. */
  lemma TrailByNumbers(p: Position, bars: seq<Bar>, m: real)
    requires Manageable(p) && bars != [] && IsBest(p, bars, m)
    ensures exists k :: ManagedTo(p, ManageAll(p, bars), m, k)
  {
    hide ClosedForm, ManageAll, TierFactor, IsBest, LocksIn, Gain, Multiple, Abs, TrendTier, GapTier, Params, HasTag, Fresh, Manageable;
    var k := TierFactor(m, Risk(p), Config(p), HasTag(p, "FVG_FILL"));
    BestIsBestMove(p, bars, m);
    FreshIsManageable(p);
    TrailClosedForm(p, bars);
    FactorIsTier(p, m);
    ClosedFormParts(p, m, k);
    assert ManagedTo(p, ManageAll(p, bars), m, k);
  }

  lemma FreshIsManageable(p: Position)
    requires Manageable(p)
    ensures Fresh(p)
  {
  }

  lemma FactorIsTier(p: Position, m: real)
    requires Manageable(p)
    ensures var config, risk := Params(p), Abs(p.entryPrice - p.originalSlPrice);
            var t := if config.slClampMaxAtr < 3.0 then config.slClampMaxAtr / 3.0 else 1.0;
            var k := TierFactor(m, Risk(p), Config(p), HasTag(p, "FVG_FILL"));
            if "FVG_FILL" in p.setupTags then GapTier(m, risk, t, k) else TrendTier(m, risk, t, k)
  {
  }
}
