/**
 Stop management of one open position: breakeven, the five-tier trail and the removal
 of the target, one candle at a time; and the closed form of any number of candles.
 */
module PositionSimulator {
  import opened Wrappers
  import opened Numbers
  import opened Market

  const DEFAULT_TRAIL_CONFIG := TrailConfig(1.0, 2.0, 3.0, None)

  /** A candle with the spread that was in force when it opened. */
  datatype Bar = Bar(candle: Candle, spread: real)

  // ----- The simulator's functions -----

  predicate HasTag(p: Position, tag: string) {
    tag in p.setupTags
  }

  function Config(p: Position): TrailConfig {
    p.trailConfig.GetOr(DEFAULT_TRAIL_CONFIG)
  }

  function Risk(p: Position): real {
    Abs(p.entryPrice - p.originalSlPrice)
  }

  /** The share of the risk that the trail keeps behind the peak, by tier. */
  function TierFactor(favorableMove: real, risk: real, config: TrailConfig, isFvg: bool): real {
    var tightness := Min(1.0, config.slClampMaxAtr / 3.0);
    if isFvg then
      if favorableMove >= risk * 3.0 then 0.4 + 0.1 * tightness
      else if favorableMove >= risk * 2.0 then 0.5 + 0.1 * tightness
      else if favorableMove >= risk * 1.5 then 0.6 + 0.1 * tightness
      else 1.0
    else
      if favorableMove >= risk * 5.0 then 0.3 + 0.1 * tightness
      else if favorableMove >= risk * 4.0 then 0.4 + 0.1 * tightness
      else if favorableMove >= risk * 3.0 then 0.5 + 0.1 * tightness
      else if favorableMove >= risk * 2.0 then 0.6 + 0.15 * tightness
      else 1.0
  }

  function ComputeTrailDistance(favorableMove: real, risk: real, config: TrailConfig, isFvg: bool): real {
    config.trailWidthMult.GetOr(1.0) * risk * TierFactor(favorableMove, risk, config, isFvg)
  }

  /** The peak after a bar: the best bid of its high, or ask of its low, seen so far. */
  function UpdatedPeak(p: Position, bar: Bar): real {
    var halfSpread := bar.spread / 2.0;
    match p.side
    case Buy =>
      var currentBid := bar.candle.high - halfSpread;
      if currentBid > p.peakFavorablePrice then currentBid else p.peakFavorablePrice
    case Sell =>
      var currentAsk := bar.candle.low + halfSpread;
      if currentAsk < p.peakFavorablePrice then currentAsk else p.peakFavorablePrice
  }

  /**
   Breakeven, trail and target removal once the peak is known: `lock` is what breakeven
   locks in, `threshold` activates it, `removal` (if any) drops the target.
   */
  function Ratchet(p: Position, peak: real, lock: real, threshold: real, removal: Option<real>, trail: real): Position {
    match p.side
    case Buy =>
      var activates := !p.breakevenActivated && peak >= p.entryPrice + threshold;
      var sl := if activates then p.entryPrice + lock else p.slPrice;
      if p.breakevenActivated || activates then
        var removes := removal.Some? && peak - p.entryPrice >= removal.value;
        var trailSl := peak - trail;
        p.(peakFavorablePrice := peak,
        breakevenActivated := true,
        slPrice := if trailSl > sl then trailSl else sl,
        tpPrice := if removes then None else p.tpPrice)
      else
        p.(peakFavorablePrice := peak)
    case Sell =>
      var activates := !p.breakevenActivated && peak <= p.entryPrice - threshold;
      var sl := if activates then p.entryPrice - lock else p.slPrice;
      if p.breakevenActivated || activates then
        var removes := removal.Some? && p.entryPrice - peak >= removal.value;
        var trailSl := peak + trail;
        p.(peakFavorablePrice := peak,
        breakevenActivated := true,
        slPrice := if trailSl < sl then trailSl else sl,
        tpPrice := if removes then None else p.tpPrice)
      else
        p.(peakFavorablePrice := peak)
  }

  /** How far `price` is from the entry in the position's favour. */
  function MoveTo(p: Position, price: real): real {
    match p.side
    case Buy => price - p.entryPrice
    case Sell => p.entryPrice - price
  }

  function BreakevenThreshold(risk: real, config: TrailConfig): real {
    risk * config.beThresholdR
  }

  function RemovalThreshold(risk: real, config: TrailConfig): Option<real> {
    if config.tpRemovalR > 0.0 then Some(risk * config.tpRemovalR) else None
  }

  function TrailAt(p: Position, move: real): real {
    ComputeTrailDistance(move, Risk(p), Config(p), HasTag(p, "FVG_FILL"))
  }

  /** One candle of management; the same position comes back when nothing changed. */
  function UpdatePositionManagement(p: Position, bar: Bar): Position {
    if HasTag(p, "RANGE_ENGINE") then p
    else
      var peak := UpdatedPeak(p, bar);
      Ratchet(p, peak, Risk(p) * 0.1, BreakevenThreshold(Risk(p), Config(p)), RemovalThreshold(Risk(p), Config(p)),
              TrailAt(p, MoveTo(p, peak)))
  }

  /** The position after managing it over all the bars, in order. */
  function ManageAll(p: Position, bars: seq<Bar>): Position {
    if bars == [] then p
    else UpdatePositionManagement(ManageAll(p, bars[..|bars| - 1]), bars[|bars| - 1])
  }

  // ----- The closed form -----

  /** The price that lies `move` from the entry in the position's favour. */
  function PriceAt(p: Position, move: real): real {
    match p.side
    case Buy => p.entryPrice + move
    case Sell => p.entryPrice - move
  }

  /** The best price a bar offers to close the position at: the bid of its high, or the ask of its low. */
  function BarMove(p: Position, bar: Bar): real {
    match p.side
    case Buy => bar.candle.high - bar.spread / 2.0 - p.entryPrice
    case Sell => p.entryPrice - (bar.candle.low + bar.spread / 2.0)
  }

  /** The best favourable move over the starting peak and all the bars. */
  function BestMove(p: Position, bars: seq<Bar>): (m: real)
    ensures m >= MoveTo(p, p.peakFavorablePrice)
    ensures forall b :: b in bars ==> m >= BarMove(p, b)
    ensures m == MoveTo(p, p.peakFavorablePrice) || exists b :: b in bars && m == BarMove(p, b)
  {
    if bars == [] then MoveTo(p, p.peakFavorablePrice)
    else
      var rest := BestMove(p, bars[..|bars| - 1]);
      assert bars == bars[..|bars| - 1] + [bars[|bars| - 1]];
      Max(rest, BarMove(p, bars[|bars| - 1]))
  }

  ghost predicate SaneConfig(c: TrailConfig) {
    c.trailWidthMult.GetOr(1.0) >= 0.0 && c.slClampMaxAtr >= 0.0
  }

  /** A position as every engine opens it (its peak starts at or near the entry), managed by a trail. */
  ghost predicate Fresh(p: Position) {
    && !HasTag(p, "RANGE_ENGINE")
    && !p.breakevenActivated
    && p.slPrice == p.originalSlPrice
    && SaneConfig(Config(p))
  }

  /** The move that the ideal stop locks in once breakeven is active and the best move is `move`. */
  function LockedMove(p: Position, move: real): real {
    Max(Risk(p) * 0.1, move - TrailAt(p, move))
  }

  predicate BreakevenReached(p: Position, move: real) {
    move >= BreakevenThreshold(Risk(p), Config(p))
  }

  /** The position whose best move is `move`, under the given lock, thresholds and trail at that move. */
  function Outcome(p: Position, move: real, lock: real, threshold: real, removal: Option<real>, trail: real): Position {
    p.(peakFavorablePrice := PriceAt(p, move),
    breakevenActivated := move >= threshold,
    slPrice := if move >= threshold then PriceAt(p, Max(lock, move - trail)) else p.originalSlPrice,
    tpPrice := if move >= threshold && removal.Some? && move >= removal.value then None else p.tpPrice)
  }

  /** What a fresh position becomes when the best move it has seen is `move`. */
  function ClosedForm(p: Position, move: real): Position {
    Outcome(p, move, Risk(p) * 0.1, BreakevenThreshold(Risk(p), Config(p)), RemovalThreshold(Risk(p), Config(p)),
            TrailAt(p, move))
  }

  lemma TierFactorNonIncreasing(m1: real, m2: real, risk: real, config: TrailConfig, isFvg: bool)
    requires m1 <= m2 && config.slClampMaxAtr >= 0.0
    requires risk >= 0.0
    ensures 0.0 <= TierFactor(m2, risk, config, isFvg) <= TierFactor(m1, risk, config, isFvg) <= 1.0
  {
  }

  lemma TrailDistanceShrinks(m1: real, m2: real, risk: real, config: TrailConfig, isFvg: bool)
    requires m1 <= m2 && risk >= 0.0 && SaneConfig(config)
    ensures 0.0 <= ComputeTrailDistance(m2, risk, config, isFvg) <= ComputeTrailDistance(m1, risk, config, isFvg)
  {
    var width := config.trailWidthMult.GetOr(1.0);
    MulMonotone(width, 0.0, risk);
    TierFactorNonIncreasing(m1, m2, risk, config, isFvg);
    MulMonotone(width * risk, 0.0, TierFactor(m2, risk, config, isFvg));
    MulMonotone(width * risk, TierFactor(m2, risk, config, isFvg), TierFactor(m1, risk, config, isFvg));
  }

  /** The trail only ever tightens in absolute distance, so the trailed stop never loosens. */
  lemma TrailTightens(p: Position, m1: real, m2: real)
    requires m1 <= m2 && SaneConfig(Config(p))
    ensures 0.0 <= TrailAt(p, m2) <= TrailAt(p, m1)
    ensures m1 - TrailAt(p, m1) <= m2 - TrailAt(p, m2)
    ensures LockedMove(p, m1) <= LockedMove(p, m2)
  {
    TrailDistanceShrinks(m1, m2, Risk(p), Config(p), HasTag(p, "FVG_FILL"));
  }

  lemma RatchetFromFresh(p: Position, move: real, lock: real, threshold: real, removal: Option<real>, trail: real)
    requires !p.breakevenActivated && p.slPrice == p.originalSlPrice
    ensures Ratchet(p, PriceAt(p, move), lock, threshold, removal, trail)
         == Outcome(p, move, lock, threshold, removal, trail)
  {
  }

  lemma RatchetAgain(p: Position, m: real, next: real, lock: real, threshold: real, removal: Option<real>,
                     trail: real, nextTrail: real)
    requires m <= next && m - trail <= next - nextTrail
    ensures Ratchet(Outcome(p, m, lock, threshold, removal, trail), PriceAt(p, next), lock, threshold, removal, nextTrail)
         == Outcome(p, next, lock, threshold, removal, nextTrail)
  {
  }

  lemma UpdateUnfolds(p: Position, bar: Bar, peak: real, move: real)
    requires !HasTag(p, "RANGE_ENGINE")
    requires peak == UpdatedPeak(p, bar) && move == MoveTo(p, peak)
    ensures UpdatePositionManagement(p, bar)
         == Ratchet(p, peak, Risk(p) * 0.1, BreakevenThreshold(Risk(p), Config(p)),
                    RemovalThreshold(Risk(p), Config(p)), TrailAt(p, move))
  {
  }

  lemma FirstStep(p: Position, bar: Bar)
    requires Fresh(p)
    ensures UpdatePositionManagement(p, bar)
         == ClosedForm(p, Max(MoveTo(p, p.peakFavorablePrice), BarMove(p, bar)))
  {
    var next := Max(MoveTo(p, p.peakFavorablePrice), BarMove(p, bar));
    UpdateUnfolds(p, bar, PriceAt(p, next), next);
    RatchetFromFresh(p, next, Risk(p) * 0.1, BreakevenThreshold(Risk(p), Config(p)), RemovalThreshold(Risk(p), Config(p)),
                     TrailAt(p, next));
  }

  lemma UpdateOfOutcome(p: Position, m: real, lock: real, threshold: real, removal: Option<real>, trail: real,
                        bar: Bar, next: real)
    requires !HasTag(p, "RANGE_ENGINE") && next == Max(m, BarMove(p, bar))
    ensures UpdatePositionManagement(Outcome(p, m, lock, threshold, removal, trail), bar)
         == Ratchet(Outcome(p, m, lock, threshold, removal, trail), PriceAt(p, next), Risk(p) * 0.1,
                    BreakevenThreshold(Risk(p), Config(p)), RemovalThreshold(Risk(p), Config(p)), TrailAt(p, next))
  {
    var q := Outcome(p, m, lock, threshold, removal, trail);
    UpdateUnfolds(q, bar, PriceAt(p, next), next);
    assert Risk(q) == Risk(p) && Config(q) == Config(p);
  }

  lemma NextStep(p: Position, m: real, bar: Bar)
    requires Fresh(p)
    ensures UpdatePositionManagement(ClosedForm(p, m), bar) == ClosedForm(p, Max(m, BarMove(p, bar)))
  {
    var next := Max(m, BarMove(p, bar));
    var lock, threshold, removal := Risk(p) * 0.1, BreakevenThreshold(Risk(p), Config(p)), RemovalThreshold(Risk(p), Config(p));
    UpdateOfOutcome(p, m, lock, threshold, removal, TrailAt(p, m), bar, next);
    TrailTightens(p, m, next);
    RatchetAgain(p, m, next, lock, threshold, removal, TrailAt(p, m), TrailAt(p, next));
  }

  /** The whole fold depends on the bars only through the best price seen. */
  lemma {:induction false} TrailClosedForm(p: Position, bars: seq<Bar>)
    requires Fresh(p)
    ensures ManageAll(p, bars) == if bars == [] then p else ClosedForm(p, BestMove(p, bars))
  {
    if bars != [] {
      var init, last := bars[..|bars| - 1], bars[|bars| - 1];
      TrailClosedForm(p, init);
      if init == [] {
        FirstStep(p, last);
      } else {
        NextStep(p, BestMove(p, init), last);
      }
    }
  }

  lemma BestMoveOfMultiset(p: Position, a: seq<Bar>, b: seq<Bar>)
    requires multiset(a) == multiset(b)
    ensures BestMove(p, a) <= BestMove(p, b)
  {
    var m := BestMove(p, a);
    if m != MoveTo(p, p.peakFavorablePrice) {
      var bar :| bar in a && m == BarMove(p, bar);
      assert bar in multiset(a);
    }
  }

  /** Any reordering of the same bars leaves the same position. */
  lemma TrailOrderIndependent(p: Position, a: seq<Bar>, b: seq<Bar>)
    requires Fresh(p)
    requires multiset(a) == multiset(b)
    ensures ManageAll(p, a) == ManageAll(p, b)
  {
    TrailClosedForm(p, a);
    TrailClosedForm(p, b);
    BestMoveOfMultiset(p, a, b);
    BestMoveOfMultiset(p, b, a);
    assert |a| == |multiset(a)| == |multiset(b)| == |b|;
  }

  // ----- Selling is the price mirror of buying -----

  function MirrorCandle(c: Candle): Candle {
    Candle(c.openTime, -c.open, -c.low, -c.high, -c.close)
  }

  function MirrorBar(b: Bar): Bar {
    Bar(MirrorCandle(b.candle), b.spread)
  }

  function MirrorBars(bars: seq<Bar>): seq<Bar> {
    seq(|bars|, i requires 0 <= i < |bars| => MirrorBar(bars[i]))
  }

  function Mirror(p: Position): Position {
    p.(side := if p.side.Buy? then Sell else Buy,
    entryPrice := -p.entryPrice,
    slPrice := -p.slPrice,
    originalSlPrice := -p.originalSlPrice,
    peakFavorablePrice := -p.peakFavorablePrice,
    tpPrice := if p.tpPrice.Some? then Some(-p.tpPrice.value) else None)
  }

  lemma MirrorRatchet(p: Position, peak: real, lock: real, threshold: real, removal: Option<real>, trail: real)
    ensures Ratchet(Mirror(p), -peak, lock, threshold, removal, trail)
         == Mirror(Ratchet(p, peak, lock, threshold, removal, trail))
  {
    if p.breakevenActivated {
      match p.side { case Buy => case Sell => }
    } else if MoveTo(p, peak) >= threshold {
      match p.side { case Buy => case Sell => }
    } else {
      match p.side { case Buy => case Sell => }
    }
  }

  lemma MirrorFacts(p: Position, bar: Bar, peak: real)
    requires peak == UpdatedPeak(p, bar)
    ensures HasTag(Mirror(p), "RANGE_ENGINE") == HasTag(p, "RANGE_ENGINE")
    ensures UpdatedPeak(Mirror(p), MirrorBar(bar)) == -peak && MoveTo(Mirror(p), -peak) == MoveTo(p, peak)
    ensures Risk(Mirror(p)) == Risk(p) && Config(Mirror(p)) == Config(p)
    ensures TrailAt(Mirror(p), MoveTo(p, peak)) == TrailAt(p, MoveTo(p, peak))
  {
    hide ComputeTrailDistance;
    assert Risk(Mirror(p)) == Risk(p);
  }

  lemma RangeStep(p: Position, bar: Bar)
    requires HasTag(p, "RANGE_ENGINE")
    ensures UpdatePositionManagement(p, bar) == p
  {
  }

  lemma MirrorStep(p: Position, bar: Bar)
    ensures UpdatePositionManagement(Mirror(p), MirrorBar(bar)) == Mirror(UpdatePositionManagement(p, bar))
  {
    hide *;
    var peak := UpdatedPeak(p, bar);
    MirrorFacts(p, bar, peak);
    if HasTag(p, "RANGE_ENGINE") {
      RangeStep(p, bar);
      RangeStep(Mirror(p), MirrorBar(bar));
    } else {
      var move := MoveTo(p, peak);
      UpdateUnfolds(p, bar, peak, move);
      UpdateUnfolds(Mirror(p), MirrorBar(bar), -peak, move);
      MirrorRatchet(p, peak, Risk(p) * 0.1, BreakevenThreshold(Risk(p), Config(p)),
                    RemovalThreshold(Risk(p), Config(p)), TrailAt(p, move));
    }
  }

  lemma {:induction false} SellMirrorsBuy(p: Position, bars: seq<Bar>)
    ensures ManageAll(Mirror(p), MirrorBars(bars)) == Mirror(ManageAll(p, bars))
  {
    if bars != [] {
      var init, last := bars[..|bars| - 1], bars[|bars| - 1];
      SellMirrorsBuy(p, init);
      assert MirrorBars(bars)[..|bars| - 1] == MirrorBars(init);
      MirrorStep(ManageAll(p, init), last);
    }
  }
}
