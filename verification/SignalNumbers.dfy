/**
 What fires, and with which prices and lots, told in numbers from the setup, the close and the
 pair's configuration; and how long entries wait after a commit or an exit.
 */
module SignalNumbers {
  import opened Wrappers
  import opened Numbers
  import opened Market
  import opened Calendar
  import opened RiskManagement
  import opened SmcOrchestration
  import opened OrchestratorRuns

  // ----- Prices -----

  /** The ask of the last close for a BUY, its bid for a SELL. */
  function EntryOf(close: M15Close, p: PendingSetup): real {
    match p.direction
    case Buy => close.view.lastClose + close.view.spread / 2.0
    case Sell => close.view.lastClose - close.view.spread / 2.0
  }

  /** What the stop hides behind: the wick of a reversal, the sweep candle's far end of a continuation. */
  function ExtremeOf(p: PendingSetup): real {
    match (p.mode, p.direction)
    case (Reversal, _) => p.sweepWick
    case (Continuation, Buy) => p.sweepCandleLow
    case (Continuation, Sell) => p.sweepCandleHigh
  }

  /** The M15 range in force: that of the close, or the sweep candle's while there is none. */
  function RangeInForce(close: M15Close, p: PendingSetup): real {
    if close.view.m15Atr.Some? && close.view.m15Atr.value > 0.0 then close.view.m15Atr.value else p.sweepCandleAtr
  }

  /** One buffer beyond the extreme. */
  function StopOf(cfg: PairConfig, close: M15Close, p: PendingSetup): real {
    match p.direction
    case Buy => ExtremeOf(p) - RangeInForce(close, p) * cfg.slBufferAtrM15
    case Sell => ExtremeOf(p) + RangeInForce(close, p) * cfg.slBufferAtrM15
  }

  function DistanceOf(cfg: PairConfig, close: M15Close, p: PendingSetup): real {
    var d := EntryOf(close, p) - StopOf(cfg, close, p);
    if d < 0.0 then -d else d
  }

  function CandleRange(p: PendingSetup): real {
    p.sweepCandleHigh - p.sweepCandleLow
  }

  /** The price `r` distances from the entry on the winning side. */
  function TargetPrice(side: Side, entry: real, distance: real, r: real): real {
    match side
    case Buy => entry + distance * r
    case Sell => entry - distance * r
  }

  // ----- Lots -----

  /** How much of the sized lot a setup is worth: more when the stop is tight for its sweep candle. */
  function ConvictionMult(cfg: PairConfig, close: M15Close, p: PendingSetup): real
    requires cfg.conviction.Some? && CandleRange(p) > 0.0
  {
    if DistanceOf(cfg, close, p) / CandleRange(p) < cfg.conviction.value.tightRatio
    then cfg.conviction.value.tightMult else cfg.conviction.value.looseMult
  }

  function Weighted(lot: real, weight: real): real {
    lot * weight
  }

  /** The lot before it is split: the sized one, or its conviction multiple to the hundredth. */
  ghost predicate IsTotalLot(cfg: PairConfig, close: M15Close, p: PendingSetup, total: real) {
    if cfg.conviction.Some? && CandleRange(p) > 0.0 then
      IsRounded(total, Weighted(close.oracle.sizedLot(p), ConvictionMult(cfg, close, p)), 100.0)
    else total == close.oracle.sizedLot(p)
  }

  /** `lot` is the share to the hundredth, but at least 0.01. */
  ghost predicate IsShare(lot: real, share: real) {
    exists rounded: real :: IsRounded(rounded, share, 100.0) && lot == if rounded < 0.01 then 0.01 else rounded
  }

  /** A ladder's partial has its share and the near target, its runner the rest and the far one. */
  ghost predicate HasLegs(cfg: PairConfig, close: M15Close, p: PendingSetup, total: real, legs: seq<Leg>) {
    var entry, distance := EntryOf(close, p), DistanceOf(cfg, close, p);
    var far := TargetPrice(p.direction, entry, distance, cfg.tp2R);
    if cfg.tp1PartialFraction > 0.0 then
      && |legs| == 2
      && IsShare(legs[0].lotSize, Weighted(total, cfg.tp1PartialFraction))
      && IsRounded(legs[0].tpPrice, TargetPrice(p.direction, entry, distance, cfg.tp1R), cfg.priceFactor)
      && IsShare(legs[1].lotSize, total - legs[0].lotSize)
      && IsRounded(legs[1].tpPrice, far, cfg.priceFactor)
    else
      && |legs| == 1 && legs[0].lotSize == total && IsRounded(legs[0].tpPrice, far, cfg.priceFactor)
  }

  ghost predicate IsSignalOf(cfg: PairConfig, close: M15Close, p: PendingSetup, signal: Signal) {
    && signal.side == p.direction && signal.mode == p.mode && signal.h1SweepTime == p.sweepTime
    && IsRounded(signal.entryPrice, EntryOf(close, p), cfg.priceFactor)
    && IsRounded(signal.slPrice, StopOf(cfg, close, p), cfg.priceFactor)
    && exists total :: IsTotalLot(cfg, close, p, total) && HasLegs(cfg, close, p, total, signal.legs)
  }

  lemma PricesAre(cfg: PairConfig, close: M15Close, p: PendingSetup)
    ensures EntryPrice(close.view, p.direction) == EntryOf(close, p)
    ensures StopPrice(cfg, close.view, p) == StopOf(cfg, close, p)
    ensures Abs(EntryPrice(close.view, p.direction) - StopPrice(cfg, close.view, p)) == DistanceOf(cfg, close, p)
  {
    BufferIs(cfg, close, p);
  }

  lemma BufferIs(cfg: PairConfig, close: M15Close, p: PendingSetup)
    ensures SlBuffer(cfg, close.view, p) == RangeInForce(close, p) * cfg.slBufferAtrM15
  {
  }

  lemma ConvictionIs(cfg: PairConfig, close: M15Close, p: PendingSetup, lot: real)
    ensures ConvictionLot(cfg, p, DistanceOf(cfg, close, p), lot)
         == if cfg.conviction.Some? && CandleRange(p) > 0.0 then Round2(Weighted(lot, ConvictionMult(cfg, close, p))) else lot
  {
    hide DistanceOf, Round2, Weighted, PartOf;
    PartsAreWeights();
  }

  lemma PartsAreWeights()
    ensures forall lot, part :: PartOf(lot, part) == Weighted(lot, part)
  {
  }

  lemma TotalIs(cfg: PairConfig, close: M15Close, p: PendingSetup)
    ensures IsTotalLot(cfg, close, p,
                       ConvictionLot(cfg, p, DistanceOf(cfg, close, p), close.oracle.sizedLot(p)))
  {
    hide DistanceOf, IsRounded, Round2, ConvictionLot, ConvictionMult, Weighted;
    ConvictionIs(cfg, close, p, close.oracle.sizedLot(p));
    if cfg.conviction.Some? && CandleRange(p) > 0.0 {
      Round2IsRounded(Weighted(close.oracle.sizedLot(p), ConvictionMult(cfg, close, p)));
    }
  }

  lemma ShareIs(share: real)
    ensures IsShare(Max(0.01, Round2(share)), share)
  {
    hide Round2, IsRounded;
    Round2IsRounded(share);
    var rounded := Round2(share);
    assert IsRounded(rounded, share, 100.0) && Max(0.01, rounded) == if rounded < 0.01 then 0.01 else rounded;
  }

  lemma LegsAre(cfg: PairConfig, close: M15Close, p: PendingSetup, total: real)
    ensures HasLegs(cfg, close, p, total, Legs(cfg, p.direction, EntryOf(close, p), DistanceOf(cfg, close, p), total))
  {
    hide IsRounded, IsShare, RoundTo, Round2, EntryOf, DistanceOf, Max, TargetAt, TargetPrice, Weighted, PartOf;
    PartsAreWeights();
    var entry, distance := EntryOf(close, p), DistanceOf(cfg, close, p);
    TargetsAre(p.direction, entry, distance);
    RoundToIsRounded(TargetPrice(p.direction, entry, distance, cfg.tp1R), cfg.priceFactor);
    RoundToIsRounded(TargetPrice(p.direction, entry, distance, cfg.tp2R), cfg.priceFactor);
    ShareIs(Weighted(total, cfg.tp1PartialFraction));
    ShareIs(total - Max(0.01, Round2(Weighted(total, cfg.tp1PartialFraction))));
  }

  lemma TargetsAre(side: Side, entry: real, distance: real)
    ensures forall r :: TargetAt(side, entry, distance, r) == TargetPrice(side, entry, distance, r)
  {
  }

  // ----- When a setup fires, and when it is dropped -----

  /** The stop is no wider than the sweep candle and the M15 range allow. */
  ghost predicate WithinSweep(cfg: PairConfig, close: M15Close, p: PendingSetup) {
    cfg.maxSlSweepRatio > 0.0 && CandleRange(p) > 0.0 ==>
      DistanceOf(cfg, close, p) / CandleRange(p) <= cfg.maxSlSweepRatio
  }

  ghost predicate WithinRange(cfg: PairConfig, close: M15Close, p: PendingSetup) {
    cfg.maxSlAtrM15 > 0.0 && close.view.m15Atr.Some? && close.view.m15Atr.value > 0.0 ==>
      DistanceOf(cfg, close, p) / close.view.m15Atr.value <= cfg.maxSlAtrM15
  }

  /** The stop lies on the losing side of the entry. */
  ghost predicate StopBehind(cfg: PairConfig, close: M15Close, p: PendingSetup) {
    match p.direction
    case Buy => StopOf(cfg, close, p) < EntryOf(close, p)
    case Sell => StopOf(cfg, close, p) > EntryOf(close, p)
  }

  /** The lot is worth splitting, or at least worth trading. */
  ghost predicate LotEnough(cfg: PairConfig, close: M15Close, p: PendingSetup) {
    exists total :: IsTotalLot(cfg, close, p, total) && total >= if cfg.tp1PartialFraction > 0.0 then 0.02 else 0.01
  }

  ghost predicate CanFire(cfg: PairConfig, close: M15Close, taken: set<Option<int>>, p: PendingSetup) {
    && p.direction !in close.ctx.openDirections && p.sweepTime !in taken
    && StopBehind(cfg, close, p) && WithinSweep(cfg, close, p) && WithinRange(cfg, close, p)
    && close.oracle.gatesPass(p) && LotEnough(cfg, close, p)
  }

  /** A setup is hopeless when its sweep has been taken, or its stop is at, beyond or too far from the entry. */
  ghost predicate IsHopeless(cfg: PairConfig, close: M15Close, taken: set<Option<int>>, p: PendingSetup) {
    && p.direction !in close.ctx.openDirections
    && (|| p.sweepTime in taken
        || StopOf(cfg, close, p) == EntryOf(close, p)
        || (WithinSweep(cfg, close, p) && (!StopBehind(cfg, close, p) || !WithinRange(cfg, close, p))))
  }

  lemma LimitsAre(cfg: PairConfig, close: M15Close, p: PendingSetup)
    ensures TooLoose(cfg, p, DistanceOf(cfg, close, p)) <==> !WithinSweep(cfg, close, p)
    ensures TooWide(cfg, close.view.m15Atr, DistanceOf(cfg, close, p)) <==> !WithinRange(cfg, close, p)
    ensures Protective(p.direction, EntryOf(close, p), StopOf(cfg, close, p)) <==> StopBehind(cfg, close, p)
    ensures DistanceOf(cfg, close, p) <= 0.0 <==> StopOf(cfg, close, p) == EntryOf(close, p)
  {
    hide StopOf;
  }

  lemma TotalOnce(cfg: PairConfig, close: M15Close, p: PendingSetup, a: real, b: real)
    requires IsTotalLot(cfg, close, p, a) && IsTotalLot(cfg, close, p, b)
    ensures a == b
  {
    hide IsRounded, DistanceOf, ConvictionMult, Weighted;
    if cfg.conviction.Some? && CandleRange(p) > 0.0 {
      RoundedOnce(a, b, Weighted(close.oracle.sizedLot(p), ConvictionMult(cfg, close, p)), 100.0);
    }
  }

  lemma LotEnoughIs(cfg: PairConfig, close: M15Close, p: PendingSetup, total: real)
    requires IsTotalLot(cfg, close, p, total)
    ensures LotEnough(cfg, close, p) <==> total >= if cfg.tp1PartialFraction > 0.0 then 0.02 else 0.01
  {
    hide IsTotalLot;
    if LotEnough(cfg, close, p) {
      var other :| IsTotalLot(cfg, close, p, other) && other >= if cfg.tp1PartialFraction > 0.0 then 0.02 else 0.01;
      TotalOnce(cfg, close, p, total, other);
    }
  }

  lemma SignalIs(cfg: PairConfig, close: M15Close, p: PendingSetup)
    ensures var built := BuildSignal(cfg, p, EntryOf(close, p), StopOf(cfg, close, p), close.oracle.sizedLot(p));
            && (built.Some? <==> LotEnough(cfg, close, p))
            && (built.Some? ==> IsSignalOf(cfg, close, p, built.value))
  {
    hide EntryOf, StopOf, DistanceOf, IsTotalLot, HasLegs, Legs, IsRounded, RoundTo, ConvictionLot, LotEnough;
    assert Abs(EntryOf(close, p) - StopOf(cfg, close, p)) == DistanceOf(cfg, close, p) by {
      PricesAre(cfg, close, p);
    }
    var total := ConvictionLot(cfg, p, DistanceOf(cfg, close, p), close.oracle.sizedLot(p));
    TotalIs(cfg, close, p);
    LotEnoughIs(cfg, close, p, total);
    LegsAre(cfg, close, p, total);
    RoundToIsRounded(EntryOf(close, p), cfg.priceFactor);
    RoundToIsRounded(StopOf(cfg, close, p), cfg.priceFactor);
  }

  /** One setup at one close: it fires, is dropped, or is kept for a later bar, exactly as these say. */
  lemma JudgedByNumbers(cfg: PairConfig, close: M15Close, taken: set<Option<int>>, p: PendingSetup)
    ensures var verdict := Judge(cfg, close, taken, p);
            && (verdict.Fire? <==> CanFire(cfg, close, taken, p))
            && (verdict.Drop? <==> IsHopeless(cfg, close, taken, p))
            && (verdict.Fire? ==> IsSignalOf(cfg, close, p, verdict.signal))
  {
    hide EntryOf, StopOf, DistanceOf, EntryPrice, StopPrice, WithinSweep, WithinRange, StopBehind, LotEnough, IsSignalOf, BuildSignal,
         TooLoose, TooWide, Protective, Abs;
    PricesAre(cfg, close, p);
    LimitsAre(cfg, close, p);
    SignalIs(cfg, close, p);
    BehindIsNotAt(cfg, close, p);
  }

  lemma BehindIsNotAt(cfg: PairConfig, close: M15Close, p: PendingSetup)
    ensures StopBehind(cfg, close, p) ==> StopOf(cfg, close, p) != EntryOf(close, p)
  {
    hide EntryOf, StopOf;
  }

  // ----- When a close may fire at all -----

  /** No news, inside a killzone, and not on a skipped weekday, 1 January 1970 being a Thursday. */
  ghost predicate OpenHours(cfg: PairConfig, close: M15Close, day: int, hour: int) {
    && !(cfg.checksNews && close.view.inBlackout)
    && (exists i :: 0 <= i < |cfg.killzones| && cfg.killzones[i].0 <= hour < cfg.killzones[i].1)
    && (day + 4) % 7 !in cfg.skipEntryDows
  }

  lemma HoursByNumbers(cfg: PairConfig, close: M15Close, day: int, hour: int, rest: int)
    requires 0 <= hour < 24 && 0 <= rest < 60 * 60 * 1000
    requires close.view.now == day * (24 * 60 * 60 * 1000) + hour * (60 * 60 * 1000) + rest
    ensures DayOf(close.view.now) == day
    ensures TimeAllows(cfg, close.view) <==> OpenHours(cfg, close, day, hour)
  {
    assert DayOf(close.view.now) == day;
    assert UtcHour(close.view.now) == hour;
  }

  /** The newest setup that can fire is the one offered. */
  lemma {:induction false} NewestIsOffered(judge: PendingSetup -> Verdict, xs: seq<PendingSetup>)
    ensures Offer(judge, xs).Some? ==>
              exists i :: 0 <= i < |xs| && judge(xs[i]) == Fire(Offer(judge, xs).value)
                          && forall j :: i < j < |xs| ==> !judge(xs[j]).Fire?
    ensures Offer(judge, xs).None? ==> forall j :: 0 <= j < |xs| ==> !judge(xs[j]).Fire?
  {
    if xs != [] && !judge(xs[|xs| - 1]).Fire? {
      var init := xs[..|xs| - 1];
      NewestIsOffered(judge, init);
      if Offer(judge, init).Some? {
        var i :| 0 <= i < |init| && judge(init[i]) == Fire(Offer(judge, init).value)
                 && forall j :: i < j < |init| ==> !judge(init[j]).Fire?;
        assert xs[i] == init[i] && forall j :: i < j < |init| ==> xs[j] == init[j];
      } else {
        assert forall j :: 0 <= j < |init| ==> xs[j] == init[j];
      }
    }
  }

  /** No other setup that is newer than the `i`th of the queue can fire. */
  ghost predicate IsNewest(cfg: PairConfig, close: M15Close, taken: set<Option<int>>, queue: seq<PendingSetup>, i: int) {
    && 0 <= i < |queue| && CanFire(cfg, close, taken, queue[i])
    && forall j :: i < j < |queue| ==> !CanFire(cfg, close, taken, queue[j])
  }

  function Judging(cfg: PairConfig, close: M15Close, taken: set<Option<int>>): PendingSetup -> Verdict {
    setup => Judge(cfg, close, taken, setup)
  }

  lemma NewestFires(cfg: PairConfig, close: M15Close, taken: set<Option<int>>, queue: seq<PendingSetup>)
    ensures var offered := Offer(Judging(cfg, close, taken), queue);
            && (offered.Some? <==> exists i :: IsNewest(cfg, close, taken, queue, i))
            && (offered.Some? ==>
                  exists i :: IsNewest(cfg, close, taken, queue, i) && IsSignalOf(cfg, close, queue[i], offered.value))
  {
    hide CanFire, IsHopeless, IsSignalOf, Judge, Offer;
    var judge := Judging(cfg, close, taken);
    NewestIsOffered(judge, queue);
    forall j | 0 <= j < |queue|
      ensures judge(queue[j]).Fire? <==> CanFire(cfg, close, taken, queue[j])
      ensures judge(queue[j]).Fire? ==> IsSignalOf(cfg, close, queue[j], judge(queue[j]).signal)
    {
      JudgedByNumbers(cfg, close, taken, queue[j]);
    }
    var offered := Offer(judge, queue);
    if offered.Some? {
      var i :| 0 <= i < |queue| && judge(queue[i]) == Fire(offered.value)
               && forall j :: i < j < |queue| ==> !judge(queue[j]).Fire?;
      assert IsNewest(cfg, close, taken, queue, i);
    }
  }

  lemma EvaluateOffers(cfg: PairConfig, risk: RiskConfig, state: SymbolState, close: M15Close)
    requires Processes(close.view)
    ensures Evaluate(cfg, risk, state, close).1
         == if GatesOpen(cfg, risk, state, close)
            then Offer(Judging(cfg, close, state.actionedSweeps), Refreshed(cfg, state, close).pending) else None
  {
    hide Judge, CanTrade, TimeAllows, Refreshed, Offer, Scan;
    RefreshedKeeps(cfg, state, close);
    ScanMeaning(Judging(cfg, close, state.actionedSweeps), Refreshed(cfg, state, close).pending);
  }

  lemma RefreshedKeeps(cfg: PairConfig, state: SymbolState, close: M15Close)
    requires Processes(close.view)
    ensures var refreshed := Refreshed(cfg, state, close);
            && refreshed.actionedSweeps == state.actionedSweeps && refreshed.risk == state.risk
            && refreshed.cooldownBarsRemaining == state.cooldownBarsRemaining
  {
  }

  /**
   A close offers a signal exactly when no cooldown runs, the hours and the brake are open and
   some queued setup can fire; what it offers is the newest such setup, priced and sized so.
   */
  lemma OfferByNumbers(cfg: PairConfig, risk: RiskConfig, state: SymbolState, close: M15Close, day: int, hour: int, rest: int)
    requires Processes(close.view)
    requires 0 <= hour < 24 && 0 <= rest < 60 * 60 * 1000
    requires close.view.now == day * (24 * 60 * 60 * 1000) + hour * (60 * 60 * 1000) + rest
    ensures var offered, queue := Evaluate(cfg, risk, state, close).1, Refreshed(cfg, state, close).pending;
            && (offered.Some? <==>
                && state.cooldownBarsRemaining <= 0 && OpenHours(cfg, close, day, hour)
                && CanTrade(risk, state.risk, day, close.ctx.totalOpenPositions).1
                && exists i :: IsNewest(cfg, close, state.actionedSweeps, queue, i))
            && (offered.Some? ==>
                  exists i :: IsNewest(cfg, close, state.actionedSweeps, queue, i)
                              && IsSignalOf(cfg, close, queue[i], offered.value))
  {
    hide IsNewest, IsSignalOf, CanTrade, OpenHours, TimeAllows, Refreshed, Offer, Evaluate;
    HoursByNumbers(cfg, close, day, hour, rest);
    EvaluateOffers(cfg, risk, state, close);
    NewestFires(cfg, close, state.actionedSweeps, Refreshed(cfg, state, close).pending);
  }

  // ----- The queue -----

  /** Detection on a usable bar that catch-up still has to look at has found the setup, and the pair takes it. */
  ghost predicate JustFound(cfg: PairConfig, state: SymbolState, close: M15Close, p: PendingSetup)
    requires Processes(close.view)
  {
    && close.view.d1Adx >= cfg.d1AdxFloor && p.mode !in cfg.disabledModes && p.sweepTime !in state.actionedSweeps
    && (p.mode == Continuation ==> !cfg.disableContinuation)
    && exists idx :: CatchUpStart(state, close.view) <= idx <= |close.view.h1Times| - 2
                     && close.oracle.detectSweep(idx) == Some(p)
  }

  lemma {:induction false} FoundExactly(cfg: PairConfig, close: M15Close, taken: set<Option<int>>, lo: int, hi: int)
    ensures forall p :: p in FoundBetween(cfg, close, taken, lo, hi) <==>
                          && close.view.d1Adx >= cfg.d1AdxFloor && p.mode !in cfg.disabledModes && p.sweepTime !in taken
                          && (p.mode == Continuation ==> !cfg.disableContinuation)
                          && exists idx :: lo <= idx < hi && close.oracle.detectSweep(idx) == Some(p)
    decreases hi - lo
  {
    if lo < hi {
      FoundExactly(cfg, close, taken, lo, hi - 1);
    }
  }

  /** The queue the gates see: what was queued or has just been found, unless its last bar has passed. */
  lemma QueueByNumbers(cfg: PairConfig, state: SymbolState, close: M15Close)
    requires Processes(close.view)
    ensures forall p :: p in Refreshed(cfg, state, close).pending <==>
                          && (p in state.pending || JustFound(cfg, state, close, p))
                          && |close.view.h1Times| - 1 <= p.expiresAtH1Idx
  {
    var lastClosed, start := |close.view.h1Times| - 1, CatchUpStart(state, close.view);
    FilterMembers((p: PendingSetup) => !Expired(p, lastClosed), CatchUp(cfg, state, close).pending);
    FoundExactly(cfg, close, state.actionedSweeps, start, lastClosed);
  }

  // ----- Commits, exits and the wait after them -----

  /** A commit takes the sweep: none of its setups stays queued, the mark is set, and entries wait one bar. */
  lemma CommitByNumbers(state: SymbolState, signal: Signal)
    ensures var after := RecordEntry(state, signal);
            && (forall p :: p in after.pending <==> p in state.pending && p.sweepTime != signal.h1SweepTime)
            && (forall t :: t in after.actionedSweeps <==> t in state.actionedSweeps || t == signal.h1SweepTime)
            && after.cooldownBarsRemaining == 1
            && after.risk == state.risk && after.lastProcessedH1Time == state.lastProcessedH1Time
  {
    CommitMembers(state, signal);
  }

  /** An exit makes entries wait two bars after a target, the pair's own number after a stop, else one: never fewer than before. */
  lemma ExitByNumbers(cfg: PairConfig, state: SymbolState, reason: LiveExit, date: int, pnl: Option<real>)
    ensures var after := RecordExit(cfg, state, reason, date, pnl);
            var wait := if reason == Tp then 2 else if reason == Sl then cfg.slCooldownBars else 1;
            && after.cooldownBarsRemaining >= wait && after.cooldownBarsRemaining >= state.cooldownBarsRemaining
            && (after.cooldownBarsRemaining == wait || after.cooldownBarsRemaining == state.cooldownBarsRemaining)
            && after.pending == state.pending && after.actionedSweeps == state.actionedSweeps
            && after.lastProcessedH1Time == state.lastProcessedH1Time
            && (pnl.None? ==> after.risk == state.risk)
  {
  }

  /** With a cooldown of `n` bars, the next `n` processed closes offer nothing, and then it is over. */
  lemma {:induction false} CooldownHolds(cfg: PairConfig, risk: RiskConfig, w: World, closes: seq<M15Close>)
    requires |closes| <= w.state.cooldownBarsRemaining
    requires forall i :: 0 <= i < |closes| ==> Processes(closes[i].view)
    ensures var w' := Run(cfg, risk, w, Closes(closes));
            && w'.state.cooldownBarsRemaining == w.state.cooldownBarsRemaining - |closes|
            && (closes != [] ==> w'.offered == None)
  {
    if closes == [] {
      assert Closes(closes) == [];
    } else {
      var init, last := closes[..|closes| - 1], closes[|closes| - 1];
      CooldownHolds(cfg, risk, w, init);
      assert Closes(closes)[..|init|] == Closes(init) && Closes(closes)[|init|] == Event.Close(last);
      WaitingClose(cfg, risk, Run(cfg, risk, w, Closes(init)).state, last);
    }
  }

  function Closes(closes: seq<M15Close>): seq<Event> {
    seq(|closes|, i requires 0 <= i < |closes| => Event.Close(closes[i]))
  }

  lemma WaitingClose(cfg: PairConfig, risk: RiskConfig, state: SymbolState, close: M15Close)
    requires Processes(close.view) && state.cooldownBarsRemaining > 0
    ensures var (state', signal) := Evaluate(cfg, risk, state, close);
            signal == None && state'.cooldownBarsRemaining == state.cooldownBarsRemaining - 1
  {
  }
}
