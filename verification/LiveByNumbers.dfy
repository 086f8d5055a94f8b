/**
 What a run of the live manager does to one trade, told in numbers from its row, the broker's
 position and the candles: breakeven, the stop within the throttle, and the target.
 */
module LiveByNumbers {
  import opened Wrappers
  import opened Numbers
  import opened Market
  import opened PositionSimulator
  import opened TrailTiers
  import opened LivePositionManagement

  /** The stored key decides; without one, the tags do. */
  predicate IsPartial(row: TradeRow) {
    match row.managementState.trailKey
    case Some(key) => key == Tp1
    case None => "TP1" in row.setupTags
  }

  function OriginalStop(row: TradeRow): real {
    match row.managementState.originalSlPrice
    case Some(stop) => stop
    case None => row.slPrice
  }

  function StartPeak(row: TradeRow, broker: BrokerPosition): real {
    match row.managementState.peakFavorablePrice
    case Some(peak) => peak
    case None => broker.entryPrice
  }

  /** How far a price lies on the winning side of the row's entry. */
  function RowGain(row: TradeRow, price: real): real {
    if row.side == Buy then price - row.entryPrice else row.entryPrice - price
  }

  function RowRisk(row: TradeRow): real {
    Abs(row.entryPrice - OriginalStop(row))
  }

  /** No breakeven stored yet, and the broker holds the original, protective stop. */
  ghost predicate FreshRow(row: TradeRow, broker: BrokerPosition) {
    && row.managementState.breakevenActivated != Some(true)
    && broker.sl == OriginalStop(row) > 0.0 && RowGain(row, broker.sl) < 0.0
  }

  /** Every price a SELL's stop could take is positive: a broker stop of 0 would mean none. */
  ghost predicate SellPrices(row: TradeRow, broker: BrokerPosition, rounds: seq<Round>) {
    row.side == Sell ==>
      && row.entryPrice - Multiple(RowRisk(row), 0.1) > 0.0 && StartPeak(row, broker) > 0.0
      && forall i :: 0 <= i < |rounds| ==> rounds[i].bar.candle.low + rounds[i].bar.spread / 2.0 > 0.0
  }

  /** `m` is the largest gain over the starting peak and the bars. */
  ghost predicate IsBestOf(row: TradeRow, broker: BrokerPosition, bars: seq<Bar>, m: real) {
    && RowGain(row, StartPeak(row, broker)) <= m
    && (forall i :: 0 <= i < |bars| ==> RowGain(row, BestClose(row.side, bars[i])) <= m)
    && (m == RowGain(row, StartPeak(row, broker))
        || exists i :: 0 <= i < |bars| && m == RowGain(row, BestClose(row.side, bars[i])))
  }

  /** A partial reaches breakeven at 0.6 times its risk, any other trade at 1.5 times. */
  ghost predicate AtBreakeven(row: TradeRow, kept: seq<Bar>, m: real) {
    kept != [] && m >= Multiple(RowRisk(row), if IsPartial(row) then 0.6 else 1.5)
  }

  /** The position that any row stands for, field by field: what is stored counts, then the row, and the broker's prices when set. */
  lemma RowByNumbers(row: TradeRow, broker: BrokerPosition)
    ensures var p := ToPosition(row, broker);
            && p.side == row.side && p.entryPrice == row.entryPrice && p.lotSize == row.lotSize
            && p.slPrice == (if broker.sl > 0.0 then broker.sl else row.slPrice)
            && p.tpPrice == Some(if broker.tp > 0.0 then broker.tp else row.tpPrice)
            && p.originalSlPrice == OriginalStop(row) && p.peakFavorablePrice == StartPeak(row, broker)
            && (p.breakevenActivated <==> row.managementState.breakevenActivated == Some(true))
            && p.trailConfig == Some(if IsPartial(row) then TrailConfig(0.6, 0.0, 3.0, None) else TrailConfig(1.5, 3.0, 4.0, None))
            && "RANGE_ENGINE" !in p.setupTags && "FVG_FILL" !in p.setupTags
  {
  }

  /** A fresh row stands for a position that the trail can manage. */
  lemma PositionOfRow(row: TradeRow, broker: BrokerPosition)
    requires FreshRow(row, broker)
    ensures var p := ToPosition(row, broker);
            && Manageable(p) && "FVG_FILL" !in p.setupTags
            && Params(p) == (if IsPartial(row) then TrailConfig(0.6, 0.0, 3.0, None) else TrailConfig(1.5, 3.0, 4.0, None))
            && p.side == row.side && p.entryPrice == row.entryPrice && p.originalSlPrice == OriginalStop(row)
            && p.peakFavorablePrice == StartPeak(row, broker)
    ensures FreshTrade(row, broker)
  {
  }

  lemma PricesOfRow(row: TradeRow, broker: BrokerPosition, rounds: seq<Round>)
    requires FreshRow(row, broker) && SellPrices(row, broker, rounds)
    ensures PositivePrices(ToPosition(row, broker), BarsOf(rounds))
  {
    hide ToPosition;
    PositionOfRow(row, broker);
  }

  lemma BestOfRow(row: TradeRow, broker: BrokerPosition, bars: seq<Bar>, m: real)
    requires FreshRow(row, broker) && IsBestOf(row, broker, bars, m)
    ensures m == BestMove(ToPosition(row, broker), bars)
  {
    hide ToPosition, BestMove;
    var p := ToPosition(row, broker);
    PositionOfRow(row, broker);
    assert forall price :: Gain(p, price) == RowGain(row, price);
    BestIsBestMove(p, bars, m);
  }

  lemma StoredBreakeven(row: TradeRow, broker: BrokerPosition)
    ensures ToPosition(row, broker).breakevenActivated <==> row.managementState.breakevenActivated == Some(true)
    ensures broker.sl > 0.0 ==> ToPosition(row, broker).slPrice == broker.sl
  {
  }

  /** The ideal stop of a row whose best gain is `m`: the trend tiers at full tightness. */
  lemma LockedOfRow(row: TradeRow, broker: BrokerPosition, m: real)
    requires FreshRow(row, broker)
    ensures exists k :: TrendTier(m, RowRisk(row), 1.0, k)
                        && LockedMove(ToPosition(row, broker), m)
                           == Max(Multiple(RowRisk(row), 0.1), m - Widths(1.0, RowRisk(row), k))
  {
    hide ToPosition, TierFactor, TrailAt, Widths, TrendTier, GapTier, Manageable;
    var p := ToPosition(row, broker);
    PositionOfRow(row, broker);
    var k := TierFactor(m, Risk(p), Config(p), HasTag(p, "FVG_FILL"));
    FactorIsTier(p, m);
    TrailIs(p, m, k);
    ThresholdsAre(p);
    assert TrendTier(m, RowRisk(row), 1.0, k);
  }

  /**
   After any rounds, with `m` the best gain of the bars whose round was not rejected: breakeven is
   stored exactly when it has been reached; before it the broker holds the original stop; after
   it, what its stop locks in is at most the ideal and within the throttle of it.
   */
  lemma LiveRunByNumbers(row: TradeRow, broker: BrokerPosition, rounds: seq<Round>, minChange: real, m: real)
    requires FreshRow(row, broker) && SellPrices(row, broker, rounds) && minChange > 0.0
    requires IsBestOf(row, broker, KeptBars(row, broker, rounds, minChange), m)
    ensures var (row', broker') := ManageRounds(row, broker, rounds, minChange);
            var risk := RowRisk(row);
            && (row'.managementState.breakevenActivated == Some(true) <==>
                AtBreakeven(row, KeptBars(row, broker, rounds, minChange), m))
            && (row'.managementState.breakevenActivated != Some(true) ==> broker'.sl == OriginalStop(row))
            && (row'.managementState.breakevenActivated == Some(true) ==>
                  exists k :: TrendTier(m, risk, 1.0, k)
                              && RowGain(row, broker'.sl) <= Max(Multiple(risk, 0.1), m - Widths(1.0, risk, k))
                                 < RowGain(row, broker'.sl) + minChange)
  {
    hide ToPosition, ManageRounds, KeptBars, BestMove, IsBestOf, LockedMove, FreshRow, SellPrices, FreshTrade, Widths,
         Multiple, Max, TrendTier;
    var p, kept := ToPosition(row, broker), KeptBars(row, broker, rounds, minChange);
    var (row', broker') := ManageRounds(row, broker, rounds, minChange);
    PositionOfRow(row, broker);
    PricesOfRow(row, broker, rounds);
    BestOfRow(row, broker, kept, m);
    LiveRunRefines(row, broker, rounds, minChange);
    StoredBreakeven(row', broker');
    ReachedInNumbers(row, broker, m);
    LockedOfRow(row, broker, m);
  }

  lemma ReachedInNumbers(row: TradeRow, broker: BrokerPosition, m: real)
    requires FreshRow(row, broker)
    ensures BreakevenReached(ToPosition(row, broker), m) <==>
              m >= Multiple(RowRisk(row), if IsPartial(row) then 0.6 else 1.5)
    ensures forall price :: MoveTo(ToPosition(row, broker), price) == RowGain(row, price)
  {
    hide ToPosition;
    PositionOfRow(row, broker);
    ThresholdsAre(ToPosition(row, broker));
  }

  // ----- The target -----

  /** The target the manager works with: the broker's, or the row's when the broker has none. */
  function Target(row: TradeRow, broker: BrokerPosition): real {
    if broker.tp > 0.0 then broker.tp else row.tpPrice
  }

  /** A partial keeps its target; any other trade loses it at three times its risk. */
  ghost predicate LosesTarget(row: TradeRow, kept: seq<Bar>, m: real) {
    kept != [] && !IsPartial(row) && m >= Multiple(RowRisk(row), 3.0)
  }

  /** The broker's target is gone exactly when it is lost; otherwise it is the first one in force. The row never loses its own. */
  ghost predicate TargetFollows(row: TradeRow, broker: BrokerPosition, row': TradeRow, broker': BrokerPosition,
                                lost: bool) {
    && (row'.tpPrice == row.tpPrice || row'.tpPrice == Target(row, broker))
    && if lost then broker'.tp == 0.0
       else
         && Target(row', broker') == Target(row, broker)
         && (broker'.tp == broker.tp || broker'.tp == Target(row, broker))
  }

  lemma UpdatedTarget(q: Position, bar: Bar, peak: real)
    requires !HasTag(q, "RANGE_ENGINE") && peak == UpdatedPeak(q, bar)
    ensures var r := UpdatePositionManagement(q, bar);
            r.tpPrice == if r.breakevenActivated && RemovalThreshold(Risk(q), Config(q)).Some?
                            && MoveTo(q, peak) >= RemovalThreshold(Risk(q), Config(q)).value
                         then None else q.tpPrice
  {
    hide TrailAt, BreakevenThreshold, RemovalThreshold;
    UpdateUnfolds(q, bar, peak, MoveTo(q, peak));
  }

  lemma TargetOfPosition(row: TradeRow, broker: BrokerPosition)
    ensures ToPosition(row, broker).tpPrice == Some(Target(row, broker))
  {
  }

  /** One update that is not rejected, given what it does to the target. */
  lemma TargetRound(row: TradeRow, broker: BrokerPosition, round: Round, minChange: real)
    requires !IsRejected(row, broker, round, minChange)
    ensures var r := UpdatePositionManagement(ToPosition(row, broker), round.bar);
            var (row', broker') := ManageTrade(row, broker, round.bar, minChange, round.accepted);
            && (r.tpPrice == None ==> broker'.tp == 0.0 && row'.tpPrice == row.tpPrice)
            && (r.tpPrice == Some(Target(row, broker)) ==> TargetFollows(row, broker, row', broker', false))
  {
    hide UpdatePositionManagement;
    TargetOfPosition(row, broker);
  }

  lemma FollowsOn(row: TradeRow, broker: BrokerPosition, row1: TradeRow, broker1: BrokerPosition, row2: TradeRow,
                  broker2: BrokerPosition)
    requires TargetFollows(row, broker, row1, broker1, false) && TargetFollows(row1, broker1, row2, broker2, false)
    ensures TargetFollows(row, broker, row2, broker2, false)
  {
  }

  lemma SameThresholds(p: Position, q: Position)
    requires SameTrade(p, q)
    ensures RemovalThreshold(Risk(q), Config(q)) == RemovalThreshold(Risk(p), Config(p))
    ensures HasTag(q, "RANGE_ENGINE") == HasTag(p, "RANGE_ENGINE")
    ensures forall price :: MoveTo(q, price) == MoveTo(p, price)
  {
    assert Risk(q) == Risk(p) && Config(q) == Config(p);
  }

  lemma RemovalInNumbers(row: TradeRow, broker: BrokerPosition, m: real)
    requires FreshRow(row, broker)
    ensures var p := ToPosition(row, broker);
            var removal := RemovalThreshold(Risk(p), Config(p));
            (removal.Some? && m >= removal.value) <==> (!IsPartial(row) && m >= Multiple(RowRisk(row), 3.0))
    ensures !IsPartial(row) && m >= Multiple(RowRisk(row), 3.0) ==> BreakevenReached(ToPosition(row, broker), m)
  {
    hide ToPosition, RemovalThreshold;
    PositionOfRow(row, broker);
    ThresholdsAre(ToPosition(row, broker));
    ReachedInNumbers(row, broker, m);
  }

  /** The update of a trade that has stored the best of `kept`: its target is removed exactly when it is lost. */
  lemma UpdateLosesTarget(row: TradeRow, broker: BrokerPosition, p: Position, q: Position, m: real, bar: Bar)
    requires FreshRow(row, broker) && p == ToPosition(row, broker)
    requires SameTrade(p, q) && q.peakFavorablePrice == PriceAt(p, m)
    requires q.breakevenActivated ==> BreakevenReached(p, m)
    ensures var r, next := UpdatePositionManagement(q, bar), Max(m, BarMove(p, bar));
            r.tpPrice == if !IsPartial(row) && next >= Multiple(RowRisk(row), 3.0) then None else q.tpPrice
  {
    hide ToPosition, UpdatePositionManagement, RemovalThreshold, Multiple, RowRisk, IsPartial, FreshRow, SameTrade, HasTag;
    var next := Max(m, BarMove(p, bar));
    PositionOfRow(row, broker);
    NotRange(p);
    SameThresholds(p, q);
    PeakOf(p, q, m, bar);
    UpdatedTarget(q, bar, PriceAt(p, next));
    UpdateInMoves(p, q, m, bar);
    RemovalInNumbers(row, broker, next);
  }

  lemma NotRange(p: Position)
    requires Manageable(p)
    ensures !HasTag(p, "RANGE_ENGINE")
  {
  }

  lemma PeakOf(p: Position, q: Position, m: real, bar: Bar)
    requires SameTrade(p, q) && q.peakFavorablePrice == PriceAt(p, m)
    ensures UpdatedPeak(q, bar) == PriceAt(p, Max(m, BarMove(p, bar)))
    ensures MoveTo(p, PriceAt(p, Max(m, BarMove(p, bar)))) == Max(m, BarMove(p, bar))
  {
  }

  lemma RefinesParts(p: Position, row: TradeRow, broker: BrokerPosition, kept: seq<Bar>, minChange: real)
    requires Refines(p, row, broker, kept, minChange)
    ensures var q := ToPosition(row, broker);
            && SameTrade(p, q) && q.peakFavorablePrice == PriceAt(p, BestMove(p, kept))
            && (q.breakevenActivated ==> BreakevenReached(p, BestMove(p, kept)))
  {
  }

  lemma {:induction false} TargetRun(row: TradeRow, broker: BrokerPosition, rounds: seq<Round>, minChange: real)
    requires FreshRow(row, broker) && SellPrices(row, broker, rounds) && minChange > 0.0
    ensures var (row', broker') := ManageRounds(row, broker, rounds, minChange);
            var kept := KeptBars(row, broker, rounds, minChange);
            TargetFollows(row, broker, row', broker',
                          LosesTarget(row, kept, BestMove(ToPosition(row, broker), kept)))
  {
    hide ToPosition, BestMove, FreshRow, SellPrices, TargetFollows, LosesTarget, ManageRounds, KeptBars;
    if rounds == [] {
      NoRounds(row, broker, minChange);
    } else {
      var init, last := rounds[..|rounds| - 1], rounds[|rounds| - 1];
      PricesOfPrefix(row, broker, rounds);
      TargetRun(row, broker, init, minChange);
      TargetRunStep(row, broker, init, last, minChange);
      assert init + [last] == rounds;
    }
  }

  lemma NoRounds(row: TradeRow, broker: BrokerPosition, minChange: real)
    ensures ManageRounds(row, broker, [], minChange) == (row, broker) && KeptBars(row, broker, [], minChange) == []
    ensures forall m :: TargetFollows(row, broker, row, broker, LosesTarget(row, [], m))
  {
  }

  lemma PricesOfPrefix(row: TradeRow, broker: BrokerPosition, rounds: seq<Round>)
    requires rounds != [] && SellPrices(row, broker, rounds)
    ensures SellPrices(row, broker, rounds[..|rounds| - 1])
  {
  }

  lemma TargetRunStep(row: TradeRow, broker: BrokerPosition, init: seq<Round>, last: Round, minChange: real)
    requires FreshRow(row, broker) && SellPrices(row, broker, init) && minChange > 0.0
    requires var (r, b) := ManageRounds(row, broker, init, minChange);
             var kept := KeptBars(row, broker, init, minChange);
             TargetFollows(row, broker, r, b, LosesTarget(row, kept, BestMove(ToPosition(row, broker), kept)))
    ensures var (row', broker') := ManageRounds(row, broker, init + [last], minChange);
            var kept := KeptBars(row, broker, init + [last], minChange);
            TargetFollows(row, broker, row', broker', LosesTarget(row, kept, BestMove(ToPosition(row, broker), kept)))
  {
    hide ToPosition, UpdatePositionManagement, ManageTrade, IsRejected, BestMove, FreshRow, SellPrices, Multiple, RowRisk, IsPartial,
         Refines, TargetFollows;
    var p, kept := ToPosition(row, broker), KeptBars(row, broker, init, minChange);
    var (r, b) := ManageRounds(row, broker, init, minChange);
    assert (init + [last])[..|init|] == init && (init + [last])[|init|] == last;
    PositionOfRow(row, broker);
    PricesOfRow(row, broker, init);
    LiveRunRefines(row, broker, init, minChange);
    RefinesParts(p, r, b, kept, minChange);
    if IsRejected(r, b, last, minChange) {
      RejectedChangesNothing(r, b, last, minChange);
      assert kept + [] == kept;
    } else {
      BestOfOneMore(p, kept, last.bar);
      UpdateLosesTarget(row, broker, p, ToPosition(r, b), BestMove(p, kept), last.bar);
      TargetOfPosition(r, b);
      TargetRound(r, b, last, minChange);
      Followed(row, broker, r, b, last, minChange, kept, BestMove(p, kept), BestMove(p, kept + [last.bar]));
    }
  }

  lemma RejectedChangesNothing(row: TradeRow, broker: BrokerPosition, round: Round, minChange: real)
    requires IsRejected(row, broker, round, minChange)
    ensures ManageTrade(row, broker, round.bar, minChange, round.accepted) == (row, broker)
  {
    hide UpdatePositionManagement;
  }

  lemma Followed(row: TradeRow, broker: BrokerPosition, r: TradeRow, b: BrokerPosition, last: Round, minChange: real,
                 kept: seq<Bar>, m: real, next: real)
    requires m <= next && TargetFollows(row, broker, r, b, LosesTarget(row, kept, m))
    requires var u := UpdatePositionManagement(ToPosition(r, b), last.bar);
             u.tpPrice == if LosesTarget(row, kept + [last.bar], next) then None else Some(Target(r, b))
    requires !IsRejected(r, b, last, minChange)
    ensures var (row', broker') := ManageTrade(r, b, last.bar, minChange, last.accepted);
            TargetFollows(row, broker, row', broker', LosesTarget(row, kept + [last.bar], next))
  {
    hide ManageTrade, UpdatePositionManagement, ToPosition, IsRejected;
    TargetRound(r, b, last, minChange);
    var (row', broker') := ManageTrade(r, b, last.bar, minChange, last.accepted);
    if !LosesTarget(row, kept + [last.bar], next) {
      FollowsOn(row, broker, r, b, row', broker');
    }
  }

  /** After any rounds the broker's target is gone exactly when a trade that is not a partial has kept three times its risk. */
  lemma LiveTargetByNumbers(row: TradeRow, broker: BrokerPosition, rounds: seq<Round>, minChange: real, m: real)
    requires FreshRow(row, broker) && SellPrices(row, broker, rounds) && minChange > 0.0
    requires IsBestOf(row, broker, KeptBars(row, broker, rounds, minChange), m)
    ensures var (row', broker') := ManageRounds(row, broker, rounds, minChange);
            TargetFollows(row, broker, row', broker', LosesTarget(row, KeptBars(row, broker, rounds, minChange), m))
  {
    hide ToPosition, ManageRounds, KeptBars, BestMove, IsBestOf, FreshRow, SellPrices, TargetFollows, LosesTarget;
    BestOfRow(row, broker, KeptBars(row, broker, rounds, minChange), m);
    TargetRun(row, broker, rounds, minChange);
  }

  /** With every call accepted the bars kept are all of them. */
  lemma AcceptedRunByNumbers(row: TradeRow, broker: BrokerPosition, rounds: seq<Round>, minChange: real, m: real)
    requires FreshRow(row, broker) && SellPrices(row, broker, rounds) && minChange > 0.0
    requires (forall i :: 0 <= i < |rounds| ==> rounds[i].accepted) && IsBestOf(row, broker, BarsOf(rounds), m)
    ensures var (row', broker') := ManageRounds(row, broker, rounds, minChange);
            && (row'.managementState.breakevenActivated == Some(true) <==> AtBreakeven(row, BarsOf(rounds), m))
            && TargetFollows(row, broker, row', broker', LosesTarget(row, BarsOf(rounds), m))
  {
    hide ManageRounds, KeptBars, BarsOf, IsBestOf, FreshRow, SellPrices, TargetFollows, LosesTarget, AtBreakeven;
    AcceptedKeepsAll(row, broker, rounds, minChange);
    LiveRunByNumbers(row, broker, rounds, minChange, m);
    LiveTargetByNumbers(row, broker, rounds, minChange, m);
  }

  /**
   After any rounds, the next bar costs a call to the broker exactly when the stop moves by the
   throttle or the target is lost; so once it is lost, every bar costs one, however small.
   */
  lemma CallsExactlyWhen(row: TradeRow, broker: BrokerPosition, rounds: seq<Round>, bar: Bar, minChange: real)
    requires FreshRow(row, broker) && SellPrices(row, broker, rounds) && minChange > 0.0
    ensures var (r, b) := ManageRounds(row, broker, rounds, minChange);
            var kept := KeptBars(row, broker, rounds, minChange) + [bar];
            var before, after := ToPosition(r, b), UpdatePositionManagement(ToPosition(r, b), bar);
            NeedsBroker(before, after, minChange) <==>
            || Abs(after.slPrice - before.slPrice) >= minChange
            || LosesTarget(row, kept, BestMove(ToPosition(row, broker), kept))
  {
    hide ToPosition, UpdatePositionManagement, BestMove, FreshRow, SellPrices, Multiple, RowRisk, IsPartial, Refines, ManageRounds,
         KeptBars;
    var p, kept := ToPosition(row, broker), KeptBars(row, broker, rounds, minChange);
    var (r, b) := ManageRounds(row, broker, rounds, minChange);
    PositionOfRow(row, broker);
    PricesOfRow(row, broker, rounds);
    LiveRunRefines(row, broker, rounds, minChange);
    RefinesParts(p, r, b, kept, minChange);
    BestOfOneMore(p, kept, bar);
    UpdateLosesTarget(row, broker, p, ToPosition(r, b), BestMove(p, kept), bar);
    TargetOfPosition(r, b);
  }

  /** One accepted bar four risks ahead, then a bar that does nothing: however large the throttle, it costs a call. */
  lemma QuietBarCostsACall(minChange: real)
    requires minChange > 0.0
    ensures var first := [Round(FlatBar(1, 104.0), true)];
            var (r, b) := ManageRounds(PlainRow(), PlainBroker(), first, minChange);
            var before := ToPosition(r, b);
            NeedsBroker(before, UpdatePositionManagement(before, FlatBar(2, 100.0)), minChange)
  {
    hide ToPosition, ManageRounds, KeptBars, UpdatePositionManagement, BestMove, NeedsBroker;
    var row, broker, first := PlainRow(), PlainBroker(), [Round(FlatBar(1, 104.0), true)];
    assert FreshRow(row, broker) && SellPrices(row, broker, first);
    AcceptedKeepsAll(row, broker, first, minChange);
    CallsExactlyWhen(row, broker, first, FlatBar(2, 100.0), minChange);
    var kept := BarsOf(first) + [FlatBar(2, 100.0)];
    PlainIsFarAhead(kept);
  }

  lemma PlainIsFarAhead(kept: seq<Bar>)
    requires |kept| > 0 && kept[0] == FlatBar(1, 104.0)
    ensures LosesTarget(PlainRow(), kept, BestMove(ToPosition(PlainRow(), PlainBroker()), kept))
  {
    var p := ToPosition(PlainRow(), PlainBroker());
    assert kept[0] in kept && BarMove(p, kept[0]) == 4.0;
  }
}
