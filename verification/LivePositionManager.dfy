/**
 The live position manager: after each M15 close it runs the stop management on every open
 trade, moves the broker's stop when the change is large enough, and stores the new
 management state unless the broker rejected the change.
 */
module LivePositionManagement {
  import opened Wrappers
  import opened Numbers
  import opened Market
  import opened PositionSimulator

  datatype TrailKey = Tp1 | Runner

  /** The stored management state; rows written before a field existed lack it. */
  datatype StoredState = StoredState(
    breakevenActivated: Option<bool>,
    peakFavorablePrice: Option<real>,
    originalSlPrice: Option<real>,
    trailKey: Option<TrailKey>)

  datatype ManagementState = ManagementState(
    breakevenActivated: bool,
    peakFavorablePrice: real,
    originalSlPrice: real,
    trailKey: TrailKey)

  datatype TradeRow = TradeRow(
    symbol: string,
    isOpen: bool,
    ticket: Option<int>,
    side: Side,
    entryPrice: real,
    slPrice: real,
    tpPrice: real,
    lotSize: real,
    createdAt: int,
    setupTags: seq<string>,
    managementState: StoredState)

  /** The broker's side of a trade; a stop or target of 0 means none is set. */
  datatype BrokerPosition = BrokerPosition(entryPrice: real, sl: real, tp: real)

  function ParseState(row: TradeRow, broker: BrokerPosition): ManagementState {
    var raw := row.managementState;
    ManagementState(
      raw.breakevenActivated.GetOr(false),
      raw.peakFavorablePrice.GetOr(broker.entryPrice),
      raw.originalSlPrice.GetOr(row.slPrice),
      raw.trailKey.GetOr(if "TP1" in row.setupTags then Tp1 else Runner))
  }

  /** The simulator's view of a trade; the broker's stop and target are the truth when set. */
  function ToPosition(row: TradeRow, broker: BrokerPosition): Position {
    var state := ParseState(row, broker);
    Position(
      row.side,
      row.entryPrice,
      if broker.sl > 0.0 then broker.sl else row.slPrice,
      Some(if broker.tp > 0.0 then broker.tp else row.tpPrice),
      state.originalSlPrice,
      state.breakevenActivated,
      state.peakFavorablePrice,
      row.lotSize,
      row.createdAt,
      0,
      if state.trailKey == Tp1 then ["SMC", "TP1"] else ["SMC", "RUNNER"],
      Some(if state.trailKey == Tp1 then SMC_TP1_TRAIL else SMC_RUNNER_TRAIL),
      false,
      false)
  }

  /** Whether the change is worth a call to the broker. */
  predicate NeedsBroker(before: Position, after: Position, minChange: real) {
    || Abs(after.slPrice - before.slPrice) >= minChange
    || (before.tpPrice.Some? && after.tpPrice.None?)
    || (before.tpPrice.Some? && after.tpPrice.Some? && Abs(after.tpPrice.value - before.tpPrice.value) >= minChange)
  }

  function Moved(broker: BrokerPosition, after: Position): BrokerPosition {
    broker.(sl := after.slPrice, tp := after.tpPrice.GetOr(0.0))
  }

  /** The row after an update; a removed target is never stored. */
  function Stored(row: TradeRow, broker: BrokerPosition, after: Position): TradeRow {
    var state := ParseState(row, broker);
    row.(slPrice := after.slPrice,
    tpPrice := after.tpPrice.GetOr(row.tpPrice),
    managementState := StoredState(Some(after.breakevenActivated), Some(after.peakFavorablePrice),
                                   Some(state.originalSlPrice), Some(state.trailKey)))
  }

  /** One trade, one bar; `accepted` says whether a call to the broker would succeed. */
  function ManageTrade(row: TradeRow, broker: BrokerPosition, bar: Bar, minChange: real, accepted: bool): (TradeRow,
                       BrokerPosition) {
    var pos := ToPosition(row, broker);
    var updated := UpdatePositionManagement(pos, bar);
    if updated == pos then (row, broker)
    else if NeedsBroker(pos, updated, minChange) then
      if accepted then (Stored(row, broker, updated), Moved(broker, updated)) else (row, broker)
    else (Stored(row, broker, updated), broker)
  }

  predicate IsManaged(row: TradeRow, symbol: string, positions: map<int, BrokerPosition>) {
    row.isOpen && row.symbol == symbol && row.ticket.Some? && row.ticket.value in positions
  }

  /** A broker ticket identifies one trade. */
  ghost predicate DistinctTickets(trades: seq<TradeRow>) {
    forall a, b :: 0 <= a < b < |trades| && trades[a].ticket.Some? ==> trades[a].ticket != trades[b].ticket
  }

  /** What a round leaves of a trade row and the broker's positions: managed against the bar, or untouched. */
  ghost predicate RoundDone(row: TradeRow, row': TradeRow, fetched: map<int, BrokerPosition>,
                            positions: map<int, BrokerPosition>, symbol: string, bar: Bar, minChange: real,
                            accepts: set<int>)
  {
    if row.isOpen && row.symbol == symbol && row.ticket.Some? && row.ticket.value in fetched then
      var ticket := row.ticket.value;
      ticket in positions
      && (row', positions[ticket]) == ManageTrade(row, fetched[ticket], bar, minChange, ticket in accepts)
    else row' == row
  }

  class LivePositionManager {
    var trades: seq<TradeRow>
    var positions: map<int, BrokerPosition>

    constructor (trades: seq<TradeRow>, positions: map<int, BrokerPosition>)
      ensures this.trades == trades && this.positions == positions
    {
      this.trades, this.positions := trades, positions;
    }

    /** One open trade whose position the broker still holds. */
    method ManageOpenTrade(i: nat, ticket: int, bar: Bar, minChange: real, accepted: bool)
      requires i < |trades| && ticket in positions
      modifies this
      ensures var r := ManageTrade(old(trades)[i], old(positions)[ticket], bar, minChange, accepted);
              trades == old(trades)[i := r.0] && positions == old(positions)[ticket := r.1]
    {
      var row, broker := trades[i], positions[ticket];
      var pos := ToPosition(row, broker);
      var updated := UpdatePositionManagement(pos, bar);
      if updated == pos {
        return;
      }
      if NeedsBroker(pos, updated, minChange) {
        if !accepted {
          return;
        }
        positions := positions[ticket := Moved(broker, updated)];
      }
      trades := trades[i := Stored(row, broker, updated)];
    }

    /**
     One round for `symbol` with its latest bar, if there is one; `accepts` holds the tickets
     whose modification the broker would accept. Positions that no managed trade owns keep
     their stop.
     */
    method ManageSymbol(symbol: string, latest: Option<Bar>, minChange: real, accepts: set<int>)
      requires DistinctTickets(trades)
      modifies this
      ensures |trades| == |old(trades)| && positions.Keys == old(positions).Keys && DistinctTickets(trades)
      ensures latest.None? ==> trades == old(trades) && positions == old(positions)
      ensures latest.Some? ==>
                forall i :: 0 <= i < |trades| ==>
                  RoundDone(old(trades)[i], trades[i], old(positions), positions, symbol, latest.value, minChange, accepts)
      ensures forall ticket :: ticket in positions && positions[ticket] != old(positions)[ticket] ==>
                exists i :: 0 <= i < |trades| && IsManaged(old(trades)[i], symbol, old(positions))
                            && old(trades)[i].ticket == Some(ticket)
    {
      if latest.None? {
        return;
      }
      var rows, fetched := trades, positions;
      for i := 0 to |rows|
        invariant |trades| == |rows| && positions.Keys == fetched.Keys
        invariant forall j :: 0 <= j < |rows| ==> trades[j].ticket == rows[j].ticket
        invariant forall j :: i <= j < |rows| ==> trades[j] == rows[j]
        invariant forall j :: i <= j < |rows| && IsManaged(rows[j], symbol, fetched) ==>
                    positions[rows[j].ticket.value] == fetched[rows[j].ticket.value]
        invariant forall j :: 0 <= j < i ==>
                    RoundDone(rows[j], trades[j], fetched, positions, symbol, latest.value, minChange, accepts)
        invariant forall ticket :: ticket in positions && positions[ticket] != fetched[ticket] ==>
                    exists j :: 0 <= j < i && IsManaged(rows[j], symbol, fetched) && rows[j].ticket == Some(ticket)
      {
        if IsManaged(rows[i], symbol, fetched) {
          var ticket := rows[i].ticket.value;
          ManageOpenTrade(i, ticket, latest.value, minChange, ticket in accepts);
        }
      }
    }
  }

  // ----- The throttled stop against the ideal one -----

  /** A round of one trade: the bar, and whether the broker would accept a call. */
  datatype Round = Round(bar: Bar, accepted: bool)

  function ManageRounds(row: TradeRow, broker: BrokerPosition, rounds: seq<Round>, minChange: real): (TradeRow,
                        BrokerPosition) {
    if rounds == [] then (row, broker)
    else
      var (r, b) := ManageRounds(row, broker, rounds[..|rounds| - 1], minChange);
      var last := rounds[|rounds| - 1];
      ManageTrade(r, b, last.bar, minChange, last.accepted)
  }

  function BarsOf(rounds: seq<Round>): seq<Bar> {
    seq(|rounds|, i requires 0 <= i < |rounds| => rounds[i].bar)
  }

  /** The round needs the broker, and the broker throws: nothing is stored, not even the bar's peak. */
  predicate IsRejected(row: TradeRow, broker: BrokerPosition, round: Round, minChange: real) {
    var pos := ToPosition(row, broker);
    !round.accepted && NeedsBroker(pos, UpdatePositionManagement(pos, round.bar), minChange)
  }

  /** The bars of the rounds that were not rejected. */
  function KeptBars(row: TradeRow, broker: BrokerPosition, rounds: seq<Round>, minChange: real): seq<Bar> {
    if rounds == [] then []
    else
      var init, last := rounds[..|rounds| - 1], rounds[|rounds| - 1];
      var (r, b) := ManageRounds(row, broker, init, minChange);
      KeptBars(row, broker, init, minChange) + if IsRejected(r, b, last, minChange) then [] else [last.bar]
  }

  /** A trade as it is first seen: no breakeven yet, the broker's stop the original and protective one. */
  ghost predicate FreshTrade(row: TradeRow, broker: BrokerPosition) {
    var state := ParseState(row, broker);
    && !state.breakevenActivated
    && state.originalSlPrice == broker.sl > 0.0
    && MoveTo(ToPosition(row, broker), broker.sl) < 0.0
  }

  /** Prices stay positive where a SELL's stop could reach: its entry less a tenth of the risk, its peak and every ask. */
  ghost predicate PositivePrices(p: Position, bars: seq<Bar>) {
    p.side == Sell ==>
      && p.entryPrice - Risk(p) * 0.1 > 0.0 && p.peakFavorablePrice > 0.0
      && forall b :: b in bars ==> b.candle.low + b.spread / 2.0 > 0.0
  }

  /** The trade's position keeps its side, entry, original stop and trail. */
  ghost predicate SameTrade(p: Position, q: Position) {
    && q.side == p.side && q.entryPrice == p.entryPrice && q.originalSlPrice == p.originalSlPrice
    && q.trailConfig == p.trailConfig && q.setupTags == p.setupTags
  }

  /**
   The broker's stop against the ideal one, `m` being the best move stored so far: before
   breakeven it is the original stop; after it, it is never tighter than the ideal stop for
   that move and lags it by less than the throttle.
   */
  ghost predicate Tracks(p: Position, q: Position, m: real, minChange: real) {
    && SameTrade(p, q)
    && q.peakFavorablePrice == PriceAt(p, m)
    && (if q.breakevenActivated
        then BreakevenReached(p, m) && MoveTo(p, q.slPrice) <= LockedMove(p, m) < MoveTo(p, q.slPrice) + minChange
        else q.slPrice == p.originalSlPrice)
  }

  /** Management in terms of moves: what it does to breakeven, the stop and the peak. */
  lemma RatchetInMoves(q: Position, next: real, lock: real, threshold: real, removal: Option<real>, trail: real)
    ensures var r := Ratchet(q, PriceAt(q, next), lock, threshold, removal, trail);
            && SameTrade(q, r)
            && r.peakFavorablePrice == PriceAt(q, next)
            && r.breakevenActivated == (q.breakevenActivated || next >= threshold)
            && MoveTo(q, r.slPrice)
               == (if r.breakevenActivated
                   then Max(if q.breakevenActivated then MoveTo(q, q.slPrice) else lock, next - trail)
                   else MoveTo(q, q.slPrice))
  {
  }

  /** The updated position, whatever stop the broker holds. */
  lemma UpdateInMoves(p: Position, q: Position, m: real, bar: Bar)
    requires SameTrade(p, q) && !HasTag(p, "RANGE_ENGINE") && q.peakFavorablePrice == PriceAt(p, m)
    ensures var r, next := UpdatePositionManagement(q, bar), Max(m, BarMove(p, bar));
            && SameTrade(q, r)
            && r.peakFavorablePrice == PriceAt(p, next)
            && r.breakevenActivated == (q.breakevenActivated || BreakevenReached(p, next))
            && MoveTo(p, r.slPrice)
               == (if r.breakevenActivated
                   then Max(if q.breakevenActivated then MoveTo(p, q.slPrice) else Risk(p) * 0.1, next - TrailAt(p, next))
                   else MoveTo(p, q.slPrice))
  {
    hide Ratchet, ComputeTrailDistance, UpdatePositionManagement;
    var next := Max(m, BarMove(p, bar));
    UpdateUnfolds(q, bar, PriceAt(p, next), next);
    assert Risk(q) == Risk(p) && Config(q) == Config(p);
    RatchetInMoves(q, next, Risk(p) * 0.1, BreakevenThreshold(Risk(p), Config(p)),
                   RemovalThreshold(Risk(p), Config(p)), TrailAt(p, next));
  }

  /** Calling the broker or not, the stop it ends with keeps tracking and never loosens. */
  lemma TrackingKept(p: Position, q: Position, r: Position, m: real, next: real, minChange: real, called: bool,
                     stop: real)
    requires Tracks(p, q, m, minChange) && minChange > 0.0 && m <= next
    requires MoveTo(p, p.originalSlPrice) < 0.0
    requires LockedMove(p, m) <= LockedMove(p, next)
    requires SameTrade(p, r) && r.peakFavorablePrice == PriceAt(p, next)
    requires r.breakevenActivated == (q.breakevenActivated || BreakevenReached(p, next))
    requires MoveTo(p, r.slPrice)
          == (if r.breakevenActivated
              then Max(if q.breakevenActivated then MoveTo(p, q.slPrice) else Risk(p) * 0.1, next - TrailAt(p, next))
              else MoveTo(p, q.slPrice))
    requires stop == if called then r.slPrice else q.slPrice
    requires !called ==> Abs(r.slPrice - q.slPrice) < minChange
    ensures Tracks(p, r.(slPrice := stop), next, minChange)
    ensures MoveTo(p, q.slPrice) <= MoveTo(p, stop)
  {
  }

  lemma UpdateKeepsTracking(p: Position, q: Position, m: real, bar: Bar, minChange: real)
    requires Fresh(p) && MoveTo(p, p.originalSlPrice) < 0.0 && minChange > 0.0
    requires Tracks(p, q, m, minChange)
    ensures var r, next := UpdatePositionManagement(q, bar), Max(m, BarMove(p, bar));
            && Tracks(p, r, next, minChange) && MoveTo(p, q.slPrice) <= MoveTo(p, r.slPrice)
            && (Abs(r.slPrice - q.slPrice) < minChange ==> Tracks(p, r.(slPrice := q.slPrice), next, minChange))
  {
    var r, next := UpdatePositionManagement(q, bar), Max(m, BarMove(p, bar));
    UpdateInMoves(p, q, m, bar);
    TrailTightens(p, m, next);
    TrackingKept(p, q, r, m, next, minChange, true, r.slPrice);
    if Abs(r.slPrice - q.slPrice) < minChange {
      TrackingKept(p, q, r, m, next, minChange, false, q.slPrice);
    }
  }

  /** The best move a trade has stored. */
  function StoredMove(p: Position, row: TradeRow, broker: BrokerPosition): real {
    MoveTo(p, ToPosition(row, broker).peakFavorablePrice)
  }

  /** The live trade tracks the ideal one, and its broker stop is a real price no looser than the original. */
  ghost predicate LiveTracks(p: Position, row: TradeRow, broker: BrokerPosition, minChange: real) {
    && Tracks(p, ToPosition(row, broker), StoredMove(p, row, broker), minChange)
    && broker.sl > 0.0 && MoveTo(p, broker.sl) >= MoveTo(p, p.originalSlPrice)
  }

  /** A SELL's stop that is no tighter than the ideal one is above every peak stored, so it is positive. */
  lemma IdealStopIsPositive(p: Position, m: real, stop: real)
    requires SaneConfig(Config(p)) && p.originalSlPrice > 0.0
    requires p.side == Sell ==> p.entryPrice - Risk(p) * 0.1 > 0.0 && PriceAt(p, m) > 0.0
    requires MoveTo(p, stop) <= LockedMove(p, m) || stop == p.originalSlPrice
    requires MoveTo(p, stop) >= MoveTo(p, p.originalSlPrice)
    ensures stop > 0.0
  {
    TrailTightens(p, m, m);
  }

  /** What the next round starts from, once an update has been stored. */
  lemma PositionAfterStore(row: TradeRow, broker: BrokerPosition, after: Position, broker': BrokerPosition)
    requires SameTrade(ToPosition(row, broker), after) && broker'.sl > 0.0
    ensures var q := ToPosition(Stored(row, broker, after), broker');
            && SameTrade(after, q) && q.slPrice == broker'.sl
            && q.breakevenActivated == after.breakevenActivated && q.peakFavorablePrice == after.peakFavorablePrice
  {
  }

  lemma RoundKeepsTracking(p: Position, row: TradeRow, broker: BrokerPosition, round: Round, minChange: real)
    requires Fresh(p) && p.originalSlPrice > 0.0 && MoveTo(p, p.originalSlPrice) < 0.0 && minChange > 0.0
    requires LiveTracks(p, row, broker, minChange)
    requires p.side == Sell ==> p.entryPrice - Risk(p) * 0.1 > 0.0 && PriceAt(p, StoredMove(p, row, broker)) > 0.0
    requires p.side == Sell ==> round.bar.candle.low + round.bar.spread / 2.0 > 0.0
    ensures var (row', broker') := ManageTrade(row, broker, round.bar, minChange, round.accepted);
            var m, m' := StoredMove(p, row, broker), StoredMove(p, row', broker');
            var next := Max(m, BarMove(p, round.bar));
            && LiveTracks(p, row', broker', minChange) && MoveTo(p, broker.sl) <= MoveTo(p, broker'.sl)
            && (IsRejected(row, broker, round, minChange) ==> row' == row && broker' == broker)
            && (!IsRejected(row, broker, round, minChange) ==>
                  m' == next && (ToPosition(row', broker').breakevenActivated <==> BreakevenReached(p, next)))
  {
    hide UpdatePositionManagement, BreakevenReached, TrailAt;
    var q := ToPosition(row, broker);
    var m := StoredMove(p, row, broker);
    var next := Max(m, BarMove(p, round.bar));
    var r := UpdatePositionManagement(q, round.bar);
    UpdateInMoves(p, q, m, round.bar);
    UpdateKeepsTracking(p, q, m, round.bar, minChange);
    if r != q && !(NeedsBroker(q, r, minChange) && !round.accepted) {
      var broker' := if NeedsBroker(q, r, minChange) then Moved(broker, r) else broker;
      IdealStopIsPositive(p, next, broker'.sl);
      PositionAfterStore(row, broker, r, broker');
    }
  }

  /** The live trade has stored exactly the kept bars' best price, and breakeven exactly as they reach it. */
  ghost predicate Refines(p: Position, row: TradeRow, broker: BrokerPosition, kept: seq<Bar>, minChange: real) {
    var best := BestMove(p, kept);
    && LiveTracks(p, row, broker, minChange)
    && StoredMove(p, row, broker) == best
    && (p.side == Sell ==> PriceAt(p, best) > 0.0)
    && (ToPosition(row, broker).breakevenActivated <==> kept != [] && BreakevenReached(p, best))
  }

  lemma FreshTradeTracks(row: TradeRow, broker: BrokerPosition, minChange: real)
    requires FreshTrade(row, broker) && minChange > 0.0
    ensures Fresh(ToPosition(row, broker))
    ensures LiveTracks(ToPosition(row, broker), row, broker, minChange)
  {
  }

  lemma RoundRefines(p: Position, row: TradeRow, broker: BrokerPosition, kept: seq<Bar>, round: Round, minChange: real)
    requires Fresh(p) && p.originalSlPrice > 0.0 && MoveTo(p, p.originalSlPrice) < 0.0 && minChange > 0.0
    requires Refines(p, row, broker, kept, minChange)
    requires p.side == Sell ==> p.entryPrice - Risk(p) * 0.1 > 0.0 && round.bar.candle.low + round.bar.spread / 2.0 > 0.0
    ensures var (row', broker') := ManageTrade(row, broker, round.bar, minChange, round.accepted);
            var kept' := kept + if IsRejected(row, broker, round, minChange) then [] else [round.bar];
            Refines(p, row', broker', kept', minChange) && MoveTo(p, broker.sl) <= MoveTo(p, broker'.sl)
  {
    hide ManageTrade, Tracks, IsRejected;
    RoundKeepsTracking(p, row, broker, round, minChange);
    assert (kept + [round.bar])[..|kept|] == kept;
    assert kept + [] == kept;
  }

  lemma LastRound(rounds: seq<Round>)
    requires rounds != []
    ensures var init := rounds[..|rounds| - 1];
            && BarsOf(rounds) == BarsOf(init) + [rounds[|rounds| - 1].bar]
            && (forall b :: b in BarsOf(init) ==> b in BarsOf(rounds)) && rounds[|rounds| - 1].bar in BarsOf(rounds)
  {
    var init := rounds[..|rounds| - 1];
    assert BarsOf(rounds) == BarsOf(init) + [rounds[|rounds| - 1].bar];
  }

  /**
   Over any bars and any mix of acceptances and rejections: the stored peak is exactly the best
   price of the rounds that were not rejected; before stored breakeven the broker holds the
   original stop; after it, its stop is never tighter than the ideal stop for the stored peak
   and lags it by less than the throttle.
   */
  lemma {:induction false} LiveRunRefines(row: TradeRow, broker: BrokerPosition, rounds: seq<Round>, minChange: real)
    requires FreshTrade(row, broker) && minChange > 0.0
    requires PositivePrices(ToPosition(row, broker), BarsOf(rounds))
    ensures var (row', broker') := ManageRounds(row, broker, rounds, minChange);
            Refines(ToPosition(row, broker), row', broker', KeptBars(row, broker, rounds, minChange), minChange)
  {
    var p := ToPosition(row, broker);
    FreshTradeTracks(row, broker, minChange);
    if rounds != [] {
      hide ManageTrade, Refines, IsRejected;
      var init, last := rounds[..|rounds| - 1], rounds[|rounds| - 1];
      LastRound(rounds);
      LiveRunRefines(row, broker, init, minChange);
      var (r, b) := ManageRounds(row, broker, init, minChange);
      RoundRefines(p, r, b, KeptBars(row, broker, init, minChange), last, minChange);
    }
  }

  /** Round by round, the broker's stop never loosens. */
  lemma LiveStopNeverLoosens(row: TradeRow, broker: BrokerPosition, rounds: seq<Round>, minChange: real)
    requires FreshTrade(row, broker) && minChange > 0.0 && rounds != []
    requires PositivePrices(ToPosition(row, broker), BarsOf(rounds))
    ensures var p := ToPosition(row, broker);
            MoveTo(p, ManageRounds(row, broker, rounds[..|rounds| - 1], minChange).1.sl)
            <= MoveTo(p, ManageRounds(row, broker, rounds, minChange).1.sl)
  {
    hide ManageTrade, Refines, IsRejected;
    var p, init := ToPosition(row, broker), rounds[..|rounds| - 1];
    LastRound(rounds);
    FreshTradeTracks(row, broker, minChange);
    LiveRunRefines(row, broker, init, minChange);
    var (r, b) := ManageRounds(row, broker, init, minChange);
    RoundRefines(p, r, b, KeptBars(row, broker, init, minChange), rounds[|rounds| - 1], minChange);
  }

  lemma KeptOneMore(row: TradeRow, broker: BrokerPosition, rounds: seq<Round>, minChange: real)
    requires rounds != []
    ensures var init, last := rounds[..|rounds| - 1], rounds[|rounds| - 1];
            var kept := KeptBars(row, broker, init, minChange);
            && (KeptBars(row, broker, rounds, minChange) == kept || KeptBars(row, broker, rounds, minChange) == kept + [last.bar])
            && (last.accepted ==> KeptBars(row, broker, rounds, minChange) == kept + [last.bar])
  {
  }

  /** Skipping bars never raises the best price. */
  lemma {:induction false} KeptBestWithin(row: TradeRow, broker: BrokerPosition, rounds: seq<Round>, minChange: real, p: Position)
    ensures BestMove(p, KeptBars(row, broker, rounds, minChange)) <= BestMove(p, BarsOf(rounds))
  {
    hide BestMove, KeptBars, BarsOf, BarMove;
    if rounds == [] {
      NoBarsKept(row, broker, minChange);
    } else {
      var init, last := rounds[..|rounds| - 1], rounds[|rounds| - 1];
      KeptBestWithin(row, broker, init, minChange, p);
      LastRound(rounds);
      KeptOneMore(row, broker, rounds, minChange);
      BestOfOneMore(p, KeptBars(row, broker, init, minChange), last.bar);
      BestOfOneMore(p, BarsOf(init), last.bar);
    }
  }

  lemma NoBarsKept(row: TradeRow, broker: BrokerPosition, minChange: real)
    ensures KeptBars(row, broker, [], minChange) == BarsOf([])
  {
  }

  /** When the broker accepts every call, every bar is kept. */
  lemma {:induction false} AcceptedKeepsAll(row: TradeRow, broker: BrokerPosition, rounds: seq<Round>, minChange: real)
    requires forall i :: 0 <= i < |rounds| ==> rounds[i].accepted
    ensures KeptBars(row, broker, rounds, minChange) == BarsOf(rounds)
  {
    hide KeptBars, BarsOf;
    if rounds == [] {
      NoBarsKept(row, broker, minChange);
    } else {
      AcceptedKeepsAll(row, broker, rounds[..|rounds| - 1], minChange);
      LastRound(rounds);
      KeptOneMore(row, broker, rounds, minChange);
    }
  }

  /** The stored peak is below the best price seen exactly when a lost bar beats every kept one. */
  lemma PeakLostExactlyWhen(row: TradeRow, broker: BrokerPosition, rounds: seq<Round>, minChange: real)
    requires FreshTrade(row, broker) && minChange > 0.0
    requires PositivePrices(ToPosition(row, broker), BarsOf(rounds))
    ensures var p := ToPosition(row, broker);
            var (row', broker') := ManageRounds(row, broker, rounds, minChange);
            var kept := KeptBars(row, broker, rounds, minChange);
            StoredMove(p, row', broker') < BestMove(p, BarsOf(rounds)) <==>
            exists b :: b in BarsOf(rounds) && BarMove(p, b) > BestMove(p, kept)
  {
    hide ManageRounds, KeptBars;
    LiveRunRefines(row, broker, rounds, minChange);
  }

  lemma BestOfOneMore(p: Position, bars: seq<Bar>, bar: Bar)
    ensures BestMove(p, bars + [bar]) == Max(BestMove(p, bars), BarMove(p, bar))
  {
    assert (bars + [bar])[..|bars|] == bars;
  }

  /** A trade that tracks is no tighter than the closed form of any larger best move, and close to that of its own. */
  lemma RefinementAgainstClosedForm(p: Position, row: TradeRow, broker: BrokerPosition, best: real, minChange: real)
    requires LiveTracks(p, row, broker, minChange) && StoredMove(p, row, broker) <= best
    requires Fresh(p) && MoveTo(p, p.originalSlPrice) < 0.0 && minChange > 0.0
    ensures MoveTo(p, broker.sl) <= MoveTo(p, ClosedForm(p, best).slPrice)
    ensures StoredMove(p, row, broker) == best
            && (ToPosition(row, broker).breakevenActivated <==> BreakevenReached(p, best)) ==>
              MoveTo(p, ClosedForm(p, best).slPrice) < MoveTo(p, broker.sl) + minChange
  {
    TrailTightens(p, StoredMove(p, row, broker), best);
  }

  /**
   The throttled, rejectable stop refines the simulator's. Against the simulator fed only the
   rounds that were not rejected it is never tighter and lags by less than the throttle, after
   every run; against the simulator fed every bar it is never tighter.
   */
  lemma ThrottledStopRefinesIdeal(row: TradeRow, broker: BrokerPosition, rounds: seq<Round>, minChange: real)
    requires FreshTrade(row, broker) && minChange > 0.0
    requires PositivePrices(ToPosition(row, broker), BarsOf(rounds))
    ensures var p, live := ToPosition(row, broker), ManageRounds(row, broker, rounds, minChange).1.sl;
            var kept := KeptBars(row, broker, rounds, minChange);
            && MoveTo(p, live) <= MoveTo(p, ManageAll(p, kept).slPrice) < MoveTo(p, live) + minChange
            && MoveTo(p, live) <= MoveTo(p, ManageAll(p, BarsOf(rounds)).slPrice)
  {
    hide ManageTrade, IsRejected, ManageRounds, UpdatePositionManagement, Ratchet, ComputeTrailDistance, BestMove, ClosedForm;
    var p := ToPosition(row, broker);
    var kept, bars := KeptBars(row, broker, rounds, minChange), BarsOf(rounds);
    var (r, b) := ManageRounds(row, broker, rounds, minChange);
    FreshTradeTracks(row, broker, minChange);
    LiveRunRefines(row, broker, rounds, minChange);
    KeptBestWithin(row, broker, rounds, minChange, p);
    TrailClosedForm(p, kept);
    TrailClosedForm(p, bars);
    RefinementAgainstClosedForm(p, r, b, BestMove(p, kept), minChange);
    RefinementAgainstClosedForm(p, r, b, BestMove(p, bars), minChange);
  }

  // ----- What a rejection costs -----

  function FlatBar(time: int, high: real): Bar {
    Bar(Candle(time, 100.0, high, 100.0, 100.0), 0.0)
  }

  /** A BUY at 100 with its stop at 99. */
  function PlainRow(): TradeRow {
    TradeRow("EURUSD", true, Some(1), Buy, 100.0, 99.0, 110.0, 0.1, 0, [], StoredState(None, None, None, None))
  }

  function PlainBroker(): BrokerPosition {
    BrokerPosition(100.0, 99.0, 110.0)
  }

  lemma PlainRoundRejected(minChange: real)
    requires 0.0 < minChange <= 1.0
    ensures FreshTrade(PlainRow(), PlainBroker()) && PositivePrices(ToPosition(PlainRow(), PlainBroker()), [])
    ensures IsRejected(PlainRow(), PlainBroker(), Round(FlatBar(1, 102.0), false), minChange)
    ensures ClosedForm(ToPosition(PlainRow(), PlainBroker()), 2.0).slPrice >= 100.1
  {
    var p := ToPosition(PlainRow(), PlainBroker());
    assert Risk(p) == 1.0 && UpdatedPeak(p, FlatBar(1, 102.0)) == 102.0;
    UpdateUnfolds(p, FlatBar(1, 102.0), 102.0, 2.0);
  }

  function TwoRounds(): seq<Round> {
    [Round(FlatBar(1, 102.0), false), Round(FlatBar(2, 100.5), true)]
  }

  lemma OnlySecondKept(minChange: real)
    requires 0.0 < minChange <= 1.0
    ensures var kept := KeptBars(PlainRow(), PlainBroker(), TwoRounds(), minChange); kept == [] || kept == [FlatBar(2, 100.5)]
  {
    var first := TwoRounds()[..1];
    PlainRoundRejected(minChange);
    assert first == [Round(FlatBar(1, 102.0), false)] && first[..0] == [];
    FirstRoundRejected(minChange, first);
    KeptOneMore(PlainRow(), PlainBroker(), TwoRounds(), minChange);
    assert TwoRounds()[1].bar == FlatBar(2, 100.5) && [] + [FlatBar(2, 100.5)] == [FlatBar(2, 100.5)];
  }

  lemma FirstRoundRejected(minChange: real, first: seq<Round>)
    requires 0.0 < minChange <= 1.0 && first == [Round(FlatBar(1, 102.0), false)]
    ensures KeptBars(PlainRow(), PlainBroker(), first, minChange) == []
  {
    hide IsRejected, ManageTrade;
    PlainRoundRejected(minChange);
    assert first[..0] == [];
    assert ManageRounds(PlainRow(), PlainBroker(), [], minChange) == (PlainRow(), PlainBroker());
  }

  lemma SmallBest(p: Position, kept: seq<Bar>)
    requires p == ToPosition(PlainRow(), PlainBroker()) && (kept == [] || kept == [FlatBar(2, 100.5)])
    ensures BestMove(p, kept) <= 0.5 && !BreakevenReached(p, BestMove(p, kept))
  {
    assert Risk(p) == 1.0 && Config(p) == SMC_RUNNER_TRAIL;
  }

  lemma LargeBest(p: Position)
    requires p == ToPosition(PlainRow(), PlainBroker())
    ensures BestMove(p, BarsOf(TwoRounds())) == 2.0
  {
    assert BarsOf(TwoRounds()) == [FlatBar(1, 102.0), FlatBar(2, 100.5)];
    assert FlatBar(1, 102.0) in BarsOf(TwoRounds());
  }

  /**
   Two rounds, the first rejected and the second accepted: the first bar's peak is lost for
   good, and the live stop lags the simulator's by more than the whole initial risk.
   */
  lemma RejectionLosesThePeak(minChange: real)
    requires 0.0 < minChange <= 1.0
    ensures var p := ToPosition(PlainRow(), PlainBroker());
            && FreshTrade(PlainRow(), PlainBroker()) && Risk(p) == 1.0
            && MoveTo(p, ManageAll(p, BarsOf(TwoRounds())).slPrice)
               >= MoveTo(p, ManageRounds(PlainRow(), PlainBroker(), TwoRounds(), minChange).1.sl) + 1.1
  {
    hide IsRejected, ManageTrade, ManageRounds, KeptBars, BestMove, ManageAll, ClosedForm, TwoRounds;
    var p := ToPosition(PlainRow(), PlainBroker());
    PlainRoundRejected(minChange);
    OnlySecondKept(minChange);
    SmallBest(p, KeptBars(PlainRow(), PlainBroker(), TwoRounds(), minChange));
    FreshTradeTracks(PlainRow(), PlainBroker(), minChange);
    LiveRunRefines(PlainRow(), PlainBroker(), TwoRounds(), minChange);
    LargeBest(p);
    TrailClosedForm(p, BarsOf(TwoRounds()));
    NotEmpty();
  }

  lemma NotEmpty()
    ensures BarsOf(TwoRounds()) != []
  {
  }
}
