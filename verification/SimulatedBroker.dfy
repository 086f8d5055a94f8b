/**
 The in-memory broker of a replay: one account shared by all symbols, one position per leg
 of an order, and, in the retrace experiment, limit orders parked until a bar touches them.
 */
module SimulatedBroking {
  import opened Wrappers
  import opened Numbers
  import opened Market
  import opened PositionSimulator
  import PositionExits

  datatype OrderLeg = OrderLeg(lotSize: real, tpPrice: real, setupTags: seq<string>)

  datatype Order = Order(side: Side, entryPrice: real, slPrice: real, legs: seq<OrderLeg>)

  datatype OpenPosition = OpenPosition(id: nat, position: Position)

  datatype ReplayExit = SlExit | TpExit | FlushExit

  datatype ClosedPosition = ClosedPosition(
    id: nat,
    position: Position,
    closePrice: real,
    closedAt: int,
    pnl: real,
    exitReason: ReplayExit)

  /** A limit order: `scale` multiplies each leg's lot at the fill. */
  datatype ParkedLimit = ParkedLimit(order: Order, limitPrice: real, scale: real, barsLeft: int)

  datatype RetraceEntry = RetraceEntry(frac: real, expiryBars: int)

  datatype BrokerConfig = BrokerConfig(
    runnerTrail: TrailConfig,
    retrace: Option<RetraceEntry>,
    lotSizeUnits: string -> real,
    quotedInYen: string -> bool)

  /** A leg as it was filled. */
  datatype FilledLeg = FilledLeg(symbol: string, position: Position)

  /**
   The broker's fields, and its history: how many positions were open after each fill and each
   closing, and how each id was filled.
   */
  datatype BrokerState = BrokerState(
    balance: real,
    positions: map<string, seq<OpenPosition>>,
    closed: seq<ClosedPosition>,
    maxConcurrent: nat,
    limits: map<string, seq<ParkedLimit>>,
    nextId: nat,
    counts: seq<nat>,
    filledAs: map<nat, FilledLeg>)

  function Opening(initialBalance: real): BrokerState {
    BrokerState(initialBalance, map[], [], 0, map[], 0, [], map[])
  }

  // ----- Lists by symbol -----

  function ListOf<T>(m: map<string, seq<T>>, symbol: string): seq<T> {
    if symbol in m then m[symbol] else []
  }

  /** An empty list is deleted from the map. */
  function WithList<T>(m: map<string, seq<T>>, symbol: string, list: seq<T>): map<string, seq<T>> {
    if list == [] then m - {symbol} else m[symbol := list]
  }

  /** The `n` ids handed out from `first` on. */
  function IdsFrom(first: nat, n: nat): seq<nat> {
    if n == 0 then [] else IdsFrom(first, n - 1) + [first + n - 1]
  }

  function Ids(list: seq<OpenPosition>): multiset<nat> {
    if list == [] then multiset{} else Ids(list[..|list| - 1]) + multiset{list[|list| - 1].id}
  }

  function ClosedIds(closed: seq<ClosedPosition>): multiset<nat> {
    if closed == [] then multiset{} else ClosedIds(closed[..|closed| - 1]) + multiset{closed[|closed| - 1].id}
  }

  function OpenSides(list: seq<OpenPosition>): set<Side> {
    set p | p in list :: p.position.side
  }

  /** The ids open on the given symbols. */
  ghost function IdsOn(m: map<string, seq<OpenPosition>>, symbols: set<string>): multiset<nat> {
    if symbols == {} then multiset{}
    else
      var symbol :| symbol in symbols;
      Ids(ListOf(m, symbol)) + IdsOn(m, symbols - {symbol})
  }

  ghost function OpenIds(m: map<string, seq<OpenPosition>>): multiset<nat> {
    IdsOn(m, m.Keys)
  }

  ghost function TotalOpen(m: map<string, seq<OpenPosition>>): nat {
    |OpenIds(m)|
  }

  function PnlSum(closed: seq<ClosedPosition>): real {
    if closed == [] then 0.0 else PnlSum(closed[..|closed| - 1]) + closed[|closed| - 1].pnl
  }

  // ----- Fills -----

  function ScaledLot(lotSize: real, scale: real): real {
    Round2(lotSize * scale)
  }

  function NewPosition(cfg: BrokerConfig, order: Order, leg: OrderLeg, entryPrice: real, time: int,
                       scale: real): Position {
    Position(order.side, entryPrice, order.slPrice, Some(leg.tpPrice), order.slPrice, false, entryPrice,
             ScaledLot(leg.lotSize, scale), time, 0, leg.setupTags,
             Some(if "TP1" in leg.setupTags then SMC_TP1_TRAIL else cfg.runnerTrail), false, false)
  }

  ghost function OpenOne(s: BrokerState, symbol: string, p: Position): BrokerState {
    var positions := s.positions[symbol := ListOf(s.positions, symbol) + [OpenPosition(s.nextId, p)]];
    s.(positions := positions, nextId := s.nextId + 1, counts := s.counts + [TotalOpen(positions)],
    filledAs := s.filledAs[s.nextId := FilledLeg(symbol, p)])
  }

  ghost function OpenLegs(cfg: BrokerConfig, s: BrokerState, symbol: string, order: Order, legs: seq<OrderLeg>,
                          entryPrice: real, time: int, scale: real): BrokerState
  {
    if legs == [] then s
    else
      OpenOne(OpenLegs(cfg, s, symbol, order, legs[..|legs| - 1], entryPrice, time, scale), symbol,
              NewPosition(cfg, order, legs[|legs| - 1], entryPrice, time, scale))
  }

  /** The new high-water mark is taken once all legs are open. */
  ghost function Marked(s: BrokerState): BrokerState {
    s.(maxConcurrent := if TotalOpen(s.positions) > s.maxConcurrent then TotalOpen(s.positions) else s.maxConcurrent)
  }

  ghost function FillAt(cfg: BrokerConfig, s: BrokerState, symbol: string, order: Order, entryPrice: real, time: int,
                        scale: real): BrokerState
  {
    Marked(OpenLegs(cfg, s, symbol, order, order.legs, entryPrice, time, scale))
  }

  // ----- Parked limits -----

  function LimitPrice(order: Order, frac: real): real {
    var dist := Abs(order.entryPrice - order.slPrice);
    if order.side == Buy then order.entryPrice - dist * frac else order.entryPrice + dist * frac
  }

  function Park(order: Order, retrace: RetraceEntry): ParkedLimit
    requires retrace.frac != 1.0
  {
    ParkedLimit(order, LimitPrice(order, retrace.frac), 1.0 / (1.0 - retrace.frac), retrace.expiryBars)
  }

  predicate Touches(limit: ParkedLimit, candle: Candle) {
    match limit.order.side
    case Buy => candle.low <= limit.limitPrice
    case Sell => candle.high >= limit.limitPrice
  }

  /** The limits still parked after a bar, each one bar closer to its expiry. */
  function Remaining(list: seq<ParkedLimit>, candle: Candle): seq<ParkedLimit> {
    if list == [] then []
    else
      var rest, last := Remaining(list[..|list| - 1], candle), list[|list| - 1];
      if Touches(last, candle) || last.barsLeft - 1 <= 0 then rest else rest + [last.(barsLeft := last.barsLeft - 1)]
  }

  ghost function FillTouched(cfg: BrokerConfig, s: BrokerState, symbol: string, list: seq<ParkedLimit>,
                             candle: Candle): BrokerState {
    if list == [] then s
    else
      var s1, last := FillTouched(cfg, s, symbol, list[..|list| - 1], candle), list[|list| - 1];
      if Touches(last, candle) then FillAt(cfg, s1, symbol, last.order, last.limitPrice, candle.openTime, last.scale) else s1
  }

  ghost function ProcessPendingLimits(cfg: BrokerConfig, s: BrokerState, symbol: string, candle: Candle): BrokerState {
    var list := ListOf(s.limits, symbol);
    if list == [] then s
    else FillTouched(cfg, s, symbol, list, candle).(limits := WithList(s.limits, symbol, Remaining(list, candle)))
  }

  // ----- Exits -----

  /** A position filled on this very bar is not managed by it. */
  function Manage(p: OpenPosition, bar: Bar): OpenPosition {
    if p.position.entryTime == bar.candle.openTime then p
    else p.(position := UpdatePositionManagement(p.position, bar))
  }

  function ManageList(list: seq<OpenPosition>, bar: Bar): seq<OpenPosition> {
    seq(|list|, i requires 0 <= i < |list| => Manage(list[i], bar))
  }

  predicate StopTouched(p: Position, candle: Candle) {
    match p.side
    case Buy => candle.low <= p.slPrice
    case Sell => candle.high >= p.slPrice
  }

  /** The target counts on later bars than the fill only. */
  predicate TargetTouched(p: Position, candle: Candle) {
    p.entryTime != candle.openTime && p.tpPrice.Some? &&
    match p.side
    case Buy => candle.high >= p.tpPrice.value
    case Sell => candle.low <= p.tpPrice.value
  }

  function CalcPnl(cfg: BrokerConfig, symbol: string, p: Position, closePrice: real): real {
    PositionExits.CalculatePnl(p, closePrice, 0.0, cfg.lotSizeUnits(symbol), cfg.quotedInYen(symbol) && closePrice != 0.0)
  }

  function CloseAt(cfg: BrokerConfig, symbol: string, p: OpenPosition, price: real, time: int,
                   reason: ReplayExit): ClosedPosition {
    ClosedPosition(p.id, p.position, price, time, CalcPnl(cfg, symbol, p.position, price), reason)
  }

  /** The stop has priority over the target on a bar that touches both. */
  function ExitOn(cfg: BrokerConfig, symbol: string, p: OpenPosition, candle: Candle): Option<ClosedPosition> {
    if StopTouched(p.position, candle) then
      Some(CloseAt(cfg, symbol, p, p.position.slPrice, candle.openTime, SlExit))
    else if TargetTouched(p.position, candle) then
      Some(CloseAt(cfg, symbol, p, p.position.tpPrice.value, candle.openTime, TpExit))
    else None
  }

  /** The positions of the list that do not exit. */
  function StillOpen(exitOf: OpenPosition -> Option<ClosedPosition>, list: seq<OpenPosition>): seq<OpenPosition> {
    if list == [] then []
    else StillOpen(exitOf, list[..|list| - 1]) + if exitOf(list[|list| - 1]).None? then [list[|list| - 1]] else []
  }

  /** The exits of those that do. */
  function Closing(exitOf: OpenPosition -> Option<ClosedPosition>, list: seq<OpenPosition>): seq<ClosedPosition> {
    if list == [] then []
    else
      var exit := exitOf(list[|list| - 1]);
      Closing(exitOf, list[..|list| - 1]) + if exit.Some? then [exit.value] else []
  }

  /** The symbol's list becomes `still`; `done` is booked. */
  ghost function Settle(s: BrokerState, symbol: string, still: seq<OpenPosition>,
                        done: seq<ClosedPosition>): BrokerState {
    var positions := WithList(s.positions, symbol, still);
    s.(balance := s.balance + PnlSum(done),
    closed := s.closed + done,
    positions := positions,
    counts := s.counts + [TotalOpen(positions)])
  }

  ghost function ProcessOpen(cfg: BrokerConfig, s: BrokerState, symbol: string, bar: Bar): BrokerState {
    var list := ListOf(s.positions, symbol);
    if list == [] then s
    else
      var managed := ManageList(list, bar);
      var exitOf := p => ExitOn(cfg, symbol, p, bar.candle);
      Settle(s, symbol, StillOpen(exitOf, managed), Closing(exitOf, managed))
  }

  function FlushList(cfg: BrokerConfig, symbol: string, list: seq<OpenPosition>, price: real,
                     time: int): seq<ClosedPosition> {
    seq(|list|, i requires 0 <= i < |list| => CloseAt(cfg, symbol, list[i], price, time, FlushExit))
  }

  // ----- The calls -----

  ghost function ProcessCandle(cfg: BrokerConfig, s: BrokerState, symbol: string, bar: Bar): BrokerState {
    ProcessOpen(cfg, ProcessPendingLimits(cfg, s, symbol, bar.candle), symbol, bar)
  }

  ghost function PlaceOrder(cfg: BrokerConfig, s: BrokerState, symbol: string, order: Order, time: int): BrokerState
    requires cfg.retrace.Some? ==> cfg.retrace.value.frac != 1.0
  {
    if cfg.retrace.Some?
    then s.(limits := s.limits[symbol := ListOf(s.limits, symbol) + [Park(order, cfg.retrace.value)]])
    else FillAt(cfg, s, symbol, order, order.entryPrice, time, 1.0)
  }

  ghost function CloseAllForSymbol(cfg: BrokerConfig, s: BrokerState, symbol: string, price: real,
                                   time: int): BrokerState {
    Settle(s, symbol, [], FlushList(cfg, symbol, ListOf(s.positions, symbol), price, time))
  }

  // ----- Conservation -----

  function Upto(n: nat): multiset<nat> {
    if n == 0 then multiset{} else Upto(n - 1) + multiset{n - 1}
  }

  function MaxCount(counts: seq<nat>): nat {
    if counts == [] then 0
    else
      var rest, last := MaxCount(counts[..|counts| - 1]), counts[|counts| - 1];
      if last > rest then last else rest
  }

  /** Money is conserved, every filled leg is open or closed and never both, and the high-water mark is exact. */
  ghost predicate Conserves(s: BrokerState, initialBalance: real) {
    && s.balance == initialBalance + PnlSum(s.closed)
    && OpenIds(s.positions) + ClosedIds(s.closed) == Upto(s.nextId)
    && s.maxConcurrent == MaxCount(s.counts)
    && TotalOpen(s.positions) <= s.maxConcurrent
  }

  lemma PickSymbol(m: map<string, seq<OpenPosition>>, symbols: set<string>) returns (first: string)
    requires symbols != {}
    ensures first in symbols && IdsOn(m, symbols) == Ids(ListOf(m, first)) + IdsOn(m, symbols - {first})
  {
    first :| first in symbols && IdsOn(m, symbols) == Ids(ListOf(m, first)) + IdsOn(m, symbols - {first});
  }

  /** Any symbol can be counted first. */
  lemma {:induction false} IdsOnAt(m: map<string, seq<OpenPosition>>, symbols: set<string>, symbol: string)
    requires symbol in symbols
    ensures IdsOn(m, symbols) == Ids(ListOf(m, symbol)) + IdsOn(m, symbols - {symbol})
  {
    var first := PickSymbol(m, symbols);
    if first != symbol {
      IdsOnAt(m, symbols - {first}, symbol);
      IdsOnAt(m, symbols - {symbol}, first);
      assert symbols - {first} - {symbol} == symbols - {symbol} - {first};
    }
  }

  lemma {:induction false} IdsOnAgree(m: map<string, seq<OpenPosition>>, m': map<string, seq<OpenPosition>>,
                                      symbols: set<string>)
    requires forall symbol :: symbol in symbols ==> ListOf(m, symbol) == ListOf(m', symbol)
    ensures IdsOn(m, symbols) == IdsOn(m', symbols)
  {
    if symbols != {} {
      var first := PickSymbol(m, symbols);
      IdsOnAt(m', symbols, first);
      IdsOnAgree(m, m', symbols - {first});
    }
  }

  /** The ids open on every other symbol. */
  ghost function IdsElsewhere(m: map<string, seq<OpenPosition>>, symbol: string): multiset<nat> {
    IdsOn(m, m.Keys - {symbol})
  }

  lemma OpenIdsAt(m: map<string, seq<OpenPosition>>, symbol: string)
    ensures OpenIds(m) == Ids(ListOf(m, symbol)) + IdsElsewhere(m, symbol)
  {
    if symbol in m {
      IdsOnAt(m, m.Keys, symbol);
    } else {
      assert m.Keys - {symbol} == m.Keys;
    }
  }

  lemma OpenIdsReplaced(m: map<string, seq<OpenPosition>>, m': map<string, seq<OpenPosition>>, symbol: string)
    requires m'.Keys - {symbol} == m.Keys - {symbol}
    requires forall other :: other in m && other != symbol ==> ListOf(m', other) == ListOf(m, other)
    ensures OpenIds(m') == Ids(ListOf(m', symbol)) + IdsElsewhere(m, symbol)
  {
    OpenIdsAt(m', symbol);
    IdsOnAgree(m, m', m.Keys - {symbol});
  }

  lemma OpenIdsWith(m: map<string, seq<OpenPosition>>, symbol: string, list: seq<OpenPosition>)
    ensures OpenIds(WithList(m, symbol, list)) == Ids(list) + IdsElsewhere(m, symbol)
    ensures OpenIds(m[symbol := list]) == Ids(list) + IdsElsewhere(m, symbol)
  {
    OpenIdsReplaced(m, m[symbol := list], symbol);
    OpenIdsReplaced(m, WithList(m, symbol, list), symbol);
  }

  lemma OpenOneIds(s: BrokerState, symbol: string, p: Position)
    ensures OpenIds(OpenOne(s, symbol, p).positions) == OpenIds(s.positions) + multiset{s.nextId}
    ensures TotalOpen(OpenOne(s, symbol, p).positions) == TotalOpen(s.positions) + 1
  {
    var list := ListOf(s.positions, symbol);
    var longer := list + [OpenPosition(s.nextId, p)];
    OpenIdsAt(s.positions, symbol);
    OpenIdsWith(s.positions, symbol, longer);
    IdsPlus(list, OpenPosition(s.nextId, p));
  }

  /** `s'` is `s` with `n` legs more open; the count has only risen on the way. */
  ghost predicate OpensMore(s: BrokerState, s': BrokerState, n: nat) {
    && s'.balance == s.balance && s'.closed == s.closed && s'.limits == s.limits
    && s'.maxConcurrent == s.maxConcurrent && s'.nextId == s.nextId + n
    && OpenIds(s'.positions) + ClosedIds(s'.closed) == Upto(s'.nextId)
    && TotalOpen(s'.positions) >= TotalOpen(s.positions)
    && MaxCount(s'.counts)
       == (if TotalOpen(s'.positions) > MaxCount(s.counts) then TotalOpen(s'.positions) else MaxCount(s.counts))
  }

  lemma MaxCountPlus(counts: seq<nat>, last: nat)
    ensures MaxCount(counts + [last]) == if last > MaxCount(counts) then last else MaxCount(counts)
  {
    assert (counts + [last])[..|counts|] == counts;
  }

  lemma OneMore(s: BrokerState, s1: BrokerState, s2: BrokerState, n: nat, symbol: string, p: Position)
    requires OpensMore(s, s1, n) && s2 == OpenOne(s1, symbol, p)
    ensures OpensMore(s, s2, n + 1)
  {
    OpenOneIds(s1, symbol, p);
    MaxCountPlus(s1.counts, TotalOpen(s2.positions));
    SplitOne(Upto(s1.nextId), OpenIds(s1.positions), ClosedIds(s1.closed), multiset{s1.nextId});
  }

  /** Opening legs adds exactly their ids, and the count only rises. */
  lemma {:induction false} OpenLegsConserve(cfg: BrokerConfig, s: BrokerState, symbol: string, order: Order,
                                            legs: seq<OrderLeg>,
                                            entryPrice: real, time: int, scale: real)
    requires TotalOpen(s.positions) <= MaxCount(s.counts)
    requires OpenIds(s.positions) + ClosedIds(s.closed) == Upto(s.nextId)
    ensures OpensMore(s, OpenLegs(cfg, s, symbol, order, legs, entryPrice, time, scale), |legs|)
  {
    if legs != [] {
      var init := legs[..|legs| - 1];
      OpenLegsConserve(cfg, s, symbol, order, init, entryPrice, time, scale);
      OneMore(s, OpenLegs(cfg, s, symbol, order, init, entryPrice, time, scale),
              OpenLegs(cfg, s, symbol, order, legs, entryPrice, time, scale), |init|, symbol,
              NewPosition(cfg, order, legs[|legs| - 1], entryPrice, time, scale));
    }
  }

  lemma FillConserves(cfg: BrokerConfig, s: BrokerState, symbol: string, order: Order, entryPrice: real, time: int,
                      scale: real, initialBalance: real)
    requires Conserves(s, initialBalance)
    ensures Conserves(FillAt(cfg, s, symbol, order, entryPrice, time, scale), initialBalance)
    ensures FillAt(cfg, s, symbol, order, entryPrice, time, scale).nextId == s.nextId + |order.legs|
    ensures FillAt(cfg, s, symbol, order, entryPrice, time, scale).closed == s.closed
  {
    OpenLegsConserve(cfg, s, symbol, order, order.legs, entryPrice, time, scale);
  }

  lemma {:induction false} PnlSumJoin(a: seq<ClosedPosition>, b: seq<ClosedPosition>)
    ensures PnlSum(a + b) == PnlSum(a) + PnlSum(b)
  {
    if b == [] {
      assert a + b == a;
    } else {
      assert (a + b)[..|a + b| - 1] == a + b[..|b| - 1];
      PnlSumJoin(a, b[..|b| - 1]);
    }
  }

  lemma {:induction false} ClosedIdsJoin(a: seq<ClosedPosition>, b: seq<ClosedPosition>)
    ensures ClosedIds(a + b) == ClosedIds(a) + ClosedIds(b)
  {
    if b == [] {
      assert a + b == a;
    } else {
      assert (a + b)[..|a + b| - 1] == a + b[..|b| - 1];
      ClosedIdsJoin(a, b[..|b| - 1]);
    }
  }

  /** Settling a symbol conserves whenever its list has been split into what stays and what is booked. */
  lemma SettleConserves(s: BrokerState, symbol: string, still: seq<OpenPosition>, done: seq<ClosedPosition>,
                        initialBalance: real)
    requires Conserves(s, initialBalance)
    requires Ids(ListOf(s.positions, symbol)) == Ids(still) + ClosedIds(done)
    ensures Conserves(Settle(s, symbol, still, done), initialBalance)
  {
    var s' := Settle(s, symbol, still, done);
    PnlSumJoin(s.closed, done);
    ClosedIdsJoin(s.closed, done);
    OpenIdsAt(s.positions, symbol);
    OpenIdsWith(s.positions, symbol, still);
    MaxCountPlus(s.counts, TotalOpen(s'.positions));
    Moved(OpenIds(s.positions), IdsElsewhere(s.positions, symbol), Ids(still), ClosedIds(done), ClosedIds(s.closed),
          Upto(s.nextId));
  }

  lemma Moved(open: multiset<nat>, others: multiset<nat>, still: multiset<nat>, done: multiset<nat>,
              closed: multiset<nat>,
              all: multiset<nat>)
    requires open == still + done + others && open + closed == all
    ensures (still + others) + (closed + done) == all
    ensures |still + others| <= |open|
  {
    assert open == (still + others) + done;
  }

  lemma IdsPlus(list: seq<OpenPosition>, last: OpenPosition)
    ensures Ids(list + [last]) == Ids(list) + multiset{last.id}
  {
    assert (list + [last])[..|list|] == list;
  }

  lemma ClosedIdsPlus(list: seq<ClosedPosition>, last: ClosedPosition)
    ensures ClosedIds(list + [last]) == ClosedIds(list) + multiset{last.id}
  {
    assert (list + [last])[..|list|] == list;
  }

  lemma SplitOne(all: multiset<nat>, still: multiset<nat>, done: multiset<nat>, one: multiset<nat>)
    requires all == still + done
    ensures all + one == still + (done + one) && all + one == still + one + done
  {
  }

  /** What stays open and what closes split the list between them. */
  lemma {:induction false} SplitIds(exitOf: OpenPosition -> Option<ClosedPosition>, list: seq<OpenPosition>)
    requires forall p :: exitOf(p).Some? ==> exitOf(p).value.id == p.id
    ensures Ids(list) == Ids(StillOpen(exitOf, list)) + ClosedIds(Closing(exitOf, list))
  {
    if list != [] {
      var init, last := list[..|list| - 1], list[|list| - 1];
      var still, done := StillOpen(exitOf, init), Closing(exitOf, init);
      SplitIds(exitOf, init);
      SplitOne(Ids(init), Ids(still), ClosedIds(done), multiset{last.id});
      if exitOf(last).Some? {
        assert StillOpen(exitOf, list) == still;
        ClosedIdsPlus(done, exitOf(last).value);
      } else {
        assert Closing(exitOf, list) == done;
        IdsPlus(still, last);
      }
    }
  }

  lemma {:induction false} SameIds(list: seq<OpenPosition>, other: seq<OpenPosition>)
    requires |list| == |other| && forall i :: 0 <= i < |list| ==> list[i].id == other[i].id
    ensures Ids(list) == Ids(other)
  {
    if list != [] {
      SameIds(list[..|list| - 1], other[..|other| - 1]);
    }
  }

  lemma {:induction false} FlushedIds(cfg: BrokerConfig, symbol: string, list: seq<OpenPosition>, price: real,
                                      time: int)
    ensures ClosedIds(FlushList(cfg, symbol, list, price, time)) == Ids(list)
  {
    if list != [] {
      FlushedIds(cfg, symbol, list[..|list| - 1], price, time);
      assert FlushList(cfg, symbol, list, price, time)[..|list| - 1] == FlushList(cfg, symbol, list[..|list| - 1], price, time);
    }
  }

  lemma ProcessOpenConserves(cfg: BrokerConfig, s: BrokerState, symbol: string, bar: Bar, initialBalance: real)
    requires Conserves(s, initialBalance)
    ensures Conserves(ProcessOpen(cfg, s, symbol, bar), initialBalance)
  {
    var list := ListOf(s.positions, symbol);
    if list != [] {
      var managed := ManageList(list, bar);
      var exitOf := p => ExitOn(cfg, symbol, p, bar.candle);
      SameIds(list, managed);
      SplitIds(exitOf, managed);
      SettleConserves(s, symbol, StillOpen(exitOf, managed), Closing(exitOf, managed), initialBalance);
    }
  }

  lemma CloseAllConserves(cfg: BrokerConfig, s: BrokerState, symbol: string, price: real, time: int,
                          initialBalance: real)
    requires Conserves(s, initialBalance)
    ensures Conserves(CloseAllForSymbol(cfg, s, symbol, price, time), initialBalance)
  {
    var list := ListOf(s.positions, symbol);
    FlushedIds(cfg, symbol, list, price, time);
    SettleConserves(s, symbol, [], FlushList(cfg, symbol, list, price, time), initialBalance);
  }

  lemma {:induction false} FillTouchedConserves(cfg: BrokerConfig, s: BrokerState, symbol: string,
                                                list: seq<ParkedLimit>,
                                                candle: Candle, initialBalance: real)
    requires Conserves(s, initialBalance)
    ensures Conserves(FillTouched(cfg, s, symbol, list, candle), initialBalance)
  {
    if list != [] {
      var init, last := list[..|list| - 1], list[|list| - 1];
      FillTouchedConserves(cfg, s, symbol, init, candle, initialBalance);
      if Touches(last, candle) {
        FillConserves(cfg, FillTouched(cfg, s, symbol, init, candle), symbol, last.order, last.limitPrice, candle.openTime,
                      last.scale, initialBalance);
      }
    }
  }

  /** A call on the broker. */
  datatype Call =
    | Candle(symbol: string, bar: Bar)
    | Place(symbol: string, order: Order, time: int)
    | CloseAll(symbol: string, price: real, time: int)

  ghost function Step(cfg: BrokerConfig, s: BrokerState, call: Call): BrokerState
    requires cfg.retrace.Some? ==> cfg.retrace.value.frac != 1.0
  {
    match call
    case Candle(symbol, bar) => ProcessCandle(cfg, s, symbol, bar)
    case Place(symbol, order, time) => PlaceOrder(cfg, s, symbol, order, time)
    case CloseAll(symbol, price, time) => CloseAllForSymbol(cfg, s, symbol, price, time)
  }

  ghost function Run(cfg: BrokerConfig, initialBalance: real, calls: seq<Call>): BrokerState
    requires cfg.retrace.Some? ==> cfg.retrace.value.frac != 1.0
  {
    if calls == [] then Opening(initialBalance)
    else Step(cfg, Run(cfg, initialBalance, calls[..|calls| - 1]), calls[|calls| - 1])
  }

  lemma StepConserves(cfg: BrokerConfig, s: BrokerState, call: Call, initialBalance: real)
    requires cfg.retrace.Some? ==> cfg.retrace.value.frac != 1.0
    requires Conserves(s, initialBalance)
    ensures Conserves(Step(cfg, s, call), initialBalance)
  {
    match call {
      case Candle(symbol, bar) =>
        var list := ListOf(s.limits, symbol);
        FillTouchedConserves(cfg, s, symbol, list, bar.candle, initialBalance);
        var s1 := ProcessPendingLimits(cfg, s, symbol, bar.candle);
        assert Conserves(s1, initialBalance);
        ProcessOpenConserves(cfg, s1, symbol, bar, initialBalance);
      case Place(symbol, order, time) =>
        FillConserves(cfg, s, symbol, order, order.entryPrice, time, 1.0, initialBalance);
      case CloseAll(symbol, price, time) =>
        CloseAllConserves(cfg, s, symbol, price, time, initialBalance);
    }
  }

  /**
   In every run the balance is the initial one plus the booked pnl, each id handed out is
   open or closed and never both, and `maxConcurrent` is the largest number ever open.
   */
  lemma {:induction false} BrokerConserves(cfg: BrokerConfig, initialBalance: real, calls: seq<Call>)
    requires cfg.retrace.Some? ==> cfg.retrace.value.frac != 1.0
    ensures Conserves(Run(cfg, initialBalance, calls), initialBalance)
  {
    if calls != [] {
      BrokerConserves(cfg, initialBalance, calls[..|calls| - 1]);
      StepConserves(cfg, Run(cfg, initialBalance, calls[..|calls| - 1]), calls[|calls| - 1], initialBalance);
    }
  }

  lemma {:induction false} UptoMeaning(n: nat)
    ensures forall id: nat :: Upto(n)[id] == if id < n then 1 else 0
    ensures |Upto(n)| == n
  {
    if n > 0 {
      UptoMeaning(n - 1);
    }
  }

  /** Each id handed out is in exactly one place; no other id is anywhere. */
  lemma OpenXorClosed(s: BrokerState, initialBalance: real, id: nat)
    requires Conserves(s, initialBalance)
    ensures OpenIds(s.positions)[id] + ClosedIds(s.closed)[id] == if id < s.nextId then 1 else 0
  {
    UptoMeaning(s.nextId);
    assert (OpenIds(s.positions) + ClosedIds(s.closed))[id] == Upto(s.nextId)[id];
  }

  // ----- The object -----

  class SimulatedBroker {
    const config: BrokerConfig
    var balance: real
    var positions: map<string, seq<OpenPosition>>
    var closed: seq<ClosedPosition>
    var maxConcurrent: nat
    var pendingLimits: map<string, seq<ParkedLimit>>
    var nextId: nat
    ghost var counts: seq<nat>
    ghost var filledAs: map<nat, FilledLeg>

    ghost function View(): BrokerState
      reads this
    {
      BrokerState(balance, positions, closed, maxConcurrent, pendingLimits, nextId, counts, filledAs)
    }

    ghost predicate Valid()
      reads this
    {
      config.retrace.Some? ==> config.retrace.value.frac != 1.0
    }

    constructor (initialBalance: real, config: BrokerConfig)
      ensures this.config == config && View() == Opening(initialBalance)
    {
      this.config := config;
      balance, positions, closed, maxConcurrent, pendingLimits, nextId := initialBalance, map[], [], 0, map[], 0;
      counts, filledAs := [], map[];
    }

    method TotalOpenCount() returns (n: nat)
      ensures n == TotalOpen(positions)
    {
      n := 0;
      var symbols := positions.Keys;
      while symbols != {}
        invariant symbols <= positions.Keys
        invariant n + |IdsOn(positions, symbols)| == TotalOpen(positions)
        decreases |symbols|
      {
        var symbol :| symbol in symbols;
        IdsOnAt(positions, symbols, symbol);
        IdsSize(positions[symbol]);
        n := n + |positions[symbol]|;
        symbols := symbols - {symbol};
      }
    }

    method OpenLeg(symbol: string, order: Order, leg: OrderLeg, entryPrice: real, time: int, scale: real)
      modifies this
      ensures View() == OpenOne(old(View()), symbol, NewPosition(config, order, leg, entryPrice, time, scale))
    {
      var p := NewPosition(config, order, leg, entryPrice, time, scale);
      positions := positions[symbol := ListOf(positions, symbol) + [OpenPosition(nextId, p)]];
      filledAs := filledAs[nextId := FilledLeg(symbol, p)];
      nextId := nextId + 1;
      counts := counts + [TotalOpen(positions)];
    }

    method Fill(symbol: string, order: Order, entryPrice: real, time: int, scale: real)
      modifies this
      ensures View() == FillAt(config, old(View()), symbol, order, entryPrice, time, scale)
    {
      ghost var before := View();
      for i := 0 to |order.legs|
        invariant View() == OpenLegs(config, before, symbol, order, order.legs[..i], entryPrice, time, scale)
      {
        assert order.legs[..i + 1][..i] == order.legs[..i];
        OpenLeg(symbol, order, order.legs[i], entryPrice, time, scale);
      }
      assert order.legs[..|order.legs|] == order.legs;
      var open := TotalOpenCount();
      if open > maxConcurrent {
        maxConcurrent := open;
      }
    }

    /** Fills what the bar touches, and counts the other limits one bar down. */
    method ProcessLimits(symbol: string, candle: Candle)
      modifies this
      ensures View() == ProcessPendingLimits(config, old(View()), symbol, candle)
    {
      var list := ListOf(pendingLimits, symbol);
      if list == [] {
        return;
      }
      ghost var before := View();
      var remaining: seq<ParkedLimit> := [];
      for i := 0 to |list|
        invariant View() == FillTouched(config, before, symbol, list[..i], candle)
        invariant remaining == Remaining(list[..i], candle)
        invariant pendingLimits == before.limits
      {
        assert list[..i + 1][..i] == list[..i];
        var limit := list[i];
        FillTouchedKeepsLimits(config, before, symbol, list[..i + 1], candle);
        if Touches(limit, candle) {
          Fill(symbol, limit.order, limit.limitPrice, candle.openTime, limit.scale);
        } else if limit.barsLeft - 1 > 0 {
          remaining := remaining + [limit.(barsLeft := limit.barsLeft - 1)];
        }
      }
      assert list[..|list|] == list;
      pendingLimits := WithList(pendingLimits, symbol, remaining);
    }

    method Close(symbol: string, p: OpenPosition, price: real, time: int,
                 reason: ReplayExit) returns (trade: ClosedPosition)
      modifies `balance, `closed
      ensures trade == CloseAt(config, symbol, p, price, time, reason)
      ensures balance == old(balance) + trade.pnl && closed == old(closed) + [trade]
    {
      trade := CloseAt(config, symbol, p, price, time, reason);
      balance := balance + trade.pnl;
      closed := closed + [trade];
    }

    /** One bar: parked limits, then management of every open position, then stops and targets. */
    method ProcessBar(symbol: string, bar: Bar) returns (justClosed: seq<ClosedPosition>)
      modifies this
      ensures View() == ProcessCandle(config, old(View()), symbol, bar)
      ensures closed == old(closed) + justClosed
    {
      ProcessLimits(symbol, bar.candle);
      PendingLimitsKeepMoney(config, old(View()), symbol, bar.candle);
      justClosed := [];
      var managed := ManageList(ListOf(positions, symbol), bar);
      if managed == [] {
        return;
      }
      var stillOpen;
      stillOpen, justClosed := CloseHit(symbol, managed, bar.candle);
      positions := WithList(positions, symbol, stillOpen);
      counts := counts + [TotalOpen(positions)];
    }

    /** Closes the position if the bar touches its stop, or else its target. */
    method CloseIfHit(symbol: string, p: OpenPosition, candle: Candle) returns (exit: Option<ClosedPosition>)
      modifies `balance, `closed
      ensures exit == ExitOn(config, symbol, p, candle)
      ensures balance == old(balance) + if exit.Some? then exit.value.pnl else 0.0
      ensures closed == old(closed) + if exit.Some? then [exit.value] else []
    {
      exit := None;
      if StopTouched(p.position, candle) {
        var trade := Close(symbol, p, p.position.slPrice, candle.openTime, SlExit);
        exit := Some(trade);
      } else if TargetTouched(p.position, candle) {
        var trade := Close(symbol, p, p.position.tpPrice.value, candle.openTime, TpExit);
        exit := Some(trade);
      }
    }

    /** The pass over the managed positions: what stays open, and what closes. */
    method CloseHit(symbol: string, managed: seq<OpenPosition>, candle: Candle)
      returns (stillOpen: seq<OpenPosition>, justClosed: seq<ClosedPosition>)
      modifies `balance, `closed
      ensures stillOpen == StillOpen(p => ExitOn(config, symbol, p, candle), managed)
      ensures justClosed == Closing(p => ExitOn(config, symbol, p, candle), managed)
      ensures balance == old(balance) + PnlSum(justClosed) && closed == old(closed) + justClosed
    {
      ghost var exitOf := p => ExitOn(config, symbol, p, candle);
      stillOpen, justClosed := [], [];
      for i := 0 to |managed|
        invariant stillOpen == StillOpen(exitOf, managed[..i]) && justClosed == Closing(exitOf, managed[..i])
        invariant balance == old(balance) + PnlSum(justClosed) && closed == old(closed) + justClosed
      {
        assert managed[..i + 1][..i] == managed[..i];
        var exit := CloseIfHit(symbol, managed[i], candle);
        assert exit == exitOf(managed[i]);
        if exit.Some? {
          PnlSumPlus(justClosed, exit.value);
          justClosed := justClosed + [exit.value];
        } else {
          stillOpen := stillOpen + [managed[i]];
        }
      }
      assert managed[..|managed|] == managed;
    }

    method PlaceSignal(symbol: string, order: Order, time: int) returns (filled: seq<nat>, parked: bool)
      requires Valid()
      modifies this
      ensures View() == PlaceOrder(config, old(View()), symbol, order, time)
      ensures parked == config.retrace.Some?
      ensures filled == if parked then [] else IdsFrom(old(nextId), |order.legs|)
    {
      if config.retrace.Some? {
        pendingLimits := pendingLimits[symbol := ListOf(pendingLimits, symbol) + [Park(order, config.retrace.value)]];
        return [], true;
      }
      filled := IdsFrom(nextId, |order.legs|);
      parked := false;
      Fill(symbol, order, order.entryPrice, time, 1.0);
    }

    method CloseEverything(symbol: string, price: real, time: int) returns (flushed: seq<ClosedPosition>)
      modifies this
      ensures View() == CloseAllForSymbol(config, old(View()), symbol, price, time)
      ensures closed == old(closed) + flushed
    {
      var open := ListOf(positions, symbol);
      flushed := [];
      for i := 0 to |open|
        invariant flushed == FlushList(config, symbol, open[..i], price, time)
        invariant balance == old(balance) + PnlSum(flushed) && closed == old(closed) + flushed
        invariant View() == old(View()).(balance := balance, closed := closed)
      {
        var trade := Close(symbol, open[i], price, time, FlushExit);
        PnlSumPlus(flushed, trade);
        flushed := flushed + [trade];
      }
      assert open[..|open|] == open;
      positions := positions - {symbol};
      counts := counts + [TotalOpen(positions)];
    }

    /** The sides open on the symbol. */
    function OpenDirections(symbol: string): set<Side>
      reads this
    {
      OpenSides(ListOf(positions, symbol))
    }
  }

  lemma {:induction false} IdsSize(list: seq<OpenPosition>)
    ensures |Ids(list)| == |list|
  {
    if list != [] {
      IdsSize(list[..|list| - 1]);
    }
  }

  lemma PnlSumPlus(closed: seq<ClosedPosition>, last: ClosedPosition)
    ensures PnlSum(closed + [last]) == PnlSum(closed) + last.pnl
  {
    assert (closed + [last])[..|closed|] == closed;
  }

  lemma {:induction false} OpenLegsFrame(cfg: BrokerConfig, s: BrokerState, symbol: string, order: Order,
                                         legs: seq<OrderLeg>,
                                         entryPrice: real, time: int, scale: real)
    ensures var s' := OpenLegs(cfg, s, symbol, order, legs, entryPrice, time, scale);
            s'.limits == s.limits && s'.closed == s.closed && s'.balance == s.balance
  {
    if legs != [] {
      OpenLegsFrame(cfg, s, symbol, order, legs[..|legs| - 1], entryPrice, time, scale);
    }
  }

  lemma {:induction false} FillTouchedKeepsLimits(cfg: BrokerConfig, s: BrokerState, symbol: string,
                                                  list: seq<ParkedLimit>,
                                                  candle: Candle)
    ensures var s' := FillTouched(cfg, s, symbol, list, candle);
            s'.limits == s.limits && s'.closed == s.closed && s'.balance == s.balance
  {
    if list != [] {
      var init, last := list[..|list| - 1], list[|list| - 1];
      FillTouchedKeepsLimits(cfg, s, symbol, init, candle);
      OpenLegsFrame(cfg, FillTouched(cfg, s, symbol, init, candle), symbol, last.order, last.order.legs, last.limitPrice,
                    candle.openTime, last.scale);
    }
  }

  lemma PendingLimitsKeepMoney(cfg: BrokerConfig, s: BrokerState, symbol: string, candle: Candle)
    ensures ProcessPendingLimits(cfg, s, symbol, candle).closed == s.closed
    ensures ProcessPendingLimits(cfg, s, symbol, candle).balance == s.balance
  {
    FillTouchedKeepsLimits(cfg, s, symbol, ListOf(s.limits, symbol), candle);
  }
}
