/** What becomes of a parked limit order, and what it risks once filled. */
module ParkedLimits {
  import opened Wrappers
  import opened Numbers
  import opened Market
  import opened PositionSimulator
  import opened SimulatedBroking

  /** The limits of the list that a bar fills, in the order they are filled. */
  function Touched(list: seq<ParkedLimit>, candle: Candle): seq<ParkedLimit> {
    if list == [] then []
    else
      var rest, last := Touched(list[..|list| - 1], candle), list[|list| - 1];
      if Touches(last, candle) then rest + [last] else rest
  }

  /** The limits still parked after some bars. */
  function AfterBars(list: seq<ParkedLimit>, bars: seq<Candle>): seq<ParkedLimit> {
    if bars == [] then list else Remaining(AfterBars(list, bars[..|bars| - 1]), bars[|bars| - 1])
  }

  /** The limits of the list that the last of the bars fills. */
  function FilledByLast(list: seq<ParkedLimit>, bars: seq<Candle>): seq<ParkedLimit>
    requires bars != []
  {
    Touched(AfterBars(list, bars[..|bars| - 1]), bars[|bars| - 1])
  }

  function Aged(limit: ParkedLimit, n: nat): ParkedLimit {
    limit.(barsLeft := limit.barsLeft - n)
  }

  ghost predicate Untouched(limit: ParkedLimit, bars: seq<Candle>) {
    forall i :: 0 <= i < |bars| ==> !Touches(limit, bars[i])
  }

  // ----- Limits do not influence each other -----

  lemma {:induction false} RemainingJoin(a: seq<ParkedLimit>, b: seq<ParkedLimit>, candle: Candle)
    ensures Remaining(a + b, candle) == Remaining(a, candle) + Remaining(b, candle)
    ensures Touched(a + b, candle) == Touched(a, candle) + Touched(b, candle)
  {
    if b == [] {
      assert a + b == a;
    } else {
      assert (a + b)[..|a + b| - 1] == a + b[..|b| - 1];
      RemainingJoin(a, b[..|b| - 1], candle);
    }
  }

  /** Two parts of a list age, fill and expire as if the other were not there. */
  lemma {:induction false} LimitsAreIndependent(a: seq<ParkedLimit>, b: seq<ParkedLimit>, bars: seq<Candle>)
    ensures AfterBars(a + b, bars) == AfterBars(a, bars) + AfterBars(b, bars)
    ensures bars != [] ==> FilledByLast(a + b, bars) == FilledByLast(a, bars) + FilledByLast(b, bars)
  {
    if bars != [] {
      var init, last := bars[..|bars| - 1], bars[|bars| - 1];
      LimitsAreIndependent(a, b, init);
      RemainingJoin(AfterBars(a, init), AfterBars(b, init), last);
    }
  }

  // ----- One limit -----

  lemma RemainingOne(limit: ParkedLimit, candle: Candle)
    ensures Remaining([limit], candle)
         == if Touches(limit, candle) || limit.barsLeft - 1 <= 0 then [] else [Aged(limit, 1)]
    ensures Touched([limit], candle) == if Touches(limit, candle) then [limit] else []
  {
    assert [limit][..0] == [];
    assert Remaining([], candle) == [] && Touched([], candle) == [];
  }

  lemma {:induction false} ParkedWhile(limit: ParkedLimit, bars: seq<Candle>)
    requires limit.barsLeft >= 1
    ensures AfterBars([limit], bars)
         == if Untouched(limit, bars) && |bars| < limit.barsLeft then [Aged(limit, |bars|)] else []
  {
    if bars != [] {
      var init, last := bars[..|bars| - 1], bars[|bars| - 1];
      ParkedWhile(limit, init);
      assert Untouched(limit, bars) <==> Untouched(limit, init) && !Touches(limit, last);
      if AfterBars([limit], init) != [] {
        RemainingOne(Aged(limit, |init|), last);
      }
    }
  }

  /**
   A limit with n >= 1 bars left fills on the first of its next n bars that touches it, and on
   no other; untouched, it is gone after the nth.
   */
  lemma LimitFate(limit: ParkedLimit, bars: seq<Candle>)
    requires limit.barsLeft >= 1
    ensures AfterBars([limit], bars) != [] <==> Untouched(limit, bars) && |bars| < limit.barsLeft
    ensures bars != [] ==>
              var init, last := bars[..|bars| - 1], bars[|bars| - 1];
              FilledByLast([limit], bars)
              == if Untouched(limit, init) && Touches(limit, last) && |bars| <= limit.barsLeft
                 then [Aged(limit, |init|)] else []
  {
    ParkedWhile(limit, bars);
    if bars != [] {
      var init, last := bars[..|bars| - 1], bars[|bars| - 1];
      ParkedWhile(limit, init);
      if AfterBars([limit], init) != [] {
        RemainingOne(Aged(limit, |init|), last);
      }
    }
  }

  // ----- In the broker -----

  ghost function FillEach(cfg: BrokerConfig, s: BrokerState, symbol: string, list: seq<ParkedLimit>,
                          time: int): BrokerState {
    if list == [] then s
    else
      var last := list[|list| - 1];
      FillAt(cfg, FillEach(cfg, s, symbol, list[..|list| - 1], time), symbol, last.order, last.limitPrice, time, last.scale)
  }

  lemma {:induction false} FillsTheTouched(cfg: BrokerConfig, s: BrokerState, symbol: string, list: seq<ParkedLimit>,
                                           candle: Candle)
    ensures FillTouched(cfg, s, symbol, list, candle) == FillEach(cfg, s, symbol, Touched(list, candle), candle.openTime)
  {
    if list != [] {
      var init, last := list[..|list| - 1], list[|list| - 1];
      FillsTheTouched(cfg, s, symbol, init, candle);
      if Touches(last, candle) {
        assert Touched(list, candle)[..|Touched(init, candle)|] == Touched(init, candle);
      }
    }
  }

  /** A bar fills exactly the touched limits of its symbol, and leaves parked exactly the remaining ones. */
  lemma BarHandlesLimits(cfg: BrokerConfig, s: BrokerState, symbol: string, bar: Bar)
    ensures var list, s' := ListOf(s.limits, symbol), ProcessCandle(cfg, s, symbol, bar);
            && ListOf(s'.limits, symbol) == Remaining(list, bar.candle)
            && (forall other :: other != symbol ==> ListOf(s'.limits, other) == ListOf(s.limits, other))
            && ProcessPendingLimits(cfg, s, symbol, bar.candle)
               == FillEach(cfg, s, symbol, Touched(list, bar.candle), bar.candle.openTime)
                  .(limits := if list == [] then s.limits else WithList(s.limits, symbol, Remaining(list, bar.candle)))
  {
    var list := ListOf(s.limits, symbol);
    FillsTheTouched(cfg, s, symbol, list, bar.candle);
    FillTouchedKeepsLimits(cfg, s, symbol, list, bar.candle);
  }

  // ----- The bar of the fill -----

  lemma {:induction false} ExitMembers(exitOf: OpenPosition -> Option<ClosedPosition>, list: seq<OpenPosition>)
    ensures forall p :: p in list && exitOf(p).None? ==> p in StillOpen(exitOf, list)
    ensures forall p :: p in list && exitOf(p).Some? ==> exitOf(p).value in Closing(exitOf, list)
  {
    if list != [] {
      ExitMembers(exitOf, list[..|list| - 1]);
      assert list == list[..|list| - 1] + [list[|list| - 1]];
    }
  }

  /** The position as the bar's exits see it: managed by the bar, unless it was filled on it. */
  function OnBar(p: OpenPosition, bar: Bar): OpenPosition {
    if p.position.entryTime == bar.candle.openTime then p
    else OpenPosition(p.id, UpdatePositionManagement(p.position, bar))
  }

  /** The bar's bid reaches a BUY's stop from above, or a SELL's from below. */
  predicate ReachesStop(p: Position, candle: Candle) {
    if p.side == Buy then candle.low <= p.slPrice else p.slPrice <= candle.high
  }

  /** The bar reaches the target, which is not looked at on the bar of the fill. */
  predicate ReachesTarget(p: Position, candle: Candle) {
    match p.tpPrice
    case None => false
    case Some(target) =>
      candle.openTime != p.entryTime && if p.side == Buy then target <= candle.high else candle.low <= target
  }

  /** What is booked when a position closes at a price. */
  ghost predicate ClosesAt(cfg: BrokerConfig, s: BrokerState, symbol: string, p: OpenPosition, price: real, time: int,
                           reason: ReplayExit) {
    ClosedPosition(p.id, p.position, price, time, CalcPnl(cfg, symbol, p.position, price), reason) in s.closed
  }

  /**
   What a bar does to an open position: it is managed first, and then stopped out at its stop,
   or else paid at its target, or else stays open. A bar that touches both stops it out.
   */
  lemma PositionOnBar(cfg: BrokerConfig, s: BrokerState, symbol: string, bar: Bar, p: OpenPosition)
    requires p in ListOf(ProcessPendingLimits(cfg, s, symbol, bar.candle).positions, symbol)
    ensures var s', m := ProcessCandle(cfg, s, symbol, bar), OnBar(p, bar);
            if ReachesStop(m.position, bar.candle)
            then ClosesAt(cfg, s', symbol, m, m.position.slPrice, bar.candle.openTime, SlExit)
            else if ReachesTarget(m.position, bar.candle)
            then ClosesAt(cfg, s', symbol, m, m.position.tpPrice.value, bar.candle.openTime, TpExit)
            else m in ListOf(s'.positions, symbol)
  {
    hide UpdatePositionManagement, CalcPnl;
    var s1 := ProcessPendingLimits(cfg, s, symbol, bar.candle);
    var list := ListOf(s1.positions, symbol);
    var managed := ManageList(list, bar);
    var i :| 0 <= i < |list| && list[i] == p;
    assert managed[i] == OnBar(p, bar);
    var exitOf := q => ExitOn(cfg, symbol, q, bar.candle);
    ExitMembers(exitOf, managed);
    assert exitOf(managed[i]) == ExitOn(cfg, symbol, managed[i], bar.candle);
  }

  /**
   A position filled on this very bar leaves it untrailed and with its target unexamined:
   it is stopped out at its original stop, or stays open unchanged.
   */
  lemma FilledOnThisBar(cfg: BrokerConfig, s: BrokerState, symbol: string, bar: Bar, p: OpenPosition)
    requires p in ListOf(ProcessPendingLimits(cfg, s, symbol, bar.candle).positions, symbol)
    requires p.position.entryTime == bar.candle.openTime
    ensures var s' := ProcessCandle(cfg, s, symbol, bar);
            if ReachesStop(p.position, bar.candle)
            then ClosesAt(cfg, s', symbol, p, p.position.slPrice, bar.candle.openTime, SlExit)
            else p in ListOf(s'.positions, symbol)
  {
    PositionOnBar(cfg, s, symbol, bar, p);
  }

  // ----- The money at risk -----

  lemma Distribute(a: real, b: real)
    ensures a * (1.0 - b) == a - a * b
  {
  }

  lemma CutDistance(side: Side, entry: real, stop: real, dist: real, cut: real)
    requires dist == Abs(entry - stop) && 0.0 <= cut <= dist
    requires Protective(side, entry, stop)
    ensures Abs((if side == Buy then entry - cut else entry + cut) - stop) == dist - cut
  {
  }

  lemma CutBounds(dist: real, frac: real)
    requires dist >= 0.0 && 0.0 <= frac < 1.0
    ensures 0.0 <= dist * frac <= dist
  {
  }

  lemma ShrunkDistance(order: Order, frac: real, dist: real)
    requires Protective(order.side, order.entryPrice, order.slPrice) && 0.0 <= frac < 1.0 && dist == Abs(order.entryPrice - order.slPrice)
    ensures Abs(LimitPrice(order, frac) - order.slPrice) == dist * (1.0 - frac)
  {
    CutBounds(dist, frac);
    Distribute(dist, frac);
    CutDistance(order.side, order.entryPrice, order.slPrice, dist, dist * frac);
  }

  lemma Weighted(weight: real, error: real)
    requires weight >= 0.0 && -0.005 <= error <= 0.005
    ensures Abs(weight * error) <= 0.005 * weight
  {
    MulMonotone(weight, error, 0.005);
    MulMonotone(weight, -0.005, error);
  }

  lemma Product3(a: real, b: real, c: real)
    requires a >= 0.0 && b >= 0.0 && c >= 0.0
    ensures a * b * c >= 0.0
  {
    MulMonotone(a, 0.0, b);
    MulMonotone(a * b, 0.0, c);
  }

  lemma Regroup(dist: real, shrunk: real, units: real, exact: real, rounded: real, lot: real)
    requires exact * shrunk == lot
    ensures dist * shrunk * rounded * units - dist * lot * units == shrunk * dist * units * (rounded - exact)
  {
    assert dist * lot * units == shrunk * dist * units * exact;
  }

  /** Rounding a lot that is worth `lot` per `shrunk` moves the money at risk by at most half a hundredth of a lot. */
  lemma RescaledRisk(lot: real, exact: real, rounded: real, shrunk: real, dist: real, units: real)
    requires 0.0 < shrunk && dist >= 0.0 && units >= 0.0
    requires exact * shrunk == lot && -0.005 <= rounded - exact <= 0.005
    ensures Abs(dist * shrunk * rounded * units - dist * lot * units) <= 0.005 * (shrunk * dist * units)
  {
    Regroup(dist, shrunk, units, exact, rounded, lot);
    Product3(shrunk, dist, units);
    Weighted(shrunk * dist * units, rounded - exact);
  }

  lemma Congruent(a: real, b: real, c: real)
    requires b == c
    ensures a * b == a * c
  {
  }

  lemma Inverse(lot: real, shrunk: real, scale: real)
    requires scale * shrunk == 1.0
    ensures lot * scale * shrunk == lot
  {
    Congruent(lot, scale * shrunk, 1.0);
    Associates(lot, scale, shrunk);
  }

  lemma Associates(a: real, b: real, c: real)
    ensures a * b * c == a * (b * c)
  {
  }

  lemma ScaleInverts(order: Order, retrace: RetraceEntry, shrunk: real)
    requires retrace.frac < 1.0 && shrunk == 1.0 - retrace.frac
    ensures Park(order, retrace).scale * shrunk == 1.0
  {
    Reciprocal(1.0 - retrace.frac);
  }

  lemma Reciprocal(x: real)
    requires x != 0.0
    ensures 1.0 / x * x == 1.0
  {
  }

  lemma ScaledLotNear(lotSize: real, scale: real)
    ensures -0.005 <= ScaledLot(lotSize, scale) - lotSize * scale <= 0.005
  {
    Round2Near(lotSize * scale);
  }

  /** The risk per lot and the lot of a leg filled at some price. */
  lemma FilledLeg(cfg: BrokerConfig, order: Order, leg: OrderLeg, entryPrice: real, time: int, scale: real)
    ensures var p := NewPosition(cfg, order, leg, entryPrice, time, scale);
            Risk(p) == Abs(entryPrice - order.slPrice) && p.lotSize == ScaledLot(leg.lotSize, scale)
  {
  }

  /**
   Once filled, a parked leg risks what the market entry would have risked, up to the rounding
   of the lot: half a hundredth of a lot times the stop distance that the retrace leaves, `shrunk` of it.
   */
  lemma ParkedRiskMatchesMarket(cfg: BrokerConfig, order: Order, leg: OrderLeg, retrace: RetraceEntry, time: int,
                                units: real,
                                dist: real, shrunk: real)
    requires Protective(order.side, order.entryPrice, order.slPrice) && 0.0 <= retrace.frac < 1.0 && units >= 0.0
    requires dist == Abs(order.entryPrice - order.slPrice) && shrunk == 1.0 - retrace.frac
    ensures var limit := Park(order, retrace);
            var p := NewPosition(cfg, order, leg, limit.limitPrice, time, limit.scale);
            Abs(Risk(p) * p.lotSize * units - dist * leg.lotSize * units) <= 0.005 * (shrunk * dist * units)
  {
    var limit := Park(order, retrace);
    var p := NewPosition(cfg, order, leg, limit.limitPrice, time, limit.scale);
    FilledLeg(cfg, order, leg, limit.limitPrice, time, limit.scale);
    ScaleInverts(order, retrace, shrunk);
    ShrunkDistance(order, retrace.frac, dist);
    Inverse(leg.lotSize, shrunk, limit.scale);
    ScaledLotNear(leg.lotSize, limit.scale);
    RiskOfParts(Risk(p), p.lotSize, leg.lotSize, leg.lotSize * limit.scale, shrunk, dist, units);
  }

  lemma RiskOfParts(risk: real, rounded: real, lot: real, exact: real, shrunk: real, dist: real, units: real)
    requires 0.0 < shrunk && dist >= 0.0 && units >= 0.0
    requires risk == dist * shrunk && exact * shrunk == lot && -0.005 <= rounded - exact <= 0.005
    ensures Abs(risk * rounded * units - dist * lot * units) <= 0.005 * (shrunk * dist * units)
  {
    RescaledRisk(lot, exact, rounded, shrunk, dist, units);
  }
}
