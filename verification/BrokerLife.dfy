/**
 The life of each position of the replay's broker: whatever calls come, what stands under an id,
 open or closed, is the filled leg managed over the bars of its symbol after its fill.
 */
module BrokerLife {
  import opened Wrappers
  import opened Market
  import opened PositionSimulator
  import opened SimulatedBroking
  import opened TrailTiers
  import opened ReplayWorlds
  import opened ReplayLosses

  ghost predicate IsClosed(s: BrokerState, id: nat) {
    exists i :: 0 <= i < |s.closed| && s.closed[i].id == id
  }

  /** The call is a bar of the leg's symbol that opens at another time than the leg was filled. */
  ghost predicate Manages(call: Call, leg: FilledLeg) {
    call.Candle? && call.symbol == leg.symbol && call.bar.candle.openTime != leg.position.entryTime
  }

  /** The bars that a leg lives through: those of its symbol from its fill to its close, save the bar of the fill. */
  ghost function LifeBars(cfg: BrokerConfig, initialBalance: real, calls: seq<Call>, id: nat): seq<Bar>
    requires cfg.retrace.Some? ==> cfg.retrace.value.frac != 1.0
  {
    if calls == [] then []
    else
      var init, last := calls[..|calls| - 1], calls[|calls| - 1];
      LifeBars(cfg, initialBalance, init, id) + LastBar(Run(cfg, initialBalance, init), Run(cfg, initialBalance, calls), last, id)
  }

  /** The last call's bar, if the leg lives through it. */
  ghost function LastBar(before: BrokerState, after: BrokerState, call: Call, id: nat): seq<Bar> {
    if id in after.filledAs && !IsClosed(before, id) && Manages(call, after.filledAs[id]) then [call.bar] else []
  }

  /** The position is its leg, managed over its life. */
  ghost predicate Lives(s: BrokerState, symbol: string, id: nat, p: Position, life: nat -> seq<Bar>) {
    && id < s.nextId && id in s.filledAs && s.filledAs[id].symbol == symbol
    && p == ManageAll(s.filledAs[id].position, life(id))
  }

  ghost predicate AllLive(s: BrokerState, life: nat -> seq<Bar>) {
    && (forall symbol, i :: 0 <= i < |ListOf(s.positions, symbol)| ==>
          Lives(s, symbol, ListOf(s.positions, symbol)[i].id, ListOf(s.positions, symbol)[i].position, life))
    && (forall i :: 0 <= i < |s.closed| ==>
          && s.closed[i].id in s.filledAs
          && Lives(s, s.filledAs[s.closed[i].id].symbol, s.closed[i].id, s.closed[i].position, life))
    && (forall id: nat :: id in s.filledAs <==> id < s.nextId)
    && (forall id: nat :: id !in s.filledAs ==> life(id) == [])
  }

  // ----- Nothing open has been closed -----

  lemma {:induction false} ClosedHasId(closed: seq<ClosedPosition>, i: nat)
    requires i < |closed|
    ensures ClosedIds(closed)[closed[i].id] >= 1
  {
    if i < |closed| - 1 {
      ClosedHasId(closed[..|closed| - 1], i);
    }
  }

  lemma {:induction false} ListHasId(list: seq<OpenPosition>, i: nat)
    requires i < |list|
    ensures Ids(list)[list[i].id] >= 1
  {
    if i < |list| - 1 {
      ListHasId(list[..|list| - 1], i);
    }
  }

  lemma OpenIsNotClosed(s: BrokerState, initialBalance: real, symbol: string, i: nat)
    requires Conserves(s, initialBalance) && i < |ListOf(s.positions, symbol)|
    ensures !IsClosed(s, ListOf(s.positions, symbol)[i].id)
  {
    var list := ListOf(s.positions, symbol);
    var id := list[i].id;
    ListHasId(list, i);
    OpenIdsAt(s.positions, symbol);
    OpenXorClosed(s, initialBalance, id);
    if IsClosed(s, id) {
      var k :| 0 <= k < |s.closed| && s.closed[k].id == id;
      ClosedHasId(s.closed, k);
    }
  }

  // ----- Fills -----

  lemma NothingManaged(p: Position)
    ensures ManageAll(p, []) == p
  {
  }

  lemma OpenOneLives(s: BrokerState, symbol: string, p: Position, life: nat -> seq<Bar>)
    requires AllLive(s, life)
    ensures AllLive(OpenOne(s, symbol, p), life)
  {
    hide ManageAll, TotalOpen;
    var s', list := OpenOne(s, symbol, p), ListOf(s.positions, symbol);
    NothingManaged(p);
    assert ListOf(s'.positions, symbol) == list + [OpenPosition(s.nextId, p)];
    forall other, i | 0 <= i < |ListOf(s'.positions, other)|
      ensures Lives(s', other, ListOf(s'.positions, other)[i].id, ListOf(s'.positions, other)[i].position, life)
    {
      if other != symbol || i < |list| {
        assert Lives(s, other, ListOf(s.positions, other)[i].id, ListOf(s.positions, other)[i].position, life);
      }
    }
    forall i | 0 <= i < |s'.closed|
      ensures s'.closed[i].id in s'.filledAs
              && Lives(s', s'.filledAs[s'.closed[i].id].symbol, s'.closed[i].id, s'.closed[i].position, life)
    {
      assert Lives(s, s.filledAs[s.closed[i].id].symbol, s.closed[i].id, s.closed[i].position, life);
    }
  }

  lemma {:induction false} LegsLive(cfg: BrokerConfig, s: BrokerState, symbol: string, order: Order, legs: seq<OrderLeg>,
                                    entryPrice: real, time: int, scale: real, life: nat -> seq<Bar>)
    requires AllLive(s, life)
    ensures AllLive(OpenLegs(cfg, s, symbol, order, legs, entryPrice, time, scale), life)
  {
    if legs != [] {
      hide AllLive, OpenOne, NewPosition;
      var init, last := legs[..|legs| - 1], legs[|legs| - 1];
      LegsLive(cfg, s, symbol, order, init, entryPrice, time, scale, life);
      OpenOneLives(OpenLegs(cfg, s, symbol, order, init, entryPrice, time, scale), symbol,
                   NewPosition(cfg, order, last, entryPrice, time, scale), life);
    }
  }

  /** Only the book, the closed list and the history matter. */
  lemma SameLives(s: BrokerState, s': BrokerState, life: nat -> seq<Bar>)
    requires AllLive(s, life)
    requires s'.positions == s.positions && s'.closed == s.closed && s'.nextId == s.nextId && s'.filledAs == s.filledAs
    ensures AllLive(s', life)
  {
    hide ManageAll;
    forall symbol, i | 0 <= i < |ListOf(s'.positions, symbol)|
      ensures Lives(s', symbol, ListOf(s'.positions, symbol)[i].id, ListOf(s'.positions, symbol)[i].position, life)
    {
      assert Lives(s, symbol, ListOf(s.positions, symbol)[i].id, ListOf(s.positions, symbol)[i].position, life);
    }
    forall i | 0 <= i < |s'.closed|
      ensures s'.closed[i].id in s'.filledAs
              && Lives(s', s'.filledAs[s'.closed[i].id].symbol, s'.closed[i].id, s'.closed[i].position, life)
    {
      assert Lives(s, s.filledAs[s.closed[i].id].symbol, s.closed[i].id, s.closed[i].position, life);
    }
  }

  lemma FillLives(cfg: BrokerConfig, s: BrokerState, symbol: string, order: Order, entryPrice: real, time: int,
                  scale: real, life: nat -> seq<Bar>)
    requires AllLive(s, life)
    ensures AllLive(FillAt(cfg, s, symbol, order, entryPrice, time, scale), life)
  {
    hide OpenLegs, AllLive;
    LegsLive(cfg, s, symbol, order, order.legs, entryPrice, time, scale, life);
    var s' := OpenLegs(cfg, s, symbol, order, order.legs, entryPrice, time, scale);
    SameLives(s', Marked(s'), life);
  }

  lemma {:induction false} FillTouchedLives(cfg: BrokerConfig, s: BrokerState, symbol: string, list: seq<ParkedLimit>,
                                            candle: Candle, life: nat -> seq<Bar>)
    requires AllLive(s, life)
    ensures AllLive(FillTouched(cfg, s, symbol, list, candle), life)
  {
    if list != [] {
      hide AllLive, FillAt;
      var init, last := list[..|list| - 1], list[|list| - 1];
      FillTouchedLives(cfg, s, symbol, init, candle, life);
      if Touches(last, candle) {
        FillLives(cfg, FillTouched(cfg, s, symbol, init, candle), symbol, last.order, last.limitPrice, candle.openTime,
                  last.scale, life);
      }
    }
  }

  // ----- Bars and flushes -----

  ghost function Extended(life: nat -> seq<Bar>, before: BrokerState, after: BrokerState, call: Call): nat -> seq<Bar> {
    (id: nat) => life(id) + LastBar(before, after, call, id)
  }

  lemma {:induction false} ManagementKeepsEntry(p: Position, bars: seq<Bar>)
    ensures ManageAll(p, bars).entryTime == p.entryTime
  {
    if bars != [] {
      hide UpdatePositionManagement;
      ManagementKeepsEntry(p, bars[..|bars| - 1]);
      UpdateKeepsEntry(ManageAll(p, bars[..|bars| - 1]), bars[|bars| - 1]);
    }
  }

  lemma UpdateKeepsEntry(p: Position, bar: Bar)
    ensures UpdatePositionManagement(p, bar).entryTime == p.entryTime
  {
  }

  lemma OneBarMore(p: Position, bars: seq<Bar>, bar: Bar)
    ensures ManageAll(p, bars + [bar]) == UpdatePositionManagement(ManageAll(p, bars), bar)
    ensures ManageAll(p, bars + []) == ManageAll(p, bars)
  {
    hide UpdatePositionManagement;
    assert (bars + [bar])[..|bars|] == bars && bars + [] == bars;
  }

  /** An open position of the bar's symbol, once the bar has managed it. */
  lemma ManagedLives(s1: BrokerState, symbol: string, t: OpenPosition, bar: Bar, before: BrokerState, after: BrokerState,
                     life: nat -> seq<Bar>)
    requires Lives(s1, symbol, t.id, t.position, life) && !IsClosed(before, t.id)
    requires after.nextId == s1.nextId && after.filledAs == s1.filledAs
    ensures Lives(after, symbol, t.id, Manage(t, bar).position, Extended(life, before, after, Call.Candle(symbol, bar)))
  {
    hide ManageAll, UpdatePositionManagement, IsClosed;
    var leg := s1.filledAs[t.id];
    ManagementKeepsEntry(leg.position, life(t.id));
    OneBarMore(leg.position, life(t.id), bar);
  }

  /** What the call's bar does not manage stays as it was. */
  lemma UnmanagedLives(s1: BrokerState, symbol: string, id: nat, p: Position, call: Call, before: BrokerState,
                       after: BrokerState, life: nat -> seq<Bar>)
    requires Lives(s1, symbol, id, p, life)
    requires after.nextId == s1.nextId && after.filledAs == s1.filledAs
    requires call.Candle? ==> symbol != call.symbol || IsClosed(before, id)
    ensures Lives(after, symbol, id, p, Extended(life, before, after, call))
  {
    hide ManageAll, IsClosed;
    assert life(id) + [] == life(id);
  }

  lemma UnknownLife(s1: BrokerState, before: BrokerState, after: BrokerState, call: Call, life: nat -> seq<Bar>)
    requires AllLive(s1, life) && after.nextId == s1.nextId && after.filledAs == s1.filledAs
    ensures forall id: nat :: id in after.filledAs <==> id < after.nextId
    ensures forall id: nat :: id !in after.filledAs ==> Extended(life, before, after, call)(id) == []
  {
    hide ManageAll, IsClosed;
  }

  /** Settling, when what stays and what closes lives on. */
  lemma SettledLives(s1: BrokerState, symbol: string, still: seq<OpenPosition>, done: seq<ClosedPosition>,
                     before: BrokerState, call: Call, life: nat -> seq<Bar>)
    requires AllLive(s1, life) && before.closed == s1.closed
    requires call.Candle? ==> call.symbol == symbol
    requires var life' := Extended(life, before, Settle(s1, symbol, still, done), call);
             var after := Settle(s1, symbol, still, done);
             && (forall i :: 0 <= i < |still| ==> Lives(after, symbol, still[i].id, still[i].position, life'))
             && (forall i :: 0 <= i < |done| ==> Lives(after, symbol, done[i].id, done[i].position, life'))
    ensures AllLive(Settle(s1, symbol, still, done), Extended(life, before, Settle(s1, symbol, still, done), call))
  {
    hide ManageAll, TotalOpen, ListOf, WithList;
    var after := Settle(s1, symbol, still, done);
    var life' := Extended(life, before, after, call);
    ListOfWith(s1.positions, symbol, still);
    UnknownLife(s1, before, after, call, life);
    forall other, i | 0 <= i < |ListOf(after.positions, other)|
      ensures Lives(after, other, ListOf(after.positions, other)[i].id, ListOf(after.positions, other)[i].position, life')
    {
      if other != symbol {
        var t := ListOf(s1.positions, other)[i];
        assert Lives(s1, other, t.id, t.position, life);
        UnmanagedLives(s1, other, t.id, t.position, call, before, after, life);
      }
    }
    forall i | 0 <= i < |after.closed|
      ensures after.closed[i].id in after.filledAs
              && Lives(after, after.filledAs[after.closed[i].id].symbol, after.closed[i].id, after.closed[i].position, life')
    {
      if i < |s1.closed| {
        var c := s1.closed[i];
        assert before.closed[i] == c && IsClosed(before, c.id);
        assert Lives(s1, s1.filledAs[c.id].symbol, c.id, c.position, life);
        UnmanagedLives(s1, s1.filledAs[c.id].symbol, c.id, c.position, call, before, after, life);
      } else {
        assert after.closed[i] == done[i - |s1.closed|];
      }
    }
  }

  /** A bar without open positions of its symbol adds to no life. */
  lemma QuietBarLives(s1: BrokerState, symbol: string, bar: Bar, before: BrokerState, life: nat -> seq<Bar>)
    requires AllLive(s1, life) && before.closed == s1.closed && ListOf(s1.positions, symbol) == []
    ensures AllLive(s1, Extended(life, before, s1, Call.Candle(symbol, bar)))
  {
    hide ManageAll, IsClosed;
    var call := Call.Candle(symbol, bar);
    var life' := Extended(life, before, s1, call);
    UnknownLife(s1, before, s1, call, life);
    forall other, i | 0 <= i < |ListOf(s1.positions, other)|
      ensures Lives(s1, other, ListOf(s1.positions, other)[i].id, ListOf(s1.positions, other)[i].position, life')
    {
      var t := ListOf(s1.positions, other)[i];
      UnmanagedLives(s1, other, t.id, t.position, call, before, s1, life);
    }
    forall i | 0 <= i < |s1.closed|
      ensures s1.closed[i].id in s1.filledAs
              && Lives(s1, s1.filledAs[s1.closed[i].id].symbol, s1.closed[i].id, s1.closed[i].position, life')
    {
      var c := s1.closed[i];
      UnmanagedClosed(s1, before, i, call, life);
    }
  }

  lemma UnmanagedClosed(s1: BrokerState, before: BrokerState, i: nat, call: Call, life: nat -> seq<Bar>)
    requires AllLive(s1, life) && before.closed == s1.closed && i < |s1.closed|
    ensures var c := s1.closed[i];
            c.id in s1.filledAs && Lives(s1, s1.filledAs[c.id].symbol, c.id, c.position, Extended(life, before, s1, call))
  {
    hide ManageAll;
    var c := s1.closed[i];
    assert before.closed[i] == c && IsClosed(before, c.id);
    UnmanagedLives(s1, s1.filledAs[c.id].symbol, c.id, c.position, call, before, s1, life);
  }

  lemma PointwiseLives(s: BrokerState, life: nat -> seq<Bar>, life': nat -> seq<Bar>)
    requires AllLive(s, life) && forall id :: life'(id) == life(id)
    ensures AllLive(s, life')
  {
    hide ManageAll;
    forall symbol, i | 0 <= i < |ListOf(s.positions, symbol)|
      ensures Lives(s, symbol, ListOf(s.positions, symbol)[i].id, ListOf(s.positions, symbol)[i].position, life')
    {
      assert Lives(s, symbol, ListOf(s.positions, symbol)[i].id, ListOf(s.positions, symbol)[i].position, life);
    }
    forall i | 0 <= i < |s.closed|
      ensures s.closed[i].id in s.filledAs && Lives(s, s.filledAs[s.closed[i].id].symbol, s.closed[i].id, s.closed[i].position, life')
    {
      assert Lives(s, s.filledAs[s.closed[i].id].symbol, s.closed[i].id, s.closed[i].position, life);
    }
  }

  lemma ExitKeepsPosition(cfg: BrokerConfig, symbol: string, t: OpenPosition, candle: Candle)
    ensures var exit := ExitOn(cfg, symbol, t, candle);
            exit.Some? ==> exit.value.id == t.id && exit.value.position == t.position
  {
  }

  /** The open positions of the bar's symbol, each managed by it. */
  lemma BookLives(cfg: BrokerConfig, s1: BrokerState, initialBalance: real, symbol: string, bar: Bar, before: BrokerState,
                  after: BrokerState, life: nat -> seq<Bar>)
    requires AllLive(s1, life) && Conserves(s1, initialBalance) && before.closed == s1.closed
    requires after.nextId == s1.nextId && after.filledAs == s1.filledAs
    ensures forall t :: t in ManageList(ListOf(s1.positions, symbol), bar) ==>
                          Lives(after, symbol, t.id, t.position, Extended(life, before, after, Call.Candle(symbol, bar)))
  {
    hide Lives, Manage, Extended;
    var list := ListOf(s1.positions, symbol);
    forall t | t in ManageList(list, bar)
      ensures Lives(after, symbol, t.id, t.position, Extended(life, before, after, Call.Candle(symbol, bar)))
    {
      var i :| 0 <= i < |list| && t == Manage(list[i], bar);
      OpenIsNotClosed(s1, initialBalance, symbol, i);
      SameClosed(s1, before, list[i].id);
      ManagedLives(s1, symbol, list[i], bar, before, after, life);
      ManageKeepsEntry(list[i], bar);
    }
  }

  lemma SameClosed(s: BrokerState, s': BrokerState, id: nat)
    requires s'.closed == s.closed
    ensures IsClosed(s', id) <==> IsClosed(s, id)
  {
  }

  lemma ProcessOpenLives(cfg: BrokerConfig, s1: BrokerState, initialBalance: real, symbol: string, bar: Bar,
                         before: BrokerState, life: nat -> seq<Bar>)
    requires AllLive(s1, life) && Conserves(s1, initialBalance) && before.closed == s1.closed
    ensures var after := ProcessOpen(cfg, s1, symbol, bar);
            AllLive(after, Extended(life, before, after, Call.Candle(symbol, bar)))
  {
    hide AllLive, Lives, Extended, ExitOn, Conserves;
    var list := ListOf(s1.positions, symbol);
    if list == [] {
      QuietBarLives(s1, symbol, bar, before, life);
    } else {
      var managed := ManageList(list, bar);
      var exitOf := p => ExitOn(cfg, symbol, p, bar.candle);
      var still, done := StillOpen(exitOf, managed), Closing(exitOf, managed);
      var after := Settle(s1, symbol, still, done);
      var life' := Extended(life, before, after, Call.Candle(symbol, bar));
      BookLives(cfg, s1, initialBalance, symbol, bar, before, after, life);
      StillOpenMembers(exitOf, managed);
      ClosingMembers(exitOf, managed);
      forall i | 0 <= i < |still|
        ensures Lives(after, symbol, still[i].id, still[i].position, life')
      {
        assert still[i] in managed;
      }
      forall i | 0 <= i < |done|
        ensures Lives(after, symbol, done[i].id, done[i].position, life')
      {
        assert done[i] in done;
        var t :| t in managed && exitOf(t) == Some(done[i]);
        ExitKeepsPosition(cfg, symbol, t, bar.candle);
      }
      SettledLives(s1, symbol, still, done, before, Call.Candle(symbol, bar), life);
    }
  }

  lemma CandleLives(cfg: BrokerConfig, s: BrokerState, initialBalance: real, symbol: string, bar: Bar, life: nat -> seq<Bar>)
    requires AllLive(s, life) && Conserves(s, initialBalance)
    ensures var after := ProcessCandle(cfg, s, symbol, bar);
            AllLive(after, Extended(life, s, after, Call.Candle(symbol, bar)))
  {
    hide AllLive, Extended, ProcessOpen, FillTouched;
    var list := ListOf(s.limits, symbol);
    var filled, s1 := FillTouched(cfg, s, symbol, list, bar.candle), ProcessPendingLimits(cfg, s, symbol, bar.candle);
    FillTouchedLives(cfg, s, symbol, list, bar.candle, life);
    FillTouchedConserves(cfg, s, symbol, list, bar.candle, initialBalance);
    PendingLimitsKeepMoney(cfg, s, symbol, bar.candle);
    if list != [] {
      SameLives(filled, s1, life);
    }
    ProcessOpenLives(cfg, s1, initialBalance, symbol, bar, s, life);
  }

  lemma OrderLives(cfg: BrokerConfig, s: BrokerState, symbol: string, order: Order, time: int, life: nat -> seq<Bar>)
    requires cfg.retrace.Some? ==> cfg.retrace.value.frac != 1.0
    requires AllLive(s, life)
    ensures var after := PlaceOrder(cfg, s, symbol, order, time);
            AllLive(after, Extended(life, s, after, Call.Place(symbol, order, time)))
  {
    hide AllLive, FillAt;
    var after := PlaceOrder(cfg, s, symbol, order, time);
    if cfg.retrace.Some? {
      SameLives(s, after, life);
    } else {
      FillLives(cfg, s, symbol, order, order.entryPrice, time, 1.0, life);
    }
    NoBar(life, s, after, Call.Place(symbol, order, time));
    PointwiseLives(after, life, Extended(life, s, after, Call.Place(symbol, order, time)));
  }

  lemma NoBar(life: nat -> seq<Bar>, before: BrokerState, after: BrokerState, call: Call)
    requires !call.Candle?
    ensures forall id :: Extended(life, before, after, call)(id) == life(id)
  {
    forall id
      ensures Extended(life, before, after, call)(id) == life(id)
    {
      assert life(id) + [] == life(id);
    }
  }

  lemma FlushLives(cfg: BrokerConfig, s: BrokerState, symbol: string, price: real, time: int, life: nat -> seq<Bar>)
    requires AllLive(s, life)
    ensures var after := CloseAllForSymbol(cfg, s, symbol, price, time);
            AllLive(after, Extended(life, s, after, Call.CloseAll(symbol, price, time)))
  {
    hide Lives, CalcPnl;
    var list, call := ListOf(s.positions, symbol), Call.CloseAll(symbol, price, time);
    var done := FlushList(cfg, symbol, list, price, time);
    var after := CloseAllForSymbol(cfg, s, symbol, price, time);
    forall i | 0 <= i < |done|
      ensures Lives(after, symbol, done[i].id, done[i].position, Extended(life, s, after, call))
    {
      assert Lives(s, symbol, list[i].id, list[i].position, life);
      UnmanagedLives(s, symbol, list[i].id, list[i].position, call, s, after, life);
    }
    SettledLives(s, symbol, [], done, s, call, life);
  }

  // ----- Runs -----

  ghost function LifeOf(cfg: BrokerConfig, initialBalance: real, calls: seq<Call>): nat -> seq<Bar>
    requires cfg.retrace.Some? ==> cfg.retrace.value.frac != 1.0
  {
    (id: nat) => LifeBars(cfg, initialBalance, calls, id)
  }

  /**
   After any calls, the position open or closed under an id is the leg filled under it, managed
   over the bars of its symbol from its fill to its close, save the bar of the fill itself.
   */
  lemma {:induction false} PositionsAreTheirLives(cfg: BrokerConfig, initialBalance: real, calls: seq<Call>)
    requires cfg.retrace.Some? ==> cfg.retrace.value.frac != 1.0
    ensures AllLive(Run(cfg, initialBalance, calls), LifeOf(cfg, initialBalance, calls))
  {
    if calls == [] {
      StartsAlive(cfg, initialBalance);
    } else {
      hide AllLive, Conserves, ProcessCandle, PlaceOrder, CloseAllForSymbol, LastBar;
      var init, last := calls[..|calls| - 1], calls[|calls| - 1];
      var s, life := Run(cfg, initialBalance, init), LifeOf(cfg, initialBalance, init);
      PositionsAreTheirLives(cfg, initialBalance, init);
      BrokerConserves(cfg, initialBalance, init);
      match last {
        case Candle(symbol, bar) => CandleLives(cfg, s, initialBalance, symbol, bar, life);
        case Place(symbol, order, time) => OrderLives(cfg, s, symbol, order, time, life);
        case CloseAll(symbol, price, time) => FlushLives(cfg, s, symbol, price, time, life);
      }
      PointwiseLives(Run(cfg, initialBalance, calls), Extended(life, s, Run(cfg, initialBalance, calls), last),
                     LifeOf(cfg, initialBalance, calls));
    }
  }

  lemma StartsAlive(cfg: BrokerConfig, initialBalance: real)
    requires cfg.retrace.Some? ==> cfg.retrace.value.frac != 1.0
    ensures AllLive(Run(cfg, initialBalance, []), LifeOf(cfg, initialBalance, []))
  {
  }

  /** So the stop, target and breakeven of any open position follow from its best gain since the fill. */
  lemma OpenPositionByNumbers(cfg: BrokerConfig, initialBalance: real, calls: seq<Call>, symbol: string, i: nat, m: real)
    requires cfg.retrace.Some? ==> cfg.retrace.value.frac != 1.0
    requires i < |ListOf(Run(cfg, initialBalance, calls).positions, symbol)|
    requires var s := Run(cfg, initialBalance, calls);
             var t := ListOf(s.positions, symbol)[i];
             var life := LifeBars(cfg, initialBalance, calls, t.id);
             t.id in s.filledAs && Manageable(s.filledAs[t.id].position) && life != []
             && IsBest(s.filledAs[t.id].position, life, m)
    ensures var s := Run(cfg, initialBalance, calls);
            var t := ListOf(s.positions, symbol)[i];
            exists k :: ManagedTo(s.filledAs[t.id].position, t.position, m, k)
  {
    hide ManageAll, Manageable, IsBest, ManagedTo, LifeBars, Run;
    var s := Run(cfg, initialBalance, calls);
    var t := ListOf(s.positions, symbol)[i];
    PositionsAreTheirLives(cfg, initialBalance, calls);
    assert Lives(s, symbol, t.id, t.position, LifeOf(cfg, initialBalance, calls));
    TrailByNumbers(s.filledAs[t.id].position, LifeBars(cfg, initialBalance, calls, t.id), m);
  }

  // ----- What an order fills -----

  /** The legs as filled, under consecutive ids. */
  function FilledLegs(cfg: BrokerConfig, order: Order, legs: seq<OrderLeg>, price: real, time: int, scale: real,
                      first: nat): seq<OpenPosition> {
    seq(|legs|, i requires 0 <= i < |legs| =>
      OpenPosition(first + i, NewPosition(cfg, order, legs[i], price, time, scale)))
  }

  /** Behind what was open on the pair stand the legs. */
  ghost predicate FilledBehind(cfg: BrokerConfig, s: BrokerState, s': BrokerState, symbol: string, order: Order,
                               legs: seq<OrderLeg>, price: real, time: int, scale: real) {
    && ListOf(s'.positions, symbol)
       == ListOf(s.positions, symbol) + FilledLegs(cfg, order, legs, price, time, scale, s.nextId)
    && s'.nextId == s.nextId + |legs|
  }

  lemma LastFilled(cfg: BrokerConfig, list: seq<OpenPosition>, order: Order, legs: seq<OrderLeg>, price: real, time: int,
                   scale: real, first: nat)
    requires legs != []
    ensures var n := |legs| - 1;
            list + FilledLegs(cfg, order, legs, price, time, scale, first)
            == (list + FilledLegs(cfg, order, legs[..n], price, time, scale, first))
               + [OpenPosition(first + n, NewPosition(cfg, order, legs[n], price, time, scale))]
  {
    hide NewPosition;
    var n := |legs| - 1;
    assert FilledLegs(cfg, order, legs, price, time, scale, first)
        == FilledLegs(cfg, order, legs[..n], price, time, scale, first)
           + [OpenPosition(first + n, NewPosition(cfg, order, legs[n], price, time, scale))];
  }

  lemma {:induction false} LegsFilled(cfg: BrokerConfig, s: BrokerState, symbol: string, order: Order, legs: seq<OrderLeg>,
                                      price: real, time: int, scale: real)
    ensures FilledBehind(cfg, s, OpenLegs(cfg, s, symbol, order, legs, price, time, scale), symbol, order, legs, price, time,
                         scale)
  {
    if legs == [] {
      assert ListOf(s.positions, symbol) + [] == ListOf(s.positions, symbol);
    } else {
      hide NewPosition, OpenOne, ListOf, FilledLegs;
      var init, last := legs[..|legs| - 1], legs[|legs| - 1];
      var s1 := OpenLegs(cfg, s, symbol, order, init, price, time, scale);
      LegsFilled(cfg, s, symbol, order, init, price, time, scale);
      OpenOneLists(s1, symbol, NewPosition(cfg, order, last, price, time, scale));
      NextIdOf(s1, symbol, NewPosition(cfg, order, last, price, time, scale));
      LastFilled(cfg, ListOf(s.positions, symbol), order, legs, price, time, scale, s.nextId);
    }
  }

  lemma NextIdOf(s: BrokerState, symbol: string, p: Position)
    ensures OpenOne(s, symbol, p).nextId == s.nextId + 1
  {
  }

  /** A market order fills its legs at once, at the order's price and with their own lots; a retrace order only parks. */
  lemma OrderPlacedByNumbers(cfg: BrokerConfig, s: BrokerState, symbol: string, order: Order, time: int)
    requires cfg.retrace.Some? ==> cfg.retrace.value.frac != 1.0
    ensures var s' := PlaceOrder(cfg, s, symbol, order, time);
            && (cfg.retrace.None? ==>
                  FilledBehind(cfg, s, s', symbol, order, order.legs, order.entryPrice, time, 1.0) && s'.limits == s.limits)
            && (cfg.retrace.Some? ==>
                  && s'.positions == s.positions && s'.nextId == s.nextId
                  && ListOf(s'.limits, symbol) == ListOf(s.limits, symbol) + [Park(order, cfg.retrace.value)])
  {
    hide NewPosition, TotalOpen, Park, OpenLegs;
    LegsFilled(cfg, s, symbol, order, order.legs, order.entryPrice, time, 1.0);
    OpenLegsFrame(cfg, s, symbol, order, order.legs, order.entryPrice, time, 1.0);
  }

  /** A limit fills its legs at the limit price, scaled, exactly when the bar's low comes down or its high up to it. */
  lemma LimitFilledByNumbers(cfg: BrokerConfig, s: BrokerState, symbol: string, limit: ParkedLimit, candle: Candle)
    ensures var s' := FillTouched(cfg, s, symbol, [limit], candle);
            if (if limit.order.side == Buy then candle.low <= limit.limitPrice else limit.limitPrice <= candle.high)
            then FilledBehind(cfg, s, s', symbol, limit.order, limit.order.legs, limit.limitPrice, candle.openTime, limit.scale)
            else s' == s
  {
    hide NewPosition, TotalOpen, OpenLegs;
    assert [limit][..0] == [] && FillTouched(cfg, s, symbol, [], candle) == s;
    LegsFilled(cfg, s, symbol, limit.order, limit.order.legs, limit.limitPrice, candle.openTime, limit.scale);
  }
}
