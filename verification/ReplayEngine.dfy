/**
 The replay engine: one loop over the timeline drives the broker and the orchestrator, and
 closes at the end what is still open.
 */
module ReplayEngine {
  import opened Wrappers
  import opened Market
  import opened Calendar
  import opened PositionSimulator
  import opened SmcOrchestration
  import opened SimulatedBroking
  import opened ReplayTimeline
  import opened ReplayWorlds

  // ----- What a call on one pair leaves alone -----

  ghost predicate OnlyTouches(s: BrokerState, s': BrokerState, symbol: string) {
    forall other :: other != symbol ==> ListOf(s'.positions, other) == ListOf(s.positions, other)
  }

  lemma {:induction false} LegsTouch(cfg: BrokerConfig, s: BrokerState, symbol: string, order: Order,
                                     legs: seq<OrderLeg>,
                                     entryPrice: real, time: int, scale: real)
    ensures OnlyTouches(s, OpenLegs(cfg, s, symbol, order, legs, entryPrice, time, scale), symbol)
  {
    if legs != [] {
      LegsTouch(cfg, s, symbol, order, legs[..|legs| - 1], entryPrice, time, scale);
    }
  }

  lemma {:induction false} FillsTouch(cfg: BrokerConfig, s: BrokerState, symbol: string, list: seq<ParkedLimit>,
                                      candle: Candle)
    ensures OnlyTouches(s, FillTouched(cfg, s, symbol, list, candle), symbol)
  {
    if list != [] {
      var init, last := list[..|list| - 1], list[|list| - 1];
      FillsTouch(cfg, s, symbol, init, candle);
      LegsTouch(cfg, FillTouched(cfg, s, symbol, init, candle), symbol, last.order, last.order.legs, last.limitPrice,
                candle.openTime, last.scale);
    }
  }

  lemma CandleTouches(cfg: BrokerConfig, s: BrokerState, symbol: string, bar: Bar)
    ensures OnlyTouches(s, ProcessCandle(cfg, s, symbol, bar), symbol)
  {
    FillsTouch(cfg, s, symbol, ListOf(s.limits, symbol), bar.candle);
  }

  lemma OrderTouches(cfg: BrokerConfig, s: BrokerState, symbol: string, order: Order, time: int)
    requires cfg.retrace.Some? ==> cfg.retrace.value.frac != 1.0
    ensures OnlyTouches(s, PlaceOrder(cfg, s, symbol, order, time), symbol)
    ensures PlaceOrder(cfg, s, symbol, order, time).closed == s.closed
  {
    LegsTouch(cfg, s, symbol, order, order.legs, order.entryPrice, time, 1.0);
    OpenLegsFrame(cfg, s, symbol, order, order.legs, order.entryPrice, time, 1.0);
  }

  /** In market mode nothing is ever parked, and a bar hands out no ids. */
  lemma MarketCandle(cfg: BrokerConfig, s: BrokerState, symbol: string, bar: Bar)
    requires s.limits == map[]
    ensures ProcessCandle(cfg, s, symbol, bar).limits == map[] && ProcessCandle(cfg, s, symbol, bar).nextId == s.nextId
  {
  }

  lemma {:induction false} LegsTakeIds(cfg: BrokerConfig, s: BrokerState, symbol: string, order: Order,
                                       legs: seq<OrderLeg>,
                                       entryPrice: real, time: int, scale: real)
    ensures OpenLegs(cfg, s, symbol, order, legs, entryPrice, time, scale).nextId == s.nextId + |legs|
  {
    if legs != [] {
      LegsTakeIds(cfg, s, symbol, order, legs[..|legs| - 1], entryPrice, time, scale);
    }
  }

  lemma MarketOrder(cfg: BrokerConfig, s: BrokerState, symbol: string, order: Order, time: int)
    requires cfg.retrace.None? && s.limits == map[]
    ensures PlaceOrder(cfg, s, symbol, order, time).limits == map[]
    ensures PlaceOrder(cfg, s, symbol, order, time).nextId == s.nextId + |order.legs|
  {
    OpenLegsFrame(cfg, s, symbol, order, order.legs, order.entryPrice, time, 1.0);
    LegsTakeIds(cfg, s, symbol, order, order.legs, order.entryPrice, time, 1.0);
  }

  lemma {:induction false} IdsFromJoin(first: nat, n: nat, m: nat)
    ensures IdsFrom(first, n) + IdsFrom(first + n, m) == IdsFrom(first, n + m)
  {
    if m > 0 {
      IdsFromJoin(first, n, m - 1);
    } else {
      assert IdsFrom(first, n) + [] == IdsFrom(first, n);
    }
  }

  // ----- The flush -----

  /** What is still open on a pair is closed at the pair's last bar. */
  ghost function FlushedPair(cfg: ReplayConfig, candles: map<string, Bundle>, s: BrokerState, symbol: string): BrokerState {
    if symbol !in candles || candles[symbol].m15 == [] then s
    else
      var last := candles[symbol].m15[|candles[symbol].m15| - 1];
      CloseAllForSymbol(cfg.broker, s, symbol, last.close, last.openTime)
  }

  ghost function FlushedPairs(cfg: ReplayConfig, candles: map<string, Bundle>, s: BrokerState, n: nat): BrokerState
    requires n <= |cfg.pairs|
  {
    if n == 0 then s else FlushedPair(cfg, candles, FlushedPairs(cfg, candles, s, n - 1), cfg.pairs[n - 1])
  }

  lemma FlushConserves(cfg: ReplayConfig, candles: map<string, Bundle>, s: BrokerState, symbol: string)
    requires Conserves(s, cfg.initialBalance)
    ensures Conserves(FlushedPair(cfg, candles, s, symbol), cfg.initialBalance)
  {
    if symbol in candles && candles[symbol].m15 != [] {
      var last := candles[symbol].m15[|candles[symbol].m15| - 1];
      CloseAllConserves(cfg.broker, s, symbol, last.close, last.openTime, cfg.initialBalance);
    }
  }

  lemma {:induction false} FlushesConserve(cfg: ReplayConfig, candles: map<string, Bundle>, s: BrokerState, n: nat)
    requires n <= |cfg.pairs| && Conserves(s, cfg.initialBalance)
    ensures Conserves(FlushedPairs(cfg, candles, s, n), cfg.initialBalance)
  {
    if n > 0 {
      hide Conserves, FlushedPair;
      FlushesConserve(cfg, candles, s, n - 1);
      FlushConserves(cfg, candles, FlushedPairs(cfg, candles, s, n - 1), cfg.pairs[n - 1]);
    }
  }

  // ----- The run -----

  /** Positions are only open on pairs that have bars. */
  ghost predicate Homed(s: BrokerState, candles: map<string, Bundle>, pairs: seq<string>) {
    forall symbol :: ListOf(s.positions, symbol) != [] ==>
                       symbol in pairs && symbol in candles && candles[symbol].m15 != []
  }

  /** In market mode no limits are parked, and the ids filled are those handed out. */
  ghost predicate Recorded(cfg: ReplayConfig, s: BrokerState, filled: seq<nat>) {
    cfg.broker.retrace.None? ==> s.limits == map[] && filled == IdsFrom(0, s.nextId)
  }

  lemma OrderKeepsRecord(cfg: ReplayConfig, s: BrokerState, filled: seq<nat>, symbol: string, order: Order,
                         time: int, ids: seq<nat>)
    requires cfg.broker.retrace.Some? ==> cfg.broker.retrace.value.frac != 1.0
    requires Recorded(cfg, s, filled)
    requires cfg.broker.retrace.None? ==> ids == IdsFrom(s.nextId, |order.legs|)
    ensures Recorded(cfg, PlaceOrder(cfg.broker, s, symbol, order, time), filled + ids)
  {
    if cfg.broker.retrace.None? {
      MarketOrder(cfg.broker, s, symbol, order, time);
      IdsFromJoin(0, s.nextId, |order.legs|);
    }
  }

  lemma NothingOpen(m: map<string, seq<OpenPosition>>)
    requires forall symbol :: ListOf(m, symbol) == []
    ensures OpenIds(m) == multiset{}
  {
    IdsOnAgree(m, map[], m.Keys);
    NothingOnEmpty(m.Keys);
  }

  lemma {:induction false} NothingOnEmpty(symbols: set<string>)
    ensures IdsOn(map[], symbols) == multiset{}
  {
    if symbols != {} {
      var first := PickSymbol(map[], symbols);
      NothingOnEmpty(symbols - {first});
    }
  }

  lemma {:induction false} IdsFromLength(first: nat, n: nat)
    ensures |IdsFrom(first, n)| == n
  {
    if n > 0 {
      IdsFromLength(first, n - 1);
    }
  }

  class ReplayRun {
    const cfg: ReplayConfig
    const candles: map<string, Bundle>
    const broker: SimulatedBroker
    const orchestrator: LiveSmcOrchestrator
    /** What the outside supplies at each event. */
    const inputs: nat -> MarketInput
    var cursors: map<string, Cursor>
    var filled: seq<nat>
    var closed: seq<ClosedPosition>
    /** Where the two machines stand, with the orders placed so far. */
    ghost var world: ReplayState

    ghost predicate Valid()
      reads this, broker, orchestrator
    {
      && broker.config == cfg.broker && Placeable(cfg) && ValidBundles(candles)
      && orchestrator.pairConfig == cfg.pairConfig
      && (forall symbol :: orchestrator.riskConfig(symbol) == RiskOf(cfg, symbol))
      && broker.View() == world.broker
      && (forall symbol :: orchestrator.StateOf(symbol) == world.states(symbol))
      && closed == broker.closed
      && Recorded(cfg, broker.View(), filled)
      && Homed(broker.View(), candles, cfg.pairs)
    }

    /** Nothing has happened yet. */
    ghost predicate Unplayed()
      reads this
    {
      world == AtStart(cfg) && cursors == map symbol | symbol in cfg.pairs :: Cursor(0, 0, 0)
    }

    constructor (cfg: ReplayConfig, candles: map<string, Bundle>, inputs: nat -> MarketInput)
      requires ValidBundles(candles) && Placeable(cfg)
      ensures Valid() && Unplayed() && fresh(broker) && fresh(orchestrator)
      ensures this.cfg == cfg && this.candles == candles && this.inputs == inputs
    {
      this.cfg, this.candles, this.inputs := cfg, candles, inputs;
      broker := new SimulatedBroker(cfg.initialBalance, cfg.broker);
      orchestrator := new LiveSmcOrchestrator(cfg.pairConfig, symbol => RiskOf(cfg, symbol));
      cursors := map symbol | symbol in cfg.pairs :: Cursor(0, 0, 0);
      filled, closed := [], [];
      world := AtStart(cfg);
    }

    /** Makes visible what has opened or closed by the event; the cursor then sees exactly that. */
    method AdvanceCursors(event: TimelineEvent) returns (cursor: Cursor)
      requires OnTimeline(cfg, candles, event) && ValidBundles(candles)
      requires CursorsNotAhead(cfg, candles, cursors, event.candle.openTime)
      modifies `cursors
      ensures cursors == old(cursors)[event.symbol := cursor]
      ensures SeesExactly(candles[event.symbol], event.candle.openTime, cursor)
    {
      var bundle, cur, now := candles[event.symbol], cursors[event.symbol], event.candle.openTime;
      var m15 := Advance(bundle.m15, 0, now, cur.m15);
      var h1 := Advance(bundle.h1, MS_PER_HOUR, now + 1, cur.h1);
      var d1 := Advance(bundle.d1, MS_PER_DAY, now + 1, cur.d1);
      cursor := Cursor(m15, h1, d1);
      cursors := cursors[event.symbol := cursor];
    }

    /** The orchestrator hears of every exit of a bar. */
    method TellExits(symbol: string, exits: seq<ClosedPosition>)
      modifies orchestrator
      ensures orchestrator.StateOf(symbol)
           == ToldExits(orchestrator.pairConfig(symbol), old(orchestrator.StateOf(symbol)), exits)
      ensures forall other :: other != symbol ==> orchestrator.StateOf(other) == old(orchestrator.StateOf(other))
    {
      hide RecordExit;
      for k := 0 to |exits|
        invariant orchestrator.StateOf(symbol)
               == ToldExits(orchestrator.pairConfig(symbol), old(orchestrator.StateOf(symbol)), exits[..k])
        invariant forall other :: other != symbol ==> orchestrator.StateOf(other) == old(orchestrator.StateOf(other))
      {
        assert exits[..k + 1][..k] == exits[..k];
        orchestrator.CommitExit(symbol, LiveReason(exits[k].exitReason), DayOf(exits[k].closedAt), Some(exits[k].pnl));
      }
      assert exits[..|exits|] == exits;
    }

    method ProcessExits(event: TimelineEvent)
      requires Valid() && OnTimeline(cfg, candles, event)
      modifies `closed, `world, broker, orchestrator
      ensures Valid() && world == AfterBar(cfg, old(world), event)
    {
      hide RecordExit, ValidBundles, ToldExits, ProcessCandle, RiskOf;
      var symbol, bar := event.symbol, BarOf(cfg, event);
      ghost var before := broker.View();
      var exits := broker.ProcessBar(symbol, bar);
      assert exits == NewlyClosed(before.closed, broker.closed);
      CandleTouches(cfg.broker, before, symbol, bar);
      if cfg.broker.retrace.None? {
        MarketCandle(cfg.broker, before, symbol, bar);
      }
      closed := closed + exits;
      TellExits(symbol, exits);
      world := AfterBar(cfg, world, event);
    }

    /** The order of a signal, and its commit if anything was filled or parked. */
    method PlaceSignalled(symbol: string, signal: Signal, time: int)
      requires Valid() && symbol in cfg.pairs && symbol in candles && candles[symbol].m15 != []
      modifies `filled, `world, broker, orchestrator
      ensures Valid() && world == AfterSignal(cfg, old(world), symbol, signal, time)
    {
      hide RecordEntry, PlaceOrder, ValidBundles, RiskOf;
      ghost var before := broker.View();
      var order := OrderOf(signal, time);
      var ids, parked := broker.PlaceSignal(symbol, order, time);
      IdsFromLength(before.nextId, |order.legs|);
      OrderTouches(cfg.broker, before, symbol, order, time);
      OrderKeepsRecord(cfg, before, filled, symbol, order, time, ids);
      filled := filled + ids;
      if ids != [] || parked {
        orchestrator.CommitEntry(symbol, signal);
      }
      world := AfterSignal(cfg, world, symbol, signal, time);
    }

    /** The orchestrator's answer to the close of one bar, and its order. */
    method EvaluateEvent(event: TimelineEvent, cursor: Cursor, input: MarketInput)
      requires Valid() && OnTimeline(cfg, candles, event)
      requires 0 < cursor.m15 <= |candles[event.symbol].m15| && cursor.h1 <= |candles[event.symbol].h1|
      modifies `filled, `world, broker, orchestrator
      ensures Valid()
      ensures world == Evaluated(cfg, old(world), event.symbol,
                                 CloseOf(candles[event.symbol], cursor, event, input, ContextOf(old(world).broker, event.symbol)))
    {
      hide Evaluate, AfterSignal, ValidBundles, RiskOf, Homed, Recorded;
      var symbol := event.symbol;
      var openCount := broker.TotalOpenCount();
      var close := CloseOf(candles[symbol], cursor, event, input, LiveContext(broker.OpenDirections(symbol), openCount));
      ghost var before := world;
      ghost var state := Evaluate(cfg.pairConfig(symbol), RiskOf(cfg, symbol), world.states(symbol), close).0;
      var signal := orchestrator.EvaluateClose(symbol, close);
      world := world.(states := With(world.states, symbol, state));
      if signal.Some? {
        PlaceSignalled(symbol, signal.value, event.candle.openTime);
      }
    }

    /** The exits of one bar, then, when enough bars are visible, the orchestrator. */
    method HandleEvent(index: nat, event: TimelineEvent, cursor: Cursor)
      requires Valid() && OnTimeline(cfg, candles, event)
      requires SeesExactly(candles[event.symbol], event.candle.openTime, cursor)
      modifies `filled, `closed, `world, broker, orchestrator
      ensures Valid() && world == AfterEvent(cfg, old(world), candles[event.symbol], event, inputs(index))
    {
      hide AfterBar, Evaluated, Homed, Recorded, ValidBundles;
      CutsAreCursor(candles[event.symbol], event.candle.openTime, cursor);
      ProcessExits(event);
      if EnoughBars(cursor) {
        EvaluateEvent(event, cursor, inputs(index));
      }
    }

    /** Closes whatever is still open on a pair at its last bar. */
    method Flush(symbol: string)
      requires Valid()
      modifies `closed, `world, broker
      ensures Valid() && world == old(world).(broker := FlushedPair(cfg, candles, old(world).broker, symbol))
      ensures symbol in cfg.pairs ==> ListOf(broker.positions, symbol) == []
      ensures forall other :: ListOf(old(broker.positions), other) == [] ==> ListOf(broker.positions, other) == []
    {
      if symbol !in candles || candles[symbol].m15 == [] {
        return;
      }
      var last := candles[symbol].m15[|candles[symbol].m15| - 1];
      var flushed := broker.CloseEverything(symbol, last.close, last.openTime);
      closed := closed + flushed;
      world := world.(broker := FlushedPair(cfg, candles, world.broker, symbol));
    }

    method FlushPairs()
      requires Valid()
      modifies `closed, `world, broker
      ensures Valid() && world == old(world).(broker := FlushedPairs(cfg, candles, old(world).broker, |cfg.pairs|))
      ensures forall symbol :: ListOf(broker.positions, symbol) == []
    {
      hide FlushedPair, Recorded, ListOf;
      for i := 0 to |cfg.pairs|
        invariant Valid() && world == old(world).(broker := FlushedPairs(cfg, candles, old(world).broker, i))
        invariant forall k :: 0 <= k < i ==> ListOf(broker.positions, cfg.pairs[k]) == []
      {
        Flush(cfg.pairs[i]);
      }
    }

    /** One event of the timeline. */
    method PlayEvent(index: nat, event: TimelineEvent) returns (cursor: Cursor)
      requires Valid() && OnTimeline(cfg, candles, event)
      requires CursorsNotAhead(cfg, candles, cursors, event.candle.openTime)
      modifies this, broker, orchestrator
      ensures Valid() && cursors == old(cursors)[event.symbol := cursor]
      ensures SeesExactly(candles[event.symbol], event.candle.openTime, cursor)
      ensures world == AfterEvent(cfg, old(world), candles[event.symbol], event, inputs(index))
    {
      hide AfterEvent, Homed, Recorded;
      cursor := AdvanceCursors(event);
      HandleEvent(index, event, cursor);
    }

    /** The event loop: `visible` are the cursors at each event. */
    method PlayTimeline(timeline: seq<TimelineEvent>) returns (visible: seq<Cursor>)
      requires Valid() && Unplayed()
      requires SortedByTime(timeline) && forall k :: 0 <= k < |timeline| ==> OnTimeline(cfg, candles, timeline[k])
      modifies this, broker, orchestrator
      ensures Valid() && SeenAlong(candles, timeline, visible) && |visible| == |timeline|
      ensures world == Played(cfg, candles, inputs, timeline, |timeline|)
    {
      hide AfterEvent, SeesExactly, Homed, Recorded, ValidBundles, CursorsNotAhead, RiskOf;
      if timeline != [] {
        NotAheadAtStart(cfg, candles, timeline[0].candle.openTime);
      }
      visible := [];
      for i := 0 to |timeline|
        invariant Valid() && |visible| == i && SeenAlong(candles, timeline, visible)
        invariant world == Played(cfg, candles, inputs, timeline, i)
        invariant i < |timeline| ==> CursorsNotAhead(cfg, candles, cursors, timeline[i].candle.openTime)
      {
        ghost var before, seen := cursors, visible;
        var cursor := PlayEvent(i, timeline[i]);
        visible := visible + [cursor];
        SeenOneMore(candles, timeline, seen, cursor);
        if i + 1 < |timeline| {
          NotAheadLater(cfg, candles, before, timeline[i], cursor, timeline[i + 1].candle.openTime);
        }
      }
    }

    /**
     The whole replay: the two machines play the timeline in step and then the book is flushed.
     In market mode the ids filled are handed out one after the other, and every one of them is
     closed exactly once at the end.
     */
    method Replay() returns (visible: seq<Cursor>)
      requires Valid() && Unplayed()
      modifies this, broker, orchestrator
      ensures Valid() && SeenAlong(candles, Timeline(cfg, candles), visible) && |visible| == |Timeline(cfg, candles)|
      ensures var timeline := Timeline(cfg, candles);
              && (forall k :: 0 <= k < |timeline| ==> timeline[k].symbol in candles)
              && var played := Played(cfg, candles, inputs, timeline, |timeline|);
                 && InStep(cfg, played)
                 && world == played.(broker := FlushedPairs(cfg, candles, played.broker, |cfg.pairs|))
      ensures closed == broker.closed && OpenIds(broker.positions) == multiset{}
      ensures broker.balance == cfg.initialBalance + PnlSum(closed)
      ensures broker.maxConcurrent == MaxCount(broker.counts)
      ensures ClosedIds(closed) == Upto(broker.nextId)
      ensures cfg.broker.retrace.None? ==> filled == IdsFrom(0, broker.nextId)
    {
      hide Played, FlushedPairs, OncePerSweep, BrakesAgree, MarketBook, Timeline;
      var timeline := Timeline(cfg, candles);
      TimelineOnBars(cfg, candles);
      TimelineSorted(cfg, candles);
      visible := PlayTimeline(timeline);
      ReplayStaysInStep(cfg, candles, inputs, timeline, |timeline|);
      FlushesConserve(cfg, candles, world.broker, |cfg.pairs|);
      FlushPairs();
      NothingOpen(broker.positions);
    }
  }

  lemma TimelineSorted(cfg: ReplayConfig, candles: map<string, Bundle>)
    ensures SortedByTime(Timeline(cfg, candles))
  {
    TimelineIsSorted(Collected(cfg.pairs, candles, cfg.startMs, cfg.endMs));
  }

  lemma CutsAreCursor(bundle: Bundle, time: int, cursor: Cursor)
    requires SeesExactly(bundle, time, cursor)
    ensures cursor == CursorAt(bundle, time)
  {
    CutIsCount(bundle.m15, time, cursor.m15);
    CutIsCount(bundle.h1, time + 1 - MS_PER_HOUR, cursor.h1);
    CutIsCount(bundle.d1, time + 1 - MS_PER_DAY, cursor.d1);
  }
}
