/**
 The timeline of a replay: the M15 bars of all pairs in one order, and the cursors that say
 which candles are visible at an event.
 */
module ReplayTimeline {
  import opened Market
  import opened SmcOrchestration
  import opened SimulatedBroking

  datatype Bundle = Bundle(m15: seq<Candle>, h1: seq<Candle>, d1: seq<Candle>)

  datatype TimelineEvent = TimelineEvent(symbol: string, candle: Candle)

  datatype Cursor = Cursor(m15: nat, h1: nat, d1: nat)

  datatype ReplayConfig = ReplayConfig(
    initialBalance: real,
    riskPercent: real,
    maxOpenPositions: int,
    pairs: seq<string>,
    startMs: int,
    endMs: int,
    broker: BrokerConfig,
    pairConfig: string -> PairConfig,
    spreadAt: (string, int) -> real)

  // ----- The timeline -----

  predicate InWindow(candle: Candle, startMs: int, endMs: int) {
    startMs <= candle.openTime <= endMs
  }

  /** The events of one pair: its bars inside the window, in order. */
  function EventsOf(symbol: string, bars: seq<Candle>, startMs: int, endMs: int): seq<TimelineEvent> {
    if bars == [] then []
    else
      var last := bars[|bars| - 1];
      EventsOf(symbol, bars[..|bars| - 1], startMs, endMs)
      + if InWindow(last, startMs, endMs) then [TimelineEvent(symbol, last)] else []
  }

  function Collected(pairs: seq<string>, candles: map<string, Bundle>, startMs: int, endMs: int): seq<TimelineEvent> {
    if pairs == [] then []
    else
      var symbol := pairs[|pairs| - 1];
      Collected(pairs[..|pairs| - 1], candles, startMs, endMs)
      + if symbol in candles then EventsOf(symbol, candles[symbol].m15, startMs, endMs) else []
  }

  /** Puts an event behind every event that is not later. */
  function Placed(sorted: seq<TimelineEvent>, event: TimelineEvent): seq<TimelineEvent> {
    if sorted == [] || sorted[|sorted| - 1].candle.openTime <= event.candle.openTime then sorted + [event]
    else Placed(sorted[..|sorted| - 1], event) + [sorted[|sorted| - 1]]
  }

  /** A stable sort by time. */
  function StableSort(events: seq<TimelineEvent>): seq<TimelineEvent> {
    if events == [] then [] else Placed(StableSort(events[..|events| - 1]), events[|events| - 1])
  }

  function Timeline(cfg: ReplayConfig, candles: map<string, Bundle>): seq<TimelineEvent> {
    StableSort(Collected(cfg.pairs, candles, cfg.startMs, cfg.endMs))
  }

  ghost predicate SortedByTime(events: seq<TimelineEvent>) {
    forall i, j :: 0 <= i < j < |events| ==> events[i].candle.openTime <= events[j].candle.openTime
  }

  /** The events at one time. */
  function At(events: seq<TimelineEvent>, time: int): seq<TimelineEvent> {
    if events == [] then []
    else
      var last := events[|events| - 1];
      At(events[..|events| - 1], time) + if last.candle.openTime == time then [last] else []
  }

  lemma {:induction false} PlacedSame(sorted: seq<TimelineEvent>, event: TimelineEvent)
    ensures multiset(Placed(sorted, event)) == multiset(sorted) + multiset{event}
  {
    if sorted != [] && sorted[|sorted| - 1].candle.openTime > event.candle.openTime {
      var init, last := sorted[..|sorted| - 1], sorted[|sorted| - 1];
      PlacedSame(init, event);
      assert sorted == init + [last];
    }
  }

  lemma {:induction false} PlacedSorted(sorted: seq<TimelineEvent>, event: TimelineEvent, latest: int)
    requires SortedByTime(sorted) && event.candle.openTime <= latest
    requires forall e :: e in sorted ==> e.candle.openTime <= latest
    ensures SortedByTime(Placed(sorted, event))
    ensures forall e :: e in Placed(sorted, event) ==> e.candle.openTime <= latest
  {
    if sorted != [] && sorted[|sorted| - 1].candle.openTime > event.candle.openTime {
      var init, last := sorted[..|sorted| - 1], sorted[|sorted| - 1];
      PlacedSorted(init, event, last.candle.openTime);
    }
  }

  lemma PlacedMeaning(sorted: seq<TimelineEvent>, event: TimelineEvent)
    requires SortedByTime(sorted)
    ensures SortedByTime(Placed(sorted, event))
    ensures multiset(Placed(sorted, event)) == multiset(sorted) + multiset{event}
  {
    PlacedSame(sorted, event);
    var last := if sorted == [] then event.candle.openTime else sorted[|sorted| - 1].candle.openTime;
    PlacedSorted(sorted, event, if last > event.candle.openTime then last else event.candle.openTime);
  }

  lemma {:induction false} PlacedIsStable(sorted: seq<TimelineEvent>, event: TimelineEvent, time: int)
    requires SortedByTime(sorted)
    ensures At(Placed(sorted, event), time) == At(sorted, time) + if event.candle.openTime == time then [event] else []
  {
    if sorted == [] || sorted[|sorted| - 1].candle.openTime <= event.candle.openTime {
      assert (sorted + [event])[..|sorted|] == sorted;
    } else {
      var init, last := sorted[..|sorted| - 1], sorted[|sorted| - 1];
      PlacedIsStable(init, event, time);
      var placed := Placed(init, event);
      assert (placed + [last])[..|placed|] == placed;
    }
  }

  /** The timeline is the collected events, sorted by time. */
  lemma {:induction false} TimelineIsSorted(events: seq<TimelineEvent>)
    ensures SortedByTime(StableSort(events))
    ensures multiset(StableSort(events)) == multiset(events)
  {
    if events != [] {
      var init, last := events[..|events| - 1], events[|events| - 1];
      TimelineIsSorted(init);
      PlacedMeaning(StableSort(init), last);
      assert events == init + [last];
    }
  }

  /** Events of one time keep their order. */
  lemma {:induction false} TimelineIsStable(events: seq<TimelineEvent>, time: int)
    ensures At(StableSort(events), time) == At(events, time)
  {
    if events != [] {
      var init, last := events[..|events| - 1], events[|events| - 1];
      TimelineIsSorted(init);
      TimelineIsStable(init, time);
      PlacedIsStable(StableSort(init), last, time);
    }
  }

  lemma {:induction false} EventsOfMembers(symbol: string, bars: seq<Candle>, startMs: int, endMs: int)
    ensures forall e :: e in EventsOf(symbol, bars, startMs, endMs) <==>
                          e.symbol == symbol && e.candle in bars && InWindow(e.candle, startMs, endMs)
  {
    if bars != [] {
      EventsOfMembers(symbol, bars[..|bars| - 1], startMs, endMs);
      assert bars == bars[..|bars| - 1] + [bars[|bars| - 1]];
    }
  }

  /** An event of the timeline is a bar of its pair inside the window, and every such bar is an event. */
  lemma {:induction false} CollectedMembers(pairs: seq<string>, candles: map<string, Bundle>, startMs: int, endMs: int)
    ensures forall e :: e in Collected(pairs, candles, startMs, endMs) <==>
                          && e.symbol in pairs && e.symbol in candles
                          && e.candle in candles[e.symbol].m15 && InWindow(e.candle, startMs, endMs)
  {
    if pairs != [] {
      var symbol := pairs[|pairs| - 1];
      CollectedMembers(pairs[..|pairs| - 1], candles, startMs, endMs);
      assert pairs == pairs[..|pairs| - 1] + [symbol];
      if symbol in candles {
        EventsOfMembers(symbol, candles[symbol].m15, startMs, endMs);
      }
    }
  }

  lemma TimelineMembers(cfg: ReplayConfig, candles: map<string, Bundle>)
    ensures forall e :: e in Timeline(cfg, candles) <==>
                          && e.symbol in cfg.pairs && e.symbol in candles
                          && e.candle in candles[e.symbol].m15 && InWindow(e.candle, cfg.startMs, cfg.endMs)
  {
    var events := Collected(cfg.pairs, candles, cfg.startMs, cfg.endMs);
    CollectedMembers(cfg.pairs, candles, cfg.startMs, cfg.endMs);
    TimelineIsSorted(events);
    assert forall e :: e in StableSort(events) <==> e in multiset(StableSort(events));
    assert forall e :: e in events <==> e in multiset(events);
  }

  // ----- Cursors -----

  /** `n` cuts the bars into those opened at or before `limit` and those opened later. */
  ghost predicate Cuts(bars: seq<Candle>, limit: int, n: nat) {
    && n <= |bars|
    && (forall i :: 0 <= i < n ==> bars[i].openTime <= limit)
    && (forall i :: n <= i < |bars| ==> bars[i].openTime > limit)
  }

  /** No look-ahead: exactly the M15 bars opened, and the H1 and D1 bars closed, by `time` plus one millisecond. */
  ghost predicate SeesExactly(bundle: Bundle, time: int, cursor: Cursor) {
    && Cuts(bundle.m15, time, cursor.m15)
    && Cuts(bundle.h1, time + 1 - MS_PER_HOUR, cursor.h1)
    && Cuts(bundle.d1, time + 1 - MS_PER_DAY, cursor.d1)
  }

  /** How many bars opened at or before `limit`. */
  function CountUpTo(bars: seq<Candle>, limit: int): (n: nat)
    ensures n <= |bars|
  {
    if bars == [] then 0
    else CountUpTo(bars[..|bars| - 1], limit) + if bars[|bars| - 1].openTime <= limit then 1 else 0
  }

  lemma {:induction false} CutIsCount(bars: seq<Candle>, limit: int, n: nat)
    requires Cuts(bars, limit, n)
    ensures n == CountUpTo(bars, limit)
  {
    if bars != [] {
      CutIsCount(bars[..|bars| - 1], limit, if n == |bars| then n - 1 else n);
    }
  }

  /** What is behind a cursor was visible at some earlier time already. */
  ghost predicate NotAhead(bundle: Bundle, time: int, cursor: Cursor) {
    && cursor.m15 <= |bundle.m15| && cursor.h1 <= |bundle.h1| && cursor.d1 <= |bundle.d1|
    && (forall i :: 0 <= i < cursor.m15 ==> bundle.m15[i].openTime <= time)
    && (forall i :: 0 <= i < cursor.h1 ==> bundle.h1[i].openTime <= time + 1 - MS_PER_HOUR)
    && (forall i :: 0 <= i < cursor.d1 ==> bundle.d1[i].openTime <= time + 1 - MS_PER_DAY)
  }

  /** The while loop that moves one cursor up to the limit. */
  method Advance(bars: seq<Candle>, duration: int, now: int, from: nat) returns (n: nat)
    requires StrictlyIncreasing(bars) && from <= |bars|
    requires forall i :: 0 <= i < from ==> bars[i].openTime <= now - duration
    ensures Cuts(bars, now - duration, n)
  {
    n := from;
    while n < |bars| && bars[n].openTime + duration <= now
      invariant from <= n <= |bars|
      invariant forall i :: 0 <= i < n ==> bars[i].openTime <= now - duration
    {
      n := n + 1;
    }
  }

  /** The last M15 bar visible at an event is the event's own. */
  lemma LastVisibleIsTheEvents(bundle: Bundle, candle: Candle, n: nat)
    requires StrictlyIncreasing(bundle.m15) && candle in bundle.m15
    requires Cuts(bundle.m15, candle.openTime, n)
    ensures n > 0 && bundle.m15[n - 1] == candle
  {
    var i :| 0 <= i < |bundle.m15| && bundle.m15[i] == candle;
    assert i < n;
    assert i + 1 < |bundle.m15| ==> bundle.m15[i].openTime < bundle.m15[i + 1].openTime;
  }

  // ----- Along the timeline -----

  ghost predicate ValidBundles(candles: map<string, Bundle>) {
    forall symbol :: symbol in candles ==>
                       && StrictlyIncreasing(candles[symbol].m15) && StrictlyIncreasing(candles[symbol].h1)
                       && StrictlyIncreasing(candles[symbol].d1)
  }

  /** The event is a bar of a pair that has candles. */
  predicate OnTimeline(cfg: ReplayConfig, candles: map<string, Bundle>, event: TimelineEvent) {
    event.symbol in cfg.pairs && event.symbol in candles && event.candle in candles[event.symbol].m15
  }

  ghost predicate CursorsNotAhead(cfg: ReplayConfig, candles: map<string, Bundle>, cursors: map<string, Cursor>,
                                  time: int) {
    forall symbol :: symbol in cfg.pairs ==>
                       && symbol in cursors
                       && (symbol in candles ==> NotAhead(candles[symbol], time, cursors[symbol]))
  }

  lemma NotAheadAtStart(cfg: ReplayConfig, candles: map<string, Bundle>, time: int)
    ensures CursorsNotAhead(cfg, candles, map symbol | symbol in cfg.pairs :: Cursor(0, 0, 0), time)
  {
  }

  lemma NotAheadLater(cfg: ReplayConfig, candles: map<string, Bundle>, cursors: map<string, Cursor>,
                      event: TimelineEvent,
                      cursor: Cursor, later: int)
    requires CursorsNotAhead(cfg, candles, cursors, event.candle.openTime) && event.candle.openTime <= later
    requires event.symbol in candles && SeesExactly(candles[event.symbol], event.candle.openTime, cursor)
    ensures CursorsNotAhead(cfg, candles, cursors[event.symbol := cursor], later)
  {
  }

  /** No look-ahead: at each event so far the cursor saw exactly what had opened or closed. */
  ghost predicate SeenAlong(candles: map<string, Bundle>, timeline: seq<TimelineEvent>, visible: seq<Cursor>) {
    && |visible| <= |timeline|
    && (forall i :: 0 <= i < |visible| ==>
          && timeline[i].symbol in candles
          && SeesExactly(candles[timeline[i].symbol], timeline[i].candle.openTime, visible[i]))
  }

  lemma SeenOneMore(candles: map<string, Bundle>, timeline: seq<TimelineEvent>, visible: seq<Cursor>, cursor: Cursor)
    requires SeenAlong(candles, timeline, visible) && |visible| < |timeline|
    requires timeline[|visible|].symbol in candles
    requires SeesExactly(candles[timeline[|visible|].symbol], timeline[|visible|].candle.openTime, cursor)
    ensures SeenAlong(candles, timeline, visible + [cursor])
  {
  }

  lemma TimelineOnBars(cfg: ReplayConfig, candles: map<string, Bundle>)
    ensures forall k :: 0 <= k < |Timeline(cfg, candles)| ==> OnTimeline(cfg, candles, Timeline(cfg, candles)[k])
  {
    TimelineMembers(cfg, candles);
    forall k | 0 <= k < |Timeline(cfg, candles)|
      ensures OnTimeline(cfg, candles, Timeline(cfg, candles)[k])
    {
      assert Timeline(cfg, candles)[k] in Timeline(cfg, candles);
    }
  }
}
