/**
 The anchor levels: yesterday's, the Asian session's and last week's high and low, all from
 one reverse pass over the H1 bars that stops early.
 */
module AnchorLevels {
  import opened Wrappers
  import opened Market
  import opened Calendar

  datatype Range = Range(high: real, low: real)

  datatype Levels = Levels(previousDay: Option<Range>, asian: Option<Range>, weekly: Option<Range>)

  /** A window of time: `start` included, `end` not. */
  datatype Window = Window(start: int, end: int)

  function PreviousDay(now: int): Window {
    Window((DayOf(now) - 1) * MS_PER_DAY, DayOf(now) * MS_PER_DAY)
  }

  /** From 22:00 of the day before to 06:00. */
  function AsianSession(now: int): Window {
    Window((DayOf(now) - 1) * MS_PER_DAY + 22 * MS_PER_HOUR, DayOf(now) * MS_PER_DAY + 6 * MS_PER_HOUR)
  }

  function ThisMonday(now: int): int {
    DayOf(now) - (DayOfWeek(DayOf(now)) + 6) % 7
  }

  function LastWeek(now: int): Window {
    Window((ThisMonday(now) - 7) * MS_PER_DAY, ThisMonday(now) * MS_PER_DAY)
  }

  /**
   On any day, with `monday` the last Monday up to it: the previous day, the eight hours from
   22:00 of it to 06:00, and the seven days before that Monday.
   */
  lemma WindowsByNumbers(now: int, day: int, rest: int, monday: int)
    requires now == day * MS_PER_DAY + rest && 0 <= rest < MS_PER_DAY
    requires monday <= day < monday + 7 && (monday + 4) % 7 == 1
    ensures PreviousDay(now) == Window((day - 1) * MS_PER_DAY, day * MS_PER_DAY)
    ensures AsianSession(now) == Window(day * MS_PER_DAY - 2 * MS_PER_HOUR, day * MS_PER_DAY + 6 * MS_PER_HOUR)
    ensures LastWeek(now) == Window((monday - 7) * MS_PER_DAY, monday * MS_PER_DAY)
  {
    assert DayOf(now) == day;
  }

  /** The bar counts for the window, as seen at `now`. */
  predicate Counts(bar: Candle, now: int, window: Window) {
    bar.openTime < now && window.start <= bar.openTime < window.end
  }

  function Widened(range: Option<Range>, bar: Candle): Option<Range> {
    match range
    case None => Some(Range(bar.high, bar.low))
    case Some(r) => Some(Range(if bar.high > r.high then bar.high else r.high, if bar.low < r.low then bar.low else r.low))
  }

  /** The range of all bars that count, with no early exit. */
  function RangeOf(bars: seq<Candle>, now: int, window: Window): Option<Range> {
    if bars == [] then None
    else
      var rest := RangeOf(bars[1..], now, window);
      if Counts(bars[0], now, window) then Widened(rest, bars[0]) else rest
  }

  /** It is none exactly when no bar counts; otherwise its high and low are attained and bound every bar that counts. */
  ghost predicate IsExactRange(range: Option<Range>, bars: seq<Candle>, now: int, window: Window) {
    && (range.None? <==> forall i :: 0 <= i < |bars| ==> !Counts(bars[i], now, window))
    && (range.Some? ==>
          && (forall i :: 0 <= i < |bars| && Counts(bars[i], now, window) ==>
                bars[i].high <= range.value.high && bars[i].low >= range.value.low)
          && (exists i :: 0 <= i < |bars| && Counts(bars[i], now, window) && bars[i].high == range.value.high)
          && (exists i :: 0 <= i < |bars| && Counts(bars[i], now, window) && bars[i].low == range.value.low))
  }

  lemma {:induction false} RangeIsExact(bars: seq<Candle>, now: int, window: Window)
    ensures IsExactRange(RangeOf(bars, now, window), bars, now, window)
  {
    if bars != [] {
      var rest, tail := RangeOf(bars[1..], now, window), bars[1..];
      RangeIsExact(tail, now, window);
      assert forall i :: 0 <= i < |tail| ==> tail[i] == bars[i + 1];
      if rest.Some? {
        var h :| 0 <= h < |tail| && Counts(tail[h], now, window) && tail[h].high == rest.value.high;
        var l :| 0 <= l < |tail| && Counts(tail[l], now, window) && tail[l].low == rest.value.low;
        assert bars[h + 1] == tail[h] && bars[l + 1] == tail[l];
      }
      if rest.None? {
        assert forall i :: 1 <= i < |bars| ==> !Counts(bars[i], now, window) by {
          forall i | 1 <= i < |bars|
            ensures !Counts(bars[i], now, window)
          {
            assert bars[i] == tail[i - 1];
          }
        }
      }
      forall i | 1 <= i < |bars| && Counts(bars[i], now, window)
        ensures rest.Some? && bars[i].high <= rest.value.high && bars[i].low >= rest.value.low
      {
        assert bars[i] == tail[i - 1];
      }
    }
  }

  /** Bars that do not count, at the front, change nothing. */
  lemma {:induction false} FrontIgnored(bars: seq<Candle>, k: nat, now: int, window: Window)
    requires k <= |bars| && forall i :: 0 <= i < k ==> !Counts(bars[i], now, window)
    ensures RangeOf(bars, now, window) == RangeOf(bars[k..], now, window)
  {
    if k > 0 {
      assert bars[1..][k - 1..] == bars[k..];
      FrontIgnored(bars[1..], k - 1, now, window);
    }
  }

  /** The early exit: two days before last week every window is behind. */
  predicate Stale(bar: Candle, now: int) {
    bar.openTime < LastWeek(now).start - 2 * MS_PER_DAY
  }

  lemma StaleBarsCountNowhere(bars: seq<Candle>, k: nat, now: int)
    requires StrictlyIncreasing(bars) && k < |bars| && Stale(bars[k], now)
    ensures forall i :: 0 <= i <= k ==> !Counts(bars[i], now, PreviousDay(now))
    ensures forall i :: 0 <= i <= k ==> !Counts(bars[i], now, AsianSession(now))
    ensures forall i :: 0 <= i <= k ==> !Counts(bars[i], now, LastWeek(now))
  {
    assert forall i :: 0 <= i <= k ==> bars[i].openTime <= bars[k].openTime;
  }

  /** The pass so far: the ranges of the bars from `from` on. */
  function LevelsFrom(bars: seq<Candle>, from: nat, now: int): Levels
    requires from <= |bars|
  {
    Levels(RangeOf(bars[from..], now, PreviousDay(now)), RangeOf(bars[from..], now, AsianSession(now)),
           RangeOf(bars[from..], now, LastWeek(now)))
  }

  /** What one bar adds to the levels. */
  method AddBar(levels: Levels, bar: Candle, now: int) returns (next: Levels)
    requires bar.openTime < now
    ensures next == Levels(
                 if Counts(bar, now, PreviousDay(now)) then Widened(levels.previousDay, bar) else levels.previousDay,
                 if Counts(bar, now, AsianSession(now)) then Widened(levels.asian, bar) else levels.asian,
                 if Counts(bar, now, LastWeek(now)) then Widened(levels.weekly, bar) else levels.weekly)
  {
    next := levels;
    if DayOf(bar.openTime) == DayOf(now) - 1 {
      next := next.(previousDay := Widened(next.previousDay, bar));
    }
    if AsianSession(now).start <= bar.openTime < AsianSession(now).end {
      next := next.(asian := Widened(next.asian, bar));
    }
    if LastWeek(now).start <= bar.openTime < LastWeek(now).end {
      next := next.(weekly := Widened(next.weekly, bar));
    }
  }

  /** One reverse pass over the bars, skipping what is not in the past, with the early exit. */
  method GetAnchorLevels(bars: seq<Candle>, now: int) returns (levels: Levels)
    requires StrictlyIncreasing(bars)
    ensures levels == LevelsFrom(bars, 0, now)
    ensures IsExactRange(levels.previousDay, bars, now, PreviousDay(now))
    ensures IsExactRange(levels.asian, bars, now, AsianSession(now))
    ensures IsExactRange(levels.weekly, bars, now, LastWeek(now))
  {
    levels := Levels(None, None, None);
    var i := |bars|;
    while i > 0
      invariant 0 <= i <= |bars| && levels == LevelsFrom(bars, i, now)
    {
      i := i - 1;
      assert bars[i..][1..] == bars[i + 1..];
      if bars[i].openTime >= now {
        continue;
      }
      levels := AddBar(levels, bars[i], now);
      if Stale(bars[i], now) {
        StaleBarsCountNowhere(bars, i, now);
        break;
      }
    }
    FrontIgnored(bars, i, now, PreviousDay(now));
    FrontIgnored(bars, i, now, AsianSession(now));
    FrontIgnored(bars, i, now, LastWeek(now));
    assert bars[0..] == bars;
    RangeIsExact(bars, now, PreviousDay(now));
    RangeIsExact(bars, now, AsianSession(now));
    RangeIsExact(bars, now, LastWeek(now));
  }
}
