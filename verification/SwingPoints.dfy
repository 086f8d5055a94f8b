/**
 Swing highs and lows: a batch scan over a stretch of candles, and a tracker that looks at
 one candle per bar and keeps the latest twenty of each kind.
 */
module SwingPoints {
  import opened Wrappers
  import opened Market

  const KEPT := 20

  datatype SwingKind = High | Low

  datatype SwingPoint = SwingPoint(index: nat, price: real, kind: SwingKind)

  /** The high at `i` is above its two neighbours at distance `j`. */
  predicate HighBeats(candles: seq<Candle>, i: nat, j: nat)
    requires j <= i && i + j < |candles|
  {
    candles[i - j].high < candles[i].high && candles[i + j].high < candles[i].high
  }

  predicate LowBeats(candles: seq<Candle>, i: nat, j: nat)
    requires j <= i && i + j < |candles|
  {
    candles[i - j].low > candles[i].low && candles[i + j].low > candles[i].low
  }

  /** Strictly above its `lookback` neighbours on either side. */
  ghost predicate IsSwingHigh(candles: seq<Candle>, i: nat, lookback: nat)
    requires lookback <= i && i + lookback < |candles|
  {
    forall j :: 1 <= j <= lookback ==> HighBeats(candles, i, j)
  }

  ghost predicate IsSwingLow(candles: seq<Candle>, i: nat, lookback: nat)
    requires lookback <= i && i + lookback < |candles|
  {
    forall j :: 1 <= j <= lookback ==> LowBeats(candles, i, j)
  }

  /** The swing of the given kind at `i`: none without `lookback` neighbours on both sides. */
  ghost function SwingAt(candles: seq<Candle>, i: int, lookback: nat, kind: SwingKind): seq<SwingPoint> {
    if i < lookback || i + lookback >= |candles| then []
    else
      match kind
      case High => if IsSwingHigh(candles, i, lookback) then [SwingPoint(i, candles[i].high, High)] else []
      case Low => if IsSwingLow(candles, i, lookback) then [SwingPoint(i, candles[i].low, Low)] else []
  }

  /** What `at` finds at the indices from `lo` up to, not including, `hi`, in order. */
  ghost function Gather(at: int -> seq<SwingPoint>, lo: int, hi: int): seq<SwingPoint>
    decreases hi - lo
  {
    if hi <= lo then [] else Gather(at, lo, hi - 1) + at(hi - 1)
  }

  /** The swings of one kind, index by index. */
  ghost function Finder(candles: seq<Candle>, lookback: nat, kind: SwingKind): int -> seq<SwingPoint> {
    i => SwingAt(candles, i, lookback, kind)
  }

  /** The swings of both kinds: at the same index a high comes before a low. */
  ghost function BothFinder(candles: seq<Candle>, lookback: nat): int -> seq<SwingPoint> {
    i => SwingAt(candles, i, lookback, High) + SwingAt(candles, i, lookback, Low)
  }

  /** The inner loop of the batch scan for highs: stops at the first neighbour that is not lower. */
  method TestHigh(candles: seq<Candle>, i: nat, lookback: nat) returns (ok: bool)
    requires lookback <= i && i + lookback < |candles|
    ensures ok <==> IsSwingHigh(candles, i, lookback)
  {
    for j := 1 to lookback + 1
      invariant forall k :: 1 <= k < j ==> HighBeats(candles, i, k)
    {
      if candles[i - j].high >= candles[i].high || candles[i + j].high >= candles[i].high {
        assert !HighBeats(candles, i, j);
        return false;
      }
    }
    ok := true;
  }

  method TestLow(candles: seq<Candle>, i: nat, lookback: nat) returns (ok: bool)
    requires lookback <= i && i + lookback < |candles|
    ensures ok <==> IsSwingLow(candles, i, lookback)
  {
    for j := 1 to lookback + 1
      invariant forall k :: 1 <= k < j ==> LowBeats(candles, i, k)
    {
      if candles[i - j].low <= candles[i].low || candles[i + j].low <= candles[i].low {
        assert !LowBeats(candles, i, j);
        return false;
      }
    }
    ok := true;
  }

  /** Both tests at one index. */
  method SwingsAt(candles: seq<Candle>, i: nat, lookback: nat) returns (found: seq<SwingPoint>)
    requires lookback <= i && i + lookback < |candles|
    ensures found == BothFinder(candles, lookback)(i)
  {
    found := [];
    var isHigh := TestHigh(candles, i, lookback);
    if isHigh {
      found := found + [SwingPoint(i, candles[i].high, High)];
    }
    var isLow := TestLow(candles, i, lookback);
    if isLow {
      found := found + [SwingPoint(i, candles[i].low, Low)];
    }
  }

  /** The batch scan of the candles from `startIdx` to `endIdx`. */
  method DetectSwingPoints(candles: seq<Candle>, startIdx: nat, endIdx: int,
                           lookback: nat) returns (points: seq<SwingPoint>)
    requires endIdx < |candles|
    ensures points == Gather(BothFinder(candles, lookback), if startIdx > lookback then startIdx else lookback,
                             endIdx - lookback + 1)
  {
    points := [];
    ghost var both := BothFinder(candles, lookback);
    var lo := if startIdx > lookback then startIdx else lookback;
    var i := lo;
    while i <= endIdx - lookback
      invariant lo <= i && (i <= endIdx - lookback + 1 || i == lo)
      invariant points == Gather(both, lo, i)
    {
      var found := SwingsAt(candles, i, lookback);
      points := points + found;
      i := i + 1;
    }
  }

  // ----- The tracker -----

  class SwingPointTracker {
    var recentHighs: seq<SwingPoint>
    var recentLows: seq<SwingPoint>

    constructor ()
      ensures recentHighs == [] && recentLows == []
    {
      recentHighs, recentLows := [], [];
    }

    /** Looks at the candle `lookback` bars back, in one pass for both kinds, and pushes what it finds. */
    method Update(candles: seq<Candle>, idx: nat, lookback: nat)
      requires |recentHighs| <= KEPT && |recentLows| <= KEPT
      modifies this
      ensures recentHighs == LastN(old(recentHighs) + SwingAt(candles, idx - lookback, lookback, High), KEPT)
      ensures |recentHighs| <= KEPT && |recentLows| <= KEPT
      ensures recentLows == LastN(old(recentLows) + SwingAt(candles, idx - lookback, lookback, Low), KEPT)
    {
      var candidateIdx := idx - lookback;
      if candidateIdx < lookback || candidateIdx >= |candles| {
        return;
      }
      var isHigh, isLow := TestCandidate(candles, candidateIdx, lookback);
      if isHigh {
        recentHighs := recentHighs + [SwingPoint(candidateIdx, candles[candidateIdx].high, High)];
        if |recentHighs| > KEPT {
          recentHighs := recentHighs[1..];
        }
      }
      if isLow {
        recentLows := recentLows + [SwingPoint(candidateIdx, candles[candidateIdx].low, Low)];
        if |recentLows| > KEPT {
          recentLows := recentLows[1..];
        }
      }
    }

    /** The one pass; a neighbour outside the candles rules both kinds out. */
    method TestCandidate(candles: seq<Candle>, i: nat, lookback: nat) returns (isHigh: bool, isLow: bool)
      requires lookback <= i < |candles|
      ensures isHigh <==> i + lookback < |candles| && IsSwingHigh(candles, i, lookback)
      ensures isLow <==> i + lookback < |candles| && IsSwingLow(candles, i, lookback)
    {
      isHigh, isLow := true, true;
      for j := 1 to lookback + 1
        invariant i + j - 1 < |candles|
        invariant isHigh <==> forall k :: 1 <= k < j ==> HighBeats(candles, i, k)
        invariant isLow <==> forall k :: 1 <= k < j ==> LowBeats(candles, i, k)
      {
        if i + j >= |candles| {
          return false, false;
        }
        if candles[i - j].high >= candles[i].high || candles[i + j].high >= candles[i].high {
          assert !HighBeats(candles, i, j);
          isHigh := false;
        }
        if candles[i - j].low <= candles[i].low || candles[i + j].low <= candles[i].low {
          assert !LowBeats(candles, i, j);
          isLow := false;
        }
      }
    }
  }

  // ----- Online equals batch -----

  /** The candidate of bar 0. */
  function FirstCandidate(lookback: nat): int {
    0 - lookback as int
  }

  /** What a tracker that keeps the last twenty holds after the candidates from `lo` up to, not including, `hi`. */
  ghost function Tracked(at: int -> seq<SwingPoint>, lo: int, hi: int): seq<SwingPoint>
    decreases hi - lo
  {
    if hi <= lo then [] else LastN(Tracked(at, lo, hi - 1) + at(hi - 1), KEPT)
  }

  function OfKind(points: seq<SwingPoint>, kind: SwingKind): seq<SwingPoint> {
    if points == [] then []
    else OfKind(points[..|points| - 1], kind) + if points[|points| - 1].kind == kind then [points[|points| - 1]] else []
  }

  /** What the batch scan of the first `n` candles returns. */
  ghost function Batch(candles: seq<Candle>, n: nat, lookback: nat): seq<SwingPoint> {
    Gather(BothFinder(candles, lookback), lookback, n - lookback)
  }

  lemma {:induction false} OfKindJoin(a: seq<SwingPoint>, b: seq<SwingPoint>, kind: SwingKind)
    ensures OfKind(a + b, kind) == OfKind(a, kind) + OfKind(b, kind)
  {
    if b == [] {
      assert a + b == a;
    } else {
      assert (a + b)[..|a + b| - 1] == a + b[..|b| - 1];
      OfKindJoin(a, b[..|b| - 1], kind);
    }
  }

  lemma OfOne(points: seq<SwingPoint>, of: SwingKind, kind: SwingKind)
    requires |points| <= 1 && forall i :: 0 <= i < |points| ==> points[i].kind == of
    ensures OfKind(points, kind) == if of == kind then points else []
  {
    if |points| == 1 {
      assert points[..0] == [];
      assert points == [points[0]];
    }
  }

  lemma OfPair(high: seq<SwingPoint>, low: seq<SwingPoint>, kind: SwingKind)
    requires |high| <= 1 && forall i :: 0 <= i < |high| ==> high[i].kind == High
    requires |low| <= 1 && forall i :: 0 <= i < |low| ==> low[i].kind == Low
    ensures OfKind(high + low, kind) == match kind case High => high case Low => low
  {
    OfKindJoin(high, low, kind);
    OfOne(high, High, kind);
    OfOne(low, Low, kind);
  }

  /** Selecting one kind from a gathering is gathering that kind. */
  lemma {:induction false} GatherOfKind(both: int -> seq<SwingPoint>, at: int -> seq<SwingPoint>, lo: int, hi: int,
                                        kind: SwingKind)
    requires forall i :: OfKind(both(i), kind) == at(i)
    ensures OfKind(Gather(both, lo, hi), kind) == Gather(at, lo, hi)
    decreases hi - lo
  {
    if lo < hi {
      GatherOfKind(both, at, lo, hi - 1, kind);
      OfKindJoin(Gather(both, lo, hi - 1), both(hi - 1), kind);
    }
  }

  lemma LastOfLast<T>(xs: seq<T>, more: seq<T>, n: nat)
    ensures LastN(LastN(xs, n) + more, n) == LastN(xs + more, n)
  {
    var kept := LastN(xs, n) + more;
    var a, b := LastN(kept, n), LastN(xs + more, n);
    forall i | 0 <= i < |a|
      ensures a[i] == b[i]
    {
    }
  }

  /** Keeping only the tail at every step loses nothing of the final tail. */
  lemma {:induction false} TrackedIsTail(at: int -> seq<SwingPoint>, lo: int, hi: int)
    ensures Tracked(at, lo, hi) == LastN(Gather(at, lo, hi), KEPT)
    decreases hi - lo
  {
    if lo < hi {
      TrackedIsTail(at, lo, hi - 1);
      LastOfLast(Gather(at, lo, hi - 1), at(hi - 1), KEPT);
    }
  }

  lemma {:induction false} SkipsEmpty(at: int -> seq<SwingPoint>, lo: int, start: int, hi: int)
    requires lo <= start && forall i :: i < start ==> at(i) == []
    ensures Gather(at, lo, hi) == Gather(at, start, hi)
    decreases hi - lo
  {
    if lo < hi {
      SkipsEmpty(at, lo, start, hi - 1);
    }
  }

  lemma NoneBefore(candles: seq<Candle>, lookback: nat, kind: SwingKind)
    ensures forall i :: i < lookback ==> Finder(candles, lookback, kind)(i) == []
  {
  }

  lemma BothOfKind(candles: seq<Candle>, lookback: nat, kind: SwingKind, i: int)
    ensures OfKind(BothFinder(candles, lookback)(i), kind) == Finder(candles, lookback, kind)(i)
  {
    OfPair(SwingAt(candles, i, lookback, High), SwingAt(candles, i, lookback, Low), kind);
  }

  lemma BothOfKindAlways(candles: seq<Candle>, lookback: nat, kind: SwingKind)
    ensures forall i :: OfKind(BothFinder(candles, lookback)(i), kind) == Finder(candles, lookback, kind)(i)
  {
    forall i
      ensures OfKind(BothFinder(candles, lookback)(i), kind) == Finder(candles, lookback, kind)(i)
    {
      BothOfKind(candles, lookback, kind, i);
    }
  }

  lemma BatchGathers(candles: seq<Candle>, n: nat, lookback: nat)
    ensures Batch(candles, n, lookback) == Gather(BothFinder(candles, lookback), lookback, n - lookback)
  {
  }

  /**
   After the bars 0 up to, not including, `n`, whose candidates lie `lookback` bars back, the
   tracker holds the last twenty points of its kind that the batch scan of the same bars finds.
   */
  lemma OnlineEqualsBatch(candles: seq<Candle>, n: nat, lookback: nat, kind: SwingKind)
    ensures Tracked(Finder(candles, lookback, kind), FirstCandidate(lookback), n - lookback)
         == LastN(OfKind(Batch(candles, n, lookback), kind), KEPT)
  {
    hide *;
    var both, at := BothFinder(candles, lookback), Finder(candles, lookback, kind);
    var first := FirstCandidate(lookback);
    assert first <= lookback by {
      FirstIsEarly(lookback);
    }
    NoneBefore(candles, lookback, kind);
    TrackedIsTail(at, first, n - lookback);
    SkipsEmpty(at, first, lookback, n - lookback);
    BothOfKindAlways(candles, lookback, kind);
    GatherOfKind(both, at, lookback, n - lookback, kind);
    BatchGathers(candles, n, lookback);
  }

  lemma FirstIsEarly(lookback: nat)
    ensures FirstCandidate(lookback) <= lookback
  {
  }

  lemma TrackedNext(candles: seq<Candle>, idx: nat, lookback: nat, kind: SwingKind, before: seq<SwingPoint>,
                    after: seq<SwingPoint>)
    requires before == Tracked(Finder(candles, lookback, kind), FirstCandidate(lookback), idx - lookback)
    requires after == LastN(before + SwingAt(candles, idx - lookback, lookback, kind), KEPT)
    ensures after == Tracked(Finder(candles, lookback, kind), FirstCandidate(lookback), idx + 1 - lookback)
  {
  }

  /** Feeds a fresh tracker the first `n` bars in turn. */
  method Feed(candles: seq<Candle>, n: nat, lookback: nat) returns (tracker: SwingPointTracker)
    ensures fresh(tracker)
    ensures tracker.recentHighs == Tracked(Finder(candles, lookback, High), FirstCandidate(lookback), n - lookback)
    ensures tracker.recentLows == Tracked(Finder(candles, lookback, Low), FirstCandidate(lookback), n - lookback)
  {
    tracker := new SwingPointTracker();
    for idx := 0 to n
      invariant fresh(tracker)
      invariant tracker.recentHighs == Tracked(Finder(candles, lookback, High), FirstCandidate(lookback), idx - lookback)
      invariant tracker.recentLows == Tracked(Finder(candles, lookback, Low), FirstCandidate(lookback), idx - lookback)
      invariant |tracker.recentHighs| <= KEPT && |tracker.recentLows| <= KEPT
    {
      ghost var highs, lows := tracker.recentHighs, tracker.recentLows;
      tracker.Update(candles, idx, lookback);
      TrackedNext(candles, idx, lookback, High, highs, tracker.recentHighs);
      TrackedNext(candles, idx, lookback, Low, lows, tracker.recentLows);
    }
  }

  /** The tracker, fed bar by bar, against the batch scan. */
  method TrackAll(candles: seq<Candle>, n: nat, lookback: nat) returns (tracker: SwingPointTracker)
    ensures fresh(tracker)
    ensures tracker.recentHighs == LastN(OfKind(Batch(candles, n, lookback), High), KEPT)
    ensures tracker.recentLows == LastN(OfKind(Batch(candles, n, lookback), Low), KEPT)
  {
    tracker := Feed(candles, n, lookback);
    OnlineEqualsBatch(candles, n, lookback, High);
    OnlineEqualsBatch(candles, n, lookback, Low);
  }
}
