/** The binary search for the last bar at or before a time, against a linear scan. */
module BarSearch {
  import opened Market

  /** The index of the last bar opened at or before `target`, -1 when there is none: a scan from the end. */
  function LastAtOrBefore(bars: seq<Candle>, target: int): int {
    if bars == [] then -1
    else if bars[|bars| - 1].openTime <= target then |bars| - 1
    else LastAtOrBefore(bars[..|bars| - 1], target)
  }

  /** On sorted bars the scan's answer splits them by the target. */
  lemma {:induction false} ScanSplits(bars: seq<Candle>, target: int, idx: int)
    requires StrictlyIncreasing(bars) && -1 <= idx < |bars|
    requires idx >= 0 ==> bars[idx].openTime <= target
    requires idx + 1 < |bars| ==> bars[idx + 1].openTime > target
    ensures LastAtOrBefore(bars, target) == idx
  {
    if idx + 1 < |bars| {
      var init := bars[..|bars| - 1];
      assert StrictlyIncreasing(init);
      assert bars[idx + 1].openTime <= bars[|bars| - 1].openTime;
      ScanSplits(init, target, idx);
    }
  }

  method FindLastAtOrBefore(bars: seq<Candle>, target: int) returns (idx: int)
    requires StrictlyIncreasing(bars)
    ensures idx == LastAtOrBefore(bars, target)
    ensures -1 <= idx < |bars|
    ensures forall i :: 0 <= i < |bars| ==> (bars[i].openTime <= target <==> i <= idx)
  {
    var lo, hi := 0, |bars| - 1;
    idx := -1;
    while lo <= hi
      invariant 0 <= lo && -1 <= hi < |bars| && lo <= hi + 1 && idx == lo - 1
      invariant forall i :: 0 <= i < lo ==> bars[i].openTime <= target
      invariant forall i :: hi < i < |bars| ==> bars[i].openTime > target
    {
      var mid := (lo + hi) / 2;
      if bars[mid].openTime <= target {
        idx := mid;
        lo := mid + 1;
      } else {
        hi := mid - 1;
      }
    }
    ScanSplits(bars, target, idx);
  }
}
