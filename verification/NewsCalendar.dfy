/** The news blackout: a binary search over event times, and the rule for the first Friday. */
module NewsCalendar {
  import opened Market
  import opened Calendar

  function Distance(a: int, b: int): nat {
    if a < b then b - a else a - b
  }

  ghost predicate Sorted(times: seq<int>) {
    forall i, j :: 0 <= i <= j < |times| ==> times[i] <= times[j]
  }

  /** True exactly when some event lies within the window, whichever event the search meets first. */
  method IsInBlackout(times: seq<int>, t: int, windowMinutes: int) returns (hit: bool)
    requires Sorted(times)
    ensures hit <==> exists i :: 0 <= i < |times| && Distance(times[i], t) <= windowMinutes * MS_PER_MINUTE
  {
    var window := windowMinutes * MS_PER_MINUTE;
    var lo, hi := 0, |times| - 1;
    while lo <= hi
      invariant 0 <= lo && -1 <= hi < |times| && lo <= hi + 1
      invariant forall i :: 0 <= i < |times| && !(lo <= i <= hi) ==> Distance(times[i], t) > window
    {
      var mid := (lo + hi) / 2;
      var et := times[mid];
      if Distance(et, t) <= window {
        return true;
      }
      if et < t {
        assert forall i :: 0 <= i <= mid ==> times[i] <= et;
        lo := mid + 1;
      } else {
        assert forall i :: mid <= i < |times| ==> times[i] >= et;
        hi := mid - 1;
      }
    }
    return false;
  }

  /** The first Friday at or after the first day of a month, within its first seven days. */
  function FirstFridayOfMonth(firstDay: int): (day: int)
    ensures DayOfWeek(day) == 5 && firstDay <= day < firstDay + 7
    ensures forall d :: firstDay <= d < day ==> DayOfWeek(d) != 5
  {
    firstDay + (5 - DayOfWeek(firstDay) + 7) % 7
  }
}
