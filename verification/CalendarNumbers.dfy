/** Trading-day pauses and week numbers told in numbers, from the day alone. */
module CalendarNumbers {
  import opened Calendar

  // ----- Trading days -----

  /** Days 0 and 6 of the week are Sunday and Saturday, 1 January 1970 having been a Thursday. */
  ghost predicate IsTradingDay(day: int) {
    (day + 4) % 7 != 0 && (day + 4) % 7 != 6
  }

  ghost function TradingDays(start: int, end: int): set<int> {
    set d | start < d <= end && IsTradingDay(d)
  }

  lemma {:induction false} WeekdaysAreCounted(start: int, end: int)
    ensures WeekdaysBetween(start, end) == |TradingDays(start, end)|
    decreases end - start
  {
    if end <= start {
      assert TradingDays(start, end) == {};
    } else {
      WeekdaysAreCounted(start, end - 1);
      assert TradingDays(start, end) == TradingDays(start, end - 1) + if IsTradingDay(end) then {end} else {};
    }
  }

  /** A pause of n trading days ends on the trading day that is the nth after its start. */
  lemma PauseByNumbers(day: int, n: nat)
    requires n >= 1
    ensures var end := AddTradingDays(day, n);
            end > day && IsTradingDay(end) && |TradingDays(day, end)| == n
  {
    PauseIsExact(day, n);
    WeekdaysAreCounted(day, AddTradingDays(day, n));
  }

  // ----- Week numbers -----

  function YearLength(year: int): nat {
    if year % 4 == 0 && (year % 100 != 0 || year % 400 == 0) then 366 else 365
  }

  /** The day that 1 January of a year from 1970 on is. */
  function NewYear(year: int): int
    requires year >= 1970
  {
    if year == 1970 then 0 else NewYear(year - 1) + YearLength(year - 1)
  }

  lemma {:induction false} FromNewYear(day: int, from: int, year: int)
    requires 1970 <= from <= year && NewYear(year) <= day
    ensures DayWithinYear(day - NewYear(from), from) == DayWithinYear(day - NewYear(year), year)
    decreases year - from
  {
    if from < year {
      YearsGrow(from + 1, year);
      FromNewYear(day, from + 1, year);
    }
  }

  lemma {:induction false} YearsGrow(a: int, b: int)
    requires 1970 <= a <= b
    ensures NewYear(a) <= NewYear(b)
    decreases b - a
  {
    if a < b {
      YearsGrow(a, b - 1);
    }
  }

  /** The first seven days of a year are week 1, the next seven week 2, and so on, in any year from 1970 on. */
  lemma WeekByNumbers(day: int, year: int, k: nat)
    requires year >= 1970 && day == NewYear(year) + k && k < YearLength(year)
    ensures WeekNumber(day) == k / 7 + 1
  {
    FromNewYear(day, 1970, year);
  }
}
