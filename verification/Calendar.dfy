/** The trading calendar: days since 1970-01-01 (UTC), weekdays, week numbers and trading-day pauses. */
module Calendar {
  import opened Market

  /** The UTC day that an instant falls on: the date part of its ISO string. */
  function DayOf(ms: int): int {
    ms / MS_PER_DAY
  }

  /** 0 is Sunday; 1970-01-01 was a Thursday. */
  function DayOfWeek(day: int): int {
    (day + 4) % 7
  }

  predicate IsWeekday(day: int) {
    DayOfWeek(day) != 0 && DayOfWeek(day) != 6
  }

  // ----- Week numbers -----

  predicate IsLeapYear(year: int) {
    year % 4 == 0 && (year % 100 != 0 || year % 400 == 0)
  }

  function DaysInYear(year: int): nat {
    if IsLeapYear(year) then 366 else 365
  }

  /** How many days of its year have passed before a day that is `day` days into `year`. */
  function DayWithinYear(day: int, year: int): nat
    decreases if day < 0 then -day else 0, day
  {
    if day < 0 then DayWithinYear(day + DaysInYear(year - 1), year - 1)
    else if day < DaysInYear(year) then day
    else DayWithinYear(day - DaysInYear(year), year + 1)
  }

  /** The risk manager's week number: sevens of days since January 1st, rounded up. */
  function WeekNumber(day: int): int {
    (DayWithinYear(day, 1970) + 1 + 6) / 7
  }

  // ----- Trading-day pauses -----

  /** Weekend days still to cross before the next weekday. */
  function WeekendAhead(day: int): nat {
    if DayOfWeek(day) == 5 then 2 else if DayOfWeek(day) == 6 then 1 else 0
  }

  /** The day reached by stepping forward until `n` weekdays have been passed. */
  function AddTradingDays(day: int, n: nat): int
    decreases n, WeekendAhead(day)
  {
    if n == 0 then day
    else if IsWeekday(day + 1) then AddTradingDays(day + 1, n - 1)
    else AddTradingDays(day + 1, n)
  }

  method ComputeAddTradingDays(date: int, days: nat) returns (d: int)
    ensures d == AddTradingDays(date, days)
  {
    d := date;
    var added := 0;
    while added < days
      invariant added <= days
      invariant AddTradingDays(date, days) == AddTradingDays(d, days - added)
      decreases days - added, WeekendAhead(d)
    {
      d := d + 1;
      if DayOfWeek(d) != 0 && DayOfWeek(d) != 6 {
        added := added + 1;
      }
    }
  }

  /** The number of weekdays in (start, end]. */
  function WeekdaysBetween(start: int, end: int): nat
    decreases end - start
  {
    if end <= start then 0
    else WeekdaysBetween(start, end - 1) + if IsWeekday(end) then 1 else 0
  }

  lemma {:induction false} WeekdaysFromFirst(start: int, end: int)
    requires start < end
    ensures WeekdaysBetween(start, end) == (if IsWeekday(start + 1) then 1 else 0) + WeekdaysBetween(start + 1, end)
    decreases end - start
  {
    if start + 1 < end {
      WeekdaysFromFirst(start, end - 1);
    }
  }

  /** A pause of n >= 1 trading days ends on the weekday that is the nth after its start. */
  lemma {:induction false} PauseIsExact(day: int, n: nat)
    requires n >= 1
    ensures AddTradingDays(day, n) > day
    ensures IsWeekday(AddTradingDays(day, n))
    ensures WeekdaysBetween(day, AddTradingDays(day, n)) == n
    decreases n, WeekendAhead(day)
  {
    if !IsWeekday(day + 1) {
      PauseIsExact(day + 1, n);
      WeekdaysFromFirst(day, AddTradingDays(day, n));
    } else if n > 1 {
      PauseIsExact(day + 1, n - 1);
      WeekdaysFromFirst(day, AddTradingDays(day, n));
    }
  }

  lemma {:induction false} LongerPauseEndsLater(day: int, n: nat)
    ensures AddTradingDays(day, n) < AddTradingDays(day, n + 1)
    decreases n, WeekendAhead(day)
  {
    if n == 0 {
      PauseIsExact(day, 1);
    } else if IsWeekday(day + 1) {
      LongerPauseEndsLater(day + 1, n - 1);
    } else {
      LongerPauseEndsLater(day + 1, n);
    }
  }

  lemma {:induction false} LaterStartEndsLater(day: int, later: int, n: nat)
    requires day <= later
    ensures AddTradingDays(day, n) <= AddTradingDays(later, n)
    decreases later - day
  {
    if day < later && n > 0 {
      if IsWeekday(day + 1) {
        LongerPauseEndsLater(day + 1, n - 1);
      }
      LaterStartEndsLater(day + 1, later, n);
    }
  }

  /** Starting no earlier, for no fewer trading days, a pause ends no earlier. */
  lemma {:induction false} PauseMonotone(day: int, n: nat, laterDay: int, more: nat)
    requires day <= laterDay && n <= more
    ensures AddTradingDays(day, n) <= AddTradingDays(laterDay, more)
    decreases more - n
  {
    if n < more {
      LongerPauseEndsLater(day, n);
      PauseMonotone(day, n + 1, laterDay, more);
    } else {
      LaterStartEndsLater(day, laterDay, n);
    }
  }

  lemma {:induction false} PauseSplits(day: int, n: nat, m: nat)
    ensures AddTradingDays(day, n + m) == AddTradingDays(AddTradingDays(day, n), m)
    decreases n, WeekendAhead(day)
  {
    if n > 0 {
      if IsWeekday(day + 1) {
        PauseSplits(day + 1, n - 1, m);
      } else {
        PauseSplits(day + 1, n, m);
      }
    }
  }

  /** A pause of n trading days spans at most two weekend days for every five of them begun. */
  lemma {:induction false} PauseSpan(day: int, n: nat)
    requires n >= 1
    ensures AddTradingDays(day, n) <= day + n + 2 * ((n + 4) / 5)
    decreases n
  {
    if n <= 5 {
      ShortPauseSpan(day, n);
    } else {
      ShortPauseSpan(day, 5);
      PauseSpan(AddTradingDays(day, 5), n - 5);
      PauseSplits(day, 5, n - 5);
    }
  }

  lemma {:induction false} OneTradingDay(day: int)
    ensures AddTradingDays(day, 1) == day + 1 + WeekendAhead(day)
    decreases WeekendAhead(day)
  {
    if !IsWeekday(day + 1) {
      OneTradingDay(day + 1);
    }
  }

  /** Up to five trading days cross one weekend at most. */
  lemma {:induction false} ShortPauseSpan(day: int, n: nat)
    requires 1 <= n <= 5
    ensures AddTradingDays(day, n) <= day + n + 2
    ensures DayOfWeek(day) + n <= 5 ==> AddTradingDays(day, n) == day + n
    decreases n
  {
    OneTradingDay(day);
    if n > 1 {
      PauseSplits(day, 1, n - 1);
      ShortPauseSpan(AddTradingDays(day, 1), n - 1);
    }
  }
}
