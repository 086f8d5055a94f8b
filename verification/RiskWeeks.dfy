/**
 The weekly peak of the risk manager over whole runs: what it is the peak of, when it starts
 anew, and a year end it does not notice.
 */
module RiskWeeks {
  import opened Wrappers
  import opened Numbers
  import opened Calendar
  import opened PositionExits
  import opened RiskManagement
  import opened RiskRuns

  /** The balance after the first `j` calls. */
  function BalanceAt(config: RiskConfig, calls: seq<Call>, j: nat): real
    requires j <= |calls|
  {
    Balance(config.initialBalance, Trades(calls[..j]))
  }

  /** Call `k` opens the stretch of equal week numbers at the end of the calls. */
  ghost predicate OpensLastStretch(calls: seq<Call>, k: nat) {
    && k < |calls|
    && (k > 0 ==> WeekNumber(calls[k - 1].date) != WeekNumber(calls[k].date))
    && (forall j :: k <= j < |calls| ==> WeekNumber(calls[j].date) == WeekNumber(calls[k].date))
  }

  /** The highest balance from just before call `k` on. */
  ghost predicate IsHighFrom(config: RiskConfig, calls: seq<Call>, k: nat, high: real) {
    && (forall j :: k <= j <= |calls| ==> BalanceAt(config, calls, j) <= high)
    && (exists j :: k <= j <= |calls| && BalanceAt(config, calls, j) == high)
  }

  lemma WeekAfterStep(config: RiskConfig, s: RiskState, call: Call)
    requires !s.hardKilled && s.account.balance == s.account.equity <= s.weeklyPeakEquity
    ensures var s' := Step(config, s, call);
            && s'.currentWeekNumber == WeekNumber(call.date)
            && s'.weeklyPeakEquity
               == Max(if WeekNumber(call.date) != s.currentWeekNumber then s.account.equity else s.weeklyPeakEquity,
                      s'.account.equity)
  {
    match call {
      case Ask(date, openCount) => AskFrame(config, s, date, openCount);
      case Trade(date, pnl, reason) => TradeFrame(s, date, pnl, reason);
    }
  }

  /** The facts of the run before the last call, when the whole run is not killed. */
  lemma BeforeLast(config: RiskConfig, calls: seq<Call>)
    requires config.initialBalance > 0.0 && DatesOrdered(calls) && calls != []
    requires !Run(config, calls).hardKilled
    ensures var s := Run(config, calls[..|calls| - 1]);
            !s.hardKilled && s.account.balance == s.account.equity == BalanceAt(config, calls, |calls| - 1)
            && s.account.equity <= s.weeklyPeakEquity
    ensures Run(config, calls).account.equity == BalanceAt(config, calls, |calls|)
    ensures DatesOrdered(calls[..|calls| - 1])
  {
    hide Step;
    var init := calls[..|calls| - 1];
    RunKeepsFacts(config, init, 0);
    RunKeepsFacts(config, calls, 0);
    assert calls[..|calls|] == calls;
    if Run(config, init).hardKilled {
      StepKeepsKilled(config, Run(config, init), calls[|calls| - 1]);
    }
  }

  /** While not killed, the stored week number is that of the last call. */
  lemma WeekOfRun(config: RiskConfig, calls: seq<Call>)
    requires config.initialBalance > 0.0 && DatesOrdered(calls) && calls != []
    requires !Run(config, calls).hardKilled
    ensures Run(config, calls).currentWeekNumber == WeekNumber(calls[|calls| - 1].date)
  {
    BeforeLast(config, calls);
    WeekAfterStep(config, Run(config, calls[..|calls| - 1]), calls[|calls| - 1]);
  }

  /**
   While not killed, the weekly peak is the highest balance since just before the first of the
   last calls whose week numbers are equal: of the week, if the calls never skip a whole year.
   */
  lemma {:induction false} WeeklyPeakIsStretchHigh(config: RiskConfig, calls: seq<Call>, k: nat)
    requires config.initialBalance > 0.0 && DatesOrdered(calls)
    requires OpensLastStretch(calls, k) && !Run(config, calls).hardKilled
    ensures IsHighFrom(config, calls, k, Run(config, calls).weeklyPeakEquity)
  {
    hide Step, WeekNumber, Trades, Balance;
    var n := |calls|;
    var init, last := calls[..n - 1], calls[n - 1];
    var s := Run(config, init);
    BeforeLast(config, calls);
    WeekAfterStep(config, s, last);
    if k == n - 1 {
      if n > 1 {
        WeekOfRun(config, init);
      }
      assert BalanceAt(config, calls, n - 1) == s.account.equity;
    } else {
      WeekOfRun(config, init);
      WeeklyPeakIsStretchHigh(config, init, k);
      assert forall j :: 0 <= j <= n - 1 ==> init[..j] == calls[..j];
      assert forall j :: 0 <= j <= n - 1 ==> BalanceAt(config, init, j) == BalanceAt(config, calls, j);
      var j :| k <= j <= n - 1 && BalanceAt(config, init, j) == s.weeklyPeakEquity;
      assert BalanceAt(config, calls, j) == s.weeklyPeakEquity;
    }
  }

  /** The next gate call measures the week from the equity of the day exactly when the week number changes, or the two are equal anyway. */
  lemma WeekRestartsExactlyWhen(config: RiskConfig, calls: seq<Call>, date: int, openCount: int)
    requires config.initialBalance > 0.0 && DatesOrdered(calls) && calls != []
    requires !Run(config, calls).hardKilled
    ensures var s := Run(config, calls);
            CanTrade(config, s, date, openCount).0.weeklyPeakEquity == s.account.equity <==>
            WeekNumber(date) != WeekNumber(calls[|calls| - 1].date) || s.weeklyPeakEquity == s.account.equity
  {
    hide CanTrade;
    WeekOfRun(config, calls);
    AskFrame(config, Run(config, calls), date, openCount);
  }

  // ----- A year end that the week number does not notice -----

  lemma TwoFirstWeeks()
    ensures WeekNumber(0) == 1 && WeekNumber(365) == 1
  {
    assert DayWithinYear(365, 1970) == DayWithinYear(0, 1971);
  }

  /** One trade in a week that `s` is already measuring, with a fall that trips no kill switch. */
  lemma TradeInWeek(s: RiskState, date: int, pnl: real, reason: ExitReason, dd: real)
    requires !s.hardKilled && s.account.balance == s.account.equity
    requires s.overallPeakEquity > 0.0 && s.account.balance + pnl <= s.overallPeakEquity
    requires (s.overallPeakEquity - (s.account.balance + pnl)) * 100.0 == dd * s.overallPeakEquity && dd < 40.0
    requires s.currentWeekNumber == WeekNumber(date) && s.weeklyPeakEquity == s.overallPeakEquity
    ensures var s' := RecordTrade(s, pnl, date, reason);
            && !s'.hardKilled && s'.account.balance == s'.account.equity == s.account.balance + pnl
            && s'.overallPeakEquity == s'.weeklyPeakEquity == s.overallPeakEquity
            && s'.currentWeekNumber == WeekNumber(date)
            && (dd >= 8.0 ==> s'.pauseUntilDate == Some(AddTradingDays(date, WEEKLY_DD_PAUSE_DAYS)))
  {
    TradeFrame(s, date, pnl, reason);
    DdOf(s.overallPeakEquity, s.account.balance + pnl, dd);
  }

  lemma FirstGain(config: RiskConfig)
    requires config.initialBalance == 100.0
    ensures var s := RecordTrade(InitialState(config), 100.0, 0, TakeProfit);
            && !s.hardKilled && s.account.balance == s.account.equity == 200.0
            && s.overallPeakEquity == s.weeklyPeakEquity == 200.0 && s.currentWeekNumber == 1
  {
    TwoFirstWeeks();
    TradeFrame(InitialState(config), 0, 100.0, TakeProfit);
    DdOf(200.0, 200.0, 0.0);
  }

  /**
   A gain and a loss on 1 January 1970, a loss on 1 January 1971: the second year's first week is
   measured from the first year's peak, and pauses the pair for a fall of 10% of it, while the
   week's own fall stays below the threshold.
   */
  lemma YearEndKeepsThePeak(config: RiskConfig)
    requires config.initialBalance == 100.0
    ensures var before := Run(config, [Trade(0, 100.0, TakeProfit), Trade(0, -10.0, StopLoss)]);
            var after := RecordTrade(before, -10.0, 365, StopLoss);
            && before.account.equity == 190.0 && after.account.equity == 180.0 && after.weeklyPeakEquity == 200.0
            && after.pauseUntilDate == Some(AddTradingDays(365, WEEKLY_DD_PAUSE_DAYS))
            && !WeeklyDdHit(before.account.equity, after.account.equity)
  {
    hide RecordTrade, WeekNumber;
    var gain, loss := Trade(0, 100.0, TakeProfit), Trade(0, -10.0, StopLoss);
    var s := RecordTrade(InitialState(config), 100.0, 0, TakeProfit);
    assert [gain][..0] == [] && Run(config, [gain]) == s;
    assert [gain, loss][..1] == [gain] && Run(config, [gain, loss]) == RecordTrade(s, -10.0, 0, StopLoss);
    TwoFirstWeeks();
    FirstGain(config);
    TradeInWeek(s, 0, -10.0, StopLoss, 5.0);
    TradeInWeek(RecordTrade(s, -10.0, 0, StopLoss), 365, -10.0, StopLoss, 10.0);
  }
}
