/** What a snapshot of the risk manager can forget: exactly when one gate call notices, and a run after which it does. */
module RiskForgetting {
  import opened Wrappers
  import opened Numbers
  import opened Calendar
  import opened PositionExits
  import opened RiskManagement
  import opened RiskRestart
  import opened RiskRuns

  /** The pauses that are checked before the rolling-loss gate do not run. */
  predicate ReachesRollingGate(s: RiskState, date: int) {
    && !s.hardKilled && !Before(date, s.pauseUntilDate) && !Before(date, s.equityDdPauseUntil)
    && !Before(date, s.rolling7DayPauseUntil)
  }

  /** The losses in the whole log close the rolling gate, those a snapshot keeps do not. */
  predicate SnapshotForgets(s: RiskState, date: int) {
    RollingLosses(s.tradeLog, date) >= 4 && RollingLosses(LastN(s.tradeLog, TRADE_LOG_KEEP), date) < 4
  }

  lemma PauseIsLater(date: int)
    ensures AddTradingDays(date, ROLLING_PAUSE_DAYS) > date
  {
    PauseIsExact(date, ROLLING_PAUSE_DAYS);
  }

  /** The gates behind the rolling one see only the rest of the state. */
  lemma LossGatesOfSnapshot(config: RiskConfig, s: RiskState, date: int, openCount: int)
    ensures var r := LossGates(config, EndLossPause(s), date, openCount);
            LossGates(config, EndLossPause(Truncated(s)), date, openCount) == (Truncated(r.0), r.1)
    ensures LossGates(config, EndLossPause(s), date, openCount).0.rolling7DayPauseUntil == s.rolling7DayPauseUntil
  {
  }

  /** Pausing now is not the same as carrying an old pause that has ended. */
  lemma PauseDiffers(s: RiskState, date: int)
    requires !Before(date, s.rolling7DayPauseUntil)
    ensures Some(AddTradingDays(date, ROLLING_PAUSE_DAYS)) != s.rolling7DayPauseUntil
  {
    PauseIsLater(date);
  }

  lemma RollingGatesOfSnapshot(config: RiskConfig, s: RiskState, date: int, openCount: int)
    requires !Before(date, s.rolling7DayPauseUntil)
    ensures var r := RollingGates(config, s, date, openCount);
            RollingGates(config, Truncated(s), date, openCount) == (Truncated(r.0), r.1) <==> !SnapshotForgets(s, date)
  {
    SnapshotPlusDropped(s);
    RollingLossesSplit(Dropped(s), Truncated(s).tradeLog, date);
    LossGatesOfSnapshot(config, s, date, openCount);
    PauseDiffers(s, date);
  }

  /**
   One gate call sees through a restart exactly when it gets to the rolling-loss gate and the
   snapshot forgets losses that tip the count.
   */
  lemma RestartVisibleExactlyWhen(config: RiskConfig, s: RiskState, date: int, openCount: int)
    ensures var r := CanTrade(config, s, date, openCount);
            CanTrade(config, Truncated(s), date, openCount) == (Truncated(r.0), r.1)
            <==> !(ReachesRollingGate(s, date) && SnapshotForgets(s, date))
  {
    var reset := ResetWeekly(ResetDaily(s, date), date).(equityDdPauseUntil := None);
    if ReachesRollingGate(s, date) {
      RollingGatesOfSnapshot(config, reset, date, openCount);
    }
    assert ResetWeekly(ResetDaily(Truncated(s), date), date).(equityDdPauseUntil := None) == Truncated(reset);
  }

  // ----- A run after which a restart re-opens the gate -----

  /** Thirty-three trades of one day: three losses, twenty-nine wins, and a fourth loss. */
  function TradeAt(date: int, i: nat): Call {
    if i < 3 || i == 32 then Trade(date, -1.0, StopLoss) else Trade(date, 1.0, TakeProfit)
  }

  function FirstTrades(date: int, n: nat): seq<Call> {
    seq(n, i requires 0 <= i < n => TradeAt(date, i))
  }

  function LogAt(date: int, i: nat): LoggedTrade {
    if i < 3 || i == 32 then LoggedTrade(date, -1.0, true) else LoggedTrade(date, 1.0, false)
  }

  function FirstLogged(date: int, n: nat): seq<LoggedTrade> {
    seq(n, i requires 0 <= i < n => LogAt(date, i))
  }

  function BalanceAt(n: nat): real {
    if n <= 3 then 1000.0 - n as real else if n <= 32 then 994.0 + n as real else 1025.0
  }

  function PeakAt(n: nat): real {
    Max(1000.0, if n == 33 then 1026.0 else BalanceAt(n))
  }

  function LossesAt(n: nat): nat {
    if n <= 3 then n else if n == 33 then 1 else 0
  }

  /** No brake and no pause is set, and the fall from the peak is small. */
  ghost predicate Calm(s: RiskState, date: int, balance: real, peak: real, losses: nat) {
    && s.account.balance == s.account.equity == balance && s.account.dailyPnl == balance - 1000.0
    && s.account.consecutiveLosses == losses && (s.account.lastTradeDate.Some? ==> s.account.lastTradeDate.value == date)
    && s.weeklyPeakEquity == s.overallPeakEquity == peak
    && (s.currentWeekNumber == WeekNumber(date) || balance == peak)
    && s.pauseUntilDate == s.equityDdPauseUntil == s.rolling7DayPauseUntil == s.consecutiveLossPauseUntil == None
    && s.lastDdTierTriggered == 0 && !s.hardKilled && !s.awaitingPostPauseTrade
  }

  lemma SmallFall(peak: real, balance: real)
    requires 990.0 <= balance <= peak <= balance + 4.0
    ensures DdPercent(peak, balance) < 8.0 && !WeeklyDdHit(peak, balance)
  {
    var share := (peak - balance) / peak;
    assert share * peak == peak - balance;
    if share >= 0.08 {
      MulMonotone(peak, 0.08, share);
    }
  }

  lemma CalmTrade(s: RiskState, date: int, balance: real, peak: real, losses: nat, pnl: real, reason: ExitReason)
    requires Calm(s, date, balance, peak, losses)
    requires (pnl == 1.0 && reason == TakeProfit) || (pnl == -1.0 && reason == StopLoss)
    requires 990.0 <= balance + pnl && balance <= peak <= balance + 3.0
    ensures var s' := RecordTrade(s, pnl, date, reason);
            && Calm(s', date, balance + pnl, Max(peak, balance + pnl), if reason == StopLoss then losses + 1 else 0)
            && s'.tradeLog == s.tradeLog + [Logged(date, pnl, reason)]
  {
    SmallFall(Max(peak, balance + pnl), balance + pnl);
  }

  lemma CalmStart(config: RiskConfig, date: int)
    requires config.initialBalance == 1000.0
    ensures Calm(InitialState(config), date, BalanceAt(0), PeakAt(0), LossesAt(0))
  {
  }

  /** The figures after one more trade. */
  lemma NextFigures(date: int, n: nat)
    requires n < 33
    ensures var call, balance := TradeAt(date, n), BalanceAt(n);
            && 990.0 <= balance + call.pnl && balance <= PeakAt(n) <= balance + 3.0
            && BalanceAt(n + 1) == balance + call.pnl && PeakAt(n + 1) == Max(PeakAt(n), balance + call.pnl)
            && LossesAt(n + 1) == (if call.reason == StopLoss then LossesAt(n) + 1 else 0)
            && LogAt(date, n) == Logged(date, call.pnl, call.reason)
            && ((call.pnl == 1.0 && call.reason == TakeProfit) || (call.pnl == -1.0 && call.reason == StopLoss))
  {
  }

  lemma FirstOneMore(date: int, n: nat)
    ensures FirstTrades(date, n + 1) == FirstTrades(date, n) + [TradeAt(date, n)]
    ensures FirstLogged(date, n + 1) == FirstLogged(date, n) + [LogAt(date, n)]
  {
  }

  lemma RunOneMore(config: RiskConfig, calls: seq<Call>, call: Call)
    ensures Run(config, calls + [call]) == Step(config, Run(config, calls), call)
  {
    assert (calls + [call])[..|calls|] == calls;
  }

  /** After n of the trades the manager is calm and has logged just those. */
  lemma {:induction false} CalmRun(config: RiskConfig, date: int, n: nat)
    requires config.initialBalance == 1000.0 && n <= 33
    ensures var s := Run(config, FirstTrades(date, n));
            Calm(s, date, BalanceAt(n), PeakAt(n), LossesAt(n)) && s.tradeLog == FirstLogged(date, n)
  {
    hide RecordTrade, CanTrade, Calm, BalanceAt, PeakAt, LossesAt;
    if n == 0 {
      CalmStart(config, date);
    } else {
      var before := Run(config, FirstTrades(date, n - 1));
      var call := TradeAt(date, n - 1);
      CalmRun(config, date, n - 1);
      NextFigures(date, n - 1);
      FirstOneMore(date, n - 1);
      RunOneMore(config, FirstTrades(date, n - 1), call);
      CalmTrade(before, date, BalanceAt(n - 1), PeakAt(n - 1), LossesAt(n - 1), call.pnl, call.reason);
    }
  }

  lemma {:induction false} LossesLogged(date: int, n: nat)
    requires n <= 33
    ensures RollingLosses(FirstLogged(date, n), date) == if n <= 3 then n else if n == 33 then 4 else 3
  {
    if n > 0 {
      LossesLogged(date, n - 1);
      var last := [LogAt(date, n - 1)];
      FirstOneMore(date, n - 1);
      RollingLossesSplit(FirstLogged(date, n - 1), last, date);
      assert last[1..] == [];
    }
  }

  /** The last thirty of the logged trades hold one loss. */
  lemma LossesKept(date: int)
    ensures RollingLosses(LastN(FirstLogged(date, 33), TRADE_LOG_KEEP), date) == 1
  {
    var log := FirstLogged(date, 33);
    LossesLogged(date, 33);
    LossesLogged(date, 3);
    assert log[..3] == FirstLogged(date, 3);
    assert log == log[..3] + log[3..];
    RollingLossesSplit(log[..3], log[3..], date);
  }

  lemma SmallDayLoss(config: RiskConfig, balance: real)
    requires config.maxDailyLossPercent >= 1.0 && balance >= 990.0 && balance - 1000.0 >= -3.0
    ensures !DailyLossHit(config, balance - 1000.0, balance)
  {
    var share := (balance - 1000.0) / balance;
    assert share * balance == balance - 1000.0;
    if share <= -0.01 {
      MulMonotone(balance, share, -0.01);
    }
  }

  /** In a calm state the gate is open unless the rolling losses close it. */
  lemma CalmGate(config: RiskConfig, s: RiskState, date: int, balance: real, peak: real, losses: nat)
    requires Calm(s, date, balance, peak, losses) && balance >= 997.0
    requires config.maxDailyLossPercent >= 1.0 && config.maxConsecutiveLosses > losses && config.maxOpenPositions > 0
    ensures CanTrade(config, s, date, 0).1 <==> RollingLosses(s.tradeLog, date) < 4
  {
    SmallDayLoss(config, balance);
  }

  /**
   A run after which a restart re-opens the gate: the gate is open before each of the trades,
   closed after the fourth loss, and open again for the restored manager.
   */
  lemma RestartCanForgetLosses(config: RiskConfig, date: int)
    requires config.initialBalance == 1000.0 && config.maxDailyLossPercent >= 1.0
    requires config.maxConsecutiveLosses >= 4 && config.maxOpenPositions > 0
    ensures forall n :: 0 <= n <= 32 ==> CanTrade(config, Run(config, FirstTrades(date, n)), date, 0).1
    ensures var s := Run(config, FirstTrades(date, 33));
            !CanTrade(config, s, date, 0).1 && CanTrade(config, Truncated(s), date, 0).1
  {
    hide RecordTrade, CanTrade;
    forall n | 0 <= n <= 33
      ensures CanTrade(config, Run(config, FirstTrades(date, n)), date, 0).1 <==> n <= 32
    {
      CalmRun(config, date, n);
      LossesLogged(date, n);
      CalmGate(config, Run(config, FirstTrades(date, n)), date, BalanceAt(n), PeakAt(n), LossesAt(n));
    }
    var s := Run(config, FirstTrades(date, 33));
    CalmRun(config, date, 33);
    LossesKept(date);
    CalmGate(config, Truncated(s), date, BalanceAt(33), PeakAt(33), LossesAt(33));
  }
}
