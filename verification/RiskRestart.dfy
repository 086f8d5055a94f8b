/**
 A snapshot keeps only the tail of the trade log. The trades it drops cannot be observed
 as long as every loss among them is more than seven days older than the last trade.
 */
module RiskRestart {
  import opened Wrappers
  import opened PositionExits
  import opened RiskManagement

  /** The state with more trades at the front of its log. */
  function WithOlder(s: RiskState, older: seq<LoggedTrade>): RiskState {
    s.(tradeLog := older + s.tradeLog)
  }

  /** Every loss in `older` is out of the seven-day window of `date` and of any later day. */
  ghost predicate OutOfWindow(older: seq<LoggedTrade>, date: int) {
    forall t :: t in older && t.isLoss ==> t.date + 7 < date
  }

  lemma {:induction false} RollingLossesSplit(older: seq<LoggedTrade>, log: seq<LoggedTrade>, date: int)
    ensures RollingLosses(older + log, date) == RollingLosses(older, date) + RollingLosses(log, date)
  {
    if older == [] {
      assert older + log == log;
    } else {
      assert (older + log)[1..] == older[1..] + log;
      RollingLossesSplit(older[1..], log, date);
    }
  }

  lemma {:induction false} NoRollingLosses(older: seq<LoggedTrade>, date: int)
    requires OutOfWindow(older, date)
    ensures RollingLosses(older, date) == 0
  {
    if older != [] {
      NoRollingLosses(older[1..], date);
    }
  }

  lemma OlderUncounted(older: seq<LoggedTrade>, log: seq<LoggedTrade>, date: int)
    requires OutOfWindow(older, date)
    ensures RollingLosses(older + log, date) == RollingLosses(log, date)
  {
    RollingLossesSplit(older, log, date);
    NoRollingLosses(older, date);
  }

  lemma LossGatesIgnoreOlder(config: RiskConfig, s: RiskState, older: seq<LoggedTrade>, date: int, openCount: int)
    ensures var r := LossGates(config, s, date, openCount);
            LossGates(config, WithOlder(s, older), date, openCount) == (WithOlder(r.0, older), r.1)
  {
  }

  lemma RollingGatesIgnoreOlder(config: RiskConfig, s: RiskState, older: seq<LoggedTrade>, date: int, openCount: int)
    requires OutOfWindow(older, date)
    ensures var r := RollingGates(config, s, date, openCount);
            RollingGates(config, WithOlder(s, older), date, openCount) == (WithOlder(r.0, older), r.1)
  {
    OlderUncounted(older, s.tradeLog, date);
    LossGatesIgnoreOlder(config, EndLossPause(s), older, date, openCount);
    assert EndLossPause(WithOlder(s, older)) == WithOlder(EndLossPause(s), older);
  }

  /** The gate answers alike, and moves to alike states. */
  lemma CanTradeIgnoresOlder(config: RiskConfig, s: RiskState, older: seq<LoggedTrade>, date: int, openCount: int)
    requires OutOfWindow(older, date)
    ensures var r := CanTrade(config, s, date, openCount);
            CanTrade(config, WithOlder(s, older), date, openCount) == (WithOlder(r.0, older), r.1)
  {
    var reset := ResetWeekly(ResetDaily(s, date), date);
    assert ResetWeekly(ResetDaily(WithOlder(s, older), date), date) == WithOlder(reset, older);
    RollingGatesIgnoreOlder(config, reset.(equityDdPauseUntil := None), older, date, openCount);
  }

  lemma BrakeIgnoresOlder(s: RiskState, older: seq<LoggedTrade>, date: int)
    ensures Brake(WithOlder(s, older), date) == WithOlder(Brake(s, date), older)
  {
  }

  lemma BookIgnoresOlder(s: RiskState, older: seq<LoggedTrade>, pnl: real, date: int, reason: ExitReason)
    ensures Book(WithOlder(s, older), pnl, date, reason) == WithOlder(Book(s, pnl, date, reason), older)
  {
    var t := LoggedTrade(date, pnl, pnl < 0.0 && reason != Breakeven);
    assert older + s.tradeLog + [t] == older + (s.tradeLog + [t]);
  }

  lemma RecordIgnoresOlder(s: RiskState, older: seq<LoggedTrade>, pnl: real, date: int, reason: ExitReason)
    ensures RecordTrade(WithOlder(s, older), pnl, date, reason) == WithOlder(RecordTrade(s, pnl, date, reason), older)
  {
    var reset := ResetWeekly(ResetDaily(s, date), date);
    assert ResetWeekly(ResetDaily(WithOlder(s, older), date), date) == WithOlder(reset, older);
    BookIgnoresOlder(reset, older, pnl, date, reason);
    var booked := Book(reset, pnl, date, reason);
    assert RaisePeaks(WithOlder(booked, older)) == WithOlder(RaisePeaks(booked), older);
    BrakeIgnoresOlder(RaisePeaks(booked), older, date);
  }

  /** What a snapshot drops. */
  function Dropped(s: RiskState): seq<LoggedTrade> {
    s.tradeLog[..|s.tradeLog| - |LastN(s.tradeLog, TRADE_LOG_KEEP)|]
  }

  lemma SnapshotPlusDropped(s: RiskState)
    ensures s == WithOlder(Truncated(s), Dropped(s))
  {
    assert s.tradeLog == Dropped(s) + LastN(s.tradeLog, TRADE_LOG_KEEP);
  }
}
