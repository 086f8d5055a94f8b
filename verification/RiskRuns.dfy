/** What holds of the risk manager after any run of calls with non-decreasing dates. */
module RiskRuns {
  import opened Wrappers
  import opened Numbers
  import opened Calendar
  import opened PositionExits
  import opened RiskManagement

  datatype Call =
    | Ask(date: int, openCount: int)
    | Trade(date: int, pnl: real, reason: ExitReason)

  function Step(config: RiskConfig, s: RiskState, call: Call): RiskState {
    match call
    case Ask(date, openCount) => CanTrade(config, s, date, openCount).0
    case Trade(date, pnl, reason) => RecordTrade(s, pnl, date, reason)
  }

  function Run(config: RiskConfig, calls: seq<Call>): RiskState {
    if calls == [] then InitialState(config)
    else Step(config, Run(config, calls[..|calls| - 1]), calls[|calls| - 1])
  }

  ghost predicate DatesOrdered(calls: seq<Call>) {
    forall i, j :: 0 <= i < j < |calls| ==> calls[i].date <= calls[j].date
  }

  // ----- The history a run leaves, and what it amounts to -----

  function Logged(date: int, pnl: real, reason: ExitReason): LoggedTrade {
    LoggedTrade(date, pnl, pnl < 0.0 && reason != Breakeven)
  }

  /** The trades of a run, as the manager should have logged them. */
  function Trades(calls: seq<Call>): seq<LoggedTrade> {
    if calls == [] then []
    else
      var last := calls[|calls| - 1];
      Trades(calls[..|calls| - 1]) +
      match last
      case Ask(_, _) => []
      case Trade(date, pnl, reason) => [Logged(date, pnl, reason)]
  }

  function Balance(initial: real, log: seq<LoggedTrade>): real {
    if log == [] then initial else Balance(initial, log[..|log| - 1]) + log[|log| - 1].pnl
  }

  /** The highest balance ever held. */
  function Peak(initial: real, log: seq<LoggedTrade>): real {
    if log == [] then initial else Max(Peak(initial, log[..|log| - 1]), Balance(initial, log))
  }

  /** The lowest balance since that peak was set. */
  function LowSincePeak(initial: real, log: seq<LoggedTrade>): real {
    if log == [] then initial
    else if Balance(initial, log) > Peak(initial, log[..|log| - 1]) then Balance(initial, log)
    else Min(LowSincePeak(initial, log[..|log| - 1]), Balance(initial, log))
  }

  function PnlOn(log: seq<LoggedTrade>, date: int): real {
    if log == [] then 0.0
    else PnlOn(log[..|log| - 1], date) + if log[|log| - 1].date == date then log[|log| - 1].pnl else 0.0
  }

  /** After some trade the balance stood 40% or more below the peak of its time. */
  ghost predicate EverRuined(initial: real, log: seq<LoggedTrade>) {
    exists k :: 0 < k <= |log| && DdPercent(Peak(initial, log[..k]), Balance(initial, log[..k])) >= HARD_KILL_DD_PERCENT
  }

  ghost predicate DatedUpTo(log: seq<LoggedTrade>, date: int) {
    forall t :: t in log ==> t.date <= date
  }

  /** Money and peaks: the account is the sum of its trades, and the peaks bracket it. */
  ghost predicate MoneyFacts(config: RiskConfig, s: RiskState) {
    && s.account.balance == s.account.equity == Balance(config.initialBalance, s.tradeLog)
    && s.overallPeakEquity == Peak(config.initialBalance, s.tradeLog)
    && s.account.equity <= s.weeklyPeakEquity <= s.overallPeakEquity
  }

  /** The day's result and the date of the last trade. */
  ghost predicate DayFacts(s: RiskState, date: int) {
    && (s.tradeLog == [] ==> s.account.lastTradeDate == None && s.account.dailyPnl == 0.0)
    && (s.tradeLog != [] ==>
          && s.account.lastTradeDate == Some(s.tradeLog[|s.tradeLog| - 1].date)
          && DatedUpTo(s.tradeLog, s.tradeLog[|s.tradeLog| - 1].date)
          && s.tradeLog[|s.tradeLog| - 1].date <= date)
    && (!s.hardKilled ==> s.account.dailyPnl == PnlOn(s.tradeLog, date))
  }

  /** The kill switch, the drawdown tier and the pauses. */
  ghost predicate BrakeFacts(config: RiskConfig, s: RiskState, date: int) {
    && (s.hardKilled <==> EverRuined(config.initialBalance, s.tradeLog))
    && s.lastDdTierTriggered
       == TierLevel(DdPercent(Peak(config.initialBalance, s.tradeLog), LowSincePeak(config.initialBalance, s.tradeLog)))
    && (s.pauseUntilDate.Some? ==> s.pauseUntilDate.value <= AddTradingDays(date, WEEKLY_DD_PAUSE_DAYS))
    && (s.lastDdTierTriggered > 0 && s.equityDdPauseUntil.Some? ==>
          s.equityDdPauseUntil.value <= AddTradingDays(date, TierPauseDays(s.lastDdTierTriggered)))
  }

  ghost predicate RunFacts(config: RiskConfig, s: RiskState, date: int) {
    MoneyFacts(config, s) && DayFacts(s, date) && BrakeFacts(config, s, date)
  }

  // ----- What a call may change -----

  /** The gates after the weekly and drawdown pauses change nothing but their own pauses. */
  ghost predicate OnlyLossPauses(s: RiskState, s': RiskState) {
    && s'.account == s.account && s'.tradeLog == s.tradeLog && s'.hardKilled == s.hardKilled
    && s'.weeklyPeakEquity == s.weeklyPeakEquity && s'.overallPeakEquity == s.overallPeakEquity
    && s'.lastDdTierTriggered == s.lastDdTierTriggered && s'.currentWeekNumber == s.currentWeekNumber
    && s'.pauseUntilDate == s.pauseUntilDate && s'.equityDdPauseUntil == s.equityDdPauseUntil
  }

  lemma LossGatesFrame(config: RiskConfig, s: RiskState, date: int, openCount: int)
    ensures OnlyLossPauses(s, LossGates(config, s, date, openCount).0)
  {
  }

  lemma RollingGatesFrame(config: RiskConfig, s: RiskState, date: int, openCount: int)
    ensures OnlyLossPauses(s, RollingGates(config, s, date, openCount).0)
  {
    LossGatesFrame(config, EndLossPause(s), date, openCount);
  }

  /** Asking never books money: it resets the day and the week, and lifts a served drawdown pause. */
  ghost predicate AskEffect(s: RiskState, s': RiskState, date: int) {
    && s'.account == (if s.hardKilled then s.account else ResetDaily(s, date).account)
    && s'.tradeLog == s.tradeLog && s'.hardKilled == s.hardKilled
    && (if s.hardKilled then s'.weeklyPeakEquity == s.weeklyPeakEquity && s'.currentWeekNumber == s.currentWeekNumber
        else s'.weeklyPeakEquity == ResetWeekly(s, date).weeklyPeakEquity && s'.currentWeekNumber == WeekNumber(date))
    && s'.overallPeakEquity == s.overallPeakEquity
    && s'.lastDdTierTriggered == s.lastDdTierTriggered
    && s'.pauseUntilDate == s.pauseUntilDate
    && (s'.equityDdPauseUntil == s.equityDdPauseUntil || s'.equityDdPauseUntil == None)
  }

  lemma AskFrame(config: RiskConfig, s: RiskState, date: int, openCount: int)
    ensures AskEffect(s, CanTrade(config, s, date, openCount).0, date)
  {
    var reset := ResetWeekly(ResetDaily(s, date), date);
    RollingGatesFrame(config, reset.(equityDdPauseUntil := None), date, openCount);
  }

  /** The gate only answers yes below the position limit, and never moves the balance. */
  lemma GateFacts(config: RiskConfig, risk: RiskState, date: int, openCount: int)
    ensures CanTrade(config, risk, date, openCount).1 ==> openCount < config.maxOpenPositions
    ensures CanTrade(config, risk, date, openCount).0.account.balance == risk.account.balance
  {
    AskFrame(config, risk, date, openCount);
  }

  /** The state with the trade booked and the peaks raised, before the brakes. */
  function Booked(s: RiskState, date: int, pnl: real, reason: ExitReason): RiskState {
    RaisePeaks(Book(ResetWeekly(ResetDaily(s, date), date), pnl, date, reason))
  }

  ghost predicate BookEffect(s: RiskState, s': RiskState, date: int, pnl: real, reason: ExitReason) {
    && s'.tradeLog == s.tradeLog + [Logged(date, pnl, reason)] && s'.hardKilled == s.hardKilled
    && s'.account.balance == s.account.balance + pnl && s'.account.equity == s.account.balance + pnl
    && s'.account.dailyPnl == ResetDaily(s, date).account.dailyPnl + pnl
    && s'.weeklyPeakEquity == Max(ResetWeekly(s, date).weeklyPeakEquity, s'.account.equity)
    && s'.currentWeekNumber == WeekNumber(date)
    && s'.overallPeakEquity == Max(s.overallPeakEquity, s'.account.equity)
    && s'.lastDdTierTriggered == (if s'.account.equity > s.overallPeakEquity then 0 else s.lastDdTierTriggered)
    && s'.pauseUntilDate == s.pauseUntilDate && s'.equityDdPauseUntil == s.equityDdPauseUntil
  }

  lemma BookFrame(s: RiskState, date: int, pnl: real, reason: ExitReason)
    ensures BookEffect(s, Booked(s, date, pnl, reason), date, pnl, reason)
  {
  }

  /** The brakes keep the money and set the kill switch, the tier and the pauses from the drawdown `dd`. */
  ghost predicate BrakeEffect(s: RiskState, s': RiskState, dd: real, date: int) {
    && s'.tradeLog == s.tradeLog && s'.account == s.account
    && s'.weeklyPeakEquity == s.weeklyPeakEquity && s'.overallPeakEquity == s.overallPeakEquity
    && s'.currentWeekNumber == s.currentWeekNumber
    && s'.hardKilled == (s.hardKilled || dd >= HARD_KILL_DD_PERCENT)
    && s'.lastDdTierTriggered == (if TierLevel(dd) > s.lastDdTierTriggered then TierLevel(dd) else s.lastDdTierTriggered)
    && s'.equityDdPauseUntil == (if TierLevel(dd) > s.lastDdTierTriggered
                                 then Some(AddTradingDays(date, TierPauseDays(TierLevel(dd)))) else s.equityDdPauseUntil)
    && (s'.pauseUntilDate == s.pauseUntilDate || s'.pauseUntilDate == Some(AddTradingDays(date, WEEKLY_DD_PAUSE_DAYS)))
  }

  lemma TiersFrame(s: RiskState, dd: real, date: int)
    ensures BrakeEffect(s, ApplyTiers(s, dd, date), dd, date)
    ensures ApplyTiers(s, dd, date).pauseUntilDate == s.pauseUntilDate
  {
  }

  lemma BrakeFrame(s: RiskState, date: int)
    ensures BrakeEffect(s, Brake(s, date), DdPercent(s.overallPeakEquity, s.account.equity), date)
  {
    TiersFrame(s, DdPercent(s.overallPeakEquity, s.account.equity), date);
  }

  /** A trade books its money, raises the peaks and sets the brakes, in that order. */
  ghost predicate TradeEffect(s: RiskState, m: RiskState, s': RiskState, dd: real, date: int, pnl: real,
                              reason: ExitReason) {
    && BookEffect(s, m, date, pnl, reason)
    && BrakeEffect(m, s'.(account := m.account), dd, date)
    && s'.account == m.account.(lastTradeDate := Some(date))
  }

  lemma TradeFrame(s: RiskState, date: int, pnl: real, reason: ExitReason)
    ensures var m := Booked(s, date, pnl, reason);
            TradeEffect(s, m, RecordTrade(s, pnl, date, reason), DdPercent(m.overallPeakEquity, m.account.equity),
                        date, pnl, reason)
  {
    BookFrame(s, date, pnl, reason);
    BrakeFrame(Booked(s, date, pnl, reason), date);
  }

  // ----- Each call keeps the facts -----

  lemma {:induction false} NothingOnLaterDay(log: seq<LoggedTrade>, date: int)
    requires forall t :: t in log ==> t.date < date
    ensures PnlOn(log, date) == 0.0
  {
    if log != [] {
      NothingOnLaterDay(log[..|log| - 1], date);
    }
  }

  /** After the daily reset the running result is the logged result of `date`. */
  lemma DayAfterReset(s: RiskState, before: int, date: int)
    requires DayFacts(s, before) && before <= date && !s.hardKilled
    ensures ResetDaily(s, date).account.dailyPnl == PnlOn(s.tradeLog, date)
  {
    if s.tradeLog != [] && s.account.lastTradeDate != Some(date) {
      NothingOnLaterDay(s.tradeLog, date);
    }
  }

  lemma AskKeepsFacts(config: RiskConfig, s: RiskState, s': RiskState, before: int, date: int)
    requires RunFacts(config, s, before) && before <= date
    requires AskEffect(s, s', date)
    ensures RunFacts(config, s', date)
  {
    if !s.hardKilled {
      DayAfterReset(s, before, date);
    }
    PauseMonotone(before, WEEKLY_DD_PAUSE_DAYS, date, WEEKLY_DD_PAUSE_DAYS);
    PauseMonotone(before, TierPauseDays(s.lastDdTierTriggered), date, TierPauseDays(s.lastDdTierTriggered));
  }

  /** What the history says after one more trade. */
  lemma OneMoreTrade(initial: real, log: seq<LoggedTrade>, t: LoggedTrade, date: int)
    ensures var log' := log + [t];
            && Balance(initial, log') == Balance(initial, log) + t.pnl
            && Peak(initial, log') == Max(Peak(initial, log), Balance(initial, log'))
            && PnlOn(log', date) == PnlOn(log, date) + (if t.date == date then t.pnl else 0.0)
            && LowSincePeak(initial, log')
               == if Balance(initial, log') > Peak(initial, log) then Balance(initial, log')
                  else Min(LowSincePeak(initial, log), Balance(initial, log'))
  {
    assert (log + [t])[..|log|] == log;
  }

  predicate RuinedAt(initial: real, log: seq<LoggedTrade>) {
    DdPercent(Peak(initial, log), Balance(initial, log)) >= HARD_KILL_DD_PERCENT
  }

  lemma RuinAfterTrade(initial: real, log: seq<LoggedTrade>, t: LoggedTrade)
    ensures EverRuined(initial, log + [t]) <==> EverRuined(initial, log) || RuinedAt(initial, log + [t])
  {
    var log' := log + [t];
    assert log'[..|log'|] == log';
    assert forall k :: 0 < k <= |log| ==> log'[..k] == log[..k];
  }

  lemma TradeKeepsMoney(config: RiskConfig, s: RiskState, m: RiskState, s': RiskState, dd: real, date: int, pnl: real,
                        reason: ExitReason)
    requires MoneyFacts(config, s)
    requires TradeEffect(s, m, s', dd, date, pnl, reason)
    ensures MoneyFacts(config, s')
  {
    OneMoreTrade(config.initialBalance, s.tradeLog, Logged(date, pnl, reason), date);
  }

  lemma TradeKeepsDay(s: RiskState, m: RiskState, s': RiskState, dd: real, before: int, date: int, pnl: real,
                      reason: ExitReason)
    requires DayFacts(s, before) && before <= date
    requires TradeEffect(s, m, s', dd, date, pnl, reason)
    ensures DayFacts(s', date)
  {
    OneMoreTrade(0.0, s.tradeLog, Logged(date, pnl, reason), date);
    if !s.hardKilled {
      DayAfterReset(s, before, date);
    }
  }

  lemma DdAntitone(peak: real, low: real, high: real)
    requires low <= high
    ensures DdPercent(peak, high) <= DdPercent(peak, low)
  {
    if peak > 0.0 {
      DivMonotone(peak - high, peak - low, peak);
    }
  }

  /** The tier of the lowest balance is the higher of the tiers reached. */
  lemma TierOfLower(peak: real, low: real, balance: real)
    ensures var before, now := TierLevel(DdPercent(peak, low)), TierLevel(DdPercent(peak, balance));
            TierLevel(DdPercent(peak, Min(low, balance))) == if now > before then now else before
  {
    DdAntitone(peak, Min(low, balance), low);
    DdAntitone(peak, Min(low, balance), balance);
  }

  lemma NoFallAtPeak(peak: real)
    ensures TierLevel(DdPercent(peak, peak)) == 0
  {
  }

  lemma TradeKeepsBrakes(config: RiskConfig, s: RiskState, m: RiskState, s': RiskState, before: int, date: int,
                         pnl: real,
                         reason: ExitReason)
    requires MoneyFacts(config, s) && BrakeFacts(config, s, before) && before <= date
    requires MoneyFacts(config, s')
    requires TradeEffect(s, m, s', DdPercent(m.overallPeakEquity, m.account.equity), date, pnl, reason)
    ensures BrakeFacts(config, s', date)
  {
    var initial, log, t := config.initialBalance, s.tradeLog, Logged(date, pnl, reason);
    OneMoreTrade(initial, log, t, date);
    RuinAfterTrade(initial, log, t);
    PauseMonotone(before, WEEKLY_DD_PAUSE_DAYS, date, WEEKLY_DD_PAUSE_DAYS);
    PauseMonotone(before, TierPauseDays(s.lastDdTierTriggered), date, TierPauseDays(s.lastDdTierTriggered));
    NoFallAtPeak(m.overallPeakEquity);
    TierOfLower(Peak(initial, log), LowSincePeak(initial, log), m.account.equity);
  }

  // ----- Over whole runs -----

  /** The day of the last call, or `date` before any call. */
  function LastDate(calls: seq<Call>, date: int): int {
    if calls == [] then date else calls[|calls| - 1].date
  }

  lemma InitialFacts(config: RiskConfig, date: int)
    requires config.initialBalance > 0.0
    ensures RunFacts(config, InitialState(config), date)
  {
    NoFallAtPeak(config.initialBalance);
  }

  lemma StepKeepsFacts(config: RiskConfig, s: RiskState, before: int, call: Call)
    requires RunFacts(config, s, before) && before <= call.date
    ensures RunFacts(config, Step(config, s, call), call.date)
    ensures Step(config, s, call).tradeLog
         == s.tradeLog + if call.Trade? then [Logged(call.date, call.pnl, call.reason)] else []
  {
    var s' := Step(config, s, call);
    match call {
      case Ask(date, openCount) =>
        AskFrame(config, s, date, openCount);
        AskKeepsFacts(config, s, s', before, date);
      case Trade(date, pnl, reason) =>
        TradeFrame(s, date, pnl, reason);
        var m := Booked(s, date, pnl, reason);
        var dd := DdPercent(m.overallPeakEquity, m.account.equity);
        TradeKeepsMoney(config, s, m, s', dd, date, pnl, reason);
        TradeKeepsDay(s, m, s', dd, before, date, pnl, reason);
        TradeKeepsBrakes(config, s, m, s', before, date, pnl, reason);
    }
  }

  lemma {:induction false} RunKeepsFacts(config: RiskConfig, calls: seq<Call>, date: int)
    requires config.initialBalance > 0.0 && DatesOrdered(calls)
    ensures RunFacts(config, Run(config, calls), LastDate(calls, date))
    ensures Run(config, calls).tradeLog == Trades(calls)
  {
    if calls == [] {
      InitialFacts(config, date);
    } else {
      var init, last := calls[..|calls| - 1], calls[|calls| - 1];
      RunKeepsFacts(config, init, last.date);
      StepKeepsFacts(config, Run(config, init), LastDate(init, last.date), last);
    }
  }

  /**
   After any run with non-decreasing dates: the log is the run's trades; balance and equity
   are the initial balance plus their sum; the weekly peak lies between equity and the
   all-time peak; while not killed the daily result is the logged result of the last call's
   day; the tier is that of the deepest fall since the peak; and the kill switch is on
   exactly when some trade left the balance 40% or more below its peak.
   */
  lemma RiskRunInvariant(config: RiskConfig, calls: seq<Call>)
    requires config.initialBalance > 0.0 && DatesOrdered(calls) && calls != []
    ensures Run(config, calls).tradeLog == Trades(calls)
    ensures RunFacts(config, Run(config, calls), calls[|calls| - 1].date)
  {
    RunKeepsFacts(config, calls, 0);
  }

  lemma StepKeepsKilled(config: RiskConfig, s: RiskState, call: Call)
    requires s.hardKilled
    ensures Step(config, s, call).hardKilled
  {
    if call.Trade? {
      TradeFrame(s, call.date, call.pnl, call.reason);
    }
  }

  /** A tripped kill switch stays tripped, and no later call may trade. */
  lemma {:induction false} KilledForever(config: RiskConfig, calls: seq<Call>, more: seq<Call>, date: int,
                                         openCount: int)
    requires Run(config, calls).hardKilled
    ensures Run(config, calls + more).hardKilled
    ensures !CanTrade(config, Run(config, calls + more), date, openCount).1
  {
    if more == [] {
      assert calls + more == calls;
    } else {
      var init, last := more[..|more| - 1], more[|more| - 1];
      KilledForever(config, calls, init, date, openCount);
      assert (calls + more)[..|calls + more| - 1] == calls + init;
      StepKeepsKilled(config, Run(config, calls + init), last);
    }
  }

  lemma OrderedPrefix(calls: seq<Call>, call: Call)
    requires DatesOrdered(calls + [call])
    ensures DatesOrdered(calls) && LastDate(calls, call.date) <= call.date
  {
    var all := calls + [call];
    assert all[|calls|] == call;
    assert forall i :: 0 <= i < |calls| ==> all[i] == calls[i];
  }

  /** The weekly pause is never lifted and never moves earlier. */
  lemma WeeklyPauseNeverMovesEarlier(config: RiskConfig, calls: seq<Call>, call: Call)
    requires config.initialBalance > 0.0 && DatesOrdered(calls + [call])
    requires Run(config, calls).pauseUntilDate.Some?
    ensures var s' := Step(config, Run(config, calls), call);
            s'.pauseUntilDate.Some? && Run(config, calls).pauseUntilDate.value <= s'.pauseUntilDate.value
  {
    OrderedPrefix(calls, call);
    RunKeepsFacts(config, calls, call.date);
    var s := Run(config, calls);
    PauseMonotone(LastDate(calls, call.date), WEEKLY_DD_PAUSE_DAYS, call.date, WEEKLY_DD_PAUSE_DAYS);
    match call {
      case Ask(date, openCount) => AskFrame(config, s, date, openCount);
      case Trade(date, pnl, reason) => TradeFrame(s, date, pnl, reason);
    }
  }

  /** Between equity highs, once a tier has triggered, a trade only ever raises the tier and never shortens the pause. */
  lemma DdPauseNeverShortened(config: RiskConfig, calls: seq<Call>, date: int, pnl: real, reason: ExitReason)
    requires config.initialBalance > 0.0 && DatesOrdered(calls + [Trade(date, pnl, reason)])
    requires Run(config, calls).lastDdTierTriggered > 0 && Run(config, calls).equityDdPauseUntil.Some?
    requires Run(config, calls).account.equity + pnl <= Run(config, calls).overallPeakEquity
    ensures var s, s' := Run(config, calls), RecordTrade(Run(config, calls), pnl, date, reason);
            && s'.equityDdPauseUntil.Some? && s.equityDdPauseUntil.value <= s'.equityDdPauseUntil.value
            && s'.lastDdTierTriggered >= s.lastDdTierTriggered
            && (s'.equityDdPauseUntil != s.equityDdPauseUntil ==> s'.lastDdTierTriggered > s.lastDdTierTriggered)
  {
    OrderedPrefix(calls, Trade(date, pnl, reason));
    RunKeepsFacts(config, calls, date);
    var s := Run(config, calls);
    TradeFrame(s, date, pnl, reason);
    PauseMonotone(LastDate(calls, date), TierPauseDays(s.lastDdTierTriggered), date,
                  TierPauseDays(RecordTrade(s, pnl, date, reason).lastDdTierTriggered));
  }

  /** What a trade does to a running drawdown pause, told from the state before it. */
  lemma DdPauseAfterTrade(s: RiskState, date: int, pnl: real, reason: ExitReason, tier: nat)
    requires s.account.balance == s.account.equity
    requires tier == TierLevel(DdPercent(s.overallPeakEquity, s.account.equity + pnl))
    ensures RecordTrade(s, pnl, date, reason).equityDdPauseUntil
         == if s.account.equity + pnl <= s.overallPeakEquity && tier > s.lastDdTierTriggered
            then Some(AddTradingDays(date, TierPauseDays(tier))) else s.equityDdPauseUntil
  {
    hide RecordTrade;
    TradeFrame(s, date, pnl, reason);
    NoFallAtPeak(s.account.equity + pnl);
  }

  /**
   A trade shortens a running drawdown pause exactly when no tier has triggered since the last
   high, the trade makes no new one, and the pause of the tier it reaches ends earlier.
   */
  lemma DdPauseShortenedExactlyWhen(config: RiskConfig, calls: seq<Call>, date: int, pnl: real, reason: ExitReason, until: int)
    requires config.initialBalance > 0.0 && DatesOrdered(calls + [Trade(date, pnl, reason)])
    requires Run(config, calls).equityDdPauseUntil == Some(until)
    ensures var s, s' := Run(config, calls), RecordTrade(Run(config, calls), pnl, date, reason);
            var tier := TierLevel(DdPercent(s.overallPeakEquity, s.account.equity + pnl));
            && s'.equityDdPauseUntil.Some?
            && (s'.equityDdPauseUntil.value < until <==>
                && s.lastDdTierTriggered == 0 && s.account.equity + pnl <= s.overallPeakEquity && tier > 0
                && AddTradingDays(date, TierPauseDays(tier)) < until)
  {
    hide RecordTrade;
    OrderedPrefix(calls, Trade(date, pnl, reason));
    RunKeepsFacts(config, calls, date);
    var s := Run(config, calls);
    var tier := TierLevel(DdPercent(s.overallPeakEquity, s.account.equity + pnl));
    DdPauseAfterTrade(s, date, pnl, reason, tier);
    if tier > s.lastDdTierTriggered > 0 {
      PauseMonotone(LastDate(calls, date), TierPauseDays(s.lastDdTierTriggered), date, TierPauseDays(tier));
    }
  }

  lemma DdOf(peak: real, equity: real, dd: real)
    requires peak > 0.0 && (peak - equity) * 100.0 == dd * peak
    ensures DdPercent(peak, equity) == dd
  {
    assert (peak - equity) / peak * peak == peak - equity;
  }

  /** What one trade does to the peak, the tier and the drawdown pause when its drawdown is `dd`. */
  ghost predicate Falls(s: RiskState, s': RiskState, pnl: real, peak: real, dd: real, date: int) {
    var balance := s.account.balance + pnl;
    var tier := if balance > s.overallPeakEquity then 0 else s.lastDdTierTriggered;
    && s'.account.balance == balance && s'.overallPeakEquity == peak
    && s'.lastDdTierTriggered == (if TierLevel(dd) > tier then TierLevel(dd) else tier)
    && s'.equityDdPauseUntil == (if TierLevel(dd) > tier then Some(AddTradingDays(date, TierPauseDays(TierLevel(dd))))
                                 else s.equityDdPauseUntil)
  }

  lemma TradeFalls(s: RiskState, pnl: real, reason: ExitReason, peak: real, dd: real, date: int)
    requires peak == Max(s.overallPeakEquity, s.account.balance + pnl)
    requires peak > 0.0 && (peak - (s.account.balance + pnl)) * 100.0 == dd * peak
    ensures Falls(s, RecordTrade(s, pnl, date, reason), pnl, peak, dd, date)
  {
    TradeFrame(s, date, pnl, reason);
    DdOf(peak, s.account.balance + pnl, dd);
  }

  /** Three trades from the start: a new high re-arms the tiers, and a later shallow fall replaces a 30-day pause by a 3-day one. */
  lemma NewHighCanShortenDdPause(config: RiskConfig, date: int)
    requires config.initialBalance == 100.0
    ensures var fallen := RecordTrade(InitialState(config), -36.0, date, StopLoss);
            var high := RecordTrade(fallen, 46.0, date, TakeProfit);
            var again := RecordTrade(high, -22.0, date, StopLoss);
            && fallen.equityDdPauseUntil == Some(AddTradingDays(date, 30))
            && again.equityDdPauseUntil == Some(AddTradingDays(date, 3))
  {
    var fallen := RecordTrade(InitialState(config), -36.0, date, StopLoss);
    var high := RecordTrade(fallen, 46.0, date, TakeProfit);
    TradeFalls(InitialState(config), -36.0, StopLoss, 100.0, 36.0, date);
    TradeFalls(fallen, 46.0, TakeProfit, 110.0, 0.0, date);
    TradeFalls(high, -22.0, StopLoss, 110.0, 20.0, date);
  }

  lemma ThreeDaysEndBeforeThirty(date: int)
    ensures AddTradingDays(date, 3) < AddTradingDays(date, 30)
  {
    LongerPauseEndsLater(date, 3);
    PauseMonotone(date, 4, date, 30);
  }
}
