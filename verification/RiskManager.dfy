/**
 The per-pair safety brake: daily, weekly and rolling loss limits, drawdown tiers, the
 hard kill switch, and the lot size it allows. `RiskState` is the manager's abstract value;
 the class updates its fields in place and is tied to functions of that value.
 */
module RiskManagement {
  import opened Wrappers
  import opened Numbers
  import opened Calendar
  import opened PositionExits

  const WEEKLY_DD_THRESHOLD := 8.0
  const WEEKLY_DD_PAUSE_DAYS := 5
  const ROLLING_PAUSE_DAYS := 5
  const HARD_KILL_DD_PERCENT := 40.0
  const TRADE_LOG_KEEP := 30

  datatype RiskConfig = RiskConfig(
    initialBalance: real,
    riskPercent: real,
    maxDailyLossPercent: real,
    maxConsecutiveLosses: int,
    maxOpenPositions: int,
    lotSizeUnits: real,
    quotedInYen: bool)

  datatype LoggedTrade = LoggedTrade(date: int, pnl: real, isLoss: bool)

  datatype AccountState = AccountState(
    balance: real,
    equity: real,
    dailyPnl: real,
    consecutiveLosses: int,
    consecutiveWins: int,
    lastTradeDate: Option<int>)

  /** Every state variable of the manager; dates are day numbers. */
  datatype RiskState = RiskState(
    account: AccountState,
    weeklyPeakEquity: real,
    currentWeekNumber: int,
    pauseUntilDate: Option<int>,
    consecutiveLossPauseUntil: Option<int>,
    awaitingPostPauseTrade: bool,
    overallPeakEquity: real,
    tradeLog: seq<LoggedTrade>,
    equityDdPauseUntil: Option<int>,
    lastDdTierTriggered: nat,
    rolling7DayPauseUntil: Option<int>,
    hardKilled: bool)

  function InitialAccount(config: RiskConfig): AccountState {
    AccountState(config.initialBalance, config.initialBalance, 0.0, 0, 0, None)
  }

  function InitialState(config: RiskConfig): RiskState {
    RiskState(InitialAccount(config), config.initialBalance, -1, None, None, false, config.initialBalance, [], None, 0,
              None, false)
  }

  // ----- The quantities the gates look at -----

  function DdPercent(peak: real, equity: real): real {
    if peak > 0.0 then (peak - equity) / peak * 100.0 else 0.0
  }

  /** Division by a zero peak gives infinity when the equity is below it, and no number otherwise. */
  predicate WeeklyDdHit(peak: real, equity: real) {
    if peak == 0.0 then equity < 0.0 else (peak - equity) / peak * 100.0 >= WEEKLY_DD_THRESHOLD
  }

  predicate DailyLossHit(config: RiskConfig, dailyPnl: real, balance: real) {
    if balance == 0.0 then dailyPnl < 0.0 else dailyPnl / balance * 100.0 <= -config.maxDailyLossPercent
  }

  /** How many logged losses are at most seven days older than `date`. */
  function RollingLosses(log: seq<LoggedTrade>, date: int): nat {
    if log == [] then 0
    else
      (if log[0].isLoss && date - log[0].date <= 7 then 1 else 0) + RollingLosses(log[1..], date)
  }

  predicate Before(date: int, until: Option<int>) {
    until.Some? && date < until.value
  }

  function LossPauseDays(config: RiskConfig, losses: int): nat {
    var excess := losses - config.maxConsecutiveLosses;
    if excess >= 2 then 5 else if excess >= 1 then 3 else 1
  }

  /** The highest drawdown tier that `dd` reaches, 0 for none. */
  function TierLevel(dd: real): nat {
    if dd >= 35.0 then 35 else if dd >= 25.0 then 25 else if dd >= 15.0 then 15 else 0
  }

  function TierPauseDays(tier: nat): nat {
    if tier >= 35 then 30 else if tier >= 25 then 7 else 3
  }

  // ----- What each call does to the state -----

  function ResetDaily(s: RiskState, date: int): RiskState {
    if s.account.lastTradeDate.Some? && s.account.lastTradeDate.value != date
    then s.(account := s.account.(dailyPnl := 0.0)) else s
  }

  function ResetWeekly(s: RiskState, date: int): RiskState {
    if WeekNumber(date) != s.currentWeekNumber
    then s.(currentWeekNumber := WeekNumber(date), weeklyPeakEquity := s.account.equity)
    else s
  }

  /** The daily-loss, losing-streak and position-count gates, once no pause is running. */
  function LossGates(config: RiskConfig, s: RiskState, date: int, openCount: int): (RiskState, bool) {
    if DailyLossHit(config, s.account.dailyPnl, s.account.balance) then (s, false)
    else if !s.awaitingPostPauseTrade && s.account.consecutiveLosses >= config.maxConsecutiveLosses then
      var days := LossPauseDays(config, s.account.consecutiveLosses);
      (s.(consecutiveLossPauseUntil := Some(AddTradingDays(date, days))), false)
    else (s, openCount < config.maxOpenPositions)
  }

  function EndLossPause(s: RiskState): RiskState {
    if s.consecutiveLossPauseUntil.Some?
    then s.(consecutiveLossPauseUntil := None, awaitingPostPauseTrade := true)
    else s
  }

  /** The gates that follow the weekly and drawdown pauses. */
  function RollingGates(config: RiskConfig, s: RiskState, date: int, openCount: int): (RiskState, bool) {
    if Before(date, s.rolling7DayPauseUntil) then (s, false)
    else if RollingLosses(s.tradeLog, date) >= 4 then
      (s.(rolling7DayPauseUntil := Some(AddTradingDays(date, ROLLING_PAUSE_DAYS))), false)
    else if Before(date, s.consecutiveLossPauseUntil) then (s, false)
    else LossGates(config, EndLossPause(s), date, openCount)
  }

  /** The gate: may a new position open on `date` with `openCount` open already? */
  function CanTrade(config: RiskConfig, s0: RiskState, date: int, openCount: int): (RiskState, bool) {
    if s0.hardKilled then (s0, false)
    else
      var s := ResetWeekly(ResetDaily(s0, date), date);
      if Before(date, s.pauseUntilDate) || Before(date, s.equityDdPauseUntil) then (s, false)
      else RollingGates(config, s.(equityDdPauseUntil := None), date, openCount)
  }

  function BookAccount(a: AccountState, pnl: real, reason: ExitReason): AccountState {
    var losing := reason != Breakeven && reason != TakeProfit && pnl < 0.0;
    AccountState(
      a.balance + pnl,
      a.balance + pnl,
      a.dailyPnl + pnl,
      if reason == Breakeven || reason == TakeProfit then 0
      else if losing then a.consecutiveLosses + 1 else a.consecutiveLosses,
      if reason == TakeProfit then a.consecutiveWins + 1 else if losing then 0 else a.consecutiveWins,
      a.lastTradeDate)
  }

  function Book(s: RiskState, pnl: real, date: int, reason: ExitReason): RiskState {
    s.(awaitingPostPauseTrade := false,
    account := BookAccount(s.account, pnl, reason),
    tradeLog := s.tradeLog + [LoggedTrade(date, pnl, pnl < 0.0 && reason != Breakeven)])
  }

  function RaisePeaks(s: RiskState): RiskState {
    var s1 := s.(weeklyPeakEquity := Max(s.weeklyPeakEquity, s.account.equity));
    if s1.account.equity > s1.overallPeakEquity
    then s1.(overallPeakEquity := s1.account.equity, lastDdTierTriggered := 0)
    else s1
  }

  /** The kill switch and the drawdown tiers, for a drawdown of `dd` percent. */
  function ApplyTiers(s: RiskState, dd: real, date: int): RiskState {
    var s1 := s.(hardKilled := s.hardKilled || dd >= HARD_KILL_DD_PERCENT);
    if TierLevel(dd) > s1.lastDdTierTriggered
    then s1.(lastDdTierTriggered := TierLevel(dd),
         equityDdPauseUntil := Some(AddTradingDays(date, TierPauseDays(TierLevel(dd)))))
    else s1
  }

  function Brake(s: RiskState, date: int): RiskState {
    var s1 := ApplyTiers(s, DdPercent(s.overallPeakEquity, s.account.equity), date);
    if WeeklyDdHit(s1.weeklyPeakEquity, s1.account.equity)
    then s1.(pauseUntilDate := Some(AddTradingDays(date, WEEKLY_DD_PAUSE_DAYS)))
    else s1
  }

  /** A closed trade is booked, the peaks are raised and the brakes are set. */
  function RecordTrade(s: RiskState, pnl: real, date: int, reason: ExitReason): RiskState {
    var s1 := Brake(RaisePeaks(Book(ResetWeekly(ResetDaily(s, date), date), pnl, date, reason)), date);
    s1.(account := s1.account.(lastTradeDate := Some(date)))
  }

  // ----- Trading mode -----

  datatype TradingMode = Aggressive | Normal | Defensive

  function GetTradingMode(s: RiskState): TradingMode {
    var dd := DdPercent(s.overallPeakEquity, s.account.equity);
    var rolling := if s.account.lastTradeDate.Some? then RollingLosses(s.tradeLog, s.account.lastTradeDate.value) else 0;
    if dd >= 15.0 || s.account.consecutiveLosses >= 4 || rolling >= 5 then Defensive
    else if dd < 5.0 && s.account.consecutiveWins >= 2 then Aggressive
    else Normal
  }

  // ----- Snapshot and restore -----

  /** The persisted form: a snapshot written by an older version lacks fields, `null` and absent are alike. */
  datatype AccountSnapshot = AccountSnapshot(
    balance: Option<real>,
    equity: Option<real>,
    dailyPnl: Option<real>,
    consecutiveLosses: Option<int>,
    consecutiveWins: Option<int>,
    lastTradeDate: Option<int>)

  datatype RiskSnapshot = RiskSnapshot(
    account: AccountSnapshot,
    weeklyPeakEquity: Option<real>,
    currentWeekNumber: Option<int>,
    pauseUntilDate: Option<int>,
    consecutiveLossPauseUntil: Option<int>,
    awaitingPostPauseTrade: Option<bool>,
    overallPeakEquity: Option<real>,
    tradeLog: Option<seq<LoggedTrade>>,
    equityDdPauseUntil: Option<int>,
    lastDdTierTriggered: Option<nat>,
    rolling7DayPauseUntil: Option<int>,
    hardKilled: Option<bool>)

  function AccountSnapshotOf(a: AccountState): AccountSnapshot {
    AccountSnapshot(Some(a.balance), Some(a.equity), Some(a.dailyPnl), Some(a.consecutiveLosses), Some(a.consecutiveWins),
                    a.lastTradeDate)
  }

  function RestoredAccount(a: AccountState, snap: AccountSnapshot): AccountState {
    AccountState(snap.balance.GetOr(a.balance), snap.equity.GetOr(a.equity), snap.dailyPnl.GetOr(0.0),
                 snap.consecutiveLosses.GetOr(0), snap.consecutiveWins.GetOr(0), snap.lastTradeDate)
  }

  /** Everything, but only the tail of the trade log. */
  function SnapshotOf(s: RiskState): RiskSnapshot {
    RiskSnapshot(AccountSnapshotOf(s.account), Some(s.weeklyPeakEquity), Some(s.currentWeekNumber), s.pauseUntilDate,
                 s.consecutiveLossPauseUntil, Some(s.awaitingPostPauseTrade), Some(s.overallPeakEquity),
                 Some(LastN(s.tradeLog, TRADE_LOG_KEEP)), s.equityDdPauseUntil, Some(s.lastDdTierTriggered),
                 s.rolling7DayPauseUntil, Some(s.hardKilled))
  }

  /** The state of a manager in state `s` once it has restored the snapshot. */
  function Rehydrated(s: RiskState, snap: RiskSnapshot): RiskState {
    RiskState(RestoredAccount(s.account, snap.account), snap.weeklyPeakEquity.GetOr(s.weeklyPeakEquity),
              snap.currentWeekNumber.GetOr(-1), snap.pauseUntilDate, snap.consecutiveLossPauseUntil,
              snap.awaitingPostPauseTrade.GetOr(false), snap.overallPeakEquity.GetOr(s.overallPeakEquity),
              snap.tradeLog.GetOr([]), snap.equityDdPauseUntil, snap.lastDdTierTriggered.GetOr(0),
              snap.rolling7DayPauseUntil, snap.hardKilled.GetOr(false))
  }

  /** Of an older snapshot without any field but the dates, only what the manager was built with remains. */
  lemma OldestSnapshot(s: RiskState, snap: RiskSnapshot)
    requires snap.account == AccountSnapshot(None, None, None, None, None, snap.account.lastTradeDate)
    requires snap.weeklyPeakEquity == snap.overallPeakEquity == None && snap.currentWeekNumber == None
    requires snap.awaitingPostPauseTrade == snap.hardKilled == None && snap.tradeLog == None
    requires snap.lastDdTierTriggered == None
    ensures Rehydrated(s, snap)
         == RiskState(AccountState(s.account.balance, s.account.equity, 0.0, 0, 0, snap.account.lastTradeDate),
                      s.weeklyPeakEquity, -1, snap.pauseUntilDate, snap.consecutiveLossPauseUntil, false, s.overallPeakEquity,
                      [], snap.equityDdPauseUntil, 0, snap.rolling7DayPauseUntil, false)
  {
  }

  /** What survives a snapshot and its restoration. */
  function Truncated(s: RiskState): RiskState {
    s.(tradeLog := LastN(s.tradeLog, TRADE_LOG_KEEP))
  }

  /** Any manager that restores a full snapshot is in the snapshot's state, up to the oldest trades. */
  lemma SnapshotRoundTrip(s: RiskState, other: RiskState)
    ensures Rehydrated(other, SnapshotOf(s)) == Truncated(s)
  {
  }

  /** The manager object: its fields change in place, call by call. */
  class RiskManager {
    const config: RiskConfig
    var state: AccountState
    var weeklyPeakEquity: real
    var currentWeekNumber: int
    var pauseUntilDate: Option<int>
    var consecutiveLossPauseUntil: Option<int>
    var awaitingPostPauseTrade: bool
    var overallPeakEquity: real
    var tradeLog: seq<LoggedTrade>
    var equityDdPauseUntil: Option<int>
    var lastDdTierTriggered: nat
    var rolling7DayPauseUntil: Option<int>
    var hardKilled: bool

    function View(): RiskState
      reads this
    {
      RiskState(state, weeklyPeakEquity, currentWeekNumber, pauseUntilDate, consecutiveLossPauseUntil,
                awaitingPostPauseTrade, overallPeakEquity, tradeLog, equityDdPauseUntil, lastDdTierTriggered,
                rolling7DayPauseUntil, hardKilled)
    }

    constructor (config: RiskConfig)
      ensures this.config == config
      ensures View() == InitialState(config)
    {
      this.config := config;
      state := InitialAccount(config);
      weeklyPeakEquity, currentWeekNumber := config.initialBalance, -1;
      pauseUntilDate, consecutiveLossPauseUntil, awaitingPostPauseTrade := None, None, false;
      overallPeakEquity, tradeLog := config.initialBalance, [];
      equityDdPauseUntil, lastDdTierTriggered := None, 0;
      rolling7DayPauseUntil, hardKilled := None, false;
    }

    function Snapshot(): RiskSnapshot
      reads this
    {
      SnapshotOf(View())
    }

    /** Re-hydrates the manager from a snapshot, field by field, with defaults for what is missing. */
    method Restore(snap: RiskSnapshot)
      modifies this
      ensures View() == Rehydrated(old(View()), snap)
    {
      RestoreAccount(snap.account);
      RestorePeaks(snap);
      RestorePauses(snap);
      awaitingPostPauseTrade := snap.awaitingPostPauseTrade.GetOr(false);
      tradeLog := snap.tradeLog.GetOr([]);
      lastDdTierTriggered := snap.lastDdTierTriggered.GetOr(0);
      hardKilled := snap.hardKilled.GetOr(false);
    }

    /** A new manager takes over what the old one saved: its state, up to the oldest trades. */
    method TakeOver(saved: RiskManager)
      modifies this
      ensures View() == Truncated(old(saved.View()))
    {
      SnapshotRoundTrip(saved.View(), View());
      Restore(saved.Snapshot());
    }

    method RestorePauses(snap: RiskSnapshot)
      modifies `pauseUntilDate, `consecutiveLossPauseUntil, `equityDdPauseUntil, `rolling7DayPauseUntil
      ensures pauseUntilDate == snap.pauseUntilDate && consecutiveLossPauseUntil == snap.consecutiveLossPauseUntil
      ensures equityDdPauseUntil == snap.equityDdPauseUntil && rolling7DayPauseUntil == snap.rolling7DayPauseUntil
    {
      pauseUntilDate, consecutiveLossPauseUntil := snap.pauseUntilDate, snap.consecutiveLossPauseUntil;
      equityDdPauseUntil, rolling7DayPauseUntil := snap.equityDdPauseUntil, snap.rolling7DayPauseUntil;
    }

    method RestoreAccount(snap: AccountSnapshot)
      modifies `state
      ensures state == RestoredAccount(old(state), snap)
    {
      state := state.(balance := snap.balance.GetOr(state.balance), equity := snap.equity.GetOr(state.equity));
      state := state.(dailyPnl := snap.dailyPnl.GetOr(0.0), lastTradeDate := snap.lastTradeDate);
      state := state.(consecutiveLosses := snap.consecutiveLosses.GetOr(0),
                 consecutiveWins := snap.consecutiveWins.GetOr(0));
    }

    method RestorePeaks(snap: RiskSnapshot)
      modifies `weeklyPeakEquity, `currentWeekNumber, `overallPeakEquity
      ensures weeklyPeakEquity == snap.weeklyPeakEquity.GetOr(old(weeklyPeakEquity))
      ensures currentWeekNumber == snap.currentWeekNumber.GetOr(-1)
      ensures overallPeakEquity == snap.overallPeakEquity.GetOr(old(overallPeakEquity))
    {
      weeklyPeakEquity := snap.weeklyPeakEquity.GetOr(weeklyPeakEquity);
      currentWeekNumber := snap.currentWeekNumber.GetOr(-1);
      overallPeakEquity := snap.overallPeakEquity.GetOr(overallPeakEquity);
    }

    method MaybeResetDaily(date: int)
      modifies this
      ensures View() == ResetDaily(old(View()), date)
    {
      if state.lastTradeDate.Some? && date != state.lastTradeDate.value {
        state := state.(dailyPnl := 0.0);
      }
    }

    method MaybeResetWeekly(date: int)
      modifies this
      ensures View() == ResetWeekly(old(View()), date)
    {
      var weekNumber := WeekNumber(date);
      if weekNumber != currentWeekNumber {
        currentWeekNumber := weekNumber;
        weeklyPeakEquity := state.equity;
      }
    }

    method MayTrade(date: int, openPositionCount: int) returns (ok: bool)
      modifies this
      ensures (View(), ok) == CanTrade(config, old(View()), date, openPositionCount)
    {
      if hardKilled {
        return false;
      }
      MaybeResetDaily(date);
      MaybeResetWeekly(date);
      if pauseUntilDate.Some? && date < pauseUntilDate.value {
        return false;
      }
      if equityDdPauseUntil.Some? {
        if date < equityDdPauseUntil.value {
          return false;
        }
        equityDdPauseUntil := None;
      }
      ok := PassRollingGates(date, openPositionCount);
    }

    method PassRollingGates(date: int, openPositionCount: int) returns (ok: bool)
      modifies this
      ensures (View(), ok) == RollingGates(config, old(View()), date, openPositionCount)
    {
      if rolling7DayPauseUntil.Some? && date < rolling7DayPauseUntil.value {
        return false;
      }
      if RollingLosses(tradeLog, date) >= 4 {
        var until := ComputeAddTradingDays(date, ROLLING_PAUSE_DAYS);
        rolling7DayPauseUntil := Some(until);
        return false;
      }
      if consecutiveLossPauseUntil.Some? {
        if date < consecutiveLossPauseUntil.value {
          return false;
        }
        consecutiveLossPauseUntil := None;
        awaitingPostPauseTrade := true;
      }
      ok := PassLossGates(date, openPositionCount);
    }

    method PassLossGates(date: int, openPositionCount: int) returns (ok: bool)
      modifies this
      ensures (View(), ok) == LossGates(config, old(View()), date, openPositionCount)
    {
      if DailyLossHit(config, state.dailyPnl, state.balance) {
        return false;
      }
      if !awaitingPostPauseTrade && state.consecutiveLosses >= config.maxConsecutiveLosses {
        var until := ComputeAddTradingDays(date, LossPauseDays(config, state.consecutiveLosses));
        consecutiveLossPauseUntil := Some(until);
        return false;
      }
      return openPositionCount < config.maxOpenPositions;
    }

    method Record(pnl: real, date: int, reason: ExitReason)
      modifies this
      ensures View() == RecordTrade(old(View()), pnl, date, reason)
    {
      MaybeResetDaily(date);
      MaybeResetWeekly(date);
      BookTrade(pnl, date, reason);
      RaisePeakEquity();
      SetBrakes(date);
      state := state.(lastTradeDate := Some(date));
    }

    method BookTrade(pnl: real, date: int, reason: ExitReason)
      modifies this
      ensures View() == Book(old(View()), pnl, date, reason)
    {
      awaitingPostPauseTrade := false;
      state := state.(balance := state.balance + pnl);
      state := state.(equity := state.balance);
      state := state.(dailyPnl := state.dailyPnl + pnl);
      tradeLog := tradeLog + [LoggedTrade(date, pnl, pnl < 0.0 && reason != Breakeven)];
      if reason == Breakeven {
        state := state.(consecutiveLosses := 0);
      } else if reason == TakeProfit {
        state := state.(consecutiveLosses := 0, consecutiveWins := state.consecutiveWins + 1);
      } else if pnl < 0.0 {
        state := state.(consecutiveLosses := state.consecutiveLosses + 1, consecutiveWins := 0);
      }
    }

    method RaisePeakEquity()
      modifies this
      ensures View() == RaisePeaks(old(View()))
    {
      if state.equity > weeklyPeakEquity {
        weeklyPeakEquity := state.equity;
      }
      if state.equity > overallPeakEquity {
        overallPeakEquity := state.equity;
        lastDdTierTriggered := 0;
      }
    }

    method SetBrakes(date: int)
      modifies this
      ensures View() == Brake(old(View()), date)
    {
      TriggerTiers(DdPercent(overallPeakEquity, state.equity), date);
      if WeeklyDdHit(weeklyPeakEquity, state.equity) {
        var until := ComputeAddTradingDays(date, WEEKLY_DD_PAUSE_DAYS);
        pauseUntilDate := Some(until);
      }
    }

    method TriggerTiers(ddPercent: real, date: int)
      modifies this
      ensures View() == ApplyTiers(old(View()), ddPercent, date)
    {
      if ddPercent >= HARD_KILL_DD_PERCENT {
        hardKilled := true;
      }
      if ddPercent >= 35.0 && lastDdTierTriggered < 35 {
        StartDdPause(35, date);
      } else if ddPercent >= 25.0 && lastDdTierTriggered < 25 {
        StartDdPause(25, date);
      } else if ddPercent >= 15.0 && lastDdTierTriggered < 15 {
        StartDdPause(15, date);
      }
    }

    method StartDdPause(tier: nat, date: int)
      modifies this
      ensures View() == old(View()).(lastDdTierTriggered := tier,
                                equityDdPauseUntil := Some(AddTradingDays(date, TierPauseDays(tier))))
    {
      lastDdTierTriggered := tier;
      var until := ComputeAddTradingDays(date, TierPauseDays(tier));
      equityDdPauseUntil := Some(until);
    }
  }
}
