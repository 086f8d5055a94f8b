/**
 The safety brake told in numbers: when the gate is open, what a trade does to the brake, what
 the streak counts, and how drawdown lowers the risk of the next position.
 */
module RiskNumbers {
  import opened Wrappers
  import opened Numbers
  import opened Calendar
  import opened PositionExits
  import opened RiskManagement
  import opened LotSizing
  import opened RiskRestart
  import RiskRuns

  // ----- The gate -----

  /** The logged losses that are at most seven days older than `date`. */
  ghost function RecentLosses(log: seq<LoggedTrade>, date: int): set<int> {
    set i | 0 <= i < |log| && log[i].isLoss && date - log[i].date <= 7
  }

  lemma RecentOneMore(log: seq<LoggedTrade>, date: int)
    requires log != []
    ensures var n := |log| - 1;
            |RecentLosses(log, date)|
            == |RecentLosses(log[..n], date)| + if log[n].isLoss && date - log[n].date <= 7 then 1 else 0
  {
    var n := |log| - 1;
    assert RecentLosses(log, date)
        == RecentLosses(log[..n], date) + if log[n].isLoss && date - log[n].date <= 7 then {n} else {};
  }

  lemma RollingOfOne(trade: LoggedTrade, date: int)
    ensures RollingLosses([trade], date) == if trade.isLoss && date - trade.date <= 7 then 1 else 0
  {
    assert [trade][1..] == [];
  }

  lemma {:induction false} RollingIsCount(log: seq<LoggedTrade>, date: int)
    ensures RollingLosses(log, date) == |RecentLosses(log, date)|
  {
    if log == [] {
      assert RecentLosses(log, date) == {};
    } else {
      hide RollingLosses, RecentLosses;
      var n := |log| - 1;
      assert log == log[..n] + [log[n]];
      RollingLossesSplit(log[..n], [log[n]], date);
      RollingOfOne(log[n], date);
      RollingIsCount(log[..n], date);
      RecentOneMore(log, date);
    }
  }

  ghost predicate NoPause(until: Option<int>, date: int) {
    until.None? || until.value <= date
  }

  /** The result of the day so far: nothing when the last trade was on another day. */
  function DayResult(s: RiskState, date: int): real {
    match s.account.lastTradeDate
    case Some(last) => if last == date then s.account.dailyPnl else 0.0
    case None => s.account.dailyPnl
  }

  /** The day's loss is below the limit; with nothing left, any loss is too much. */
  ghost predicate DayWithinLimit(config: RiskConfig, s: RiskState, date: int) {
    if s.account.balance == 0.0 then DayResult(s, date) >= 0.0
    else DayResult(s, date) / s.account.balance * 100.0 > -config.maxDailyLossPercent
  }

  /** The losing streak is short, or its pause has been served and no trade has followed yet. */
  ghost predicate StreakAllows(config: RiskConfig, s: RiskState) {
    s.account.consecutiveLosses < config.maxConsecutiveLosses || s.awaitingPostPauseTrade || s.consecutiveLossPauseUntil.Some?
  }

  ghost predicate GateIsOpen(config: RiskConfig, s: RiskState, date: int, openCount: int) {
    && !s.hardKilled
    && NoPause(s.pauseUntilDate, date) && NoPause(s.equityDdPauseUntil, date) && NoPause(s.rolling7DayPauseUntil, date)
    && |RecentLosses(s.tradeLog, date)| < 4
    && NoPause(s.consecutiveLossPauseUntil, date)
    && DayWithinLimit(config, s, date) && StreakAllows(config, s)
    && openCount < config.maxOpenPositions
  }

  /** All that is asked before the losses of the last seven days. */
  ghost predicate ReachesLosses(s: RiskState, date: int) {
    && !s.hardKilled
    && NoPause(s.pauseUntilDate, date) && NoPause(s.equityDdPauseUntil, date) && NoPause(s.rolling7DayPauseUntil, date)
  }

  /** Trading days that a streak at or over the limit pauses the pair. */
  function StreakPause(losses: int, limit: int): nat {
    if losses == limit then 1 else if losses == limit + 1 then 3 else 5
  }

  lemma DayLimitIs(config: RiskConfig, s: RiskState, date: int)
    ensures var r := ResetWeekly(ResetDaily(s, date), date).account;
            DailyLossHit(config, r.dailyPnl, r.balance) <==> !DayWithinLimit(config, s, date)
  {
  }

  /** The gate answers yes exactly when nothing is in the way. */
  lemma GateByNumbers(config: RiskConfig, s: RiskState, date: int, openCount: int)
    ensures CanTrade(config, s, date, openCount).1 <==> GateIsOpen(config, s, date, openCount)
  {
    hide DailyLossHit, DayWithinLimit, RollingLosses, RecentLosses;
    RollingIsCount(s.tradeLog, date);
    DayLimitIs(config, s, date);
  }

  /** Four recent losses pause the pair for five trading days, and nothing else sets that pause. */
  lemma RollingPauseByNumbers(config: RiskConfig, s: RiskState, date: int, openCount: int)
    ensures CanTrade(config, s, date, openCount).0.rolling7DayPauseUntil
         == if ReachesLosses(s, date) && |RecentLosses(s.tradeLog, date)| >= 4 then Some(AddTradingDays(date, 5))
            else s.rolling7DayPauseUntil
  {
    hide DailyLossHit, RollingLosses, RecentLosses, AddTradingDays, WeekNumber;
    RollingIsCount(s.tradeLog, date);
  }

  /** A streak at its limit pauses the pair for one, three or five trading days; a served pause is lifted. */
  ghost predicate StreakPauseFollows(config: RiskConfig, s: RiskState, date: int, until: Option<int>) {
    if !ReachesLosses(s, date) || |RecentLosses(s.tradeLog, date)| >= 4 || !NoPause(s.consecutiveLossPauseUntil, date)
    then until == s.consecutiveLossPauseUntil
    else if DayWithinLimit(config, s, date) && !StreakAllows(config, s)
    then until == Some(AddTradingDays(date, StreakPause(s.account.consecutiveLosses, config.maxConsecutiveLosses)))
    else until == None
  }

  lemma StreakPauseByNumbers(config: RiskConfig, s: RiskState, date: int, openCount: int)
    ensures StreakPauseFollows(config, s, date, CanTrade(config, s, date, openCount).0.consecutiveLossPauseUntil)
  {
    hide DailyLossHit, DayWithinLimit, RollingLosses, RecentLosses, AddTradingDays, ResetDaily, ResetWeekly;
    RollingIsCount(s.tradeLog, date);
    DayLimitIs(config, s, date);
    ResetsKeepBrakes(s, date);
  }

  lemma ResetsKeepBrakes(s: RiskState, date: int)
    ensures var r := ResetWeekly(ResetDaily(s, date), date);
            && r.consecutiveLossPauseUntil == s.consecutiveLossPauseUntil && r.pauseUntilDate == s.pauseUntilDate
            && r.equityDdPauseUntil == s.equityDdPauseUntil && r.rolling7DayPauseUntil == s.rolling7DayPauseUntil
            && r.tradeLog == s.tradeLog && r.awaitingPostPauseTrade == s.awaitingPostPauseTrade
            && r.account.consecutiveLosses == s.account.consecutiveLosses && r.account.balance == s.account.balance
            && r.hardKilled == s.hardKilled
  {
    hide WeekNumber;
  }

  // ----- A trade -----

  function WeekPeakBefore(s: RiskState, date: int): real {
    if WeekNumber(date) == s.currentWeekNumber then s.weeklyPeakEquity else s.account.equity
  }

  function FallPercent(peak: real, equity: real): real {
    if peak > 0.0 then (peak - equity) / peak * 100.0 else 0.0
  }

  /** The week's fall reaches 8 percent; below a peak of zero any loss does. */
  ghost predicate WeekFalls(peak: real, equity: real) {
    if peak == 0.0 then equity < 0.0 else (peak - equity) / peak * 100.0 >= 8.0
  }

  /** The drawdown tier of a fall. */
  function TierOf(fall: real): nat {
    if fall < 15.0 then 0 else if fall < 25.0 then 15 else if fall < 35.0 then 25 else 35
  }

  /** The trading days that a newly reached tier pauses the pair for. */
  function TierDays(fall: real): nat {
    if fall < 25.0 then 3 else if fall < 35.0 then 7 else 30
  }

  /** The money, the log and the streaks after a trade. */
  ghost predicate BooksTrade(s: RiskState, s': RiskState, pnl: real, date: int, reason: ExitReason) {
    && s'.account.balance == s'.account.equity == s.account.balance + pnl
    && s'.account.dailyPnl == DayResult(s, date) + pnl && s'.account.lastTradeDate == Some(date)
    && s'.tradeLog == s.tradeLog + [LoggedTrade(date, pnl, pnl < 0.0 && reason != Breakeven)]
    && !s'.awaitingPostPauseTrade
    && s'.account.consecutiveLosses
       == (match reason
           case TakeProfit => 0
           case Breakeven => 0
           case _ => if pnl < 0.0 then s.account.consecutiveLosses + 1 else s.account.consecutiveLosses)
    && s'.account.consecutiveWins
       == (match reason
           case TakeProfit => s.account.consecutiveWins + 1
           case Breakeven => s.account.consecutiveWins
           case _ => if pnl < 0.0 then 0 else s.account.consecutiveWins)
  }

  /** The peaks, the kill switch, the tier and the pauses after a trade that leaves `equity`. */
  ghost predicate BrakesTrade(s: RiskState, s': RiskState, equity: real, date: int) {
    var high := equity > s.overallPeakEquity;
    var before := if high then 0 else s.lastDdTierTriggered;
    var fall := FallPercent(if high then equity else s.overallPeakEquity, equity);
    && s'.overallPeakEquity == (if high then equity else s.overallPeakEquity)
    && s'.weeklyPeakEquity == Max(WeekPeakBefore(s, date), equity) && s'.currentWeekNumber == WeekNumber(date)
    && s'.hardKilled == (s.hardKilled || fall >= 40.0)
    && s'.lastDdTierTriggered == (if TierOf(fall) > before then TierOf(fall) else before)
    && s'.equityDdPauseUntil
       == (if TierOf(fall) > before then Some(AddTradingDays(date, TierDays(fall))) else s.equityDdPauseUntil)
    && s'.pauseUntilDate == (if WeekFalls(Max(WeekPeakBefore(s, date), equity), equity) then Some(AddTradingDays(date, 5))
                             else s.pauseUntilDate)
    && s'.rolling7DayPauseUntil == s.rolling7DayPauseUntil && s'.consecutiveLossPauseUntil == s.consecutiveLossPauseUntil
  }

  lemma TierIs(fall: real)
    ensures TierLevel(fall) == TierOf(fall)
    ensures TierLevel(fall) > 0 ==> TierPauseDays(TierLevel(fall)) == TierDays(fall)
  {
  }

  lemma BookIs(s: RiskState, pnl: real, date: int, reason: ExitReason)
    ensures var b := Book(ResetWeekly(ResetDaily(s, date), date), pnl, date, reason);
            && BooksTrade(s, b.(account := b.account.(lastTradeDate := Some(date))), pnl, date, reason)
            && b.weeklyPeakEquity == WeekPeakBefore(s, date) && b.currentWeekNumber == WeekNumber(date)
            && b.overallPeakEquity == s.overallPeakEquity && b.lastDdTierTriggered == s.lastDdTierTriggered
            && b.hardKilled == s.hardKilled && b.equityDdPauseUntil == s.equityDdPauseUntil
            && b.pauseUntilDate == s.pauseUntilDate && b.rolling7DayPauseUntil == s.rolling7DayPauseUntil
            && b.consecutiveLossPauseUntil == s.consecutiveLossPauseUntil
  {
    hide WeekNumber;
  }

  /** The brakes from a booked state on. */
  lemma BrakesAre(s: RiskState, b: RiskState, date: int)
    requires b.weeklyPeakEquity == WeekPeakBefore(s, date) && b.currentWeekNumber == WeekNumber(date)
    requires b.overallPeakEquity == s.overallPeakEquity && b.lastDdTierTriggered == s.lastDdTierTriggered
    requires b.hardKilled == s.hardKilled && b.equityDdPauseUntil == s.equityDdPauseUntil
    requires b.pauseUntilDate == s.pauseUntilDate && b.rolling7DayPauseUntil == s.rolling7DayPauseUntil
    requires b.consecutiveLossPauseUntil == s.consecutiveLossPauseUntil
    ensures BrakesTrade(s, Brake(RaisePeaks(b), date), b.account.equity, date)
    ensures Brake(RaisePeaks(b), date).account == b.account && Brake(RaisePeaks(b), date).tradeLog == b.tradeLog
    ensures Brake(RaisePeaks(b), date).awaitingPostPauseTrade == b.awaitingPostPauseTrade
  {
    hide AddTradingDays, WeekNumber, WeekPeakBefore, TierLevel, TierOf, TierDays, TierPauseDays, DdPercent, FallPercent, WeeklyDdHit,
         WeekFalls;
    var equity := b.account.equity;
    var fall := FallPercent(if equity > s.overallPeakEquity then equity else s.overallPeakEquity, equity);
    TierIs(fall);
    SameQuantities();
  }

  /** One recorded trade: its money, log and streaks, and then the brakes for the equity it leaves. */
  lemma TradeByNumbers(s: RiskState, pnl: real, date: int, reason: ExitReason)
    ensures BooksTrade(s, RecordTrade(s, pnl, date, reason), pnl, date, reason)
    ensures BrakesTrade(s, RecordTrade(s, pnl, date, reason), s.account.balance + pnl, date)
  {
    hide AddTradingDays, WeekNumber, WeekPeakBefore, Book, RaisePeaks, Brake, ResetWeekly, ResetDaily, FallPercent, WeekFalls, TierOf,
         TierDays, DayResult;
    BookIs(s, pnl, date, reason);
    BrakesAre(s, Book(ResetWeekly(ResetDaily(s, date), date), pnl, date, reason), date);
  }

  lemma SameQuantities()
    ensures forall peak, equity :: DdPercent(peak, equity) == FallPercent(peak, equity)
    ensures forall peak, equity :: WeeklyDdHit(peak, equity) <==> WeekFalls(peak, equity)
  {
  }

  // ----- The losing streak over a run -----

  /** The exit ends a losing streak. */
  predicate Ends(call: RiskRuns.Call) {
    call.Trade? && (call.reason == TakeProfit || call.reason == Breakeven)
  }

  /** The losing trades from call `k` on. */
  ghost function LossesFrom(calls: seq<RiskRuns.Call>, k: int): set<int> {
    set j | 0 <= j < |calls| && k <= j && calls[j].Trade? && calls[j].pnl < 0.0
  }

  /** The streak is the number of losing trades since the last target or breakeven exit. */
  lemma {:induction false} StreakIsCount(config: RiskConfig, calls: seq<RiskRuns.Call>, k: nat)
    requires k <= |calls| && (k > 0 ==> Ends(calls[k - 1])) && forall j :: k <= j < |calls| ==> !Ends(calls[j])
    ensures RiskRuns.Run(config, calls).account.consecutiveLosses == |LossesFrom(calls, k)|
    decreases |calls|
  {
    if calls == [] {
      assert LossesFrom(calls, k) == {};
    } else {
      hide RiskRuns.Step;
      hide LossesFrom;
      var init, last := calls[..|calls| - 1], calls[|calls| - 1];
      StreakAfterCall(config, RiskRuns.Run(config, init), last);
      if k == |calls| {
        NoCallsFrom(calls);
      } else {
        StreakIsCount(config, init, k);
        OneCallMore(calls, k);
      }
    }
  }

  lemma NoCallsFrom(calls: seq<RiskRuns.Call>)
    ensures |LossesFrom(calls, |calls|)| == 0
  {
    assert LossesFrom(calls, |calls|) == {};
  }

  lemma OneCallMore(calls: seq<RiskRuns.Call>, k: nat)
    requires k < |calls|
    ensures var last := calls[|calls| - 1];
            |LossesFrom(calls, k)|
            == |LossesFrom(calls[..|calls| - 1], k)| + if last.Trade? && last.pnl < 0.0 then 1 else 0
  {
    var n, last := |calls| - 1, calls[|calls| - 1];
    assert LossesFrom(calls, k) == LossesFrom(calls[..n], k) + if last.Trade? && last.pnl < 0.0 then {n} else {};
  }

  lemma StreakAfterCall(config: RiskConfig, s: RiskState, call: RiskRuns.Call)
    ensures RiskRuns.Step(config, s, call).account.consecutiveLosses
         == if Ends(call) then 0
            else s.account.consecutiveLosses + if call.Trade? && call.pnl < 0.0 then 1 else 0
  {
    hide CanTrade, RecordTrade, BrakesTrade;
    match call {
      case Ask(date, openCount) => RiskRuns.AskFrame(config, s, date, openCount);
      case Trade(date, pnl, reason) => TradeByNumbers(s, pnl, date, reason);
    }
  }

  // ----- The mode and the risk of the next position -----

  /** The losses that counted when the last trade was recorded. */
  ghost function RecentAtLastTrade(s: RiskState): nat {
    match s.account.lastTradeDate
    case Some(date) => |RecentLosses(s.tradeLog, date)|
    case None => 0
  }

  ghost predicate IsDefensive(s: RiskState) {
    || FallPercent(s.overallPeakEquity, s.account.equity) >= 15.0
    || s.account.consecutiveLosses >= 4 || RecentAtLastTrade(s) >= 5
  }

  lemma ModeByNumbers(s: RiskState)
    ensures GetTradingMode(s) == Defensive <==> IsDefensive(s)
    ensures GetTradingMode(s) == Aggressive <==>
              !IsDefensive(s) && FallPercent(s.overallPeakEquity, s.account.equity) < 5.0 && s.account.consecutiveWins >= 2
  {
    hide RollingLosses, RecentLosses;
    if s.account.lastTradeDate.Some? {
      RollingIsCount(s.tradeLog, s.account.lastTradeDate.value);
    }
  }

  /** A score's factor: the number beside the highest threshold that it reaches. */
  ghost predicate IsGraded(score: Option<real>, thresholds: seq<real>, factors: seq<real>, factor: real)
    requires |factors| == |thresholds| + 1
  {
    if score.None? then factor == 1.0
    else
      exists i :: 0 <= i < |factors| && factor == factors[i]
                  && (forall j :: 0 <= j < i ==> score.value < thresholds[j])
                  && (i < |thresholds| ==> score.value >= thresholds[i])
  }

  ghost predicate IsRegimeFactor(regime: Option<DetailedRegime>, factor: real) {
    match regime
    case None => factor == 1.0
    case Some(r) =>
      factor == (match r
                 case StrongTrend => 1.2
                 case WeakTrend => 0.9
                 case Ranging => 0.7
                 case Volatile => 0.6
                 case Transitioning => 0.8)
  }

  /** Risk is halved from a drawdown of 10 percent, quartered from 20 and cut to a tenth from 30. */
  ghost predicate IsDrawdownFactor(fall: real, factor: real) {
    && (fall < 10.0 ==> factor == 1.0)
    && (10.0 <= fall < 20.0 ==> factor == 0.5)
    && (20.0 <= fall < 30.0 ==> factor == 0.25)
    && (30.0 <= fall ==> factor == 0.1)
  }

  function Scaled(risk: real, a: real, b: real, c: real): real {
    risk * a * b * c
  }

  function Times(x: real, factor: real): real {
    x * factor
  }

  function Clamped(x: real): real {
    if x < 0.5 then 0.5 else if x > 4.0 then 4.0 else x
  }

  lemma QualityIsGraded(score: Option<real>)
    ensures IsGraded(score, [75.0, 65.0, 55.0, 45.0, 35.0], [1.3, 1.15, 1.0, 0.85, 0.7, 0.5], QualityMultiplier(score))
  {
    if score.Some? {
      var factors, x := [1.3, 1.15, 1.0, 0.85, 0.7, 0.5], score.value;
      var i := if x >= 75.0 then 0 else if x >= 65.0 then 1 else if x >= 55.0 then 2 else if x >= 45.0 then 3
               else if x >= 35.0 then 4 else 5;
      assert QualityMultiplier(score) == factors[i];
    }
  }

  lemma ConfidenceIsGraded(score: Option<real>)
    ensures IsGraded(score, [70.0, 60.0, 50.0, 40.0, 30.0], [1.2, 1.1, 1.0, 0.9, 0.8, 0.7], ConfidenceMultiplier(score))
  {
    if score.Some? {
      var factors, x := [1.2, 1.1, 1.0, 0.9, 0.8, 0.7], score.value;
      var i := if x >= 70.0 then 0 else if x >= 60.0 then 1 else if x >= 50.0 then 2 else if x >= 40.0 then 3
               else if x >= 30.0 then 4 else 5;
      assert ConfidenceMultiplier(score) == factors[i];
    }
  }

  lemma FactorsAre(s: RiskState, regime: Option<DetailedRegime>)
    ensures IsRegimeFactor(regime, RegimeMultiplier(regime))
    ensures IsDrawdownFactor(FallPercent(s.overallPeakEquity, s.account.equity),
                             DdMultiplier(DdPercent(s.overallPeakEquity, s.account.equity)))
  {
    hide FallPercent, DdPercent;
    SameQuantities();
  }

  lemma ClampedIs(x: real)
    ensures Max(0.5, Min(4.0, x)) == Clamped(x)
  {
  }

  lemma ProductIs(risk: real, a: real, b: real, c: real, d: real)
    ensures BaseRisk(risk, a, b, c, d) == Times(Scaled(risk, a, b, c), d)
  {
  }

  lemma HalvedIs(s: RiskState, base: real)
    ensures DefensiveRisk(s, base) == if IsDefensive(s) && s.account.consecutiveWins < 3 then Times(base, 0.5) else base
  {
    hide IsDefensive, GetTradingMode;
    ModeByNumbers(s);
  }

  lemma EffectiveIs(config: RiskConfig, s: RiskState, quality: Option<real>, regime: Option<DetailedRegime>,
                    confidence: Option<real>)
    ensures var a, b, c := RegimeMultiplier(regime), QualityMultiplier(quality), ConfidenceMultiplier(confidence);
            var d := DdMultiplier(DdPercent(s.overallPeakEquity, s.account.equity));
            EffectiveRisk(config, s, quality, regime, confidence)
            == Clamped(if IsDefensive(s) && s.account.consecutiveWins < 3
                       then Times(Times(Scaled(config.riskPercent, a, b, c), d), 0.5)
                       else Times(Scaled(config.riskPercent, a, b, c), d))
  {
    hide RegimeMultiplier, QualityMultiplier, ConfidenceMultiplier, DdMultiplier, GetTradingMode, IsDefensive, FallPercent, DdPercent,
         Scaled, Times, Clamped, Max, Min, BaseRisk, DefensiveRisk;
    var a, b, c := RegimeMultiplier(regime), QualityMultiplier(quality), ConfidenceMultiplier(confidence);
    var d := DdMultiplier(DdPercent(s.overallPeakEquity, s.account.equity));
    var base := BaseRisk(config.riskPercent, a, b, c, d);
    ProductIs(config.riskPercent, a, b, c, d);
    HalvedIs(s, base);
    ClampedIs(DefensiveRisk(s, base));
  }

  /** The effective risk: the configured one times four factors, halved while defensive without three wins, and clamped. */
  lemma EffectiveRiskByNumbers(config: RiskConfig, s: RiskState, quality: Option<real>, regime: Option<DetailedRegime>,
                               confidence: Option<real>)
    ensures exists a, b, c, d ::
              && IsRegimeFactor(regime, a)
              && IsGraded(quality, [75.0, 65.0, 55.0, 45.0, 35.0], [1.3, 1.15, 1.0, 0.85, 0.7, 0.5], b)
              && IsGraded(confidence, [70.0, 60.0, 50.0, 40.0, 30.0], [1.2, 1.1, 1.0, 0.9, 0.8, 0.7], c)
              && IsDrawdownFactor(FallPercent(s.overallPeakEquity, s.account.equity), d)
              && EffectiveRisk(config, s, quality, regime, confidence)
                 == Clamped(if IsDefensive(s) && s.account.consecutiveWins < 3
                            then Times(Times(Scaled(config.riskPercent, a, b, c), d), 0.5)
                            else Times(Scaled(config.riskPercent, a, b, c), d))
  {
    hide IsGraded, IsRegimeFactor, IsDrawdownFactor, RegimeMultiplier, QualityMultiplier, ConfidenceMultiplier, DdMultiplier,
         EffectiveRisk, IsDefensive, FallPercent, DdPercent, Scaled, Times, Clamped;
    var a, b, c := RegimeMultiplier(regime), QualityMultiplier(quality), ConfidenceMultiplier(confidence);
    var d := DdMultiplier(DdPercent(s.overallPeakEquity, s.account.equity));
    EffectiveIs(config, s, quality, regime, confidence);
    QualityIsGraded(quality);
    ConfidenceIsGraded(confidence);
    FactorsAre(s, regime);
  }

  lemma FactorFalls(fall: real, deeper: real)
    requires fall <= deeper
    ensures DdMultiplier(deeper) <= DdMultiplier(fall)
  {
  }

  lemma ScaledIsNonNegative(risk: real, quality: Option<real>, regime: Option<DetailedRegime>, confidence: Option<real>)
    requires risk >= 0.0
    ensures Scaled(risk, RegimeMultiplier(regime), QualityMultiplier(quality), ConfidenceMultiplier(confidence)) >= 0.0
  {
    var a, b, c := RegimeMultiplier(regime), QualityMultiplier(quality), ConfidenceMultiplier(confidence);
    MulMonotone(risk, 0.0, a);
    MulMonotone(risk * a, 0.0, b);
    MulMonotone(risk * a * b, 0.0, c);
  }

  lemma DefensiveWhenDeeper(s: RiskState, equity: real)
    requires equity <= s.account.equity
    ensures FallPercent(s.overallPeakEquity, s.account.equity) <= FallPercent(s.overallPeakEquity, equity)
    ensures IsDefensive(s) ==> IsDefensive(s.(account := s.account.(equity := equity)))
  {
    hide RecentLosses;
    if s.overallPeakEquity > 0.0 {
      DivMonotone(s.overallPeakEquity - s.account.equity, s.overallPeakEquity - equity, s.overallPeakEquity);
    }
  }

  /** All else equal, less equity never raises the risk of the next position. */
  lemma RiskFallsWithEquity(config: RiskConfig, s: RiskState, equity: real, quality: Option<real>,
                            regime: Option<DetailedRegime>, confidence: Option<real>)
    requires config.riskPercent >= 0.0 && equity <= s.account.equity
    ensures EffectiveRisk(config, s.(account := s.account.(equity := equity)), quality, regime, confidence)
         <= EffectiveRisk(config, s, quality, regime, confidence)
  {
    hide RegimeMultiplier, QualityMultiplier, ConfidenceMultiplier, DdMultiplier, IsDefensive, FallPercent, DdPercent, Scaled, Times,
         Clamped, EffectiveRisk;
    var s' := s.(account := s.account.(equity := equity));
    var d, d' := DdMultiplier(DdPercent(s.overallPeakEquity, s.account.equity)), DdMultiplier(DdPercent(s.overallPeakEquity, equity));
    var k := Scaled(config.riskPercent, RegimeMultiplier(regime), QualityMultiplier(quality), ConfidenceMultiplier(confidence));
    EffectiveIs(config, s, quality, regime, confidence);
    EffectiveIs(config, s', quality, regime, confidence);
    DefensiveWhenDeeper(s, equity);
    SameQuantities();
    FactorFalls(DdPercent(s.overallPeakEquity, s.account.equity), DdPercent(s.overallPeakEquity, equity));
    ScaledIsNonNegative(config.riskPercent, quality, regime, confidence);
    DdFactorPositive(DdPercent(s.overallPeakEquity, equity));
    LessRisk(k, d', d);
  }

  lemma LessRisk(k: real, lower: real, higher: real)
    requires k >= 0.0 && 0.0 < lower <= higher
    ensures Clamped(Times(k, lower)) <= Clamped(Times(k, higher))
    ensures Clamped(Times(Times(k, lower), 0.5)) <= Clamped(Times(Times(k, higher), 0.5))
    ensures Clamped(Times(Times(k, lower), 0.5)) <= Clamped(Times(k, higher))
  {
    MulMonotone(k, lower, higher);
    MulMonotone(k, 0.0, lower);
  }

  lemma DdFactorPositive(fall: real)
    ensures DdMultiplier(fall) > 0.0
  {
  }

  // ----- The lot -----

  function Clamp(x: real, low: real, high: real): real {
    if x < low then low else if x > high then high else x
  }

  /** What one lot risks over the stop distance; a yen pair's is converted at the current price. */
  function LotRisk(config: RiskConfig, slPoints: real, price: Option<real>): real {
    match price
    case Some(p) =>
      if config.quotedInYen && p != 0.0 then slPoints * config.lotSizeUnits / p else slPoints * config.lotSizeUnits
    case None => slPoints * config.lotSizeUnits
  }

  /** The lot whose risk is `percent` of the balance. */
  function IdealOf(balance: real, percent: real, lotRisk: real): real
    requires lotRisk != 0.0
  {
    balance * (percent / 100.0) / lotRisk
  }

  lemma LotRiskIs(config: RiskConfig, slPoints: real, price: Option<real>)
    ensures UsdPerLot(config, slPoints, price) == LotRisk(config, slPoints, price)
  {
  }

  /** The lot that risks the effective share of the balance, between 0.01 and 1 and to the hundredth; or none. */
  lemma LotByNumbers(config: RiskConfig, s: RiskState, slPoints: real, quality: Option<real>, regime: Option<DetailedRegime>,
                     confidence: Option<real>, price: Option<real>)
    requires s.account.balance > 0.0 && LotRisk(config, slPoints, price) > 0.0
    ensures UsdPerLot(config, slPoints, price) > 0.0
    ensures var lot := CalculateLotSize(config, s, slPoints, quality, regime, confidence, price);
            var ideal := IdealOf(s.account.balance, EffectiveRisk(config, s, quality, regime, confidence),
                                 LotRisk(config, slPoints, price));
            lot == 0.0 || IsRounded(lot, Clamp(ideal, 0.01, 1.0), 100.0)
  {
    hide EffectiveRisk, IsRounded, Round2, UsdPerLot, LotRisk, IdealLot, IdealOf, RoundedLot, Clamp;
    LotRiskIs(config, slPoints, price);
    var percent, lotRisk := EffectiveRisk(config, s, quality, regime, confidence), LotRisk(config, slPoints, price);
    IdealIs(s.account.balance, percent, lotRisk);
    RoundedLotIs(IdealLot(s.account.balance, percent, lotRisk));
  }

  lemma IdealIs(balance: real, percent: real, lotRisk: real)
    requires lotRisk != 0.0
    ensures IdealLot(balance, percent, lotRisk) == IdealOf(balance, percent, lotRisk)
  {
  }

  lemma RoundedLotIs(ideal: real)
    ensures IsRounded(RoundedLot(ideal), Clamp(ideal, 0.01, 1.0), 100.0)
  {
    hide Round2, IsRounded;
    Round2IsRounded(Clamp(ideal, 0.01, 1.0));
  }
}
