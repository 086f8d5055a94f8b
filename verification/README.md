# Verification of the trade lifecycle engine

This project models the trade lifecycle of the repository, the protection and bookkeeping
around it, and the fast lookups it rests on, and proves what they promise over whole runs.
`dafny verify dfyconfig.toml` checks all of it.

| module | models |
|---|---|
| `PositionSimulator`, `TrailTiers`, `PositionExits`, `ExitNumbers` | stop management of one position (breakeven, five-tier trail, target removal), exits and pnl |
| `Calendar`, `CalendarNumbers`, `RiskManagement`, `RiskRuns`, `RiskWeeks`, `RiskNumbers`, `RiskRestart`, `RiskForgetting`, `LotSizing` | the per-pair safety brake, its trading-day pauses, whole runs of it, its weekly peak, snapshots of it and what they forget, and the lot it allows |
| `LivePositionManagement`, `LiveByNumbers` | the live manager that throttles the trailed stop and survives rejections |
| `SmcOrchestration`, `SignalNumbers`, `OrchestratorRuns`, `OrchestratorCatchUp`, `OrchestratorRestart`, `OrchestratorCrashes`, `LadderExample` | the orchestrator's queue of setups, what fires and at which prices, its fire-then-commit protocol, its catch-up over H1 bars, its restarts, crashes before its state is written, and the pair the concrete runs use |
| `SimulatedBroking`, `BrokerLife`, `ParkedLimits` | the replay's broker, the life of its positions, and its parked retrace limits |
| `ReplayTimeline`, `ReplayWorlds`, `ReplayNumbers`, `ReplayLimit`, `ReplayLosses`, `ReplayEngine` | the replay's timeline and cursors, broker and orchestrator composed over whole replays, what they keep, and the loop that runs them |
| `BacktestEngine`, `BacktestNumbers`, `BacktestLife`, `BacktestDays`, `BacktestLosses`, `BacktestRisks`, `Metrics` | the bar-by-bar backtest over one list of positions, what it opens and keeps from bar to bar, what its trades can lose alone and together, and the metrics of its trades |
| `RefreshTokens`, `TokenStatements` | refresh-token rotation as interleaved steps of many clients, and the exact effect of each statement |
| `SwingPoints`, `BarSearch`, `NewsCalendar`, `AnchorLevels` | fast forms against simple ones |

Where the source updates objects in place there is a class with the same fields. Its methods
are proved equal to a specification function of its abstract value (`View()`), and the
theorems about runs are proved of those functions. Where the source computes, there are
functions and lemmas. The `...ByNumbers` and `...Exactly` lemmas pin those functions down from
outside: they state what happens from prices, times and constants alone.

Prices, lots and money are exact reals; rounding is explicit (`Math.round(x)` is
`floor(x + 0.5)`). Instants are milliseconds and dates are day numbers, UTC. Candle arrays are
strictly increasing in open time. Indicators, signal evaluators, sweep detection, structure
gates, spreads, the LLM and regime classifiers and broker replies are arbitrary inputs, so
every theorem holds whatever they return.

Where the code and its own words, or the natural reading of them, disagree, the model follows
the code; each case has a run that shows it and a theorem on when it happens:

- The snapshot comment in `risk-manager.ts:315-316` says thirty trades cover the rolling seven
  days. They need not: in the run of `RiskForgetting.RestartCanForgetLosses` a restart re-opens
  the gate, and `RiskForgetting.RestartVisibleExactlyWhen` says when one call can tell.
- A new equity high re-arms the drawdown tiers (`risk-manager.ts:277-280`), so a later, shallower
  fall can replace a running 30-day pause by a 3-day one (`RiskRuns.NewHighCanShortenDdPause`,
  `RiskRuns.DdPauseShortenedExactlyWhen`).
- `getISOWeek` counts sevens of days from 1 January, not ISO weeks, and forgets the year: a later
  year's week of the same number is measured from the old peak (`RiskWeeks.YearEndKeepsThePeak`,
  `RiskWeeks.WeekRestartsExactlyWhen`).
- The 4.4% bound of sizing holds per position. A split entry keeps the full lot for the runner
  and adds a locker (`backtest-engine.ts:385-408`), so one signal can risk more
  (`BacktestRisks.SplitRunExceedsSizedRisk`, `BacktestEngine.EntryLots`,
  `BacktestEngine.EntryRiskBound`).
- A scale-in with its stop at the parent's entry is called a free trade
  (`backtest-engine.ts:452, 524`). It enters later than its parent, and the two stopped out on one
  bar can lose together (`BacktestRisks.ScaleInCanLose`, `BacktestRisks.ScaleInIsFreeExactlyWhen`).
- `maxOpenPositions` is called a hard cap (`replay-engine.ts:29`), but the gate is asked once per
  signal: a two-leg signal that takes the last place leaves one more open
  (`ReplayLimit.LadderExceedsLimit`, `ReplayLimit.LimitExceededExactlyWhen`).
- `rotate` checks the expiry when it reads the row and not again when it commits
  (`refresh-token.service.ts:53-70`): `RefreshTokens.RotationCanCommitAfterExpiry`,
  `RefreshTokens.RotationCommitsExactlyWhen`.
- After a rejected broker call the live manager stores nothing, so the bar's peak is lost
  (`LivePositionManagement.RejectionLosesThePeak`); the live stop follows exactly the bars of the
  other rounds (`LivePositionManagement.LiveRunRefines`, `LivePositionManagement.PeakLostExactlyWhen`).
- The live manager skips broker calls for small stop changes (`live-position-manager.service.ts:194-196`),
  but it keeps a removed target in the row, so once the target is gone every bar costs a call
  (`LiveByNumbers.QuietBarCostsACall`, `LiveByNumbers.CallsExactlyWhen`).

A hard crash loses what has not been written (`live-strategy.service.ts:83-87`). That includes the
mark of a sweep just taken, which can then be taken again (`OrchestratorCrashes.CrashCommitsTwice`),
and only then (`OrchestratorCrashes.TwiceOnlyAfterLoss`).

## Model

| member | source | states |
|---|---|---|
| PositionSimulator.TrailClosedForm | src/backtest/engine/position-simulator.ts:18-143 | folding the management step over any bars from a fresh, non-range position gives one closed form of the best price seen: breakeven exactly when it reaches the threshold, the stop the better of entry plus a tenth of the risk and peak minus the tier distance, the target gone by the removal rule |
| PositionSimulator.TrailOrderIndependent | src/backtest/engine/position-simulator.ts:18-143 | any reordering of the same bars leaves the same position |
| PositionSimulator.SellMirrorsBuy | src/backtest/engine/position-simulator.ts:18-111 | managing the price mirror of a position over mirrored bars is the mirror of managing it: SELL is BUY upside down |
| PositionSimulator.TrailTightens | src/backtest/engine/position-simulator.ts:118-143 | a better best price never widens the trail distance and never loosens the locked-in move, across all five tiers |
| PositionSimulator.TierFactorNonIncreasing | src/backtest/engine/position-simulator.ts:118-143 | the tier factor lies between 0 and 1 and never grows with the favourable move |
| PositionSimulator.FirstStep | src/backtest/engine/position-simulator.ts:18-111 | the first management step of a fresh position is already the closed form of its best move |
| PositionSimulator.NextStep | src/backtest/engine/position-simulator.ts:18-111 | one more step on the closed form of a move is the closed form of the larger of the two moves |
| PositionSimulator.MirrorStep | src/backtest/engine/position-simulator.ts:18-111 | one management step commutes with mirroring prices |
| PositionSimulator.BestMove | src/backtest/engine/position-simulator.ts:34-45 | the best move is at least every bar's move and the starting one, and is attained by one of them |
| TrailTiers.TrailByNumbers | src/backtest/engine/position-simulator.ts:18-143 | after any bars from a manageable position, in numbers and without the simulator's own functions: the peak is the best close price of the side; breakeven is on exactly from beThresholdR risks; the stop locks in the larger of a tenth of the risk and the best gain less k widths of the risk, k being 1, 0.6+0.15t, 0.5+0.1t, 0.4+0.1t, 0.3+0.1t from 0, 2, 3, 4 and 5 risks in a trend and 1, 0.6+0.1t, 0.5+0.1t, 0.4+0.1t from 0, 1.5, 2 and 3 risks in a gap; the target goes exactly from tpRemovalR risks |
| TrailTiers.FactorIsTier | src/backtest/engine/position-simulator.ts:118-143 | the tiers of a trend and of a gap, threshold by threshold |
| PositionExits.LifetimeLossBound | src/backtest/engine/position-simulator.ts:148-219 | after any management of a position opened with stop and target on their proper sides, no stop, target or breakeven exit loses more than the initial risk, a stop-out after breakeven earns a tenth of it, a target never loses: before commission, within half a cent |
| PositionExits.ExitBounds | src/backtest/engine/position-simulator.ts:148-219 | the same bounds for one exit check from the facts that hold of its stop and target |
| PositionExits.ManagedStop | src/backtest/engine/position-simulator.ts:18-111 | after any bars the stop is the original one before breakeven, or locks in at least a tenth of the risk after it; the target is the original one or gone |
| PositionExits.RangeUnmanaged | src/backtest/engine/position-simulator.ts:24-26 | range-engine positions are never managed |
| PositionExits.PnlAtLeast | src/backtest/engine/position-simulator.ts:265-284 | an exit at k times the risk books at least k times the money at risk less commission and half a cent of rounding |
| ExitNumbers.ExitByNumbers | src/backtest/engine/position-simulator.ts:148-219 | a bar closes a position exactly when its bid or ask reaches the stop or the target; a bar that reaches both pays the target once breakeven is on and the stop before; price, time, commission, reason and money of each exit |
| ExitNumbers.PnlByNumbers | src/backtest/engine/position-simulator.ts:265-284 | the pnl is the gain times lot and units, divided by the exit price for a yen pair, less commission, to the nearest cent |
| ExitNumbers.ForcedByNumbers | src/backtest/engine/position-simulator.ts:221-262 | a forced close books the given price and the same money |
| ExitNumbers.BrokerPnlByNumbers | src/backtest/live-replay/simulated-broker.ts:330-347 | the replay's broker books the same money without commission |
| ExitNumbers.LegByNumbers | src/backtest/live-replay/simulated-broker.ts:234-281 | a filled leg has the order's side, stop and price, its own target, the trail of its tag, and its lot scaled to the hundredth |
| ExitNumbers.ParkedByNumbers | src/backtest/live-replay/simulated-broker.ts:191-212 | a parked limit lies the fraction of the stop distance back towards the stop, and scales the lots up by the inverse of what is left |
| Calendar.ComputeAddTradingDays | src/backtest/engine/risk-manager.ts:439-448 | the day-by-day loop returns the day after passing the given number of weekdays, and terminates |
| Calendar.PauseIsExact | src/backtest/engine/risk-manager.ts:439-448 | for n >= 1 the pause ends on a weekday after its start with exactly n weekdays in between, the end included |
| Calendar.PauseMonotone | src/backtest/engine/risk-manager.ts:439-448 | a pause that starts no earlier and lasts no fewer trading days ends no earlier |
| Calendar.PauseSpan | src/backtest/engine/risk-manager.ts:439-448 | n trading days span at most n + 2*ceil(n/5) calendar days |
| Calendar.PauseSplits | src/backtest/engine/risk-manager.ts:439-448 | pausing n + m trading days is pausing n and then m |
| CalendarNumbers.PauseByNumbers | src/backtest/engine/risk-manager.ts:439-448 | a pause of n trading days ends on a day that is no Saturday or Sunday, with exactly n such days after its start up to its end |
| CalendarNumbers.WeekByNumbers | src/backtest/engine/risk-manager.ts:432-437 | the first seven days of any year from 1970 on are week 1, the next seven week 2, and so on, leap years included |
| RiskManagement.RiskManager.constructor | src/backtest/engine/risk-manager.ts:60-73 | a fresh manager has the initial balance as balance, equity and both peaks, and no pause or brake set |
| RiskManagement.RiskManager.MayTrade | src/backtest/engine/risk-manager.ts:75-119 | the in-place gate returns the answer of the specification function and leaves its state: kill switch, resets, weekly and drawdown pauses, rolling losses, streak pause, daily loss, position limit, in that order |
| RiskManagement.RiskManager.PassRollingGates | src/backtest/engine/risk-manager.ts:93-104 | the rolling-loss and streak-pause part of the gate, with the state it leaves |
| RiskManagement.RiskManager.PassLossGates | src/backtest/engine/risk-manager.ts:106-118 | the daily-loss, losing-streak and position-count part of the gate, with the state it leaves |
| RiskManagement.RiskManager.MaybeResetDaily | src/backtest/engine/risk-manager.ts:415-422 | the daily result is cleared exactly when the last trade was on another day |
| RiskManagement.RiskManager.MaybeResetWeekly | src/backtest/engine/risk-manager.ts:424-430 | a new week number takes the equity as the week's peak |
| RiskManagement.RiskManager.Record | src/backtest/engine/risk-manager.ts:248-309 | recording a trade resets, books, raises the peaks and sets the brakes, in that order |
| RiskManagement.RiskManager.BookTrade | src/backtest/engine/risk-manager.ts:252-272 | the money, the trade log and the win and loss streaks after one trade |
| RiskManagement.RiskManager.RaisePeakEquity | src/backtest/engine/risk-manager.ts:274-280 | both peaks are raised and a new all-time high re-arms the drawdown tiers |
| RiskManagement.RiskManager.SetBrakes | src/backtest/engine/risk-manager.ts:282-306 | the kill switch, the drawdown tier and the weekly pause after one trade |
| RiskManagement.RiskManager.TriggerTiers | src/backtest/engine/risk-manager.ts:288-301 | the highest newly reached tier alone triggers its pause; 40% trips the kill switch |
| RiskManagement.RiskManager.Restore | src/backtest/engine/risk-manager.ts:346-364 | restoring takes every field from the snapshot, with the source's default for each one that is missing, from any state before |
| RiskManagement.RiskManager.TakeOver | src/backtest/engine/risk-manager.ts:318-364 | a new manager that restores what the old one saved has its state, up to the trades before the last thirty |
| RiskManagement.OldestSnapshot | src/backtest/engine/risk-manager.ts:346-364 | what a snapshot that lacks every field restores to: the money and peaks the manager was built with, no streak, no log, no tier, not killed |
| RiskManagement.SnapshotRoundTrip | src/backtest/engine/risk-manager.ts:318-364 | any manager that restores a full snapshot is in the snapshot's state, up to the trades before the last thirty |
| RiskRuns.RiskRunInvariant | src/backtest/engine/risk-manager.ts:75-309 | over any calls in date order: balance = equity = initial + logged pnl; equity <= weekly peak <= overall peak = running maximum; the daily result is the logged pnl of the day; the tier is that of the deepest fall since the peak; killed exactly when some trade left the balance 40% or more below its peak |
| RiskRuns.KilledForever | src/backtest/engine/risk-manager.ts:77-77 | once tripped the kill switch stays tripped and the gate answers no for ever |
| RiskRuns.WeeklyPauseNeverMovesEarlier | src/backtest/engine/risk-manager.ts:303-306 | no later call lifts the weekly pause or moves its end earlier |
| RiskRuns.DdPauseNeverShortened | src/backtest/engine/risk-manager.ts:292-301 | once a tier has triggered since the last equity high, a trade that makes no new high only raises the tier and never shortens the drawdown pause |
| RiskRuns.DdPauseShortenedExactlyWhen | src/backtest/engine/risk-manager.ts:277-301 | over any run in date order, a trade shortens a running drawdown pause if and only if no tier has triggered since the last high, the trade makes no new high, and the pause of the tier it reaches ends earlier |
| RiskRuns.NewHighCanShortenDdPause | src/backtest/engine/risk-manager.ts:277-301 | a new high re-arms the tiers: a concrete run replaces a 30-day pause by a 3-day one |
| RiskRuns.ThreeDaysEndBeforeThirty | src/backtest/engine/risk-manager.ts:439-448 | that shorter pause really ends earlier |
| RiskRuns.AskFrame | src/backtest/engine/risk-manager.ts:75-119 | asking the gate never books money and never touches the log, the overall peak, the tier, the weekly pause or the kill switch; it re-bases the weekly peak exactly on a new week number |
| RiskRuns.TradeFrame | src/backtest/engine/risk-manager.ts:248-309 | what one trade changes, part by part: money, peaks, kill switch, tier, pauses, last date |
| RiskRuns.GateFacts | src/backtest/engine/risk-manager.ts:75-119 | the gate only says yes below the position limit and never moves the balance |
| RiskWeeks.WeeklyPeakIsStretchHigh | src/backtest/engine/risk-manager.ts:274-276 | over any run in date order that is not killed, the weekly peak is the highest balance since just before the first of the last calls with equal week numbers |
| RiskWeeks.WeekRestartsExactlyWhen | src/backtest/engine/risk-manager.ts:424-430 | the next gate call measures the week from the day's equity if and only if the week number has changed since the last call, or the two are equal anyway |
| RiskWeeks.YearEndKeepsThePeak | src/backtest/engine/risk-manager.ts:424-437 | a run whose second year pauses the pair for a fall from the first year's weekly peak, although the week's own fall is below the threshold |
| RiskWeeks.WeekOfRun | src/backtest/engine/risk-manager.ts:424-430 | while not killed the stored week number is that of the last call |
| RiskNumbers.GateByNumbers | src/backtest/engine/risk-manager.ts:75-119 | the gate answers yes if and only if: not killed; no weekly, drawdown, rolling or streak pause running; fewer than four logged losses of the last seven days; the day's result above the loss limit; the streak short or its pause served; and fewer positions than the limit |
| RiskNumbers.RollingPauseByNumbers | src/backtest/engine/risk-manager.ts:93-98 | four recent losses pause the pair for five trading days, and nothing else sets that pause |
| RiskNumbers.StreakPauseByNumbers | src/backtest/engine/risk-manager.ts:100-116 | a streak at its limit pauses the pair for one trading day, one above it for three, two or more above it for five; a served pause is lifted |
| RiskNumbers.TradeByNumbers | src/backtest/engine/risk-manager.ts:248-309 | one trade, in numbers: money, day, log and streaks; peaks; killed from a fall of 40 percent; tiers of 15, 25 and 35 percent with pauses of 3, 7 and 30 trading days, each once per high; a weekly fall of 8 percent pauses for five |
| RiskNumbers.StreakIsCount | src/backtest/engine/risk-manager.ts:252-272 | over any run the losing streak is the number of losing trades since the last target or breakeven exit |
| RiskNumbers.RollingIsCount | src/backtest/engine/risk-manager.ts:385-391 | the rolling count is the number of logged losses at most seven days older |
| RiskNumbers.ModeByNumbers | src/backtest/engine/risk-manager.ts:389-408 | defensive exactly from a drawdown of 15 percent, four losses in a row or five recent ones; aggressive exactly below 5 percent with two wins and not defensive |
| LotSizing.EffectiveRisk | src/backtest/engine/risk-manager.ts:137-165 | the effective risk lies between 0.5% and 4% whatever the multipliers |
| LotSizing.LotIsBounded | src/backtest/engine/risk-manager.ts:167-188 | the lot is 0 or a hundredth from 0.01 to 1.00 that risks at most 1.10 times the effective risk |
| LotSizing.SkippedExactlyWhen | src/backtest/engine/risk-manager.ts:177-186 | a trade is skipped if and only if rounding the clamped ideal lot overshoots the ideal lot by more than a tenth |
| LotSizing.LargeLotsAreKept | src/backtest/engine/risk-manager.ts:174-188 | from an ideal lot of 0.05 on, no trade is skipped and the lot is within 0.005 of the ideal capped at 1.00 |
| LotSizing.SizedRiskIsBounded | src/backtest/engine/risk-manager.ts:130-189 | the sized position risks at most 4.4% of the balance, for every regime, quality and confidence |
| LotSizing.SizedLifetimeLoss | src/backtest/engine/risk-manager.ts:130-189 | from sizing to the last exit: a position sized on its own stop distance never books a stop, target or breakeven exit beyond 4.4% of that balance, before commission and within half a cent |
| RiskNumbers.EffectiveRiskByNumbers | src/backtest/engine/risk-manager.ts:137-165 | the effective risk is the configured one times the tabled regime, quality, confidence and drawdown factors, halved while defensive without three wins, and clamped to 0.5 and 4 |
| RiskNumbers.RiskFallsWithEquity | src/backtest/engine/risk-manager.ts:152-165 | all else equal, less equity never raises the risk of the next position |
| RiskNumbers.LotByNumbers | src/backtest/engine/risk-manager.ts:167-188 | the lot is none, or the one whose risk over the stop distance is the effective share of the balance, clamped to 0.01 and 1 and to the hundredth, a yen pair's risk being converted at the price |
| RiskRestart.CanTradeIgnoresOlder | src/backtest/engine/risk-manager.ts:75-119 | the gate gives the same answer, and leaves the same state, with or without trades at the front of the log whose losses are out of the seven-day window |
| RiskRestart.RecordIgnoresOlder | src/backtest/engine/risk-manager.ts:248-309 | recording a trade commutes with having more trades at the front of the log |
| RiskRestart.SnapshotPlusDropped | src/backtest/engine/risk-manager.ts:318-338 | a state is its snapshot with the dropped trades put back in front |
| RiskRestart.OlderUncounted | src/backtest/engine/risk-manager.ts:385-391 | losses out of the window do not count |
| RiskForgetting.RestartVisibleExactlyWhen | src/backtest/engine/risk-manager.ts:93-98 | for any state, one gate call answers the same through a restart, and leaves the same state up to dropped trades, if and only if it does not reach the rolling gate or the kept tail closes it as the whole log does |
| RiskForgetting.RestartCanForgetLosses | src/backtest/engine/risk-manager.ts:318-338 | a run of the risk manager: three losses, twenty-nine wins, one loss on one day, the gate open before each; after it the original pauses and the restarted manager may trade |
| SmcOrchestration.FirstAfter | src/strategy/live/live-smc-orchestrator.ts:869-879 | the first bar after a time, or the last usable one when there is none, with no later bar skipped |
| SmcOrchestration.LiveSmcOrchestrator.FindH1IdxAfter | src/strategy/live/live-smc-orchestrator.ts:869-879 | the search loop returns that index |
| SmcOrchestration.LiveSmcOrchestrator.GetOrCreateState | src/strategy/live/live-smc-orchestrator.ts:881-894 | a symbol not yet seen gets a fresh state; every other symbol is untouched |
| SmcOrchestration.LiveSmcOrchestrator.CatchUpH1 | src/strategy/live/live-smc-orchestrator.ts:337-374 | the catch-up loop queues what each unprocessed bar yields, in bar order, and marks the last usable bar as processed |
| SmcOrchestration.LiveSmcOrchestrator.Refresh | src/strategy/live/live-smc-orchestrator.ts:337-379 | catch-up, then expiry: the queue the gates see |
| SmcOrchestration.LiveSmcOrchestrator.FireIfAllowed | src/strategy/live/live-smc-orchestrator.ts:381-412 | the gates in order: cooldown counts down and stops, then news, killzone, weekday and the risk gate, then the scan |
| SmcOrchestration.LiveSmcOrchestrator.ScanPending | src/strategy/live/live-smc-orchestrator.ts:414-772 | the backward splicing loop leaves the queue, and returns the signal, of the recursive scan |
| SmcOrchestration.LiveSmcOrchestrator.EvaluateClose | src/strategy/live/live-smc-orchestrator.ts:250-773 | one close on one symbol is the specification's step, and no other symbol changes |
| SmcOrchestration.LiveSmcOrchestrator.CommitEntry | src/strategy/live/live-smc-orchestrator.ts:794-799 | committing removes the sweep's setups, marks the sweep and starts a one-bar cooldown, for this symbol only |
| SmcOrchestration.LiveSmcOrchestrator.CommitExit | src/strategy/live/live-smc-orchestrator.ts:809-832 | an exit extends the cooldown by its reason, never shortens it, and books its pnl with the risk manager when given |
| SmcOrchestration.LiveSmcOrchestrator.Restore | src/strategy/live/live-smc-orchestrator.ts:154-184 | each symbol of the snapshot, full or of an older version, has its restored state with the source's defaults and without setups that lack a sweep time; every other symbol starts afresh, whatever it was before |
| SmcOrchestration.LiveSmcOrchestrator.TakeOver | src/strategy/live/live-smc-orchestrator.ts:140-184 | a new process that restores what the old one saved has each saved symbol's reloaded state, and every other symbol afresh |
| SmcOrchestration.ReloadedMeaning | src/strategy/live/live-smc-orchestrator.ts:140-184 | saving and restoring keeps a symbol's state but for setups and marks without a sweep time and the oldest trades of the risk log |
| SmcOrchestration.OlderSnapshot | src/strategy/live/live-smc-orchestrator.ts:154-184 | a snapshot without brake or cooldown restores to a fresh brake and no cooldown, its marks intact |
| SmcOrchestration.LiveSmcOrchestrator.Reset | src/strategy/live/live-smc-orchestrator.ts:115-117 | a reset symbol starts afresh and no other changes |
| OrchestratorRuns.ScanMeaning | src/strategy/live/live-smc-orchestrator.ts:414-772 | the loop that splices while walking backwards offers the newest setup that fires and drops only behind it |
| OrchestratorRuns.AfterScanMembers | src/strategy/live/live-smc-orchestrator.ts:417-506 | what the scan removes was to be dropped, what it offers stays queued, and it offers exactly when something fires |
| OrchestratorRuns.FiredSignal | src/strategy/live/live-smc-orchestrator.ts:417-757 | a fired signal is for a sweep not yet taken, on a side with nothing open, its unrounded stop strictly on the protective side and the rounded one never beyond the rounded entry; it has one leg, or two for a ladder, each of at least 0.01 |
| SignalNumbers.JudgedByNumbers | src/strategy/live/live-smc-orchestrator.ts:417-757 | a setup fires, is dropped or is kept exactly by the stated conditions on sides, marks, stop distance, gates and lot; a fired signal is priced from the ask or bid of the last close, its stop one buffer beyond the wick or the sweep candle's end, its last target tp2R distances and a partial's tp1R from the entry, its lots the rounded share and the rounded rest, at least 0.01, all prices rounded to the pair's precision |
| SignalNumbers.OfferByNumbers | src/strategy/live/live-smc-orchestrator.ts:381-772 | a close offers a signal if and only if no cooldown runs, the hour, weekday and news allow it, the gate is open and some queued setup can fire; it is that of the newest such setup |
| SignalNumbers.QueueByNumbers | src/strategy/live/live-smc-orchestrator.ts:337-379 | the queue the gates see is exactly what was queued or has just been found and admitted, and has not expired |
| SignalNumbers.HoursByNumbers | src/strategy/live/live-smc-orchestrator.ts:383-405 | entries are allowed exactly in a killzone hour of the UTC day, on a weekday that is not skipped, and without news |
| SignalNumbers.CommitByNumbers | src/strategy/live/live-smc-orchestrator.ts:794-799 | a commit removes exactly the sweep's setups, sets exactly its mark and starts a wait of one bar |
| SignalNumbers.ExitByNumbers | src/strategy/live/live-smc-orchestrator.ts:809-832 | an exit makes entries wait two bars after a target, the pair's number after a stop and one otherwise, never fewer than before |
| SignalNumbers.CooldownHolds | src/strategy/live/live-smc-orchestrator.ts:381-386 | over any run of n closes within a cooldown nothing is offered and exactly n bars of it pass |
| SignalNumbers.NewestIsOffered | src/strategy/live/live-smc-orchestrator.ts:414-772 | of the setups that can fire, the one queued last is offered |
| OrchestratorRuns.OffersExactlyWhen | src/strategy/live/live-smc-orchestrator.ts:381-772 | a close offers a signal if and only if the gates are open and some queued, unexpired setup fires: a setup whose order failed is offered again as soon as it fires again |
| OrchestratorRuns.RefreshedMembers | src/strategy/live/live-smc-orchestrator.ts:337-379 | catch-up and expiry only add what detection found in the catch-up range and only remove what has expired |
| OrchestratorRuns.LeavesOnlyBy | src/strategy/live/live-smc-orchestrator.ts:376-506 | a setup leaves the queue only by commit, expiry, a drop verdict (dedup, zero, wrong-side or too-wide stop) or, without a sweep time, at a restart |
| OrchestratorRuns.NoSweepCommittedTwice | src/strategy/live/live-smc-orchestrator.ts:428-431 | in every run of closes, commits, exits and restarts no sweep with a time is committed twice, and none that has been committed is offered |
| OrchestratorRuns.UncommittedStaysQueued | src/strategy/live/live-smc-orchestrator.ts:759-799 | in every run a signal that was offered and not committed is still queued, through exits and restarts |
| OrchestratorCrashes.TwiceOnlyAfterLoss | src/strategy/live/live-strategy.service.ts:160-191 | with a state that is serialized and written later, and crashes at any time: a sweep is committed twice only if the process crashed, between the two commits, before a serialization taken after the first had been written |
| OrchestratorCrashes.RememberedUnlessLost | src/strategy/live/live-strategy.service.ts:160-191 | a committed sweep stays marked in memory, and in what has been written of it, until such a crash |
| OrchestratorCrashes.CrashCommitsTwice | src/strategy/live/live-strategy.service.ts:160-191 | a run that commits the same sweep before and after a crash with nothing written |
| OrchestratorCatchUp.CatchUpCoversEachBarOnce | src/strategy/live/live-smc-orchestrator.ts:337-374 | over any closes on non-shrinking prefixes, however they jump, the bars considered are the contiguous range from the first one considered to the last whose successor has closed, in order |
| OrchestratorCatchUp.IndicesMeaning | src/strategy/live/live-smc-orchestrator.ts:344-344 | such a range holds each index once |
| OrchestratorCatchUp.ResumesBehind | src/strategy/live/live-smc-orchestrator.ts:339-342 | catch-up resumes right behind the bar processed last |
| OrchestratorCatchUp.FoundIsQueued | src/strategy/live/live-smc-orchestrator.ts:345-371 | every admissible sweep found on a considered bar is queued |
| OrchestratorRestart.RestartIsInvisible | src/strategy/live/live-smc-orchestrator.ts:140-184 | restarting now or never makes no difference to any later run: same signals, commits and state up to the oldest trades of the log, when setups have sweep times, no later call is dated before a day, and the losses the snapshot drops are more than seven days older than it |
| OrchestratorRestart.StepAlike | src/strategy/live/live-smc-orchestrator.ts:140-184 | every event keeps two states alike that differ only in out-of-window trades |
| LivePositionManagement.LivePositionManager.ManageOpenTrade | src/strategy/live/live-position-manager.service.ts:162-225 | one trade: unchanged positions are skipped, small changes are stored without a call, a rejected call changes nothing, an accepted one moves the broker and then the row |
| LivePositionManagement.LivePositionManager.ManageSymbol | src/strategy/live/live-position-manager.service.ts:138-226 | one round updates exactly the open trades of the symbol whose position the broker holds, each as if alone, and nothing without a bar |
| LivePositionManagement.LiveRunRefines | src/strategy/live/live-position-manager.service.ts:154-225 | over any bars and any mix of acceptances and rejections the stored best price is exactly the best of the rounds that were not rejected, breakeven is stored exactly when they reach it, and the broker's stop is never tighter than the ideal one for that price and lags it by less than the throttle |
| LivePositionManagement.PeakLostExactlyWhen | src/strategy/live/live-position-manager.service.ts:184-224 | the stored best price is below the best price seen if and only if some bar beats every bar of the rounds that were not rejected |
| LivePositionManagement.LiveStopNeverLoosens | src/strategy/live/live-position-manager.service.ts:197-215 | round by round the broker's stop never loosens |
| LivePositionManagement.ThrottledStopRefinesIdeal | src/strategy/live/live-position-manager.service.ts:266-337 | the live stop is never tighter than the simulator's for the same bars, and always within the throttle of the simulator's for the bars of the rounds that were not rejected |
| LivePositionManagement.AcceptedKeepsAll | src/strategy/live/live-position-manager.service.ts:184-224 | with every call accepted no bar is lost, so the bound is against the simulator on all bars |
| LivePositionManagement.RejectionLosesThePeak | src/strategy/live/live-position-manager.service.ts:184-224 | a two-round run with one rejection after which the simulator's stop is 1.1 times the risk ahead, however small the throttle |
| LivePositionManagement.RoundKeepsTracking | src/strategy/live/live-position-manager.service.ts:184-224 | one round keeps the tracking relation: a rejected one leaves row and broker alone, any other stores the larger of the two moves and never loosens the stop |
| LiveByNumbers.LiveRunByNumbers | src/strategy/live/live-position-manager.service.ts:154-225 | from row, broker and bars alone: with m the best gain of the rounds not rejected, breakeven is stored exactly from 0.6 risks for a TP1 trade, by its key or else its tags, and from 1.5 for any other; before it the broker holds the original stop; after it the stop locks in at most the larger of a tenth of the risk and m less its tier's share, and less than the throttle below that |
| LiveByNumbers.LiveTargetByNumbers | src/strategy/live/live-position-manager.service.ts:184-224 | a TP1 trade never loses its target; any other loses the broker's target exactly when it has kept three risks; until then the target in force stays; the row keeps its own |
| LiveByNumbers.AcceptedRunByNumbers | src/strategy/live/live-position-manager.service.ts:184-224 | with every call accepted, breakeven and target follow all bars |
| LiveByNumbers.CallsExactlyWhen | src/strategy/live/live-position-manager.service.ts:190-215 | the next bar costs a call to the broker if and only if the stop moves by the throttle or the target is lost |
| LiveByNumbers.QuietBarCostsACall | src/strategy/live/live-position-manager.service.ts:190-215 | a run in which a bar that does nothing costs a call, however large the throttle: the target was lost before and is stored again |
| LiveByNumbers.PositionOfRow | src/strategy/live/live-position-manager.service.ts:162-183 | a fresh row stands for a position the trail can manage, with the numbers of its leg |
| LiveByNumbers.RowByNumbers | src/strategy/live/live-position-manager.service.ts:159-183 | the position any row stands for, field by field: the stored state first, then the row, and the broker's stop and target when set |
| SimulatedBroking.SimulatedBroker.constructor | src/backtest/live-replay/simulated-broker.ts:92-100 | a fresh broker has the initial balance and nothing open, closed or parked |
| SimulatedBroking.SimulatedBroker.TotalOpenCount | src/backtest/live-replay/simulated-broker.ts:305-309 | the count over all symbols is the number of open ids |
| SimulatedBroking.SimulatedBroker.OpenLeg | src/backtest/live-replay/simulated-broker.ts:244-278 | a leg opens one position under a new id, at the end of its symbol's list |
| SimulatedBroking.SimulatedBroker.Fill | src/backtest/live-replay/simulated-broker.ts:234-282 | an order opens its legs in order and then raises the high-water mark |
| SimulatedBroking.SimulatedBroker.ProcessLimits | src/backtest/live-replay/simulated-broker.ts:214-232 | touched limits fill in order, the others count down and those at zero are gone |
| SimulatedBroking.SimulatedBroker.Close | src/backtest/live-replay/simulated-broker.ts:330-347 | closing books the rounded pnl and appends the trade |
| SimulatedBroking.SimulatedBroker.CloseIfHit | src/backtest/live-replay/simulated-broker.ts:156-175 | the stop is tested before the target, and the target not at all on the bar of the fill |
| SimulatedBroking.SimulatedBroker.CloseHit | src/backtest/live-replay/simulated-broker.ts:152-176 | one pass over the managed positions splits them into those that stay and those that close |
| SimulatedBroking.SimulatedBroker.ProcessBar | src/backtest/live-replay/simulated-broker.ts:116-184 | a bar is parked limits, then management, then exits; what it returns is what it appended to the closed list |
| SimulatedBroking.SimulatedBroker.PlaceSignal | src/backtest/live-replay/simulated-broker.ts:191-212 | market orders open one position per leg under consecutive ids, retrace orders are parked and open none |
| SimulatedBroking.SimulatedBroker.CloseEverything | src/backtest/live-replay/simulated-broker.ts:287-295 | flushing closes every position of the symbol at the given price |
| SimulatedBroking.BrokerConserves | src/backtest/live-replay/simulated-broker.ts:86-347 | in every run the balance is the initial one plus booked pnl, ids open and closed are exactly those handed out, and maxConcurrent is the largest count ever open |
| SimulatedBroking.OpenXorClosed | src/backtest/live-replay/simulated-broker.ts:116-184 | each id handed out is open or closed and never both, and no other id is anywhere |
| SimulatedBroking.SettleConserves | src/backtest/live-replay/simulated-broker.ts:152-182 | settling a symbol conserves whenever its list was split into what stays and what is booked |
| SimulatedBroking.SplitIds | src/backtest/live-replay/simulated-broker.ts:155-176 | what a pass keeps and what it closes are the list, split |
| SimulatedBroking.OpenLegsConserve | src/backtest/live-replay/simulated-broker.ts:241-281 | opening legs adds exactly their ids, and the count only rises on the way |
| BrokerLife.PositionsAreTheirLives | src/backtest/live-replay/simulated-broker.ts:116-184 | after any calls the position open or closed under an id is the leg filled under it, managed over the bars of its symbol from its fill to its close, save the bar of the fill |
| BrokerLife.OpenPositionByNumbers | src/backtest/live-replay/simulated-broker.ts:116-184 | so its stop, breakeven and target follow in numbers from its best gain since the fill |
| BrokerLife.OrderPlacedByNumbers | src/backtest/live-replay/simulated-broker.ts:191-212 | a market order fills its legs behind what is open, under consecutive ids, at its price and with their own lots; a retrace order only parks |
| BrokerLife.LimitFilledByNumbers | src/backtest/live-replay/simulated-broker.ts:214-232 | a limit fills its legs, scaled, at the limit price exactly when the bar comes down or up to it |
| ParkedLimits.LimitFate | src/backtest/live-replay/simulated-broker.ts:214-232 | a limit with n >= 1 bars left fills on the first of its next n bars that touches it and on no other; untouched, it is gone after the nth |
| ParkedLimits.LimitsAreIndependent | src/backtest/live-replay/simulated-broker.ts:214-232 | two parts of a list of limits age, fill and expire as if the other were not there |
| ParkedLimits.BarHandlesLimits | src/backtest/live-replay/simulated-broker.ts:214-232 | a bar fills exactly the touched limits of its symbol, parks exactly the remaining ones, and leaves other symbols' limits alone |
| ParkedLimits.PositionOnBar | src/backtest/live-replay/simulated-broker.ts:116-184 | an open position is updated by the bar unless it was filled on it, then stopped out when the bar's low or high reaches its stop, or else paid when it reaches its target and was not filled on it, or else stays open; with the booked trade |
| ParkedLimits.FilledOnThisBar | src/backtest/live-replay/simulated-broker.ts:123-166 | a position filled on this very bar is neither trailed nor paid at its target: it is stopped out at its original stop or stays open unchanged |
| ParkedLimits.ParkedRiskMatchesMarket | src/backtest/live-replay/simulated-broker.ts:191-250 | a filled parked leg risks what the market entry would have, up to half a hundredth of a lot times the shrunken stop distance and the units |
| ReplayTimeline.TimelineIsSorted | src/backtest/live-replay/replay-engine.ts:313-328 | the timeline holds exactly the collected events, in time order |
| ReplayTimeline.TimelineIsStable | src/backtest/live-replay/replay-engine.ts:313-328 | events of one time keep the order in which they were collected |
| ReplayTimeline.TimelineMembers | src/backtest/live-replay/replay-engine.ts:313-328 | an event is on the timeline if and only if it is a bar of a pair inside the window |
| ReplayTimeline.Advance | src/backtest/live-replay/replay-engine.ts:174-185 | the cursor loop stops at exactly the bars that have opened, or closed, by the event |
| ReplayTimeline.LastVisibleIsTheEvents | src/backtest/live-replay/replay-engine.ts:168-177 | the last visible M15 bar at an event is the event's own |
| ReplayEngine.ReplayRun.AdvanceCursors | src/backtest/live-replay/replay-engine.ts:168-185 | moving one pair's cursors makes visible exactly the M15 bars opened by the event and the H1 and D1 bars closed by one millisecond after it |
| ReplayEngine.ReplayRun.HandleEvent | src/backtest/live-replay/replay-engine.ts:187-272 | an event is the exits of its bar, each told to the orchestrator, and then, with thirty M15 and thirty H1 bars visible, the orchestrator's close, its order and its commit |
| ReplayEngine.ReplayRun.ProcessExits | src/backtest/live-replay/replay-engine.ts:187-201 | the broker's bar, and every exit reported to the pair's orchestrator state and to no other |
| ReplayEngine.ReplayRun.EvaluateEvent | src/backtest/live-replay/replay-engine.ts:206-272 | the orchestrator sees exactly the visible bars, the sides open on the pair and the count over all pairs; a signal is ordered and committed |
| ReplayEngine.ReplayRun.PlaceSignalled | src/backtest/live-replay/replay-engine.ts:258-272 | the order of a signal, and its commit exactly when a leg was filled or a limit parked |
| ReplayWorlds.ReplayStaysInStep | src/backtest/live-replay/replay-engine.ts:157-277 | at every event of a replay, whatever the detectors answer: the shared money is conserved, each pair's brake has logged and booked exactly the exits of its pair, in order, and counts their losing streak, no sweep of a pair is ordered twice, and in market mode at most one position more than the limit is open over all pairs and each side of a pair holds the legs of one signal |
| ReplayWorlds.AccountIsTheBrakes | src/backtest/live-replay/replay-engine.ts:187-201 | at every event the shared account has gained exactly what the brakes of all pairs have booked together |
| ReplayWorlds.EvaluatedKeeps | src/backtest/live-replay/replay-engine.ts:206-272 | one close with its order and commit keeps all of that |
| ReplayWorlds.BarKeeps | src/backtest/live-replay/replay-engine.ts:187-201 | one bar with its exits keeps all of that |
| ReplayWorlds.ToldWaits | src/backtest/live-replay/replay-engine.ts:189-201 | once told of a bar's exits a pair waits at least two bars after a target and its own number after a stop |
| ReplayNumbers.EventByNumbers | src/backtest/live-replay/replay-engine.ts:168-226 | with thirty M15 bars opened and thirty H1 bars closed by the event the orchestrator sees exactly those, the event's close, the open sides of the pair and the count over all pairs, under a brake with the replay's balance, risk and limit; with fewer it is not asked |
| ReplayNumbers.OrderByNumbers | src/strategy/live/live-smc-orchestrator.ts:717-757 | an order has its signal's side, prices, lots and targets, the last leg tagged RUNNER and any other TP1 |
| ReplayNumbers.PlacedByNumbers | src/backtest/live-replay/replay-engine.ts:258-272 | a placed signal is recorded and committed for its pair alone |
| ReplayNumbers.FlushByNumbers | src/backtest/live-replay/replay-engine.ts:279-287 | what is open on a pair at the end closes at the close and time of its last M15 bar |
| ReplayWorlds.SignalBelowLimit | src/strategy/live/live-smc-orchestrator.ts:407-412 | a signal only comes while fewer positions than the limit are open over all pairs |
| ReplayLimit.LimitExceededExactlyWhen | src/backtest/live-replay/replay-engine.ts:206-272 | in market mode, from within the limit, a close leaves more than the limit open if and only if a ladder fires with one place free |
| ReplayLimit.LadderExceedsLimit | src/backtest/live-replay/replay-engine.ts:102-277 | a replay of one pair and one event, with a limit of one: after it two positions are open |
| ReplayLosses.BrokerLossBound | src/backtest/live-replay/simulated-broker.ts:86-347 | after any calls on the broker, every stop-out on a non-yen pair loses at most the initial risk of the leg filled under its id, earns at least a tenth of it once breakeven is active, and a target on its proper side loses nothing: within half a cent |
| ReplayLosses.ReplayLossBound | src/backtest/live-replay/replay-engine.ts:157-277 | the same at every event of a replay, whatever is signalled |
| ReplayLosses.ExitWithin | src/backtest/live-replay/simulated-broker.ts:152-176 | one exit of a position that descends from a leg is within the bounds of the leg |
| ReplayEngine.ReplayRun.Flush | src/backtest/live-replay/replay-engine.ts:282-287 | a pair with bars has nothing open after its flush, and no other pair gets anything open |
| ReplayEngine.ReplayRun.PlayTimeline | src/backtest/live-replay/replay-engine.ts:157-277 | at every event the cursors saw exactly what had opened or closed, however the pairs interleave, and broker and orchestrator end in the state of the composed specification |
| ReplayEngine.ReplayRun.Replay | src/backtest/live-replay/replay-engine.ts:102-311 | the whole replay: no look-ahead at any event, the two machines in step up to the flush, then nothing left open, the closed list equal to the broker's, balance = initial + pnl, every id closed exactly once, and in market mode the ids filled are those handed out |
| RefreshTokens.RotationLineage | src/auth/refresh-token.service.ts:27-98 | in every interleaving each token has at most one successor and every active token descends from an issue made after its user's last revocation of everything |
| RefreshTokens.RevokedForever | src/auth/refresh-token.service.ts:66-74 | a revoked or deleted token never becomes active again |
| RefreshTokens.OnlyIssueAddsActive | src/auth/refresh-token.service.ts:27-98 | only an issue raises a user's number of active tokens, by one; a committed rotation keeps it; nothing else raises it |
| RefreshTokens.ReuseRevokesEverything | src/auth/refresh-token.service.ts:47-51 | presenting a revoked token's hash leaves that token's user with no active token, whatever other clients do between the read and the revocation; hashes are unique in every run |
| RefreshTokens.RotationCommitsExactlyWhen | src/auth/refresh-token.service.ts:38-82 | whatever other clients do in between, a rotation commits if and only if the row was active and unexpired when read, is active at the commit and the new hash is free; it commits an expired row exactly when, besides, the expiry passed after the read |
| RefreshTokens.RotationCanCommitAfterExpiry | src/auth/refresh-token.service.ts:53-80 | a run whose rotation reads at the last moment and commits a millisecond later, after the row has expired |
| RefreshTokens.TokenPersists | src/auth/refresh-token.service.ts:27-106 | a row keeps its user, hash and expiry until it is deleted |
| RefreshTokens.NextKeepsInv | src/auth/refresh-token.service.ts:27-106 | every statement of every client keeps the lineage |
| RefreshTokens.RotateShape | src/auth/refresh-token.service.ts:57-80 | a committed rotation adds one active row of the same user and retires exactly the presented one, linking the two |
| TokenStatements.RevokeExactly | src/auth/refresh-token.service.ts:85-91 | revoking a hash revokes exactly its active row, at the given time; no row of the hash is active after it, and no other row changes |
| TokenStatements.LogoutIsFinal | src/auth/refresh-token.service.ts:85-91 | once revoked, a token is rotated by no later transaction, whenever its read was, and presenting it again is answered as reuse while its row exists |
| TokenStatements.RevokeAllExactly | src/auth/refresh-token.service.ts:93-98 | exactly the user's active rows are revoked; no other user's row changes |
| TokenStatements.CleanupExactly | src/auth/refresh-token.service.ts:100-106 | exactly the rows with an expiry before the cutoff go, and none changes |
| TokenStatements.IssueExactly | src/auth/refresh-token.service.ts:27-36 | one new active row with seven days to live, or nothing when the hash is taken |
| TokenStatements.ReadExactly | src/auth/refresh-token.service.ts:38-55 | the read changes no row and leaves its client to commit, to punish, or with nothing, by the row alone |
| TokenStatements.CommitExactly | src/auth/refresh-token.service.ts:57-80 | the successor with seven days and the retired row that names it, or no row changes |
| TokenStatements.PunishExactly | src/auth/refresh-token.service.ts:47-51 | reuse revokes exactly the user's active rows |
| RefreshTokens.RefreshTokenService.Issue | src/auth/refresh-token.service.ts:27-36 | issuing adds one active row, or nothing when the hash is taken |
| RefreshTokens.RefreshTokenService.BeginRotate | src/auth/refresh-token.service.ts:38-55 | the read step refuses unknown and expired tokens, and remembers whether to rotate or to revoke the family |
| RefreshTokens.RefreshTokenService.FinishRotate | src/auth/refresh-token.service.ts:57-82 | the commit step creates the successor and retires the row together, or leaves no trace; it answers with a successor exactly when the row was still active and the hash free |
| RefreshTokens.RefreshTokenService.Revoke | src/auth/refresh-token.service.ts:85-91 | revoking touches the active row of the hash only |
| RefreshTokens.RefreshTokenService.RevokeAllForUser | src/auth/refresh-token.service.ts:93-98 | every active row of the user is revoked, no other |
| RefreshTokens.RefreshTokenService.CleanupExpired | src/auth/refresh-token.service.ts:100-106 | exactly the rows that expired before the cutoff are deleted, and counted |
| BacktestEngine.BarsAreDisciplined | src/backtest/engine/backtest-engine.ts:97-434 | whatever signals arrive, after every bar: at most maxOpenPositions + 1 open, or none; each parent at most one scale-in and scale-ins none; every position opened is open or closed exactly once; the risk balance is the metrics' unrounded final balance |
| BacktestEngine.EveryPositionCloses | src/backtest/engine/backtest-engine.ts:416-435 | at the end nothing is open, every position ever opened yielded exactly one closed trade, and the two balances agree |
| BacktestEngine.SweepSplits | src/backtest/engine/backtest-engine.ts:146-189 | a backward splice loop looks at each open position once: what it keeps and what it closes are the list, split |
| BacktestEngine.KeptMembers | src/backtest/engine/backtest-engine.ts:146-189 | a sweep keeps exactly the positions that do not exit |
| BacktestEngine.ScaleInLinks | src/backtest/engine/backtest-engine.ts:481-541 | adding a scale-in keeps the links: the parent is marked, had none before and is no scale-in itself |
| BacktestEngine.NewPositions | src/backtest/engine/backtest-engine.ts:360-411 | an entry opens one or two positions, none of them a scale-in or a parent |
| BacktestEngine.EntryLots | src/backtest/engine/backtest-engine.ts:382-411 | the lots of one entry add up to more than the sized lot if and only if it splits, and then to at most 1.3 times it and half a hundredth; all its positions share side, entry and stop |
| BacktestEngine.SplitEntryExceedsSizedRisk | src/backtest/engine/backtest-engine.ts:340-411 | a fresh account of 10000 at 4% sizes a lot of 1.00; split, its legs together risk 520, which is 5.2% of the balance |
| BacktestRisks.SplitRunExceedsSizedRisk | src/backtest/engine/backtest-engine.ts:199-411 | one bar of a backtest after which the two legs of a sized signal are open and risk 520 of 10000 together |
| BacktestRisks.ScaleInIsFreeExactlyWhen | src/backtest/engine/backtest-engine.ts:513-541 | whatever bars come, parent and scale-in stopped out together lose nothing if and only if the parent's stop at the scale-in locks in, on the parent's lot, what the scale-in pays on its own lot for entering later |
| BacktestRisks.ScaleInCanLose | src/backtest/engine/backtest-engine.ts:97-414 | a backtest of three bars in which the parent earns 0.20 at its trailed stop and the scale-in loses 0.60 at the parent's entry |
| BacktestRisks.StopExitBooksStopMoney | src/backtest/engine/position-simulator.ts:148-219 | a stop exit books the money at its stop less commission, to half a cent |
| BacktestRisks.ManagementNeverLoosens | src/backtest/engine/position-simulator.ts:18-111 | over any bars management never moves the stop of a position back |
| BacktestNumbers.EntersExactlyWhen | src/backtest/engine/backtest-engine.ts:199-414 | a bar opens its signal if and only if no wait or blackout runs, the gate is open, its side has fewer than three stop-outs today, the lot is positive, and its side is free or holds one position at breakeven in a strong, calm trend while not defensive, both together risking at most a fifth of the balance |
| BacktestNumbers.PositionsByNumbers | src/backtest/engine/backtest-engine.ts:360-411 | what an entry opens, field by field: one position, or a runner with the whole lot and a locker with three tenths and a target one risk away |
| BacktestNumbers.ScalesInExactlyWhen | src/backtest/engine/backtest-engine.ts:454-546 | in a confident trend, not defensive and below the limit, the first position at breakeven between 1 and 1.5 risks ahead without a scale-in gets one; otherwise nothing happens |
| BacktestNumbers.ScaleInByNumbers | src/backtest/engine/backtest-engine.ts:513-541 | the scale-in, field by field: half the lot, stop at the parent's entry, no target |
| BacktestNumbers.WaitByNumbers | src/backtest/engine/backtest-engine.ts:146-189 | how long entries wait after each kind of exit, and what a stop-out counts against |
| BacktestNumbers.MaxBarsByNumbers | src/backtest/engine/backtest-engine.ts:146-166 | a V6 position is closed at the bar's close exactly when it has had 48 bars without breakeven |
| BacktestNumbers.CommissionByNumbers | src/backtest/engine/backtest-engine.ts:146-189 | every exit is charged its lot times the commission per lot |
| BacktestNumbers.RegularExitByNumbers | src/backtest/engine/backtest-engine.ts:168-189 | a regular exit is the exit check under that commission and the units, converted for a yen pair |
| BacktestLife.PositionsAreTheirLives | src/backtest/engine/backtest-engine.ts:97-189 | after any bars the position open or closed under an id is the one opened under it, managed over every bar after its own up to now or to the later bar it closed on |
| BacktestLife.OpenPositionByNumbers | src/backtest/engine/backtest-engine.ts:141-144 | so its stop, breakeven and target follow in numbers from its best gain since it was opened |
| BacktestDays.BrakeLogsTrades | src/backtest/engine/backtest-engine.ts:146-189 | after any bars the brake has logged exactly the closed trades in order, each on the day of its exit, and counts their losing streak |
| BacktestDays.StopOutsAreTodays | src/backtest/engine/backtest-engine.ts:97-189 | over bars in day order the counters that block a side are its stop-outs of the last bar's day |
| BacktestDays.V6PositionsAgeOut | src/backtest/engine/backtest-engine.ts:146-166 | after any bar no V6 position without breakeven is older than 48 bars |
| BacktestDays.V6ForcesOut | src/backtest/engine/backtest-engine.ts:146-189 | a V6 position that a bar leaves without breakeven after 48 bars is forced out on it, whatever its stop and target say |
| BacktestDays.ScaleInsComeFirst | src/backtest/engine/backtest-engine.ts:191-414 | over any bars, the scale-in of a bar is opened before the bar's entry |
| BacktestEngine.EntryRiskBound | src/backtest/engine/backtest-engine.ts:340-411 | an entry of the sized lot risks at most 4.4% of the balance it was sized on when it does not split, and always at most 1.3 times that and half a hundredth of a lot |
| BacktestLosses.BacktestLossBound | src/backtest/engine/backtest-engine.ts:97-414 | over any backtest of a non-yen pair, every stop-out loses at most the initial risk of the position opened under its id, every breakeven exit earns at least a tenth of it, and every target exit of a position opened with its target on the proper side loses nothing: before commission, within half a cent |
| BacktestEngine.BacktestRun.ManagePositions | src/backtest/engine/backtest-engine.ts:141-144 | each open position is managed once, in place |
| BacktestEngine.BacktestRun.SweepOpen | src/backtest/engine/backtest-engine.ts:146-189 | the backward loop closes, records, cools down and splices: newest exit first, survivors in order |
| BacktestEngine.BacktestRun.CheckScaleIns | src/backtest/engine/backtest-engine.ts:454-546 | the first eligible position gets the one scale-in of the bar and is marked; otherwise nothing changes |
| BacktestEngine.BacktestRun.TryEnter | src/backtest/engine/backtest-engine.ts:199-414 | cooldowns and blackout first, then the risk gate, then the daily stop-out limit, the lot and the stacking guards, then the new positions |
| BacktestEngine.BacktestRun.RunBar | src/backtest/engine/backtest-engine.ts:97-414 | one bar is day change, management, forced exits, exits, scale-ins and entry, in that order |
| BacktestEngine.BacktestRun.FlushRest | src/backtest/engine/backtest-engine.ts:416-433 | the final loop closes what is left, oldest first, and records it |
| BacktestEngine.BacktestRun.FlushAtEnd | src/backtest/engine/backtest-engine.ts:416-433 | the flush happens exactly when something is open and there is a last bar |
| BacktestEngine.BacktestRun.RunAll | src/backtest/engine/backtest-engine.ts:46-446 | the whole run, of any bars or none, ends with an empty list, as many closed trades as positions opened, and metrics whose final balance is the rounded risk balance, or the initial one without trades |
| Metrics.MaxDrawdown | src/backtest/engine/metrics-calculator.ts:40-56 | the one pass with a running peak returns the largest fall from any earlier balance to any later one |
| Metrics.MaxStreaks | src/backtest/engine/metrics-calculator.ts:68-85 | the one pass returns the lengths of the longest runs of wins and of losses, breakeven exits left out |
| Metrics.CalculateMetrics | src/backtest/engine/metrics-calculator.ts:3-117 | totals, drawdown, streaks and final balance, rounded, of any list of trades |
| Metrics.NextFall | src/backtest/engine/metrics-calculator.ts:45-56 | one more balance adds its fall from the running peak to the candidates for the largest fall |
| SwingPoints.DetectSwingPoints | src/backtest/engine/strategy-evaluator.ts:411-452 | the batch scan returns exactly the strict swing highs and lows of the stretch, index by index, a high before a low |
| SwingPoints.SwingPointTracker.Update | src/backtest/engine/strategy-evaluator.ts:913-950 | one bar pushes exactly the swing it confirms and keeps the latest twenty of each kind |
| SwingPoints.OnlineEqualsBatch | src/backtest/engine/strategy-evaluator.ts:411-452 | fed bar by bar, the tracker holds the last twenty points of its kind that the batch scan of the same bars finds, in order |
| SwingPoints.TrackAll | src/backtest/engine/strategy-evaluator.ts:913-950 | a fresh tracker fed n bars holds those points |
| BarSearch.FindLastAtOrBefore | src/backtest/engine/strategy-evaluator.ts:239-251 | the binary search equals a scan from the end: the last index at or before the target, -1 when there is none |
| BarSearch.ScanSplits | src/backtest/engine/strategy-evaluator.ts:278-292 | on sorted bars the scan's answer is the one index that splits them by the target |
| NewsCalendar.IsInBlackout | src/backtest/engine/news-calendar.ts:101-115 | true if and only if some event lies within the window, whichever event the binary search meets |
| NewsCalendar.FirstFridayOfMonth | src/backtest/engine/news-calendar.ts:51-56 | a Friday within the first seven days, and the first one |
| AnchorLevels.GetAnchorLevels | src/backtest/engine/smc/anchor-levels.ts:42-118 | the reverse pass with its early exit returns, per window, none exactly when no earlier bar falls in it, and otherwise the exact highest high and lowest low |
| AnchorLevels.RangeIsExact | src/backtest/engine/smc/anchor-levels.ts:84-106 | the running extremes are attained and bound every bar that counts |
| AnchorLevels.StaleBarsCountNowhere | src/backtest/engine/smc/anchor-levels.ts:108-109 | the early exit is sound: bars at and before it fall in no window |
| AnchorLevels.WindowsByNumbers | src/backtest/engine/smc/anchor-levels.ts:42-77 | the windows in numbers: the previous UTC day, 22:00 of it to 06:00, and the seven days before the last Monday |

## Left out

- Floating point, `NaN` and `Infinity`: exact reals instead. The zero-balance and zero-peak comparisons of the risk manager are modelled case by case; a yen pair closed at a price of exactly 0 is left unconverted.
- Prisma, Redis, HTTP, mail, dependency injection, controllers, worker threads and broker clients. A `Restart` reloads the current state; crashes before the write are in `OrchestratorCrashes`, a torn write is not.
- Sweep detection, FVG, order-block and BOS detectors, pair configurations and `runSmcBacktest`: their answers are inputs.
- Indicators, the BB, EMA-cross and momentum evaluators, quality scores, the LLM filter and the performance tracker: their answers are inputs.
- SmcOrchestration.LiveSmcOrchestrator.EvaluateClose: each symbol holds the risk manager's abstract value, not a `RiskManager` object, so aliasing of managers is not captured; the class and the value are tied in `RiskManagement`. The lot from sizing is an input here; its bounds are in `LotSizing`. Log lines and the annotation context of a signal are left out.
- OrchestratorCatchUp.CatchUpCoversEachBarOnce: stated for append-only arrays and replay cursors; under the rolling live buffer indices shift. A bar counts as considered when the D1 ADX floor skips its detection, as in the code.
- OrchestratorRestart.RestartIsInvisible: up to the oldest trades of the risk log, which the snapshot drops and no later call can count.
- LivePositionManagement.LiveRunRefines: the stored target is deliberately kept when the simulator removes it; broker replies that report rejection without throwing are not seen by the manager and not modelled. Tickets are distinct and, for SELL, prices stay positive, because a broker stop of 0 means none.
- PositionExits.LifetimeLossBound: not for yen-quoted pairs, whose conversion rate moves, and not for forced closes, whose price is unrelated to the stop.
- ReplayEngine.ReplayRun.HandleEvent: detection, structure gates, the sized lot and the indicators at each event are inputs; decision logs, progress callbacks and annotations are left out.
- ReplayEngine.ReplayRun.Replay: win and loss counts are left out, and pairs are visited in the configured order where the source visits them in object-key order (it only matters for events of one time).
- ReplayWorlds.ReplayStaysInStep: the bound on open positions and the one-signal-per-side fact are for market mode; a parked limit fills without asking the gate again.
- SimulatedBroking.SimulatedBroker.PlaceSignal: a retrace fraction of exactly 1 is excluded, as it divides by zero.
- BacktestEngine.BacktestRun.TryEnter: the routing between evaluators, the quality floor and the lot from sizing arrive with the signal; the lot's bounds are in `LotSizing`.
- BacktestEngine.BacktestRun.RunBar: the regime, swing, BOS and FVG bookkeeping of a bar only shapes its signal and is an input.
- ReplayLosses.BrokerLossBound: not for yen-quoted pairs and not for flushed positions, as in `PositionExits`.
- OrchestratorCrashes.TwiceOnlyAfterLoss: says when a sweep may be taken twice; whether it fires again depends on the bars, the gates and detection, which are inputs.
- BacktestRisks.ScaleInIsFreeExactlyWhen: for a scale-in whose rounded entry lies beyond the parent's; commission and the half cents of rounding come on top.
- BacktestLosses.BacktestLossBound: not for yen-quoted pairs and not for forced closes, as in `PositionExits`.
- BacktestEngine.BacktestRun.RunAll: the inputs of `RunBar` and `TryEnter`, and the weekly trade floor, which only shapes them.
- Metrics.CalculateMetrics: win rate, profit factor, Sharpe ratio, averages and the percentage drawdown are left out; they are one-line quotients.
- SwingPoints.DetectSwingPoints: an end index beyond the candles, which the source would dereference, is excluded.
- NewsCalendar.IsInBlackout: an unparsable time, for which the source answers no, is not representable; the event table itself is an input.
- BarSearch.FindLastAtOrBefore: the five searches are the same loop and are modelled once; what each caller does with the bar is left out.
- RefreshTokens.RefreshTokenService.BeginRotate: tokens are represented by their hashes, and a hash collision makes the create fail as the unique column does.
- The live services around the modelled managers: order placement, the position monitor, exit reconciliation, the broker circuit breaker, terminal heartbeats, journals and statistics.
