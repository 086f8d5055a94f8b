/** A restart (`serialize`, then `restore`) against never having restarted. */
module OrchestratorRestart {
  import opened Wrappers
  import opened Calendar
  import opened RiskManagement
  import opened RiskRestart
  import opened SmcOrchestration
  import opened OrchestratorRuns

  /** The world with more trades at the front of its risk log. */
  function WithOlderLog(w: World, older: seq<LoggedTrade>): World {
    w.(state := OlderState(w.state, older))
  }

  function OlderState(state: SymbolState, older: seq<LoggedTrade>): SymbolState {
    state.(risk := WithOlder(state.risk, older))
  }

  /** `w` is `v` with some trades more in its log, none of them a loss that still counts on `date`. */
  ghost predicate Alike(w: World, v: World, date: int) {
    exists older :: OutOfWindow(older, date) && w == WithOlderLog(v, older)
  }

  /** The day of an event, if it has one. */
  function DateOf(event: Event): Option<int> {
    match event
    case Close(close) => Some(DayOf(close.view.now))
    case Exit(_, date, _) => Some(date)
    case _ => None
  }

  ghost predicate NotBefore(events: seq<Event>, date: int) {
    forall i :: 0 <= i < |events| && DateOf(events[i]).Some? ==> DateOf(events[i]).value >= date
  }

  lemma GatesAlike(cfg: PairConfig, risk: RiskConfig, state: SymbolState, older: seq<LoggedTrade>, close: M15Close)
    requires OutOfWindow(older, DayOf(close.view.now))
    ensures var r := PassGates(cfg, risk, state, close);
            PassGates(cfg, risk, OlderState(state, older), close) == (OlderState(r.0, older), r.1)
  {
    CanTradeIgnoresOlder(risk, state.risk, older, DayOf(close.view.now), close.ctx.totalOpenPositions);
  }

  lemma EvaluateAlike(cfg: PairConfig, risk: RiskConfig, state: SymbolState, older: seq<LoggedTrade>, close: M15Close)
    requires OutOfWindow(older, DayOf(close.view.now))
    ensures var r := Evaluate(cfg, risk, state, close);
            Evaluate(cfg, risk, OlderState(state, older), close) == (OlderState(r.0, older), r.1)
  {
    if Processes(close.view) {
      assert Refreshed(cfg, OlderState(state, older), close) == OlderState(Refreshed(cfg, state, close), older);
      GatesAlike(cfg, risk, Refreshed(cfg, state, close), older, close);
    }
  }

  /** What a second truncation leaves of the older trades. */
  function StillOlder(older: seq<LoggedTrade>, log: seq<LoggedTrade>): (r: seq<LoggedTrade>)
    ensures forall t :: t in r ==> t in older
  {
    var kept := LastN(older + log, TRADE_LOG_KEEP);
    if |kept| <= |log| then [] else older[|older| + |log| - |kept|..]
  }

  lemma TruncateOlder(older: seq<LoggedTrade>, log: seq<LoggedTrade>)
    ensures LastN(older + log, TRADE_LOG_KEEP) == StillOlder(older, log) + LastN(log, TRADE_LOG_KEEP)
  {
  }

  lemma RestartAlike(risk: RiskConfig, state: SymbolState, older: seq<LoggedTrade>)
    ensures Reloaded(risk, OlderState(state, older)) == OlderState(Reloaded(risk, state), StillOlder(older, state.risk.tradeLog))
  {
    ReloadedMeaning(risk, state);
    ReloadedMeaning(risk, OlderState(state, older));
    TruncateOlder(older, state.risk.tradeLog);
  }

  lemma StepAlike(cfg: PairConfig, risk: RiskConfig, w: World, v: World, event: Event, date: int)
    requires Alike(w, v, date) && (DateOf(event).Some? ==> DateOf(event).value >= date)
    ensures Alike(Step(cfg, risk, w, event), Step(cfg, risk, v, event), date)
  {
    var older :| OutOfWindow(older, date) && w == WithOlderLog(v, older);
    match event {
      case Close(close) =>
        EvaluateAlike(cfg, risk, v.state, older, close);
        assert Step(cfg, risk, w, event) == WithOlderLog(Step(cfg, risk, v, event), older);
      case Commit =>
        assert Step(cfg, risk, w, event) == WithOlderLog(Step(cfg, risk, v, event), older);
      case Exit(reason, day, pnl) =>
        if pnl.Some? {
          RecordIgnoresOlder(v.state.risk, older, pnl.value, day, RiskReason(reason));
        }
        assert Step(cfg, risk, w, event) == WithOlderLog(Step(cfg, risk, v, event), older);
      case Restart =>
        RestartAlike(risk, v.state, older);
        assert Step(cfg, risk, w, event) == WithOlderLog(Step(cfg, risk, v, event), StillOlder(older, v.state.risk.tradeLog));
    }
  }

  lemma {:induction false} RunAlike(cfg: PairConfig, risk: RiskConfig, w: World, v: World, events: seq<Event>,
                                    date: int)
    requires Alike(w, v, date) && NotBefore(events, date)
    ensures Alike(Run(cfg, risk, w, events), Run(cfg, risk, v, events), date)
  {
    if events != [] {
      var init := events[..|events| - 1];
      assert NotBefore(init, date);
      RunAlike(cfg, risk, w, v, init, date);
      StepAlike(cfg, risk, Run(cfg, risk, w, init), Run(cfg, risk, v, init), events[|events| - 1], date);
    }
  }

  lemma RestartedAlike(cfg: PairConfig, risk: RiskConfig, w: World, date: int)
    requires AllStamped(w.state) && OutOfWindow(Dropped(w.state.risk), date)
    ensures Alike(w, Step(cfg, risk, w, Restart), date)
  {
    hide Reloaded, Dropped, OutOfWindow, Truncated;
    var v := Step(cfg, risk, w, Restart);
    ReloadedMeaning(risk, w.state);
    FilterAll((p: PendingSetup) => p.sweepTime.Some?, w.state.pending);
    SnapshotPlusDropped(w.state.risk);
    assert w.state.actionedSweeps - {None} == w.state.actionedSweeps;
    assert w == WithOlderLog(v, Dropped(w.state.risk));
  }

  /** Alike worlds differ in the log only. */
  lemma AlikeMeaning(w: World, v: World, date: int)
    requires Alike(w, v, date)
    ensures w.offered == v.offered && w.committed == v.committed
    ensures w.state.(risk := v.state.risk) == v.state
    ensures w.state.risk.(tradeLog := v.state.risk.tradeLog) == v.state.risk
  {
  }

  /**
   Restarting now or never makes no difference to any later run: the same signals are offered
   and committed and the same state reached, up to the oldest trades of the log. What it takes:
   queued setups have their sweep times, no later call is dated before `date`, and every loss
   the snapshot drops is more than seven days older than `date`.
   */
  lemma RestartIsInvisible(cfg: PairConfig, risk: RiskConfig, w: World, events: seq<Event>, date: int)
    requires AllStamped(w.state) && NotBefore(events, date) && OutOfWindow(Dropped(w.state.risk), date)
    ensures var original := Run(cfg, risk, w, events);
            var restarted := Run(cfg, risk, Step(cfg, risk, w, Restart), events);
            && original.offered == restarted.offered && original.committed == restarted.committed
            && original.state.(risk := restarted.state.risk) == restarted.state
            && original.state.risk.(tradeLog := restarted.state.risk.tradeLog) == restarted.state.risk
  {
    hide Alike, Step, AllStamped;
    var v := Step(cfg, risk, w, Restart);
    RestartedAlike(cfg, risk, w, date);
    RunAlike(cfg, risk, w, v, events, date);
    AlikeMeaning(Run(cfg, risk, w, events), Run(cfg, risk, v, events), date);
  }
}
