/**
 Whole runs of one symbol of the orchestrator: M15 closes, commits of an offered signal,
 exits and restarts in any order. What is queued, what is fired, and how often.
 */
module OrchestratorRuns {
  import opened Wrappers
  import opened Numbers
  import opened Market
  import opened Calendar
  import opened RiskManagement
  import opened SmcOrchestration

  /** `Commit` commits the signal of the latest close, unless that has been done already. */
  datatype Event =
    | Close(close: M15Close)
    | Commit
    | Exit(reason: LiveExit, date: int, pnl: Option<real>)
    | Restart

  datatype World = World(state: SymbolState, offered: Option<Signal>, committed: seq<Option<int>>)

  function Step(cfg: PairConfig, risk: RiskConfig, w: World, event: Event): World {
    match event
    case Close(close) =>
      var (state, signal) := Evaluate(cfg, risk, w.state, close);
      w.(state := state, offered := signal)
    case Commit =>
      (match w.offered
       case None => w
       case Some(signal) => World(RecordEntry(w.state, signal), None, w.committed + [signal.h1SweepTime]))
    case Exit(reason, date, pnl) => w.(state := RecordExit(cfg, w.state, reason, date, pnl))
    case Restart => w.(state := Reloaded(risk, w.state))
  }

  function Run(cfg: PairConfig, risk: RiskConfig, start: World, events: seq<Event>): World {
    if events == [] then start
    else Step(cfg, risk, Run(cfg, risk, start, events[..|events| - 1]), events[|events| - 1])
  }

  function Beginning(risk: RiskConfig): World {
    World(FreshSymbol(risk), None, [])
  }

  // ----- The queue -----

  lemma {:induction false} FilterMembers<T>(keep: T -> bool, xs: seq<T>)
    ensures forall x :: x in Filter(keep, xs) <==> x in xs && keep(x)
  {
    if xs != [] {
      FilterMembers(keep, xs[..|xs| - 1]);
      assert xs == xs[..|xs| - 1] + [xs[|xs| - 1]];
    }
  }

  lemma {:induction false} FilterAll<T>(keep: T -> bool, xs: seq<T>)
    requires forall i :: 0 <= i < |xs| ==> keep(xs[i])
    ensures Filter(keep, xs) == xs
  {
    if xs != [] {
      var init, last := xs[..|xs| - 1], xs[|xs| - 1];
      FilterAll(keep, init);
      assert init + [last] == xs;
    }
  }

  /** The newest setup that fires is offered. */
  function Offer(judge: PendingSetup -> Verdict, xs: seq<PendingSetup>): Option<Signal> {
    if xs == [] then None
    else if judge(xs[|xs| - 1]).Fire? then Some(judge(xs[|xs| - 1]).signal)
    else Offer(judge, xs[..|xs| - 1])
  }

  /** The queue after a scan: up to the setup that fires untouched, behind it what is not to be dropped. */
  function AfterScan(judge: PendingSetup -> Verdict, xs: seq<PendingSetup>): seq<PendingSetup> {
    if xs == [] || judge(xs[|xs| - 1]).Fire? then xs
    else AfterScan(judge, xs[..|xs| - 1]) + if judge(xs[|xs| - 1]).Drop? then [] else [xs[|xs| - 1]]
  }

  lemma {:induction false} ScanSplits(judge: PendingSetup -> Verdict, xs: seq<PendingSetup>, ys: seq<PendingSetup>,
                                      queue: seq<PendingSetup>)
    requires queue == xs + ys
    ensures Scan(judge, queue, |xs|) == (AfterScan(judge, xs) + ys, Offer(judge, xs))
  {
    if xs != [] {
      var init, last := xs[..|xs| - 1], xs[|xs| - 1];
      assert queue[|xs| - 1] == last;
      if judge(last).Keep? {
        assert queue == init + ([last] + ys);
        ScanSplits(judge, init, [last] + ys, queue);
        assert AfterScan(judge, xs) + ys == AfterScan(judge, init) + ([last] + ys);
      } else if judge(last).Drop? {
        assert queue[..|xs| - 1] + queue[|xs|..] == init + ys;
        ScanSplits(judge, init, ys, init + ys);
        assert AfterScan(judge, xs) == AfterScan(judge, init);
      }
    }
  }

  /** The backward splicing loop offers the newest setup that fires, and drops only behind it. */
  lemma ScanMeaning(judge: PendingSetup -> Verdict, pending: seq<PendingSetup>)
    ensures Scan(judge, pending, |pending|) == (AfterScan(judge, pending), Offer(judge, pending))
  {
    var all := AfterScan(judge, pending);
    assert pending == pending + [] && all == all + [];
    ScanSplits(judge, pending, [], pending);
  }

  /** What a scan removes was to be dropped; what it offers stays queued; it offers whenever something fires. */
  lemma {:induction false} AfterScanMembers(judge: PendingSetup -> Verdict, xs: seq<PendingSetup>)
    ensures forall p :: p in AfterScan(judge, xs) ==> p in xs
    ensures forall p :: p in xs && p !in AfterScan(judge, xs) ==> judge(p).Drop?
    ensures Offer(judge, xs).Some? ==> exists p :: p in AfterScan(judge, xs) && judge(p) == Fire(Offer(judge, xs).value)
    ensures Offer(judge, xs).Some? <==> exists p :: p in xs && judge(p).Fire?
  {
    if xs != [] {
      var init, last := xs[..|xs| - 1], xs[|xs| - 1];
      assert xs == init + [last];
      AfterScanMembers(judge, init);
    }
  }

  /** A ladder has a partial leg before the runner. */
  function LegCount(cfg: PairConfig): nat {
    if cfg.tp1PartialFraction > 0.0 then 2 else 1
  }

  /**
   A signal that fires is for a sweep not yet taken, on a side with nothing open, with its stop
   on the protective side; rounding the prices may make them meet but never swaps them.
   */
  lemma FiredSignal(cfg: PairConfig, close: M15Close, actioned: set<Option<int>>, p: PendingSetup)
    requires Judge(cfg, close, actioned, p).Fire?
    ensures var signal := Judge(cfg, close, actioned, p).signal;
            && signal.h1SweepTime == p.sweepTime && p.sweepTime !in actioned
            && signal.side == p.direction && p.direction !in close.ctx.openDirections
            && Protective(p.direction, EntryPrice(close.view, p.direction), StopPrice(cfg, close.view, p))
            && close.oracle.gatesPass(p)
            && (forall leg :: leg in signal.legs ==> leg.lotSize >= 0.01)
            && |signal.legs| == LegCount(cfg)
            && (cfg.priceFactor >= 0.0 ==>
                  if signal.side == Buy then signal.slPrice <= signal.entryPrice else signal.slPrice >= signal.entryPrice)
  {
    var entry, stop := EntryPrice(close.view, p.direction), StopPrice(cfg, close.view, p);
    if cfg.priceFactor >= 0.0 {
      RoundToMonotone(Min(entry, stop), Max(entry, stop), cfg.priceFactor);
    }
  }

  /** What one processed close does to the queue, whatever the gates say. */
  ghost predicate QueueEffect(cfg: PairConfig, before: SymbolState, refreshed: SymbolState, close: M15Close,
                              after: SymbolState, signal: Option<Signal>) {
    && after.actionedSweeps == before.actionedSweeps && after.lastProcessedH1Time == refreshed.lastProcessedH1Time
    && (forall p :: p in after.pending ==> p in refreshed.pending)
    && (forall p :: p in refreshed.pending && p !in after.pending ==>
          Judge(cfg, close, before.actionedSweeps, p).Drop?)
    && (signal.Some? ==>
          exists p :: p in after.pending && Judge(cfg, close, before.actionedSweeps, p) == Fire(signal.value))
  }

  lemma ScanEffect(cfg: PairConfig, state: SymbolState, close: M15Close)
    ensures var r := ScanState(cfg, state, close);
            && QueueEffect(cfg, state, state, close, r.0, r.1)
            && r.0.risk == state.risk && r.0.cooldownBarsRemaining == state.cooldownBarsRemaining
            && (r.1.Some? <==>
                exists p :: p in state.pending && Judge(cfg, close, state.actionedSweeps, p).Fire?)
  {
    var judge := setup => Judge(cfg, close, state.actionedSweeps, setup);
    ScanMeaning(judge, state.pending);
    AfterScanMembers(judge, state.pending);
    assert forall p :: judge(p) == Judge(cfg, close, state.actionedSweeps, p);
  }

  lemma GatesEffect(cfg: PairConfig, risk: RiskConfig, state: SymbolState, close: M15Close)
    ensures var r := PassGates(cfg, risk, state, close); QueueEffect(cfg, state, state, close, r.0, r.1)
  {
    var risk' := CanTrade(risk, state.risk, DayOf(close.view.now), close.ctx.totalOpenPositions).0;
    ScanEffect(cfg, state.(risk := risk'), close);
  }

  /** All the gates before the scan let this close through. */
  predicate GatesOpen(cfg: PairConfig, risk: RiskConfig, state: SymbolState, close: M15Close) {
    && state.cooldownBarsRemaining <= 0 && TimeAllows(cfg, close.view)
    && CanTrade(risk, state.risk, DayOf(close.view.now), close.ctx.totalOpenPositions).1
  }

  /**
   A close offers a signal exactly when the gates are open and some queued, unexpired setup
   fires on this bar; so a setup whose order failed is offered again as soon as it fires again.
   */
  lemma OffersExactlyWhen(cfg: PairConfig, risk: RiskConfig, state: SymbolState, close: M15Close)
    requires Processes(close.view)
    ensures Evaluate(cfg, risk, state, close).1.Some? <==>
              && GatesOpen(cfg, risk, state, close)
              && exists p :: p in Refreshed(cfg, state, close).pending
                             && Judge(cfg, close, state.actionedSweeps, p).Fire?
  {
    var refreshed := Refreshed(cfg, state, close);
    var risk' := CanTrade(risk, state.risk, DayOf(close.view.now), close.ctx.totalOpenPositions).0;
    ScanEffect(cfg, refreshed.(risk := risk'), close);
  }

  lemma RefreshedMembers(cfg: PairConfig, state: SymbolState, close: M15Close)
    requires Processes(close.view)
    ensures var refreshed := Refreshed(cfg, state, close);
            && refreshed.actionedSweeps == state.actionedSweeps
            && (forall p :: p in state.pending && p !in refreshed.pending ==> Expired(p, |close.view.h1Times| - 1))
            && (forall p :: p in refreshed.pending && p !in state.pending ==> exists idx ::
                  CatchUpStart(state, close.view) <= idx <= LastUsable(close.view) && close.oracle.detectSweep(idx) == Some(p))
  {
    var lastClosed, start, usable := |close.view.h1Times| - 1, CatchUpStart(state, close.view), LastUsable(close.view);
    FilterMembers((p: PendingSetup) => !Expired(p, lastClosed), CatchUp(cfg, state, close).pending);
    FoundMembers(cfg, close, state.actionedSweeps, start, usable + 1);
  }

  lemma {:induction false} FoundMembers(cfg: PairConfig, close: M15Close, actioned: set<Option<int>>, lo: int, hi: int)
    ensures forall p :: p in FoundBetween(cfg, close, actioned, lo, hi) ==>
                          exists idx :: lo <= idx < hi && close.oracle.detectSweep(idx) == Some(p)
    decreases hi - lo
  {
    if lo < hi {
      FoundMembers(cfg, close, actioned, lo, hi - 1);
      assert forall p :: p in Found(cfg, close, actioned, hi - 1) ==> close.oracle.detectSweep(hi - 1) == Some(p);
    }
  }

  // ----- Leaving the queue -----

  /** Why `p` may be gone from the queue after the event. */
  ghost predicate MayLeave(cfg: PairConfig, w: World, event: Event, p: PendingSetup) {
    match event
    case Close(close) =>
      && Processes(close.view)
      && (Expired(p, |close.view.h1Times| - 1) || Judge(cfg, close, w.state.actionedSweeps, p).Drop?)
    case Commit => w.offered.Some? && p.sweepTime == w.offered.value.h1SweepTime
    case Exit(_, _, _) => false
    case Restart => p.sweepTime.None?
  }

  lemma CommitMembers(state: SymbolState, signal: Signal)
    ensures forall p :: p in RecordEntry(state, signal).pending <==> p in state.pending && p.sweepTime != signal.h1SweepTime
  {
    FilterMembers((p: PendingSetup) => p.sweepTime != signal.h1SweepTime, state.pending);
  }

  lemma RestartMembers(risk: RiskConfig, state: SymbolState)
    ensures forall p :: p in Reloaded(risk, state).pending <==> p in state.pending && p.sweepTime.Some?
    ensures Reloaded(risk, state).actionedSweeps == state.actionedSweeps - {None}
  {
    ReloadedMeaning(risk, state);
    FilterMembers((p: PendingSetup) => p.sweepTime.Some?, state.pending);
  }

  /** A setup leaves only by commit, expiry, a drop verdict, or, without a sweep time, at a restart. */
  lemma LeavesOnlyBy(cfg: PairConfig, risk: RiskConfig, w: World, event: Event, p: PendingSetup)
    requires p in w.state.pending && p !in Step(cfg, risk, w, event).state.pending
    ensures MayLeave(cfg, w, event, p)
  {
    match event {
      case Close(close) =>
        if Processes(close.view) {
          RefreshedMembers(cfg, w.state, close);
          GatesEffect(cfg, risk, Refreshed(cfg, w.state, close), close);
        }
      case Commit =>
        if w.offered.Some? {
          CommitMembers(w.state, w.offered.value);
        }
      case Exit(_, _, _) =>
      case Restart =>
        RestartMembers(risk, w.state);
    }
  }

  // ----- Exactly once -----

  /** Every commit of a sweep time is remembered, none is repeated, and what is on offer has not been committed. */
  ghost predicate OnceInv(w: World) {
    && (forall i, j :: 0 <= i < j < |w.committed| && w.committed[i].Some? ==> w.committed[i] != w.committed[j])
    && (forall t :: t in w.committed && t.Some? ==> t in w.state.actionedSweeps)
    && (w.offered.Some? && w.offered.value.h1SweepTime.Some? ==>
          w.offered.value.h1SweepTime !in w.state.actionedSweeps)
  }

  lemma EvaluateOffersUntaken(cfg: PairConfig, risk: RiskConfig, state: SymbolState, close: M15Close)
    ensures var r := Evaluate(cfg, risk, state, close);
            && r.0.actionedSweeps == state.actionedSweeps
            && (r.1.Some? ==>
                  && r.1.value.h1SweepTime !in state.actionedSweeps
                  && r.1.value.side !in close.ctx.openDirections && |r.1.value.legs| == LegCount(cfg)
                  && exists p :: p in r.0.pending && p.sweepTime == r.1.value.h1SweepTime)
  {
    if Processes(close.view) {
      var refreshed := Refreshed(cfg, state, close);
      GatesEffect(cfg, risk, refreshed, close);
      var r := PassGates(cfg, risk, refreshed, close);
      if r.1.Some? {
        var p :| p in r.0.pending && Judge(cfg, close, state.actionedSweeps, p) == Fire(r.1.value);
        FiredSignal(cfg, close, state.actionedSweeps, p);
      }
    }
  }

  lemma StepKeepsOnce(cfg: PairConfig, risk: RiskConfig, w: World, event: Event)
    requires OnceInv(w)
    ensures OnceInv(Step(cfg, risk, w, event))
  {
    match event {
      case Close(close) => EvaluateOffersUntaken(cfg, risk, w.state, close);
      case Commit =>
      case Exit(_, _, _) =>
      case Restart => RestartMembers(risk, w.state);
    }
  }

  /** In every run no sweep time is committed twice, and nothing that has been committed is offered. */
  lemma {:induction false} NoSweepCommittedTwice(cfg: PairConfig, risk: RiskConfig, events: seq<Event>)
    ensures OnceInv(Run(cfg, risk, Beginning(risk), events))
  {
    if events != [] {
      NoSweepCommittedTwice(cfg, risk, events[..|events| - 1]);
      StepKeepsOnce(cfg, risk, Run(cfg, risk, Beginning(risk), events[..|events| - 1]), events[|events| - 1]);
    }
  }

  /** Detection always stamps the setup with its sweep bar. */
  ghost predicate StampsSetups(events: seq<Event>) {
    forall i, idx :: 0 <= i < |events| && events[i].Close? && events[i].close.oracle.detectSweep(idx).Some? ==>
                       events[i].close.oracle.detectSweep(idx).value.sweepTime.Some?
  }

  /** Every queued setup, and every sweep taken, has its time. */
  ghost predicate AllStamped(state: SymbolState) {
    (forall p :: p in state.pending ==> p.sweepTime.Some?) && None !in state.actionedSweeps
  }

  /** What is on offer is still queued. */
  ghost predicate OfferedIsQueued(w: World) {
    w.offered.Some? ==> exists p :: p in w.state.pending && p.sweepTime == w.offered.value.h1SweepTime
  }

  lemma StepKeepsQueued(cfg: PairConfig, risk: RiskConfig, w: World, event: Event)
    requires AllStamped(w.state) && OfferedIsQueued(w) && StampsSetups([event])
    ensures AllStamped(Step(cfg, risk, w, event).state) && OfferedIsQueued(Step(cfg, risk, w, event))
  {
    match event {
      case Close(close) =>
        EvaluateOffersUntaken(cfg, risk, w.state, close);
        if Processes(close.view) {
          RefreshedMembers(cfg, w.state, close);
          GatesEffect(cfg, risk, Refreshed(cfg, w.state, close), close);
          assert [event][0] == event;
        }
      case Commit =>
        if w.offered.Some? {
          CommitMembers(w.state, w.offered.value);
        }
      case Exit(_, _, _) =>
      case Restart => RestartMembers(risk, w.state);
    }
  }

  /**
   A fired signal that has not been committed is still queued, through exits and restarts:
   a failed order loses nothing.
   */
  lemma {:induction false} UncommittedStaysQueued(cfg: PairConfig, risk: RiskConfig, events: seq<Event>)
    requires StampsSetups(events)
    ensures AllStamped(Run(cfg, risk, Beginning(risk), events).state)
    ensures OfferedIsQueued(Run(cfg, risk, Beginning(risk), events))
  {
    if events != [] {
      var init, last := events[..|events| - 1], events[|events| - 1];
      assert StampsSetups(init) && StampsSetups([last]);
      UncommittedStaysQueued(cfg, risk, init);
      StepKeepsQueued(cfg, risk, Run(cfg, risk, Beginning(risk), init), last);
    }
  }
}
