/**
 Persistence that lags behind: the state is serialized at one moment and written at a later
 one, and a crash restores what was written last. When a sweep can be taken twice.
 */
module OrchestratorCrashes {
  import opened Wrappers
  import opened Market
  import opened RiskManagement
  import opened SmcOrchestration
  import opened OrchestratorRuns
  import opened LadderExample

  /** `Take` serializes the state, `Write` puts the latest serialization into the store; a failed write never comes. */
  datatype CrashEvent = Live(event: Event) | Take | Write | Crash

  datatype Process = Process(world: World, taken: Option<SymbolSnapshot>, saved: Option<SymbolSnapshot>)

  function StateFrom(risk: RiskConfig, saved: Option<SymbolSnapshot>): SymbolState {
    if saved.Some? then Restored(risk, saved.value) else FreshSymbol(risk)
  }

  function CrashStep(cfg: PairConfig, risk: RiskConfig, p: Process, event: CrashEvent): Process {
    match event
    case Live(event) => p.(world := Step(cfg, risk, p.world, event))
    case Take => p.(taken := Some(Serialized(p.world.state)))
    case Write => if p.taken.Some? then p.(taken := None, saved := p.taken) else p
    case Crash => Process(p.world.(state := StateFrom(risk, p.saved), offered := None), None, p.saved)
  }

  function CrashRun(cfg: PairConfig, risk: RiskConfig, events: seq<CrashEvent>): Process {
    if events == [] then Process(Beginning(risk), None, None)
    else CrashStep(cfg, risk, CrashRun(cfg, risk, events[..|events| - 1]), events[|events| - 1])
  }

  // ----- When a sweep is remembered -----

  /** Event `k` commits the sweep of time `t`. */
  ghost predicate CommitsAt(cfg: PairConfig, risk: RiskConfig, events: seq<CrashEvent>, k: nat, t: int)
    requires k < |events|
  {
    var offered := CrashRun(cfg, risk, events[..k]).world.offered;
    events[k] == Live(Commit) && offered.Some? && offered.value.h1SweepTime == Some(t)
  }

  /** Between the events `a` and `c` the state was serialized, and after that written. */
  ghost predicate WrittenBetween(events: seq<CrashEvent>, a: nat, c: nat)
    requires c <= |events|
  {
    exists k1, k2 :: a < k1 < k2 < c && events[k1].Take? && events[k2].Write?
  }

  ghost predicate TakenBetween(events: seq<CrashEvent>, a: nat, c: nat)
    requires c <= |events|
  {
    exists k :: a < k < c && events[k].Take?
  }

  /** Between the events `a` and `b` the process crashed before the state after `a` had been written. */
  ghost predicate LostBetween(events: seq<CrashEvent>, a: nat, b: nat)
    requires b <= |events|
  {
    exists c :: a < c < b && events[c].Crash? && !WrittenBetween(events, a, c)
  }

  predicate Knows(snap: Option<SymbolSnapshot>, t: int) {
    snap.Some? && t in snap.value.actionedSweeps
  }

  /** The sweep committed at event `a` is marked, in memory and in whatever has been saved of it since. */
  ghost predicate Remembers(p: Process, events: seq<CrashEvent>, a: nat, t: int) {
    && Some(t) in p.world.state.actionedSweeps
    && (TakenBetween(events, a, |events|) ==> Knows(p.taken, t) || (p.taken.None? && Knows(p.saved, t)))
    && (WrittenBetween(events, a, |events|) ==> Knows(p.saved, t))
  }

  lemma SerializedKnows(state: SymbolState, t: int)
    ensures Some(t) in state.actionedSweeps ==> t in Serialized(state).actionedSweeps
  {
    if Some(t) in state.actionedSweeps {
      var mark: Option<int> := Some(t);
      assert mark in state.actionedSweeps && mark.value == t;
    }
  }

  lemma RestoredKnows(risk: RiskConfig, saved: Option<SymbolSnapshot>, t: int)
    requires Knows(saved, t)
    ensures Some(t) in StateFrom(risk, saved).actionedSweeps
  {
  }

  /** Nothing in a running process takes a mark with a time away. */
  lemma MarksStay(cfg: PairConfig, risk: RiskConfig, w: World, event: Event, t: int)
    requires Some(t) in w.state.actionedSweeps
    ensures Some(t) in Step(cfg, risk, w, event).state.actionedSweeps
  {
    match event {
      case Close(close) => EvaluateOffersUntaken(cfg, risk, w.state, close);
      case Commit =>
      case Exit(_, _, _) =>
      case Restart => RestartMembers(risk, w.state);
    }
  }

  /** What one event adds to what has been taken and written since `a`. */
  lemma OneEventMore(events: seq<CrashEvent>, a: nat)
    requires a + 1 < |events|
    ensures var init, last := events[..|events| - 1], events[|events| - 1];
            && (TakenBetween(events, a, |events|) <==> TakenBetween(init, a, |init|) || last.Take?)
            && (WrittenBetween(events, a, |events|) ==>
                  WrittenBetween(init, a, |init|) || (last.Write? && TakenBetween(init, a, |init|)))
            && (WrittenBetween(init, a, |init|) ==> TakenBetween(init, a, |init|))
            && (LostBetween(init, a, |init|) ==> LostBetween(events, a, |events|))
            && (last.Crash? && !WrittenBetween(init, a, |init|) ==> LostBetween(events, a, |events|))
  {
    var n, init := |events| - 1, events[..|events| - 1];
    assert forall k :: 0 <= k < n ==> init[k] == events[k];
    if LostBetween(init, a, n) {
      var c :| a < c < n && init[c].Crash? && !WrittenBetween(init, a, c);
      assert events[c].Crash? && !WrittenBetween(events, a, c);
    }
    if events[n].Crash? && !WrittenBetween(init, a, n) {
      assert !WrittenBetween(events, a, n);
    }
  }

  lemma StepRemembers(cfg: PairConfig, risk: RiskConfig, p: Process, events: seq<CrashEvent>, a: nat, t: int)
    requires a + 1 < |events| && Remembers(p, events[..|events| - 1], a, t)
    ensures var last := events[|events| - 1];
            Remembers(CrashStep(cfg, risk, p, last), events, a, t) || LostBetween(events, a, |events|)
  {
    hide Step, Restored, Serialized, TakenBetween, WrittenBetween, LostBetween;
    var last := events[|events| - 1];
    OneEventMore(events, a);
    match last {
      case Live(event) => MarksStay(cfg, risk, p.world, event, t);
      case Take => SerializedKnows(p.world.state, t);
      case Write =>
      case Crash =>
        if Knows(p.saved, t) {
          RestoredKnows(risk, p.saved, t);
        }
    }
  }

  lemma JustCommitted(cfg: PairConfig, risk: RiskConfig, events: seq<CrashEvent>, a: nat, t: int)
    requires |events| == a + 1 && CommitsAt(cfg, risk, events, a, t)
    ensures Remembers(CrashRun(cfg, risk, events), events, a, t)
  {
  }

  /** A committed sweep stays marked until a crash comes before its mark has been written. */
  lemma {:induction false} RememberedUnlessLost(cfg: PairConfig, risk: RiskConfig, events: seq<CrashEvent>, a: nat, t: int)
    requires a < |events| && CommitsAt(cfg, risk, events, a, t)
    ensures Remembers(CrashRun(cfg, risk, events), events, a, t) || LostBetween(events, a, |events|)
  {
    hide Remembers, LostBetween, CrashStep;
    if |events| == a + 1 {
      JustCommitted(cfg, risk, events, a, t);
    } else {
      var init := events[..|events| - 1];
      assert init[..a] == events[..a];
      RememberedUnlessLost(cfg, risk, init, a, t);
      if LostBetween(init, a, |init|) {
        OneEventMore(events, a);
      } else {
        StepRemembers(cfg, risk, CrashRun(cfg, risk, init), events, a, t);
      }
    }
  }

  /** What is on offer has no mark. */
  ghost predicate OffersUntaken(w: World) {
    w.offered.Some? && w.offered.value.h1SweepTime.Some? ==> w.offered.value.h1SweepTime !in w.state.actionedSweeps
  }

  lemma {:induction false} RunOffersUntaken(cfg: PairConfig, risk: RiskConfig, events: seq<CrashEvent>)
    ensures OffersUntaken(CrashRun(cfg, risk, events).world)
  {
    if events != [] {
      var init, last := events[..|events| - 1], events[|events| - 1];
      RunOffersUntaken(cfg, risk, init);
      if last.Live? {
        LiveOffersUntaken(cfg, risk, CrashRun(cfg, risk, init).world, last.event);
      }
    }
  }

  lemma LiveOffersUntaken(cfg: PairConfig, risk: RiskConfig, w: World, event: Event)
    requires OffersUntaken(w)
    ensures OffersUntaken(Step(cfg, risk, w, event))
  {
    match event {
      case Close(close) => EvaluateOffersUntaken(cfg, risk, w.state, close);
      case Commit =>
      case Exit(_, _, _) =>
      case Restart => RestartMembers(risk, w.state);
    }
  }

  /**
   A sweep is committed a second time only if, since its first commit, the process crashed
   before a serialization taken after that commit had been written.
   */
  lemma TwiceOnlyAfterLoss(cfg: PairConfig, risk: RiskConfig, events: seq<CrashEvent>, a: nat, b: nat, t: int)
    requires a < b < |events| && CommitsAt(cfg, risk, events, a, t) && CommitsAt(cfg, risk, events, b, t)
    ensures LostBetween(events, a, b)
  {
    var until := events[..b];
    assert until[..a] == events[..a];
    RememberedUnlessLost(cfg, risk, until, a, t);
    RunOffersUntaken(cfg, risk, until);
    var c :| a < c < b && until[c].Crash? && !WrittenBetween(until, a, c);
    WrittenInPrefix(events, b, a, c);
  }

  lemma WrittenInPrefix(events: seq<CrashEvent>, n: nat, a: nat, c: nat)
    requires c <= n <= |events|
    ensures WrittenBetween(events[..n], a, c) <==> WrittenBetween(events, a, c)
  {
    assert forall k :: 0 <= k < n ==> events[..n][k] == events[k];
  }

  // ----- A sweep that is taken twice -----

  /** The sweep fires, is committed, and fires again in the process that follows the crash. */
  function LossyEvents(): seq<CrashEvent> {
    [Live(Event.Close(FirstClose())), Live(Commit), Crash, Live(Event.Close(FirstClose())), Live(Commit)]
  }

  lemma FreshCloseOffers(risk: RiskConfig, w: World)
    requires risk.initialBalance > 0.0 && risk.maxDailyLossPercent > 0.0
    requires risk.maxConsecutiveLosses > 0 && risk.maxOpenPositions > 0
    requires w.state == FreshSymbol(risk)
    ensures var w' := Step(Ladder(), risk, w, Event.Close(FirstClose()));
            w'.offered.Some? && w'.offered.value.h1SweepTime == Some(28 * MS_PER_HOUR)
  {
    FirstCloseOffersSweep(risk);
  }

  lemma PrefixesOfLossy()
    ensures var e := LossyEvents();
            && e[..1][..0] == [] && e[..2][..1] == e[..1] && e[..3][..2] == e[..2] && e[..4][..3] == e[..3]
            && |e| == 5
  {
  }

  /** With nothing written, a crash after the first commit lets the same sweep be committed again. */
  lemma CrashCommitsTwice(risk: RiskConfig)
    requires risk.initialBalance > 0.0 && risk.maxDailyLossPercent > 0.0
    requires risk.maxConsecutiveLosses > 0 && risk.maxOpenPositions > 0
    ensures CommitsAt(Ladder(), risk, LossyEvents(), 1, 28 * MS_PER_HOUR)
    ensures CommitsAt(Ladder(), risk, LossyEvents(), 4, 28 * MS_PER_HOUR)
  {
    hide Step, Ladder, FirstClose;
    var e := LossyEvents();
    PrefixesOfLossy();
    var start := CrashRun(Ladder(), risk, []);
    FreshCloseOffers(risk, start.world);
    assert CrashRun(Ladder(), risk, e[..1]) == CrashStep(Ladder(), risk, start, e[0]);
    var after := CrashRun(Ladder(), risk, e[..3]);
    assert CrashRun(Ladder(), risk, e[..2]).saved == None;
    assert after == CrashStep(Ladder(), risk, CrashRun(Ladder(), risk, e[..2]), Crash);
    FreshCloseOffers(risk, after.world);
    assert CrashRun(Ladder(), risk, e[..4]) == CrashStep(Ladder(), risk, after, e[3]);
  }
}
