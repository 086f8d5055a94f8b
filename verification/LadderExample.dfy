/** A ladder pair and one close at which a sweep of its last usable H1 bar fires. */
module LadderExample {
  import opened Wrappers
  import opened Market
  import opened RiskManagement
  import opened SmcOrchestration
  import opened OrchestratorRuns

  const NOW := 30 * MS_PER_HOUR

  function Ladder(): PairConfig {
    PairConfig(0.0, 0.0, {}, false, false, [(0, 24)], {}, 0, 0.0, 0.0, None, 0.5, 1.0, 2.0, 100.0)
  }

  function Sweep(): PendingSetup {
    PendingSetup(Buy, Reversal, 1.0, 1.0, 2.0, 1.0, 1.0, 28, 40, Some(28 * MS_PER_HOUR))
  }

  /** The last usable H1 bar has swept, the structure gates pass, and the lot is a whole one. */
  function SweepOracle(): Oracle {
    Oracle(idx => if idx == 28 then Some(Sweep()) else None, setup => true, setup => 1.0)
  }

  function FirstClose(): M15Close {
    M15Close(MarketView(30, seq(30, i => i * MS_PER_HOUR), NOW, 2.0, 0.0, None, 0.0, false), LiveContext({}, 0),
             SweepOracle())
  }

  lemma SweepIsQueued(risk: RiskConfig)
    ensures Refreshed(Ladder(), FreshSymbol(risk), FirstClose()).pending == [Sweep()]
  {
    var close, none: set<Option<int>> := FirstClose(), {};
    assert FoundBetween(Ladder(), close, none, 28, 28) == [];
    assert Found(Ladder(), close, none, 28) == [Sweep()];
    assert FoundBetween(Ladder(), close, none, 28, 29) == [Sweep()];
    var queue := CatchUp(Ladder(), FreshSymbol(risk), close).pending;
    assert queue == [Sweep()];
    FilterAll((p: PendingSetup) => !Expired(p, 29), queue);
  }

  lemma SweepFires()
    ensures Judge(Ladder(), FirstClose(), {}, Sweep()).Fire?
  {
  }

  lemma FreshGateOpen(risk: RiskConfig)
    requires risk.initialBalance > 0.0 && risk.maxDailyLossPercent > 0.0
    requires risk.maxConsecutiveLosses > 0 && risk.maxOpenPositions > 0
    ensures GatesOpen(Ladder(), risk, FreshSymbol(risk), FirstClose())
  {
    assert Ladder().killzones[0] == (0, 24);
  }

  lemma FirstCloseOffers(risk: RiskConfig)
    requires risk.initialBalance > 0.0 && risk.maxDailyLossPercent > 0.0
    requires risk.maxConsecutiveLosses > 0 && risk.maxOpenPositions > 0
    ensures Evaluate(Ladder(), risk, FreshSymbol(risk), FirstClose()).1.Some?
  {
    hide Evaluate, Refreshed, Judge, GatesOpen, Sweep;
    SweepIsQueued(risk);
    SweepFires();
    FreshGateOpen(risk);
    assert Sweep() in Refreshed(Ladder(), FreshSymbol(risk), FirstClose()).pending;
    OffersExactlyWhen(Ladder(), risk, FreshSymbol(risk), FirstClose());
  }

  /** What it offers is the sweep. */
  lemma FirstCloseOffersSweep(risk: RiskConfig)
    requires risk.initialBalance > 0.0 && risk.maxDailyLossPercent > 0.0
    requires risk.maxConsecutiveLosses > 0 && risk.maxOpenPositions > 0
    ensures var offered := Evaluate(Ladder(), risk, FreshSymbol(risk), FirstClose()).1;
            offered.Some? && offered.value.h1SweepTime == Some(28 * MS_PER_HOUR)
  {
    hide Evaluate, Refreshed, Judge, GatesOpen, PassGates;
    var state, close := FreshSymbol(risk), FirstClose();
    FirstCloseOffers(risk);
    SweepIsQueued(risk);
    EvaluateOffersQueued(Ladder(), risk, state, close);
  }

  lemma EvaluateOffersQueued(cfg: PairConfig, risk: RiskConfig, state: SymbolState, close: M15Close)
    requires Processes(close.view)
    ensures var offered := Evaluate(cfg, risk, state, close).1;
            offered.Some? ==> exists p :: p in Refreshed(cfg, state, close).pending && offered.value.h1SweepTime == p.sweepTime
  {
    hide Refreshed, Judge, PassGates;
    var refreshed := Refreshed(cfg, state, close);
    RefreshedMembers(cfg, state, close);
    GatesEffect(cfg, risk, refreshed, close);
    var r := PassGates(cfg, risk, refreshed, close);
    if r.1.Some? {
      var p :| p in r.0.pending && Judge(cfg, close, refreshed.actionedSweeps, p) == Fire(r.1.value);
      FiredSignal(cfg, close, refreshed.actionedSweeps, p);
    }
  }
}
