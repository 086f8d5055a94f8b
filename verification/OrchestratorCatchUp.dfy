/** The H1 bars a run considers for sweep detection. */
module OrchestratorCatchUp {
  import opened Wrappers
  import opened RiskManagement
  import opened SmcOrchestration
  import opened OrchestratorRuns

  /** The numbers from `lo` up to, not including, `hi`. */
  function Indices(lo: int, hi: int): seq<int>
    decreases hi - lo
  {
    if hi <= lo then [] else Indices(lo, hi - 1) + [hi - 1]
  }

  lemma {:induction false} IndicesJoin(lo: int, mid: int, hi: int)
    requires lo <= mid <= hi
    ensures Indices(lo, mid) + Indices(mid, hi) == Indices(lo, hi)
    decreases hi - mid
  {
    if mid < hi {
      IndicesJoin(lo, mid, hi - 1);
    } else {
      assert Indices(lo, mid) + [] == Indices(lo, mid);
    }
  }

  /** Each index of the range occurs, and occurs once. */
  lemma {:induction false} IndicesMeaning(lo: int, hi: int)
    requires lo <= hi
    ensures |Indices(lo, hi)| == hi - lo
    ensures forall i :: 0 <= i < hi - lo ==> Indices(lo, hi)[i] == lo + i
    decreases hi - lo
  {
    if lo < hi {
      IndicesMeaning(lo, hi - 1);
    }
  }

  /** The bars one event runs detection on. */
  function ConsideredBy(state: SymbolState, event: Event): seq<int> {
    if event.Close? && Processes(event.close.view)
    then Indices(CatchUpStart(state, event.close.view), LastUsable(event.close.view) + 1)
    else []
  }

  /** The bars a run considers, in the order it does. */
  function Considered(cfg: PairConfig, risk: RiskConfig, events: seq<Event>): seq<int> {
    if events == [] then []
    else
      var init := events[..|events| - 1];
      Considered(cfg, risk, init) + ConsideredBy(Run(cfg, risk, Beginning(risk), init).state, events[|events| - 1])
  }

  /** How many H1 bars the latest processed close saw, 0 if there is none. */
  function LatestCount(events: seq<Event>): nat {
    if events == [] then 0
    else
      var last := events[|events| - 1];
      if last.Close? && Processes(last.close.view) then |last.close.view.h1Times| else LatestCount(events[..|events| - 1])
  }

  /** How many the first processed close saw, 0 if there is none. */
  function FirstCount(events: seq<Event>): nat {
    if events == [] then 0
    else
      var before, last := FirstCount(events[..|events| - 1]), events[|events| - 1];
      if before == 0 && last.Close? && Processes(last.close.view) then |last.close.view.h1Times| else before
  }

  /** Every close sees a prefix of the same bars, never a shorter one than an earlier processed close. */
  ghost predicate SeesPrefixes(bars: seq<int>, events: seq<Event>) {
    forall i :: 0 <= i < |events| && events[i].Close? && Processes(events[i].close.view) ==>
                  && events[i].close.view.h1Times <= bars
                  && |events[i].close.view.h1Times| >= LatestCount(events[..i])
  }

  lemma ProcessedTime(cfg: PairConfig, risk: RiskConfig, w: World, event: Event)
    ensures Step(cfg, risk, w, event).state.lastProcessedH1Time
         == if event.Close? && Processes(event.close.view)
            then Some(event.close.view.h1Times[LastUsable(event.close.view)])
            else w.state.lastProcessedH1Time
  {
    if event.Close? && Processes(event.close.view) {
      GatesEffect(cfg, risk, Refreshed(cfg, w.state, event.close), event.close);
    }
  }

  /** With the bar before the last of `seen` processed, catch-up resumes right behind it. */
  lemma ResumesBehind(state: SymbolState, view: MarketView, seen: nat)
    requires Processes(view) && MIN_BARS <= seen <= |view.h1Times|
    requires forall i, j :: 0 <= i < j < |view.h1Times| ==> view.h1Times[i] < view.h1Times[j]
    requires state.lastProcessedH1Time == Some(view.h1Times[seen - 2])
    ensures CatchUpStart(state, view) == seen - 1
  {
    if seen < |view.h1Times| {
      var usable := LastUsable(view);
      assert view.h1Times[seen - 2] < view.h1Times[seen - 1] && view.h1Times[seen - 2] < view.h1Times[usable];
    }
  }

  /** The bars considered so far are all those from the first one up to the last processed. */
  ghost predicate Covered(bars: seq<int>, state: SymbolState, considered: seq<int>, first: nat, latest: nat) {
    if latest == 0 then first == 0 && considered == [] && state.lastProcessedH1Time == None
    else
      && MIN_BARS <= first <= latest <= |bars|
      && considered == Indices(first - 2, latest - 1)
      && state.lastProcessedH1Time == Some(bars[latest - 2])
  }

  ghost predicate Increasing(times: seq<int>) {
    forall i, j :: 0 <= i < j < |times| ==> times[i] < times[j]
  }

  lemma CloseExtends(bars: seq<int>, state: SymbolState, view: MarketView, considered: seq<int>, first: nat,
                     latest: nat)
    requires Increasing(bars) && Covered(bars, state, considered, first, latest)
    requires Processes(view) && view.h1Times <= bars && |view.h1Times| >= latest
    ensures considered + Indices(CatchUpStart(state, view), LastUsable(view) + 1)
         == Indices((if latest == 0 then |view.h1Times| else first) - 2, |view.h1Times| - 1)
  {
    assert Increasing(view.h1Times);
    if latest > 0 {
      ResumesBehind(state, view, latest);
      IndicesJoin(first - 2, latest - 1, |view.h1Times| - 1);
    }
  }

  lemma EventExtends(bars: seq<int>, state: SymbolState, event: Event, state': SymbolState, considered: seq<int>,
                     first: nat, latest: nat)
    requires Increasing(bars) && Covered(bars, state, considered, first, latest)
    requires event.Close? && Processes(event.close.view) ==>
               event.close.view.h1Times <= bars && |event.close.view.h1Times| >= latest
    requires state'.lastProcessedH1Time
          == if event.Close? && Processes(event.close.view)
             then Some(event.close.view.h1Times[LastUsable(event.close.view)])
             else state.lastProcessedH1Time
    ensures var processed := event.Close? && Processes(event.close.view);
            Covered(bars, state', considered + ConsideredBy(state, event),
                    if first == 0 && processed then |event.close.view.h1Times| else first,
                    if processed then |event.close.view.h1Times| else latest)
  {
    if event.Close? && Processes(event.close.view) {
      CloseExtends(bars, state, event.close.view, considered, first, latest);
    } else {
      assert considered + [] == considered;
    }
  }

  lemma PrefixSees(bars: seq<int>, events: seq<Event>)
    requires events != [] && SeesPrefixes(bars, events)
    ensures SeesPrefixes(bars, events[..|events| - 1])
    ensures var last := events[|events| - 1];
            last.Close? && Processes(last.close.view) ==>
              last.close.view.h1Times <= bars && |last.close.view.h1Times| >= LatestCount(events[..|events| - 1])
  {
    var init := events[..|events| - 1];
    assert forall i :: 0 <= i < |init| ==> init[i] == events[i] && init[..i] == events[..i];
  }

  /**
   However the closes jump ahead, the bars considered are the contiguous range from the first
   one considered to the last whose successor has closed, in order and each once.
   */
  lemma {:induction false} CatchUpCoversEachBarOnce(cfg: PairConfig, risk: RiskConfig, bars: seq<int>,
                                                    events: seq<Event>)
    requires Increasing(bars) && SeesPrefixes(bars, events)
    ensures Covered(bars, Run(cfg, risk, Beginning(risk), events).state, Considered(cfg, risk, events),
                    FirstCount(events), LatestCount(events))
  {
    if events != [] {
      var init, last := events[..|events| - 1], events[|events| - 1];
      PrefixSees(bars, events);
      CatchUpCoversEachBarOnce(cfg, risk, bars, init);
      var w := Run(cfg, risk, Beginning(risk), init);
      ProcessedTime(cfg, risk, w, last);
      EventExtends(bars, w.state, last, Step(cfg, risk, w, last).state, Considered(cfg, risk, init),
                   FirstCount(init), LatestCount(init));
    }
  }

  /** Every admissible sweep found on a bar while it is considered is queued by that close. */
  lemma {:induction false} FoundIsQueued(cfg: PairConfig, close: M15Close, actioned: set<Option<int>>, lo: int,
                                         hi: int, idx: int)
    requires lo <= idx < hi && close.view.d1Adx >= cfg.d1AdxFloor
    requires close.oracle.detectSweep(idx).Some? && Admits(cfg, actioned, close.oracle.detectSweep(idx).value)
    ensures close.oracle.detectSweep(idx).value in FoundBetween(cfg, close, actioned, lo, hi)
    decreases hi - lo
  {
    if idx < hi - 1 {
      FoundIsQueued(cfg, close, actioned, lo, hi - 1, idx);
    }
  }
}
