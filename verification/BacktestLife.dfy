/**
 The life of each position of a backtest: whatever signals arrive, what stands under an id, open or
 closed, is the position as it was opened, managed over the bars after its own.
 */
module BacktestLife {
  import opened Wrappers
  import opened Market
  import opened Calendar
  import opened PositionSimulator
  import opened PositionExits
  import opened RiskManagement
  import opened SimulatedBroking
  import opened BacktestEngine
  import opened BacktestLosses
  import opened TrailTiers

  /** The bars from `lo` up to, not including, `hi`. */
  function BarsFrom(inputs: seq<BarInput>, lo: nat, hi: nat): seq<Bar>
    requires lo <= hi <= |inputs|
  {
    seq(hi - lo, i requires 0 <= i < hi - lo => inputs[lo + i].bar)
  }

  /** The same position but for the mark that it has a scale-in and its tags. */
  ghost predicate Alike(p: Position, q: Position) {
    q == p.(hasScaleIn := q.hasScaleIn, setupTags := q.setupTags)
  }

  /** `q` is what stands of a position opened as `p`, once bar `last` has managed it. */
  ghost predicate LivedTo(inputs: seq<BarInput>, p: Position, q: Position, last: int) {
    && 0 <= p.entryIndex <= last < |inputs|
    && Alike(ManageAll(p, BarsFrom(inputs, p.entryIndex + 1, last + 1)), q)
  }

  ghost predicate OpenLives(inputs: seq<BarInput>, s: Book, t: OpenPosition) {
    && t.id < s.nextId && t.id in s.atEntry && LivedTo(inputs, s.atEntry[t.id], t.position, |inputs| - 1)
    && t.position.setupTags == s.atEntry[t.id].setupTags
  }

  /** It closed on a later bar `j` than its own, which had just managed it. */
  ghost predicate ClosedOn(inputs: seq<BarInput>, s: Book, r: ClosedRecord, j: int) {
    && r.id < s.nextId && r.id in s.atEntry && 0 <= j < |inputs| && s.atEntry[r.id].entryIndex < j && r.trade.exitTime == inputs[j].bar.candle.openTime
    && LivedTo(inputs, s.atEntry[r.id], r.trade.position, j)
  }

  ghost predicate AllLive(inputs: seq<BarInput>, s: Book) {
    && (forall t :: t in s.open ==> OpenLives(inputs, s, t))
    && (forall r :: r in s.closed ==> exists j :: ClosedOn(inputs, s, r, j))
  }

  // ----- Management -----

  lemma RatchetIsBlind(p: Position, q: Position, peak: real, lock: real, threshold: real, removal: Option<real>, trail: real)
    requires Alike(p, q) && q.setupTags == p.setupTags
    ensures Alike(Ratchet(p, peak, lock, threshold, removal, trail), Ratchet(q, peak, lock, threshold, removal, trail))
    ensures Ratchet(q, peak, lock, threshold, removal, trail).setupTags == q.setupTags
  {
  }

  lemma SameQuantities(p: Position, q: Position, bar: Bar, move: real)
    requires Alike(p, q) && q.setupTags == p.setupTags
    ensures UpdatedPeak(q, bar) == UpdatedPeak(p, bar) && (forall price :: MoveTo(q, price) == MoveTo(p, price))
    ensures Risk(q) == Risk(p) && Config(q) == Config(p) && TrailAt(q, move) == TrailAt(p, move)
  {
    hide ComputeTrailDistance;
    assert Risk(q) == Risk(p) && Config(q) == Config(p);
  }

  lemma UpdateIsBlind(p: Position, q: Position, bar: Bar)
    requires Alike(p, q) && q.setupTags == p.setupTags
    ensures Alike(UpdatePositionManagement(p, bar), UpdatePositionManagement(q, bar))
    ensures UpdatePositionManagement(q, bar).setupTags == q.setupTags
  {
    hide UpdatePositionManagement, Ratchet, UpdatedPeak, MoveTo, Risk, Config, TrailAt, BreakevenThreshold, RemovalThreshold;
    if HasTag(p, "RANGE_ENGINE") {
      RangeStep(p, bar);
      RangeStep(q, bar);
    } else {
      var peak := UpdatedPeak(p, bar);
      var move := MoveTo(p, peak);
      SameQuantities(p, q, bar, move);
      UpdateUnfolds(p, bar, peak, move);
      UpdateUnfolds(q, bar, peak, move);
      RatchetIsBlind(p, q, peak, Risk(p) * 0.1, BreakevenThreshold(Risk(p), Config(p)),
                     RemovalThreshold(Risk(p), Config(p)), TrailAt(p, move));
    }
  }

  lemma OneBarMore(inputs: seq<BarInput>, p: Position, lo: nat, hi: nat)
    requires lo <= hi < |inputs|
    ensures ManageAll(p, BarsFrom(inputs, lo, hi + 1)) == UpdatePositionManagement(ManageAll(p, BarsFrom(inputs, lo, hi)), inputs[hi].bar)
  {
    hide UpdatePositionManagement;
    var bars := BarsFrom(inputs, lo, hi + 1);
    assert bars[..|bars| - 1] == BarsFrom(inputs, lo, hi) && bars[|bars| - 1] == inputs[hi].bar;
  }

  lemma {:induction false} TagsStay(p: Position, bars: seq<Bar>)
    ensures ManageAll(p, bars).setupTags == p.setupTags
  {
    if bars != [] {
      hide UpdatePositionManagement;
      TagsStay(p, bars[..|bars| - 1]);
      UpdateIsBlind(ManageAll(p, bars[..|bars| - 1]), ManageAll(p, bars[..|bars| - 1]), bars[|bars| - 1]);
    }
  }

  lemma SameBars(inputs: seq<BarInput>, init: seq<BarInput>, lo: nat, hi: nat)
    requires init <= inputs && lo <= hi <= |init|
    ensures BarsFrom(inputs, lo, hi) == BarsFrom(init, lo, hi)
  {
  }

  lemma ManagedLives(inputs: seq<BarInput>, s: Book, t: OpenPosition)
    requires inputs != [] && OpenLives(inputs[..|inputs| - 1], s, t)
    ensures OpenLives(inputs, s, t.(position := UpdatePositionManagement(t.position, inputs[|inputs| - 1].bar)))
  {
    hide UpdatePositionManagement, ManageAll;
    var n, init, p := |inputs| - 1, inputs[..|inputs| - 1], s.atEntry[t.id];
    SameBars(inputs, init, p.entryIndex + 1, n);
    OneBarMore(inputs, p, p.entryIndex + 1, n);
    TagsStay(p, BarsFrom(inputs, p.entryIndex + 1, n));
    UpdateIsBlind(ManageAll(p, BarsFrom(inputs, p.entryIndex + 1, n)), t.position, inputs[n].bar);
  }

  lemma ClosedStays(inputs: seq<BarInput>, init: seq<BarInput>, s: Book, s': Book, r: ClosedRecord, j: int)
    requires init <= inputs && ClosedOn(init, s, r, j)
    requires s'.nextId >= s.nextId && r.id in s'.atEntry && s'.atEntry[r.id] == s.atEntry[r.id]
    ensures ClosedOn(inputs, s', r, j)
  {
    hide ManageAll;
    SameBars(inputs, init, s.atEntry[r.id].entryIndex + 1, j + 1);
  }

  lemma BookManaged(inputs: seq<BarInput>, s: Book)
    requires inputs != [] && AllLive(inputs[..|inputs| - 1], s)
    ensures AllLive(inputs, Managed(s, inputs[|inputs| - 1].bar))
  {
    hide OpenLives, ClosedOn, UpdatePositionManagement;
    var bar, init, s' := inputs[|inputs| - 1].bar, inputs[..|inputs| - 1], Managed(s, inputs[|inputs| - 1].bar);
    forall t | t in s'.open
      ensures OpenLives(inputs, s', t)
    {
      var k :| 0 <= k < |s.open| && t == s'.open[k];
      assert s.open[k] in s.open;
      ManagedLives(inputs, s, s.open[k]);
      OpenInBook(inputs, s, s', t);
    }
    forall r | r in s'.closed
      ensures exists j :: ClosedOn(inputs, s', r, j)
    {
      var j :| ClosedOn(init, s, r, j);
      ClosedKnown(init, s, r, j);
      ClosedStays(inputs, init, s, s', r, j);
    }
  }

  lemma OpenInBook(inputs: seq<BarInput>, s: Book, s': Book, t: OpenPosition)
    requires OpenLives(inputs, s, t) && s'.nextId >= s.nextId
    requires t.id in s.atEntry ==> t.id in s'.atEntry && s'.atEntry[t.id] == s.atEntry[t.id]
    ensures OpenLives(inputs, s', t)
  {
    hide LivedTo;
  }

  lemma ClosedKnown(inputs: seq<BarInput>, s: Book, r: ClosedRecord, j: int)
    requires ClosedOn(inputs, s, r, j)
    ensures r.id in s.atEntry && r.id < s.nextId
  {
  }

  // ----- Sweeps -----

  /** Everything open was opened on an earlier bar than the last. */
  ghost predicate AllEarlier(inputs: seq<BarInput>, s: Book) {
    forall t :: t in s.open ==> t.id in s.atEntry && s.atEntry[t.id].entryIndex < |inputs| - 1
  }

  lemma ManagedEarlier(inputs: seq<BarInput>, s: Book, bar: Bar)
    requires inputs != [] && AllLive(inputs[..|inputs| - 1], s)
    ensures AllEarlier(inputs, Managed(s, bar))
  {
    hide UpdatePositionManagement, ManageAll;
    forall t | t in Managed(s, bar).open
      ensures t.id in s.atEntry && s.atEntry[t.id].entryIndex < |inputs| - 1
    {
      var k :| 0 <= k < |s.open| && t == Managed(s, bar).open[k];
      assert s.open[k] in s.open;
    }
  }

  /** An exit of a position that lives on this bar closes it as it stands, but for its tags. */
  ghost predicate ClosesAsIs(exitOf: OpenPosition -> Option<ClosedTrade>, time: int) {
    forall t: OpenPosition :: exitOf(t).Some? ==>
                                exitOf(t).value.exitTime == time
                                && exitOf(t).value.position == t.position.(setupTags := exitOf(t).value.position.setupTags)
  }

  lemma ExitLives(inputs: seq<BarInput>, s: Book, t: OpenPosition, trade: ClosedTrade)
    requires inputs != [] && OpenLives(inputs, s, t) && s.atEntry[t.id].entryIndex < |inputs| - 1
    requires trade.exitTime == inputs[|inputs| - 1].bar.candle.openTime
    requires trade.position == t.position.(setupTags := trade.position.setupTags)
    ensures ClosedOn(inputs, s, ClosedRecord(t.id, trade), |inputs| - 1)
  {
    hide ManageAll;
  }

  lemma SweptLives(inputs: seq<BarInput>, s: Book, sweep: Sweep)
    requires inputs != [] && AllLive(inputs, s) && AllEarlier(inputs, s)
    requires ClosesAsIs(sweep.exitOf, inputs[|inputs| - 1].bar.candle.openTime)
    ensures AllLive(inputs, Swept(s, sweep)) && AllEarlier(inputs, Swept(s, sweep))
  {
    hide OpenLives, ClosedOn;
    var s' := Swept(s, sweep);
    KeptMembers(sweep.exitOf, s.open);
    ExitOrigins(sweep.exitOf, s.open);
    forall t | t in s'.open
      ensures OpenLives(inputs, s', t)
    {
      OpenInBook(inputs, s, s', t);
    }
    forall r | r in s'.closed
      ensures exists j :: ClosedOn(inputs, s', r, j)
    {
      if r in s.closed {
        var j :| ClosedOn(inputs, s, r, j);
        ClosedKnown(inputs, s, r, j);
        ClosedStays(inputs, inputs, s, s', r, j);
      } else {
        var t :| t in s.open && t.id == r.id && sweep.exitOf(t) == Some(r.trade);
        ExitLives(inputs, s, t, r.trade);
        ClosedKnown(inputs, s, r, |inputs| - 1);
        ClosedStays(inputs, inputs, s, s', r, |inputs| - 1);
      }
    }
  }

  lemma ExitSweepCloses(cfg: EngineConfig, bar: Bar, i: int)
    ensures ClosesAsIs(ExitSweep(cfg, bar, i).exitOf, bar.candle.openTime)
    ensures ClosesAsIs(MaxBarsSweep(cfg, bar, i).exitOf, bar.candle.openTime)
  {
    hide CalculatePnl;
  }

  // ----- Openings -----

  lemma NewLives(inputs: seq<BarInput>, s: Book, id: nat, p: Position)
    requires inputs != [] && p.entryIndex == |inputs| - 1 && id < s.nextId && id in s.atEntry && s.atEntry[id] == p
    ensures OpenLives(inputs, s, OpenPosition(id, p))
  {
    assert BarsFrom(inputs, |inputs|, |inputs|) == [];
    assert ManageAll(p, []) == p;
  }

  lemma JoinedLives(inputs: seq<BarInput>, s: Book, p: Position)
    requires inputs != [] && AllLive(inputs, s) && p.entryIndex == |inputs| - 1
    ensures AllLive(inputs, Joined(s, p))
  {
    hide OpenLives, ClosedOn;
    var s' := Joined(s, p);
    forall t | t in s'.open
      ensures OpenLives(inputs, s', t)
    {
      if t in s.open {
        OpenKnown(inputs, s, t);
        OpenInBook(inputs, s, s', t);
      } else {
        NewLives(inputs, s', s.nextId, p);
      }
    }
    ClosedKept(inputs, s, s');
  }

  lemma OpenKnown(inputs: seq<BarInput>, s: Book, t: OpenPosition)
    requires OpenLives(inputs, s, t)
    ensures t.id < s.nextId && t.id in s.atEntry
  {
  }

  lemma ClosedKept(inputs: seq<BarInput>, s: Book, s': Book)
    requires AllLive(inputs, s) && s'.closed == s.closed && s'.nextId >= s.nextId
    requires forall id :: id < s.nextId && id in s.atEntry ==> id in s'.atEntry && s'.atEntry[id] == s.atEntry[id]
    ensures forall r :: r in s'.closed ==> exists j :: ClosedOn(inputs, s', r, j)
  {
    hide ClosedOn, OpenLives;
    forall r | r in s'.closed
      ensures exists j :: ClosedOn(inputs, s', r, j)
    {
      var j :| ClosedOn(inputs, s, r, j);
      ClosedKnown(inputs, s, r, j);
      ClosedStays(inputs, inputs, s, s', r, j);
    }
  }

  lemma {:induction false} OpeningLives(inputs: seq<BarInput>, s: Book, ps: seq<Position>)
    requires inputs != [] && AllLive(inputs, s)
    requires forall k :: 0 <= k < |ps| ==> ps[k].entryIndex == |inputs| - 1
    ensures AllLive(inputs, OpenAll(s, ps))
  {
    if ps != [] {
      hide AllLive;
      OpeningLives(inputs, s, ps[..|ps| - 1]);
      JoinedLives(inputs, OpenAll(s, ps[..|ps| - 1]), ps[|ps| - 1]);
    }
  }

  lemma SameBook(inputs: seq<BarInput>, s: Book, s': Book)
    requires AllLive(inputs, s)
    requires s'.open == s.open && s'.closed == s.closed && s'.nextId == s.nextId && s'.atEntry == s.atEntry
    ensures AllLive(inputs, s')
  {
    hide OpenLives, ClosedOn;
    forall t | t in s'.open
      ensures OpenLives(inputs, s', t)
    {
      OpenInBook(inputs, s, s', t);
    }
    ClosedKept(inputs, s, s');
  }

  lemma EnteredLives(cfg: EngineConfig, inputs: seq<BarInput>, s: Book)
    requires inputs != [] && AllLive(inputs, s)
    ensures AllLive(inputs, Entered(cfg, s, inputs[|inputs| - 1], |inputs| - 1))
  {
    hide AllLive, CanTrade, EntryBlocked, OpenAll;
    var input, i := inputs[|inputs| - 1], |inputs| - 1;
    var asked := s.(risk := CanTrade(cfg.risk, s.risk, DayOf(input.bar.candle.openTime), |s.open|).0);
    SameBook(inputs, s, asked);
    if input.signal.Some? {
      var ps := NewPositions(cfg, input.signal.value, input.bar.candle, i);
      OpeningLives(inputs, asked, ps);
      SameBook(inputs, OpenAll(asked, ps), OpenAll(asked, ps).(cool := s.cool.(until := i + 1)));
    }
  }

  lemma ParentLives(inputs: seq<BarInput>, s: Book, s': Book, t: OpenPosition)
    requires OpenLives(inputs, s, t) && s'.nextId >= s.nextId
    requires t.id in s'.atEntry && s'.atEntry[t.id] == s.atEntry[t.id]
    ensures OpenLives(inputs, s', t.(position := t.position.(hasScaleIn := true)))
  {
    hide ManageAll;
  }

  lemma AddScaleInLives(cfg: EngineConfig, inputs: seq<BarInput>, s: Book, k: nat)
    requires inputs != [] && AllLive(inputs, s) && k < |s.open|
    ensures AllLive(inputs, AddScaleIn(cfg, s, inputs[|inputs| - 1].bar, |inputs| - 1, k))
  {
    hide OpenLives, ClosedOn, ScaleInOf;
    var bar, i := inputs[|inputs| - 1].bar, |inputs| - 1;
    var s' := AddScaleIn(cfg, s, bar, i, k);
    var child := ScaleInOf(cfg, s.open[k].position, bar, i);
    assert child.entryIndex == i by {
      ChildIndex(cfg, s.open[k].position, bar, i);
    }
    forall t | t in s'.open
      ensures OpenLives(inputs, s', t)
    {
      var j :| 0 <= j < |s'.open| && t == s'.open[j];
      if j == |s.open| {
        NewLives(inputs, s', s.nextId, child);
      } else {
        assert s.open[j] in s.open;
        OpenKnown(inputs, s, s.open[j]);
        if j == k {
          ParentLives(inputs, s, s', s.open[k]);
        } else {
          OpenInBook(inputs, s, s', t);
        }
      }
    }
    ClosedKept(inputs, s, s');
  }

  lemma ChildIndex(cfg: EngineConfig, p: Position, bar: Bar, i: int)
    ensures ScaleInOf(cfg, p, bar, i).entryIndex == i
  {
  }

  lemma ScaledInLives(cfg: EngineConfig, inputs: seq<BarInput>, s: Book)
    requires inputs != [] && AllLive(inputs, s)
    ensures AllLive(inputs, ScaledIn(cfg, s, inputs[|inputs| - 1], |inputs| - 1))
  {
    hide AllLive, MayScaleIn, AddScaleIn, ScaleInsAllowed;
    var input := inputs[|inputs| - 1];
    var k := FirstIndex(t => MayScaleIn(cfg, s.risk, s.open, input, t), s.open);
    if k < |s.open| {
      AddScaleInLives(cfg, inputs, s, k);
    }
  }

  // ----- Runs -----

  /**
   After any bars, the position open or closed under an id is the one opened under it, managed
   over every bar after its own up to now, or up to the bar it closed on.
   */
  lemma {:induction false} PositionsAreTheirLives(cfg: EngineConfig, inputs: seq<BarInput>)
    ensures AllLive(inputs, RunBars(cfg, inputs))
  {
    if inputs != [] {
      hide AllLive, StepBar;
      PositionsAreTheirLives(cfg, inputs[..|inputs| - 1]);
      StepLives(cfg, inputs, RunBars(cfg, inputs[..|inputs| - 1]));
    }
  }

  lemma StepLives(cfg: EngineConfig, inputs: seq<BarInput>, s: Book)
    requires inputs != [] && AllLive(inputs[..|inputs| - 1], s)
    ensures AllLive(inputs, StepBar(cfg, s, inputs[|inputs| - 1], |inputs| - 1))
  {
    hide AllLive, AllEarlier, Managed, Swept, ScaledIn, Entered, ExitSweep, MaxBarsSweep, ClosesAsIs;
    var input, i := inputs[|inputs| - 1], |inputs| - 1;
    var day := NewDay(s, DayOf(input.bar.candle.openTime));
    SameBook(inputs[..|inputs| - 1], s, day);
    BookManaged(inputs, day);
    ManagedEarlier(inputs, day, input.bar);
    var managed := Managed(day, input.bar);
    ExitSweepCloses(cfg, input.bar, i);
    SweptLives(inputs, managed, MaxBarsSweep(cfg, input.bar, i));
    var s2 := MaxBarsSwept(cfg, managed, input, i);
    SweptLives(inputs, s2, ExitSweep(cfg, input.bar, i));
    var s3 := Swept(s2, ExitSweep(cfg, input.bar, i));
    ScaledInLives(cfg, inputs, s3);
    EnteredLives(cfg, inputs, ScaledIn(cfg, s3, input, i));
  }

  /** So the stop, target and breakeven of any open position follow from its best gain since it was opened. */
  lemma OpenPositionByNumbers(cfg: EngineConfig, inputs: seq<BarInput>, t: OpenPosition, m: real)
    requires inputs != [] && t in RunBars(cfg, inputs).open
    requires var s := RunBars(cfg, inputs);
             t.id in s.atEntry && 0 <= s.atEntry[t.id].entryIndex < |inputs| - 1
             && Manageable(s.atEntry[t.id])
             && IsBest(s.atEntry[t.id], BarsFrom(inputs, s.atEntry[t.id].entryIndex + 1, |inputs|), m)
    ensures exists k :: ManagedTo(RunBars(cfg, inputs).atEntry[t.id], t.position, m, k)
  {
    hide ManageAll, Manageable, IsBest, RunBars, ManagedTo;
    var s := RunBars(cfg, inputs);
    var p := s.atEntry[t.id];
    PositionsAreTheirLives(cfg, inputs);
    assert OpenLives(inputs, s, t);
    TrailByNumbers(p, BarsFrom(inputs, p.entryIndex + 1, |inputs|), m);
    var managed := ManageAll(p, BarsFrom(inputs, p.entryIndex + 1, |inputs|));
    var k :| ManagedTo(p, managed, m, k);
    FlagsDoNotMatter(p, managed, t.position, m, k);
  }

  lemma FlagsDoNotMatter(p: Position, q: Position, r: Position, m: real, k: real)
    requires ManagedTo(p, q, m, k) && Alike(q, r)
    ensures ManagedTo(p, r, m, k)
  {
    hide TrendTier, GapTier, Multiple, Widths;
  }
}
