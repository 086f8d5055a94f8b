/**
 What a backtest keeps from bar to bar: V6 positions age out, the brake has logged the closed
 trades in order, and the stop-outs that block a side are those of the day.
 */
module BacktestDays {
  import opened Wrappers
  import opened Market
  import opened Calendar
  import opened PositionSimulator
  import opened PositionExits
  import opened RiskManagement
  import opened SimulatedBroking
  import opened BacktestEngine
  import opened BacktestLosses
  import opened BacktestNumbers
  import opened RiskNumbers

  // ----- Ageing -----

  /** At bar `i` the position has reached breakeven or has had fewer than 48 bars. */
  ghost predicate IsYoung(t: OpenPosition, i: int) {
    t.position.breakevenActivated || i - t.position.entryIndex < 48
  }

  ghost predicate AllYoung(s: Book, i: int) {
    forall t :: t in s.open ==> IsYoung(t, i)
  }

  lemma SweptYoung(s: Book, sweep: Sweep, i: int)
    requires forall t :: t in s.open && sweep.exitOf(t).None? ==> IsYoung(t, i)
    ensures AllYoung(Swept(s, sweep), i)
  {
    KeptMembers(sweep.exitOf, s.open);
  }

  lemma {:induction false} OpeningYoung(s: Book, ps: seq<Position>, i: int)
    requires AllYoung(s, i) && forall k :: 0 <= k < |ps| ==> ps[k].entryIndex == i
    ensures AllYoung(OpenAll(s, ps), i)
  {
    if ps != [] {
      OpeningYoung(s, ps[..|ps| - 1], i);
    }
  }

  lemma EnteredYoung(cfg: EngineConfig, s: Book, input: BarInput, i: int)
    requires AllYoung(s, i)
    ensures AllYoung(Entered(cfg, s, input, i), i)
  {
    hide CanTrade, EntryBlocked, OpenAll;
    if input.signal.Some? {
      var asked := s.(risk := CanTrade(cfg.risk, s.risk, DayOf(input.bar.candle.openTime), |s.open|).0);
      OpeningYoung(asked, NewPositions(cfg, input.signal.value, input.bar.candle, i), i);
    }
  }

  lemma ScaledInYoung(cfg: EngineConfig, s: Book, input: BarInput, i: int)
    requires AllYoung(s, i)
    ensures AllYoung(ScaledIn(cfg, s, input, i), i)
  {
    hide MayScaleIn, ScaleInsAllowed;
    var k := FirstIndex(t => MayScaleIn(cfg, s.risk, s.open, input, t), s.open);
    if k < |s.open| {
      var s' := AddScaleIn(cfg, s, input.bar, i, k);
      forall t | t in s'.open
        ensures IsYoung(t, i)
      {
        var j :| 0 <= j < |s'.open| && t == s'.open[j];
        assert j < |s.open| ==> s.open[j] in s.open && IsYoung(s.open[j], i);
      }
    }
  }

  /** No V6 position without breakeven is older than 48 bars, after any bar. */
  lemma V6PositionsAgeOut(cfg: EngineConfig, inputs: seq<BarInput>)
    requires cfg.isV6
    ensures AllYoung(RunBars(cfg, inputs), |inputs| - 1)
  {
    if inputs != [] {
      hide AllYoung, Swept, ScaledIn, Entered, ExitSweep, MaxBarsSweep;
      var i, input, s := |inputs| - 1, inputs[|inputs| - 1], RunBars(cfg, inputs[..|inputs| - 1]);
      var managed := Managed(NewDay(s, DayOf(input.bar.candle.openTime)), input.bar);
      AgedOut(cfg, managed, input.bar, i);
      var s2 := Swept(managed, MaxBarsSweep(cfg, input.bar, i));
      StaysYoung(s2, ExitSweep(cfg, input.bar, i), i);
      var s3 := Swept(s2, ExitSweep(cfg, input.bar, i));
      ScaledInYoung(cfg, s3, input, i);
      EnteredYoung(cfg, ScaledIn(cfg, s3, input, i), input, i);
    } else {
      assert AllYoung(EmptyBook(cfg), -1);
    }
  }

  lemma AgedOut(cfg: EngineConfig, s: Book, bar: Bar, i: int)
    ensures AllYoung(Swept(s, MaxBarsSweep(cfg, bar, i)), i)
  {
    hide MaxBarsExit;
    forall t | t in s.open && MaxBarsSweep(cfg, bar, i).exitOf(t).None?
      ensures IsYoung(t, i)
    {
      MaxBarsByNumbers(cfg, i, bar, t);
    }
    SweptYoung(s, MaxBarsSweep(cfg, bar, i), i);
  }

  lemma StaysYoung(s: Book, sweep: Sweep, i: int)
    requires AllYoung(s, i)
    ensures AllYoung(Swept(s, sweep), i)
  {
    SweptYoung(s, sweep, i);
  }

  // ----- The brake's log -----

  /** A closed trade as the brake logs it. */
  function LoggedRecord(r: ClosedRecord): LoggedTrade {
    LoggedTrade(DayOf(r.trade.exitTime), r.trade.pnl, r.trade.pnl < 0.0 && r.trade.exitReason != Breakeven)
  }

  function LogOf(records: seq<ClosedRecord>): seq<LoggedTrade> {
    seq(|records|, i requires 0 <= i < |records| => LoggedRecord(records[i]))
  }

  /** The losing streak after some closed trades. */
  function StreakAfter(streak: int, records: seq<ClosedRecord>): int {
    if records == [] then streak
    else
      var before, trade := StreakAfter(streak, records[..|records| - 1]), records[|records| - 1].trade;
      if trade.exitReason == TakeProfit || trade.exitReason == Breakeven then 0
      else if trade.pnl < 0.0 then before + 1 else before
  }

  ghost predicate BrakeKnows(s: Book) {
    s.risk.tradeLog == LogOf(s.closed) && s.risk.account.consecutiveLosses == StreakAfter(0, s.closed)
  }

  lemma RecordedOne(date: int, risk: RiskState, r: ClosedRecord)
    requires DayOf(r.trade.exitTime) == date
    ensures var after := Recorder(date)(risk, r.trade);
            && after.tradeLog == risk.tradeLog + [LoggedRecord(r)]
            && after.account.consecutiveLosses == StreakAfter(risk.account.consecutiveLosses, [r])
  {
    hide RecordTrade, DayOf, BrakesTrade;
    assert [r][..0] == [];
    TradeByNumbers(risk, r.trade.pnl, date, r.trade.exitReason);
  }

  lemma LastLogged(log: seq<LoggedTrade>, streak: int, exits: seq<ClosedRecord>)
    requires exits != []
    ensures var init, last := exits[..|exits| - 1], exits[|exits| - 1];
            && log + LogOf(exits) == (log + LogOf(init)) + [LoggedRecord(last)]
            && StreakAfter(streak, exits) == StreakAfter(StreakAfter(streak, init), [last])
  {
    hide LoggedRecord;
    assert [exits[|exits| - 1]][..0] == [];
    assert LogOf(exits) == LogOf(exits[..|exits| - 1]) + [LoggedRecord(exits[|exits| - 1])];
  }

  lemma {:induction false} RecordsLogged(date: int, risk: RiskState, exits: seq<ClosedRecord>)
    requires forall i :: 0 <= i < |exits| ==> DayOf(exits[i].trade.exitTime) == date
    ensures RecordAll(Recorder(date), risk, exits).tradeLog == risk.tradeLog + LogOf(exits)
    ensures RecordAll(Recorder(date), risk, exits).account.consecutiveLosses
         == StreakAfter(risk.account.consecutiveLosses, exits)
  {
    if exits == [] {
      assert risk.tradeLog + LogOf([]) == risk.tradeLog;
    } else {
      hide Recorder, DayOf, LogOf, LoggedRecord, StreakAfter;
      var init, last := exits[..|exits| - 1], exits[|exits| - 1];
      RecordsLogged(date, risk, init);
      RecordedOne(date, RecordAll(Recorder(date), risk, init), last);
      LastLogged(risk.tradeLog, risk.account.consecutiveLosses, exits);
    }
  }

  lemma {:induction false} StreakJoin(streak: int, a: seq<ClosedRecord>, b: seq<ClosedRecord>)
    ensures StreakAfter(streak, a + b) == StreakAfter(StreakAfter(streak, a), b)
  {
    if b == [] {
      assert a + b == a;
    } else {
      assert (a + b)[..|a + b| - 1] == a + b[..|b| - 1];
      StreakJoin(streak, a, b[..|b| - 1]);
    }
  }

  lemma LogJoin(a: seq<ClosedRecord>, b: seq<ClosedRecord>)
    ensures LogOf(a + b) == LogOf(a) + LogOf(b)
  {
    hide LoggedRecord;
  }

  /** All exits of a sweep fall on the day of its bar. */
  lemma ExitsOn(exitOf: OpenPosition -> Option<ClosedTrade>, open: seq<OpenPosition>, date: int)
    requires forall t: OpenPosition :: exitOf(t).Some? ==> DayOf(exitOf(t).value.exitTime) == date
    ensures forall i :: 0 <= i < |Exits(exitOf, open)| ==> DayOf(Exits(exitOf, open)[i].trade.exitTime) == date
  {
    hide DayOf, Exits;
    var exits := Exits(exitOf, open);
    ExitOrigins(exitOf, open);
    forall i | 0 <= i < |exits|
      ensures DayOf(exits[i].trade.exitTime) == date
    {
      assert exits[i] in exits;
    }
  }

  lemma SweptKnows(s: Book, sweep: Sweep, date: int)
    requires BrakeKnows(s) && sweep.record == Recorder(date)
    requires forall t: OpenPosition :: sweep.exitOf(t).Some? ==> DayOf(sweep.exitOf(t).value.exitTime) == date
    ensures BrakeKnows(Swept(s, sweep))
  {
    hide DayOf, StreakAfter, LogOf, Kept, Exits, RecordAll, CoolAll;
    var exits := Exits(sweep.exitOf, s.open);
    ExitsOn(sweep.exitOf, s.open, date);
    RecordsLogged(date, s.risk, exits);
    StreakJoin(0, s.closed, exits);
    LogJoin(s.closed, exits);
  }

  lemma BarSweepsKnow(cfg: EngineConfig, bar: Bar, i: int)
    ensures var date := DayOf(bar.candle.openTime);
            && ExitSweep(cfg, bar, i).record == Recorder(date) && MaxBarsSweep(cfg, bar, i).record == Recorder(date)
            && (forall t: OpenPosition :: ExitSweep(cfg, bar, i).exitOf(t).Some? ==>
                  DayOf(ExitSweep(cfg, bar, i).exitOf(t).value.exitTime) == date)
            && (forall t: OpenPosition :: MaxBarsSweep(cfg, bar, i).exitOf(t).Some? ==>
                  DayOf(MaxBarsSweep(cfg, bar, i).exitOf(t).value.exitTime) == date)
  {
    hide CalculatePnl, DayOf;
  }

  lemma {:induction false} OpeningFrame(s: Book, ps: seq<Position>)
    ensures OpenAll(s, ps).risk == s.risk && OpenAll(s, ps).closed == s.closed
  {
    if ps != [] {
      OpeningFrame(s, ps[..|ps| - 1]);
    }
  }

  lemma EnteredKnows(cfg: EngineConfig, s: Book, input: BarInput, i: int)
    requires BrakeKnows(s)
    ensures BrakeKnows(Entered(cfg, s, input, i))
  {
    hide CanTrade, OpenAll, EntryBlocked, NewPositions;
    var date := DayOf(input.bar.candle.openTime);
    RiskRuns.AskFrame(cfg.risk, s.risk, date, |s.open|);
    if input.signal.Some? {
      OpeningFrame(s.(risk := CanTrade(cfg.risk, s.risk, date, |s.open|).0),
                   NewPositions(cfg, input.signal.value, input.bar.candle, i));
    }
  }

  /** After any bars the brake has logged the closed trades in order, each on the day of its exit, and counts their streak. */
  lemma {:induction false} BrakeLogsTrades(cfg: EngineConfig, inputs: seq<BarInput>)
    ensures BrakeKnows(RunBars(cfg, inputs))
  {
    if inputs != [] {
      hide BrakeKnows, Swept, ScaledIn, Entered, ExitSweep, MaxBarsSweep, Managed;
      var i, input, s := |inputs| - 1, inputs[|inputs| - 1], RunBars(cfg, inputs[..|inputs| - 1]);
      var date := DayOf(input.bar.candle.openTime);
      BrakeLogsTrades(cfg, inputs[..|inputs| - 1]);
      var managed := Managed(NewDay(s, date), input.bar);
      SameKnows(s, managed, input.bar, date);
      BarSweepsKnow(cfg, input.bar, i);
      SweptKnows(managed, MaxBarsSweep(cfg, input.bar, i), date);
      var s2 := MaxBarsSwept(cfg, managed, input, i);
      SweptKnows(s2, ExitSweep(cfg, input.bar, i), date);
      var s3 := Swept(s2, ExitSweep(cfg, input.bar, i));
      ScaledInKnows(cfg, s3, input, i);
      EnteredKnows(cfg, ScaledIn(cfg, s3, input, i), input, i);
    } else {
      StartKnows(cfg);
    }
  }

  lemma StartKnows(cfg: EngineConfig)
    ensures BrakeKnows(EmptyBook(cfg))
  {
  }

  lemma SameKnows(s: Book, managed: Book, bar: Bar, date: int)
    requires BrakeKnows(s) && managed == Managed(NewDay(s, date), bar)
    ensures BrakeKnows(managed)
  {
  }

  lemma ScaledInKnows(cfg: EngineConfig, s: Book, input: BarInput, i: int)
    requires BrakeKnows(s)
    ensures BrakeKnows(ScaledIn(cfg, s, input, i))
  {
    hide MayScaleIn, ScaleInOf;
  }

  // ----- The stop-outs of the day -----

  /** Whether a closed trade is a stop-out of the side on the day. */
  predicate IsStopOut(r: ClosedRecord, side: Side, date: int) {
    r.trade.exitReason == StopLoss && r.trade.position.side == side && DayOf(r.trade.exitTime) == date
  }

  function StopOutsOn(records: seq<ClosedRecord>, side: Side, date: int): nat {
    if records == [] then 0
    else
      StopOutsOn(records[..|records| - 1], side, date) + if IsStopOut(records[|records| - 1], side, date) then 1 else 0
  }

  /** The counters are the stop-outs of the current day, and no trade closed on a later one. */
  ghost predicate CountsToday(s: Book) {
    && (s.lastDate.None? ==> s.closed == [] && s.cool.slBuys == s.cool.slSells == 0)
    && (s.lastDate.Some? ==>
          && s.cool.slBuys == StopOutsOn(s.closed, Buy, s.lastDate.value)
          && s.cool.slSells == StopOutsOn(s.closed, Sell, s.lastDate.value)
          && (forall i :: 0 <= i < |s.closed| ==> DayOf(s.closed[i].trade.exitTime) <= s.lastDate.value))
  }

  lemma {:induction false} NoStopOutsYet(records: seq<ClosedRecord>, side: Side, date: int)
    requires forall i :: 0 <= i < |records| ==> DayOf(records[i].trade.exitTime) < date
    ensures StopOutsOn(records, side, date) == 0
  {
    if records != [] {
      NoStopOutsYet(records[..|records| - 1], side, date);
    }
  }

  lemma NewDayCounts(s: Book, date: int)
    requires CountsToday(s) && (s.lastDate.Some? ==> s.lastDate.value <= date)
    ensures CountsToday(NewDay(s, date)) && NewDay(s, date).lastDate == Some(date)
  {
    hide DayOf;
    if s.lastDate != Some(date) {
      NoStopOutsYet(s.closed, Buy, date);
      NoStopOutsYet(s.closed, Sell, date);
    }
  }

  lemma {:induction false} StopOutsJoin(a: seq<ClosedRecord>, b: seq<ClosedRecord>, side: Side, date: int)
    ensures StopOutsOn(a + b, side, date) == StopOutsOn(a, side, date) + StopOutsOn(b, side, date)
  {
    if b == [] {
      assert a + b == a;
    } else {
      assert (a + b)[..|a + b| - 1] == a + b[..|b| - 1];
      StopOutsJoin(a, b[..|b| - 1], side, date);
    }
  }

  /** Cooling down for exits adds the stop-outs among them. */
  ghost predicate CountsStopOuts(cooled: (Cooldowns, ClosedTrade) -> Cooldowns) {
    forall c, trade ::
      && cooled(c, trade).slBuys == c.slBuys + (if trade.exitReason == StopLoss && trade.position.side == Buy then 1 else 0)
      && cooled(c, trade).slSells == c.slSells + (if trade.exitReason == StopLoss && trade.position.side == Sell then 1 else 0)
  }

  lemma {:induction false} CoolingCounts(cooled: (Cooldowns, ClosedTrade) -> Cooldowns, c: Cooldowns,
                                         exits: seq<ClosedRecord>, date: int)
    requires CountsStopOuts(cooled)
    requires forall i :: 0 <= i < |exits| ==> DayOf(exits[i].trade.exitTime) == date
    ensures CoolAll(cooled, c, exits).slBuys == c.slBuys + StopOutsOn(exits, Buy, date)
    ensures CoolAll(cooled, c, exits).slSells == c.slSells + StopOutsOn(exits, Sell, date)
  {
    if exits != [] {
      hide DayOf;
      CoolingCounts(cooled, c, exits[..|exits| - 1], date);
    }
  }

  lemma SweptCounts(s: Book, sweep: Sweep, date: int)
    requires CountsToday(s) && s.lastDate == Some(date)
    requires forall t: OpenPosition :: sweep.exitOf(t).Some? ==>
                                         DayOf(sweep.exitOf(t).value.exitTime) == date
    requires CountsStopOuts(sweep.cooled)
             || ((forall t: OpenPosition :: sweep.exitOf(t).Some? ==> sweep.exitOf(t).value.exitReason == ForcedClose)
                 && (forall c, trade :: sweep.cooled(c, trade).slBuys == c.slBuys && sweep.cooled(c, trade).slSells == c.slSells))
    ensures CountsToday(Swept(s, sweep)) && Swept(s, sweep).lastDate == Some(date)
  {
    hide DayOf, Kept, RecordAll;
    var exits := Exits(sweep.exitOf, s.open);
    ExitsOn(sweep.exitOf, s.open, date);
    ExitOrigins(sweep.exitOf, s.open);
    StopOutsJoin(s.closed, exits, Buy, date);
    StopOutsJoin(s.closed, exits, Sell, date);
    if CountsStopOuts(sweep.cooled) {
      CoolingCounts(sweep.cooled, s.cool, exits, date);
    } else {
      forall i | 0 <= i < |exits|
        ensures exits[i].trade.exitReason == ForcedClose
      {
        assert exits[i] in exits;
      }
      ForcedCounts(sweep.cooled, s.cool, exits, date);
    }
  }

  lemma {:induction false} ForcedCounts(cooled: (Cooldowns, ClosedTrade) -> Cooldowns, c: Cooldowns,
                                        exits: seq<ClosedRecord>, date: int)
    requires forall i :: 0 <= i < |exits| ==> exits[i].trade.exitReason == ForcedClose
    requires forall c, trade :: cooled(c, trade).slBuys == c.slBuys && cooled(c, trade).slSells == c.slSells
    ensures CoolAll(cooled, c, exits).slBuys == c.slBuys && CoolAll(cooled, c, exits).slSells == c.slSells
    ensures StopOutsOn(exits, Buy, date) == StopOutsOn(exits, Sell, date) == 0
  {
    if exits != [] {
      hide DayOf;
      ForcedCounts(cooled, c, exits[..|exits| - 1], date);
    }
  }

  lemma BarSweepsCount(cfg: EngineConfig, bar: Bar, i: int)
    ensures CountsStopOuts(ExitSweep(cfg, bar, i).cooled)
    ensures var sweep := MaxBarsSweep(cfg, bar, i);
            && (forall t: OpenPosition :: sweep.exitOf(t).Some? ==> sweep.exitOf(t).value.exitReason == ForcedClose)
            && (forall c, trade :: sweep.cooled(c, trade).slBuys == c.slBuys && sweep.cooled(c, trade).slSells == c.slSells)
  {
    hide CalculatePnl;
  }

  lemma OpeningsCount(cfg: EngineConfig, s: Book, input: BarInput, i: int)
    requires CountsToday(s)
    ensures CountsToday(ScaledIn(cfg, s, input, i)) && ScaledIn(cfg, s, input, i).lastDate == s.lastDate
    ensures CountsToday(Entered(cfg, s, input, i)) && Entered(cfg, s, input, i).lastDate == s.lastDate
  {
    hide MayScaleIn, ScaleInOf, CanTrade, OpenAll, NewPositions, EntryBlocked, StopOutsOn;
    var asked := s.(risk := CanTrade(cfg.risk, s.risk, DayOf(input.bar.candle.openTime), |s.open|).0);
    if input.signal.Some? {
      OpenAllFrame(asked, NewPositions(cfg, input.signal.value, input.bar.candle, i));
    }
  }

  /** Bars come in the order of their days. */
  ghost predicate DaysOrdered(inputs: seq<BarInput>) {
    forall i, j :: 0 <= i <= j < |inputs| ==> DayOf(inputs[i].bar.candle.openTime) <= DayOf(inputs[j].bar.candle.openTime)
  }

  /** After any bars in order, the counters that block a side are its stop-outs of the last bar's day. */
  lemma {:induction false} StopOutsAreTodays(cfg: EngineConfig, inputs: seq<BarInput>)
    requires DaysOrdered(inputs)
    ensures CountsToday(RunBars(cfg, inputs))
    ensures inputs != [] ==> RunBars(cfg, inputs).lastDate == Some(DayOf(inputs[|inputs| - 1].bar.candle.openTime))
  {
    if inputs != [] {
      hide CountsToday, Swept, ScaledIn, Entered, ExitSweep, MaxBarsSweep, Managed, NewDay, CountsStopOuts, DayOf;
      var i, input, s := |inputs| - 1, inputs[|inputs| - 1], RunBars(cfg, inputs[..|inputs| - 1]);
      var date := DayOf(input.bar.candle.openTime);
      StopOutsAreTodays(cfg, inputs[..|inputs| - 1]);
      StartCounts(cfg);
      NewDayCounts(s, date);
      var managed := Managed(NewDay(s, date), input.bar);
      ManagedCounts(NewDay(s, date), input.bar);
      BarSweepsKnow(cfg, input.bar, i);
      BarSweepsCount(cfg, input.bar, i);
      SweptCounts(managed, MaxBarsSweep(cfg, input.bar, i), date);
      var s2 := MaxBarsSwept(cfg, managed, input, i);
      SweptCounts(s2, ExitSweep(cfg, input.bar, i), date);
      var s3 := Swept(s2, ExitSweep(cfg, input.bar, i));
      OpeningsCount(cfg, s3, input, i);
      OpeningsCount(cfg, ScaledIn(cfg, s3, input, i), input, i);
    } else {
      StartCounts(cfg);
    }
  }

  lemma StartCounts(cfg: EngineConfig)
    ensures CountsToday(EmptyBook(cfg)) && EmptyBook(cfg).lastDate == None
  {
  }

  lemma ManagedCounts(s: Book, bar: Bar)
    requires CountsToday(s)
    ensures CountsToday(Managed(s, bar)) && Managed(s, bar).lastDate == s.lastDate
  {
  }

  // ----- The order within a bar -----

  /** A V6 position that a bar leaves without breakeven after 48 bars is forced out, whatever its stop and target say. */
  lemma V6ForcesOut(cfg: EngineConfig, inputs: seq<BarInput>, t: OpenPosition)
    requires cfg.isV6 && inputs != [] && t in RunBars(cfg, inputs[..|inputs| - 1]).open
    requires var p := UpdatePositionManagement(t.position, inputs[|inputs| - 1].bar);
             !p.breakevenActivated && |inputs| - 1 - p.entryIndex >= 48
    ensures exists r :: r in RunBars(cfg, inputs).closed && r.id == t.id && r.trade.exitReason == ForcedClose
  {
    hide UpdatePositionManagement, ScaledIn, Entered, ExitSweep, MaxBarsSweep, Swept;
    var i, input, s := |inputs| - 1, inputs[|inputs| - 1], RunBars(cfg, inputs[..|inputs| - 1]);
    var managed := Managed(NewDay(s, DayOf(input.bar.candle.openTime)), input.bar);
    var k :| 0 <= k < |s.open| && s.open[k] == t;
    assert managed.open[k] in managed.open;
    ForcedBySweep(cfg, managed, input.bar, i, managed.open[k]);
    var s2 := Swept(managed, MaxBarsSweep(cfg, input.bar, i));
    var s3 := Swept(s2, ExitSweep(cfg, input.bar, i));
    ClosedStays(s2, ExitSweep(cfg, input.bar, i));
    OpeningsKeepClosed(cfg, s3, input, i);
    OpeningsKeepClosed(cfg, ScaledIn(cfg, s3, input, i), input, i);
  }

  lemma {:induction false} ExitIsListed(exitOf: OpenPosition -> Option<ClosedTrade>, open: seq<OpenPosition>, t: OpenPosition)
    requires t in open && exitOf(t).Some?
    ensures ClosedRecord(t.id, exitOf(t).value) in Exits(exitOf, open)
  {
    if t != open[0] {
      assert t in open[1..];
      ExitIsListed(exitOf, open[1..], t);
    }
  }

  lemma ForcedBySweep(cfg: EngineConfig, s: Book, bar: Bar, i: int, t: OpenPosition)
    requires t in s.open && !t.position.breakevenActivated && i - t.position.entryIndex >= 48
    ensures exists r :: r in Swept(s, MaxBarsSweep(cfg, bar, i)).closed && r.id == t.id && r.trade.exitReason == ForcedClose
  {
    hide MaxBarsExit;
    MaxBarsByNumbers(cfg, i, bar, t);
    ExitIsListed(MaxBarsSweep(cfg, bar, i).exitOf, s.open, t);
    var r := ClosedRecord(t.id, MaxBarsSweep(cfg, bar, i).exitOf(t).value);
    assert r in Swept(s, MaxBarsSweep(cfg, bar, i)).closed;
  }

  lemma ClosedStays(s: Book, sweep: Sweep)
    ensures forall r :: r in s.closed ==> r in Swept(s, sweep).closed
  {
  }

  lemma OpeningsKeepClosed(cfg: EngineConfig, s: Book, input: BarInput, i: int)
    ensures ScaledIn(cfg, s, input, i).closed == s.closed && Entered(cfg, s, input, i).closed == s.closed
  {
    hide MayScaleIn, ScaleInOf, CanTrade, OpenAll, NewPositions, EntryBlocked;
    var asked := s.(risk := CanTrade(cfg.risk, s.risk, DayOf(input.bar.candle.openTime), |s.open|).0);
    if input.signal.Some? {
      OpeningFrame(asked, NewPositions(cfg, input.signal.value, input.bar.candle, i));
    }
  }

  /** `p` is a scale-in of the bar on which `q` was entered. */
  predicate SameBarScaleIn(p: Position, q: Position) {
    p.entryIndex == q.entryIndex && p.isScaleIn && !q.isScaleIn
  }

  /** Every position ever opened belongs to a bar up to `i`; of one bar, the scale-in comes first. */
  ghost predicate OpenedInOrder(s: Book, i: int) {
    && (forall id :: id in s.atEntry ==> id < s.nextId && s.atEntry[id].entryIndex <= i)
    && (forall a, b :: a in s.atEntry && b in s.atEntry && SameBarScaleIn(s.atEntry[a], s.atEntry[b]) ==> a < b)
  }

  lemma {:induction false} OpeningInOrder(s: Book, ps: seq<Position>, i: int)
    requires OpenedInOrder(s, i) && forall k :: 0 <= k < |ps| ==> ps[k].entryIndex == i && !ps[k].isScaleIn
    ensures OpenedInOrder(OpenAll(s, ps), i)
  {
    if ps != [] {
      OpeningInOrder(s, ps[..|ps| - 1], i);
    }
  }

  lemma EnteredInOrder(cfg: EngineConfig, s: Book, input: BarInput, i: int)
    requires OpenedInOrder(s, i)
    ensures OpenedInOrder(Entered(cfg, s, input, i), i)
  {
    hide CanTrade, EntryBlocked, OpenAll;
    var asked := s.(risk := CanTrade(cfg.risk, s.risk, DayOf(input.bar.candle.openTime), |s.open|).0);
    if input.signal.Some? {
      OpeningInOrder(asked, NewPositions(cfg, input.signal.value, input.bar.candle, i), i);
    }
  }

  lemma ScaledInInOrder(cfg: EngineConfig, s: Book, input: BarInput, i: int)
    requires OpenedInOrder(s, i - 1)
    ensures OpenedInOrder(ScaledIn(cfg, s, input, i), i)
  {
    hide MayScaleIn, ScaleInsAllowed;
  }

  /** Over any bars, a scale-in of a bar is opened before the bar's entry, and so counts against its limit. */
  lemma {:induction false} ScaleInsComeFirst(cfg: EngineConfig, inputs: seq<BarInput>)
    ensures OpenedInOrder(RunBars(cfg, inputs), |inputs| - 1)
  {
    if inputs != [] {
      hide ScaledIn, Entered, ExitSweep, MaxBarsSweep, Swept, Managed, OpenedInOrder;
      var i, input, s := |inputs| - 1, inputs[|inputs| - 1], RunBars(cfg, inputs[..|inputs| - 1]);
      ScaleInsComeFirst(cfg, inputs[..|inputs| - 1]);
      var managed := Managed(NewDay(s, DayOf(input.bar.candle.openTime)), input.bar);
      var s3 := Swept(MaxBarsSwept(cfg, managed, input, i), ExitSweep(cfg, input.bar, i));
      SweepsKeepHistory(s, input.bar, DayOf(input.bar.candle.openTime), MaxBarsSweep(cfg, input.bar, i));
      SweepsKeepHistory(s, input.bar, DayOf(input.bar.candle.openTime), ExitSweep(cfg, input.bar, i));
      SameHistory(s, s3, i - 1);
      ScaledInInOrder(cfg, s3, input, i);
      EnteredInOrder(cfg, ScaledIn(cfg, s3, input, i), input, i);
    } else {
      assert OpenedInOrder(EmptyBook(cfg), -1);
    }
  }

  lemma SweepsKeepHistory(s: Book, bar: Bar, date: int, sweep: Sweep)
    ensures Managed(NewDay(s, date), bar).atEntry == s.atEntry && Managed(NewDay(s, date), bar).nextId == s.nextId
    ensures forall b :: Swept(b, sweep).atEntry == b.atEntry && Swept(b, sweep).nextId == b.nextId
  {
  }

  lemma SameHistory(s: Book, s': Book, i: int)
    requires OpenedInOrder(s, i) && s'.atEntry == s.atEntry && s'.nextId == s.nextId
    ensures OpenedInOrder(s', i)
  {
  }
}
