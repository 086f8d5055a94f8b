/**
 The bar-by-bar backtest: management, forced and regular exits, scale-ins and entries over
 one list of open positions. Signals, regimes and confidence are arbitrary inputs per bar.
 */
module BacktestEngine {
  import opened Wrappers
  import opened Numbers
  import opened Market
  import opened Calendar
  import opened PositionSimulator
  import opened PositionExits
  import opened RiskManagement
  import opened LotSizing
  import opened SimulatedBroking
  import opened Metrics
  import RiskRuns

  const V6_MAX_BARS := 48
  const MAX_EVENT_RISK_PCT := 20.0

  datatype EngineConfig = EngineConfig(
    risk: RiskConfig,
    isV6: bool,
    commissionPerLot: real,
    priceFactor: real)

  /** A signal that passed its quality floor, with the lot the risk manager sized for it. */
  datatype EntrySignal = EntrySignal(
    side: Side,
    entryPrice: real,
    slPrice: real,
    tpPrice: Option<real>,
    setupTags: seq<string>,
    lotSize: real,
    trailConfig: TrailConfig,
    strongTrend: bool,
    highQuality: bool,
    elevatedVol: bool)

  /** All that happens at one bar: `trend` is the direction of a trending regime. */
  datatype BarInput = BarInput(
    bar: Bar,
    inBlackout: bool,
    trend: Option<Side>,
    confident: bool,
    signal: Option<EntrySignal>)

  datatype ClosedRecord = ClosedRecord(id: nat, trade: ClosedTrade)

  /** The bar indices that entries wait for, and the stop-outs of the day by side. */
  datatype Cooldowns = Cooldowns(until: int, slUntil: int, slBuys: nat, slSells: nat)

  /**
   The engine's variables. Ids name positions in the order they are opened; the history says
   how each was opened and which are scale-ins of which.
   */
  datatype Book = Book(
    open: seq<OpenPosition>,
    closed: seq<ClosedRecord>,
    risk: RiskState,
    cool: Cooldowns,
    lastDate: Option<int>,
    nextId: nat,
    atEntry: map<nat, Position>,
    parentOf: map<nat, nat>)

  function EmptyBook(cfg: EngineConfig): Book {
    Book([], [], InitialState(cfg.risk), Cooldowns(-1, -1, 0, 0), None, 0, map[], map[])
  }

  // ----- Exits -----

  function CommissionOf(cfg: EngineConfig, p: Position): real {
    p.lotSize * cfg.commissionPerLot
  }

  predicate Convertible(cfg: EngineConfig, p: Position) {
    cfg.risk.quotedInYen && p.slPrice != 0.0 && p.tpPrice != Some(0.0)
  }

  /** A V6 trade that has not reached breakeven after 48 bars is closed at the bar's close. */
  function MaxBarsExit(cfg: EngineConfig, i: int, bar: Bar, t: OpenPosition): Option<ClosedTrade> {
    if i - t.position.entryIndex >= V6_MAX_BARS && !t.position.breakevenActivated then
      var trade := Flushed(cfg, t.position, bar.candle);
      Some(trade.(position := t.position.(setupTags := t.position.setupTags + ["MAX_BARS"])))
    else None
  }

  function RegularExit(cfg: EngineConfig, bar: Bar, t: OpenPosition): Option<ClosedTrade> {
    CheckPositionExit(t.position, bar, CommissionOf(cfg, t.position), cfg.risk.lotSizeUnits,
                      Convertible(cfg, t.position))
  }

  function Flushed(cfg: EngineConfig, p: Position, candle: Candle): ClosedTrade {
    ForceClosePosition(p, candle.close, candle.openTime, CommissionOf(cfg, p), cfg.risk.lotSizeUnits,
                       cfg.risk.quotedInYen && candle.close != 0.0)
  }

  /** What a sweep leaves open, in order. */
  function Kept(exitOf: OpenPosition -> Option<ClosedTrade>, open: seq<OpenPosition>): seq<OpenPosition> {
    if open == [] then [] else (if exitOf(open[0]).None? then [open[0]] else []) + Kept(exitOf, open[1..])
  }

  /** What a sweep closes: the loop runs backwards, so the newest comes first. */
  function Exits(exitOf: OpenPosition -> Option<ClosedTrade>, open: seq<OpenPosition>): seq<ClosedRecord> {
    if open == [] then []
    else
      var exit := exitOf(open[0]);
      Exits(exitOf, open[1..]) + if exit.Some? then [ClosedRecord(open[0].id, exit.value)] else []
  }

  /** The exits recorded one after the other. */
  function RecordAll(record: (RiskState, ClosedTrade) -> RiskState, risk: RiskState,
                     exits: seq<ClosedRecord>): RiskState {
    if exits == [] then risk else record(RecordAll(record, risk, exits[..|exits| - 1]), exits[|exits| - 1].trade)
  }

  function Recorder(date: int): (RiskState, ClosedTrade) -> RiskState {
    (risk: RiskState, trade: ClosedTrade) => RecordTrade(risk, trade.pnl, date, trade.exitReason)
  }

  function AfterMaxBars(c: Cooldowns, i: int): Cooldowns {
    c.(until := i + 1)
  }

  function AfterExit(c: Cooldowns, trade: ClosedTrade, i: int, isV6: bool): Cooldowns {
    match trade.exitReason
    case TakeProfit => c.(until := i + if isV6 then 0 else 1)
    case Breakeven => c.(until := i + if isV6 then 0 else 1)
    case StopLoss =>
      var wait := if isV6 then 1 else 2;
      Cooldowns(i + wait, i + wait, c.slBuys + (if trade.position.side == Buy then 1 else 0),
                c.slSells + if trade.position.side == Sell then 1 else 0)
    case ForcedClose => c
  }

  function CoolAll(cooled: (Cooldowns, ClosedTrade) -> Cooldowns, c: Cooldowns, exits: seq<ClosedRecord>): Cooldowns {
    if exits == [] then c else cooled(CoolAll(cooled, c, exits[..|exits| - 1]), exits[|exits| - 1].trade)
  }

  /** A backward loop over the open positions: each exit is recorded, cooled down for, booked and spliced out. */
  datatype Sweep = Sweep(
    exitOf: OpenPosition -> Option<ClosedTrade>,
    record: (RiskState, ClosedTrade) -> RiskState,
    cooled: (Cooldowns, ClosedTrade) -> Cooldowns)

  function Swept(s: Book, sweep: Sweep): Book {
    var exits := Exits(sweep.exitOf, s.open);
    s.(open := Kept(sweep.exitOf, s.open),
    closed := s.closed + exits,
    risk := RecordAll(sweep.record, s.risk, exits),
    cool := CoolAll(sweep.cooled, s.cool, exits))
  }

  function MaxBarsSweep(cfg: EngineConfig, bar: Bar, i: int): Sweep {
    Sweep(t => MaxBarsExit(cfg, i, bar, t), Recorder(DayOf(bar.candle.openTime)), (c, trade) => AfterMaxBars(c, i))
  }

  function ExitSweep(cfg: EngineConfig, bar: Bar, i: int): Sweep {
    Sweep(t => RegularExit(cfg, bar, t), Recorder(DayOf(bar.candle.openTime)),
          (c, trade) => AfterExit(c, trade, i, cfg.isV6))
  }

  // ----- Scale-ins -----

  function ExitSidePrice(p: Position, bar: Bar): real {
    if p.side == Buy then bar.candle.close - bar.spread / 2.0 else bar.candle.close + bar.spread / 2.0
  }

  function EntrySidePrice(p: Position, bar: Bar): real {
    if p.side == Buy then bar.candle.close + bar.spread / 2.0 else bar.candle.close - bar.spread / 2.0
  }

  function ScaleInLot(p: Position): real {
    Round2(p.lotSize * 0.5)
  }

  /** The money the open positions can lose at their current stops. */
  function StopRisk(open: seq<OpenPosition>, units: real): real {
    if open == [] then 0.0
    else
      var p := open[|open| - 1].position;
      StopRisk(open[..|open| - 1], units) + Abs(p.entryPrice - p.slPrice) * p.lotSize * units
  }

  predicate WithinEventRisk(risk: RiskState, existing: real, added: real) {
    existing + added <= risk.account.balance * (MAX_EVENT_RISK_PCT / 100.0)
  }

  /** Between one and one and a half times the risk in profit. */
  predicate InScaleInBand(p: Position, bar: Bar) {
    Risk(p) != 0.0 && 1.0 <= MoveTo(p, ExitSidePrice(p, bar)) / Risk(p) <= 1.5
  }

  predicate MayScaleIn(cfg: EngineConfig, risk: RiskState, open: seq<OpenPosition>, input: BarInput, t: OpenPosition) {
    var p := t.position;
    && !p.isScaleIn && !p.hasScaleIn && p.breakevenActivated
    && !HasTag(p, "RANGE_ENGINE") && !HasTag(p, "SCALED_IN") && !HasTag(p, "LOCKER")
    && input.trend == Some(p.side)
    && InScaleInBand(p, input.bar)
    && ScaleInLot(p) >= 0.01
    && WithinEventRisk(risk, StopRisk(open, cfg.risk.lotSizeUnits),
                       Abs(ExitSidePrice(p, input.bar) - p.entryPrice) * ScaleInLot(p) * cfg.risk.lotSizeUnits)
  }

  /** The parent's tags without its quality mark and its leg. */
  function InheritedTags(tags: seq<string>): seq<string> {
    if tags == [] then []
    else
      var tag := tags[|tags| - 1];
      InheritedTags(tags[..|tags| - 1])
      + if (tag != "" && tag[0] == 'Q') || tag == "RUNNER" || tag == "LOCKER" then [] else [tag]
  }

  /** Half the parent's lot, its stop at the parent's entry, no target. */
  function ScaleInOf(cfg: EngineConfig, p: Position, bar: Bar, i: int): Position {
    var entryPrice := EntrySidePrice(p, bar);
    Position(p.side, RoundTo(entryPrice, cfg.priceFactor), p.entryPrice, None, p.entryPrice, false, entryPrice, ScaleInLot(p),
             bar.candle.openTime, i, InheritedTags(p.setupTags) + ["SCALED_IN"], p.trailConfig, true, false)
  }

  /** The first position that satisfies the predicate, |open| when none does. */
  function FirstIndex(pick: OpenPosition -> bool, open: seq<OpenPosition>): (k: nat)
    ensures k <= |open| && (k < |open| ==> pick(open[k])) && forall j :: 0 <= j < k ==> !pick(open[j])
  {
    if open == [] then 0 else if pick(open[0]) then 0 else 1 + FirstIndex(pick, open[1..])
  }

  /** The scale-in joins the list and its parent at `k` is marked. */
  function AddScaleIn(cfg: EngineConfig, s: Book, bar: Bar, i: int, k: nat): Book
    requires k < |s.open|
  {
    var parent := s.open[k];
    var scaleIn := ScaleInOf(cfg, parent.position, bar, i);
    s.(open := s.open[k := parent.(position := parent.position.(hasScaleIn := true))] + [OpenPosition(s.nextId, scaleIn)],
    nextId := s.nextId + 1,
    atEntry := s.atEntry[s.nextId := scaleIn],
    parentOf := s.parentOf[s.nextId := parent.id])
  }

  predicate ScaleInsAllowed(cfg: EngineConfig, s: Book, input: BarInput) {
    && input.trend.Some? && input.confident && GetTradingMode(s.risk) != Defensive
    && |s.open| < cfg.risk.maxOpenPositions
  }

  /** At most one scale-in per bar. */
  function ScaledIn(cfg: EngineConfig, s: Book, input: BarInput, i: int): Book {
    if !ScaleInsAllowed(cfg, s, input) then s
    else
      var k := FirstIndex(t => MayScaleIn(cfg, s.risk, s.open, input, t), s.open);
      if k < |s.open| then AddScaleIn(cfg, s, input.bar, i, k) else s
  }

  // ----- Entries -----

  function SameSide(open: seq<OpenPosition>, side: Side): seq<OpenPosition> {
    if open == [] then []
    else
      SameSide(open[..|open| - 1], side) + if open[|open| - 1].position.side == side then [open[|open| - 1]] else []
  }

  /** Stacking onto open positions of the same side. */
  predicate StackingBlocked(cfg: EngineConfig, risk: RiskState, open: seq<OpenPosition>, signal: EntrySignal) {
    var same := SameSide(open, signal.side);
    same != [] &&
    (|| |same| >= 2
     || !same[0].position.breakevenActivated
     || !signal.strongTrend
     || GetTradingMode(risk) == Defensive
     || signal.elevatedVol
     || !WithinEventRisk(risk, StopRisk(same, cfg.risk.lotSizeUnits),
                         Abs(signal.entryPrice - signal.slPrice) * signal.lotSize * cfg.risk.lotSizeUnits))
  }

  predicate EntryBlocked(cfg: EngineConfig, risk: RiskState, open: seq<OpenPosition>, cool: Cooldowns,
                         signal: EntrySignal) {
    || (if signal.side == Buy then cool.slBuys else cool.slSells) >= 3
    || signal.lotSize <= 0.0
    || StackingBlocked(cfg, risk, open, signal)
  }

  function BasePosition(signal: EntrySignal, candle: Candle, i: int): Position {
    Position(signal.side, signal.entryPrice, signal.slPrice, signal.tpPrice, signal.slPrice, false, signal.entryPrice,
             signal.lotSize, candle.openTime, i, signal.setupTags, Some(signal.trailConfig), false, false)
  }

  function LockerTarget(cfg: EngineConfig, signal: EntrySignal): real {
    var risk := Abs(signal.entryPrice - signal.slPrice);
    RoundTo(if signal.side == Buy then signal.entryPrice + risk else signal.entryPrice - risk, cfg.priceFactor)
  }

  function LockerLot(lotSize: real): real {
    Round2(lotSize * 0.3)
  }

  predicate Splits(signal: EntrySignal) {
    (signal.strongTrend || signal.highQuality) && "PYRAMID" !in signal.setupTags && signal.lotSize >= 0.02
  }

  /** One position, or a runner with the full lot and a locker with three tenths of it. */
  function NewPositions(cfg: EngineConfig, signal: EntrySignal, candle: Candle, i: int): (r: seq<Position>)
    ensures 1 <= |r| <= 2
    ensures forall p :: p in r ==> !p.isScaleIn && !p.hasScaleIn
  {
    var base := BasePosition(signal, candle, i);
    if Splits(signal) then
      [base.(setupTags := signal.setupTags + ["RUNNER"])]
      + if LockerLot(signal.lotSize) >= 0.01
        then [base.(lotSize := LockerLot(signal.lotSize), tpPrice := Some(LockerTarget(cfg, signal)),
                setupTags := signal.setupTags + ["LOCKER"])]
        else []
    else [base]
  }

  /** One more open position, under the next id. */
  function Joined(s: Book, p: Position): Book {
    s.(open := s.open + [OpenPosition(s.nextId, p)], nextId := s.nextId + 1, atEntry := s.atEntry[s.nextId := p])
  }

  function OpenAll(s: Book, ps: seq<Position>): Book {
    if ps == [] then s else Joined(OpenAll(s, ps[..|ps| - 1]), ps[|ps| - 1])
  }

  /** Once the gate has answered: nothing, or the signal's positions. */
  function EnteredAfterGate(cfg: EngineConfig, s: Book, ok: bool, input: BarInput, i: int): Book {
    if !ok || input.signal.None? || EntryBlocked(cfg, s.risk, s.open, s.cool, input.signal.value) then s
    else OpenAll(s, NewPositions(cfg, input.signal.value, input.bar.candle, i)).(cool := s.cool.(until := i + 1))
  }

  function Entered(cfg: EngineConfig, s: Book, input: BarInput, i: int): Book {
    if i <= s.cool.until || i <= s.cool.slUntil || input.inBlackout then s
    else
      var (risk', ok) := CanTrade(cfg.risk, s.risk, DayOf(input.bar.candle.openTime), |s.open|);
      EnteredAfterGate(cfg, s.(risk := risk'), ok, input, i)
  }

  // ----- The bars -----

  function NewDay(s: Book, date: int): Book {
    if s.lastDate == Some(date) then s else s.(cool := s.cool.(slBuys := 0, slSells := 0), lastDate := Some(date))
  }

  function Managed(s: Book, bar: Bar): Book {
    s.(open := seq(|s.open|, k requires 0 <= k < |s.open| =>
         s.open[k].(position := UpdatePositionManagement(s.open[k].position, bar))))
  }

  function MaxBarsSwept(cfg: EngineConfig, s: Book, input: BarInput, i: int): Book {
    if cfg.isV6 then Swept(s, MaxBarsSweep(cfg, input.bar, i)) else s
  }

  function StepBar(cfg: EngineConfig, s: Book, input: BarInput, i: int): Book {
    var managed := Managed(NewDay(s, DayOf(input.bar.candle.openTime)), input.bar);
    Entered(cfg, ScaledIn(cfg, Swept(MaxBarsSwept(cfg, managed, input, i), ExitSweep(cfg, input.bar, i)), input, i), input, i)
  }

  function RunBars(cfg: EngineConfig, inputs: seq<BarInput>): Book {
    if inputs == [] then EmptyBook(cfg)
    else StepBar(cfg, RunBars(cfg, inputs[..|inputs| - 1]), inputs[|inputs| - 1], |inputs| - 1)
  }

  /** After the last bar everything still open is closed at its close, oldest first. */
  function FlushRecords(cfg: EngineConfig, open: seq<OpenPosition>, candle: Candle): seq<ClosedRecord> {
    if open == [] then []
    else
      var last := open[|open| - 1];
      FlushRecords(cfg, open[..|open| - 1], candle) + [ClosedRecord(last.id, Flushed(cfg, last.position, candle))]
  }

  function Finish(cfg: EngineConfig, s: Book, candle: Candle): Book {
    var records := FlushRecords(cfg, s.open, candle);
    s.(open := [], closed := s.closed + records, risk := RecordAll(Recorder(DayOf(candle.openTime)), s.risk, records))
  }

  function TradesOf(closed: seq<ClosedRecord>): seq<ClosedTrade> {
    if closed == [] then [] else TradesOf(closed[..|closed| - 1]) + [closed[|closed| - 1].trade]
  }

  // ----- The discipline of the list -----

  function RecordIds(closed: seq<ClosedRecord>): multiset<nat> {
    if closed == [] then multiset{} else RecordIds(closed[..|closed| - 1]) + multiset{closed[|closed| - 1].id}
  }

  /** Every position opened is open or closed, exactly once. */
  ghost predicate Accounted(s: Book) {
    Ids(s.open) + RecordIds(s.closed) == Upto(s.nextId)
  }

  /** The risk manager's balance is the metrics' unrounded final balance so far. */
  ghost predicate Balanced(cfg: EngineConfig, s: Book) {
    s.risk.account.balance == FinalBalance(TradesOf(s.closed), cfg.risk.initialBalance)
  }

  ghost predicate Limited(cfg: EngineConfig, s: Book) {
    s.open == [] || |s.open| <= cfg.risk.maxOpenPositions + 1
  }

  /** Each parent has at most one scale-in, and no scale-in has one. */
  ghost predicate Linked(s: Book) {
    && (forall c :: c in s.parentOf ==> c < s.nextId && s.parentOf[c] < s.nextId && s.parentOf[c] !in s.parentOf)
    && (forall c, d :: c in s.parentOf && d in s.parentOf && c != d ==> s.parentOf[c] != s.parentOf[d])
    && (forall t :: t in s.open ==> t.id < s.nextId && (t.position.isScaleIn <==> t.id in s.parentOf))
    && (forall t, c :: t in s.open && c in s.parentOf && s.parentOf[c] == t.id ==> t.position.hasScaleIn)
  }

  ghost predicate Disciplined(cfg: EngineConfig, s: Book) {
    Accounted(s) && Balanced(cfg, s) && Limited(cfg, s) && Linked(s)
  }

  lemma {:induction false} IdsJoin(a: seq<OpenPosition>, b: seq<OpenPosition>)
    ensures Ids(a + b) == Ids(a) + Ids(b)
  {
    if b == [] {
      assert a + b == a;
    } else {
      assert (a + b)[..|a + b| - 1] == a + b[..|b| - 1];
      IdsJoin(a, b[..|b| - 1]);
    }
  }

  lemma {:induction false} RecordIdsJoin(a: seq<ClosedRecord>, b: seq<ClosedRecord>)
    ensures RecordIds(a + b) == RecordIds(a) + RecordIds(b)
  {
    if b == [] {
      assert a + b == a;
    } else {
      assert (a + b)[..|a + b| - 1] == a + b[..|b| - 1];
      RecordIdsJoin(a, b[..|b| - 1]);
    }
  }

  lemma OneId(t: OpenPosition)
    ensures Ids([t]) == multiset{t.id}
  {
    assert [t][..0] == [];
  }

  lemma OneRecordId(r: ClosedRecord)
    ensures RecordIds([r]) == multiset{r.id}
  {
    assert [r][..0] == [];
  }

  lemma Distribute(head: multiset<nat>, all: multiset<nat>, kept: multiset<nat>, gone: multiset<nat>)
    requires all == kept + gone
    ensures head + all == (head + kept) + gone && head + all == kept + (gone + head)
  {
  }

  /** A sweep looks at each open position once: what it keeps and what it closes are the list, split. */
  lemma {:induction false} SweepSplits(exitOf: OpenPosition -> Option<ClosedTrade>, open: seq<OpenPosition>)
    ensures Ids(open) == Ids(Kept(exitOf, open)) + RecordIds(Exits(exitOf, open))
    ensures |Kept(exitOf, open)| + |Exits(exitOf, open)| == |open|
  {
    if open != [] {
      var head, tail := open[0], open[1..];
      assert open == [head] + tail;
      var kept, gone := Kept(exitOf, tail), Exits(exitOf, tail);
      SweepSplits(exitOf, tail);
      IdsJoin([head], tail);
      OneId(head);
      Distribute(multiset{head.id}, Ids(tail), Ids(kept), RecordIds(gone));
      if exitOf(head).None? {
        assert Exits(exitOf, open) == gone;
        IdsJoin([head], kept);
      } else {
        var record := ClosedRecord(head.id, exitOf(head).value);
        assert Kept(exitOf, open) == kept;
        RecordIdsJoin(gone, [record]);
        OneRecordId(record);
      }
    }
  }

  lemma {:induction false} KeptMembers(exitOf: OpenPosition -> Option<ClosedTrade>, open: seq<OpenPosition>)
    ensures forall t :: t in Kept(exitOf, open) <==> t in open && exitOf(t).None?
  {
    if open != [] {
      KeptMembers(exitOf, open[1..]);
      assert open == [open[0]] + open[1..];
    }
  }

  lemma {:induction false} TradesOfJoin(a: seq<ClosedRecord>, b: seq<ClosedRecord>)
    ensures TradesOf(a + b) == TradesOf(a) + TradesOf(b)
  {
    if b == [] {
      assert a + b == a;
    } else {
      assert (a + b)[..|a + b| - 1] == a + b[..|b| - 1];
      TradesOfJoin(a, b[..|b| - 1]);
    }
  }

  lemma {:induction false} PnlTotalJoin(a: seq<ClosedTrade>, b: seq<ClosedTrade>)
    ensures PnlTotal(a + b) == PnlTotal(a) + PnlTotal(b)
  {
    if b == [] {
      assert a + b == a;
    } else {
      assert (a + b)[..|a + b| - 1] == a + b[..|b| - 1];
      PnlTotalJoin(a, b[..|b| - 1]);
    }
  }

  /** Recording a trade moves the balance by its pnl. */
  ghost predicate BooksPnl(record: (RiskState, ClosedTrade) -> RiskState) {
    forall risk, trade :: record(risk, trade).account.balance == risk.account.balance + trade.pnl
  }

  lemma RecorderBooks(date: int)
    ensures BooksPnl(Recorder(date))
  {
    forall risk, trade
      ensures Recorder(date)(risk, trade).account.balance == risk.account.balance + trade.pnl
    {
      RiskRuns.TradeFrame(risk, date, trade.pnl, trade.exitReason);
    }
  }

  lemma {:induction false} RecordAllBalance(record: (RiskState, ClosedTrade) -> RiskState, risk: RiskState,
                                            exits: seq<ClosedRecord>)
    requires BooksPnl(record)
    ensures RecordAll(record, risk, exits).account.balance == risk.account.balance + PnlTotal(TradesOf(exits))
  {
    if exits != [] {
      var init := exits[..|exits| - 1];
      RecordAllBalance(record, risk, init);
      assert TradesOf(exits)[..|TradesOf(init)|] == TradesOf(init);
    }
  }

  lemma BookingKeepsBalance(initialBalance: real, closed: seq<ClosedRecord>, exits: seq<ClosedRecord>, risk: RiskState,
                            record: (RiskState, ClosedTrade) -> RiskState)
    requires BooksPnl(record) && risk.account.balance == FinalBalance(TradesOf(closed), initialBalance)
    ensures RecordAll(record, risk, exits).account.balance == FinalBalance(TradesOf(closed + exits), initialBalance)
  {
    RecordAllBalance(record, risk, exits);
    TradesOfJoin(closed, exits);
    PnlTotalJoin(TradesOf(closed), TradesOf(exits));
  }

  lemma MoveIds(open: multiset<nat>, kept: multiset<nat>, exits: multiset<nat>, closed: multiset<nat>,
                all: multiset<nat>)
    requires open == kept + exits && open + closed == all
    ensures kept + (closed + exits) == all
  {
  }

  lemma SweptKeeps(cfg: EngineConfig, s: Book, sweep: Sweep)
    requires Disciplined(cfg, s) && BooksPnl(sweep.record)
    ensures Disciplined(cfg, Swept(s, sweep))
  {
    var kept, exits := Kept(sweep.exitOf, s.open), Exits(sweep.exitOf, s.open);
    SweepSplits(sweep.exitOf, s.open);
    KeptMembers(sweep.exitOf, s.open);
    RecordIdsJoin(s.closed, exits);
    MoveIds(Ids(s.open), Ids(kept), RecordIds(exits), RecordIds(s.closed), Upto(s.nextId));
    BookingKeepsBalance(cfg.risk.initialBalance, s.closed, exits, s.risk, sweep.record);
  }

  lemma ManagementKeepsFlags(p: Position, bar: Bar)
    ensures UpdatePositionManagement(p, bar).isScaleIn == p.isScaleIn
    ensures UpdatePositionManagement(p, bar).hasScaleIn == p.hasScaleIn
  {
  }

  lemma ManagedKeeps(cfg: EngineConfig, s: Book, bar: Bar)
    requires Disciplined(cfg, s)
    ensures Disciplined(cfg, Managed(s, bar))
  {
    var open := Managed(s, bar).open;
    SameIds(s.open, open);
    forall t | t in open
      ensures exists u :: u in s.open && u.id == t.id && u.position.isScaleIn == t.position.isScaleIn
                          && u.position.hasScaleIn == t.position.hasScaleIn
    {
      var k :| 0 <= k < |open| && open[k] == t;
      ManagementKeepsFlags(s.open[k].position, bar);
      assert s.open[k] in s.open;
    }
  }

  lemma {:induction false} IdsCount(list: seq<OpenPosition>, k: nat)
    requires k < |list|
    ensures Ids(list)[list[k].id] >= 1
    ensures forall j :: 0 <= j < |list| && j != k && list[j].id == list[k].id ==> Ids(list)[list[k].id] >= 2
  {
    var init, last := list[..|list| - 1], list[|list| - 1];
    if k < |init| {
      IdsCount(init, k);
    } else {
      forall j | 0 <= j < |init| && list[j].id == last.id
        ensures Ids(list)[last.id] >= 2
      {
        IdsCount(init, j);
      }
    }
  }

  /** No two open positions share an id. */
  lemma AccountedDistinct(s: Book, k: nat)
    requires Accounted(s) && k < |s.open|
    ensures s.open[k].id < s.nextId
    ensures forall j :: 0 <= j < |s.open| && j != k ==> s.open[j].id != s.open[k].id
  {
    UptoMeaning(s.nextId);
    IdsCount(s.open, k);
    assert (Ids(s.open) + RecordIds(s.closed))[s.open[k].id] == Upto(s.nextId)[s.open[k].id];
  }

  lemma ScaleInLinks(cfg: EngineConfig, s: Book, bar: Bar, i: int, k: nat)
    requires k < |s.open| && Linked(s) && Accounted(s)
    requires !s.open[k].position.isScaleIn && !s.open[k].position.hasScaleIn
    ensures Linked(AddScaleIn(cfg, s, bar, i, k))
  {
    var s' := AddScaleIn(cfg, s, bar, i, k);
    var parent, child := s.open[k], s'.open[|s.open|];
    AccountedDistinct(s, k);
    assert parent in s.open;
    forall t | t in s'.open
      ensures t == child || (t.id == parent.id && t == s'.open[k]) || (t in s.open && t.id != parent.id)
    {
      var j :| 0 <= j < |s'.open| && s'.open[j] == t;
      assert j < |s.open| && j != k ==> t == s.open[j];
    }
  }

  lemma ScaleInCounts(cfg: EngineConfig, s: Book, bar: Bar, i: int, k: nat)
    requires k < |s.open| && Accounted(s)
    ensures Accounted(AddScaleIn(cfg, s, bar, i, k))
  {
    var s' := AddScaleIn(cfg, s, bar, i, k);
    var marked, child := s'.open[..|s.open|], s'.open[|s.open|];
    assert s'.open == marked + [child];
    SameIds(s.open, marked);
    IdsPlus(marked, child);
    Distribute(multiset{s.nextId}, Upto(s.nextId), Ids(s.open), RecordIds(s.closed));
  }

  lemma ScaledInKeeps(cfg: EngineConfig, s: Book, input: BarInput, i: int)
    requires Disciplined(cfg, s)
    ensures Disciplined(cfg, ScaledIn(cfg, s, input, i))
  {
    if ScaleInsAllowed(cfg, s, input) {
      var k := FirstIndex(t => MayScaleIn(cfg, s.risk, s.open, input, t), s.open);
      if k < |s.open| {
        ScaleInLinks(cfg, s, input.bar, i, k);
        ScaleInCounts(cfg, s, input.bar, i, k);
      }
    }
  }

  lemma AddedId(open: multiset<nat>, added: multiset<nat>, closed: multiset<nat>, all: multiset<nat>)
    requires open + closed == all
    ensures open + added + closed == all + added
  {
  }

  lemma JoinedKeeps(s: Book, p: Position)
    requires Accounted(s) && Linked(s) && !p.isScaleIn && !p.hasScaleIn
    ensures Accounted(Joined(s, p)) && Linked(Joined(s, p))
  {
    IdsPlus(s.open, OpenPosition(s.nextId, p));
    AddedId(Ids(s.open), multiset{s.nextId}, RecordIds(s.closed), Upto(s.nextId));
  }

  lemma {:induction false} OpenAllFrame(s: Book, ps: seq<Position>)
    ensures var s' := OpenAll(s, ps);
            && s'.risk == s.risk && s'.closed == s.closed && s'.cool == s.cool && s'.lastDate == s.lastDate
            && |s'.open| == |s.open| + |ps|
  {
    if ps != [] {
      OpenAllFrame(s, ps[..|ps| - 1]);
    }
  }

  lemma {:induction false} OpeningKeeps(s: Book, ps: seq<Position>)
    requires Accounted(s) && Linked(s)
    requires forall p :: p in ps ==> !p.isScaleIn && !p.hasScaleIn
    ensures var s' := OpenAll(s, ps);
            Accounted(s') && Linked(s')
  {
    if ps != [] {
      OpeningKeeps(s, ps[..|ps| - 1]);
      JoinedKeeps(OpenAll(s, ps[..|ps| - 1]), ps[|ps| - 1]);
    }
  }

  lemma GatedKeeps(cfg: EngineConfig, s: Book, ok: bool, input: BarInput, i: int)
    requires Disciplined(cfg, s) && (ok ==> |s.open| < cfg.risk.maxOpenPositions)
    ensures Disciplined(cfg, EnteredAfterGate(cfg, s, ok, input, i))
  {
    hide NewPositions, EntryBlocked, FinalBalance, TradesOf, OpenAll;
    if input.signal.Some? {
      OpeningKeeps(s, NewPositions(cfg, input.signal.value, input.bar.candle, i));
      OpenAllFrame(s, NewPositions(cfg, input.signal.value, input.bar.candle, i));
    }
  }

  lemma AskedKeeps(cfg: EngineConfig, s: Book, risk: RiskState)
    requires Disciplined(cfg, s) && risk.account.balance == s.risk.account.balance
    ensures Disciplined(cfg, s.(risk := risk))
  {
  }

  lemma EnteredKeeps(cfg: EngineConfig, s: Book, input: BarInput, i: int)
    requires Disciplined(cfg, s)
    ensures Disciplined(cfg, Entered(cfg, s, input, i))
  {
    hide CanTrade, Disciplined, EnteredAfterGate;
    var date := DayOf(input.bar.candle.openTime);
    var (risk', ok) := CanTrade(cfg.risk, s.risk, date, |s.open|);
    RiskRuns.GateFacts(cfg.risk, s.risk, date, |s.open|);
    AskedKeeps(cfg, s, risk');
    GatedKeeps(cfg, s.(risk := risk'), ok, input, i);
  }

  lemma StepKeeps(cfg: EngineConfig, s: Book, input: BarInput, i: int)
    requires Disciplined(cfg, s)
    ensures Disciplined(cfg, StepBar(cfg, s, input, i))
  {
    var date := DayOf(input.bar.candle.openTime);
    var s1 := Managed(NewDay(s, date), input.bar);
    ManagedKeeps(cfg, NewDay(s, date), input.bar);
    RecorderBooks(date);
    SweptKeeps(cfg, s1, MaxBarsSweep(cfg, input.bar, i));
    var s2 := MaxBarsSwept(cfg, s1, input, i);
    SweptKeeps(cfg, s2, ExitSweep(cfg, input.bar, i));
    var s3 := Swept(s2, ExitSweep(cfg, input.bar, i));
    ScaledInKeeps(cfg, s3, input, i);
    EnteredKeeps(cfg, ScaledIn(cfg, s3, input, i), input, i);
  }

  lemma {:induction false} FlushIds(cfg: EngineConfig, open: seq<OpenPosition>, candle: Candle)
    ensures RecordIds(FlushRecords(cfg, open, candle)) == Ids(open)
  {
    if open != [] {
      var init := FlushRecords(cfg, open[..|open| - 1], candle);
      FlushIds(cfg, open[..|open| - 1], candle);
      assert FlushRecords(cfg, open, candle)[..|init|] == init;
    }
  }

  /** Whatever signals arrive, every bar keeps the discipline of the list. */
  lemma {:induction false} BarsAreDisciplined(cfg: EngineConfig, inputs: seq<BarInput>)
    ensures Disciplined(cfg, RunBars(cfg, inputs))
  {
    if inputs != [] {
      BarsAreDisciplined(cfg, inputs[..|inputs| - 1]);
      StepKeeps(cfg, RunBars(cfg, inputs[..|inputs| - 1]), inputs[|inputs| - 1], |inputs| - 1);
    }
  }

  /** At the end every position ever opened has closed exactly once, and the two balances agree. */
  lemma EveryPositionCloses(cfg: EngineConfig, inputs: seq<BarInput>, candle: Candle)
    ensures var final := Finish(cfg, RunBars(cfg, inputs), candle);
            final.open == [] && RecordIds(final.closed) == Upto(final.nextId) && Balanced(cfg, final)
  {
    var s := RunBars(cfg, inputs);
    var records := FlushRecords(cfg, s.open, candle);
    BarsAreDisciplined(cfg, inputs);
    FlushIds(cfg, s.open, candle);
    RecordIdsJoin(s.closed, records);
    RecorderBooks(DayOf(candle.openTime));
    BookingKeepsBalance(cfg.risk.initialBalance, s.closed, records, s.risk, Recorder(DayOf(candle.openTime)));
  }

  // ----- What one signal can risk -----

  function LotTotal(ps: seq<Position>): real {
    if ps == [] then 0.0 else LotTotal(ps[..|ps| - 1]) + ps[|ps| - 1].lotSize
  }

  lemma LotsOf(ps: seq<Position>)
    requires 1 <= |ps| <= 2
    ensures LotTotal(ps) == ps[0].lotSize + if |ps| == 2 then ps[1].lotSize else 0.0
  {
    if |ps| == 2 {
      assert LotTotal(ps[..1]) == LotTotal(ps[..1][..0]) + ps[0].lotSize;
    } else {
      assert LotTotal(ps[..0]) == 0.0;
    }
  }

  lemma LockerLotBounds(lotSize: real)
    requires lotSize >= 0.02
    ensures 0.01 <= LockerLot(lotSize) <= 0.3 * lotSize + 0.005
  {
    Round2Near(lotSize * 0.3);
    Round2Monotone(0.006, lotSize * 0.3);
    assert Round2(0.006) == 0.01;
  }

  /**
   The positions of one entry share its entry and stop. Their lots add up to more than the
   sized lot exactly when the entry splits, and then to at most 1.3 times it and half a
   hundredth.
   */
  lemma EntryLots(cfg: EngineConfig, signal: EntrySignal, candle: Candle, i: int)
    ensures var ps := NewPositions(cfg, signal, candle, i);
            && (LotTotal(ps) > signal.lotSize <==> Splits(signal))
            && (Splits(signal) ==> LotTotal(ps) <= 1.3 * signal.lotSize + 0.005)
            && (!Splits(signal) ==> LotTotal(ps) == signal.lotSize)
            && (forall p :: p in ps ==>
                  p.slPrice == signal.slPrice && p.entryPrice == signal.entryPrice && p.side == signal.side)
  {
    LotsOf(NewPositions(cfg, signal, candle, i));
    if Splits(signal) {
      LockerLotBounds(signal.lotSize);
    }
  }

  /** The money the positions of an entry risk together at their common stop. */
  function EntryRisk(cfg: EngineConfig, signal: EntrySignal, candle: Candle, i: int): real {
    LotTotal(NewPositions(cfg, signal, candle, i))
    * UsdPerLot(cfg.risk, Abs(signal.entryPrice - signal.slPrice), Some(signal.entryPrice))
  }

  /** The signal carries the lot that the risk manager sizes for its stop. */
  ghost predicate IsSized(cfg: EngineConfig, s: RiskState, signal: EntrySignal, regime: Option<DetailedRegime>,
                          quality: Option<real>, confidence: Option<real>) {
    var slPoints := Abs(signal.entryPrice - signal.slPrice);
    && s.account.balance > 0.0 && UsdPerLot(cfg.risk, slPoints, Some(signal.entryPrice)) > 0.0
    && signal.lotSize == CalculateLotSize(cfg.risk, s, slPoints, quality, regime, confidence, Some(signal.entryPrice))
  }

  lemma MulOver(lots: real, sized: real, usdPerLot: real, cap: real)
    requires usdPerLot > 0.0 && lots <= 1.3 * sized + 0.005 && sized * usdPerLot <= cap
    ensures lots * usdPerLot <= 1.3 * cap + 0.005 * usdPerLot
  {
    MulMonotone(usdPerLot, lots, 1.3 * sized + 0.005);
    assert usdPerLot * (1.3 * sized + 0.005) == 1.3 * (sized * usdPerLot) + 0.005 * usdPerLot;
  }

  /** An entry that does not split risks at most 4.4% of the balance it was sized on; any entry at most 1.3 times that and the locker's rounding. */
  lemma EntryRiskBound(cfg: EngineConfig, s: RiskState, signal: EntrySignal, candle: Candle, i: int,
                       regime: Option<DetailedRegime>, quality: Option<real>, confidence: Option<real>)
    requires IsSized(cfg, s, signal, regime, quality, confidence)
    ensures !Splits(signal) ==> EntryRisk(cfg, signal, candle, i) <= 0.044 * s.account.balance
    ensures EntryRisk(cfg, signal, candle, i)
         <= 1.3 * (0.044 * s.account.balance)
            + 0.005 * UsdPerLot(cfg.risk, Abs(signal.entryPrice - signal.slPrice), Some(signal.entryPrice))
  {
    hide CalculateLotSize, NewPositions, UsdPerLot;
    var slPoints := Abs(signal.entryPrice - signal.slPrice);
    var usdPerLot := UsdPerLot(cfg.risk, slPoints, Some(signal.entryPrice));
    SizedRiskIsBounded(cfg.risk, s, slPoints, quality, regime, confidence, Some(signal.entryPrice));
    EntryLots(cfg, signal, candle, i);
    assert signal.lotSize >= 0.0;
    MulOver(LotTotal(NewPositions(cfg, signal, candle, i)), signal.lotSize, usdPerLot, 0.044 * s.account.balance);
  }

  /** A strong-trend signal with a stop 40 points away. */
  function WideSignal(lotSize: real): EntrySignal {
    EntrySignal(Buy, 1.1, 1.096, None, [], lotSize, TrailConfig(1.0, 2.0, 3.0, None), true, false, false)
  }

  lemma WideSignalIsSized(cfg: EngineConfig)
    requires cfg.risk.initialBalance == 10000.0 && cfg.risk.riskPercent == 4.0
    requires cfg.risk.lotSizeUnits == 100000.0 && !cfg.risk.quotedInYen
    ensures IsSized(cfg, InitialState(cfg.risk), WideSignal(1.0), Some(StrongTrend), Some(60.0), Some(55.0))
    ensures UsdPerLot(cfg.risk, Abs(1.1 - 1.096), Some(1.1)) == 400.0
  {
    assert DdPercent(10000.0, 10000.0) == 0.0;
    assert IdealLot(10000.0, 4.0, 400.0) == 1.0;
  }

  /**
   A sized entry can risk more than 4.4% of its balance: at 4% of 10000, forty points and a
   strong trend the sized lot is 1.00, the two legs hold 1.30, and together they risk 5.2%.
   */
  lemma SplitEntryExceedsSizedRisk(cfg: EngineConfig, candle: Candle, i: int)
    requires cfg.risk.initialBalance == 10000.0 && cfg.risk.riskPercent == 4.0
    requires cfg.risk.lotSizeUnits == 100000.0 && !cfg.risk.quotedInYen
    ensures IsSized(cfg, InitialState(cfg.risk), WideSignal(1.0), Some(StrongTrend), Some(60.0), Some(55.0))
    ensures EntryRisk(cfg, WideSignal(1.0), candle, i) == 520.0 > 0.044 * InitialState(cfg.risk).account.balance
  {
    WideSignalIsSized(cfg);
    LotsOf(NewPositions(cfg, WideSignal(1.0), candle, i));
    assert LockerLot(1.0) == 0.3;
  }

  lemma RecordedOneMore(sweep: Sweep, risk: RiskState, cool: Cooldowns, exits: seq<ClosedRecord>, exit: ClosedRecord)
    ensures RecordAll(sweep.record, risk, exits + [exit]) == sweep.record(RecordAll(sweep.record, risk, exits), exit.trade)
    ensures CoolAll(sweep.cooled, cool, exits + [exit]) == sweep.cooled(CoolAll(sweep.cooled, cool, exits), exit.trade)
  {
    assert (exits + [exit])[..|exits|] == exits;
  }

  /** The list with the positions from `j` on swept, told from the list with one position fewer swept. */
  lemma SweepSuffix(sweep: Sweep, before: Book, j: nat)
    requires j < |before.open|
    ensures var open, kept := before.open, Kept(sweep.exitOf, before.open[j + 1..]);
            var exits, result := Exits(sweep.exitOf, open[j + 1..]), sweep.exitOf(open[j]);
            && (open[..j + 1] + kept)[j] == open[j]
            && (open[..j + 1] + kept)[..j] == open[..j] && (open[..j + 1] + kept)[j + 1..] == kept
            && open[..j] + Kept(sweep.exitOf, open[j..]) == (if result.None? then open[..j + 1] + kept else open[..j] + kept)
            && Exits(sweep.exitOf, open[j..]) == (if result.None? then exits else exits + [ClosedRecord(open[j].id, result.value)])
  {
    var tail := before.open[j..];
    assert tail[0] == before.open[j] && tail[1..] == before.open[j + 1..];
    assert before.open[..j + 1] == before.open[..j] + [before.open[j]];
  }

  // ----- The object -----

  class BacktestRun {
    const cfg: EngineConfig
    var openPositions: seq<OpenPosition>
    var closedTrades: seq<ClosedRecord>
    var risk: RiskState
    var cool: Cooldowns
    var lastDate: Option<int>
    var nextId: nat
    ghost var atEntry: map<nat, Position>
    ghost var parentOf: map<nat, nat>

    ghost function View(): Book
      reads this
    {
      Book(openPositions, closedTrades, risk, cool, lastDate, nextId, atEntry, parentOf)
    }

    constructor (cfg: EngineConfig)
      ensures this.cfg == cfg && View() == EmptyBook(cfg)
    {
      this.cfg := cfg;
      openPositions, closedTrades, risk := [], [], InitialState(cfg.risk);
      cool, lastDate, nextId := Cooldowns(-1, -1, 0, 0), None, 0;
      atEntry, parentOf := map[], map[];
    }

    method StartDay(date: int)
      modifies this
      ensures View() == NewDay(old(View()), date)
    {
      if lastDate != Some(date) {
        cool := cool.(slBuys := 0, slSells := 0);
        lastDate := Some(date);
      }
    }

    method ManagePositions(bar: Bar)
      modifies `openPositions
      ensures View() == Managed(old(View()), bar)
    {
      ghost var managed := Managed(View(), bar).open;
      var j := 0;
      while j < |openPositions|
        invariant 0 <= j <= |openPositions| == |managed|
        invariant openPositions == managed[..j] + old(openPositions)[j..]
      {
        var t := openPositions[j];
        assert t == old(openPositions)[j];
        openPositions := openPositions[j := t.(position := UpdatePositionManagement(t.position, bar))];
        j := j + 1;
      }
    }

    /** The backward loop that closes and splices. */
    method SweepOpen(sweep: Sweep)
      modifies this
      ensures View() == Swept(old(View()), sweep)
    {
      ghost var before := View();
      var j := |openPositions| - 1;
      assert before.open[|before.open|..] == [];
      while j >= 0
        invariant -1 <= j < |before.open|
        invariant SweptFrom(before, sweep, j + 1)
      {
        SweepOne(sweep, j, before);
        j := j - 1;
      }
      assert before.open[0..] == before.open && before.open[..0] == [];
    }

    /** The loop has dealt with the positions from `j` on. */
    ghost predicate SweptFrom(before: Book, sweep: Sweep, j: nat)
      requires j <= |before.open|
      reads this
    {
      var exits := Exits(sweep.exitOf, before.open[j..]);
      View() == before.(open := before.open[..j] + Kept(sweep.exitOf, before.open[j..]),
                   closed := before.closed + exits,
                   risk := RecordAll(sweep.record, before.risk, exits),
                   cool := CoolAll(sweep.cooled, before.cool, exits))
    }

    method SweepOne(sweep: Sweep, j: nat, ghost before: Book)
      requires j < |before.open| && SweptFrom(before, sweep, j + 1)
      modifies `openPositions, `closedTrades, `risk, `cool
      ensures SweptFrom(before, sweep, j)
    {
      hide Kept, Exits, RecordAll, CoolAll;
      SweepSuffix(sweep, before, j);
      var t := openPositions[j];
      var result := sweep.exitOf(t);
      if result.Some? {
        ghost var exits := Exits(sweep.exitOf, before.open[j + 1..]);
        RecordedOneMore(sweep, before.risk, before.cool, exits, ClosedRecord(t.id, result.value));
        risk := sweep.record(risk, result.value);
        cool := sweep.cooled(cool, result.value);
        closedTrades := closedTrades + [ClosedRecord(t.id, result.value)];
        openPositions := openPositions[..j] + openPositions[j + 1..];
      }
    }

    method CheckScaleIns(input: BarInput, i: int)
      modifies this
      ensures View() == ScaledIn(cfg, old(View()), input, i)
    {
      if !input.confident || input.trend.None? || GetTradingMode(risk) == Defensive
         || |openPositions| >= cfg.risk.maxOpenPositions {
        return;
      }
      ghost var before := View();
      ghost var pick := t => MayScaleIn(cfg, before.risk, before.open, input, t);
      for k := 0 to |openPositions|
        invariant View() == before
        invariant FirstIndex(pick, openPositions) == k + FirstIndex(pick, openPositions[k..])
      {
        assert openPositions[k..][0] == openPositions[k] && openPositions[k..][1..] == openPositions[k + 1..];
        assert MayScaleIn(cfg, risk, openPositions, input, openPositions[k]) == pick(openPositions[k]);
        if MayScaleIn(cfg, risk, openPositions, input, openPositions[k]) {
          var parent := openPositions[k];
          openPositions := openPositions[k := parent.(position := parent.position.(hasScaleIn := true))]
                           + [OpenPosition(nextId, ScaleInOf(cfg, parent.position, input.bar, i))];
          atEntry := atEntry[nextId := ScaleInOf(cfg, parent.position, input.bar, i)];
          parentOf := parentOf[nextId := parent.id];
          nextId := nextId + 1;
          return;
        }
      }
    }

    method TryEnter(input: BarInput, i: int)
      modifies this
      ensures View() == Entered(cfg, old(View()), input, i)
    {
      if i <= cool.until || i <= cool.slUntil || input.inBlackout {
        return;
      }
      var (risk', ok) := CanTrade(cfg.risk, risk, DayOf(input.bar.candle.openTime), |openPositions|);
      risk := risk';
      EnterAfterGate(ok, input, i);
    }

    method EnterAfterGate(ok: bool, input: BarInput, i: int)
      modifies this
      ensures View() == EnteredAfterGate(cfg, old(View()), ok, input, i)
    {
      if !ok || input.signal.None? {
        return;
      }
      if EntryBlocked(cfg, risk, openPositions, cool, input.signal.value) {
        return;
      }
      OpenAllFrame(View(), NewPositions(cfg, input.signal.value, input.bar.candle, i));
      OpenPositions(NewPositions(cfg, input.signal.value, input.bar.candle, i));
      cool := cool.(until := i + 1);
    }

    method OpenPositions(ps: seq<Position>)
      modifies this
      ensures View() == OpenAll(old(View()), ps)
    {
      ghost var before := View();
      for k := 0 to |ps|
        invariant View() == OpenAll(before, ps[..k])
      {
        assert ps[..k + 1][..k] == ps[..k];
        openPositions := openPositions + [OpenPosition(nextId, ps[k])];
        atEntry := atEntry[nextId := ps[k]];
        nextId := nextId + 1;
      }
      assert ps[..|ps|] == ps;
    }

    /** One bar of the walk-forward loop. */
    method RunBar(input: BarInput, i: int)
      modifies this
      ensures View() == StepBar(cfg, old(View()), input, i)
    {
      var date := DayOf(input.bar.candle.openTime);
      StartDay(date);
      ManagePositions(input.bar);
      if cfg.isV6 {
        SweepOpen(MaxBarsSweep(cfg, input.bar, i));
      }
      SweepOpen(ExitSweep(cfg, input.bar, i));
      CheckScaleIns(input, i);
      TryEnter(input, i);
    }

    /** The final loop, over all that is still open. */
    method FlushRest(candle: Candle, record: (RiskState, ClosedTrade) -> RiskState)
      modifies this
      ensures var before, records := old(View()), FlushRecords(cfg, old(openPositions), candle);
              View() == before.(open := [], closed := before.closed + records, risk := RecordAll(record, before.risk, records))
    {
      ghost var before := View();
      var open := openPositions;
      for k := 0 to |open|
        invariant closedTrades == before.closed + FlushRecords(cfg, open[..k], candle)
        invariant risk == RecordAll(record, before.risk, FlushRecords(cfg, open[..k], candle))
        invariant View() == before.(closed := closedTrades, risk := risk)
      {
        assert open[..k + 1][..k] == open[..k];
        ghost var records := FlushRecords(cfg, open[..k], candle);
        var trade := Flushed(cfg, open[k].position, candle);
        assert (records + [ClosedRecord(open[k].id, trade)])[..|records|] == records;
        risk := record(risk, trade);
        closedTrades := closedTrades + [ClosedRecord(open[k].id, trade)];
      }
      assert open[..|open|] == open;
      openPositions := [];
    }

    /** Closes what is left at the last bar, if there is one. */
    method FlushAtEnd(inputs: seq<BarInput>)
      requires View() == RunBars(cfg, inputs)
      modifies this
      ensures View() == Ended(cfg, inputs)
    {
      if openPositions != [] && inputs != [] {
        var last := inputs[|inputs| - 1].bar.candle;
        FlushRest(last, Recorder(DayOf(last.openTime)));
      }
    }

    /** The whole run: every bar, the flush at the last one, and the metrics of the trades. */
    method RunAll(inputs: seq<BarInput>) returns (m: BacktestMetrics)
      requires View() == EmptyBook(cfg)
      modifies this
      ensures View() == Ended(cfg, inputs)
      ensures openPositions == [] && RecordIds(closedTrades) == Upto(nextId)
      ensures m.totalTrades == |closedTrades| == nextId
      ensures closedTrades != [] ==> m.finalBalance == Round2(risk.account.balance)
      ensures closedTrades == [] ==> m.finalBalance == cfg.risk.initialBalance
    {
      for i := 0 to |inputs|
        invariant View() == RunBars(cfg, inputs[..i])
      {
        assert inputs[..i + 1][..i] == inputs[..i];
        RunBar(inputs[i], i);
      }
      assert inputs[..|inputs|] == inputs;
      FlushAtEnd(inputs);
      EndedCloses(cfg, inputs);
      RecordCount(closedTrades);
      UptoMeaning(nextId);
      var trades := Trades(closedTrades);
      m := CalculateMetrics(trades, cfg.risk.initialBalance);
    }
  }

  /** The book after the bars and the flush at the last of them; no bars, no flush. */
  function Ended(cfg: EngineConfig, inputs: seq<BarInput>): Book {
    if inputs == [] then EmptyBook(cfg) else Finish(cfg, RunBars(cfg, inputs), inputs[|inputs| - 1].bar.candle)
  }

  lemma EndedCloses(cfg: EngineConfig, inputs: seq<BarInput>)
    ensures var final := Ended(cfg, inputs);
            final.open == [] && RecordIds(final.closed) == Upto(final.nextId) && Balanced(cfg, final)
  {
    if inputs == [] {
      BarsAreDisciplined(cfg, []);
    } else {
      EveryPositionCloses(cfg, inputs, inputs[|inputs| - 1].bar.candle);
    }
  }

  method Trades(closed: seq<ClosedRecord>) returns (trades: seq<ClosedTrade>)
    ensures trades == TradesOf(closed) && |trades| == |closed|
  {
    trades := [];
    for k := 0 to |closed|
      invariant trades == TradesOf(closed[..k]) && |trades| == k
    {
      assert closed[..k + 1][..k] == closed[..k];
      trades := trades + [closed[k].trade];
    }
    assert closed[..|closed|] == closed;
  }

  lemma {:induction false} RecordCount(closed: seq<ClosedRecord>)
    ensures |RecordIds(closed)| == |closed|
  {
    if closed != [] {
      RecordCount(closed[..|closed| - 1]);
    }
  }
}
