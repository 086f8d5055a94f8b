/**
 The live orchestrator: per symbol, a queue of sweep setups found on closed H1 bars, from
 which one M15 close at a time may fire an entry. A fired setup stays queued until the
 caller commits it. Detectors, structure gates and lot sizing are arbitrary inputs.
 */
module SmcOrchestration {
  import opened Wrappers
  import opened Numbers
  import opened Market
  import opened Calendar
  import opened PositionExits
  import opened RiskManagement

  const MIN_BARS := 30

  datatype SmcMode = Reversal | Continuation

  /** `sweepTime` is the open time of the sweep bar; setups of the old schema have none. */
  datatype PendingSetup = PendingSetup(
    direction: Side,
    mode: SmcMode,
    sweepLevel: real,
    sweepWick: real,
    sweepCandleHigh: real,
    sweepCandleLow: real,
    sweepCandleAtr: real,
    detectedAtH1Idx: int,
    expiresAtH1Idx: int,
    sweepTime: Option<int>)

  datatype ConvictionSizing = ConvictionSizing(tightRatio: real, tightMult: real, looseMult: real)

  datatype PairConfig = PairConfig(
    slBufferAtrM15: real,
    d1AdxFloor: real,
    disabledModes: set<SmcMode>,
    disableContinuation: bool,
    checksNews: bool,
    killzones: seq<(int, int)>,
    skipEntryDows: set<int>,
    slCooldownBars: int,
    maxSlSweepRatio: real,
    maxSlAtrM15: real,
    conviction: Option<ConvictionSizing>,
    tp1PartialFraction: real,
    tp1R: real,
    tp2R: real,
    priceFactor: real)

  datatype Leg = Leg(lotSize: real, tpPrice: real)

  datatype Signal = Signal(
    side: Side,
    entryPrice: real,
    slPrice: real,
    legs: seq<Leg>,
    mode: SmcMode,
    h1SweepTime: Option<int>)

  /** What the outside supplies at one M15 close: `h1Times` are the open times of the visible H1 bars. */
  datatype MarketView = MarketView(
    m15Count: nat,
    h1Times: seq<int>,
    now: int,
    lastClose: real,
    spread: real,
    m15Atr: Option<real>,
    d1Adx: real,
    inBlackout: bool)

  datatype LiveContext = LiveContext(openDirections: set<Side>, totalOpenPositions: int)

  /** Sweep detection by H1 index, the structure gates, and the risk-managed lot: any functions at all. */
  datatype Oracle = Oracle(
    detectSweep: int -> Option<PendingSetup>,
    gatesPass: PendingSetup -> bool,
    sizedLot: PendingSetup -> real)

  datatype M15Close = M15Close(view: MarketView, ctx: LiveContext, oracle: Oracle)

  datatype SymbolState = SymbolState(
    pending: seq<PendingSetup>,
    lastProcessedH1Time: Option<int>,
    cooldownBarsRemaining: int,
    actionedSweeps: set<Option<int>>,
    risk: RiskState)

  function FreshSymbol(risk: RiskConfig): SymbolState {
    SymbolState([], None, 0, {}, InitialState(risk))
  }

  // ----- 1. Catch-up over newly closed H1 bars -----

  /** The bar before the last: the newest whose successor has closed too. */
  function LastUsable(view: MarketView): int {
    |view.h1Times| - 2
  }

  function FirstAfter(times: seq<int>, after: int, from: nat, maxIdx: nat): (i: nat)
    requires maxIdx < |times|
    ensures i <= maxIdx
    ensures from <= maxIdx ==> from <= i
    ensures forall k :: from <= k < i ==> times[k] <= after
    ensures times[i] > after || i == maxIdx
    decreases maxIdx - from
  {
    if from > maxIdx then maxIdx
    else if times[from] > after then from
    else FirstAfter(times, after, from + 1, maxIdx)
  }

  function FirstUnprocessed(state: SymbolState, view: MarketView): (i: nat)
    requires |view.h1Times| >= 2
    ensures i <= LastUsable(view)
  {
    if state.lastProcessedH1Time.Some?
    then FirstAfter(view.h1Times, state.lastProcessedH1Time.value, 0, LastUsable(view))
    else LastUsable(view)
  }

  predicate Admits(cfg: PairConfig, actioned: set<Option<int>>, setup: PendingSetup) {
    && setup.mode !in cfg.disabledModes
    && setup.sweepTime !in actioned
    && !(setup.mode == Continuation && cfg.disableContinuation)
  }

  /** What detection on the bar at `idx` queues: at most one setup. */
  function Found(cfg: PairConfig, close: M15Close, actioned: set<Option<int>>, idx: int): seq<PendingSetup> {
    var setup := close.oracle.detectSweep(idx);
    if close.view.d1Adx >= cfg.d1AdxFloor && setup.Some? && Admits(cfg, actioned, setup.value)
    then [setup.value] else []
  }

  /** The setups queued from the bars `lo` up to, not including, `hi`. */
  function FoundBetween(cfg: PairConfig, close: M15Close, actioned: set<Option<int>>, lo: int,
                        hi: int): seq<PendingSetup>
    decreases hi - lo
  {
    if hi <= lo then [] else FoundBetween(cfg, close, actioned, lo, hi - 1) + Found(cfg, close, actioned, hi - 1)
  }

  /** The H1 bars this close runs detection on: from `CatchUpStart` up to, not including, the last bar. */
  function CatchUpStart(state: SymbolState, view: MarketView): (i: nat)
    requires |view.h1Times| >= 2
    ensures i <= LastUsable(view) + 1
  {
    if state.lastProcessedH1Time == Some(view.h1Times[LastUsable(view)]) then LastUsable(view) + 1
    else FirstUnprocessed(state, view)
  }

  function CatchUp(cfg: PairConfig, state: SymbolState, close: M15Close): SymbolState
    requires |close.view.h1Times| >= 2
  {
    var usable := LastUsable(close.view);
    var start := CatchUpStart(state, close.view);
    state.(pending := state.pending + FoundBetween(cfg, close, state.actionedSweeps, start, usable + 1),
    lastProcessedH1Time := Some(close.view.h1Times[usable]))
  }

  // ----- 2. Expiry -----

  predicate Expired(setup: PendingSetup, lastClosedH1Idx: int) {
    lastClosedH1Idx > setup.expiresAtH1Idx
  }

  /** `filter`: the elements that satisfy `keep`, in order. */
  function Filter<T>(keep: T -> bool, xs: seq<T>): seq<T> {
    if xs == [] then []
    else Filter(keep, xs[..|xs| - 1]) + if keep(xs[|xs| - 1]) then [xs[|xs| - 1]] else []
  }

  function Expire(state: SymbolState, lastClosedH1Idx: int): SymbolState {
    state.(pending := Filter((p: PendingSetup) => !Expired(p, lastClosedH1Idx), state.pending))
  }

  // ----- 3. Gates -----

  predicate InKillzone(zones: seq<(int, int)>, hour: int) {
    exists i :: 0 <= i < |zones| && zones[i].0 <= hour < zones[i].1
  }

  function UtcHour(ms: int): int {
    (ms - DayOf(ms) * MS_PER_DAY) / MS_PER_HOUR
  }

  /** News, killzone and weekday: entries pause, setups stay queued. */
  predicate TimeAllows(cfg: PairConfig, view: MarketView) {
    && !(cfg.checksNews && view.inBlackout)
    && InKillzone(cfg.killzones, UtcHour(view.now))
    && DayOfWeek(DayOf(view.now)) !in cfg.skipEntryDows
  }

  // ----- 4. One setup at one close -----

  datatype DropReason = AlreadyActioned | ZeroStop | WrongSide | StopTooWide

  datatype Verdict = Keep | Drop(why: DropReason) | Fire(signal: Signal)

  function EntryPrice(view: MarketView, side: Side): real {
    if side == Buy then view.lastClose + view.spread / 2.0 else view.lastClose - view.spread / 2.0
  }

  function SlBuffer(cfg: PairConfig, view: MarketView, setup: PendingSetup): real {
    (if view.m15Atr.GetOr(0.0) > 0.0 then view.m15Atr.GetOr(0.0) else setup.sweepCandleAtr) * cfg.slBufferAtrM15
  }

  function StopPrice(cfg: PairConfig, view: MarketView, setup: PendingSetup): real {
    var buffer := SlBuffer(cfg, view, setup);
    match setup.direction
    case Buy => (if setup.mode == Continuation then setup.sweepCandleLow else setup.sweepWick) - buffer
    case Sell => (if setup.mode == Continuation then setup.sweepCandleHigh else setup.sweepWick) + buffer
  }

  /** The stop is too far away for the size of the sweep candle: not on this bar. */
  predicate TooLoose(cfg: PairConfig, setup: PendingSetup, slPoints: real) {
    var range := setup.sweepCandleHigh - setup.sweepCandleLow;
    cfg.maxSlSweepRatio > 0.0 && range > 0.0 && slPoints / range > cfg.maxSlSweepRatio
  }

  predicate TooWide(cfg: PairConfig, m15Atr: Option<real>, slPoints: real) {
    cfg.maxSlAtrM15 > 0.0 && m15Atr.GetOr(0.0) > 0.0 && slPoints / m15Atr.GetOr(0.0) > cfg.maxSlAtrM15
  }

  function PartOf(lot: real, part: real): real {
    lot * part
  }

  function ConvictionLot(cfg: PairConfig, setup: PendingSetup, slPoints: real, lot: real): real {
    var range := setup.sweepCandleHigh - setup.sweepCandleLow;
    if cfg.conviction.Some? && range > 0.0 then
      var c := cfg.conviction.value;
      Round2(PartOf(lot, if slPoints / range < c.tightRatio then c.tightMult else c.looseMult))
    else lot
  }

  /** The price `r` times the stop distance in the trade's favour. */
  function TargetAt(side: Side, entry: real, slPoints: real, r: real): real {
    if side == Buy then entry + slPoints * r else entry - slPoints * r
  }

  function Legs(cfg: PairConfig, side: Side, entry: real, slPoints: real, totalLot: real): seq<Leg> {
    var runnerTp := RoundTo(TargetAt(side, entry, slPoints, cfg.tp2R), cfg.priceFactor);
    if cfg.tp1PartialFraction > 0.0 then
      var tp1Lot := Max(0.01, Round2(PartOf(totalLot, cfg.tp1PartialFraction)));
      [Leg(tp1Lot, RoundTo(TargetAt(side, entry, slPoints, cfg.tp1R), cfg.priceFactor)),
       Leg(Max(0.01, Round2(totalLot - tp1Lot)), runnerTp)]
    else [Leg(totalLot, runnerTp)]
  }

  function BuildSignal(cfg: PairConfig, setup: PendingSetup, entry: real, stop: real, sizedLot: real): Option<Signal> {
    var slPoints := Abs(entry - stop);
    var totalLot := ConvictionLot(cfg, setup, slPoints, sizedLot);
    if totalLot < (if cfg.tp1PartialFraction > 0.0 then 0.02 else 0.01) then None
    else Some(Signal(setup.direction, RoundTo(entry, cfg.priceFactor), RoundTo(stop, cfg.priceFactor),
                     Legs(cfg, setup.direction, entry, slPoints, totalLot), setup.mode, setup.sweepTime))
  }

  function Judge(cfg: PairConfig, close: M15Close, actioned: set<Option<int>>, setup: PendingSetup): Verdict {
    var entry, stop := EntryPrice(close.view, setup.direction), StopPrice(cfg, close.view, setup);
    var slPoints := Abs(entry - stop);
    if setup.direction in close.ctx.openDirections then Keep
    else if setup.sweepTime in actioned then Drop(AlreadyActioned)
    else if slPoints <= 0.0 then Drop(ZeroStop)
    else if TooLoose(cfg, setup, slPoints) then Keep
    else if !Protective(setup.direction, entry, stop) then Drop(WrongSide)
    else if TooWide(cfg, close.view.m15Atr, slPoints) then Drop(StopTooWide)
    else if !close.oracle.gatesPass(setup) then Keep
    else
      var signal := BuildSignal(cfg, setup, entry, stop, close.oracle.sizedLot(setup));
      if signal.Some? then Fire(signal.value) else Keep
  }

  // ----- 5. The scan over the queue, newest first -----

  /** Looks at `pending[..n]` from its end: drops what is to be dropped until one fires. */
  function Scan(judge: PendingSetup -> Verdict, pending: seq<PendingSetup>, n: nat): (seq<PendingSetup>, Option<Signal>)
    requires n <= |pending|
  {
    if n == 0 then (pending, None)
    else
      match judge(pending[n - 1])
      case Fire(signal) => (pending, Some(signal))
      case Keep => Scan(judge, pending, n - 1)
      case Drop(_) => Scan(judge, pending[..n - 1] + pending[n..], n - 1)
  }

  // ----- The calls -----

  predicate Processes(view: MarketView) {
    view.m15Count >= MIN_BARS && |view.h1Times| >= MIN_BARS
  }

  /** The queue after catch-up and expiry. */
  function Refreshed(cfg: PairConfig, state: SymbolState, close: M15Close): SymbolState
    requires Processes(close.view)
  {
    Expire(CatchUp(cfg, state, close), |close.view.h1Times| - 1)
  }

  function ScanState(cfg: PairConfig, state: SymbolState, close: M15Close): (SymbolState, Option<Signal>) {
    var scan := Scan(setup => Judge(cfg, close, state.actionedSweeps, setup), state.pending, |state.pending|);
    (state.(pending := scan.0), scan.1)
  }

  function PassGates(cfg: PairConfig, risk: RiskConfig, state: SymbolState, close: M15Close): (SymbolState,
                     Option<Signal>) {
    if state.cooldownBarsRemaining > 0 then
      (state.(cooldownBarsRemaining := state.cooldownBarsRemaining - 1), None)
    else if !TimeAllows(cfg, close.view) then (state, None)
    else
      var (risk', ok) := CanTrade(risk, state.risk, DayOf(close.view.now), close.ctx.totalOpenPositions);
      if ok then ScanState(cfg, state.(risk := risk'), close) else (state.(risk := risk'), None)
  }

  /** `evaluate`: one M15 close. */
  function Evaluate(cfg: PairConfig, risk: RiskConfig, state: SymbolState, close: M15Close): (SymbolState,
                    Option<Signal>) {
    if Processes(close.view) then PassGates(cfg, risk, Refreshed(cfg, state, close), close) else (state, None)
  }

  /** `recordEntry`: the caller's commit, after at least one leg was placed. */
  function RecordEntry(state: SymbolState, signal: Signal): SymbolState {
    state.(pending := Filter((p: PendingSetup) => p.sweepTime != signal.h1SweepTime, state.pending),
    actionedSweeps := state.actionedSweeps + {signal.h1SweepTime},
    cooldownBarsRemaining := 1)
  }

  datatype LiveExit = Sl | Tp | Other

  function CooldownAfter(cfg: PairConfig, reason: LiveExit): int {
    match reason case Tp => 2 case Sl => cfg.slCooldownBars case Other => 1
  }

  function RiskReason(reason: LiveExit): ExitReason {
    match reason case Tp => TakeProfit case Sl => StopLoss case Other => ForcedClose
  }

  function RecordExit(cfg: PairConfig, state: SymbolState, reason: LiveExit, date: int,
                      pnl: Option<real>): SymbolState {
    var bars := CooldownAfter(cfg, reason);
    state.(cooldownBarsRemaining := if bars > state.cooldownBarsRemaining then bars else state.cooldownBarsRemaining,
    risk := if pnl.Some? then RecordTrade(state.risk, pnl.value, date, RiskReason(reason)) else state.risk)
  }

  /** The persisted form: JSON keeps no absent sweep time, and older snapshots lack the last two fields. */
  datatype SymbolSnapshot = SymbolSnapshot(
    pending: seq<PendingSetup>,
    lastProcessedH1Time: Option<int>,
    actionedSweeps: set<int>,
    cooldownBarsRemaining: Option<int>,
    riskManager: Option<RiskSnapshot>)

  function TimesOf(sweeps: set<Option<int>>): set<int> {
    set t | t in sweeps && t.Some? :: t.value
  }

  function Marks(times: set<int>): set<Option<int>> {
    set t | t in times :: Some(t)
  }

  lemma MarksOfTimes(sweeps: set<Option<int>>)
    ensures Marks(TimesOf(sweeps)) == sweeps - {None}
  {
    forall t | t in sweeps - {None}
      ensures t in Marks(TimesOf(sweeps))
    {
      var k := t.value;
      assert t == Some(k) && k in TimesOf(sweeps);
      assert Some(k) in Marks(TimesOf(sweeps));
    }
  }

  function Serialized(state: SymbolState): SymbolSnapshot {
    SymbolSnapshot(state.pending, state.lastProcessedH1Time,
                   TimesOf(state.actionedSweeps),
                   Some(state.cooldownBarsRemaining), Some(SnapshotOf(state.risk)))
  }

  /** Setups without a sweep time are discarded; what an older snapshot lacks starts afresh. */
  function Restored(risk: RiskConfig, snap: SymbolSnapshot): SymbolState {
    SymbolState(Filter((p: PendingSetup) => p.sweepTime.Some?, snap.pending), snap.lastProcessedH1Time,
                snap.cooldownBarsRemaining.GetOr(0), Marks(snap.actionedSweeps),
                if snap.riskManager.Some? then Rehydrated(InitialState(risk), snap.riskManager.value) else InitialState(risk))
  }

  /** `serialize`, then `restore` into a new process. */
  function Reloaded(risk: RiskConfig, state: SymbolState): SymbolState {
    Restored(risk, Serialized(state))
  }

  /** What a restart keeps: all but the setups and marks without a sweep time and the oldest trades. */
  lemma ReloadedMeaning(risk: RiskConfig, state: SymbolState)
    ensures Reloaded(risk, state)
         == state.(pending := Filter((p: PendingSetup) => p.sweepTime.Some?, state.pending),
              actionedSweeps := state.actionedSweeps - {None},
              risk := Truncated(state.risk))
  {
    SnapshotRoundTrip(state.risk, InitialState(risk));
    MarksOfTimes(state.actionedSweeps);
  }

  /** An older snapshot without a brake or a cooldown restores to a fresh brake and no cooldown. */
  lemma OlderSnapshot(risk: RiskConfig, snap: SymbolSnapshot)
    requires snap.cooldownBarsRemaining == None && snap.riskManager == None
    ensures Restored(risk, snap).cooldownBarsRemaining == 0 && Restored(risk, snap).risk == FreshSymbol(risk).risk
    ensures Restored(risk, snap).lastProcessedH1Time == snap.lastProcessedH1Time
    ensures forall t :: t in Restored(risk, snap).actionedSweeps <==> t.Some? && t.value in snap.actionedSweeps
  {
    forall t: Option<int> | t.Some? && t.value in snap.actionedSweeps
      ensures t in Marks(snap.actionedSweeps)
    {
      var k := t.value;
      assert t == Some(k) && k in snap.actionedSweeps;
      assert Some(k) in Marks(snap.actionedSweeps);
    }
  }

  // ----- The object -----

  class LiveSmcOrchestrator {
    var states: map<string, SymbolState>
    const pairConfig: string -> PairConfig
    const riskConfig: string -> RiskConfig

    constructor (pairConfig: string -> PairConfig, riskConfig: string -> RiskConfig)
      ensures states == map[] && this.pairConfig == pairConfig && this.riskConfig == riskConfig
    {
      states := map[];
      this.pairConfig, this.riskConfig := pairConfig, riskConfig;
    }

    /** The symbol's state, a fresh one if it has not been seen. */
    function StateOf(symbol: string): SymbolState
      reads this
    {
      if symbol in states then states[symbol] else FreshSymbol(riskConfig(symbol))
    }

    method GetOrCreateState(symbol: string)
      modifies this
      ensures symbol in states && states == old(states)[symbol := old(StateOf(symbol))]
    {
      if symbol !in states {
        states := states[symbol := FreshSymbol(riskConfig(symbol))];
      }
    }

    /** The first bar opened after `after`, or `maxIdx` when there is none. */
    method FindH1IdxAfter(times: seq<int>, after: int, maxIdx: nat) returns (idx: nat)
      requires maxIdx < |times|
      ensures idx == FirstAfter(times, after, 0, maxIdx)
    {
      idx := 0;
      while idx <= maxIdx
        invariant idx <= maxIdx + 1
        invariant FirstAfter(times, after, 0, maxIdx) == FirstAfter(times, after, idx, maxIdx)
      {
        if times[idx] > after {
          return;
        }
        idx := idx + 1;
      }
      idx := maxIdx;
    }

    method CatchUpH1(symbol: string, close: M15Close)
      requires symbol in states && Processes(close.view)
      modifies this
      ensures states == old(states)[symbol := CatchUp(pairConfig(symbol), old(states)[symbol], close)]
    {
      hide Found, FreshSymbol;
      var cfg, state, times := pairConfig(symbol), states[symbol], close.view.h1Times;
      var usable := |times| - 2;
      var pending := state.pending;
      if state.lastProcessedH1Time != Some(times[usable]) {
        var first := usable;
        if state.lastProcessedH1Time.Some? {
          first := FindH1IdxAfter(times, state.lastProcessedH1Time.value, usable);
        }
        var idx := first;
        while idx <= usable
          invariant first <= idx <= usable + 1
          invariant pending == state.pending + FoundBetween(cfg, close, state.actionedSweeps, first, idx)
        {
          pending := pending + Found(cfg, close, state.actionedSweeps, idx);
          idx := idx + 1;
        }
      }
      assert pending == state.pending
                        + FoundBetween(cfg, close, state.actionedSweeps, CatchUpStart(state, close.view), usable + 1);
      states := states[symbol := state.(pending := pending, lastProcessedH1Time := Some(times[usable]))];
    }

    /** The queue brought up to date before the gates. */
    method Refresh(symbol: string, close: M15Close)
      requires Processes(close.view)
      modifies this
      ensures states == old(states)[symbol := Refreshed(pairConfig(symbol), old(StateOf(symbol)), close)]
    {
      GetOrCreateState(symbol);
      CatchUpH1(symbol, close);
      states := states[symbol := Expire(states[symbol], |close.view.h1Times| - 1)];
    }

    /** The backward loop that splices dropped setups out of the queue. */
    method ScanPending(symbol: string, close: M15Close) returns (signal: Option<Signal>)
      requires symbol in states
      modifies this
      ensures var after := ScanState(pairConfig(symbol), old(states)[symbol], close);
              states == old(states)[symbol := after.0] && signal == after.1
    {
      ghost var before := states;
      var cfg, state := pairConfig(symbol), states[symbol];
      ghost var judge := setup => Judge(cfg, close, state.actionedSweeps, setup);
      var pending := state.pending;
      var s := |pending| - 1;
      signal := None;
      while s >= 0
        invariant -1 <= s < |pending|
        invariant Scan(judge, pending, s + 1) == Scan(judge, state.pending, |state.pending|)
      {
        match Judge(cfg, close, state.actionedSweeps, pending[s]) {
          case Fire(fired) =>
            signal := Some(fired);
            states := states[symbol := state.(pending := pending)];
            return;
          case Keep =>
          case Drop(_) =>
            pending := pending[..s] + pending[s + 1..];
        }
        s := s - 1;
      }
      states := states[symbol := state.(pending := pending)];
    }

    /** One M15 close: catch up, expire, then the gates in their order, then the scan. */
    method EvaluateClose(symbol: string, close: M15Close) returns (signal: Option<Signal>)
      modifies this
      ensures var after := Evaluate(pairConfig(symbol), riskConfig(symbol), old(StateOf(symbol)), close);
              StateOf(symbol) == after.0 && signal == after.1
      ensures forall other :: other != symbol ==> StateOf(other) == old(StateOf(other))
    {
      if close.view.m15Count < MIN_BARS || |close.view.h1Times| < MIN_BARS {
        return None;
      }
      Refresh(symbol, close);
      signal := FireIfAllowed(symbol, close);
    }

    method FireIfAllowed(symbol: string, close: M15Close) returns (signal: Option<Signal>)
      requires symbol in states
      modifies this
      ensures var after := PassGates(pairConfig(symbol), riskConfig(symbol), old(states)[symbol], close);
              states == old(states)[symbol := after.0] && signal == after.1
    {
      var state := states[symbol];
      if state.cooldownBarsRemaining > 0 {
        states := states[symbol := state.(cooldownBarsRemaining := state.cooldownBarsRemaining - 1)];
        return None;
      }
      if !TimeAllows(pairConfig(symbol), close.view) {
        assert states == states[symbol := state];
        return None;
      }
      var (risk', ok) := CanTrade(riskConfig(symbol), state.risk, DayOf(close.view.now), close.ctx.totalOpenPositions);
      states := states[symbol := state.(risk := risk')];
      if !ok {
        return None;
      }
      signal := ScanPending(symbol, close);
    }

    method CommitEntry(symbol: string, signal: Signal)
      modifies this
      ensures StateOf(symbol) == RecordEntry(old(StateOf(symbol)), signal)
      ensures forall other :: other != symbol ==> StateOf(other) == old(StateOf(other))
    {
      GetOrCreateState(symbol);
      states := states[symbol := RecordEntry(states[symbol], signal)];
    }

    method CommitExit(symbol: string, reason: LiveExit, date: int, pnl: Option<real>)
      modifies this
      ensures StateOf(symbol) == RecordExit(pairConfig(symbol), old(StateOf(symbol)), reason, date, pnl)
      ensures forall other :: other != symbol ==> StateOf(other) == old(StateOf(other))
    {
      GetOrCreateState(symbol);
      states := states[symbol := RecordExit(pairConfig(symbol), states[symbol], reason, date, pnl)];
    }

    function Serialize(): map<string, SymbolSnapshot>
      reads this
    {
      map symbol | symbol in states :: Serialized(states[symbol])
    }

    /** A symbol that is not in the snapshot starts afresh, whatever it was before. */
    method Restore(snapshot: map<string, SymbolSnapshot>)
      modifies this
      ensures states.Keys == snapshot.Keys
      ensures forall symbol ::
                StateOf(symbol) == if symbol in snapshot then Restored(riskConfig(symbol), snapshot[symbol])
                                   else FreshSymbol(riskConfig(symbol))
    {
      states := map symbol | symbol in snapshot :: Restored(riskConfig(symbol), snapshot[symbol]);
    }

    /** A new process takes over what the old one saved. */
    method TakeOver(saved: LiveSmcOrchestrator)
      modifies this
      ensures states.Keys == old(saved.states).Keys
      ensures forall symbol ::
                StateOf(symbol) == if symbol in old(saved.states) then Reloaded(riskConfig(symbol), old(saved.states)[symbol])
                                   else FreshSymbol(riskConfig(symbol))
    {
      Restore(saved.Serialize());
    }

    method Reset(symbol: string)
      modifies this
      ensures StateOf(symbol) == FreshSymbol(riskConfig(symbol))
      ensures forall other :: other != symbol ==> StateOf(other) == old(StateOf(other))
    {
      states := states - {symbol};
    }
  }
}
