/** The values every engine trades in: sides, candles and positions. */
module Market {
  import opened Wrappers

  const MS_PER_MINUTE: int := 60 * 1000
  const MS_PER_HOUR: int := 60 * MS_PER_MINUTE
  const MS_PER_DAY: int := 24 * MS_PER_HOUR

  datatype Side = Buy | Sell

  /** The stop lies on the losing side of the entry. */
  predicate Protective(side: Side, entry: real, stop: real) {
    if side == Buy then stop < entry else stop > entry
  }

  /** One bar; `openTime` is in milliseconds since the epoch, UTC. */
  datatype Candle = Candle(openTime: int, open: real, high: real, low: real, close: real)

  /** The trade-management parameters a position carries from its entry. */
  datatype TrailConfig = TrailConfig(
    beThresholdR: real,
    tpRemovalR: real,
    slClampMaxAtr: real,
    trailWidthMult: Option<real>)

  /** The presets of the two legs of an entry: a tight partial and a loose runner. */
  const SMC_TP1_TRAIL := TrailConfig(0.6, 0.0, 3.0, None)
  const SMC_RUNNER_TRAIL := TrailConfig(1.5, 3.0, 4.0, None)

  datatype Position = Position(
    side: Side,
    entryPrice: real,
    slPrice: real,
    tpPrice: Option<real>,
    originalSlPrice: real,
    breakevenActivated: bool,
    peakFavorablePrice: real,
    lotSize: real,
    entryTime: int,
    entryIndex: int,
    setupTags: seq<string>,
    trailConfig: Option<TrailConfig>,
    isScaleIn: bool,
    hasScaleIn: bool)

  /** Candle arrays are strictly increasing in open time. */
  ghost predicate StrictlyIncreasing(bars: seq<Candle>) {
    forall i, j :: 0 <= i < j < |bars| ==> bars[i].openTime < bars[j].openTime
  }
}
