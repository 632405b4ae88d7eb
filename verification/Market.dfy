// Values every strategy component exchanges: bars, signals and the strategy settings.
// Prices, money and lots are `real`: rounding of floats and decimals is not modelled.

module Market {
  import opened Prelude

  datatype OrderSide = Buy | Sell

  function Opposite(side: OrderSide): OrderSide {
    if side.Buy? then Sell else Buy
  }

  datatype Bar = Bar(open: real, high: real, low: real, close: real) {
    /** What the constructor of the source's bar model enforces. */
    predicate Valid() {
      0.0 < low <= open <= high && low <= close <= high
    }
  }

  predicate ValidBars(bars: seq<Bar>) {
    forall i :: 0 <= i < |bars| ==> bars[i].Valid()
  }

  datatype BarSignal = BarSignal(
    index: int,
    buy: bool,
    sell: bool,
    hullGreen: Option<bool>,
    hullFlipDown: bool,
    hullFlipUp: bool,
    trailingStop: Option<real>,
    stopLow: Option<real>,
    stopHigh: Option<real>
  )

  /** The side a signal asks for; a buy flag wins, as in the branch order of the trade manager. */
  function SideOf(signal: BarSignal): Option<OrderSide> {
    if signal.buy then Some(Buy) else if signal.sell then Some(Sell) else None
  }

  /** The protective level that goes with the side the signal asks for. */
  function StopOf(signal: BarSignal): Option<real> {
    if signal.buy then signal.stopLow else if signal.sell then signal.stopHigh else None
  }

  /** The Hull flip that closes a runner held on `side`. */
  predicate FlipsAgainst(signal: BarSignal, side: OrderSide) {
    if side.Buy? then signal.hullFlipDown else signal.hullFlipUp
  }

  /** The side of the latest signal among the first `n`, if any fired. */
  function LastFired(signals: seq<BarSignal>, n: nat): Option<OrderSide>
    requires n <= |signals|
  {
    if n == 0 then None
    else if SideOf(signals[n - 1]).Some? then SideOf(signals[n - 1])
    else LastFired(signals, n - 1)
  }

  /** Signals are numbered by their position, as the bar loop relies on. */
  predicate Numbered(signals: seq<BarSignal>) {
    forall i :: 0 <= i < |signals| ==> signals[i].index == i
  }

  datatype SizingMode = Fixed | RiskPercent

  datatype HullMode = Hma | Thma | Ehma

  datatype Config = Config(
    sizingMode: SizingMode,
    riskPct: real,
    baseLots: real,
    maxLots: real,
    utKey: real,
    utAtr: nat,
    slLen: nat,
    rrMult: real,
    useHullExit: bool,
    onlyAfterBe: bool,
    hullMode: HullMode,
    hullLen: nat,
    hullMult: real,
    maxEntryGapBps: Option<int>
  ) {
    /** What the validators of the source's settings model enforce. */
    predicate Valid() {
      && 0.0 < riskPct <= 0.5
      && 0.0 < baseLots <= maxLots
      && 0.0 < utKey
      && 1 <= utAtr
      && 1 <= slLen
      && 0.0 < rrMult
      && 1 <= hullLen
      && 0.0 < hullMult
      && (maxEntryGapBps.Some? ==> 0 < maxEntryGapBps.value)
    }
  }
}
