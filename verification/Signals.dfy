// The UT Bot signal pipeline: trailing stop, Hull colour, and one signal snapshot per bar.

module Signals {
  import opened Algebra
  import opened Prelude
  import opened Market
  import opened Indicators

  // ---- Trailing stop ---------------------------------------------------------------------------------------

  /** The four branches, tried in order; `base` is the previous stop. */
  function NextTrail(base: real, close: real, previousClose: Option<real>, loss: real): real {
    if close > base && previousClose.Some? && previousClose.value > base then MaxReal(base, close - loss)
    else if close < base && previousClose.Some? && previousClose.value < base then MinReal(base, close + loss)
    else if close > base then close - loss
    else close + loss
  }

  /** A bar without a loss has no stop, and the bar after it starts again from 0. */
  function TrailAt(closes: seq<real>, losses: Series, i: nat): Option<real>
    requires i < |closes| == |losses|
  {
    if losses[i].None? then None
    else Some(NextTrail(if i == 0 then 0.0 else ValueOr0(TrailAt(closes, losses, i - 1)), closes[i],
                        if i == 0 then None else Some(closes[i - 1]), losses[i].value))
  }

  function TrailSeries(closes: seq<real>, losses: Series): (trail: Series)
    requires |closes| == |losses|
    ensures |trail| == |closes|
  {
    seq(|closes|, i requires 0 <= i < |closes| => TrailAt(closes, losses, i))
  }

  method TrailingStop(closes: seq<real>, losses: Series) returns (out: Series)
    requires |closes| == |losses|
    ensures out == TrailSeries(closes, losses)
  {
    out := [];
    var previous: Option<real> := None;
    for index := 0 to |closes|
      invariant |out| == index && forall i :: 0 <= i < index ==> out[i] == TrailAt(closes, losses, i)
      invariant previous == if index == 0 then None else TrailAt(closes, losses, index - 1)
    {
      var close, base := closes[index], if previous.None? then 0.0 else previous.value;
      var current := None;
      if losses[index].Some? {
        var loss := losses[index].value;
        var previousClose := if index > 0 then Some(closes[index - 1]) else None;
        if close > base && previousClose.Some? && previousClose.value > base {
          current := Some(MaxReal(base, close - loss));
        } else if close < base && previousClose.Some? && previousClose.value < base {
          current := Some(MinReal(base, close + loss));
        } else if close > base {
          current := Some(close - loss);
        } else {
          current := Some(close + loss);
        }
      }
      out := out + [current];
      previous := current;
    }
  }

  // ---- Hull colour -----------------------------------------------------------------------------------------

  /** Green when the Hull average stands above its value two bars ago. */
  function ColorAt(hull: Series, i: nat): Option<bool>
    requires i < |hull|
  {
    if i < 2 || hull[i].None? || hull[i - 2].None? then None else Some(hull[i].value > hull[i - 2].value)
  }

  method HullColors(hull: Series) returns (colors: seq<Option<bool>>)
    ensures |colors| == |hull| && forall i :: 0 <= i < |hull| ==> colors[i] == ColorAt(hull, i)
  {
    colors := [];
    for index := 0 to |hull|
      invariant |colors| == index && forall i :: 0 <= i < index ==> colors[i] == ColorAt(hull, i)
    {
      var current, earlier := hull[index], if index >= 2 then hull[index - 2] else None;
      colors := colors + [if current.None? || earlier.None? then None else Some(current.value > earlier.value)];
    }
  }

  /** The configured length scaled and truncated, at least one bar. */
  function HullLength(config: Config): (length: nat)
    requires config.Valid()
    ensures 1 <= length
  {
    var scaled := Times(config.hullLen as real, config.hullMult);
    TimesPositive(config.hullLen as real, config.hullMult);
    AtLeastOne(scaled.Floor)
  }

  function HullSeries(closes: Series, config: Config): (hull: Series)
    requires config.Valid()
    ensures |hull| == |closes|
  {
    var length := HullLength(config);
    match config.hullMode
    case Hma => HmaSeries(closes, length)
    case Ehma => EhmaSeries(closes, length)
    case Thma => ThmaSeries(closes, AtLeastOne(length / 2))
  }

  method Hull(closes: Series, config: Config) returns (hull: Series)
    requires config.Valid()
    ensures hull == HullSeries(closes, config)
    ensures config.hullMode.Hma? ==> hull == HmaSeries(closes, HullLength(config))
    ensures config.hullMode.Ehma? ==> hull == EhmaSeries(closes, HullLength(config))
    ensures config.hullMode.Thma? ==> hull == ThmaSeries(closes, AtLeastOne(HullLength(config) / 2))
  {
    var length := HullLength(config);
    match config.hullMode {
      case Hma => hull := Indicators.Hma(closes, length);
      case Ehma => hull := Indicators.Ehma(closes, length);
      case Thma => hull := Indicators.Thma(closes, AtLeastOne(length / 2));
    }
  }

  // ---- Signals ---------------------------------------------------------------------------------------------

  function Closes(bars: seq<Bar>): seq<real> {
    seq(|bars|, i requires 0 <= i < |bars| => bars[i].close)
  }

  function Highs(bars: seq<Bar>): seq<real> {
    seq(|bars|, i requires 0 <= i < |bars| => bars[i].high)
  }

  function Lows(bars: seq<Bar>): seq<real> {
    seq(|bars|, i requires 0 <= i < |bars| => bars[i].low)
  }

  function Ranges(bars: seq<Bar>): Series {
    TrueRanges(Highs(bars), Lows(bars), Closes(bars))
  }

  function Losses(bars: seq<Bar>, config: Config): (losses: Series)
    requires config.Valid()
    ensures |losses| == |bars|
  {
    var ranges := AtrSeries(Highs(bars), Lows(bars), Closes(bars), config.utAtr);
    seq(|bars|, i requires 0 <= i < |bars| =>
      if ranges[i].None? then None else Some(Times(config.utKey, ranges[i].value)))
  }

  function Trail(bars: seq<Bar>, config: Config): (trail: Series)
    requires config.Valid()
    ensures |trail| == |bars|
  {
    TrailSeries(Closes(bars), Losses(bars, config))
  }

  function SignalAt(bars: seq<Bar>, config: Config, i: nat): BarSignal
    requires config.Valid() && i < |bars|
  {
    var closes, trail := Defined(Closes(bars)), Trail(bars, config);
    var hull := HullSeries(closes, config);
    var color, previous := ColorAt(hull, i), if i == 0 then None else ColorAt(hull, i - 1);
    BarSignal(i, CrossAt(closes, trail, true, i), CrossAt(closes, trail, false, i), color,
              color == Some(false) && previous == Some(true), color == Some(true) && previous == Some(false),
              trail[i], LowestAt(Lows(bars), config.slLen, i), HighestAt(Highs(bars), config.slLen, i))
  }

  function SignalSeries(bars: seq<Bar>, config: Config): (signals: seq<BarSignal>)
    requires config.Valid()
    ensures |signals| == |bars| && Numbered(signals)
  {
    seq(|bars|, i requires 0 <= i < |bars| => SignalAt(bars, config, i))
  }

  method ComputeSignals(bars: seq<Bar>, config: Config) returns (signals: seq<BarSignal>)
    requires config.Valid()
    ensures signals == SignalSeries(bars, config)
  {
    hide HullSeries, TrailSeries, AtrSeries, ColorAt, CrossAt, LowestAt, HighestAt;
    if bars == [] {
      return [];
    }
    var closes, highs, lows := Closes(bars), Highs(bars), Lows(bars);
    var averageRange := Atr(highs, lows, closes, config.utAtr);
    var losses := ScaledLosses(averageRange, config.utKey);
    assert losses == Losses(bars, config);
    var trailing := TrailingStop(closes, losses);
    var buys := Cross(Defined(closes), trailing, true);
    var sells := Cross(Defined(closes), trailing, false);
    var hull := Hull(Defined(closes), config);
    var colors := HullColors(hull);
    signals := [];
    for index := 0 to |bars|
      invariant |signals| == index
      invariant forall i :: 0 <= i < index ==> signals[i] == SignalAt(bars, config, i)
    {
      var previousColor := if index > 0 then colors[index - 1] else None;
      var color := colors[index];
      signals := signals + [BarSignal(index, buys[index], sells[index], color,
                                      color == Some(false) && previousColor == Some(true),
                                      color == Some(true) && previousColor == Some(false),
                                      trailing[index], LowestAt(lows, config.slLen, index),
                                      HighestAt(highs, config.slLen, index))];
    }
  }

  method ScaledLosses(ranges: Series, key: real) returns (losses: Series)
    ensures |losses| == |ranges|
    ensures forall i :: 0 <= i < |losses| ==>
              losses[i] == if ranges[i].None? then None else Some(Times(key, ranges[i].value))
  {
    losses := [];
    for index := 0 to |ranges|
      invariant |losses| == index
      invariant forall i :: 0 <= i < index ==>
                  losses[i] == if ranges[i].None? then None else Some(Times(key, ranges[i].value))
    {
      losses := losses + [if ranges[index].None? then None else Some(Times(key, ranges[index].value))];
    }
  }
}
