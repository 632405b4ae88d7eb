// Moving averages, true range, windows and crossings, bar by bar. `None` is the missing value of
// the charting language: a window that holds one has no average.
//
// The functions ending in `At` give the value on one bar; the methods are the source's loops and
// are proved to produce exactly those values. Lengths are positive: the source raises otherwise.

module Indicators {
  import opened Algebra
  import opened Prelude

  type Series = seq<Option<real>>

  predicate AllDefined(values: Series, lo: int, hi: int) {
    0 <= lo && hi <= |values| && forall k :: lo <= k < hi ==> values[k].Some?
  }

  predicate WindowDefined(values: Series, length: nat, i: nat) {
    i < |values| && length <= i + 1 && AllDefined(values, i + 1 - length, i + 1)
  }

  // ---- Simple and recursive averages -------------------------------------------------------------------

  function ValueOr0(value: Option<real>): real {
    if value.Some? then value.value else 0.0
  }

  function WindowSum(values: Series, lo: nat, hi: nat): real
    requires lo <= hi <= |values|
  {
    if lo == hi then 0.0 else WindowSum(values, lo, hi - 1) + ValueOr0(values[hi - 1])
  }

  function SmaAt(values: Series, length: nat, i: nat): Option<real>
    requires 1 <= length && i < |values|
  {
    if WindowDefined(values, length, i) then Some(WindowSum(values, i + 1 - length, i + 1) / length as real) else None
  }

  method Sma(values: Series, length: nat) returns (out: Series)
    requires 1 <= length
    ensures |out| == |values| && forall i :: 0 <= i < |out| ==> out[i] == SmaAt(values, length, i)
  {
    out := [];
    for index := 0 to |values|
      invariant |out| == index && forall i :: 0 <= i < index ==> out[i] == SmaAt(values, length, i)
    {
      if index + 1 < length {
        out := out + [None];
      } else {
        var lo := index + 1 - length;
        var missing, total, k := false, 0.0, lo;
        while k < index + 1 && !missing
          invariant lo <= k <= index + 1
          invariant missing ==> !AllDefined(values, lo, index + 1)
          invariant !missing ==> AllDefined(values, lo, k) && total == WindowSum(values, lo, k)
          decreases index + 1 - k, !missing
        {
          if values[k].None? {
            missing := true;
          } else {
            total := total + values[k].value;
            k := k + 1;
          }
        }
        out := out + [if missing then None else Some(total / length as real)];
      }
    }
  }

  /** One step of the exponential recursion. */
  function Blend(alpha: real, value: real, previous: real): real {
    Times(alpha, value) + Times(1.0 - alpha, previous)
  }

  /** Seeded by the simple average; a missing value drops the average until the next seed. */
  function RecursiveAt(values: Series, length: nat, alpha: real, i: nat): Option<real>
    requires 1 <= length && i < |values|
  {
    var previous := if i == 0 then None else RecursiveAt(values, length, alpha, i - 1);
    if previous.None? then SmaAt(values, length, i)
    else if values[i].None? then None
    else Some(Blend(alpha, values[i].value, previous.value))
  }

  method RecursiveAverage(values: Series, length: nat, alpha: real) returns (out: Series)
    requires 1 <= length
    ensures |out| == |values| && forall i :: 0 <= i < |out| ==> out[i] == RecursiveAt(values, length, alpha, i)
  {
    var seeded := Sma(values, length);
    out := [];
    var previous: Option<real> := None;
    for index := 0 to |values|
      invariant |out| == index && forall i :: 0 <= i < index ==> out[i] == RecursiveAt(values, length, alpha, i)
      invariant previous == if index == 0 then None else RecursiveAt(values, length, alpha, index - 1)
    {
      var current;
      if previous.None? {
        current := seeded[index];
      } else if values[index].None? {
        current := None;
      } else {
        current := Some(Blend(alpha, values[index].value, previous.value));
      }
      out := out + [current];
      previous := current;
    }
  }

  function RmaAlpha(length: nat): real
    requires 1 <= length
  {
    1.0 / length as real
  }

  function EmaAlpha(length: nat): real
    requires 1 <= length
  {
    2.0 / (length + 1) as real
  }

  function RmaSeries(values: Series, length: nat): Series
    requires 1 <= length
  {
    seq(|values|, i requires 0 <= i < |values| => RecursiveAt(values, length, RmaAlpha(length), i))
  }

  function EmaSeries(values: Series, length: nat): Series
    requires 1 <= length
  {
    seq(|values|, i requires 0 <= i < |values| => RecursiveAt(values, length, EmaAlpha(length), i))
  }

  method Rma(values: Series, length: nat) returns (out: Series)
    requires 1 <= length
    ensures out == RmaSeries(values, length)
  {
    out := RecursiveAverage(values, length, RmaAlpha(length));
  }

  method Ema(values: Series, length: nat) returns (out: Series)
    requires 1 <= length
    ensures out == EmaSeries(values, length)
  {
    out := RecursiveAverage(values, length, EmaAlpha(length));
  }

  // ---- Weighted average ----------------------------------------------------------------------------------

  /** The weight of the value `offset` bars ago. */
  function Weight(length: nat, offset: nat): nat
    requires offset <= length
  {
    (length - offset) * length
  }

  function Norm(length: nat, m: nat): nat
    requires m <= length
  {
    if m == 0 then 0 else Norm(length, m - 1) + Weight(length, m - 1)
  }

  function WeightedSum(values: Series, length: nat, i: nat, m: nat): real
    requires m <= length && m <= i + 1 && i < |values|
  {
    if m == 0 then 0.0
    else WeightedSum(values, length, i, m - 1)
         + Times(ValueOr0(values[i - (m - 1)]), Weight(length, m - 1) as real)
  }

  lemma {:induction false} NormPositive(length: nat, m: nat)
    requires 1 <= m <= length
    ensures 0 < Norm(length, m)
  {
    if 1 < m { NormPositive(length, m - 1); }
    assert 0 < length * length;
  }

  function WmaAt(values: Series, length: nat, i: nat): Option<real>
    requires 1 <= length && i < |values|
  {
    NormPositive(length, length);
    if WindowDefined(values, length, i) then Some(WeightedSum(values, length, i, length) / Norm(length, length) as real)
    else None
  }

  function WmaSeries(values: Series, length: nat): Series
    requires 1 <= length
  {
    seq(|values|, i requires 0 <= i < |values| => WmaAt(values, length, i))
  }

  method Wma(values: Series, length: nat) returns (out: Series)
    requires 1 <= length
    ensures out == WmaSeries(values, length)
  {
    NormPositive(length, length);
    out := [];
    for index := 0 to |values|
      invariant |out| == index && forall i :: 0 <= i < index ==> out[i] == WmaAt(values, length, i)
    {
      if index + 1 < length {
        out := out + [None];
      } else {
        var norm, total, incomplete, offset := 0.0, 0.0, false, 0;
        while offset < length && !incomplete
          invariant 0 <= offset <= length
          invariant incomplete ==> !AllDefined(values, index + 1 - length, index + 1)
          invariant !incomplete ==> AllDefined(values, index + 1 - offset, index + 1)
                                    && norm == Norm(length, offset) as real
                                    && total == WeightedSum(values, length, index, offset)
          decreases length - offset, !incomplete
        {
          var item := values[index - offset];
          if item.None? {
            incomplete := true;
          } else {
            var weight := Weight(length, offset) as real;
            norm := norm + weight;
            total := total + Times(item.value, weight);
            offset := offset + 1;
          }
        }
        out := out + [if incomplete then None else Some(total / norm)];
      }
    }
  }

  // ---- Hull averages ---------------------------------------------------------------------------------------

  function DoubleMinusFull(half: Series, full: Series): Series
    requires |half| == |full|
  {
    seq(|half|, i requires 0 <= i < |half| =>
      if half[i].None? || full[i].None? then None else Some(Times(2.0, half[i].value) - full[i].value))
  }

  function TripleMinus(third: Series, half: Series, full: Series): Series
    requires |third| == |half| == |full|
  {
    seq(|half|, i requires 0 <= i < |half| =>
      if third[i].None? || half[i].None? || full[i].None? then None
      else Some(Times(third[i].value, 3.0) - half[i].value - full[i].value))
  }

  method DoubleMinusFullStepwise(half: Series, full: Series) returns (out: Series)
    requires |half| == |full|
    ensures out == DoubleMinusFull(half, full)
  {
    out := [];
    for index := 0 to |half|
      invariant |out| == index && forall i :: 0 <= i < index ==> out[i] == DoubleMinusFull(half, full)[i]
    {
      var a, b := half[index], full[index];
      out := out + [if a.None? || b.None? then None else Some(Times(2.0, a.value) - b.value)];
    }
  }

  method TripleMinusStepwise(third: Series, half: Series, full: Series) returns (out: Series)
    requires |third| == |half| == |full|
    ensures out == TripleMinus(third, half, full)
  {
    out := [];
    for index := 0 to |half|
      invariant |out| == index && forall i :: 0 <= i < index ==> out[i] == TripleMinus(third, half, full)[i]
    {
      var a, b, c := third[index], half[index], full[index];
      out := out + [if a.None? || b.None? || c.None? then None else Some(Times(a.value, 3.0) - b.value - c.value)];
    }
  }

  function AtLeastOne(n: nat): nat {
    if n < 1 then 1 else n
  }

  /** Rounding with halves away from zero. */
  function PineRound(x: real): int {
    if x >= 0.0 then (x + 0.5).Floor else -(0.5 - x).Floor
  }

  /** The least m with n <= m * (m + 1): the rounded square root of n, found without one. */
  function RoundedRoot(n: nat, from: nat): nat
    decreases n - from
  {
    if n <= from * (from + 1) then from else RoundedRoot(n, from + 1)
  }

  function SmoothingLength(length: nat): (m: nat)
    ensures 1 <= m
  {
    AtLeastOne(RoundedRoot(length, 0))
  }

  function HmaSeries(values: Series, length: nat): Series
    requires 1 <= length
  {
    WmaSeries(DoubleMinusFull(WmaSeries(values, AtLeastOne(length / 2)), WmaSeries(values, length)), SmoothingLength(length))
  }

  function EhmaSeries(values: Series, length: nat): Series
    requires 1 <= length
  {
    EmaSeries(DoubleMinusFull(EmaSeries(values, AtLeastOne(length / 2)), EmaSeries(values, length)), SmoothingLength(length))
  }

  function ThmaSeries(values: Series, length: nat): Series
    requires 1 <= length
  {
    WmaSeries(TripleMinus(WmaSeries(values, AtLeastOne(length / 3)), WmaSeries(values, AtLeastOne(length / 2)),
                          WmaSeries(values, length)), length)
  }

  method Hma(values: Series, length: nat) returns (out: Series)
    requires 1 <= length
    ensures out == HmaSeries(values, length)
  {
    var half := Wma(values, AtLeastOne(length / 2));
    var full := Wma(values, length);
    var raw := DoubleMinusFullStepwise(half, full);
    out := Wma(raw, SmoothingLength(length));
  }

  method Ehma(values: Series, length: nat) returns (out: Series)
    requires 1 <= length
    ensures out == EhmaSeries(values, length)
  {
    var half := Ema(values, AtLeastOne(length / 2));
    var full := Ema(values, length);
    var raw := DoubleMinusFullStepwise(half, full);
    out := Ema(raw, SmoothingLength(length));
  }

  method Thma(values: Series, length: nat) returns (out: Series)
    requires 1 <= length
    ensures out == ThmaSeries(values, length)
  {
    var third := Wma(values, AtLeastOne(length / 3));
    var half := Wma(values, AtLeastOne(length / 2));
    var full := Wma(values, length);
    var raw := TripleMinusStepwise(third, half, full);
    out := Wma(raw, length);
  }

  // ---- True range ------------------------------------------------------------------------------------------

  function TrueRangeAt(highs: seq<real>, lows: seq<real>, closes: seq<real>, i: nat): real
    requires i < |highs| == |lows| == |closes|
  {
    if i == 0 then highs[0] - lows[0]
    else MaxReal(highs[i] - lows[i], MaxReal(AbsReal(highs[i] - closes[i - 1]), AbsReal(lows[i] - closes[i - 1])))
  }

  function TrueRanges(highs: seq<real>, lows: seq<real>, closes: seq<real>): Series
    requires |highs| == |lows| == |closes|
  {
    seq(|highs|, i requires 0 <= i < |highs| => Some(TrueRangeAt(highs, lows, closes, i)))
  }

  function AtrSeries(highs: seq<real>, lows: seq<real>, closes: seq<real>, length: nat): (ranges: Series)
    requires 1 <= length && |highs| == |lows| == |closes|
    ensures |ranges| == |highs|
  {
    RmaSeries(TrueRanges(highs, lows, closes), length)
  }

  method TrueRange(highs: seq<real>, lows: seq<real>, closes: seq<real>) returns (out: Series)
    requires |highs| == |lows| == |closes|
    ensures out == TrueRanges(highs, lows, closes)
  {
    out := [];
    for index := 0 to |highs|
      invariant |out| == index && forall i :: 0 <= i < index ==> out[i] == Some(TrueRangeAt(highs, lows, closes, i))
    {
      if index == 0 {
        out := out + [Some(highs[index] - lows[index])];
      } else {
        var previousClose := closes[index - 1];
        out := out + [Some(MaxReal(highs[index] - lows[index],
                                   MaxReal(AbsReal(highs[index] - previousClose), AbsReal(lows[index] - previousClose))))];
      }
    }
  }

  method Atr(highs: seq<real>, lows: seq<real>, closes: seq<real>, length: nat) returns (out: Series)
    requires 1 <= length && |highs| == |lows| == |closes|
    ensures out == AtrSeries(highs, lows, closes, length)
  {
    var ranges := TrueRange(highs, lows, closes);
    out := Rma(ranges, length);
  }

  // ---- Window extremes and crossings -------------------------------------------------------------------------

  function WindowMin(values: seq<real>, lo: nat, hi: nat): real
    requires lo < hi <= |values|
    decreases hi - lo
  {
    if hi == lo + 1 then values[lo] else MinReal(WindowMin(values, lo, hi - 1), values[hi - 1])
  }

  function WindowMax(values: seq<real>, lo: nat, hi: nat): real
    requires lo < hi <= |values|
    decreases hi - lo
  {
    if hi == lo + 1 then values[lo] else MaxReal(WindowMax(values, lo, hi - 1), values[hi - 1])
  }

  function LowestAt(values: seq<real>, length: nat, i: nat): Option<real>
    requires 1 <= length && i < |values|
  {
    if i + 1 < length then None else Some(WindowMin(values, i + 1 - length, i + 1))
  }

  function HighestAt(values: seq<real>, length: nat, i: nat): Option<real>
    requires 1 <= length && i < |values|
  {
    if i + 1 < length then None else Some(WindowMax(values, i + 1 - length, i + 1))
  }

  function Defined(values: seq<real>): Series {
    seq(|values|, i requires 0 <= i < |values| => Some(values[i]))
  }

  predicate CrossAt(left: Series, right: Series, upward: bool, i: nat)
    requires i < |left| == |right|
  {
    && 0 < i
    && left[i].Some? && right[i].Some? && left[i - 1].Some? && right[i - 1].Some?
    && if upward then left[i].value > right[i].value && left[i - 1].value <= right[i - 1].value
       else left[i].value < right[i].value && left[i - 1].value >= right[i - 1].value
  }

  method Cross(left: Series, right: Series, upward: bool) returns (out: seq<bool>)
    requires |left| == |right|
    ensures |out| == |left| && forall i :: 0 <= i < |out| ==> out[i] == CrossAt(left, right, upward, i)
  {
    out := [];
    for index := 0 to |left|
      invariant |out| == index && forall i :: 0 <= i < index ==> out[i] == CrossAt(left, right, upward, i)
    {
      if index == 0 || left[index].None? || right[index].None? || left[index - 1].None? || right[index - 1].None? {
        out := out + [false];
      } else if upward {
        out := out + [left[index].value > right[index].value && left[index - 1].value <= right[index - 1].value];
      } else {
        out := out + [left[index].value < right[index].value && left[index - 1].value >= right[index - 1].value];
      }
    }
  }
}
