// What the averages mean: where they are defined, what they equal when unrolled, how they lag on a
// straight line.

module IndicatorTheorems {
  import opened Algebra
  import opened Prelude
  import opened Indicators

  // ---- Recursive averages ----------------------------------------------------------------------------------

  /** Missing values are skipped exactly as by the simple average: both are defined on the same bars. */
  lemma {:induction false} RecursiveDefinedWhereSmaIs(values: Series, length: nat, alpha: real, i: nat)
    requires 1 <= length && i < |values|
    ensures RecursiveAt(values, length, alpha, i).Some? <==> SmaAt(values, length, i).Some?
  {
    if 0 < i {
      RecursiveDefinedWhereSmaIs(values, length, alpha, i - 1);
      if RecursiveAt(values, length, alpha, i - 1).Some? && values[i].Some? {
        assert WindowDefined(values, length, i);
      }
    }
  }

  /** The bar at which the average now running was last seeded. */
  function SeedOf(values: Series, length: nat, alpha: real, i: nat): (seed: nat)
    requires 1 <= length && i < |values|
    ensures seed <= i
  {
    if i == 0 || RecursiveAt(values, length, alpha, i - 1).None? then i else SeedOf(values, length, alpha, i - 1)
  }

  function Power(base: real, n: nat): real {
    if n == 0 then 1.0 else Times(base, Power(base, n - 1))
  }

  /** The geometrically weighted inputs of the bars `lo` to `i`, the newest weighted by alpha itself. */
  function GeometricSum(values: Series, alpha: real, lo: nat, i: nat): real
    requires i < |values|
    decreases i + 1 - lo
  {
    if i < lo then 0.0
    else Times(Times(alpha, Power(1.0 - alpha, i - lo)), ValueOr0(values[lo])) + GeometricSum(values, alpha, lo + 1, i)
  }

  lemma {:induction false} GeometricStep(values: Series, alpha: real, lo: nat, i: nat)
    requires 0 < i < |values| && lo <= i
    ensures GeometricSum(values, alpha, lo, i)
            == Times(1.0 - alpha, GeometricSum(values, alpha, lo, i - 1)) + Times(alpha, ValueOr0(values[i]))
    decreases i - lo
  {
    var keep := 1.0 - alpha;
    if lo == i {
      assert GeometricSum(values, alpha, lo + 1, i) == 0.0 && GeometricSum(values, alpha, lo, i - 1) == 0.0;
      assert Times(keep, 0.0) == 0.0 && Times(alpha, 1.0) == alpha;
    } else {
      GeometricStep(values, alpha, lo + 1, i);
      var older := Times(alpha, Power(keep, i - 1 - lo));
      var rest := GeometricSum(values, alpha, lo + 1, i - 1);
      var value := ValueOr0(values[lo]);
      TimesSum(Times(older, value), rest, keep);
      assert Times(Times(alpha, Power(keep, i - lo)), value) == Times(keep, Times(older, value)) by {
        TimesAssociates(alpha, keep, Power(keep, i - 1 - lo));
        TimesAssociates(keep, alpha, Power(keep, i - 1 - lo));
        TimesCommutes(alpha, keep);
        TimesAssociates(keep, older, value);
      }
    }
  }

  /**
   * Unrolled, the average is its latest seed, faded by one factor per bar, plus the geometrically
   * weighted inputs since; nothing before the seed window matters.
   */
  lemma {:induction false} RecursiveUnrolled(values: Series, length: nat, alpha: real, i: nat)
    requires 1 <= length && i < |values| && RecursiveAt(values, length, alpha, i).Some?
    ensures var seed := SeedOf(values, length, alpha, i);
            && SmaAt(values, length, seed).Some?
            && RecursiveAt(values, length, alpha, i).value
               == Times(Power(1.0 - alpha, i - seed), SmaAt(values, length, seed).value)
                + GeometricSum(values, alpha, seed + 1, i)
  {
    var seed := SeedOf(values, length, alpha, i);
    if seed == i {
      assert Times(1.0, SmaAt(values, length, i).value) == SmaAt(values, length, i).value;
    } else {
      RecursiveUnrolled(values, length, alpha, i - 1);
      GeometricStep(values, alpha, seed + 1, i);
      var keep := 1.0 - alpha;
      var start, faded := SmaAt(values, length, seed).value, Power(keep, i - 1 - seed);
      TimesSum(Times(faded, start), GeometricSum(values, alpha, seed + 1, i - 1), keep);
      TimesAssociates(keep, faded, start);
    }
  }

  predicate WithinOn(values: Series, lo: int, hi: int, low: real, high: real) {
    0 <= lo && hi <= |values| && forall k :: lo <= k < hi ==> values[k].Some? && low <= values[k].value <= high
  }

  lemma {:induction false} WindowSumWithin(values: Series, lo: nat, hi: nat, low: real, high: real)
    requires lo <= hi <= |values| && WithinOn(values, lo, hi, low, high)
    ensures Times(low, (hi - lo) as real) <= WindowSum(values, lo, hi) <= Times(high, (hi - lo) as real)
  {
    if lo == hi {
      assert Times(low, 0.0) == 0.0 && Times(high, 0.0) == 0.0;
    } else {
      WindowSumWithin(values, lo, hi - 1, low, high);
      TimesSum((hi - 1 - lo) as real, 1.0, low);
      TimesSum((hi - 1 - lo) as real, 1.0, high);
      assert Times(low, 1.0) == low && Times(high, 1.0) == high;
    }
  }

  lemma SmaWithin(values: Series, length: nat, i: nat, low: real, high: real)
    requires 1 <= length && i < |values| && length <= i + 1 && WithinOn(values, i + 1 - length, i + 1, low, high)
    ensures SmaAt(values, length, i).Some? && low <= SmaAt(values, length, i).value <= high
  {
    assert WindowDefined(values, length, i);
    WindowSumWithin(values, i + 1 - length, i + 1, low, high);
    QuotientOrder(WindowSum(values, i + 1 - length, i + 1), low, length as real);
    QuotientOrder(WindowSum(values, i + 1 - length, i + 1), high, length as real);
  }

  lemma BlendWithin(alpha: real, value: real, previous: real, low: real, high: real)
    requires 0.0 <= alpha <= 1.0 && low <= value <= high && low <= previous <= high
    ensures low <= Blend(alpha, value, previous) <= high
  {
    TimesMonotone(low, value, alpha);
    TimesMonotone(value, high, alpha);
    TimesMonotone(low, previous, 1.0 - alpha);
    TimesMonotone(previous, high, 1.0 - alpha);
    TimesSum(alpha, 1.0 - alpha, low);
    TimesSum(alpha, 1.0 - alpha, high);
    TimesCommutes(alpha, value);
    TimesCommutes(1.0 - alpha, previous);
    assert Times(1.0, low) == low && Times(1.0, high) == high;
  }

  /** The average never leaves the range of the inputs since its seed window began. */
  lemma {:induction false} RecursiveWithinInputs(values: Series, length: nat, alpha: real, i: nat, low: real, high: real)
    requires 1 <= length && i < |values| && 0.0 <= alpha <= 1.0 && RecursiveAt(values, length, alpha, i).Some?
    requires WithinOn(values, SeedOf(values, length, alpha, i) + 1 - length, i + 1, low, high)
    ensures low <= RecursiveAt(values, length, alpha, i).value <= high
  {
    if SeedOf(values, length, alpha, i) == i {
      SmaWithin(values, length, i, low, high);
    } else {
      RecursiveWithinInputs(values, length, alpha, i - 1, low, high);
      BlendWithin(alpha, values[i].value, RecursiveAt(values, length, alpha, i - 1).value, low, high);
    }
  }

  lemma AlphasAreFractions(length: nat)
    requires 1 <= length
    ensures 0.0 < RmaAlpha(length) <= 1.0 && 0.0 < EmaAlpha(length) <= 1.0
    ensures 2 <= length ==> RmaAlpha(length) < 1.0
  {
    QuotientOrder(1.0, 0.0, length as real);
    QuotientOrder(1.0, 1.0, length as real);
    QuotientOrder(2.0, 0.0, (length + 1) as real);
    QuotientOrder(2.0, 1.0, (length + 1) as real);
  }

  lemma BlendScaled(n: real, alpha: real, share: real, value: real, previous: real)
    requires Times(n, alpha) == share
    ensures Times(n, Blend(alpha, value, previous)) == Times(share, value) + Times(n - share, previous)
  {
    TimesSum(Times(alpha, value), Times(1.0 - alpha, previous), n);
    assert n * (alpha * value) == (n * alpha) * value;
    assert n * ((1.0 - alpha) * previous) == (n - n * alpha) * previous;
  }

  /** The window that seeds an average on bar `i` is complete, and the average starts with its mean. */
  predicate Seeds(values: Series, length: nat, average: Option<real>, i: nat)
    requires 1 <= length && i < |values|
  {
    && (average.Some? <==> WindowDefined(values, length, i))
    && (average.Some? ==> Times(length as real, average.value) == WindowSum(values, i + 1 - length, i + 1))
  }

  lemma SmaSeeds(values: Series, length: nat, i: nat)
    requires 1 <= length && i < |values|
    ensures Seeds(values, length, SmaAt(values, length, i), i)
  {
    if WindowDefined(values, length, i) {
      var total := WindowSum(values, i + 1 - length, i + 1);
      Quotient(total, length as real);
      TimesCommutes(total / length as real, length as real);
    }
  }

  /** Wilder's average: seeded by the mean, then `length` averages are the new value and `length - 1` old ones. */
  lemma RmaFollowsWilder(values: Series, length: nat, i: nat)
    requires 1 <= length && i < |values|
    ensures var out := RmaSeries(values, length);
            if i == 0 || out[i - 1].None? then Seeds(values, length, out[i], i)
            else
              && (out[i].Some? <==> values[i].Some?)
              && (values[i].Some? ==>
                    Times(length as real, out[i].value) == values[i].value + Times((length - 1) as real, out[i - 1].value))
  {
    SmaSeeds(values, length, i);
    Quotient(1.0, length as real);
    TimesCommutes(RmaAlpha(length), length as real);
    if 0 < i && RecursiveAt(values, length, RmaAlpha(length), i - 1).Some? && values[i].Some? {
      BlendScaled(length as real, RmaAlpha(length), 1.0, values[i].value, RecursiveAt(values, length, RmaAlpha(length), i - 1).value);
      assert Times(1.0, values[i].value) == values[i].value;
    }
  }

  /** The exponential average: `length + 1` averages are twice the new value and `length - 1` old ones. */
  lemma EmaFollowsRecursion(values: Series, length: nat, i: nat)
    requires 1 <= length && i < |values|
    ensures var out := EmaSeries(values, length);
            if i == 0 || out[i - 1].None? then Seeds(values, length, out[i], i)
            else
              && (out[i].Some? <==> values[i].Some?)
              && (values[i].Some? ==>
                    Times((length + 1) as real, out[i].value)
                    == 2.0 * values[i].value + Times((length - 1) as real, out[i - 1].value))
  {
    SmaSeeds(values, length, i);
    Quotient(2.0, (length + 1) as real);
    TimesCommutes(EmaAlpha(length), (length + 1) as real);
    if 0 < i && RecursiveAt(values, length, EmaAlpha(length), i - 1).Some? && values[i].Some? {
      BlendScaled((length + 1) as real, EmaAlpha(length), 2.0, values[i].value,
                  RecursiveAt(values, length, EmaAlpha(length), i - 1).value);
      assert Times(2.0, values[i].value) == 2.0 * values[i].value;
    }
  }

  /** The average true range has no gaps: it starts with the first full window and follows Wilder from there. */
  lemma AtrFollowsWilder(highs: seq<real>, lows: seq<real>, closes: seq<real>, length: nat, i: nat)
    requires 1 <= length && i < |highs| == |lows| == |closes|
    ensures var out := AtrSeries(highs, lows, closes, length);
            && (out[i].Some? <==> length <= i + 1)
            && (length == i + 1 ==>
                  Times(length as real, out[i].value) == WindowSum(TrueRanges(highs, lows, closes), 0, length))
            && (length < i + 1 ==>
                  && out[i - 1].Some?
                  && Times(length as real, out[i].value)
                     == TrueRangeAt(highs, lows, closes, i) + Times((length - 1) as real, out[i - 1].value))
  {
    hide TrueRangeAt, WindowSum, Seeds;
    var ranges := TrueRanges(highs, lows, closes);
    RmaFollowsWilder(ranges, length, i);
    assert DefinedFrom(ranges, 0);
    RecursiveDefinedWhereSmaIs(ranges, length, RmaAlpha(length), i);
    WindowDefinedFrom(ranges, 0, length, i);
    if 0 < i {
      RecursiveDefinedWhereSmaIs(ranges, length, RmaAlpha(length), i - 1);
      WindowDefinedFrom(ranges, 0, length, i - 1);
    }
    if length == i + 1 {
      assert Seeds(ranges, length, AtrSeries(highs, lows, closes, length)[i], i);
      SeedOfWindow(ranges, length, AtrSeries(highs, lows, closes, length)[i], i);
    }
  }

  lemma SeedOfWindow(values: Series, length: nat, average: Option<real>, i: nat)
    requires 1 <= length && i < |values| && Seeds(values, length, average, i) && average.Some?
    ensures length <= i + 1 && Times(length as real, average.value) == WindowSum(values, i + 1 - length, i + 1)
  {
  }

  // ---- Weighted averages on straight lines -----------------------------------------------------------------

  lemma Distribute(n: int, a: int, b: int)
    ensures n * (a + b) == n * a + n * b
  {
  }

  lemma NormStep(n: int, m: int)
    ensures n * (m * (2 * n - m + 1)) == n * ((m - 1) * (2 * n - m + 2)) + 2 * ((n - (m - 1)) * n)
  {
    var before, added := (m - 1) * (2 * n - m + 2), 2 * (n - (m - 1));
    assert m * (2 * n - m + 1) == before + added;
    Distribute(n, before, added);
  }

  lemma {:induction false} NormSoFar(length: nat, m: nat)
    requires m <= length
    ensures 2 * Norm(length, m) == length * (m * (2 * length - m + 1))
  {
    if 0 < m {
      NormSoFar(length, m - 1);
      NormStep(length, m);
    }
  }

  /** The accumulated weights of a full window: length^2 * (length + 1) / 2. */
  lemma NormIsClosedForm(length: nat)
    ensures 2 * Norm(length, length) == length * (length * (length + 1))
  {
    NormSoFar(length, length);
  }

  /** The weighted ages of the values in a window. */
  function AgeSum(length: nat, m: nat): nat
    requires m <= length
  {
    if m == 0 then 0 else AgeSum(length, m - 1) + (m - 1) * Weight(length, m - 1)
  }

  lemma AgeStep(n: int, m: int)
    ensures n * ((m - 1) * (m * (3 * n - 2 * m + 1)))
            == n * ((m - 1) * ((m - 2) * (3 * n - 2 * m + 3))) + 6 * ((m - 1) * ((n - (m - 1)) * n))
  {
    var before, added := (m - 2) * (3 * n - 2 * m + 3), 6 * (n - (m - 1));
    assert m * (3 * n - 2 * m + 1) == before + added;
    Distribute(m - 1, before, added);
    Distribute(n, (m - 1) * before, (m - 1) * added);
    AgeTerm(n, m - 1, n - (m - 1));
  }

  lemma AgeTerm(n: int, age: int, rest: int)
    ensures n * (age * (6 * rest)) == 6 * (age * (rest * n))
  {
    assert age * (6 * rest) == 6 * (age * rest);
    assert n * (6 * (age * rest)) == 6 * (n * (age * rest));
    assert n * (age * rest) == age * (rest * n);
  }

  lemma {:induction false} AgeSumSoFar(length: nat, m: nat)
    requires m <= length
    ensures 6 * AgeSum(length, m) == length * ((m - 1) * (m * (3 * length - 2 * m + 1)))
  {
    if 0 < m {
      AgeSumSoFar(length, m - 1);
      AgeStep(length, m);
      SwapFactors(length, m);
    }
  }

  lemma SwapFactors(n: int, m: int)
    ensures n * ((m - 2) * ((m - 1) * (3 * n - 2 * (m - 1) + 1))) == n * ((m - 1) * ((m - 2) * (3 * n - 2 * m + 3)))
  {
    var tail := 3 * n - 2 * m + 3;
    assert (m - 2) * ((m - 1) * tail) == (m - 1) * ((m - 2) * tail);
  }

  /** Three times the weighted age is (length - 1) times the norm: the mean age is (length - 1) / 3. */
  lemma MeanAge(length: nat)
    requires 1 <= length
    ensures 3 * AgeSum(length, length) == (length - 1) * Norm(length, length)
  {
    NormIsClosedForm(length);
    AgeSumSoFar(length, length);
    var cube := length * (length + 1);
    AgeTerm(length, length - 1, cube);
    assert length * ((length - 1) * cube) == (length - 1) * (length * cube);
    assert (length - 1) * (2 * Norm(length, length)) == 2 * ((length - 1) * Norm(length, length));
  }

  /** The window ending at `i` lies on the line through `a` with slope `d`. */
  predicate OnLine(values: Series, lo: int, hi: int, a: real, d: real) {
    0 <= lo && hi <= |values| && forall k :: lo <= k < hi ==> values[k] == Some(a + Times(d, k as real))
  }

  lemma {:induction false} WeightedSumOnLine(values: Series, length: nat, i: nat, m: nat, a: real, d: real)
    requires m <= length && m <= i + 1 && i < |values| && OnLine(values, i + 1 - m, i + 1, a, d)
    ensures WeightedSum(values, length, i, m)
            == Times(a + Times(d, i as real), Norm(length, m) as real) - Times(d, AgeSum(length, m) as real)
  {
    var here := a + Times(d, i as real);
    if m == 0 {
      assert Times(here, 0.0) == 0.0 && Times(d, 0.0) == 0.0;
    } else {
      var age := m - 1;
      WeightedSumOnLine(values, length, i, age, a, d);
      var w := Weight(length, age) as real;
      TimesDifference(i as real, age as real, d);
      assert ValueOr0(values[i - age]) == here - Times(d, age as real);
      TimesDifference(here, Times(d, age as real), w);
      TimesAssociates(d, age as real, w);
      TimesSum(Norm(length, age) as real, w, here);
      TimesSum(AgeSum(length, age) as real, Times(age as real, w), d);
      AgeWeight(length, age);
    }
  }

  lemma AgeWeight(length: nat, age: nat)
    requires age <= length
    ensures Times(age as real, Weight(length, age) as real) == (age * Weight(length, age)) as real
  {
  }

  function Lag(length: nat): real {
    (length - 1) as real / 3.0
  }

  lemma AgeIsLag(length: nat)
    requires 1 <= length
    ensures AgeSum(length, length) as real == Times(Lag(length), Norm(length, length) as real)
  {
    MeanAge(length);
    var age, norm := AgeSum(length, length) as real, Norm(length, length) as real;
    assert 3.0 * age == Times((length - 1) as real, norm);
    assert Times((length - 1) as real, norm) == 3.0 * Times(Lag(length), norm);
  }

  /** On a straight line the weighted average is the line itself, (length - 1) / 3 bars late. */
  lemma WmaLagsOnLine(values: Series, length: nat, i: nat, a: real, d: real)
    requires 1 <= length <= i + 1 && i < |values| && OnLine(values, i + 1 - length, i + 1, a, d)
    ensures WmaAt(values, length, i) == Some(a + Times(d, i as real) - Times(d, Lag(length)))
  {
    assert WindowDefined(values, length, i);
    NormPositive(length, length);
    WeightedSumOnLine(values, length, i, length, a, d);
    AgeIsLag(length);
    var norm := Norm(length, length) as real;
    var line := a + Times(d, i as real);
    TimesAssociates(d, Lag(length), norm);
    TimesDifference(line, Times(d, Lag(length)), norm);
    var value := line - Times(d, Lag(length));
    assert WeightedSum(values, length, i, length) == Times(value, norm);
    QuotientOrder(Times(value, norm), value, norm);
    TimesOrder(value, value, norm);
  }

  // ---- The weighted average by its recursion -------------------------------------------------------------

  lemma {:induction false} WindowSumFront(values: Series, lo: nat, hi: nat)
    requires lo < hi <= |values|
    ensures WindowSum(values, lo, hi) == ValueOr0(values[lo]) + WindowSum(values, lo + 1, hi)
    decreases hi - lo
  {
    if lo + 1 < hi { WindowSumFront(values, lo, hi - 1); }
  }

  lemma WeightFalls(length: nat, m: nat, value: real)
    requires m + 1 < length
    ensures Times(value, Weight(length, m + 1) as real) == Times(value, Weight(length, m) as real) - Times(length as real, value)
  {
    Distribute(length, length - m, -1);
    assert Weight(length, m + 1) == Weight(length, m) - length;
    TimesDifference(Weight(length, m) as real, length as real, value);
    TimesCommutes(value, length as real);
  }

  /** One bar later every value of the window weighs one share less, and the new one weighs in full. */
  lemma {:induction false} WeightsMove(values: Series, length: nat, i: nat, m: nat)
    requires m < length && m <= i && 0 < i < |values|
    ensures WeightedSum(values, length, i, m + 1) - WeightedSum(values, length, i - 1, m)
            == Times(ValueOr0(values[i]), Weight(length, 0) as real) - Times(length as real, WindowSum(values, i - m, i))
  {
    if m == 0 {
      assert WeightedSum(values, length, i, 0) == 0.0 && WindowSum(values, i, i) == 0.0;
      assert Times(length as real, 0.0) == 0.0;
    } else {
      WeightsMove(values, length, i, m - 1);
      WindowSumFront(values, i - m, i);
      var oldest := ValueOr0(values[i - m]);
      WeightFalls(length, m - 1, oldest);
      TimesSum(oldest, WindowSum(values, i - m + 1, i), length as real);
    }
  }

  /**
   * The weighted average from one full window to the next: its numerator gains the new value at full weight
   * and loses one share of every value of the window before.
   */
  lemma WmaFollowsRecursion(values: Series, length: nat, i: nat)
    requires 1 <= length && 0 < i < |values| && WindowDefined(values, length, i) && WindowDefined(values, length, i - 1)
    ensures var out, n, norm := WmaSeries(values, length), length as real, Norm(length, length) as real;
            && out[i].Some? && out[i - 1].Some?
            && Times(out[i].value, norm) - Times(out[i - 1].value, norm)
               == Times(values[i].value, (length * length) as real) - Times(n, WindowSum(values, i - length, i))
  {
    NormPositive(length, length);
    var norm := Norm(length, length) as real;
    Quotient(WeightedSum(values, length, i, length), norm);
    Quotient(WeightedSum(values, length, i - 1, length), norm);
    WeightsMove(values, length, i, length - 1);
    WindowSumFront(values, i - length, i);
    var oldest := ValueOr0(values[i - length]);
    assert Weight(length, length - 1) == length;
    TimesCommutes(oldest, length as real);
    TimesSum(oldest, WindowSum(values, i - length + 1, i), length as real);
  }

  // ---- Where the averages are defined ----------------------------------------------------------------------

  /** Missing before bar `first`, present from there on. */
  predicate DefinedFrom(values: Series, first: nat) {
    forall k :: 0 <= k < |values| ==> (values[k].Some? <==> first <= k)
  }

  lemma WindowDefinedFrom(values: Series, first: nat, length: nat, i: nat)
    requires 1 <= length && i < |values| && DefinedFrom(values, first)
    ensures WindowDefined(values, length, i) <==> first + length <= i + 1
  {
    if length <= i + 1 && i + 1 < first + length { assert values[i + 1 - length].None?; }
  }

  lemma WmaDefinedFrom(values: Series, first: nat, length: nat)
    requires 1 <= length && DefinedFrom(values, first)
    ensures DefinedFrom(WmaSeries(values, length), first + length - 1)
  {
    forall i | 0 <= i < |values| ensures WmaAt(values, length, i).Some? <==> first + length <= i + 1 {
      WindowDefinedFrom(values, first, length, i);
    }
  }

  lemma EmaDefinedFrom(values: Series, first: nat, length: nat)
    requires 1 <= length && DefinedFrom(values, first)
    ensures DefinedFrom(EmaSeries(values, length), first + length - 1)
  {
    var alpha := EmaAlpha(length);
    forall i | 0 <= i < |values| ensures RecursiveAt(values, length, alpha, i).Some? <==> first + length <= i + 1 {
      WindowDefinedFrom(values, first, length, i);
      RecursiveDefinedWhereSmaIs(values, length, alpha, i);
    }
  }

  /** Every Hull average of a complete series starts on one bar, whatever the prices are. */
  lemma HullsDefinedFrom(values: Series, length: nat)
    requires 1 <= length && DefinedFrom(values, 0)
    ensures DefinedFrom(HmaSeries(values, length), length + SmoothingLength(length) - 2)
    ensures DefinedFrom(EhmaSeries(values, length), length + SmoothingLength(length) - 2)
    ensures DefinedFrom(ThmaSeries(values, length), 2 * length - 2)
  {
    hide WmaSeries, EmaSeries, SmoothingLength;
    var half, third, m := AtLeastOne(length / 2), AtLeastOne(length / 3), SmoothingLength(length);
    WmaDefinedFrom(values, 0, half);
    WmaDefinedFrom(values, 0, third);
    WmaDefinedFrom(values, 0, length);
    EmaDefinedFrom(values, 0, half);
    EmaDefinedFrom(values, 0, length);
    SeriesLengths(values, length);
    SeriesLengths(values, half);
    SeriesLengths(values, third);
    WmaDefinedFrom(DoubleMinusFull(WmaSeries(values, half), WmaSeries(values, length)), length - 1, m);
    EmaDefinedFrom(DoubleMinusFull(EmaSeries(values, half), EmaSeries(values, length)), length - 1, m);
    WmaDefinedFrom(TripleMinus(WmaSeries(values, third), WmaSeries(values, half), WmaSeries(values, length)), length - 1, length);
  }

  lemma SeriesLengths(values: Series, length: nat)
    requires 1 <= length
    ensures |WmaSeries(values, length)| == |EmaSeries(values, length)| == |values|
  {
  }

  // ---- Averages of straight lines are straight lines -------------------------------------------------------

  /** Missing before bar `first`, and from there on the line through `a` with slope `d`. */
  predicate LineFrom(values: Series, first: nat, a: real, d: real) {
    forall k :: 0 <= k < |values| ==> values[k] == OnLineFrom(first, a, d, k)
  }

  function OnLineFrom(first: nat, a: real, d: real, k: nat): Option<real> {
    if k < first then None else Some(a + Times(d, k as real))
  }

  lemma LineIsDefinedFrom(values: Series, first: nat, a: real, d: real)
    requires LineFrom(values, first, a, d)
    ensures DefinedFrom(values, first)
  {
    forall k | 0 <= k < |values| ensures values[k].Some? <==> first <= k {
      assert values[k] == OnLineFrom(first, a, d, k);
    }
  }

  lemma WindowOnLine(values: Series, first: nat, length: nat, i: nat, a: real, d: real)
    requires i < |values| && first + length <= i + 1 && LineFrom(values, first, a, d)
    ensures OnLine(values, i + 1 - length, i + 1, a, d)
  {
    forall k | i + 1 - length <= k < i + 1 ensures values[k] == Some(a + Times(d, k as real)) {
      assert values[k] == OnLineFrom(first, a, d, k);
    }
  }

  lemma WmaOfLine(values: Series, first: nat, length: nat, a: real, d: real)
    requires 1 <= length && LineFrom(values, first, a, d)
    ensures LineFrom(WmaSeries(values, length), first + length - 1, a - Times(d, Lag(length)), d)
  {
    hide Lag;
    LineIsDefinedFrom(values, first, a, d);
    forall i | 0 <= i < |values|
      ensures WmaSeries(values, length)[i] == OnLineFrom(first + length - 1, a - Times(d, Lag(length)), d, i)
    {
      WindowDefinedFrom(values, first, length, i);
      if first + length <= i + 1 {
        WindowOnLine(values, first, length, i, a, d);
        WmaLagsOnLine(values, length, i, a, d);
      }
    }
  }

  function EmaLag(length: nat): real {
    (length - 1) as real / 2.0
  }

  lemma {:induction false} WindowSumOnLine(values: Series, lo: nat, hi: nat, a: real, d: real)
    requires lo <= hi <= |values| && OnLine(values, lo, hi, a, d)
    ensures 2.0 * WindowSum(values, lo, hi)
            == 2.0 * Times(a, (hi - lo) as real) + Times(d, Times((hi - lo) as real, (hi + lo - 1) as real))
  {
    if lo == hi {
      assert Times(a, 0.0) == 0.0 && Times(0.0, (hi + lo - 1) as real) == 0.0 && Times(d, 0.0) == 0.0;
    } else {
      WindowSumOnLine(values, lo, hi - 1, a, d);
      var n := (hi - lo) as real;
      TimesSum(n - 1.0, 1.0, a);
      assert Times(a, 1.0) == a;
      assert values[hi - 1] == Some(a + Times(d, (hi - 1) as real));
      assert Times(n, (hi + lo - 1) as real) == Times(n - 1.0, (hi + lo - 2) as real) + 2.0 * (hi - 1) as real by {
        LineStep(n, (hi + lo - 1) as real);
      }
      TimesSum(Times(n - 1.0, (hi + lo - 2) as real), 2.0 * (hi - 1) as real, d);
      TimesTwice(d, (hi - 1) as real);
    }
  }

  lemma LineStep(n: real, sum: real)
    ensures Times(n, sum) == Times(n - 1.0, sum - 1.0) + n + sum - 1.0
  {
  }

  /** On a straight line the simple average is the line, (length - 1) / 2 bars late. */
  lemma SmaLagsOnLine(values: Series, length: nat, i: nat, a: real, d: real)
    requires 1 <= length <= i + 1 && i < |values| && OnLine(values, i + 1 - length, i + 1, a, d)
    ensures SmaAt(values, length, i) == Some(a + Times(d, i as real) - Times(d, EmaLag(length)))
  {
    assert WindowDefined(values, length, i);
    WindowSumOnLine(values, i + 1 - length, i + 1, a, d);
    var n := length as real;
    var value := a + Times(d, i as real) - Times(d, EmaLag(length));
    var total := WindowSum(values, i + 1 - length, i + 1);
    TimesDifference(i as real, EmaLag(length), d);
    var middle := i as real - EmaLag(length);
    assert (i + 1 + (i + 1 - length) - 1) as real == 2.0 * middle;
    hide Times, WindowSum;
    assert total == Times(a + Times(d, middle), n) by {
      TimesTwice(n, middle);
      TimesTwice(d, Times(n, middle));
      TimesSum(a, Times(d, middle), n);
      TimesAssociates(d, middle, n);
      TimesCommutes(middle, n);
    }
    assert total == Times(value, n);
    QuotientOrder(total, value, n);
    TimesOrder(value, value, n);
  }

  /** The lag of the simple seed is the lag the exponential recursion keeps. */
  lemma EmaKeepsLag(length: nat, x: real, d: real)
    requires 1 <= length
    ensures Blend(EmaAlpha(length), x, x - d - Times(d, EmaLag(length))) == x - Times(d, EmaLag(length))
  {
    var alpha, lag := EmaAlpha(length), EmaLag(length);
    var keep := 1.0 - alpha;
    TimesSum(alpha, keep, x);
    assert Times(1.0, x) == x;
    TimesDifference(x, d + Times(d, lag), keep);
    assert d + Times(d, lag) == Times(d, 1.0 + lag) by {
      TimesSum(1.0, lag, d);
      assert Times(d, 1.0) == d;
    }
    TimesAssociates(keep, d, 1.0 + lag);
    TimesCommutes(keep, d);
    TimesAssociates(d, keep, 1.0 + lag);
    assert Times(keep, 1.0 + lag) == lag by {
      var n := (length + 1) as real;
      Quotient(2.0, n);
      assert 1.0 + lag == n / 2.0;
      assert Times(alpha, n / 2.0) == Times(alpha, n) / 2.0;
      TimesDifference(1.0, alpha, n / 2.0);
      assert Times(1.0, n / 2.0) == n / 2.0;
    }
  }

  lemma {:induction false} EmaLagsOnLine(values: Series, first: nat, length: nat, i: nat, a: real, d: real)
    requires 1 <= length && i < |values| && first + length <= i + 1 && LineFrom(values, first, a, d)
    ensures RecursiveAt(values, length, EmaAlpha(length), i) == Some(a + Times(d, i as real) - Times(d, EmaLag(length)))
  {
    hide SmaAt, EmaLag, EmaAlpha, Blend;
    LineIsDefinedFrom(values, first, a, d);
    var alpha := EmaAlpha(length);
    if first + length == i + 1 {
      WindowOnLine(values, first, length, i, a, d);
      SmaLagsOnLine(values, length, i, a, d);
      if 0 < i {
        assert RecursiveAt(values, length, alpha, i - 1).None? by {
          RecursiveDefinedWhereSmaIs(values, length, alpha, i - 1);
          SmaNeedsWindow(values, first, length, i - 1);
        }
      }
    } else {
      EmaLagsOnLine(values, first, length, i - 1, a, d);
      var x := a + Times(d, i as real);
      assert values[i] == OnLineFrom(first, a, d, i);
      TimesDifference(i as real, 1.0, d);
      assert Times(d, 1.0) == d;
      EmaKeepsLag(length, x, d);
    }
  }

  lemma SmaNeedsWindow(values: Series, first: nat, length: nat, i: nat)
    requires 1 <= length && i < |values| && DefinedFrom(values, first) && i + 1 < first + length
    ensures SmaAt(values, length, i).None?
  {
    WindowDefinedFrom(values, first, length, i);
  }

  lemma EmaOfLine(values: Series, first: nat, length: nat, a: real, d: real)
    requires 1 <= length && LineFrom(values, first, a, d)
    ensures LineFrom(EmaSeries(values, length), first + length - 1, a - Times(d, EmaLag(length)), d)
  {
    hide EmaLag, SmaAt, EmaAlpha;
    LineIsDefinedFrom(values, first, a, d);
    forall i | 0 <= i < |values|
      ensures EmaSeries(values, length)[i] == OnLineFrom(first + length - 1, a - Times(d, EmaLag(length)), d, i)
    {
      if first + length <= i + 1 {
        EmaLagsOnLine(values, first, length, i, a, d);
      } else {
        RecursiveDefinedWhereSmaIs(values, length, EmaAlpha(length), i);
        SmaNeedsWindow(values, first, length, i);
      }
    }
  }

  lemma DoubleMinusFullOfLines(half: Series, full: Series, h: nat, f: nat, a: real, b: real, d: real)
    requires |half| == |full| && h <= f && LineFrom(half, h, a, d) && LineFrom(full, f, b, d)
    ensures LineFrom(DoubleMinusFull(half, full), f, 2.0 * a - b, d)
  {
    forall k | 0 <= k < |half| ensures DoubleMinusFull(half, full)[k] == OnLineFrom(f, 2.0 * a - b, d, k) {
      assert half[k] == OnLineFrom(h, a, d, k) && full[k] == OnLineFrom(f, b, d, k);
    }
  }

  lemma TripleMinusOfLines(third: Series, half: Series, full: Series, t: nat, h: nat, f: nat,
                           a: real, b: real, c: real, d: real)
    requires |third| == |half| == |full| && t <= f && h <= f
    requires LineFrom(third, t, a, d) && LineFrom(half, h, b, d) && LineFrom(full, f, c, d)
    ensures LineFrom(TripleMinus(third, half, full), f, 3.0 * a - b - c, d)
  {
    forall k | 0 <= k < |half| ensures TripleMinus(third, half, full)[k] == OnLineFrom(f, 3.0 * a - b - c, d, k) {
      assert third[k] == OnLineFrom(t, a, d, k) && half[k] == OnLineFrom(h, b, d, k) && full[k] == OnLineFrom(f, c, d, k);
    }
  }

  function HmaLag(length: nat): real {
    2.0 * Lag(AtLeastOne(length / 2)) - Lag(length) + Lag(SmoothingLength(length))
  }

  function EhmaLag(length: nat): real {
    2.0 * EmaLag(AtLeastOne(length / 2)) - EmaLag(length) + EmaLag(SmoothingLength(length))
  }

  function ThmaLag(length: nat): real {
    3.0 * Lag(AtLeastOne(length / 3)) - Lag(AtLeastOne(length / 2))
  }

  /** An HMA of a straight line is a line of the same slope, from index length + m - 2 on. */
  lemma HmaOfLine(values: Series, length: nat, a: real, d: real)
    requires 1 <= length && LineFrom(values, 0, a, d)
    ensures LineFrom(HmaSeries(values, length), length + SmoothingLength(length) - 2, a - Times(d, HmaLag(length)), d)
  {
    hide WmaSeries, DoubleMinusFull, SmoothingLength, LineFrom, Lag;
    var half, m := AtLeastOne(length / 2), SmoothingLength(length);
    WmaOfLine(values, 0, half, a, d);
    WmaOfLine(values, 0, length, a, d);
    SeriesLengths(values, half);
    SeriesLengths(values, length);
    var b, c := a - Times(d, Lag(half)), a - Times(d, Lag(length));
    DoubleMinusFullOfLines(WmaSeries(values, half), WmaSeries(values, length), half - 1, length - 1, b, c, d);
    WmaOfLine(DoubleMinusFull(WmaSeries(values, half), WmaSeries(values, length)), length - 1, m, 2.0 * b - c, d);
    LagsAdd(d, Lag(half), Lag(length), Lag(m));
  }

  lemma LagsAdd(d: real, p: real, q: real, r: real)
    ensures 2.0 * Times(d, p) - Times(d, q) + Times(d, r) == Times(d, 2.0 * p - q + r)
  {
    TimesSum(2.0 * p - q, r, d);
    TimesDifference(2.0 * p, q, d);
    TimesSum(p, p, d);
  }

  /** An EHMA of a straight line is a line of the same slope: the simple seed lags like the recursion. */
  lemma EhmaOfLine(values: Series, length: nat, a: real, d: real)
    requires 1 <= length && LineFrom(values, 0, a, d)
    ensures LineFrom(EhmaSeries(values, length), length + SmoothingLength(length) - 2, a - Times(d, EhmaLag(length)), d)
  {
    hide EmaSeries, DoubleMinusFull, SmoothingLength, LineFrom, EmaLag;
    var half, m := AtLeastOne(length / 2), SmoothingLength(length);
    EmaOfLine(values, 0, half, a, d);
    EmaOfLine(values, 0, length, a, d);
    SeriesLengths(values, half);
    SeriesLengths(values, length);
    var b, c := a - Times(d, EmaLag(half)), a - Times(d, EmaLag(length));
    DoubleMinusFullOfLines(EmaSeries(values, half), EmaSeries(values, length), half - 1, length - 1, b, c, d);
    EmaOfLine(DoubleMinusFull(EmaSeries(values, half), EmaSeries(values, length)), length - 1, m, 2.0 * b - c, d);
    LagsAdd(d, EmaLag(half), EmaLag(length), EmaLag(m));
  }

  /** A THMA of a straight line is a line of the same slope; the lag of the full window cancels. */
  lemma ThmaOfLine(values: Series, length: nat, a: real, d: real)
    requires 1 <= length && LineFrom(values, 0, a, d)
    ensures LineFrom(ThmaSeries(values, length), 2 * length - 2, a - Times(d, ThmaLag(length)), d)
  {
    hide WmaSeries, TripleMinus, LineFrom, Lag;
    var third, half := AtLeastOne(length / 3), AtLeastOne(length / 2);
    WmaOfLine(values, 0, third, a, d);
    WmaOfLine(values, 0, half, a, d);
    WmaOfLine(values, 0, length, a, d);
    SeriesLengths(values, third);
    SeriesLengths(values, half);
    SeriesLengths(values, length);
    var b, c, e := a - Times(d, Lag(third)), a - Times(d, Lag(half)), a - Times(d, Lag(length));
    TripleMinusOfLines(WmaSeries(values, third), WmaSeries(values, half), WmaSeries(values, length),
                       third - 1, half - 1, length - 1, b, c, e, d);
    WmaOfLine(TripleMinus(WmaSeries(values, third), WmaSeries(values, half), WmaSeries(values, length)),
              length - 1, length, 3.0 * b - c - e, d);
    TimesDifference(3.0 * Lag(third), Lag(half), d);
    assert Times(d, 3.0 * Lag(third)) == 3.0 * Times(d, Lag(third));
  }

  // ---- The smoothing length is a rounded square root -------------------------------------------------------

  lemma {:induction false} RoundedRootIsLeast(n: nat, from: nat)
    ensures var m := RoundedRoot(n, from);
            from <= m && n <= m * (m + 1) && (from < m ==> (m - 1) * m < n)
    decreases n - from
  {
    if n > from * (from + 1) {
      assert from <= from * (from + 1);
      RoundedRootIsLeast(n, from + 1);
    }
  }

  /** The integer search finds what rounding the real square root gives. */
  lemma SmoothingLengthIsRoundedRoot(n: nat, root: real)
    requires 0.0 <= root && root * root == n as real
    ensures RoundedRoot(n, 0) == PineRound(root)
    ensures SmoothingLength(n) == if PineRound(root) < 1 then 1 else PineRound(root)
  {
    RoundedRootIsLeast(n, 0);
    var m := RoundedRoot(n, 0);
    var r := m as real;
    assert root < r + 0.5 by {
      if r + 0.5 <= root { SquaresOrder(r + 0.5, root); NearSquare(m); }
    }
    assert r - 0.5 <= root by {
      if 0 < m && root < r - 0.5 { SquaresOrder(root, r - 0.5); NearSquare(m - 1); }
    }
  }

  lemma SquaresOrder(a: real, b: real)
    requires 0.0 <= a <= b
    ensures a * a <= b * b
  {
    assert a * a <= a * b <= b * b;
  }

  lemma NearSquare(m: nat)
    ensures (m as real + 0.5) * (m as real + 0.5) == (m * (m + 1)) as real + 0.25
  {
    assert (m as real) * (m as real) == (m * m) as real;
  }

  // ---- Ranges, windows and rounding --------------------------------------------------------------------------

  /** The true range is the span of the bar together with the previous close, where there is one. */
  lemma TrueRangeIsSpan(highs: seq<real>, lows: seq<real>, closes: seq<real>, i: nat)
    requires i < |highs| == |lows| == |closes| && lows[i] <= highs[i]
    ensures TrueRangeAt(highs, lows, closes, i)
            == if i == 0 then highs[0] - lows[0] else MaxReal(highs[i], closes[i - 1]) - MinReal(lows[i], closes[i - 1])
  {
  }

  lemma {:induction false} WindowExtremes(values: seq<real>, lo: nat, hi: nat)
    requires lo < hi <= |values|
    ensures forall k :: lo <= k < hi ==> WindowMin(values, lo, hi) <= values[k] <= WindowMax(values, lo, hi)
    ensures exists k :: lo <= k < hi && values[k] == WindowMin(values, lo, hi)
    ensures exists k :: lo <= k < hi && values[k] == WindowMax(values, lo, hi)
    decreases hi - lo
  {
    if lo + 1 < hi {
      WindowExtremes(values, lo, hi - 1);
      assert values[hi - 1] == values[hi - 1];
    } else {
      assert values[lo] == WindowMin(values, lo, hi) == WindowMax(values, lo, hi);
    }
  }

  /** Once the window is full, its extremes bound every value in it and are among them. */
  lemma WindowLevels(values: seq<real>, length: nat, i: nat)
    requires 1 <= length && i < |values|
    ensures var low, high := LowestAt(values, length, i), HighestAt(values, length, i);
            && (low.Some? <==> length <= i + 1) && (high.Some? <==> length <= i + 1)
            && (low.Some? ==>
                  && (forall k :: i + 1 - length <= k <= i ==> low.value <= values[k] <= high.value)
                  && (exists k :: i + 1 - length <= k <= i && values[k] == low.value)
                  && (exists k :: i + 1 - length <= k <= i && values[k] == high.value))
  {
    if length <= i + 1 { WindowExtremes(values, i + 1 - length, i + 1); }
  }

  /** Rounding goes to a nearest integer, and halves go away from zero on both sides. */
  lemma RoundsHalvesAwayFromZero(x: real)
    ensures -0.5 <= PineRound(x) as real - x <= 0.5
    ensures PineRound(x) as real - x == 0.5 ==> 0.0 <= x
    ensures PineRound(x) as real - x == -0.5 ==> x < 0.0
    ensures PineRound(-x) == -PineRound(x)
  {
  }
}
