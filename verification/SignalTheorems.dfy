// What the signal series promises: silence in the warm-up, a predictable first signal, and strict
// alternation for every price series exactly when the range average spans at least two bars.

module SignalTheorems {
  import opened Algebra
  import opened Prelude
  import opened Market
  import opened Indicators
  import opened IndicatorTheorems
  import opened Signals
  import opened TrailTheorems

  // ---- From bars to losses ---------------------------------------------------------------------------------

  function RangeAt(bars: seq<Bar>, i: nat): real
    requires i < |bars|
  {
    TrueRangeAt(Highs(bars), Lows(bars), Closes(bars), i)
  }

  function AtrAt(bars: seq<Bar>, n: nat, i: nat): Option<real>
    requires 1 <= n && i < |bars|
  {
    RecursiveAt(Ranges(bars), n, RmaAlpha(n), i)
  }

  /** The first `n` bars never moved: no range, no gap. */
  predicate Flat(bars: seq<Bar>, n: nat)
    requires n <= |bars|
  {
    forall k :: 0 <= k < n ==> RangeAt(bars, k) == 0.0
  }

  lemma RangeIsMovement(bars: seq<Bar>, i: nat)
    requires ValidBars(bars) && i < |bars|
    ensures 0.0 <= RangeAt(bars, i)
    ensures 0 < i && RangeAt(bars, i) == 0.0 ==> bars[i].close == bars[i - 1].close
    ensures 0 < i && bars[i].close != bars[i - 1].close ==> 0.0 < RangeAt(bars, i)
  {
    assert bars[i].Valid();
    if 0 < i { assert bars[i - 1].Valid(); }
  }

  lemma {:induction false} WindowOfRanges(bars: seq<Bar>, lo: nat, hi: nat)
    requires ValidBars(bars) && lo <= hi <= |bars|
    ensures 0.0 <= WindowSum(Ranges(bars), lo, hi)
    ensures WindowSum(Ranges(bars), lo, hi) == 0.0 <==> forall k :: lo <= k < hi ==> RangeAt(bars, k) == 0.0
  {
    hide TrueRangeAt;
    if lo < hi {
      WindowOfRanges(bars, lo, hi - 1);
      RangeIsMovement(bars, hi - 1);
      assert ValueOr0(Ranges(bars)[hi - 1]) == RangeAt(bars, hi - 1);
    }
  }

  lemma BlendPositive(alpha: real, value: real, previous: real)
    requires 0.0 < alpha < 1.0 && 0.0 <= value && 0.0 <= previous
    ensures 0.0 <= Blend(alpha, value, previous)
    ensures 0.0 < Blend(alpha, value, previous) <==> 0.0 < value || 0.0 < previous
  {
    TimesNonNegative(alpha, value);
    TimesNonNegative(1.0 - alpha, previous);
    if 0.0 < value { TimesPositive(alpha, value); }
    if 0.0 < previous { TimesPositive(1.0 - alpha, previous); }
    assert Times(alpha, 0.0) == 0.0 && Times(1.0 - alpha, 0.0) == 0.0;
  }

  /** The average true range starts at bar n - 1 and is positive from the first move on, for ever. */
  lemma {:induction false} AtrIsPositiveOnceMoved(bars: seq<Bar>, n: nat, i: nat)
    requires ValidBars(bars) && 2 <= n && i < |bars|
    ensures AtrAt(bars, n, i).Some? <==> n <= i + 1
    ensures n <= i + 1 ==> 0.0 <= AtrAt(bars, n, i).value && (0.0 < AtrAt(bars, n, i).value <==> !Flat(bars, i + 1))
  {
    hide TrueRangeAt, RmaAlpha, Blend, SmaAt, Flat;
    var ranges, alpha := Ranges(bars), RmaAlpha(n);
    AlphasAreFractions(n);
    assert DefinedFrom(ranges, 0);
    WindowDefinedFrom(ranges, 0, n, i);
    RecursiveDefinedWhereSmaIs(ranges, n, alpha, i);
    SmaOfRanges(bars, n, i);
    if 0 < i {
      WindowDefinedFrom(ranges, 0, n, i - 1);
      RecursiveDefinedWhereSmaIs(ranges, n, alpha, i - 1);
      SmaOfRanges(bars, n, i - 1);
      if n <= i {
        AtrIsPositiveOnceMoved(bars, n, i - 1);
        RangeIsMovement(bars, i);
        BlendPositive(alpha, RangeAt(bars, i), AtrAt(bars, n, i - 1).value);
        FlatGrows(bars, i);
      }
    }
  }

  lemma FlatGrows(bars: seq<Bar>, i: nat)
    requires i < |bars|
    ensures Flat(bars, i + 1) <==> Flat(bars, i) && RangeAt(bars, i) == 0.0
  {
    hide TrueRangeAt;
  }

  lemma SmaOfRanges(bars: seq<Bar>, n: nat, i: nat)
    requires ValidBars(bars) && 1 <= n && i < |bars|
    ensures SmaAt(Ranges(bars), n, i).Some? <==> n <= i + 1
    ensures n <= i + 1 ==> 0.0 <= SmaAt(Ranges(bars), n, i).value
    ensures n == i + 1 ==> (0.0 < SmaAt(Ranges(bars), n, i).value <==> !Flat(bars, n))
  {
    hide TrueRangeAt;
    assert DefinedFrom(Ranges(bars), 0);
    WindowDefinedFrom(Ranges(bars), 0, n, i);
    if n <= i + 1 {
      var total := WindowSum(Ranges(bars), i + 1 - n, i + 1);
      WindowOfRanges(bars, i + 1 - n, i + 1);
      QuotientOrder(total, 0.0, n as real);
      assert Times(0.0, n as real) == 0.0;
    }
  }

  predicate Settled(bars: seq<Bar>, config: Config) {
    ValidBars(bars) && config.Valid() && 2 <= config.utAtr
  }

  lemma LossAt(bars: seq<Bar>, config: Config, i: nat)
    requires Settled(bars, config) && i < |bars|
    ensures i + 1 < config.utAtr ==> Losses(bars, config)[i].None?
    ensures config.utAtr <= i + 1 ==>
              && Losses(bars, config)[i].Some? && 0.0 <= Losses(bars, config)[i].value
              && (0.0 < Losses(bars, config)[i].value <==> !Flat(bars, i + 1))
  {
    hide TrueRangeAt, Flat, RecursiveAt;
    AtrIsPositiveOnceMoved(bars, config.utAtr, i);
    assert AtrSeries(Highs(bars), Lows(bars), Closes(bars), config.utAtr)[i] == AtrAt(bars, config.utAtr, i);
    if config.utAtr <= i + 1 {
      var range := AtrAt(bars, config.utAtr, i).value;
      TimesNonNegative(config.utKey, range);
      if 0.0 < range { TimesPositive(config.utKey, range); }
      assert Times(config.utKey, 0.0) == 0.0;
    }
  }

  lemma LossesAreRangeLosses(bars: seq<Bar>, config: Config)
    requires Settled(bars, config)
    ensures RangeLosses(Closes(bars), Losses(bars, config), config.utAtr)
  {
    hide Losses, Flat, TrueRangeAt;
    var closes, losses, n := Closes(bars), Losses(bars, config), config.utAtr;
    forall k | 0 <= k < |closes| ensures 0.0 < closes[k] {
      assert bars[k].Valid();
    }
    forall k | 0 <= k < |losses| ensures LossOk(closes, losses, n, k) {
      LossAt(bars, config, k);
      if 0 < k {
        LossAt(bars, config, k - 1);
        FlatGrows(bars, k);
        RangeIsMovement(bars, k);
      }
    }
  }

  // ---- From crossings to signals ---------------------------------------------------------------------------

  predicate AboveAt(bars: seq<Bar>, config: Config, i: nat)
    requires config.Valid() && i < |bars|
  {
    Above(Closes(bars), Losses(bars, config), i)
  }

  lemma FiredIsCrossed(bars: seq<Bar>, config: Config, i: nat)
    requires config.Valid() && i < |bars|
    ensures var side := SideOf(SignalSeries(bars, config)[i]);
            && (side == Some(Buy) <==> CrossesUp(Closes(bars), Losses(bars, config), i))
            && (side == Some(Sell) <==> CrossesDown(Closes(bars), Losses(bars, config), i))
  {
    hide Losses, TrailAt, HullSeries, ColorAt;
  }

  /** What one bar can fire, in terms of the side of the stop before and after it. */
  lemma WhatFires(bars: seq<Bar>, config: Config, i: nat)
    requires Settled(bars, config) && i < |bars|
    ensures var side, n := SideOf(SignalSeries(bars, config)[i]), config.utAtr;
            && (i < n ==> side == None)
            && (n <= i && !Flat(bars, i) ==>
                  side == if AboveAt(bars, config, i - 1) == AboveAt(bars, config, i) then None
                          else if AboveAt(bars, config, i) then Some(Buy) else Some(Sell))
            && (n <= i && Flat(bars, i) && !Flat(bars, i + 1) ==>
                  && side == Some(if bars[i].close > bars[i - 1].close then Buy else Sell)
                  && (AboveAt(bars, config, i) <==> bars[i].close > bars[i - 1].close))
            && (Flat(bars, i + 1) ==> side == None)
  {
    hide Losses, Flat, TrueRangeAt, TrailAt, CrossAt, SignalSeries, RangeLosses;
    LossesAreRangeLosses(bars, config);
    FiredIsCrossed(bars, config, i);
    CrossesOfRangeStop(Closes(bars), Losses(bars, config), config.utAtr, i);
    if config.utAtr <= i {
      LossAt(bars, config, i - 1);
      LossAt(bars, config, i);
      FlatGrows(bars, i);
    }
  }

  /** After the first `m` bars: the latest signal tells the side of the stop, and silence tells it lies below. */
  predicate LastTells(bars: seq<Bar>, config: Config, m: nat)
    requires config.Valid() && m <= |bars|
  {
    match LastFired(SignalSeries(bars, config), m)
    case Some(Buy) => config.utAtr <= m && !Flat(bars, m) && AboveAt(bars, config, m - 1)
    case Some(Sell) => config.utAtr <= m && !Flat(bars, m) && !AboveAt(bars, config, m - 1)
    case None => config.utAtr <= m && !Flat(bars, m) ==> AboveAt(bars, config, m - 1)
  }

  lemma SeedIsAbove(bars: seq<Bar>, config: Config)
    requires Settled(bars, config) && config.utAtr <= |bars| && !Flat(bars, config.utAtr)
    ensures AboveAt(bars, config, config.utAtr - 1)
  {
    hide Losses, Flat, TrueRangeAt, TrailAt, RangeLosses;
    LossesAreRangeLosses(bars, config);
    LossAt(bars, config, config.utAtr - 1);
    SidesOfTheStop(Closes(bars), Losses(bars, config), config.utAtr, config.utAtr - 1);
  }

  lemma {:induction false} LastSignalTellsTheSide(bars: seq<Bar>, config: Config, m: nat)
    requires Settled(bars, config) && m <= |bars|
    ensures LastTells(bars, config, m)
  {
    hide SignalSeries, Flat, TrueRangeAt, AboveAt;
    if 0 < m {
      LastSignalTellsTheSide(bars, config, m - 1);
      WhatFires(bars, config, m - 1);
      FlatGrows(bars, m - 1);
      if m == config.utAtr && !Flat(bars, m) { SeedIsAbove(bars, config); }
    }
  }

  /** No signal repeats the side of the signal before it. */
  predicate Alternating(signals: seq<BarSignal>) {
    forall i :: 0 <= i < |signals| && SideOf(signals[i]).Some? ==> LastFired(signals, i) != SideOf(signals[i])
  }

  /** No signal fires before bar ut_atr, whatever the prices are. */
  lemma WarmupIsSilent(bars: seq<Bar>, config: Config, i: nat)
    requires Settled(bars, config) && i < |bars| && i < config.utAtr
    ensures !SignalSeries(bars, config)[i].buy && !SignalSeries(bars, config)[i].sell
  {
    hide SignalAt, Flat, AboveAt;
    WhatFires(bars, config, i);
  }

  lemma SignalsAlternate(bars: seq<Bar>, config: Config)
    requires Settled(bars, config)
    ensures Alternating(SignalSeries(bars, config))
  {
    hide SignalSeries, Flat, TrueRangeAt, AboveAt;
    var signals := SignalSeries(bars, config);
    forall i | 0 <= i < |signals| && SideOf(signals[i]).Some? ensures LastFired(signals, i) != SideOf(signals[i]) {
      LastSignalTellsTheSide(bars, config, i);
      WhatFires(bars, config, i);
    }
  }

  // ---- The first signal ------------------------------------------------------------------------------------

  function FirstFired(signals: seq<BarSignal>, n: nat): Option<OrderSide>
    requires n <= |signals|
  {
    if n == 0 then None
    else if FirstFired(signals, n - 1).Some? then FirstFired(signals, n - 1)
    else SideOf(signals[n - 1])
  }

  lemma {:induction false} FirstExistsWithLast(signals: seq<BarSignal>, n: nat)
    requires n <= |signals|
    ensures FirstFired(signals, n).Some? <==> LastFired(signals, n).Some?
  {
    if 0 < n { FirstExistsWithLast(signals, n - 1); }
  }

  /** The market first moves on bar j, after the warm-up, and closes up. */
  predicate OpensUpward(bars: seq<Bar>, n: nat, j: nat)
    requires j < |bars|
  {
    n <= j && 0 < j && Flat(bars, j) && bars[j].close > bars[j - 1].close
  }

  predicate OpenedUpward(bars: seq<Bar>, n: nat, m: nat)
    requires m <= |bars|
  {
    exists j :: 0 <= j < m && OpensUpward(bars, n, j)
  }

  lemma OpenedUpwardGrows(bars: seq<Bar>, n: nat, m: nat)
    requires m < |bars|
    ensures OpenedUpward(bars, n, m + 1) <==> OpenedUpward(bars, n, m) || OpensUpward(bars, n, m)
  {
    hide OpensUpward;
  }

  /** A bar opens the market upward exactly when it fires the very first signal and that is a BUY. */
  lemma FirstBuy(bars: seq<Bar>, config: Config, i: nat)
    requires Settled(bars, config) && i < |bars|
    ensures OpensUpward(bars, config.utAtr, i)
            <==> LastFired(SignalSeries(bars, config), i) == None && SideOf(SignalSeries(bars, config)[i]) == Some(Buy)
  {
    hide SignalSeries, AboveAt, TrueRangeAt, Flat;
    LastSignalTellsTheSide(bars, config, i);
    WhatFires(bars, config, i);
    RangeIsMovement(bars, i);
    FlatGrows(bars, i);
  }

  /**
   * The first signal is a BUY exactly when the market stood still through the warm-up and its first
   * move closed up.
   */
  lemma {:induction false} FirstSignalIsBuyIff(bars: seq<Bar>, config: Config, m: nat)
    requires Settled(bars, config) && m <= |bars|
    ensures FirstFired(SignalSeries(bars, config), m) == Some(Buy) <==> OpenedUpward(bars, config.utAtr, m)
  {
    hide SignalSeries, OpensUpward;
    if 0 < m {
      FirstSignalIsBuyIff(bars, config, m - 1);
      FirstExistsWithLast(SignalSeries(bars, config), m - 1);
      FirstBuy(bars, config, m - 1);
      OpenedUpwardGrows(bars, config.utAtr, m - 1);
      hide OpenedUpward;
    }
  }

  /** When any of the first ut_atr bars moved, the first signal can only be a SELL. */
  lemma FirstSignalIsSell(bars: seq<Bar>, config: Config, m: nat)
    requires Settled(bars, config) && config.utAtr <= |bars| && !Flat(bars, config.utAtr) && m <= |bars|
    ensures FirstFired(SignalSeries(bars, config), m) != Some(Buy)
  {
    hide SignalSeries, TrueRangeAt;
    FirstSignalIsBuyIff(bars, config, m);
  }

  // ---- Exactly which settings alternate --------------------------------------------------------------------

  const STEPS_DOWN: seq<Bar> := [
    Bar(10.0, 10.0, 10.0, 10.0), Bar(10.0, 10.0, 9.0, 9.0), Bar(9.0, 9.0, 9.0, 9.0), Bar(9.0, 9.0, 8.0, 8.0)]

  lemma OneBarAtrIsTheRange(bars: seq<Bar>, config: Config, i: nat)
    requires config.Valid() && config.utAtr == 1 && i < |bars|
    ensures Losses(bars, config)[i] == Some(Times(config.utKey, RangeAt(bars, i)))
  {
    var ranges, range := Ranges(bars), RangeAt(bars, i);
    assert RmaAlpha(1) == 1.0;
    assert DefinedFrom(ranges, 0);
    WindowDefinedFrom(ranges, 0, 1, i);
    RecursiveDefinedWhereSmaIs(ranges, 1, 1.0, i);
    assert WindowSum(ranges, i, i) == 0.0 && WindowSum(ranges, i, i + 1) == range;
    if 0 < i {
      WindowDefinedFrom(ranges, 0, 1, i - 1);
      RecursiveDefinedWhereSmaIs(ranges, 1, 1.0, i - 1);
      var previous := RecursiveAt(ranges, 1, 1.0, i - 1).value;
      assert Times(1.0, range) == range && Times(0.0, previous) == 0.0;
      assert Blend(1.0, range, previous) == range;
    }
    assert RecursiveAt(ranges, 1, 1.0, i) == Some(range);
  }

  /** A one-bar range average sells twice in a row on two steps down with a still bar between. */
  lemma ShortRangeRepeatsASignal(config: Config)
    requires config.Valid() && config.utAtr == 1
    ensures ValidBars(STEPS_DOWN) && !Alternating(SignalSeries(STEPS_DOWN, config))
  {
    var signals := SignalSeries(STEPS_DOWN, config);
    LossesOfSteps(config);
    hide Losses, SignalSeries, SideOf;
    StepsTrail(Closes(STEPS_DOWN), Losses(STEPS_DOWN, config), config.utKey);
    forall i | 0 <= i < 4 ensures SideOf(signals[i]) == if i == 1 || i == 3 then Some(Sell) else None {
      FiredIsCrossed(STEPS_DOWN, config, i);
    }
    assert LastFired(signals, 3) == LastFired(signals, 2) == Some(Sell) == SideOf(signals[3]);
  }

  lemma LossesOfSteps(config: Config)
    requires config.Valid() && config.utAtr == 1
    ensures forall i :: 0 <= i < 4 ==> Losses(STEPS_DOWN, config)[i] == Some(if i == 1 || i == 3 then config.utKey else 0.0)
  {
    hide Losses;
    RangesOfSteps();
    forall i | 0 <= i < 4
      ensures Losses(STEPS_DOWN, config)[i] == Some(if i == 1 || i == 3 then config.utKey else 0.0)
    {
      OneBarAtrIsTheRange(STEPS_DOWN, config, i);
      assert Times(config.utKey, 1.0) == config.utKey && Times(config.utKey, 0.0) == 0.0;
    }
  }

  lemma RangesOfSteps()
    ensures RangeAt(STEPS_DOWN, 0) == 0.0 && RangeAt(STEPS_DOWN, 1) == 1.0
    ensures RangeAt(STEPS_DOWN, 2) == 0.0 && RangeAt(STEPS_DOWN, 3) == 1.0
  {
  }

  lemma StepsTrail(closes: seq<real>, losses: Series, key: real)
    requires closes == [10.0, 9.0, 9.0, 8.0] && 0.0 < key
    requires |losses| == 4 && forall i :: 0 <= i < 4 ==> losses[i] == Some(if i == 1 || i == 3 then key else 0.0)
    ensures !CrossesUp(closes, losses, 0) && !CrossesDown(closes, losses, 0)
    ensures !CrossesUp(closes, losses, 1) && CrossesDown(closes, losses, 1)
    ensures !CrossesUp(closes, losses, 2) && !CrossesDown(closes, losses, 2)
    ensures !CrossesUp(closes, losses, 3) && CrossesDown(closes, losses, 3)
  {
    TrailStep(closes, losses, 0);
    TrailStep(closes, losses, 1);
    TrailStep(closes, losses, 2);
    TrailStep(closes, losses, 3);
    hide TrailAt, NextTrail;
    assert TrailAt(closes, losses, 0) == Some(10.0) && TrailAt(closes, losses, 1) == Some(9.0 + key);
    assert TrailAt(closes, losses, 2) == Some(9.0) && TrailAt(closes, losses, 3) == Some(8.0 + key);
  }

  /** Signals alternate on every price series if and only if the range average spans two bars or more. */
  lemma AlternatesExactlyWhen(config: Config)
    requires config.Valid()
    ensures (forall bars | ValidBars(bars) :: Alternating(SignalSeries(bars, config))) <==> 2 <= config.utAtr
  {
    if 2 <= config.utAtr {
      forall bars | ValidBars(bars) ensures Alternating(SignalSeries(bars, config)) {
        SignalsAlternate(bars, config);
      }
    } else {
      ShortRangeRepeatsASignal(config);
    }
  }

  // ---- A stop that loosens ---------------------------------------------------------------------------------

  /** The loss of a still market's first move, of size one, right after the warm-up. */
  function FirstLoss(config: Config): real
    requires config.Valid()
  {
    Times(config.utKey, RmaAlpha(config.utAtr))
  }

  /** A still market at 10, one bar down to 9, and one bar up to exactly the stop that the fall left behind. */
  function LooseningBars(config: Config): (bars: seq<Bar>)
    requires config.Valid()
    ensures |bars| == config.utAtr + 2
  {
    var stop := 9.0 + FirstLoss(config);
    seq(config.utAtr, _ => Bar(10.0, 10.0, 10.0, 10.0)) + [Bar(10.0, 10.0, 9.0, 9.0), Bar(9.0, MaxReal(9.0, stop), 9.0, MaxReal(9.0, stop))]
  }

  lemma LooseningRanges(config: Config)
    requires config.Valid()
    ensures var bars, n := LooseningBars(config), config.utAtr;
            && 0.0 < FirstLoss(config) && ValidBars(bars)
            && Flat(bars, n) && RangeAt(bars, n) == 1.0 && RangeAt(bars, n + 1) == FirstLoss(config)
            && bars[n - 1].close == 10.0 && bars[n].close == 9.0 && bars[n + 1].close == 9.0 + FirstLoss(config)
  {
    AlphasAreFractions(config.utAtr);
    TimesPositive(config.utKey, RmaAlpha(config.utAtr));
    hide RmaAlpha;
  }

  /** The losses of those three bars: none, the loss of the first move, and a positive one. */
  lemma LooseningLosses(config: Config)
    requires config.Valid()
    ensures var losses, n := Losses(LooseningBars(config), config), config.utAtr;
            losses[n - 1] == Some(0.0) && losses[n] == Some(FirstLoss(config)) && losses[n + 1].Some? && 0.0 < losses[n + 1].value
  {
    var bars, n := LooseningBars(config), config.utAtr;
    LooseningRanges(config);
    hide LooseningBars, TrueRangeAt, Losses, Flat, FirstLoss;
    if n == 1 {
      LooseningLossesShort(bars, config);
    } else {
      LossAt(bars, config, n - 1);
      LossAt(bars, config, n + 1);
      FlatGrows(bars, n);
      FlatGrows(bars, n + 1);
      FirstMoveLoss(bars, config);
    }
  }

  lemma LooseningLossesShort(bars: seq<Bar>, config: Config)
    requires config.Valid() && config.utAtr == 1 && |bars| == 3 && 0.0 < FirstLoss(config)
    requires Flat(bars, 1) && RangeAt(bars, 1) == 1.0 && RangeAt(bars, 2) == FirstLoss(config)
    ensures var losses := Losses(bars, config);
            losses[0] == Some(0.0) && losses[1] == Some(FirstLoss(config)) && losses[2].Some? && 0.0 < losses[2].value
  {
    hide TrueRangeAt, Losses;
    OneBarAtrIsTheRange(bars, config, 0);
    OneBarAtrIsTheRange(bars, config, 1);
    OneBarAtrIsTheRange(bars, config, 2);
    FlatStart(bars, 1, 0);
    assert Times(config.utKey, 0.0) == 0.0 && RmaAlpha(1) == 1.0;
    TimesPositive(config.utKey, FirstLoss(config));
  }

  lemma FlatStart(bars: seq<Bar>, n: nat, k: nat)
    requires k < n <= |bars| && Flat(bars, n)
    ensures RangeAt(bars, k) == 0.0
  {
    hide TrueRangeAt;
  }

  lemma FirstMoveLoss(bars: seq<Bar>, config: Config)
    requires Settled(bars, config) && config.utAtr < |bars| && Flat(bars, config.utAtr) && RangeAt(bars, config.utAtr) == 1.0
    ensures Losses(bars, config)[config.utAtr] == Some(FirstLoss(config))
  {
    hide TrueRangeAt, Flat, RmaAlpha, SmaAt;
    var n, alpha := config.utAtr, RmaAlpha(config.utAtr);
    AtrIsPositiveOnceMoved(bars, n, n - 1);
    AtrIsPositiveOnceMoved(bars, n, n);
    assert Blend(alpha, 1.0, 0.0) == alpha by { assert Times(alpha, 1.0) == alpha && Times(1.0 - alpha, 0.0) == 0.0; }
    assert Ranges(bars)[n] == Some(1.0);
    assert AtrAt(bars, n, n) == Some(alpha);
    assert AtrSeries(Highs(bars), Lows(bars), Closes(bars), n)[n] == AtrAt(bars, n, n);
  }

  /**
   * Whatever the settings are, some valid price series loosens the stop of a falling market without any
   * signal: the close rises exactly to the stop, which then jumps further away.
   */
  lemma StopLoosensInEverySetting(config: Config)
    requires config.Valid()
    ensures var bars, n := LooseningBars(config), config.utAtr;
            var signals := SignalSeries(bars, config);
            && ValidBars(bars) && SideOf(signals[n + 1]) == None
            && signals[n].trailingStop.Some? && signals[n + 1].trailingStop.Some?
            && bars[n].close < signals[n].trailingStop.value && bars[n + 1].close < signals[n + 1].trailingStop.value
            && signals[n].trailingStop.value < signals[n + 1].trailingStop.value
  {
    hide SignalSeries, Losses, LooseningBars, FirstLoss, RmaAlpha, TrueRangeAt, Flat, CrossesUp, CrossesDown, TrailAt;
    var bars, n := LooseningBars(config), config.utAtr;
    var closes, losses := Closes(bars), Losses(bars, config);
    LooseningRanges(config);
    LooseningLosses(config);
    StillStop(bars, config);
    FiredIsCrossed(bars, config, n + 1);
    StopOfSignal(bars, config, n);
    StopOfSignal(bars, config, n + 1);
    assert closes[n - 1] == 10.0 && closes[n] == 9.0 && closes[n + 1] == 9.0 + FirstLoss(config);
    TouchLoosens(closes, losses, n, FirstLoss(config));
  }

  lemma TouchLoosens(closes: seq<real>, losses: Series, i: nat, loss: real)
    requires 1 <= i && i + 1 < |closes| == |losses| && 0.0 < loss
    requires closes[i - 1] == 10.0 && closes[i] == 9.0 && closes[i + 1] == 9.0 + loss
    requires TrailAt(closes, losses, i - 1) == Some(10.0)
    requires losses[i] == Some(loss) && losses[i + 1].Some? && 0.0 < losses[i + 1].value
    ensures TrailAt(closes, losses, i) == Some(9.0 + loss)
    ensures TrailAt(closes, losses, i + 1) == Some(9.0 + loss + losses[i + 1].value)
    ensures !CrossesUp(closes, losses, i + 1) && !CrossesDown(closes, losses, i + 1)
  {
    TrailStep(closes, losses, i);
    TrailStep(closes, losses, i + 1);
    hide TrailAt;
  }

  /** The stop of a market that has not moved lies on its close. */
  lemma StillStop(bars: seq<Bar>, config: Config)
    requires ValidBars(bars) && config.Valid() && config.utAtr <= |bars|
    requires Losses(bars, config)[config.utAtr - 1] == Some(0.0)
    ensures TrailAt(Closes(bars), Losses(bars, config), config.utAtr - 1) == Some(bars[config.utAtr - 1].close)
  {
    var n, closes, losses := config.utAtr, Closes(bars), Losses(bars, config);
    if n == 1 {
      TrailStep(closes, losses, 0);
      assert bars[0].Valid();
    } else {
      LossesAreRangeLosses(bars, config);
      SidesOfTheStop(closes, losses, n, n - 1);
    }
    hide Losses;
  }

  lemma StopOfSignal(bars: seq<Bar>, config: Config, i: nat)
    requires config.Valid() && i < |bars|
    ensures SignalSeries(bars, config)[i].trailingStop == TrailAt(Closes(bars), Losses(bars, config), i)
  {
    hide Losses, TrailAt, HullSeries, ColorAt;
  }

  // ---- The fields of a signal, read against the bars -------------------------------------------------------

  /** The least low of the last `length` bars, once there are that many. */
  predicate IsWindowLow(level: Option<real>, bars: seq<Bar>, length: nat, i: nat)
    requires i < |bars|
  {
    && (level.Some? <==> length <= i + 1)
    && (level.Some? ==>
          && (forall k :: 0 <= k && i + 1 - length <= k <= i ==> level.value <= bars[k].low)
          && (exists k :: 0 <= k && i + 1 - length <= k <= i && bars[k].low == level.value))
  }

  /** The greatest high of the last `length` bars, once there are that many. */
  predicate IsWindowHigh(level: Option<real>, bars: seq<Bar>, length: nat, i: nat)
    requires i < |bars|
  {
    && (level.Some? <==> length <= i + 1)
    && (level.Some? ==>
          && (forall k :: 0 <= k && i + 1 - length <= k <= i ==> bars[k].high <= level.value)
          && (exists k :: 0 <= k && i + 1 - length <= k <= i && bars[k].high == level.value))
  }

  lemma LevelsOfSignal(bars: seq<Bar>, config: Config, i: nat)
    requires config.Valid() && i < |bars|
    ensures SignalSeries(bars, config)[i].stopLow == LowestAt(Lows(bars), config.slLen, i)
    ensures SignalSeries(bars, config)[i].stopHigh == HighestAt(Highs(bars), config.slLen, i)
  {
    hide HullSeries, Trail, ColorAt, CrossAt, LowestAt, HighestAt;
  }

  /** The low level of a signal is the least low of the last sl_len bars, the high level their greatest high. */
  lemma StopLevelsAreWindowExtremes(bars: seq<Bar>, config: Config, i: nat)
    requires config.Valid() && i < |bars|
    ensures IsWindowLow(SignalSeries(bars, config)[i].stopLow, bars, config.slLen, i)
    ensures IsWindowHigh(SignalSeries(bars, config)[i].stopHigh, bars, config.slLen, i)
  {
    hide SignalSeries, LowestAt, HighestAt;
    LevelsOfSignal(bars, config, i);
    WindowLevels(Lows(bars), config.slLen, i);
    WindowLevels(Highs(bars), config.slLen, i);
    if config.slLen <= i + 1 {
      forall k | i + 1 - config.slLen <= k <= i ensures bars[k].low == Lows(bars)[k] && bars[k].high == Highs(bars)[k] {}
      var low :| i + 1 - config.slLen <= low <= i && Lows(bars)[low] == LowestAt(Lows(bars), config.slLen, i).value;
      assert bars[low].low == LowestAt(Lows(bars), config.slLen, i).value;
      var high :| i + 1 - config.slLen <= high <= i && Highs(bars)[high] == HighestAt(Highs(bars), config.slLen, i).value;
      assert bars[high].high == HighestAt(Highs(bars), config.slLen, i).value;
    }
  }

  /**
   * When the flags of a signal are set, in terms of the bars and the other fields: a BUY when the close rises
   * above the trailing stop it was not above, a SELL in the mirror image, and a flip when the colour changes
   * between two bars that both have one.
   */
  lemma FlagsAreExact(bars: seq<Bar>, config: Config, i: nat)
    requires config.Valid() && i < |bars|
    ensures var signals := SignalSeries(bars, config);
            var signal, stop := signals[i], signals[i].trailingStop;
            if i == 0 then !signal.buy && !signal.sell && !signal.hullFlipDown && !signal.hullFlipUp
            else
              var before, last := signals[i - 1], signals[i - 1].trailingStop;
              && (signal.buy <==> stop.Some? && last.Some? && bars[i - 1].close <= last.value && stop.value < bars[i].close)
              && (signal.sell <==> stop.Some? && last.Some? && last.value <= bars[i - 1].close && bars[i].close < stop.value)
              && (signal.hullFlipDown <==> before.hullGreen == Some(true) && signal.hullGreen == Some(false))
              && (signal.hullFlipUp <==> before.hullGreen == Some(false) && signal.hullGreen == Some(true))
  {
    hide HullSeries, Losses, TrailSeries, ColorAt;
  }

  /** The loss kept by the trailing stop is ut_key times Wilder's average of the bar spans. */
  lemma LossFollowsWilder(bars: seq<Bar>, config: Config, i: nat)
    requires ValidBars(bars) && config.Valid() && i < |bars|
    ensures var n, key, loss := config.utAtr, config.utKey, Losses(bars, config)[i];
            && (loss.Some? <==> n <= i + 1)
            && (n == i + 1 ==> Times(n as real, loss.value) == Times(key, WindowSum(Ranges(bars), 0, n)))
            && (n < i + 1 ==>
                  && Losses(bars, config)[i - 1].Some?
                  && Times(n as real, loss.value)
                     == Times(key, MaxReal(bars[i].high, bars[i - 1].close) - MinReal(bars[i].low, bars[i - 1].close))
                        + Times((n - 1) as real, Losses(bars, config)[i - 1].value))
  {
    hide TrueRangeAt, RecursiveAt, WindowSum;
    var n, key := config.utAtr, config.utKey;
    AtrFollowsWilder(Highs(bars), Lows(bars), Closes(bars), n, i);
    var ranges := AtrSeries(Highs(bars), Lows(bars), Closes(bars), n);
    if n == i + 1 {
      ScaledProduct(n as real, key, ranges[i].value);
    } else if n < i + 1 {
      assert bars[i].Valid() && bars[i - 1].Valid();
      TrueRangeIsSpan(Highs(bars), Lows(bars), Closes(bars), i);
      var now, before := ranges[i].value, ranges[i - 1].value;
      ScaledProduct(n as real, key, now);
      ScaledProduct((n - 1) as real, key, before);
      TimesSum(RangeAt(bars, i), Times((n - 1) as real, before), key);
    }
  }

  lemma ScaledProduct(n: real, key: real, x: real)
    ensures Times(n, Times(key, x)) == Times(key, Times(n, x))
  {
    assert n * (key * x) == key * (n * x);
  }

  // ---- Hull colour -----------------------------------------------------------------------------------------

  /** The effective length is the scaled length rounded down, and never less than one bar. */
  lemma HullLengthIsTruncated(config: Config)
    requires config.Valid()
    ensures var length, scaled := HullLength(config), Times(config.hullLen as real, config.hullMult);
            if scaled < 1.0 then length == 1 else length as real <= scaled < (length + 1) as real
  {
    TimesPositive(config.hullLen as real, config.hullMult);
  }

  /** The bar from which the Hull average of a complete series is defined. */
  function HullStart(config: Config): nat
    requires config.Valid()
  {
    var length := HullLength(config);
    if config.hullMode.Thma? then 2 * AtLeastOne(length / 2) - 2 else length + SmoothingLength(length) - 2
  }

  predicate MovesSteadily(bars: seq<Bar>, a: real, d: real) {
    forall i :: 0 <= i < |bars| ==> bars[i].close == a + Times(d, i as real)
  }

  /** The colour exists from two bars after the average, and a flip needs one bar more, for any prices. */
  lemma ColourStartsOnTime(bars: seq<Bar>, config: Config, i: nat)
    requires config.Valid() && i < |bars|
    ensures SignalSeries(bars, config)[i].hullGreen.Some? <==> HullStart(config) + 2 <= i
    ensures SignalSeries(bars, config)[i].hullFlipDown || SignalSeries(bars, config)[i].hullFlipUp ==> HullStart(config) + 3 <= i
  {
    hide HmaSeries, EhmaSeries, ThmaSeries, CrossAt, Trail, HullLength, SmoothingLength;
    var closes := Defined(Closes(bars));
    HullsDefinedFrom(closes, HullLength(config));
    HullsDefinedFrom(closes, AtLeastOne(HullLength(config) / 2));
    assert DefinedFrom(HullSeries(closes, config), HullStart(config));
  }

  /** The colour compares the average with its own value two bars earlier, and is missing while either is. */
  lemma ColourLooksTwoBarsBack(bars: seq<Bar>, config: Config, i: nat)
    requires config.Valid() && i < |bars|
    ensures var hull, colour := HullSeries(Defined(Closes(bars)), config), SignalSeries(bars, config)[i].hullGreen;
            if i < 2 || hull[i].None? || hull[i - 2].None? then colour.None?
            else colour.Some? && (colour.value <==> hull[i - 2].value < hull[i].value)
  {
    hide CrossAt, Trail, HullSeries;
  }

  /**
   * On a market that moves by the same amount every bar the colour, wherever it is defined, says whether it
   * rises, in every Hull mode; it never flips, and a market that stands still is not green.
   */
  lemma SteadyMarketColour(bars: seq<Bar>, config: Config, a: real, d: real, i: nat)
    requires config.Valid() && i < |bars| && MovesSteadily(bars, a, d)
    ensures SignalSeries(bars, config)[i].hullGreen == if HullStart(config) + 2 <= i then Some(0.0 < d) else None
    ensures !SignalSeries(bars, config)[i].hullFlipDown && !SignalSeries(bars, config)[i].hullFlipUp
  {
    hide SignalSeries, HullSeries, HullStart, ColorAt, LineFrom;
    var hull := HullSeries(Defined(Closes(bars)), config);
    var start := HullOfLine(bars, config, a, d);
    ColorsOfSignal(bars, config, i);
    ColourOfLine(hull, HullStart(config), start, d, i);
    if 0 < i { ColourOfLine(hull, HullStart(config), start, d, i - 1); }
  }

  lemma ColorsOfSignal(bars: seq<Bar>, config: Config, i: nat)
    requires config.Valid() && i < |bars|
    ensures var hull, signal := HullSeries(Defined(Closes(bars)), config), SignalSeries(bars, config)[i];
            && signal.hullGreen == ColorAt(hull, i)
            && (signal.hullFlipDown ==> 0 < i && ColorAt(hull, i) == Some(false) && ColorAt(hull, i - 1) == Some(true))
            && (signal.hullFlipUp ==> 0 < i && ColorAt(hull, i) == Some(true) && ColorAt(hull, i - 1) == Some(false))
  {
    hide CrossAt, Trail, HullSeries, ColorAt;
  }

  lemma HullOfLine(bars: seq<Bar>, config: Config, a: real, d: real) returns (start: real)
    requires config.Valid() && MovesSteadily(bars, a, d)
    ensures LineFrom(HullSeries(Defined(Closes(bars)), config), HullStart(config), start, d)
  {
    hide HmaSeries, EhmaSeries, ThmaSeries, HullLength, SmoothingLength, HmaLag, EhmaLag, ThmaLag;
    var closes, length := Defined(Closes(bars)), HullLength(config);
    forall k | 0 <= k < |closes| ensures closes[k] == OnLineFrom(0, a, d, k) {
      assert closes[k].value == bars[k].close;
    }
    assert LineFrom(closes, 0, a, d);
    hide LineFrom;
    match config.hullMode {
      case Hma =>
        HmaOfLine(closes, length, a, d);
        start := a - Times(d, HmaLag(length));
      case Ehma =>
        EhmaOfLine(closes, length, a, d);
        start := a - Times(d, EhmaLag(length));
      case Thma =>
        ThmaOfLine(closes, AtLeastOne(length / 2), a, d);
        start := a - Times(d, ThmaLag(AtLeastOne(length / 2)));
    }
  }

  lemma ColourOfLine(hull: Series, first: nat, a: real, d: real, i: nat)
    requires i < |hull| && LineFrom(hull, first, a, d)
    ensures ColorAt(hull, i) == if first + 2 <= i then Some(0.0 < d) else None
  {
    assert hull[i] == OnLineFrom(first, a, d, i);
    if 2 <= i {
      assert hull[i - 2] == OnLineFrom(first, a, d, i - 2);
      TimesDifference(i as real, 2.0, d);
      assert Times(d, 2.0) == 2.0 * d;
    }
  }
}
