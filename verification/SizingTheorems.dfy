// What the sizing rule guarantees: the largest affordable lot, an exact confirmation gate,
// and sizes that never react perversely to a wider stop or a larger account.

module SizingTheorems {
  import opened Algebra
  import opened Prelude
  import opened Market
  import opened Sizing

  ghost predicate IsMultiple(x: real, step: real) {
    exists k: int :: Multiple(k, step) == x
  }

  lemma MultipleMonotone(j: int, k: int, step: real)
    requires 0.0 < step && j <= k
    ensures Multiple(j, step) <= Multiple(k, step)
  {
    TimesOrder(j as real, k as real, step);
  }

  lemma NextMultiple(n: int, step: real)
    ensures Multiple(n + 1, step) == Multiple(n, step) + step
  {
    TimesSum(n as real, 1.0, step);
    assert Times(1.0, step) == step;
  }

  /** Rounding down gives the largest multiple of the step that does not exceed the value. */
  lemma FloorToStepIsLargestMultiple(value: real, step: real)
    requires 0.0 < step
    ensures IsMultiple(FloorToStep(value, step), step)
    ensures FloorToStep(value, step) <= value < FloorToStep(value, step) + step
    ensures forall k: int :: Multiple(k, step) <= value ==> Multiple(k, step) <= FloorToStep(value, step)
  {
    var n := (value / step).Floor;
    QuotientOrder(value, n as real, step);
    QuotientOrder(value, (n + 1) as real, step);
    NextMultiple(n, step);
    forall k: int | Multiple(k, step) <= value
      ensures Multiple(k, step) <= Multiple(n, step)
    {
      if n < k {
        MultipleMonotone(n + 1, k, step);
        assert false;
      }
      MultipleMonotone(k, n, step);
    }
  }

  lemma FloorToStepMonotone(a: real, b: real, step: real)
    requires 0.0 < step && a <= b
    ensures FloorToStep(a, step) <= FloorToStep(b, step)
  {
    FloorToStepIsLargestMultiple(a, step);
    FloorToStepIsLargestMultiple(b, step);
  }

  lemma FloorToStepFixesMultiples(x: real, step: real)
    requires 0.0 < step && IsMultiple(x, step)
    ensures FloorToStep(x, step) == x
  {
    FloorToStepIsLargestMultiple(x, step);
  }

  /**
   * An unconfirmed risk-percent size is the largest multiple of the volume step that the budget,
   * the configured cap and the broker's maximum all allow; it never loses more than the budget.
   */
  lemma UnconfirmedSizeIsLargestAffordable(
      config: Config, stopDistance: real, spec: SymbolSpec, equity: real, rate: real)
    requires config.Valid() && spec.Valid() && 0.0 < rate && config.sizingMode.RiskPercent?
    requires SizeEntry(config, stopDistance, spec, equity, rate).lots.Some?
    requires !SizeEntry(config, stopDistance, spec, equity, rate).requiresConfirmation
    ensures 0.0 < stopDistance
    ensures var outcome := SizeEntry(config, stopDistance, spec, equity, rate);
            outcome.riskAmount == Some(RiskAmount(outcome.lots.value, RiskPerLot(stopDistance, spec, rate)))
    ensures var outcome := SizeEntry(config, stopDistance, spec, equity, rate);
            outcome.quantity == Some(Units(outcome.lots.value, spec))
    ensures var outcome := SizeEntry(config, stopDistance, spec, equity, rate);
            var lots := outcome.lots.value;
            var riskPerLot := RiskPerLot(stopDistance, spec, rate);
            && IsMultiple(lots, spec.volumeStep)
            && spec.volumeMin <= lots <= config.maxLots && lots <= spec.volumeMax
            && RiskAmount(lots, riskPerLot) <= Budget(config, equity)
            && (forall k: int ::
                  && RiskAmount(Multiple(k, spec.volumeStep), riskPerLot) <= Budget(config, equity)
                  && Multiple(k, spec.volumeStep) <= config.maxLots
                  && Multiple(k, spec.volumeStep) <= spec.volumeMax
                  ==> Multiple(k, spec.volumeStep) <= lots)
  {
    RiskPerLotPositive(stopDistance, spec, rate);
    var outcome := SizeEntry(config, stopDistance, spec, equity, rate);
    var riskPerLot := RiskPerLot(stopDistance, spec, rate);
    var raw := Budget(config, equity) / riskPerLot;
    var capped := MinReal(raw, CapLots(config, spec));
    LargestAffordable(config, spec, Budget(config, equity), riskPerLot);
    assert outcome == Finalise(capped, spec, Budget(config, equity), riskPerLot, false);
    var lots := FloorToStep(capped, spec.volumeStep);
    assert outcome.lots == Some(lots);
  }

  lemma LargestAffordable(config: Config, spec: SymbolSpec, budget: real, riskPerLot: real)
    requires spec.Valid() && 0.0 < riskPerLot
    ensures var lots := FloorToStep(MinReal(budget / riskPerLot, CapLots(config, spec)), spec.volumeStep);
            && IsMultiple(lots, spec.volumeStep)
            && lots <= config.maxLots && lots <= spec.volumeMax && RiskAmount(lots, riskPerLot) <= budget
            && (forall k: int ::
                  && RiskAmount(Multiple(k, spec.volumeStep), riskPerLot) <= budget
                  && Multiple(k, spec.volumeStep) <= config.maxLots
                  && Multiple(k, spec.volumeStep) <= spec.volumeMax
                  ==> Multiple(k, spec.volumeStep) <= lots)
  {
    var capped := MinReal(budget / riskPerLot, CapLots(config, spec));
    FloorToStepIsLargestMultiple(capped, spec.volumeStep);
    var lots := FloorToStep(capped, spec.volumeStep);
    QuotientOrder(budget, lots, riskPerLot);
    forall k: int | RiskAmount(Multiple(k, spec.volumeStep), riskPerLot) <= budget
                    && Multiple(k, spec.volumeStep) <= config.maxLots
                    && Multiple(k, spec.volumeStep) <= spec.volumeMax
      ensures Multiple(k, spec.volumeStep) <= lots
    {
      QuotientOrder(budget, Multiple(k, spec.volumeStep), riskPerLot);
      assert Multiple(k, spec.volumeStep) <= capped;
    }
  }

  // ---- The confirmation gate ----------------------------------------------------------------

  function SmallestLot(config: Config, spec: SymbolSpec): real
    requires spec.Valid()
  {
    FloorToStep(FloorLots(config, spec), spec.volumeStep)
  }

  /** Confirmation is asked exactly when even the smallest lot the rule can trade is over budget. */
  ghost predicate ConfirmsExactly(config: Config, spec: SymbolSpec)
    requires config.Valid() && spec.Valid()
  {
    forall stopDistance, equity, rate | 0.0 < stopDistance && 0.0 < rate ::
      SizeEntry(config, stopDistance, spec, equity, rate).requiresConfirmation
      <==> Budget(config, equity) < RiskAmount(SmallestLot(config, spec), RiskPerLot(stopDistance, spec, rate))
  }

  /** One entry sized so that the budget buys exactly `raw` lots. */
  lemma AffordableLots(config: Config, spec: SymbolSpec, raw: real) returns (stopDistance: real, equity: real)
    requires config.Valid() && spec.Valid() && 0.0 <= raw
    ensures 0.0 < stopDistance && 0.0 <= equity
    ensures RiskPerLot(stopDistance, spec, 1.0) == 1.0 && Budget(config, equity) == raw
  {
    stopDistance := 1.0 / spec.contractSize;
    equity := raw / config.riskPct;
    Quotient(1.0, spec.contractSize);
    Quotient(raw, config.riskPct);
    assert Times(1.0, 1.0) == 1.0;
    QuotientOrder(1.0, 0.0, spec.contractSize);
    QuotientOrder(raw, 0.0, config.riskPct);
  }

  lemma GateWhenFloorIsMultiple(config: Config, spec: SymbolSpec, budget: real, riskPerLot: real)
    requires config.Valid() && spec.Valid() && config.sizingMode.RiskPercent? && 0.0 <= budget && 0.0 < riskPerLot
    requires IsMultiple(FloorLots(config, spec), spec.volumeStep) || FloorLots(config, spec) < spec.volumeStep
    ensures SizeWithin(config, spec, budget, riskPerLot).requiresConfirmation
            <==> budget < RiskAmount(SmallestLot(config, spec), riskPerLot)
  {
    var floorLots := FloorLots(config, spec);
    AskedWhen(config, spec, budget, riskPerLot);
    if IsMultiple(floorLots, spec.volumeStep) {
      FloorToStepFixesMultiples(floorLots, spec.volumeStep);
      QuotientOrder(budget, floorLots, riskPerLot);
    } else {
      NothingBelowOneStep(floorLots, spec.volumeStep);
    }
  }

  lemma AskedWhen(config: Config, spec: SymbolSpec, budget: real, riskPerLot: real)
    requires config.Valid() && spec.Valid() && config.sizingMode.RiskPercent? && 0.0 < riskPerLot
    ensures SizeWithin(config, spec, budget, riskPerLot).requiresConfirmation
            <==> budget / riskPerLot < FloorLots(config, spec) && spec.volumeMin <= SmallestLot(config, spec)
  {
  }

  lemma NothingBelowOneStep(lots: real, step: real)
    requires 0.0 < lots < step
    ensures FloorToStep(lots, step) == 0.0
  {
    QuotientOrder(lots, 0.0, step);
    QuotientOrder(lots, 1.0, step);
  }

  /**
   * The exact condition for the gate: the floor lot is a multiple of the volume step, or so far below
   * one step that nothing can be traded at all. Otherwise some entry is gated although its
   * quantised lot fits the budget, or is dropped without being gated.
   */
  lemma ConfirmationGateIsExactIff(config: Config, spec: SymbolSpec)
    requires config.Valid() && spec.Valid() && config.sizingMode.RiskPercent?
    ensures ConfirmsExactly(config, spec)
            <==> IsMultiple(FloorLots(config, spec), spec.volumeStep) || FloorLots(config, spec) < spec.volumeStep
  {
    var floorLots, step := FloorLots(config, spec), spec.volumeStep;
    if IsMultiple(floorLots, step) || floorLots < step {
      forall stopDistance, equity, rate | 0.0 < stopDistance && 0.0 < rate
        ensures SizeEntry(config, stopDistance, spec, equity, rate).requiresConfirmation
                <==> Budget(config, equity) < RiskAmount(SmallestLot(config, spec), RiskPerLot(stopDistance, spec, rate))
      {
        RiskPerLotPositive(stopDistance, spec, rate);
        GateWhenFloorIsMultiple(config, spec, Budget(config, equity), RiskPerLot(stopDistance, spec, rate));
      }
    } else {
      var smallest := SmallestLot(config, spec);
      FloorToStepIsLargestMultiple(floorLots, step);
      assert Multiple(1, step) == step;
      assert 0.0 < smallest < floorLots;
      // With a tradable floor, a budget worth exactly the smallest lot is gated although it fits;
      // with an untradable one, half of it is over budget and yet not gated.
      var raw := if smallest < spec.volumeMin then smallest / 2.0 else smallest;
      var stopDistance, equity := AffordableLots(config, spec, raw);
      assert SizeEntry(config, stopDistance, spec, equity, 1.0).requiresConfirmation
             == !(smallest < spec.volumeMin);
    }
  }

  // ---- Monotonicity -------------------------------------------------------------------------

  function LotsOrZero(outcome: SizingOutcome): real {
    if outcome.lots.Some? then outcome.lots.value else 0.0
  }

  function Tradable(lots: real, spec: SymbolSpec): real
    requires spec.Valid()
  {
    var q := FloorToStep(lots, spec.volumeStep);
    if q < spec.volumeMin then 0.0 else q
  }

  /** A wider stop never gets more lots, a larger account never fewer (a rejection counts as none). */
  ghost predicate NeverPerverse(config: Config, spec: SymbolSpec)
    requires config.Valid() && spec.Valid()
  {
    forall near, far, small, large, rate | 0.0 < near <= far && 0.0 <= small <= large && 0.0 < rate ::
      LotsOrZero(SizeEntry(config, far, spec, small, rate)) <= LotsOrZero(SizeEntry(config, near, spec, large, rate))
  }

  lemma TradableMonotone(a: real, b: real, spec: SymbolSpec)
    requires spec.Valid() && a <= b
    ensures Tradable(a, spec) <= Tradable(b, spec)
  {
    FloorToStepMonotone(a, b, spec.volumeStep);
  }

  lemma TradableSizesOrdered(config: Config, spec: SymbolSpec, low: real, high: real)
    requires config.Valid() && spec.Valid() && low <= high
    requires Tradable(FloorLots(config, spec), spec)
             <= Tradable(MinReal(FloorLots(config, spec), CapLots(config, spec)), spec)
    ensures LotsAt(config, spec, low) <= LotsAt(config, spec, high)
  {
    var floorLots, cap := FloorLots(config, spec), CapLots(config, spec);
    if floorLots <= high {
      TradableMonotone(MinReal(floorLots, cap), MinReal(high, cap), spec);
      TradableMonotone(MinReal(low, cap), MinReal(high, cap), spec);
    }
  }

  /** Lots traded when the budget affords `raw` of them. */
  function LotsAt(config: Config, spec: SymbolSpec, raw: real): real
    requires spec.Valid()
  {
    var floorLots := FloorLots(config, spec);
    Tradable(if raw < floorLots then floorLots else MinReal(raw, CapLots(config, spec)), spec)
  }

  lemma SizeInLots(config: Config, stopDistance: real, spec: SymbolSpec, equity: real, rate: real)
    requires config.Valid() && spec.Valid() && config.sizingMode.RiskPercent? && 0.0 < stopDistance && 0.0 < rate
    ensures 0.0 < RiskPerLot(stopDistance, spec, rate)
    ensures LotsOrZero(SizeEntry(config, stopDistance, spec, equity, rate))
            == LotsAt(config, spec, Budget(config, equity) / RiskPerLot(stopDistance, spec, rate))
  {
    RiskPerLotPositive(stopDistance, spec, rate);
  }

  lemma RawLotsMonotone(config: Config, spec: SymbolSpec, near: real, far: real, small: real, large: real, rate: real)
    requires config.Valid() && spec.Valid() && 0.0 < near <= far && 0.0 <= small <= large && 0.0 < rate
    ensures 0.0 < RiskPerLot(near, spec, rate) && 0.0 < RiskPerLot(far, spec, rate)
    ensures Budget(config, small) / RiskPerLot(far, spec, rate) <= Budget(config, large) / RiskPerLot(near, spec, rate)
  {
    RiskPerLotPositive(near, spec, rate);
    RiskPerLotPositive(far, spec, rate);
    var poor, rich := Budget(config, small), Budget(config, large);
    TimesNonNegative(small, config.riskPct);
    TimesMonotone(small, large, config.riskPct);
    var dear, cheap := RiskPerLot(far, spec, rate), RiskPerLot(near, spec, rate);
    TimesMonotone(near, far, spec.contractSize);
    TimesMonotone(Times(near, spec.contractSize), Times(far, spec.contractSize), rate);
    var q := rich / cheap;
    QuotientOrder(rich, 0.0, cheap);
    Quotient(rich, cheap);
    TimesCommutes(q, cheap);
    TimesCommutes(q, dear);
    TimesMonotone(cheap, dear, q);
    QuotientOrder(poor, q, dear);
  }

  /** The exact condition: at the floor itself, the caps must not already shrink the tradable size. */
  lemma SizesNeverPerverseIff(config: Config, spec: SymbolSpec)
    requires config.Valid() && spec.Valid() && config.sizingMode.RiskPercent?
    ensures NeverPerverse(config, spec)
            <==> Tradable(FloorLots(config, spec), spec)
                 <= Tradable(MinReal(FloorLots(config, spec), CapLots(config, spec)), spec)
  {
    var floorLots, cap := FloorLots(config, spec), CapLots(config, spec);
    if Tradable(floorLots, spec) <= Tradable(MinReal(floorLots, cap), spec) {
      forall near, far, small, large, rate | 0.0 < near <= far && 0.0 <= small <= large && 0.0 < rate
        ensures LotsOrZero(SizeEntry(config, far, spec, small, rate)) <= LotsOrZero(SizeEntry(config, near, spec, large, rate))
      {
        SizeInLots(config, far, spec, small, rate);
        SizeInLots(config, near, spec, large, rate);
        RawLotsMonotone(config, spec, near, far, small, large, rate);
        TradableSizesOrdered(config, spec, Budget(config, small) / RiskPerLot(far, spec, rate),
                             Budget(config, large) / RiskPerLot(near, spec, rate));
      }
    } else {
      var far, small := AffordableLots(config, spec, floorLots / 2.0);
      var near, large := AffordableLots(config, spec, floorLots);
      assert near == far by { SameReciprocal(near, far, spec); }
      assert small <= large by { SmallerBudget(config, small, large); }
      SizeInLots(config, far, spec, small, 1.0);
      SizeInLots(config, near, spec, large, 1.0);
    }
  }

  /** What the numbers of a size mean: base units, and money lost at the stop. */
  predicate PricedAs(outcome: SizingOutcome, lots: real, stopDistance: real, spec: SymbolSpec, rate: real) {
    && outcome.lots == Some(lots)
    && outcome.quantity == Some(Times(lots, spec.contractSize))
    && outcome.riskAmount == Some(Times(lots, Times(Times(stopDistance, spec.contractSize), rate)))
  }

  /**
   * In FIXED mode the size is the floor lot rounded down, whatever the account and the stop, and nobody is
   * asked. The caps are not applied to it.
   */
  lemma FixedSizeIsTheFloor(config: Config, stopDistance: real, spec: SymbolSpec, equity: real, rate: real)
    requires config.Valid() && spec.Valid() && 0.0 < rate && config.sizingMode.Fixed?
    ensures var outcome, smallest := SizeEntry(config, stopDistance, spec, equity, rate), SmallestLot(config, spec);
            && !outcome.requiresConfirmation
            && (outcome.rejection == Some(NonPositiveRisk) <==> stopDistance <= 0.0)
            && (outcome.lots.Some? <==> 0.0 < stopDistance && spec.volumeMin <= smallest)
            && (outcome.lots.Some? ==>
                  && PricedAs(outcome, smallest, stopDistance, spec, rate)
                  && smallest <= FloorLots(config, spec) < smallest + spec.volumeStep)
  {
    FloorToStepIsLargestMultiple(FloorLots(config, spec), spec.volumeStep);
  }

  /** A size that has to be confirmed is the floor lot rounded down, and the unrounded floor lot is over budget. */
  lemma ConfirmedSizeIsTheFloor(config: Config, stopDistance: real, spec: SymbolSpec, equity: real, rate: real)
    requires config.Valid() && spec.Valid() && 0.0 < rate
    requires SizeEntry(config, stopDistance, spec, equity, rate).requiresConfirmation
    ensures config.sizingMode.RiskPercent? && 0.0 < stopDistance
    ensures var outcome, smallest := SizeEntry(config, stopDistance, spec, equity, rate), SmallestLot(config, spec);
            && PricedAs(outcome, smallest, stopDistance, spec, rate) && spec.volumeMin <= smallest
            && outcome.budget < Times(FloorLots(config, spec), Times(Times(stopDistance, spec.contractSize), rate))
  {
    RiskPerLotPositive(stopDistance, spec, rate);
    QuotientOrder(Budget(config, equity), FloorLots(config, spec), RiskPerLot(stopDistance, spec, rate));
  }

  /** The greater of the configured base lot and the broker's least lot. */
  function LeastLots(config: Config, spec: SymbolSpec): real {
    if config.baseLots < spec.volumeMin then spec.volumeMin else config.baseLots
  }

  /** The lots wanted before rounding: the floor if it is all the budget allows, else the budget's worth up to both caps. */
  function WantedLots(config: Config, spec: SymbolSpec, budget: real, loss: real): real
    requires 0.0 < loss
  {
    var cap := if config.maxLots < spec.volumeMax then config.maxLots else spec.volumeMax;
    if config.sizingMode.Fixed? || budget < Times(LeastLots(config, spec), loss) then LeastLots(config, spec)
    else if budget < Times(cap, loss) then budget / loss
    else cap
  }

  /** When a size is refused, and when a person is asked. */
  lemma RefusedExactlyWhen(config: Config, stopDistance: real, spec: SymbolSpec, equity: real, rate: real)
    requires config.Valid() && spec.Valid() && 0.0 < rate
    ensures var outcome := SizeEntry(config, stopDistance, spec, equity, rate);
            var loss, money := Times(Times(stopDistance, spec.contractSize), rate), Times(equity, config.riskPct);
            && outcome.budget == (if money < 0.0 then -money else money)
            && (outcome.rejection.Some? <==> outcome.lots.None?) && (outcome.rejection.Some? <==> outcome.quantity.None?)
            && (outcome.rejection == Some(NonPositiveRisk) <==> stopDistance <= 0.0)
            && (0.0 < stopDistance ==> 0.0 < loss)
            && (outcome.rejection == Some(BelowBrokerMinimum)
                <==> 0.0 < stopDistance && FloorToStep(WantedLots(config, spec, outcome.budget, loss), spec.volumeStep) < spec.volumeMin)
            && (outcome.requiresConfirmation
                <==> outcome.rejection.None? && config.sizingMode.RiskPercent? && outcome.budget < Times(LeastLots(config, spec), loss))
  {
    hide FloorToStep;
    if 0.0 < stopDistance {
      RiskPerLotPositive(stopDistance, spec, rate);
      WantedIsSized(config, spec, Budget(config, equity), RiskPerLot(stopDistance, spec, rate));
    }
  }

  lemma WantedIsSized(config: Config, spec: SymbolSpec, budget: real, loss: real)
    requires spec.Valid() && 0.0 < loss
    ensures SizeWithin(config, spec, budget, loss)
            == Finalise(WantedLots(config, spec, budget, loss), spec, budget, loss,
                        config.sizingMode.RiskPercent? && budget < Times(LeastLots(config, spec), loss))
  {
    hide Finalise;
    QuotientOrder(budget, LeastLots(config, spec), loss);
    QuotientOrder(budget, CapLots(config, spec), loss);
  }

  /** The budget is an absolute value: a size depends on the account only through the magnitude of its equity. */
  lemma SizeIgnoresSignOfEquity(config: Config, stopDistance: real, spec: SymbolSpec, equity: real, rate: real)
    requires config.Valid() && spec.Valid() && 0.0 < rate
    ensures SizeEntry(config, stopDistance, spec, -equity, rate) == SizeEntry(config, stopDistance, spec, equity, rate)
  {
    TimesDifference(0.0, equity, config.riskPct);
    assert Times(0.0, config.riskPct) == 0.0;
    assert Budget(config, -equity) == Budget(config, equity);
  }

  lemma SameReciprocal(a: real, b: real, spec: SymbolSpec)
    requires spec.Valid() && RiskPerLot(a, spec, 1.0) == RiskPerLot(b, spec, 1.0)
    ensures a == b
  {
    TimesOrder(Times(a, spec.contractSize), Times(b, spec.contractSize), 1.0);
    TimesOrder(Times(b, spec.contractSize), Times(a, spec.contractSize), 1.0);
    TimesOrder(a, b, spec.contractSize);
    TimesOrder(b, a, spec.contractSize);
  }

  lemma SmallerBudget(config: Config, small: real, large: real)
    requires config.Valid() && 0.0 <= small && 0.0 <= large
    requires Budget(config, small) < Budget(config, large)
    ensures small <= large
  {
    TimesNonNegative(small, config.riskPct);
    TimesNonNegative(large, config.riskPct);
    TimesOrder(large, small, config.riskPct);
  }
}
