// Position sizing: how many lots one tranche may carry, and when a person has to confirm.

module Sizing {
  import opened Algebra
  import opened Prelude
  import opened Market

  datatype SymbolSpec = SymbolSpec(contractSize: real, volumeMin: real, volumeStep: real, volumeMax: real) {
    predicate Valid() {
      0.0 < contractSize && 0.0 < volumeMin && 0.0 < volumeStep && 0.0 < volumeMax
    }
  }

  datatype SizingRejection = BelowBrokerMinimum | NonPositiveRisk

  datatype SizingOutcome = SizingOutcome(
    lots: Option<real>,
    quantity: Option<real>,
    budget: real,
    riskAmount: Option<real>,
    requiresConfirmation: bool,
    rejection: Option<SizingRejection>
  )

  function Multiple(k: int, step: real): real {
    Times(k as real, step)
  }

  /** Lots are always rounded down: rounding up would exceed the budget. */
  function FloorToStep(value: real, step: real): real
    requires 0.0 < step
  {
    Multiple((value / step).Floor, step)
  }

  /** Base units carried by a number of lots. */
  function Units(lots: real, spec: SymbolSpec): real {
    Times(lots, spec.contractSize)
  }

  /** Money lost when that many lots are stopped out. */
  function RiskAmount(lots: real, riskPerLot: real): real {
    Times(lots, riskPerLot)
  }

  function Finalise(lots: real, spec: SymbolSpec, budget: real, riskPerLot: real, confirm: bool): SizingOutcome
    requires spec.Valid()
  {
    var quantised := FloorToStep(lots, spec.volumeStep);
    if quantised < spec.volumeMin then
      SizingOutcome(None, None, budget, None, false, Some(BelowBrokerMinimum))
    else
      SizingOutcome(Some(quantised), Some(Units(quantised, spec)), budget,
                    Some(RiskAmount(quantised, riskPerLot)), confirm, None)
  }

  function FloorLots(config: Config, spec: SymbolSpec): real {
    MaxReal(config.baseLots, spec.volumeMin)
  }

  function CapLots(config: Config, spec: SymbolSpec): real {
    MinReal(config.maxLots, spec.volumeMax)
  }

  function RiskPerLot(stopDistance: real, spec: SymbolSpec, rate: real): real {
    Times(Times(stopDistance, spec.contractSize), rate)
  }

  function Budget(config: Config, equity: real): real {
    AbsReal(Times(equity, config.riskPct))
  }

  /** The rate is an exchange rate, hence positive. */
  function SizeEntry(config: Config, stopDistance: real, spec: SymbolSpec, equity: real, rate: real): SizingOutcome
    requires config.Valid() && spec.Valid() && 0.0 < rate
  {
    var budget := Budget(config, equity);
    if stopDistance <= 0.0 then
      SizingOutcome(None, None, budget, None, false, Some(NonPositiveRisk))
    else
      RiskPerLotPositive(stopDistance, spec, rate);
      var riskPerLot := RiskPerLot(stopDistance, spec, rate);
      SizeWithin(config, spec, budget, riskPerLot)
  }

  function SizeWithin(config: Config, spec: SymbolSpec, budget: real, riskPerLot: real): SizingOutcome
    requires spec.Valid() && 0.0 < riskPerLot
  {
    var floorLots := FloorLots(config, spec);
    if config.sizingMode.Fixed? then
      Finalise(floorLots, spec, budget, riskPerLot, false)
    else
      var rawLots := budget / riskPerLot;
      if rawLots < floorLots then
        Finalise(floorLots, spec, budget, riskPerLot, true)
      else
        Finalise(MinReal(rawLots, CapLots(config, spec)), spec, budget, riskPerLot, false)
  }

  lemma RiskPerLotPositive(stopDistance: real, spec: SymbolSpec, rate: real)
    requires 0.0 < stopDistance && spec.Valid() && 0.0 < rate
    ensures 0.0 < RiskPerLot(stopDistance, spec, rate)
  {
    TimesPositive(stopDistance, spec.contractSize);
    TimesPositive(Times(stopDistance, spec.contractSize), rate);
  }
}
