// The two-tranche position lifecycle. T1 takes a fixed profit, T2 is the runner: it has no fixed
// target, its stop moves to break-even, and a Hull flip closes it.
//
// States are frozen values. Functions say what each operation decides; the methods whose names
// end in `Stepwise` grow the state and the action list one tranche at a time, as the code does.

module TradeManager {
  import opened Algebra
  import opened Prelude
  import opened Market

  datatype TrancheRole = T1 | T2

  datatype TrancheStatus = PendingEntry | Open | Closed

  datatype CloseReason = StopLoss | TakeProfit | BreakevenStop | HullFlip | Reversal | InvalidRisk | EntryGap

  datatype ActionKind = OpenMarket | SetBrackets | MoveStop | CloseMarket

  datatype TradeAction = TradeAction(
    kind: ActionKind,
    role: TrancheRole,
    side: Option<OrderSide>,
    quantity: Option<real>,
    stopLoss: Option<real>,
    takeProfit: Option<real>,
    reason: Option<CloseReason>
  )

  datatype Tranche = Tranche(
    role: TrancheRole,
    side: OrderSide,
    status: TrancheStatus,
    quantity: Option<real>,
    entryPrice: Option<real>,
    stopLoss: Option<real>,
    takeProfit: Option<real>,
    entryBarIndex: Option<int>,
    breakevenMoved: bool,
    closeReason: Option<CloseReason>
  ) {
    predicate Live() {
      !status.Closed?
    }
  }

  datatype TradeState = TradeState(
    side: Option<OrderSide>,
    pendingStop: Option<real>,
    referenceClose: Option<real>,
    tranches: seq<Tranche>
  ) {
    predicate IsFlat() {
      LiveTranches(tranches) == []
    }
  }

  datatype TradeDecision = TradeDecision(state: TradeState, actions: seq<TradeAction>)

  datatype ManagerError = NoPendingSignal | NothingAwaitsEntry

  const EMPTY_STATE := TradeState(None, None, None, [])

  function FindTranche(tranches: seq<Tranche>, role: TrancheRole): Option<Tranche> {
    if tranches == [] then None
    else if tranches[0].role == role then Some(tranches[0])
    else FindTranche(tranches[1..], role)
  }

  function LiveTranches(tranches: seq<Tranche>): seq<Tranche> {
    if tranches == [] then []
    else (if tranches[0].Live() then [tranches[0]] else []) + LiveTranches(tranches[1..])
  }

  function PendingTranches(tranches: seq<Tranche>): seq<Tranche> {
    if tranches == [] then []
    else (if tranches[0].status.PendingEntry? then [tranches[0]] else []) + PendingTranches(tranches[1..])
  }

  function Replace(state: TradeState, updated: Tranche): TradeState {
    state.(tranches := seq(|state.tranches|, i requires 0 <= i < |state.tranches| =>
      if state.tranches[i].role == updated.role then updated else state.tranches[i]))
  }

  function CloseTranche(tranche: Tranche, reason: CloseReason): Tranche {
    tranche.(status := Closed, closeReason := Some(reason))
  }

  function CloseAction(tranche: Tranche, reason: CloseReason): TradeAction {
    TradeAction(CloseMarket, tranche.role, None, tranche.quantity, None, None, Some(reason))
  }

  function OpenAction(role: TrancheRole, side: OrderSide): TradeAction {
    TradeAction(OpenMarket, role, Some(side), None, None, None, None)
  }

  function BracketAction(role: TrancheRole, stopLoss: real, takeProfit: Option<real>): TradeAction {
    TradeAction(SetBrackets, role, None, None, Some(stopLoss), takeProfit, None)
  }

  predicate Touched(side: OrderSide, price: real, bar: Bar) {
    if side.Buy? then bar.high >= price else bar.low <= price
  }

  // ---- Closing bar: break-even, Hull exit, signal ----------------------------------------------

  predicate MovesToBreakeven(runner: Tranche, fixed: Tranche, bar: Bar, signal: BarSignal) {
    && runner.status.Open? && !runner.breakevenMoved
    && fixed.takeProfit.Some? && runner.entryPrice.Some?
    && runner.entryBarIndex.Some? && runner.entryBarIndex.value < signal.index
    && Touched(runner.side, fixed.takeProfit.value, bar)
  }

  function ApplyBreakeven(state: TradeState, bar: Bar, signal: BarSignal): (TradeState, seq<TradeAction>) {
    var runner := FindTranche(state.tranches, T2);
    var fixed := FindTranche(state.tranches, T1);
    if runner.None? || fixed.None? || !MovesToBreakeven(runner.value, fixed.value, bar, signal) then
      (state, [])
    else
      (Replace(state, runner.value.(stopLoss := runner.value.entryPrice, breakevenMoved := true)),
       [TradeAction(MoveStop, T2, None, None, runner.value.entryPrice, None, None)])
  }

  predicate HullCloses(runner: Tranche, signal: BarSignal, config: Config) {
    && runner.status.Open? && config.useHullExit
    && (config.onlyAfterBe ==> runner.breakevenMoved)
    && FlipsAgainst(signal, runner.side)
  }

  function ApplyHullExit(state: TradeState, signal: BarSignal, config: Config): (TradeState, seq<TradeAction>) {
    var runner := FindTranche(state.tranches, T2);
    if runner.None? || !HullCloses(runner.value, signal, config) then
      (state, [])
    else
      (Replace(state, CloseTranche(runner.value, HullFlip)), [CloseAction(runner.value, HullFlip)])
  }

  /** Closes every listed tranche that is not on `side`, one after the other. */
  function CloseOpposing(state: TradeState, live: seq<Tranche>, side: OrderSide, actions: seq<TradeAction>)
      : (TradeState, seq<TradeAction>)
    decreases |live|
  {
    if live == [] then (state, actions)
    else if live[0].side == side then CloseOpposing(state, live[1..], side, actions)
    else CloseOpposing(Replace(state, CloseTranche(live[0], Reversal)), live[1..], side,
                       actions + [CloseAction(live[0], Reversal)])
  }

  function FreshTranche(role: TrancheRole, side: OrderSide): Tranche {
    Tranche(role, side, PendingEntry, None, None, None, None, None, false, None)
  }

  function PendingState(side: OrderSide, stop: real, reference: real): TradeState {
    TradeState(Some(side), Some(stop), Some(reference), [FreshTranche(T1, side), FreshTranche(T2, side)])
  }

  function ApplySignal(state: TradeState, bar: Bar, signal: BarSignal): (TradeState, seq<TradeAction>) {
    match SideOf(signal)
    case None => (state, [])
    case Some(side) =>
      var (closed, actions) := CloseOpposing(state, LiveTranches(state.tranches), side, []);
      if !closed.IsFlat() || StopOf(signal).None? then
        (closed, actions)
      else
        (PendingState(side, StopOf(signal).value, bar.close),
         actions + [OpenAction(T1, side), OpenAction(T2, side)])
  }

  function OnBarClose(state: TradeState, bar: Bar, signal: BarSignal, config: Config): TradeDecision {
    var (s1, a1) := ApplyBreakeven(state, bar, signal);
    var (s2, a2) := ApplyHullExit(s1, signal, config);
    var (s3, a3) := ApplySignal(s2, bar, signal);
    TradeDecision(s3, a1 + a2 + a3)
  }

  // ---- Entry fill ------------------------------------------------------------------------------

  /** How far the entry price is on the good side of the stop. */
  function Risk(side: OrderSide, entryPrice: real, stopLoss: real): real {
    if side.Buy? then entryPrice - stopLoss else stopLoss - entryPrice
  }

  function Target(side: OrderSide, entryPrice: real, stopLoss: real, rrMult: real): real {
    var reward := Times(rrMult, Risk(side, entryPrice, stopLoss));
    if side.Buy? then entryPrice + reward else entryPrice - reward
  }

  predicate EntryGapped(entryPrice: real, referenceClose: Option<real>, config: Config) {
    && config.maxEntryGapBps.Some? && referenceClose.Some? && referenceClose.value > 0.0
    && AbsReal(entryPrice - referenceClose.value) / referenceClose.value * 10000.0 > config.maxEntryGapBps.value as real
  }

  function StampQuantity(state: TradeState, pending: seq<Tranche>, quantity: real): TradeState
    decreases |pending|
  {
    if pending == [] then state
    else StampQuantity(Replace(state, pending[0].(quantity := Some(quantity))), pending[1..], quantity)
  }

  function CloseAll(state: TradeState, live: seq<Tranche>, reason: CloseReason, actions: seq<TradeAction>)
      : (TradeState, seq<TradeAction>)
    decreases |live|
  {
    if live == [] then (state, actions)
    else CloseAll(Replace(state, CloseTranche(live[0], reason)), live[1..], reason,
                  actions + [CloseAction(live[0], reason)])
  }

  function FlattenIfDone(state: TradeState): TradeState {
    if state.IsFlat() then EMPTY_STATE else state
  }

  function AbortEntry(state: TradeState, reason: CloseReason): TradeDecision {
    var (closed, actions) := CloseAll(state, LiveTranches(state.tranches), reason, []);
    TradeDecision(FlattenIfDone(closed), actions)
  }

  function FilledTranche(tranche: Tranche, entryPrice: real, barIndex: int, stopLoss: real, target: real): Tranche {
    tranche.(status := Open, entryPrice := Some(entryPrice), entryBarIndex := Some(barIndex),
             stopLoss := Some(stopLoss), takeProfit := if tranche.role.T1? then Some(target) else None)
  }

  function OpenPending(state: TradeState, pending: seq<Tranche>, entryPrice: real, barIndex: int,
                       stopLoss: real, target: real, actions: seq<TradeAction>): (TradeState, seq<TradeAction>)
    decreases |pending|
  {
    if pending == [] then (state, actions)
    else
      var filled := FilledTranche(pending[0], entryPrice, barIndex, stopLoss, target);
      OpenPending(Replace(state, filled), pending[1..], entryPrice, barIndex, stopLoss, target,
                  actions + [BracketAction(filled.role, stopLoss, filled.takeProfit)])
  }

  function OnEntryFilled(state: TradeState, entryPrice: real, barIndex: int, config: Config,
                         quantity: Option<real>, referenceClose: Option<real>): Outcome<TradeDecision, ManagerError>
  {
    if state.side.None? || state.pendingStop.None? then Raised(NoPendingSignal)
    else if PendingTranches(state.tranches) == [] then Raised(NothingAwaitsEntry)
    else
      var stamped := if quantity.None? then state
                     else StampQuantity(state, PendingTranches(state.tranches), quantity.value);
      var side, stopLoss := state.side.value, state.pendingStop.value;
      if EntryGapped(entryPrice, referenceClose, config) then Ok(AbortEntry(stamped, EntryGap))
      else if Risk(side, entryPrice, stopLoss) <= 0.0 then Ok(AbortEntry(stamped, InvalidRisk))
      else
        var (filled, actions) := OpenPending(stamped, PendingTranches(stamped.tranches), entryPrice, barIndex,
                                             stopLoss, Target(side, entryPrice, stopLoss, config.rrMult), []);
        Ok(TradeDecision(filled, actions))
  }

  // ---- Broker-side closure ---------------------------------------------------------------------

  function OnTrancheClosed(state: TradeState, role: TrancheRole, reason: CloseReason): TradeState {
    var tranche := FindTranche(state.tranches, role);
    if tranche.None? || tranche.value.status.Closed? then state
    else FlattenIfDone(Replace(state, CloseTranche(tranche.value, reason)))
  }

  // ---- The step-by-step forms ------------------------------------------------------------------

  method ApplySignalStepwise(state: TradeState, bar: Bar, signal: BarSignal)
    returns (next: TradeState, actions: seq<TradeAction>)
    ensures (next, actions) == ApplySignal(state, bar, signal)
  {
    next, actions := state, [];
    if SideOf(signal).None? { return; }
    var side := SideOf(signal).value;
    var live := LiveTranches(state.tranches);
    var i := 0;
    while i < |live|
      invariant 0 <= i <= |live|
      invariant CloseOpposing(next, live[i..], side, actions) == CloseOpposing(state, live, side, [])
    {
      if live[i].side != side {
        actions := actions + [CloseAction(live[i], Reversal)];
        next := Replace(next, CloseTranche(live[i], Reversal));
      }
      i := i + 1;
    }
    if !next.IsFlat() || StopOf(signal).None? { return; }
    actions := actions + [OpenAction(T1, side), OpenAction(T2, side)];
    next := PendingState(side, StopOf(signal).value, bar.close);
  }

  method OnBarCloseStepwise(state: TradeState, bar: Bar, signal: BarSignal, config: Config)
    returns (decision: TradeDecision)
    ensures decision == OnBarClose(state, bar, signal, config)
  {
    var actions: seq<TradeAction> := [];
    var (next, more) := ApplyBreakeven(state, bar, signal);
    actions := actions + more;
    var (next', more') := ApplyHullExit(next, signal, config);
    actions := actions + more';
    var final, last := ApplySignalStepwise(next', bar, signal);
    decision := TradeDecision(final, actions + last);
  }

  method AbortEntryStepwise(state: TradeState, reason: CloseReason) returns (decision: TradeDecision)
    ensures decision == AbortEntry(state, reason)
  {
    var updated, actions: seq<TradeAction> := state, [];
    var live := LiveTranches(state.tranches);
    var i := 0;
    while i < |live|
      invariant 0 <= i <= |live|
      invariant CloseAll(updated, live[i..], reason, actions) == CloseAll(state, live, reason, [])
    {
      actions := actions + [CloseAction(live[i], reason)];
      updated := Replace(updated, CloseTranche(live[i], reason));
      i := i + 1;
    }
    decision := TradeDecision(FlattenIfDone(updated), actions);
  }

  method StampQuantityStepwise(state: TradeState, pending: seq<Tranche>, quantity: real) returns (updated: TradeState)
    ensures updated == StampQuantity(state, pending, quantity)
  {
    updated := state;
    var i := 0;
    while i < |pending|
      invariant 0 <= i <= |pending|
      invariant StampQuantity(updated, pending[i..], quantity) == StampQuantity(state, pending, quantity)
    {
      updated := Replace(updated, pending[i].(quantity := Some(quantity)));
      i := i + 1;
    }
  }

  method OpenPendingStepwise(state: TradeState, pending: seq<Tranche>, entryPrice: real, barIndex: int,
                             stopLoss: real, target: real) returns (updated: TradeState, actions: seq<TradeAction>)
    ensures (updated, actions) == OpenPending(state, pending, entryPrice, barIndex, stopLoss, target, [])
  {
    updated, actions := state, [];
    var i := 0;
    while i < |pending|
      invariant 0 <= i <= |pending|
      invariant OpenPending(updated, pending[i..], entryPrice, barIndex, stopLoss, target, actions)
                == OpenPending(state, pending, entryPrice, barIndex, stopLoss, target, [])
    {
      var filled := FilledTranche(pending[i], entryPrice, barIndex, stopLoss, target);
      updated := Replace(updated, filled);
      actions := actions + [BracketAction(filled.role, stopLoss, filled.takeProfit)];
      i := i + 1;
    }
  }

  method OnEntryFilledStepwise(state: TradeState, entryPrice: real, barIndex: int, config: Config,
                               quantity: Option<real>, referenceClose: Option<real>)
    returns (result: Outcome<TradeDecision, ManagerError>)
    ensures result == OnEntryFilled(state, entryPrice, barIndex, config, quantity, referenceClose)
  {
    if state.side.None? || state.pendingStop.None? { return Raised(NoPendingSignal); }
    var side, stopLoss := state.side.value, state.pendingStop.value;
    var pending := PendingTranches(state.tranches);
    if pending == [] { return Raised(NothingAwaitsEntry); }
    var updated := state;
    if quantity.Some? {
      updated := StampQuantityStepwise(state, pending, quantity.value);
      pending := PendingTranches(updated.tranches);
    }
    if EntryGapped(entryPrice, referenceClose, config) {
      var aborted := AbortEntryStepwise(updated, EntryGap);
      return Ok(aborted);
    }
    if Risk(side, entryPrice, stopLoss) <= 0.0 {
      var aborted := AbortEntryStepwise(updated, InvalidRisk);
      return Ok(aborted);
    }
    var target := Target(side, entryPrice, stopLoss, config.rrMult);
    var final, actions := OpenPendingStepwise(updated, pending, entryPrice, barIndex, stopLoss, target);
    result := Ok(TradeDecision(final, actions));
  }
}
