// The order state machine: a table of allowed transitions and what follows from it along any path.

module OrderStates {
  import opened Prelude

  datatype OrderState =
    | Created
    | PendingApproval
    | Queued
    | Submitted
    | PartiallyFilled
    | Filled
    | Canceled
    | Rejected
    | Expired
    | Unknown

  datatype TransitionError = InvalidOrderTransition(current: OrderState, target: OrderState)

  function Allowed(state: OrderState): set<OrderState> {
    match state
    case Created => {PendingApproval, Queued, Rejected}
    case PendingApproval => {Queued, Rejected, Expired}
    case Queued => {Submitted, Rejected, Expired, Unknown}
    case Submitted => {PartiallyFilled, Filled, Canceled, Rejected, Unknown}
    case PartiallyFilled => {Filled, Canceled, Unknown}
    case Unknown => {Submitted, PartiallyFilled, Filled, Canceled, Rejected}
    case Filled => {}
    case Canceled => {}
    case Rejected => {}
    case Expired => {}
  }

  function Transition(current: OrderState, target: OrderState): Outcome<OrderState, TransitionError> {
    if target in Allowed(current) then Ok(target) else Raised(InvalidOrderTransition(current, target))
  }

  predicate IsTerminal(state: OrderState) {
    state.Filled? || state.Canceled? || state.Rejected? || state.Expired?
  }

  /** The table read backwards: from where a state may be entered. */
  lemma EnteredFrom(state: OrderState, target: OrderState)
    ensures Transition(state, target).Ok? <==>
              match target
              case Created => false
              case PendingApproval => state.Created?
              case Queued => state.Created? || state.PendingApproval?
              case Submitted => state.Queued? || state.Unknown?
              case PartiallyFilled => state.Submitted? || state.Unknown?
              case Filled => state.Submitted? || state.PartiallyFilled? || state.Unknown?
              case Canceled => state.Submitted? || state.PartiallyFilled? || state.Unknown?
              case Rejected => !IsTerminal(state) && !state.PartiallyFilled?
              case Expired => state.PendingApproval? || state.Queued?
              case Unknown => state.Queued? || state.Submitted? || state.PartiallyFilled?
    ensures if Transition(state, target).Ok? then Transition(state, target).value == target
            else Transition(state, target).error.current == state && Transition(state, target).error.target == target
  {
  }

  /** Not yet handed to a broker. */
  predicate IsBeforeBroker(state: OrderState) {
    state.Created? || state.PendingApproval? || state.Queued?
  }

  /** A history every step of which the table allows. */
  predicate AllowedPath(path: seq<OrderState>) {
    forall i :: 0 <= i < |path| - 1 ==> path[i + 1] in Allowed(path[i])
  }

  /** How far an order has come before a broker sees it; no allowed step lowers it. */
  function Stage(state: OrderState): nat {
    match state
    case Created => 0
    case PendingApproval => 1
    case Queued => 2
    case _ => 3
  }

  lemma {:induction false} StagesOnlyRise(path: seq<OrderState>, i: nat, j: nat)
    requires AllowedPath(path) && i < j < |path|
    ensures Stage(path[i]) <= Stage(path[j]) && (Stage(path[i]) < 3 ==> Stage(path[i]) < Stage(path[j]))
    decreases j
  {
    assert path[j - 1 + 1] in Allowed(path[j - 1]);
    if i < j - 1 { StagesOnlyRise(path, i, j - 1); }
  }

  /** On every allowed path a terminal state is the last one. */
  lemma TerminalStatesAbsorb(path: seq<OrderState>, i: nat)
    requires AllowedPath(path) && i < |path| && IsTerminal(path[i])
    ensures i == |path| - 1
  {
    assert i < |path| - 1 ==> path[i + 1] in Allowed(path[i]);
  }

  /** On every allowed path QUEUED is entered at most once, and nothing before it ever comes after it. */
  lemma QueuedIsNeverReentered(path: seq<OrderState>, i: nat, j: nat)
    requires AllowedPath(path) && i < j < |path| && path[i].Queued?
    ensures !IsBeforeBroker(path[j])
  {
    StagesOnlyRise(path, i, j);
  }

  /** The only way an order can revisit a state is through UNKNOWN. */
  lemma {:induction false} OnlyUnknownAllowsReturn(path: seq<OrderState>, i: nat, j: nat)
    requires AllowedPath(path) && i < j < |path| && path[i] == path[j]
    ensures exists k :: i <= k < j && path[k].Unknown?
  {
    if forall k :: i <= k < j ==> !path[k].Unknown? {
      RanksRise(path, i, j);
    }
  }

  function Rank(state: OrderState): nat {
    match state
    case Created => 0
    case PendingApproval => 1
    case Queued => 2
    case Submitted => 3
    case PartiallyFilled => 4
    case _ => 5
  }

  lemma {:induction false} RanksRise(path: seq<OrderState>, i: nat, j: nat)
    requires AllowedPath(path) && i < j < |path|
    requires forall k :: i <= k < j ==> !path[k].Unknown?
    ensures Rank(path[i]) < Rank(path[j])
    decreases j
  {
    assert path[j - 1 + 1] in Allowed(path[j - 1]);
    if i < j - 1 { RanksRise(path, i, j - 1); }
  }
}
