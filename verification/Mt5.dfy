// What an MT5 return code becomes: a result, or a timeout when nobody knows whether the order arrived.

module Mt5 {
  import opened Prelude
  import opened OrderStates
  import opened Orders
  import opened ExecutionRules

  datatype Mt5Error = Mt5Ambiguous(retcode: int)

  const RETCODE_PLACED := 10008
  const RETCODE_DONE := 10009
  const RETCODE_DONE_PARTIAL := 10010
  const AMBIGUOUS_RETCODES: set<int> := {10011, 10012, 10028, 10029, 10031}

  /** The texts of the rejections the broker documents. */
  function RejectionText(retcode: int): Option<string> {
    match retcode
    case 10004 => Some("MT5_REQUOTE")
    case 10006 => Some("MT5_REJECT")
    case 10013 => Some("MT5_INVALID_REQUEST")
    case 10014 => Some("MT5_INVALID_VOLUME")
    case 10015 => Some("MT5_INVALID_PRICE")
    case 10016 => Some("MT5_INVALID_STOPS")
    case 10017 => Some("MT5_TRADE_DISABLED")
    case 10018 => Some("MT5_MARKET_CLOSED")
    case 10019 => Some("MT5_NO_MONEY")
    case 10020 => Some("MT5_PRICE_CHANGED")
    case 10021 => Some("MT5_PRICE_OFF")
    case 10022 => Some("MT5_INVALID_EXPIRATION")
    case 10024 => Some("MT5_TOO_MANY_REQUESTS")
    case 10026 => Some("MT5_AUTOTRADING_DISABLED_SERVER")
    case 10027 => Some("MT5_AUTOTRADING_DISABLED_CLIENT")
    case 10030 => Some("MT5_INVALID_FILL")
    case 10033 => Some("MT5_LIMIT_ORDERS")
    case 10034 => Some("MT5_LIMIT_VOLUME")
    case 10035 => Some("MT5_INVALID_ORDER")
    case 10036 => Some("MT5_POSITION_CLOSED")
    case 10038 => Some("MT5_CLOSE_VOLUME_EXCEEDED")
    case 10039 => Some("MT5_CLOSE_ORDER_EXISTS")
    case 10040 => Some("MT5_LIMIT_POSITIONS")
    case 10041 => Some("MT5_REJECT_CANCEL")
    case 10042 => Some("MT5_LONG_ONLY")
    case 10043 => Some("MT5_SHORT_ONLY")
    case 10044 => Some("MT5_CLOSE_ONLY")
    case 10045 => Some("MT5_FIFO_CLOSE")
    case _ => None
  }

  predicate IsAmbiguous(retcode: int) {
    retcode in AMBIGUOUS_RETCODES
  }

  function ResolveState(retcode: int, requested: real, filled: real): OrderState {
    if retcode == RETCODE_PLACED then Submitted
    else if retcode == RETCODE_DONE || retcode == RETCODE_DONE_PARTIAL then
      if filled <= 0.0 then Submitted else if filled >= requested then Filled else PartiallyFilled
    else Rejected
  }

  function IntText(n: int): string {
    if n < 0 then "-" + NatText(-n) else NatText(n)
  }

  /** Only a clean acceptance has no error code. */
  function ErrorCodeFor(retcode: int): Option<string> {
    if retcode == RETCODE_DONE || retcode == RETCODE_PLACED then None
    else if retcode == RETCODE_DONE_PARTIAL then Some("MT5_DONE_PARTIAL")
    else if RejectionText(retcode).Some? then RejectionText(retcode)
    else Some("MT5_RETCODE_" + IntText(retcode))
  }

  function BuildResult(key: Key, retcode: int, requested: real, filled: real, averagePrice: Option<real>,
                       brokerOrderId: Option<BrokerRef>, brokerRequestId: Option<BrokerRef>): Outcome<BrokerResult, Mt5Error>
  {
    if IsAmbiguous(retcode) then Raised(Mt5Ambiguous(retcode))
    else Ok(BrokerResult(key, brokerOrderId, ResolveState(retcode, requested, filled), filled,
                         if filled > 0.0 then averagePrice else None, brokerRequestId, ErrorCodeFor(retcode)))
  }

  /** The answers that prove the server took the order. */
  predicate Accepted(retcode: int) {
    retcode == RETCODE_PLACED || retcode == RETCODE_DONE || retcode == RETCODE_DONE_PARTIAL
  }

  /**
   * A return code raises exactly when it is ambiguous, and becomes a rejection exactly when it is
   * neither ambiguous nor an acceptance; so no ambiguous answer is ever reported as REJECTED. A fill is
   * complete exactly when the whole request was done, and an accepted order with no fill is SUBMITTED.
   * Every result can be saved on a QUEUED order, and carries the key, the references and the fill it was given.
   */
  lemma AmbiguityIsNeverRejection(key: Key, retcode: int, requested: real, filled: real, averagePrice: Option<real>,
                                  brokerOrderId: Option<BrokerRef>, brokerRequestId: Option<BrokerRef>)
    requires 0.0 < requested && 0.0 <= filled
    ensures var built := BuildResult(key, retcode, requested, filled, averagePrice, brokerOrderId, brokerRequestId);
            && (built.Raised? <==> retcode == 10011 || retcode == 10012 || retcode == 10028 || retcode == 10029 || retcode == 10031)
            && (built.Raised? <==> IsAmbiguous(retcode)) && (built.Raised? ==> built.error.retcode == retcode)
            && (Accepted(retcode) <==> retcode == 10008 || retcode == 10009 || retcode == 10010)
            && (built.Ok? && built.value.state.Submitted? <==> retcode == 10008 || (10009 <= retcode <= 10010 && filled == 0.0))
            && (built.Ok? && built.value.state.Rejected? <==> !IsAmbiguous(retcode) && !Accepted(retcode))
            && (built.Ok? && built.value.state.Filled? <==>
                  (retcode == RETCODE_DONE || retcode == RETCODE_DONE_PARTIAL) && requested <= filled)
            && (built.Ok? && built.value.state.PartiallyFilled? <==>
                  (retcode == RETCODE_DONE || retcode == RETCODE_DONE_PARTIAL) && 0.0 < filled < requested)
            && (built.Ok? ==>
                  && (built.value.state in Allowed(Queued) || built.value.state in Allowed(Submitted))
                  && built.value.clientOrderId == key && built.value.filledQuantity == filled
                  && built.value.brokerOrderId == brokerOrderId && built.value.brokerRequestId == brokerRequestId
                  && built.value.averagePrice == (if 0.0 < filled then averagePrice else None)
                  && (built.value.errorCode.None? <==> retcode == 10008 || retcode == 10009))
  {
    hide RejectionText;
  }

  /** The three groups of return codes do not overlap. */
  lemma CodeGroupsAreDisjoint(retcode: int)
    ensures RejectionText(retcode).Some? ==> !IsAmbiguous(retcode) && !Accepted(retcode)
    ensures Accepted(retcode) ==> !IsAmbiguous(retcode)
  {
  }

  /** What the execution service sees of a submission: an ambiguous code is one of its timeouts. */
  function SubmissionAnswer(built: Outcome<BrokerResult, Mt5Error>): Outcome<BrokerResult, ExecError> {
    match built
    case Raised(_) => Raised(TimedOut)
    case Ok(result) => Ok(result)
  }

  /**
   * An order sent to MT5 and answered with an ambiguous code ends as what a second lookup finds, or as
   * UNKNOWN; it is stored as REJECTED only when the lookup itself reports a rejection. An order answered
   * otherwise is stored as the code says, and never looked up again.
   */
  lemma AmbiguousSubmissionIsLookedUp(row: Row, script: BrokerScript, n: nat, retcode: int, filled: real, averagePrice: Option<real>,
                                      brokerOrderId: Option<BrokerRef>, brokerRequestId: Option<BrokerRef>)
    requires row.HasEvidence() && row.state.Queued? && row.intent.Valid() && 0.0 <= filled
    requires script.lookups(n) == Ok(None)
    requires script.submits(n + 1)
             == SubmissionAnswer(BuildResult(row.Key(), retcode, row.intent.quantity, filled, averagePrice, brokerOrderId, brokerRequestId))
    ensures var run, again := Execute(Some(row), script, n), script.lookups(n + 2);
            if IsAmbiguous(retcode) then
              && (again == Ok(None) ==> run.outcome == Ok(UnknownResult(row.Key())))
              && (run.outcome.Ok? && run.outcome.value.state.Rejected? ==> again == Ok(Some(run.outcome.value)))
            else
              && run.outcome.Ok? && |run.calls| == 2
              && (run.outcome.value.state.Rejected? <==> !Accepted(retcode))
              && run.row == Some(WithResult(row, run.outcome.value))
  {
    hide RejectionText, Submissions;
    AmbiguityIsNeverRejection(row.Key(), retcode, row.intent.quantity, filled, averagePrice, brokerOrderId, brokerRequestId);
    if IsAmbiguous(retcode) {
      TimeoutEndsLookedUpOrUnknown(row, script, n);
    }
  }
}
