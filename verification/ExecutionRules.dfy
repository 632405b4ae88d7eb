// What executing one stored order means, as a function of the stored row and the broker's answers.

module ExecutionRules {
  import opened Prelude
  import opened OrderStates
  import opened Orders

  /** What escapes from an execution, told apart as far as the callers tell it apart. */
  datatype ExecError = LookupFailure | PermissionDenied | TimedOut | InvalidTransition | KeyMismatch | InvalidIntent | Other

  /** The errors the worker takes as final. */
  predicate IsTerminalError(error: ExecError) {
    error.LookupFailure? || error.PermissionDenied?
  }

  datatype BrokerCall = Lookup(account: Id, key: Key) | Submit(intent: Intent)

  /** The broker's behaviour: what it answers to the n-th call made through the port. */
  datatype BrokerScript = BrokerScript(
    lookups: nat -> Outcome<Option<BrokerResult>, ExecError>,
    submits: nat -> Outcome<BrokerResult, ExecError>
  )

  function ValidateIdentity(key: Key, result: BrokerResult): Outcome<BrokerResult, ExecError> {
    if result.clientOrderId != key then Raised(KeyMismatch) else Ok(result)
  }

  /** A queued order that is found traded passes through SUBMITTED on its way. */
  predicate NeedsSubmittedFirst(current: OrderState, target: OrderState) {
    current.Queued? && (target.PartiallyFilled? || target.Filled? || target.Canceled?)
  }

  function SavedState(current: OrderState, target: OrderState): Outcome<OrderState, ExecError> {
    var from := if NeedsSubmittedFirst(current, target) then Submitted else current;
    if Transition(from, target).Ok? then Ok(target) else Raised(InvalidTransition)
  }

  /** The row with every result column taken from the broker's answer. */
  function WithResult(row: Row, result: BrokerResult): Row {
    row.(state := result.state, brokerOrderId := result.brokerOrderId, filledQuantity := result.filledQuantity,
         averagePrice := result.averagePrice, brokerRequestId := result.brokerRequestId, errorCode := result.errorCode)
  }

  function SaveResult(row: Row, result: BrokerResult): Outcome<Row, ExecError> {
    if result.clientOrderId != row.Key() then Raised(KeyMismatch)
    else
      match SavedState(row.state, result.state)
      case Raised(error) => Raised(error)
      case Ok(_) => Ok(WithResult(row, result))
  }

  function UnknownResult(key: Key): BrokerResult {
    BrokerResult(key, None, Unknown, 0.0, None, None, Some("AMBIGUOUS_TIMEOUT"))
  }

  // ---- One execution -----------------------------------------------------------------------------------------

  /** What an execution returns or raises, which calls it made, and the row it leaves committed. */
  datatype Execution = Execution(outcome: Outcome<BrokerResult, ExecError>, calls: seq<BrokerCall>, row: Option<Row>)

  function Conclude(row: Row, answer: Outcome<BrokerResult, ExecError>, calls: seq<BrokerCall>): Execution {
    match answer
    case Raised(error) => Execution(Raised(error), calls, Some(row))
    case Ok(result) =>
      match SaveResult(row, result)
      case Raised(error) => Execution(Raised(error), calls, Some(row))
      case Ok(saved) => Execution(Ok(result), calls, Some(saved))
  }

  function Validated(key: Key, answer: Outcome<BrokerResult, ExecError>): Outcome<BrokerResult, ExecError> {
    match answer
    case Raised(error) => Raised(error)
    case Ok(result) => ValidateIdentity(key, result)
  }

  /** What a lookup settles; `absent` stands for the order the broker does not know. */
  function Found(key: Key, answer: Outcome<Option<BrokerResult>, ExecError>, absent: BrokerResult): Outcome<BrokerResult, ExecError> {
    match answer
    case Raised(error) => Raised(error)
    case Ok(known) => if known.Some? then ValidateIdentity(key, known.value) else Ok(absent)
  }

  function Resubmit(row: Row, intent: Intent, script: BrokerScript, n: nat): Execution {
    var key := intent.idempotencyKey;
    var look, send := Lookup(intent.accountId, key), Submit(intent);
    var sent := script.submits(n + 1);
    if sent == Raised(TimedOut) then
      Conclude(row, Found(key, script.lookups(n + 2), UnknownResult(key)), [look, send, look])
    else Conclude(row, Validated(key, sent), [look, send])
  }

  /** Executing a stored order when `n` broker calls were made before. */
  function Execute(stored: Option<Row>, script: BrokerScript, n: nat): Execution {
    if stored.None? then Execution(Raised(LookupFailure), [], None)
    else
      var row := stored.value;
      if !row.HasEvidence() then Execution(Raised(PermissionDenied), [], stored)
      else if !row.state.Queued? then Execution(Ok(row.AsBrokerResult()), [], stored)
      else if row.AsDomain().None? then Execution(Raised(InvalidIntent), [], stored)
      else
        var intent := row.AsDomain().value;
        var look := Lookup(intent.accountId, intent.idempotencyKey);
        match script.lookups(n)
        case Raised(error) => Execution(Raised(error), [look], stored)
        case Ok(Some(known)) => Conclude(row, ValidateIdentity(intent.idempotencyKey, known), [look])
        case Ok(None) => Resubmit(row, intent, script, n)
  }

  // ---- What an execution promises ----------------------------------------------------------------------------

  /** The history a save writes: the states passed through, oldest first. */
  function SavePath(current: OrderState, target: OrderState): seq<OrderState> {
    if NeedsSubmittedFirst(current, target) then [current, Submitted, target] else [current, target]
  }

  /**
   * A save either commits every result column at a state one or two allowed steps away, or changes
   * nothing; the SUBMITTED it passes through is never committed unless the broker itself said so.
   */
  lemma SaveIsAllOrNothing(row: Row, result: BrokerResult)
    ensures var saved := SaveResult(row, result);
            && (saved.Ok? <==> result.clientOrderId == row.Key() && AllowedPath(SavePath(row.state, result.state)))
            && (saved.Ok? ==>
                  && saved.value.AsBrokerResult() == result
                  && saved.value.intent == row.intent
                  && saved.value.riskDecisionId == row.riskDecisionId && saved.value.approvalId == row.approvalId
                  && (saved.value.state.Submitted? <==> result.state.Submitted?))
  {
    var path := SavePath(row.state, result.state);
    if AllowedPath(path) {
      assert path[1] in Allowed(path[0]) && path[|path| - 1] in Allowed(path[|path| - 2]);
    }
  }

  function Submissions(calls: seq<BrokerCall>): nat {
    if calls == [] then 0 else Submissions(calls[1..]) + if calls[0].Submit? then 1 else 0
  }

  lemma CountCalls(look: BrokerCall, send: BrokerCall)
    requires look.Lookup? && send.Submit?
    ensures Submissions([]) == 0 && Submissions([look]) == 0
    ensures Submissions([look, send]) == 1 && Submissions([look, send, look]) == 1
  {
    assert [look, send, look][1..] == [send, look] && [look, send][1..] == [send];
    assert [send, look][1..] == [look] && [look][1..] == [] && [send][1..] == [];
    assert Submissions([look]) == 0 && Submissions([send]) == 1 && Submissions([send, look]) == 1;
  }

  /**
   * One execution submits at most once, and only a queued order with evidence whose lookup found
   * nothing. It changes the row exactly when it returns a fresh result, which is then the row's own;
   * everything that raises leaves the row as it was.
   */
  lemma ExecutionIsSafe(stored: Option<Row>, script: BrokerScript, n: nat)
    ensures var run := Execute(stored, script, n);
            && Submissions(run.calls) <= 1
            && (Submissions(run.calls) == 1 ==>
                  && stored.Some? && stored.value.HasEvidence() && stored.value.state.Queued? && stored.value.intent.Valid()
                  && script.lookups(n) == Ok(None)
                  && run.calls[0] == Lookup(stored.value.intent.accountId, stored.value.Key())
                  && run.calls[1] == Submit(stored.value.intent))
            && (run.outcome.Raised? ==> run.row == stored)
            && (run.outcome.Ok? ==>
                  && stored.Some? && run.row.Some?
                  && run.outcome.value == run.row.value.AsBrokerResult()
                  && run.row.value.intent == stored.value.intent
                  && run.row.value.HasEvidence() && !run.row.value.state.Queued?
                  && (!stored.value.state.Queued? ==> run.row == stored && run.calls == [])
                  && (stored.value.state.Queued? ==>
                        AllowedPath(SavePath(Queued, run.row.value.state)) && run.row == Some(WithResult(stored.value, run.outcome.value))))
  {
    if stored.Some? && stored.value.AsDomain().Some? {
      var intent := stored.value.AsDomain().value;
      CountCalls(Lookup(intent.accountId, intent.idempotencyKey), Submit(intent));
    }
    hide Submissions;
    if stored.Some? && stored.value.state.Queued? && Execute(stored, script, n).outcome.Ok? {
      ConcludeSaves(stored, script, n);
    }
  }

  lemma ConcludeSaves(stored: Option<Row>, script: BrokerScript, n: nat)
    requires stored.Some? && stored.value.state.Queued? && Execute(stored, script, n).outcome.Ok?
    ensures stored.value.HasEvidence()
    ensures var run := Execute(stored, script, n);
            && run.row == Some(WithResult(stored.value, run.outcome.value)) && run.outcome.value.clientOrderId == stored.value.Key()
            && AllowedPath(SavePath(Queued, run.outcome.value.state)) && !run.outcome.value.state.Queued?
  {
    SaveIsAllOrNothing(stored.value, Execute(stored, script, n).outcome.value);
  }

  /** Executing again makes no broker call and returns the identical result, whatever the broker would say. */
  lemma ReexecutionIsARead(stored: Option<Row>, script: BrokerScript, n: nat, later: BrokerScript, m: nat)
    requires Execute(stored, script, n).outcome.Ok?
    ensures var first := Execute(stored, script, n);
            Execute(first.row, later, m) == Execution(first.outcome, [], first.row)
  {
    ExecutionIsSafe(stored, script, n);
  }

  /** A queued order accepts every result but one that says it has not reached a broker. */
  lemma QueuedAccepts(target: OrderState)
    ensures AllowedPath(SavePath(Queued, target)) <==> !IsBeforeBroker(target)
  {
    var path := SavePath(Queued, target);
    if AllowedPath(path) { assert path[1] in Allowed(path[0]) && path[|path| - 1] in Allowed(path[|path| - 2]); }
  }

  /**
   * How an answer that names a result ends an execution: refused when it is for another key or says the
   * order has not reached a broker, else returned as it is and stored field for field, intent and evidence kept.
   */
  predicate EndsWith(row: Row, run: Execution, result: BrokerResult, calls: seq<BrokerCall>) {
    run ==
    if result.clientOrderId != row.intent.idempotencyKey then Execution(Raised(KeyMismatch), calls, Some(row))
    else if result.state.Created? || result.state.PendingApproval? || result.state.Queued? then
      Execution(Raised(InvalidTransition), calls, Some(row))
    else
      Execution(Ok(result), calls,
                Some(Row(row.intent, result.state, result.brokerOrderId, result.filledQuantity, result.averagePrice,
                         result.brokerRequestId, result.errorCode, row.riskDecisionId, row.approvalId)))
  }

  lemma ConcludesWith(row: Row, result: BrokerResult, calls: seq<BrokerCall>)
    requires row.state.Queued?
    ensures EndsWith(row, Conclude(row, ValidateIdentity(row.Key(), result), calls), result, calls)
  {
    SaveIsAllOrNothing(row, result);
    QueuedAccepts(result.state);
    var run := Conclude(row, ValidateIdentity(row.Key(), result), calls);
    assert result.clientOrderId == row.Key() && SaveResult(row, result).Raised? ==> SaveResult(row, result).error.InvalidTransition?;
  }

  /** A row that is not executed: missing, without evidence, past QUEUED, or not readable as an intent, in this order. */
  lemma NothingIsSent(stored: Option<Row>, script: BrokerScript, n: nat)
    requires stored.None? || stored.value.riskDecisionId.None? || stored.value.approvalId.None?
             || stored.value.state != Queued || !stored.value.intent.Valid()
    ensures var run := Execute(stored, script, n);
            && run.calls == [] && run.row == stored
            && run.outcome ==
               if stored.None? then Raised(LookupFailure)
               else if stored.value.riskDecisionId.None? || stored.value.approvalId.None? then Raised(PermissionDenied)
               else if stored.value.state != Queued then
                 var row := stored.value;
                 Ok(BrokerResult(row.intent.idempotencyKey, row.brokerOrderId, row.state, row.filledQuantity, row.averagePrice,
                                 row.brokerRequestId, row.errorCode))
               else Raised(InvalidIntent)
  {
  }

  /**
   * What an executed row ends as, answer by answer. A lookup that finds the order settles it without a
   * submission; otherwise the intent is submitted once, and its answer settles it. After a timeout the
   * second lookup settles it, or the order is stored as UNKNOWN. Any error raised by the broker, other than
   * that timeout, escapes and leaves the row as it was.
   */
  lemma AnswersDecideExactly(row: Row, script: BrokerScript, n: nat)
    requires row.riskDecisionId.Some? && row.approvalId.Some? && row.state == Queued && row.intent.Valid()
    ensures var run, key := Execute(Some(row), script, n), row.intent.idempotencyKey;
            var look, send := Lookup(row.intent.accountId, key), Submit(row.intent);
            match script.lookups(n)
            case Raised(error) => run == Execution(Raised(error), [look], Some(row))
            case Ok(Some(known)) => EndsWith(row, run, known, [look])
            case Ok(None) =>
              match script.submits(n + 1)
              case Ok(result) => EndsWith(row, run, result, [look, send])
              case Raised(error) =>
                if error != TimedOut then run == Execution(Raised(error), [look, send], Some(row))
                else
                  match script.lookups(n + 2)
                  case Raised(late) => run == Execution(Raised(late), [look, send, look], Some(row))
                  case Ok(Some(known)) => EndsWith(row, run, known, [look, send, look])
                  case Ok(None) =>
                    EndsWith(row, run, BrokerResult(key, None, Unknown, 0.0, None, None, Some("AMBIGUOUS_TIMEOUT")), [look, send, look])
  {
    hide Conclude, EndsWith, ValidateIdentity;
    var key := row.intent.idempotencyKey;
    var look, send := Lookup(row.intent.accountId, key), Submit(row.intent);
    RaisedConcludes(row);
    forall result, calls ensures EndsWith(row, Conclude(row, ValidateIdentity(key, result), calls), result, calls) {
      ConcludesWith(row, result, calls);
    }
    ValidatesUnknown(key);
  }

  lemma RaisedConcludes(row: Row)
    ensures forall error, calls :: Conclude(row, Raised(error), calls) == Execution(Raised(error), calls, Some(row))
  {
  }

  lemma ValidatesUnknown(key: Key)
    ensures ValidateIdentity(key, UnknownResult(key)) == Ok(UnknownResult(key))
  {
  }

  /**
   * A submission that times out ends as exactly what the second lookup finds, or as UNKNOWN when it
   * finds nothing: never as a rejection of this program's making, and never as a second submission.
   */
  lemma TimeoutEndsLookedUpOrUnknown(row: Row, script: BrokerScript, n: nat)
    requires row.HasEvidence() && row.state.Queued? && row.intent.Valid()
    requires script.lookups(n) == Ok(None) && script.submits(n + 1) == Raised(TimedOut)
    ensures var run, again := Execute(Some(row), script, n), script.lookups(n + 2);
            && Submissions(run.calls) == 1 && |run.calls| == 3 && run.calls[2].Lookup?
            && (again == Ok(None) ==> run.outcome == Ok(UnknownResult(row.Key())) && run.row.value.state.Unknown?)
            && (again.Ok? && again.value.Some? && run.outcome.Ok? ==> run.outcome == Ok(again.value.value))
            && (again.Raised? ==> run.outcome == Raised(again.error) && run.row == Some(row))
            && (run.outcome.Ok? && run.outcome.value.state.Rejected? ==> again.Ok? && again.value == Some(run.outcome.value))
  {
    CountCalls(Lookup(row.intent.accountId, row.Key()), Submit(row.intent));
    SaveIsAllOrNothing(row, UnknownResult(row.Key()));
    assert AllowedPath([Queued, Unknown]);
  }

  /** The broker's answer to its n-th call was one of the errors the worker takes as final. */
  predicate FinalAnswer(script: BrokerScript, call: BrokerCall, n: nat) {
    if call.Lookup? then script.lookups(n).Raised? && IsTerminalError(script.lookups(n).error)
    else script.submits(n).Raised? && IsTerminalError(script.submits(n).error)
  }

  /** The order needs no execution: it is not stored, lacks its evidence, or has left QUEUED. */
  predicate NeedsNothing(stored: Option<Row>) {
    stored.None? || !stored.value.HasEvidence() || !stored.value.state.Queued?
  }

  /**
   * An execution that returns, or raises a final error, leaves nothing to do, unless it was the broker
   * that raised the final error: then its last call says so, and the order is still queued.
   */
  lemma ExecutionSettlesUnlessBrokerIsFinal(stored: Option<Row>, script: BrokerScript, n: nat)
    ensures var run := Execute(stored, script, n);
            run.outcome.Ok? || IsTerminalError(run.outcome.error) ==>
              (NeedsNothing(run.row)
               <==> !(run.calls != [] && FinalAnswer(script, run.calls[|run.calls| - 1], n + |run.calls| - 1)))
  {
    ExecutionIsSafe(stored, script, n);
    hide Submissions, AllowedPath;
  }

  /**
   * A freshly stored intent reaches the broker exactly when it is a limit order. The row of a market
   * order cannot be read back, and the error is not one the worker takes as final, so it stays queued.
   */
  lemma StoredIntentReachesBrokerIff(intent: Intent, riskDecisionId: Id, approvalId: Id, script: BrokerScript, n: nat)
    requires intent.Valid()
    ensures var stored := Some(StoredRow(intent, Queued, riskDecisionId, approvalId));
            var run := Execute(stored, script, n);
            && (run.calls != [] <==> intent.orderType.LimitOrder?)
            && (intent.orderType.MarketOrder? ==>
                  run.outcome == Raised(InvalidIntent) && !IsTerminalError(run.outcome.error) && run.row == stored)
  {
    StoredIntentReadsBackIff(intent, Queued, riskDecisionId, approvalId);
    hide SaveResult;
  }
}
