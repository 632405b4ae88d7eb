// Executing a stored order: lock the row, look the order up, submit it, save the answer, unlock.
// The methods follow the source step by step and are proved to do what `Execute` says.

module ExecutionService {
  import opened Prelude
  import opened OrderStates
  import opened Orders
  import opened ExecutionRules

  /** The broker behind its port: any answers at all, and a log of the calls. */
  class BrokerPort {
    const script: BrokerScript
    var calls: seq<BrokerCall>

    constructor (script: BrokerScript)
      ensures this.script == script && calls == []
    {
      this.script := script;
      calls := [];
    }

    method LookupByClientOrderId(accountId: Id, key: Key) returns (answer: Outcome<Option<BrokerResult>, ExecError>)
      modifies this
      ensures answer == script.lookups(|old(calls)|)
      ensures calls == old(calls) + [Lookup(accountId, key)]
    {
      answer := script.lookups(|calls|);
      calls := calls + [Lookup(accountId, key)];
    }

    method SubmitOrder(intent: Intent) returns (answer: Outcome<BrokerResult, ExecError>)
      modifies this
      ensures answer == script.submits(|old(calls)|)
      ensures calls == old(calls) + [Submit(intent)]
    {
      answer := script.submits(|calls|);
      calls := calls + [Submit(intent)];
    }
  }

  /** A row of the audit trail; its id is the decision's own. */
  datatype AuditEvent = AuditEvent(eventType: string, traceId: Id, payload: string)

  /** One database session over the orders table: committed rows, the lock it holds, its uncommitted copy. */
  class OrderRepository {
    var rows: map<Id, Row>
    var locked: Option<Id>
    var draft: Option<Row>

    /** The intents for which an event of the execution topic was written, in order. */
    var announced: seq<Id>

    /** The audit trail, by decision. */
    var audits: map<Id, AuditEvent>

    predicate Valid()
      reads this
    {
      && (draft.Some? <==> locked.Some?)
      && (locked.Some? ==> locked.value in rows)
    }

    predicate Holds(intentId: Id)
      reads this
    {
      locked == Some(intentId) && intentId in rows && draft == Some(rows[intentId])
    }

    predicate Idle()
      reads this
    {
      locked.None? && draft.None?
    }

    constructor (rows: map<Id, Row>)
      ensures this.rows == rows && Idle() && announced == [] && audits == map[]
    {
      this.rows := rows;
      audits := map[];
      announced := [];
      locked := None;
      draft := None;
    }

    /** What the constraints of the three tables leave room for: a fresh intent, an unused key, two fresh decisions. */
    predicate HasRoomFor(intent: Intent, riskDecisionId: Id, approvalId: Id)
      reads this
    {
      && intent.intentId !in rows && (forall id | id in rows.Keys :: rows[id].Key() != intent.idempotencyKey)
      && riskDecisionId != approvalId && riskDecisionId !in audits && approvalId !in audits
    }

    /**
     * Stores a new intent with its two audit rows and, exactly when it is queued, its event, in one
     * transaction; a key that any account already used, or a decision already on record, stores nothing.
     */
    method CreateWithOutbox(intent: Intent, state: OrderState, riskDecisionId: Id, approvalId: Id,
                            riskSnapshot: string, approvalSnapshot: string) returns (stored: bool)
      requires Idle()
      modifies this`rows, this`announced, this`audits
      ensures stored <==>
                && intent.intentId !in old(rows) && (forall id :: id in old(rows) ==> old(rows)[id].Key() != intent.idempotencyKey)
                && riskDecisionId != approvalId && riskDecisionId !in old(audits) && approvalId !in old(audits)
      ensures rows == if stored then old(rows)[intent.intentId := StoredRow(intent, state, riskDecisionId, approvalId)] else old(rows)
      ensures audits == if stored then
                          old(audits)[riskDecisionId := AuditEvent("RISK_DECIDED", intent.signalId, riskSnapshot)]
                                     [approvalId := AuditEvent("APPROVAL_DECIDED", intent.signalId, approvalSnapshot)]
                        else old(audits)
      ensures announced == old(announced) + if stored && state.Queued? then [intent.intentId] else []
    {
      stored := HasRoomFor(intent, riskDecisionId, approvalId);
      if stored {
        rows := rows[intent.intentId := StoredRow(intent, state, riskDecisionId, approvalId)];
        audits := audits[riskDecisionId := AuditEvent("RISK_DECIDED", intent.signalId, riskSnapshot)];
        audits := audits[approvalId := AuditEvent("APPROVAL_DECIDED", intent.signalId, approvalSnapshot)];
        if state.Queued? {
          announced := announced + [intent.intentId];
        }
      }
    }

    method LockForExecution(intentId: Id) returns (record: Outcome<Row, ExecError>)
      requires Idle() || Holds(intentId)
      modifies this`locked, this`draft
      ensures intentId in rows ==> Holds(intentId) && record == Ok(rows[intentId])
      ensures intentId !in rows ==> Idle() && record == Raised(LookupFailure)
    {
      if intentId !in rows {
        return Raised(LookupFailure);
      }
      locked := Some(intentId);
      draft := Some(rows[intentId]);
      record := Ok(rows[intentId]);
    }

    /**
     * Commits every result field at once, or rolls back to the row as it was; the lock is gone either way.
     */
    method SaveBrokerResult(intentId: Id, result: BrokerResult) returns (saved: Outcome<(), ExecError>)
      requires Idle() || Holds(intentId)
      modifies this`rows, this`locked, this`draft
      ensures Idle()
      ensures intentId !in old(rows) ==> saved == Raised(LookupFailure) && rows == old(rows)
      ensures intentId in old(rows) ==>
                match SaveResult(old(rows)[intentId], result)
                case Raised(error) => saved == Raised(error) && rows == old(rows)
                case Ok(row) => saved.Ok? && rows == old(rows)[intentId := row]
    {
      var error := None;
      var record := LockForExecution(intentId);
      if record.Raised? {
        error := Some(record.error);
      } else if result.clientOrderId != record.value.Key() {
        error := Some(KeyMismatch);
      } else {
        if record.value.state.Queued?
           && (result.state.PartiallyFilled? || result.state.Filled? || result.state.Canceled?) {
          var passing := Transition(draft.value.state, Submitted);
          if passing.Raised? {
            error := Some(InvalidTransition);
          } else {
            draft := Some(draft.value.(state := passing.value));
          }
        }
        if error.None? {
          var next := Transition(draft.value.state, result.state);
          if next.Raised? {
            error := Some(InvalidTransition);
          } else {
            draft := Some(draft.value.(state := next.value));
            draft := Some(draft.value.(brokerOrderId := result.brokerOrderId));
            draft := Some(draft.value.(filledQuantity := result.filledQuantity));
            draft := Some(draft.value.(averagePrice := result.averagePrice));
            draft := Some(draft.value.(brokerRequestId := result.brokerRequestId));
            draft := Some(draft.value.(errorCode := result.errorCode));
          }
        }
      }
      if error.None? {
        Commit();
        saved := Ok(());
      } else {
        Rollback();
        saved := Raised(error.value);
      }
    }

    method Commit()
      requires Valid() && locked.Some?
      modifies this`rows, this`locked, this`draft
      ensures Idle() && rows == old(rows)[old(locked).value := old(draft).value]
    {
      rows := rows[locked.value := draft.value];
      locked := None;
      draft := None;
    }

    method Rollback()
      modifies this`locked, this`draft
      ensures Idle()
    {
      locked := None;
      draft := None;
    }

    method ReleaseExecutionLock()
      modifies this`locked, this`draft
      ensures Idle()
    {
      Rollback();
    }
  }

  function StoredAt(rows: map<Id, Row>, intentId: Id): Option<Row> {
    if intentId in rows then Some(rows[intentId]) else None
  }

  /** The rows after an execution of `intentId`. */
  function RowsAfter(rows: map<Id, Row>, intentId: Id, run: Execution): map<Id, Row> {
    if run.row.Some? then rows[intentId := run.row.value] else rows
  }

  class Service {
    const repository: OrderRepository
    const broker: BrokerPort

    constructor (repository: OrderRepository, broker: BrokerPort)
      ensures this.repository == repository && this.broker == broker
    {
      this.repository := repository;
      this.broker := broker;
    }

    /** Every way out of an execution, by value or by exception, leaves the row unlocked. */
    method Run(intentId: Id) returns (outcome: Outcome<BrokerResult, ExecError>)
      requires repository.Idle()
      modifies repository`rows, repository`locked, repository`draft, broker
      ensures repository.Idle()
      ensures var run := Execute(StoredAt(old(repository.rows), intentId), broker.script, |old(broker.calls)|);
              && outcome == run.outcome
              && broker.calls == old(broker.calls) + run.calls
              && repository.rows == RowsAfter(old(repository.rows), intentId, run)
    {
      hide SavedState;
      var persisted;
      outcome, persisted := Attempt(intentId);
      if !persisted {
        repository.ReleaseExecutionLock();
      }
    }

    /** The body of the try block; `persisted` is the flag its finally block reads. */
    method Attempt(intentId: Id) returns (outcome: Outcome<BrokerResult, ExecError>, persisted: bool)
      requires repository.Idle()
      modifies repository`rows, repository`locked, repository`draft, broker
      ensures persisted ==> repository.Idle()
      ensures var run := Execute(StoredAt(old(repository.rows), intentId), broker.script, |old(broker.calls)|);
              && outcome == run.outcome
              && broker.calls == old(broker.calls) + run.calls
              && repository.rows == RowsAfter(old(repository.rows), intentId, run)
    {
      hide SavedState;
      persisted := false;
      ghost var before := broker.calls;
      var record := repository.LockForExecution(intentId);
      if record.Raised? {
        return Raised(record.error), false;
      }
      var row := record.value;
      if row.riskDecisionId.None? || row.approvalId.None? {
        return Raised(PermissionDenied), false;
      }
      if !row.state.Queued? {
        return Ok(row.AsBrokerResult()), false;
      }
      var read := row.AsDomain();
      if read.None? {
        return Raised(InvalidIntent), false;
      }
      var intent := read.value;
      var known := broker.LookupByClientOrderId(intent.accountId, intent.idempotencyKey);
      if known.Raised? {
        return Raised(known.error), false;
      }
      var answer;
      if known.value.Some? {
        answer := ValidateIdentity(intent.idempotencyKey, known.value.value);
      } else {
        answer := SubmitAndSettle(intent);
      }
      if answer.Raised? {
        return Raised(answer.error), false;
      }
      var saved := repository.SaveBrokerResult(intentId, answer.value);
      if saved.Raised? {
        return Raised(saved.error), false;
      }
      outcome, persisted := Ok(answer.value), true;
    }

    /** Submits, and looks the order up again when the submission times out. */
    method SubmitAndSettle(intent: Intent) returns (answer: Outcome<BrokerResult, ExecError>)
      modifies broker
      ensures var key, n, before, script := intent.idempotencyKey, |old(broker.calls)|, old(broker.calls), broker.script;
              if script.submits(n) == Raised(TimedOut) then
                && answer == Found(key, script.lookups(n + 1), UnknownResult(key))
                && broker.calls == before + [Submit(intent), Lookup(intent.accountId, key)]
              else
                answer == Validated(key, script.submits(n)) && broker.calls == before + [Submit(intent)]
    {
      var key := intent.idempotencyKey;
      var submitted := broker.SubmitOrder(intent);
      if submitted.Ok? {
        return ValidateIdentity(key, submitted.value);
      }
      if submitted.error != TimedOut {
        return Raised(submitted.error);
      }
      var known := broker.LookupByClientOrderId(intent.accountId, key);
      if known.Raised? {
        return Raised(known.error);
      }
      answer := if known.value.Some? then ValidateIdentity(key, known.value.value) else Ok(UnknownResult(key));
    }
  }
}
