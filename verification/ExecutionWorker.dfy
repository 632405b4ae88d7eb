// The worker that drains the outbox: claim an event, execute its intent, publish or roll back.

module ExecutionWorker {
  import opened Prelude
  import opened OrderStates
  import opened Orders
  import opened ExecutionRules
  import opened ExecutionService

  const EXECUTION_TOPIC := "execution.intent.ready"

  /** The payload's intent id as stored: absent, not a string, not an identifier, or usable. */
  datatype Payload = NoIntentId | NotText | Malformed(text: string) | IntentId(id: Id)

  datatype Event = Event(topic: string, payload: Payload, published: bool)

  function ReadIntentId(event: Event): Option<Id> {
    if event.payload.IntentId? then Some(event.payload.id) else None
  }

  predicate Claimable(event: Event, topic: Option<string>) {
    !event.published && (topic.Some? ==> event.topic == topic.value)
  }

  /** One database session over the outbox table, oldest event first; `lockedElsewhere` are rows other consumers hold. */
  class OutboxRepository {
    var events: seq<Event>
    var lockedElsewhere: set<nat>
    var claimed: seq<nat>

    /** Up to `limit` unpublished events of the topic, oldest first, skipping rows another consumer holds. */
    method Claim(limit: nat, topic: Option<string>) returns (found: seq<nat>)
      modifies this`claimed
      ensures claimed == found && |found| <= limit
      ensures forall k :: 0 <= k < |found| ==>
                found[k] < |events| && Claimable(events[found[k]], topic) && found[k] !in lockedElsewhere
      ensures forall j, k :: 0 <= j < k < |found| ==> found[j] < found[k]
      ensures |found| < limit ==>
                forall i :: 0 <= i < |events| && Claimable(events[i], topic) && i !in lockedElsewhere ==> i in found
      ensures forall i, k :: 0 <= k < |found| && 0 <= i < found[k] && Claimable(events[i], topic) && i !in lockedElsewhere
                             ==> i in found
    {
      found := [];
      var index := 0;
      while index < |events| && |found| < limit
        invariant 0 <= index <= |events| && |found| <= limit
        invariant forall k :: 0 <= k < |found| ==>
                    found[k] < index && Claimable(events[found[k]], topic) && found[k] !in lockedElsewhere
        invariant forall j, k :: 0 <= j < k < |found| ==> found[j] < found[k]
        invariant forall i :: 0 <= i < index && Claimable(events[i], topic) && i !in lockedElsewhere ==> i in found
      {
        if Claimable(events[index], topic) && index !in lockedElsewhere {
          found := found + [index];
        }
        index := index + 1;
      }
      claimed := found;
    }

    /** Publishes one event and commits, or raises when there is no such event; the claim ends either way. */
    method MarkPublished(index: nat) returns (done: Outcome<(), ExecError>)
      modifies this`events, this`claimed
      ensures claimed == []
      ensures if index < |old(events)| then
                done.Ok? && events == old(events)[index := old(events)[index].(published := true)]
              else done == Raised(LookupFailure) && events == old(events)
    {
      claimed := [];
      if index >= |events| {
        return Raised(LookupFailure);
      }
      events := events[index := events[index].(published := true)];
      done := Ok(());
    }

    method Rollback()
      modifies this`claimed
      ensures claimed == []
    {
      claimed := [];
    }
  }

  /** Nothing is left to do for the event: it names no intent, or one that needs no execution. */
  predicate Settled(event: Event, rows: map<Id, Row>) {
    ReadIntentId(event).Some? ==> NeedsNothing(StoredAt(rows, ReadIntentId(event).value))
  }

  /** The broker raised one of the worker's final errors in some call made since the first `from` calls. */
  predicate RaisedFinal(script: BrokerScript, calls: seq<BrokerCall>, from: nat) {
    exists k :: from <= k < |calls| && FinalAnswer(script, calls[k], k)
  }

  /** Rows only ever gain a result: intents and evidence stay, and a row that left QUEUED never returns to it. */
  predicate RowsAdvance(before: map<Id, Row>, after: map<Id, Row>) {
    && before.Keys == after.Keys
    && forall id :: id in before ==>
         && after[id].intent == before[id].intent
         && after[id].riskDecisionId == before[id].riskDecisionId && after[id].approvalId == before[id].approvalId
         && (!before[id].state.Queued? ==> after[id] == before[id])
         && (before[id].state.Queued? && after[id] != before[id] ==> AllowedPath(SavePath(Queued, after[id].state)) && !after[id].state.Queued?)
  }

  lemma ExecutionAdvances(rows: map<Id, Row>, id: Id, script: BrokerScript, n: nat)
    ensures RowsAdvance(rows, RowsAfter(rows, id, Execute(StoredAt(rows, id), script, n)))
  {
    hide AllowedPath;
    ExecutionIsSafe(StoredAt(rows, id), script, n);
    hide Execute, SavePath;
  }

  /**
   * Events of the execution topic are published only when settled, or when the broker raised a final
   * error in one of the calls made meanwhile; nothing else about the outbox changes.
   */
  predicate OutboxAdvances(before: seq<Event>, after: seq<Event>, rows: map<Id, Row>, brokerWasFinal: bool) {
    && |before| == |after|
    && forall i :: 0 <= i < |before| ==>
         || after[i] == before[i]
         || (after[i] == before[i].(published := true) && before[i].topic == EXECUTION_TOPIC
             && (Settled(before[i], rows) || brokerWasFinal))
  }

  lemma AdvancesCompose(a: map<Id, Row>, b: map<Id, Row>, c: map<Id, Row>)
    requires RowsAdvance(a, b) && RowsAdvance(b, c)
    ensures RowsAdvance(a, c)
  {
    hide AllowedPath, SavePath;
  }

  lemma OutboxComposes(a: seq<Event>, b: seq<Event>, c: seq<Event>, before: map<Id, Row>, after: map<Id, Row>,
                       early: bool, late: bool)
    requires OutboxAdvances(a, b, before, early) && OutboxAdvances(b, c, after, late) && RowsAdvance(before, after)
    ensures OutboxAdvances(a, c, after, early || late)
  {
    hide AllowedPath, SavePath;
    forall i | 0 <= i < |a| && a[i] != c[i] && Settled(a[i], before) ensures Settled(a[i], after) {
      var id := ReadIntentId(a[i]);
    }
  }

  // ---- What one pass of the worker comes to ----------------------------------------------------------------

  /** The event waits for this worker: unpublished, of the execution topic, and not held elsewhere. */
  predicate WaitsAt(events: seq<Event>, lockedElsewhere: set<nat>, i: nat) {
    i < |events| && !events[i].published && events[i].topic == EXECUTION_TOPIC && i !in lockedElsewhere
  }

  predicate Ascending(s: seq<nat>) {
    forall j, k :: 0 <= j < k < |s| ==> s[j] < s[k]
  }

  /** The waiting events from position `from` on, oldest first. */
  function WaitingFrom(events: seq<Event>, lockedElsewhere: set<nat>, from: nat): (waiting: seq<nat>)
    ensures forall i: nat :: i in waiting <==> from <= i && WaitsAt(events, lockedElsewhere, i)
    ensures forall k :: 0 <= k < |waiting| ==> WaitsAt(events, lockedElsewhere, waiting[k])
    ensures Ascending(waiting)
    decreases |events| - from
  {
    if |events| <= from then []
    else if WaitsAt(events, lockedElsewhere, from) then
      var later := WaitingFrom(events, lockedElsewhere, from + 1);
      assert forall k :: 0 <= k < |later| ==> later[k] in later;
      [from] + later
    else WaitingFrom(events, lockedElsewhere, from + 1)
  }

  /** Exactly the chosen events are published; nothing else about the outbox changes. */
  predicate Publishes(before: seq<Event>, after: seq<Event>, chosen: seq<nat>) {
    && |before| == |after|
    && forall i: nat :: i < |before| ==> after[i] == if i in chosen then before[i].(published := true) else before[i]
  }

  /** What executions change: the stored orders and the broker's log. */
  datatype Desk = Desk(rows: map<Id, Row>, calls: seq<BrokerCall>)

  /** One event put to the execution service, or not, when it names no intent. */
  function Dispatched(desk: Desk, event: Event, script: BrokerScript): Desk {
    if !event.payload.IntentId? then desk
    else
      var run := Execute(StoredAt(desk.rows, event.payload.id), script, |desk.calls|);
      Desk(RowsAfter(desk.rows, event.payload.id, run), desk.calls + run.calls)
  }

  /** The error for which the event is left in the outbox: any the worker does not take as final. */
  function Setback(desk: Desk, event: Event, script: BrokerScript): Option<ExecError> {
    if !event.payload.IntentId? then None
    else
      match Execute(StoredAt(desk.rows, event.payload.id), script, |desk.calls|).outcome
      case Ok(_) => None
      case Raised(error) => if error.LookupFailure? || error.PermissionDenied? then None else Some(error)
  }

  function DispatchedAll(desk: Desk, events: seq<Event>, chosen: seq<nat>, script: BrokerScript): Desk
    requires forall k :: 0 <= k < |chosen| ==> chosen[k] < |events|
  {
    if chosen == [] then desk
    else
      var earlier := chosen[..|chosen| - 1];
      Dispatched(DispatchedAll(desk, events, earlier, script), events[chosen[|chosen| - 1]], script)
  }

  /** None of the first `m` chosen events is set back. */
  predicate AllGoThrough(desk: Desk, events: seq<Event>, chosen: seq<nat>, m: nat, script: BrokerScript)
    requires m <= |chosen| && forall k :: 0 <= k < |chosen| ==> chosen[k] < |events|
  {
    forall k :: 0 <= k < m ==> Setback(DispatchedAll(desk, events, chosen[..k], script), events[chosen[k]], script).None?
  }

  /** The pass stopped at chosen event `m`, whose error it raised. */
  predicate StopsAt(desk: Desk, events: seq<Event>, chosen: seq<nat>, m: nat, script: BrokerScript, error: ExecError)
    requires m < |chosen| && forall k :: 0 <= k < |chosen| ==> chosen[k] < |events|
  {
    && AllGoThrough(desk, events, chosen, m, script)
    && Setback(DispatchedAll(desk, events, chosen[..m], script), events[chosen[m]], script) == Some(error)
  }

  /** Without a topic every unpublished event can be claimed. */
  lemma ClaimableOfTopic(event: Event, topic: Option<string>)
    ensures Claimable(event, topic) <==> !event.published && (topic == None || topic == Some(event.topic))
  {
  }

  lemma ClaimableWaits(events: seq<Event>, lockedElsewhere: set<nat>, i: nat)
    requires i < |events|
    ensures WaitsAt(events, lockedElsewhere, i) <==> Claimable(events[i], Some(EXECUTION_TOPIC)) && i !in lockedElsewhere
  {
  }

  lemma OldestIsFirst(events: seq<Event>, lockedElsewhere: set<nat>, i: nat)
    requires WaitsAt(events, lockedElsewhere, i) && forall j: nat :: j < i ==> !WaitsAt(events, lockedElsewhere, j)
    ensures var waiting := WaitingFrom(events, lockedElsewhere, 0); waiting != [] && waiting[0] == i
  {
    var waiting := WaitingFrom(events, lockedElsewhere, 0);
    assert i in waiting && waiting[0] in waiting;
  }

  /** Once the oldest `k` are published, the others are what waits. */
  lemma OthersStillWait(before: seq<Event>, after: seq<Event>, lockedElsewhere: set<nat>, k: nat)
    requires k <= |WaitingFrom(before, lockedElsewhere, 0)|
    requires Publishes(before, after, WaitingFrom(before, lockedElsewhere, 0)[..k])
    ensures WaitingFrom(after, lockedElsewhere, 0) == WaitingFrom(before, lockedElsewhere, 0)[k..]
  {
    var waiting := WaitingFrom(before, lockedElsewhere, 0);
    forall i: nat ensures i in waiting[k..] <==> WaitsAt(after, lockedElsewhere, i) {
      if i in waiting[k..] && i in waiting[..k] {
        assert false;
      }
      if i in waiting && i !in waiting[k..] { assert i in waiting[..k]; }
    }
    SameSorted(WaitingFrom(after, lockedElsewhere, 0), waiting[k..]);
  }

  /** A set has one ascending listing. */
  lemma {:induction false} SameSorted(a: seq<nat>, b: seq<nat>)
    requires Ascending(a) && Ascending(b) && forall i: nat :: i in a <==> i in b
    ensures a == b
  {
    assert a != [] ==> a[0] in b;
    assert b != [] ==> b[0] in a;
    if a != [] {
      forall i: nat ensures i in a[1..] <==> i in b[1..] {
        if i in a[1..] { assert i in a && i != a[0]; }
        if i in b[1..] { assert i in b && i != b[0]; }
      }
      SameSorted(a[1..], b[1..]);
      assert a == [a[0]] + a[1..] && b == [b[0]] + b[1..];
    }
  }

  /** Claiming one event finds the oldest that waits. */
  lemma ClaimedIsOldest(events: seq<Event>, lockedElsewhere: set<nat>, found: seq<nat>)
    requires |found| <= 1
    requires forall k :: 0 <= k < |found| ==>
               found[k] < |events| && Claimable(events[found[k]], Some(EXECUTION_TOPIC)) && found[k] !in lockedElsewhere
    requires forall i, k :: 0 <= k < |found| && 0 <= i < found[k] && Claimable(events[i], Some(EXECUTION_TOPIC)) && i !in lockedElsewhere
                            ==> i in found
    requires |found| < 1 ==>
               forall i :: 0 <= i < |events| && Claimable(events[i], Some(EXECUTION_TOPIC)) && i !in lockedElsewhere ==> i in found
    ensures var waiting := WaitingFrom(events, lockedElsewhere, 0);
            if found == [] then waiting == [] else waiting != [] && waiting[0] == found[0]
  {
    var waiting := WaitingFrom(events, lockedElsewhere, 0);
    if waiting != [] {
      assert WaitsAt(events, lockedElsewhere, waiting[0]);
    }
    if found != [] {
      OldestIsFirst(events, lockedElsewhere, found[0]);
    }
  }

  /** The step on an event without a usable intent id. */
  lemma UnusableIsPublished(events: seq<Event>, index: nat, rows: map<Id, Row>, calls: seq<BrokerCall>, script: BrokerScript, final: bool)
    requires index < |events| && ReadIntentId(events[index]).None? && events[index].topic == EXECUTION_TOPIC
    ensures OutboxAdvances(events, events[index := events[index].(published := true)], rows, final)
    ensures Dispatched(Desk(rows, calls), events[index], script) == Desk(rows, calls)
    ensures Setback(Desk(rows, calls), events[index], script).None?
  {
  }

  /** The step on an event that names an intent. */
  lemma ExecutedEvent(events: seq<Event>, index: nat, desk: Desk, script: BrokerScript)
    requires index < |events| && ReadIntentId(events[index]).Some?
    ensures var id := ReadIntentId(events[index]).value;
            var run := Execute(StoredAt(desk.rows, id), script, |desk.calls|);
            && Dispatched(desk, events[index], script) == Desk(RowsAfter(desk.rows, id, run), desk.calls + run.calls)
            && Setback(desk, events[index], script)
               == if run.outcome.Ok? || IsTerminalError(run.outcome.error) then None else Some(run.outcome.error)
  {
    hide Execute;
  }

  lemma ExecutedIsPublished(events: seq<Event>, index: nat, rows: map<Id, Row>, final: bool)
    requires index < |events| && ReadIntentId(events[index]).Some? && events[index].topic == EXECUTION_TOPIC
    requires NeedsNothing(StoredAt(rows, ReadIntentId(events[index]).value)) || final
    ensures OutboxAdvances(events, events[index := events[index].(published := true)], rows, final)
  {
    hide NeedsNothing;
  }

  lemma NothingDone(events: seq<Event>, waiting: seq<nat>, desk: Desk, script: BrokerScript)
    requires forall k :: 0 <= k < |waiting| ==> waiting[k] < |events|
    ensures Publishes(events, events, waiting[..0]) && DispatchedAll(desk, events, waiting[..0], script) == desk
    ensures AllGoThrough(desk, events, waiting, 0, script)
  {
  }

  /** One more of the waiting events handled, or set back. */
  lemma OneMore(before: seq<Event>, mid: seq<Event>, after: seq<Event>, waiting: seq<nat>, count: nat, desk: Desk, script: BrokerScript)
    requires count < |waiting| && Ascending(waiting) && forall k :: 0 <= k < |waiting| ==> waiting[k] < |before|
    requires Publishes(before, mid, waiting[..count]) && AllGoThrough(desk, before, waiting, count, script)
    ensures mid[waiting[count]] == before[waiting[count]]
    ensures var at, event := DispatchedAll(desk, before, waiting[..count], script), before[waiting[count]];
            && DispatchedAll(desk, before, waiting[..count + 1], script) == Dispatched(at, event, script)
            && (after == mid[waiting[count] := event.(published := true)] ==> Publishes(before, after, waiting[..count + 1]))
            && match Setback(at, event, script)
               case None => AllGoThrough(desk, before, waiting, count + 1, script)
               case Some(error) => StopsAt(desk, before, waiting, count, script, error)
  {
    hide Dispatched, Setback;
    assert waiting[..count + 1][..count] == waiting[..count];
    assert waiting[..count + 1] == waiting[..count] + [waiting[count]];
    assert forall i: nat :: i in waiting[..count + 1] <==> i in waiting[..count] || i == waiting[count];
  }

  class Worker {
    const outbox: OutboxRepository
    const service: Service

    constructor (outbox: OutboxRepository, service: Service)
      ensures this.outbox == outbox && this.service == service
    {
      this.outbox := outbox;
      this.service := service;
    }

    ghost predicate Ready()
      reads this, service, service.repository
    {
      service.repository.Idle()
    }

    /** The stored orders and the calls so far. */
    ghost function State(): Desk
      reads this, service, service.repository, service.broker
    {
      Desk(service.repository.rows, service.broker.calls)
    }

    /** All work that this worker could claim now, oldest first. */
    ghost function WaitingNow(): seq<nat>
      reads this, outbox
    {
      WaitingFrom(outbox.events, outbox.lockedElsewhere, 0)
    }

    /** The calls made since the broker had answered `from` of them include a final error. */
    ghost predicate BrokerWasFinal(from: nat)
      reads this, service, service.broker
    {
      RaisedFinal(service.broker.script, service.broker.calls, from)
    }

    /**
     * Handles the oldest waiting event, if there is one. An event without a usable intent id is published
     * without any execution. Any other is executed, and published unless the execution raised an error that
     * the worker does not take as final: that error is raised and the outbox is as it was. A published event
     * is settled, unless the broker itself raised a final error in this step.
     */
    method ProcessOne() returns (handled: Outcome<bool, ExecError>)
      requires Ready()
      modifies outbox, service.repository, service.broker
      ensures Ready() && outbox.claimed == [] && outbox.lockedElsewhere == old(outbox.lockedElsewhere)
      ensures old(service.broker.calls) <= service.broker.calls
      ensures RowsAdvance(old(service.repository.rows), service.repository.rows)
      ensures OutboxAdvances(old(outbox.events), outbox.events, service.repository.rows, BrokerWasFinal(|old(service.broker.calls)|))
      ensures handled == Ok(false) ==> WaitingNow() == []
      ensures handled.Raised? ==> outbox.events == old(outbox.events) && !IsTerminalError(handled.error)
      ensures old(WaitingNow()) == [] ==> handled == Ok(false) && outbox.events == old(outbox.events) && State() == old(State())
      ensures old(WaitingNow()) != [] ==>
                var event, script := old(outbox.events[WaitingNow()[0]]), service.broker.script;
                && State() == Dispatched(old(State()), event, script)
                && handled == (match Setback(old(State()), event, script) case None => Ok(true) case Some(error) => Raised(error))
                && outbox.events == if handled.Ok? then old(outbox.events[WaitingNow()[0] := event.(published := true)]) else old(outbox.events)
    {
      hide RaisedFinal, RowsAdvance, OutboxAdvances, Settled, NeedsNothing, Execute, Dispatched;
      ghost var rows, before, calls := service.repository.rows, outbox.events, service.broker.calls;
      NothingAdvances(rows, before);
      var found := outbox.Claim(1, Some(EXECUTION_TOPIC));
      ClaimedIsOldest(before, outbox.lockedElsewhere, found);
      if found == [] {
        return Ok(false);
      }
      var index := found[0];
      ghost var event, script := before[index], service.broker.script;
      var id := ReadIntentId(outbox.events[index]);
      if id.None? {
        var _ := outbox.MarkPublished(index);
        UnusableIsPublished(before, index, rows, calls, script, BrokerWasFinal(|calls|));
        return Ok(true);
      }
      var outcome := Dispatch(id.value);
      ExecutedEvent(before, index, Desk(rows, calls), script);
      if outcome.Raised? && !IsTerminalError(outcome.error) {
        outbox.Rollback();
        NothingAdvances(service.repository.rows, before);
        return Raised(outcome.error);
      }
      var _ := outbox.MarkPublished(index);
      ExecutedIsPublished(before, index, service.repository.rows, BrokerWasFinal(|calls|));
      handled := Ok(true);
    }

    /** Runs the execution service on one intent. */
    method Dispatch(id: Id) returns (outcome: Outcome<BrokerResult, ExecError>)
      requires Ready()
      modifies service.repository, service.broker
      ensures Ready()
      ensures old(service.broker.calls) <= service.broker.calls
      ensures RowsAdvance(old(service.repository.rows), service.repository.rows)
      ensures var run := Execute(StoredAt(old(service.repository.rows), id), service.broker.script, |old(service.broker.calls)|);
              && outcome == run.outcome && service.broker.calls == old(service.broker.calls) + run.calls
              && service.repository.rows == RowsAfter(old(service.repository.rows), id, run)
      ensures outcome.Ok? || IsTerminalError(outcome.error) ==>
                NeedsNothing(StoredAt(service.repository.rows, id)) || BrokerWasFinal(|old(service.broker.calls)|)
    {
      hide Execute, AllowedPath, FinalAnswer;
      ghost var rows, calls := service.repository.rows, service.broker.calls;
      ExecutionSettlesUnlessBrokerIsFinal(StoredAt(rows, id), service.broker.script, |calls|);
      ExecutionAdvances(rows, id, service.broker.script, |calls|);
      ExecutionIsSafe(StoredAt(rows, id), service.broker.script, |calls|);
      ghost var run := Execute(StoredAt(rows, id), service.broker.script, |calls|);
      outcome := service.Run(id);
      StoredAfter(rows, id, service.broker.script, |calls|);
      if run.calls != [] {
        assert service.broker.calls[|calls| + |run.calls| - 1] == run.calls[|run.calls| - 1];
      }
    }

    /**
     * Handles up to `limit` waiting events, oldest first. When it returns, it has handled as many as there
     * were, up to the limit: exactly those are published, and the stored orders and the broker's log are what
     * executing them in order leads to. When it raises, it stopped at one event, whose error it raises: the
     * events before it are published, and it is not.
     */
    method RunOnce(limit: nat) returns (processed: Outcome<nat, ExecError>)
      requires Ready()
      modifies outbox, service.repository, service.broker
      ensures Ready()
      ensures old(service.broker.calls) <= service.broker.calls
      ensures RowsAdvance(old(service.repository.rows), service.repository.rows)
      ensures OutboxAdvances(old(outbox.events), outbox.events, service.repository.rows, BrokerWasFinal(|old(service.broker.calls)|))
      ensures processed.Ok? && processed.value < limit ==> WaitingNow() == []
      ensures var waiting, before, start, script := old(WaitingNow()), old(outbox.events), old(State()), service.broker.script;
              match processed
              case Ok(count) =>
                && count == (if |waiting| < limit then |waiting| else limit)
                && Publishes(before, outbox.events, waiting[..count])
                && State() == DispatchedAll(start, before, waiting[..count], script)
                && AllGoThrough(start, before, waiting, count, script)
              case Raised(error) =>
                exists m: nat :: m < |waiting| && m < limit
                  && Publishes(before, outbox.events, waiting[..m])
                  && State() == DispatchedAll(start, before, waiting[..m + 1], script)
                  && StopsAt(start, before, waiting, m, script, error)
    {
      hide RowsAdvance, OutboxAdvances, FinalAnswer, Settled, WaitingFrom, DispatchedAll, Dispatched, Setback, Publishes, AllGoThrough, StopsAt;
      ghost var rows, before, start := service.repository.rows, outbox.events, |service.broker.calls|;
      ghost var waiting, desk, script := WaitingNow(), State(), service.broker.script;
      NothingAdvances(rows, before);
      NothingDone(before, waiting, desk, script);
      var count := 0;
      while count < limit
        invariant 0 <= count <= limit && count <= |waiting| && Ready()
        invariant outbox.lockedElsewhere == old(outbox.lockedElsewhere)
        invariant old(service.broker.calls) <= service.broker.calls
        invariant RowsAdvance(rows, service.repository.rows)
        invariant OutboxAdvances(before, outbox.events, service.repository.rows, BrokerWasFinal(start))
        invariant Publishes(before, outbox.events, waiting[..count])
        invariant State() == DispatchedAll(desk, before, waiting[..count], script)
        invariant AllGoThrough(desk, before, waiting, count, script)
      {
        ghost var midRows, midEvents, midCalls := service.repository.rows, outbox.events, service.broker.calls;
        ghost var early := BrokerWasFinal(start);
        OthersStillWait(before, outbox.events, outbox.lockedElsewhere, count);
        var handled := ProcessOne();
        FinalStays(service.broker.script, midCalls, service.broker.calls, start);
        AdvancesCompose(rows, midRows, service.repository.rows);
        OutboxComposes(before, midEvents, outbox.events, midRows, service.repository.rows, early, BrokerWasFinal(|midCalls|));
        OutboxExcused(before, outbox.events, service.repository.rows, early || BrokerWasFinal(|midCalls|), BrokerWasFinal(start));
        if handled == Ok(false) {
          return Ok(count);
        }
        OneMore(before, midEvents, outbox.events, waiting, count, desk, script);
        if handled.Raised? {
          return Raised(handled.error);
        }
        count := count + 1;
      }
      processed := Ok(count);
    }
  }

  lemma StoredAfter(rows: map<Id, Row>, id: Id, script: BrokerScript, n: nat)
    ensures var run := Execute(StoredAt(rows, id), script, n); StoredAt(RowsAfter(rows, id, run), id) == run.row
  {
    ExecutionIsSafe(StoredAt(rows, id), script, n);
  }

  lemma FinalStays(script: BrokerScript, before: seq<BrokerCall>, after: seq<BrokerCall>, from: nat)
    requires before <= after && from <= |before|
    ensures RaisedFinal(script, before, from) || RaisedFinal(script, after, |before|) ==> RaisedFinal(script, after, from)
  {
    hide FinalAnswer;
    if RaisedFinal(script, before, from) {
      var k :| from <= k < |before| && FinalAnswer(script, before[k], k);
      assert after[k] == before[k];
    }
  }

  lemma OutboxExcused(before: seq<Event>, after: seq<Event>, rows: map<Id, Row>, narrow: bool, wide: bool)
    requires OutboxAdvances(before, after, rows, narrow) && (narrow ==> wide)
    ensures OutboxAdvances(before, after, rows, wide)
  {
  }

  lemma NothingAdvances(rows: map<Id, Row>, events: seq<Event>)
    ensures RowsAdvance(rows, rows) && forall excuse :: OutboxAdvances(events, events, rows, excuse)
  {
  }
}
