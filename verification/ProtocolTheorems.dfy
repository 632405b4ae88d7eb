// Safety of the execution protocol over every interleaving, the exact assumptions it needs, and the
// run each missing assumption allows.

module ProtocolTheorems {
  import opened Prelude
  import opened Market
  import opened OrderStates
  import opened Orders
  import opened ExecutionRules
  import opened Protocol
  import opened ProtocolInvariant

  ghost predicate Sound(world: World, around: Surroundings) {
    && LocksOk(world)
    && (around.soundLookup ==> OrdersOk(world))
    && (!around.brokerRaisesFinal && !around.topiclessConsumer ==> NothingStranded(world))
  }

  lemma {:induction false} RunsStaySound(world: World, steps: seq<Step>, around: Surroundings)
    requires Sound(world, around) && RunFrom(world, steps, around).Some?
    ensures Sound(RunFrom(world, steps, around).value, around)
    decreases |steps|
  {
    hide Apply, LocksOk, OrdersOk, NothingStranded;
    if steps != [] {
      LocksKept(world, steps[0], around);
      if around.soundLookup { OrdersKept(world, steps[0], around); }
      if !around.brokerRaisesFinal && !around.topiclessConsumer { WorkKept(world, steps[0], around); }
      RunsStaySound(Apply(world, steps[0], around).value, steps[1..], around);
    }
  }

  lemma ReachedIsSound(steps: seq<Step>, around: Surroundings)
    requires Reach(steps, around).Some?
    ensures Sound(Reach(steps, around).value, around)
  {
    RunsStaySound(EMPTY_WORLD, steps, around);
  }

  // ---- Joining runs ------------------------------------------------------------------------------------------

  lemma {:induction false} RunThen(world: World, first: seq<Step>, second: seq<Step>, around: Surroundings)
    requires RunFrom(world, first, around).Some?
    ensures RunFrom(world, first + second, around) == RunFrom(RunFrom(world, first, around).value, second, around)
    decreases |first|
  {
    hide Apply;
    if first == [] {
      assert [] + second == second;
    } else {
      RunThen(Apply(world, first[0], around).value, first[1..], second, around);
      assert (first + second)[1..] == first[1..] + second;
    }
  }

  lemma OneMore(world: World, steps: seq<Step>, step: Step, around: Surroundings)
    requires RunFrom(world, steps, around).Some?
    ensures RunFrom(world, steps + [step], around) == Apply(RunFrom(world, steps, around).value, step, around)
  {
    hide Apply;
    RunThen(world, steps, [step], around);
    assert [step][1..] == [];
  }

  /** A run given by the worlds it passes through. */
  lemma {:induction false} RunThrough(worlds: seq<World>, steps: seq<Step>, around: Surroundings)
    requires |worlds| == |steps| + 1
    requires forall i :: 0 <= i < |steps| ==> Apply(worlds[i], steps[i], around) == Some(worlds[i + 1])
    ensures RunFrom(worlds[0], steps, around) == Some(worlds[|steps|])
    decreases |steps|
  {
    hide Apply;
    if steps != [] {
      assert Apply(worlds[0], steps[0], around) == Some(worlds[1]);
      forall i | 0 <= i < |steps[1..]| ensures Apply(worlds[1..][i], steps[1..][i], around) == Some(worlds[1..][i + 1]) {
        assert Apply(worlds[i + 1], steps[i + 1], around) == Some(worlds[i + 2]);
      }
      RunThrough(worlds[1..], steps[1..], around);
    }
  }

  // ---- At most one order per key -----------------------------------------------------------------------------

  ghost predicate OneOrderPerKey(around: Surroundings) {
    forall steps: seq<Step>, key: OrderKey :: Reach(steps, around).Some? ==> Reach(steps, around).value.accepted[key] <= 1
  }

  const SAMPLE_INTENT := Intent(0, 0, 0, "XAUUSD", Buy, LimitOrder, 1.0, Some(1.0), None, None, None, false, None, "key")
  const SAMPLE_ROW := Row(SAMPLE_INTENT, Queued, None, 0.0, None, None, None, Some(0), Some(0))
  const SAMPLE_KEY: OrderKey := (0, "key")

  /** The steps by which one worker sends the sample order. */
  function SendBy(w: WorkerId): seq<Step> {
    [Claim(w, 0), Lock(w), LookUp(w, Ok(None)), Send(w)]
  }

  /** The sample order is stored, nobody works on it, and the broker has taken none of `sent` requests. */
  predicate WaitingWorld(world: World, sent: nat) {
    && world.rows == map[0 := SAMPLE_ROW] && world.home == map[0 := 0]
    && world.events == map[0 := OutboxEvent(true, Some(0), false)]
    && world.rowLock == map[] && world.eventLock == map[]
    && world.inFlight[SAMPLE_KEY] == sent && world.accepted[SAMPLE_KEY] == 0
  }

  lemma StoredSample(around: Surroundings)
    ensures Reach([Create(SAMPLE_ROW, 0)], around).Some? && WaitingWorld(Reach([Create(SAMPLE_ROW, 0)], around).value, 0)
    ensures Reach([Create(SAMPLE_ROW, 0)], around).value.pcs == map[]
  {
    OneMore(EMPTY_WORLD, [], Create(SAMPLE_ROW, 0), around);
    assert [] + [Create(SAMPLE_ROW, 0)] == [Create(SAMPLE_ROW, 0)];
    CreatedSample(around);
  }

  lemma CreatedSample(around: Surroundings)
    ensures var next := Apply(EMPTY_WORLD, Create(SAMPLE_ROW, 0), around);
            next.Some? && WaitingWorld(next.value, 0) && next.value.pcs == map[]
  {
  }

  /** Worker `w` stands at `pc` over the sample order; the others stand as in `pcs`. */
  predicate SampleAt(world: World, pcs: map<WorkerId, Pc>, w: WorkerId, pc: Pc, sent: nat) {
    && world.rows == map[0 := SAMPLE_ROW] && world.home == map[0 := 0]
    && world.events == map[0 := OutboxEvent(true, Some(0), false)]
    && world.rowLock == (if InExecution(pc) then map[0 := w] else map[]) && world.eventLock == map[0 := w]
    && world.pcs == pcs[w := pc]
    && world.inFlight[SAMPLE_KEY] == sent && world.accepted[SAMPLE_KEY] == 0
  }

  lemma ClaimSample(world: World, w: WorkerId, sent: nat, around: Surroundings) returns (next: World)
    requires WaitingWorld(world, sent) && world.PcOf(w).Idle?
    ensures Apply(world, Claim(w, 0), around) == Some(next) && SampleAt(next, world.pcs, w, Claimed(0, 0), sent)
  {
    assert world.eventLock[0 := w] == map[0 := w];
    next := ClaimStep(world, w, 0).value;
  }

  lemma LockSample(world: World, pcs: map<WorkerId, Pc>, w: WorkerId, sent: nat, around: Surroundings) returns (next: World)
    requires SampleAt(world, pcs, w, Claimed(0, 0), sent)
    ensures Apply(world, Lock(w), around) == Some(next) && SampleAt(next, pcs, w, Locked(0, 0), sent)
  {
    assert world.rowLock[0 := w] == map[0 := w];
    assert SAMPLE_INTENT.Valid();
    next := LockStep(world, w).value;
  }

  lemma ClearSample(world: World, pcs: map<WorkerId, Pc>, w: WorkerId, sent: nat, around: Surroundings) returns (next: World)
    requires SampleAt(world, pcs, w, Locked(0, 0), sent) && !around.soundLookup
    ensures Apply(world, LookUp(w, Ok(None)), around) == Some(next) && SampleAt(next, pcs, w, Cleared(0, 0), sent)
  {
    assert world.OrderKeyOf(0) == SAMPLE_KEY;
    next := world.Move(w, Cleared(0, 0));
  }

  lemma SendSample(world: World, pcs: map<WorkerId, Pc>, w: WorkerId, sent: nat, around: Surroundings) returns (next: World)
    requires SampleAt(world, pcs, w, Cleared(0, 0), sent)
    ensures Apply(world, Send(w), around) == Some(next) && SampleAt(next, pcs, w, Sent(0, 0), sent + 1)
  {
    assert world.OrderKeyOf(0) == SAMPLE_KEY;
    next := SendStep(world, w).value;
  }

  lemma DieOverSample(world: World, pcs: map<WorkerId, Pc>, w: WorkerId, sent: nat, around: Surroundings) returns (next: World)
    requires SampleAt(world, pcs, w, Sent(0, 0), sent)
    ensures Apply(world, Crash(w), around) == Some(next) && WaitingWorld(next, sent) && next.pcs == pcs[w := Idle]
  {
    next := CrashStep(world, w);
    CrashShape(world, w);
  }

  /** A worker sends the sample order and dies; the request is still on its way. */
  lemma SendAndDie(world: World, w: WorkerId, sent: nat, around: Surroundings) returns (next: World)
    requires WaitingWorld(world, sent) && world.PcOf(w).Idle? && !around.soundLookup
    ensures RunFrom(world, SendBy(w) + [Crash(w)], around) == Some(next)
    ensures WaitingWorld(next, sent + 1) && next.pcs == world.pcs[w := Idle]
  {
    hide Apply, WaitingWorld, SampleAt;
    var claimed := ClaimSample(world, w, sent, around);
    var locked := LockSample(claimed, world.pcs, w, sent, around);
    var cleared := ClearSample(locked, world.pcs, w, sent, around);
    var gone := SendSample(cleared, world.pcs, w, sent, around);
    next := DieOverSample(gone, world.pcs, w, sent + 1, around);
    RunThrough([world, claimed, locked, cleared, gone, next], SendBy(w) + [Crash(w)], around);
  }

  lemma BothTaken(world: World, around: Surroundings)
    requires world.inFlight[SAMPLE_KEY] == 2 && world.accepted[SAMPLE_KEY] == 0
    ensures var end := RunFrom(world, [BrokerTakes(SAMPLE_KEY), BrokerTakes(SAMPLE_KEY)], around);
            end.Some? && end.value.accepted[SAMPLE_KEY] == 2
  {
    var steps := [BrokerTakes(SAMPLE_KEY), BrokerTakes(SAMPLE_KEY)];
    assert steps[1..] == [BrokerTakes(SAMPLE_KEY)] && steps[1..][1..] == [];
    var next := Apply(world, steps[0], around).value;
    assert next.inFlight[SAMPLE_KEY] == 1;
    OneMore(world, [], steps[0], around);
    OneMore(world, [steps[0]], steps[1], around);
    assert [] + [steps[0]] == [steps[0]] && [steps[0]] + [steps[1]] == steps;
  }

  /**
   * Were a lookup to find nothing while a request is still on its way, two workers would send the same
   * order twice: the first dies after sending, the second is told there is no such order.
   */
  lemma UnsoundLookupDuplicates(around: Surroundings) returns (steps: seq<Step>)
    requires !around.soundLookup
    ensures Reach(steps, around).Some? && Reach(steps, around).value.accepted[SAMPLE_KEY] == 2
  {
    hide Apply, WaitingWorld;
    var create := [Create(SAMPLE_ROW, 0)];
    StoredSample(around);
    var stored := Reach(create, around).value;
    var once := SendAndDie(stored, 1, 0, around);
    var twice := SendAndDie(once, 2, 1, around);
    var first, second, taken := SendBy(1) + [Crash(1)], SendBy(2) + [Crash(2)], [BrokerTakes(SAMPLE_KEY), BrokerTakes(SAMPLE_KEY)];
    RunThen(EMPTY_WORLD, create, first, around);
    RunThen(EMPTY_WORLD, create + first, second, around);
    WaitingCounts(twice, 2);
    BothTaken(twice, around);
    RunThen(EMPTY_WORLD, create + first + second, taken, around);
    steps := create + first + second + taken;
  }

  lemma WaitingCounts(world: World, sent: nat)
    requires WaitingWorld(world, sent)
    ensures world.inFlight[SAMPLE_KEY] == sent && world.accepted[SAMPLE_KEY] == 0
  {
  }

  /**
   * However many workers run, crash, time out and retry, the broker takes at most one order per account
   * and idempotency key, if and only if a lookup finds nothing only when nothing was taken and nothing
   * is still on its way.
   */
  lemma OneOrderPerKeyExactlyWhen(around: Surroundings)
    ensures OneOrderPerKey(around) <==> around.soundLookup
  {
    hide Reach;
    if around.soundLookup {
      forall steps: seq<Step>, key: OrderKey | Reach(steps, around).Some?
        ensures Reach(steps, around).value.accepted[key] <= 1
      {
        ReachedIsSound(steps, around);
        assert Exposure(Reach(steps, around).value, key) <= 1;
      }
    } else {
      var steps := UnsoundLookupDuplicates(around);
      assert Reach(steps, around).value.accepted[SAMPLE_KEY] == 2;
    }
  }

  // ---- Locks -------------------------------------------------------------------------------------------------

  /** A row is locked exactly while some worker is inside `execute` for it, so never after it returned, raised or died. */
  lemma RowLockedExactlyInExecution(steps: seq<Step>, around: Surroundings, id: Id)
    requires Reach(steps, around).Some?
    ensures var world := Reach(steps, around).value;
            && (id in world.rowLock <==> exists w :: InExecution(world.PcOf(w)) && world.PcOf(w).intent == id)
            && (forall v, w :: (&& InExecution(world.PcOf(v)) && InExecution(world.PcOf(w))
                                && world.PcOf(v).intent == id == world.PcOf(w).intent) ==> v == w)
  {
    ReachedIsSound(steps, around);
    var world := Reach(steps, around).value;
    hide Reach, NeedsWork, OrdersOk, NothingStranded;
    assert RowLockOk(world, id);
    forall w | InExecution(world.PcOf(w)) && world.PcOf(w).intent == id ensures id in world.rowLock && world.rowLock[id] == w {
      WorkerIsOk(world, w);
    }
  }

  // ---- No stranded work --------------------------------------------------------------------------------------

  /** Work to do has an unpublished event of the execution topic that names it. */
  predicate Announced(world: World, id: Id) {
    NeedsWork(world, id) ==>
      exists event | event in world.events.Keys :: world.events[event] == OutboxEvent(true, Some(id), false)
  }

  ghost predicate NoWorkStranded(around: Surroundings) {
    forall steps: seq<Step>, id: Id :: Reach(steps, around).Some? ==> Announced(Reach(steps, around).value, id)
  }

  lemma SoundIsAnnounced(world: World, id: Id)
    requires LocksOk(world) && NothingStranded(world)
    ensures Announced(world, id)
  {
    assert HomeOk(world, id) && WorkOk(world, id);
    if NeedsWork(world, id) {
      var home := world.home[id];
      assert world.events[home] == OutboxEvent(true, Some(id), false);
    }
  }

  /** A second consumer without a topic publishes the event of an order nobody executed. */
  lemma TopiclessConsumerStrands(around: Surroundings) returns (steps: seq<Step>)
    requires around.topiclessConsumer
    ensures Reach(steps, around).Some? && !Announced(Reach(steps, around).value, 0)
  {
    StoredSample(around);
    var stored := Reach([Create(SAMPLE_ROW, 0)], around).value;
    steps := [Create(SAMPLE_ROW, 0)] + [Dispatch(0)];
    OneMore(EMPTY_WORLD, [Create(SAMPLE_ROW, 0)], Dispatch(0), around);
    var end := Apply(stored, Dispatch(0), around).value;
    assert end.events == map[0 := OutboxEvent(true, Some(0), true)];
    assert NeedsWork(end, 0);
  }

  /** A broker that raises a final error makes the worker publish an order that was never sent. */
  lemma FinalBrokerErrorStrands(around: Surroundings) returns (steps: seq<Step>)
    requires around.brokerRaisesFinal
    ensures Reach(steps, around).Some? && !Announced(Reach(steps, around).value, 0)
  {
    StoredSample(around);
    var stored := Reach([Create(SAMPLE_ROW, 0)], around).value;
    var run := [Claim(1, 0), Lock(1), LookUp(1, Raised(LookupFailure)), Publish(1)];
    var claimed := ClaimSample(stored, 1, 0, around);
    var locked := LockSample(claimed, stored.pcs, 1, 0, around);
    var settled := RaisedSample(locked, stored.pcs, around);
    var published := PublishedSample(settled, stored.pcs, around);
    hide Apply, Announced, SampleAt, WaitingWorld;
    RunThrough([stored, claimed, locked, settled, published], run, around);
    RunThen(EMPTY_WORLD, [Create(SAMPLE_ROW, 0)], run, around);
    steps := [Create(SAMPLE_ROW, 0)] + run;
  }

  lemma RaisedSample(locked: World, pcs: map<WorkerId, Pc>, around: Surroundings) returns (settled: World)
    requires SampleAt(locked, pcs, 1, Locked(0, 0), 0) && around.brokerRaisesFinal
    ensures Apply(locked, LookUp(1, Raised(LookupFailure)), around) == Some(settled)
    ensures SampleAt(settled, pcs, 1, Settled(0), 0)
  {
    settled := locked.FreeRow(0).Move(1, Settled(0));
  }

  lemma PublishedSample(settled: World, pcs: map<WorkerId, Pc>, around: Surroundings) returns (published: World)
    requires SampleAt(settled, pcs, 1, Settled(0), 0)
    ensures Apply(settled, Publish(1), around) == Some(published)
    ensures !Announced(published, 0)
  {
    published := PublishStep(settled, 1).value;
    assert published.events == map[0 := OutboxEvent(true, Some(0), true)];
    assert NeedsWork(published, 0);
  }

  /**
   * Every committed queued intent with its evidence keeps an unpublished event that names it, if and
   * only if the broker never raises the errors the worker takes as final and no other consumer publishes
   * the execution topic.
   */
  lemma NoWorkStrandedExactlyWhen(around: Surroundings)
    ensures NoWorkStranded(around) <==> !around.brokerRaisesFinal && !around.topiclessConsumer
  {
    hide Reach, Announced;
    if around.topiclessConsumer {
      var steps := TopiclessConsumerStrands(around);
      assert !Announced(Reach(steps, around).value, 0);
    } else if around.brokerRaisesFinal {
      var steps := FinalBrokerErrorStrands(around);
      assert !Announced(Reach(steps, around).value, 0);
    } else {
      forall steps: seq<Step>, id: Id | Reach(steps, around).Some? ensures Announced(Reach(steps, around).value, id) {
        ReachedIsSound(steps, around);
        SoundIsAnnounced(Reach(steps, around).value, id);
      }
    }
  }

  // ---- Publishing and history --------------------------------------------------------------------------------

  /** The event's payload is unusable, or what it names needs no work: missing, without evidence, or past QUEUED. */
  predicate NothingToDo(world: World, event: EventId) {
    event in world.events && (world.events[event].payload.Some? ==> !NeedsWork(world, world.events[event].payload.value))
  }

  /** A worker goes to publish an event only when nothing is left to do for it. */
  lemma SettlesOnlyWhenDone(world: World, step: Step, around: Surroundings, w: WorkerId)
    requires LocksOk(world) && Apply(world, step, around).Some? && !around.brokerRaisesFinal
    requires var next := Apply(world, step, around).value; next.PcOf(w).Settled? && next.PcOf(w) != world.PcOf(w)
    ensures var next := Apply(world, step, around).value; NothingToDo(next, next.PcOf(w).event)
  {
    var next := Apply(world, step, around).value;
    WorkerIsOk(world, w);
    hide LocksOk, OnlyAnswers, LookUpStep, ReplyStep, LookAgainStep, SendStep, ClaimStep, LockStep, CrashStep, SaveStep, CreateStep,
         NothingToDo, WorkerOk;
    match step {
      case Claim(v, event) => ClaimSends(world, v, event, w);
      case Lock(v) => WorkerIsOk(world, v); LockSends(world, v, w);
      case LookUp(v, known) =>
        if known == Ok(None) { ClearIsIdling(world, v, around); }
        else { AnswersOnly(world, step, around); AnswerSends(world, next, v, w, around); }
      case Reply(v, _) => AnswersOnly(world, step, around); AnswerSends(world, next, v, w, around);
      case LookAgain(v, _) => AnswersOnly(world, step, around); AnswerSends(world, next, v, w, around);
      case Send(v) => SendIsIdling(world, v);
      case Save(v) => WorkerIsOk(world, v); SavedIsDone(world, v, w);
      case Crash(v) => CrashIsQuiet(world, v);
      case Create(row, event) => CreateShape(world, row, event);
      case _ =>
    }
  }

  lemma ClaimSends(world: World, v: WorkerId, event: EventId, w: WorkerId)
    requires ClaimStep(world, v, event).Some?
    ensures var next := ClaimStep(world, v, event).value;
            next.PcOf(w).Settled? && next.PcOf(w) != world.PcOf(w) ==> NothingToDo(next, next.PcOf(w).event)
  {
  }

  lemma LockSends(world: World, v: WorkerId, w: WorkerId)
    requires WorkerOk(world, v) && LockStep(world, v).Some?
    ensures var next := LockStep(world, v).value;
            next.PcOf(w).Settled? && next.PcOf(w) != world.PcOf(w) ==> NothingToDo(next, next.PcOf(w).event)
  {
  }

  lemma AnswerSends(world: World, next: World, v: WorkerId, w: WorkerId, around: Surroundings)
    requires OnlyAnswers(world, next, v, around) && !around.brokerRaisesFinal
    ensures next.PcOf(w).Settled? ==> next.PcOf(w) == world.PcOf(w)
  {
  }

  lemma SavedIsDone(world: World, v: WorkerId, w: WorkerId)
    requires WorkerOk(world, v) && SaveStep(world, v).Some?
    ensures var next := SaveStep(world, v).value;
            next.PcOf(w).Settled? && next.PcOf(w) != world.PcOf(w) ==> NothingToDo(next, next.PcOf(w).event)
  {
    var pc := world.PcOf(v);
    if SaveResult(world.rows[pc.intent], pc.result).Ok? { SavedRow(world.rows[pc.intent], pc.result); }
    SaveErrors(world.rows[pc.intent], pc.result);
    hide SaveResult;
  }

  /** One committed row after a step: untouched, or a queued order that took a whole result along allowed edges. */
  predicate RowAdvances(before: Row, after: Row) {
    || after == before
    || (before.state.Queued? && !after.state.Queued? && AllowedPath(SavePath(Queued, after.state))
        && after == WithResult(before, after.AsBrokerResult()) && after.Key() == before.Key())
  }

  lemma WorkerIsOk(world: World, w: WorkerId)
    requires LocksOk(world)
    ensures WorkerOk(world, w)
  {
  }

  lemma SavedColumns(row: Row, result: BrokerResult)
    requires row.state.Queued? && SaveResult(row, result).Ok?
    ensures RowAdvances(row, SaveResult(row, result).value)
  {
    SaveIsAllOrNothing(row, result);
    SavedRow(row, result);
  }

  lemma StepAdvancesRows(world: World, step: Step, around: Surroundings, id: Id)
    requires LocksOk(world) && Apply(world, step, around).Some? && id in world.rows
    ensures var next := Apply(world, step, around).value; id in next.rows && RowAdvances(world.rows[id], next.rows[id])
  {
    hide LocksOk, AllowedPath, WithResult, SaveResult, CreateStep, ClaimStep, LockStep, LookUpStep, SendStep, ReplyStep, LookAgainStep,
         SaveStep, PublishStep, CrashStep, OnlyAnswers, Quiet, Idling;
    match step {
      case Create(row, event) => CreateShape(world, row, event);
      case Claim(w, event) => ClaimIsQuiet(world, w, event); QuietRows(world, Apply(world, step, around).value);
      case Lock(w) => LockIsQuiet(world, w); QuietRows(world, Apply(world, step, around).value);
      case LookUp(w, known) =>
        if known == Ok(None) { ClearIsIdling(world, w, around); IdlingRows(world, Apply(world, step, around).value); }
        else { AnswersOnly(world, step, around); AnswerRows(world, Apply(world, step, around).value, w, around); }
      case Send(w) => SendIsIdling(world, w); IdlingRows(world, Apply(world, step, around).value);
      case Reply(w, _) => AnswersOnly(world, step, around); AnswerRows(world, Apply(world, step, around).value, w, around);
      case LookAgain(w, _) => AnswersOnly(world, step, around); AnswerRows(world, Apply(world, step, around).value, w, around);
      case Save(w) => WorkerIsOk(world, w); SaveAdvances(world, w, id);
      case Publish(w) => PublishIsQuiet(world, w); QuietRows(world, Apply(world, step, around).value);
      case Crash(w) => CrashIsQuiet(world, w); QuietRows(world, Apply(world, step, around).value);
      case _ =>
    }
  }

  lemma QuietRows(world: World, next: World)
    requires Quiet(world, next)
    ensures next.rows == world.rows
  {
  }

  lemma IdlingRows(world: World, next: World)
    requires Idling(world, next)
    ensures next.rows == world.rows
  {
  }

  lemma AnswerRows(world: World, next: World, w: WorkerId, around: Surroundings)
    requires OnlyAnswers(world, next, w, around)
    ensures next.rows == world.rows
  {
  }

  lemma SaveAdvances(world: World, w: WorkerId, id: Id)
    requires WorkerOk(world, w) && SaveStep(world, w).Some? && id in world.rows
    ensures var next := SaveStep(world, w).value; id in next.rows && RowAdvances(world.rows[id], next.rows[id])
  {
    var pc := world.PcOf(w);
    if SaveResult(world.rows[pc.intent], pc.result).Ok? { SavedColumns(world.rows[pc.intent], pc.result); }
    hide SaveResult, RowAdvances;
    UnchangedAdvances(world.rows[id]);
  }

  lemma UnchangedAdvances(row: Row)
    ensures RowAdvances(row, row)
  {
  }

  /** Once an order has left QUEUED its committed row never changes again. */
  lemma {:induction false} ExecutedRowsAreFrozen(world: World, steps: seq<Step>, around: Surroundings, id: Id)
    requires LocksOk(world) && RunFrom(world, steps, around).Some? && id in world.rows
    ensures var end := RunFrom(world, steps, around).value; id in end.rows && RowAdvances(world.rows[id], end.rows[id])
    decreases |steps|
  {
    hide Apply, LocksOk, AllowedPath, WithResult;
    if steps != [] {
      StepAdvancesRows(world, steps[0], around, id);
      LocksKept(world, steps[0], around);
      ExecutedRowsAreFrozen(Apply(world, steps[0], around).value, steps[1..], around, id);
    }
  }

  // ---- Nothing gets stuck --------------------------------------------------------------------------------

  /**
   * In every reachable world each worker can go on, whatever the others do. An idle one can claim exactly the
   * unpublished events of the execution topic that nobody holds; one that claimed an event waits for nothing
   * but the lock of its row; inside `execute` any result, a timeout and an ordinary error are possible answers.
   */
  lemma NoWorkerIsStuck(steps: seq<Step>, around: Surroundings, w: WorkerId)
    requires Reach(steps, around).Some?
    ensures var world := Reach(steps, around).value;
            var pc := world.PcOf(w);
            match pc
            case Idle =>
              forall event :: Apply(world, Claim(w, event), around).Some?
                <==> event in world.events && !world.events[event].published && world.events[event].executionTopic && event !in world.eventLock
            case Claimed(_, intent) => Apply(world, Lock(w), around).Some? <==> intent !in world.rowLock
            case Locked(_, intent) =>
              && (forall known :: Apply(world, LookUp(w, Ok(Some(known))), around).Some?)
              && (forall error :: !IsTerminalError(error) || around.brokerRaisesFinal ==> Apply(world, LookUp(w, Raised(error)), around).Some?)
            case Cleared(_, _) => Apply(world, Send(w), around).Some?
            case Sent(_, _) =>
              && (forall result :: Apply(world, Reply(w, Ok(result)), around).Some?)
              && (forall error :: !IsTerminalError(error) || around.brokerRaisesFinal ==> Apply(world, Reply(w, Raised(error)), around).Some?)
            case Doubtful(_, _) =>
              && (forall known :: Apply(world, LookAgain(w, Ok(known)), around).Some?)
              && (forall error :: !IsTerminalError(error) || around.brokerRaisesFinal ==> Apply(world, LookAgain(w, Raised(error)), around).Some?)
            case Answered(_, _, _) => Apply(world, Save(w), around).Some?
            case Settled(_) => Apply(world, Publish(w), around).Some?
  {
    ReachedIsSound(steps, around);
    var world := Reach(steps, around).value;
    WorkerIsOk(world, w);
    if world.PcOf(w).Claimed? { LockedRowsExist(world, world.PcOf(w).intent); }
    hide Reach, LocksOk, Sound, SaveResult, Found, ValidateIdentity;
  }

  lemma LockedRowsExist(world: World, id: Id)
    requires LocksOk(world)
    ensures id in world.rowLock ==> id in world.rows
  {
    if id in world.rowLock { assert RowLockOk(world, id) && WorkerOk(world, world.rowLock[id]); }
  }

  /** A worker that dies loses exactly the locks it held; the stored data and the requests on their way stay. */
  lemma CrashLosesOnlyItsLocks(steps: seq<Step>, around: Surroundings, w: WorkerId)
    requires Reach(steps, around).Some?
    ensures var world, next := Reach(steps, around).value, Apply(Reach(steps, around).value, Crash(w), around);
            && next.Some? && next.value.PcOf(w).Idle? && (forall v :: v != w ==> next.value.PcOf(v) == world.PcOf(v))
            && next.value.rows == world.rows && next.value.events == world.events
            && next.value.inFlight == world.inFlight && next.value.accepted == world.accepted
            && next.value.rowLock == (map id | id in world.rowLock && world.rowLock[id] != w :: world.rowLock[id])
            && next.value.eventLock == (map event | event in world.eventLock && world.eventLock[event] != w :: world.eventLock[event])
  {
    ReachedIsSound(steps, around);
    var world := Reach(steps, around).value;
    WorkerIsOk(world, w);
    hide Reach, NeedsWork, OrdersOk, NothingStranded;
    forall id | id in world.rowLock && world.rowLock[id] == w ensures InExecution(world.PcOf(w)) && world.PcOf(w).intent == id {
      assert RowLockOk(world, id);
    }
    forall event | event in world.eventLock && world.eventLock[event] == w ensures !world.PcOf(w).Idle? && world.PcOf(w).event == event {
      assert EventLockOk(world, event);
    }
  }

  /** A request on its way may arrive or be lost at any moment, whatever became of the worker that sent it. */
  lemma RequestsArriveOrVanish(world: World, around: Surroundings, key: OrderKey)
    ensures var taken, lost := Apply(world, BrokerTakes(key), around), Apply(world, BrokerLoses(key), around);
            && (taken.Some? <==> 0 < world.inFlight[key]) && (lost.Some? <==> 0 < world.inFlight[key])
            && (taken.Some? ==>
                  && taken.value == world.(inFlight := taken.value.inFlight, accepted := taken.value.accepted)
                  && lost.value == world.(inFlight := taken.value.inFlight)
                  && taken.value.inFlight[key] == world.inFlight[key] - 1 && taken.value.accepted[key] == world.accepted[key] + 1
                  && forall other :: other != key ==>
                       taken.value.inFlight[other] == world.inFlight[other] && taken.value.accepted[other] == world.accepted[other])
  {
  }

  /**
   * Intents and other events may be stored at any moment: only an id, an event or a key already in use stands
   * in the way, and exactly a queued intent brings its own event. A consumer without a topic, where there is
   * one, may publish any event that nobody holds.
   */
  lemma OnlyClashesStopStoring(world: World, around: Surroundings, row: Row, event: EventId, content: OutboxEvent)
    ensures var stored, id := Apply(world, Create(row, event), around), row.intent.intentId;
            && (stored.Some? <==> id !in world.rows && event !in world.events
                                  && forall other :: other in world.rows ==> world.rows[other].Key() != row.Key())
            && (stored.Some? ==>
                  && stored.value.rows == world.rows[id := row]
                  && stored.value.events
                     == (if row.state == Queued then world.events[event := OutboxEvent(true, Some(id), false)] else world.events)
                  && stored.value.rowLock == world.rowLock && stored.value.eventLock == world.eventLock && stored.value.pcs == world.pcs
                  && stored.value.inFlight == world.inFlight && stored.value.accepted == world.accepted)
    ensures Apply(world, Announce(event, content), around)
            == if event in world.events then None else Some(world.(events := world.events[event := content]))
    ensures Apply(world, Dispatch(event), around).Some?
            <==> around.topiclessConsumer && event in world.events && event !in world.eventLock
  {
  }
}
