// Runs the protocol can always take: the sequential execution is one of them, and from every
// reachable world some run gets a waiting order off the queue.

module ProtocolRuns {
  import opened Prelude
  import opened OrderStates
  import opened Orders
  import opened ExecutionRules
  import opened Protocol
  import opened ProtocolInvariant
  import opened ProtocolTheorems

  // ---- The sequential execution is a run of the protocol -----------------------------------------------------

  function StoredIn(world: World, id: Id): Option<Row> {
    if id in world.rows then Some(world.rows[id]) else None
  }

  /** The world after worker `w` has carried out the execution `run` of `id` for `event`. */
  predicate Landed(before: World, end: World, w: WorkerId, event: EventId, id: Id, run: Execution) {
    && end.rows == (if run.row.Some? then before.rows[id := run.row.value] else before.rows)
    && id !in end.rowLock
    && end.PcOf(w) == (if run.outcome.Ok? || IsTerminalError(run.outcome.error) then Settled(event) else Idle)
    && end.accepted == before.accepted
    && end.inFlight == before.inFlight
                       + (if 0 < Submissions(run.calls) && id in before.rows then multiset{before.OrderKeyOf(id)} else multiset{})
  }

  /** The broker's answers are ones these surroundings allow. */
  predicate Permitted(script: BrokerScript, n: nat, around: Surroundings) {
    MayRaise(script.lookups(n), around) && MayRaise(script.submits(n + 1), around) && MayRaise(script.lookups(n + 2), around)
  }

  /** The same from inside `execute`, where nothing is left to send. */
  predicate Concluded(before: World, end: World, w: WorkerId, run: Execution) {
    var pc := before.PcOf(w);
    && !pc.Idle? && !pc.Settled? && run.row.Some?
    && end.rows == before.rows[pc.intent := run.row.value] && pc.intent !in end.rowLock
    && end.PcOf(w) == (if run.outcome.Ok? || IsTerminalError(run.outcome.error) then Settled(pc.event) else Idle)
    && end.accepted == before.accepted && end.inFlight == before.inFlight
  }

  /** An answer is settled and, if it is a result, saved. */
  lemma SettleAndSave(world: World, w: WorkerId, answer: Outcome<BrokerResult, ExecError>, calls: seq<BrokerCall>,
                      around: Surroundings) returns (steps: seq<Step>, end: World)
    requires InExecution(world.PcOf(w)) && world.PcOf(w).intent in world.rows
    ensures var pc := world.PcOf(w);
            && RunFrom(Settle(world, w, pc.event, pc.intent, answer), steps, around) == Some(end)
            && Concluded(world, end, w, Conclude(world.rows[pc.intent], answer, calls))
  {
    var pc := world.PcOf(w);
    var settled := Settle(world, w, pc.event, pc.intent, answer);
    if answer.Raised? {
      RaiseConcludes(world, w, answer.error, calls);
      steps, end := [], settled;
    } else {
      end := SaveConcludes(world, w, answer.value, calls);
      steps := [Save(w)];
      hide Settle, SaveStep, Concluded, Conclude;
      assert Apply(settled, Save(w), around) == Some(end);
      RunThrough([settled, end], steps, around);
    }
  }

  lemma RaiseConcludes(world: World, w: WorkerId, error: ExecError, calls: seq<BrokerCall>)
    requires InExecution(world.PcOf(w)) && world.PcOf(w).intent in world.rows
    ensures var pc := world.PcOf(w);
            Concluded(world, Raise(world, w, pc.event, pc.intent, error), w, Conclude(world.rows[pc.intent], Raised(error), calls))
  {
    var pc := world.PcOf(w);
    assert world.rows[pc.intent := world.rows[pc.intent]] == world.rows;
  }

  lemma SaveConcludes(world: World, w: WorkerId, result: BrokerResult, calls: seq<BrokerCall>) returns (end: World)
    requires InExecution(world.PcOf(w)) && world.PcOf(w).intent in world.rows
    ensures var pc := world.PcOf(w);
            && SaveStep(world.Move(w, Answered(pc.event, pc.intent, result)), w) == Some(end)
            && Concluded(world, end, w, Conclude(world.rows[pc.intent], Ok(result), calls))
  {
    hide SaveResult;
    var pc := world.PcOf(w);
    assert world.rows[pc.intent := world.rows[pc.intent]] == world.rows;
    end := SaveStep(world.Move(w, Answered(pc.event, pc.intent, result)), w).value;
  }

  lemma {:induction false} StepThen(world: World, step: Step, next: World, steps: seq<Step>, end: World, around: Surroundings)
    requires Apply(world, step, around) == Some(next) && RunFrom(next, steps, around) == Some(end)
    ensures RunFrom(world, [step] + steps, around) == Some(end)
  {
    hide Apply;
    assert ([step] + steps)[1..] == steps;
  }

  /** The submission timed out: the order is looked up once more. */
  lemma DoubtIsARun(world: World, w: WorkerId, known: Outcome<Option<BrokerResult>, ExecError>, calls: seq<BrokerCall>,
                    around: Surroundings) returns (steps: seq<Step>, end: World)
    requires world.PcOf(w).Doubtful? && world.PcOf(w).intent in world.rows && MayRaise(known, around)
    ensures var row := world.rows[world.PcOf(w).intent];
            && RunFrom(world, steps, around) == Some(end)
            && Concluded(world, end, w, Conclude(row, Found(row.Key(), known, UnknownResult(row.Key())), calls))
  {
    var pc := world.PcOf(w);
    var key := world.rows[pc.intent].Key();
    var answer := Found(key, known, UnknownResult(key));
    var rest;
    rest, end := SettleAndSave(world, w, answer, calls, around);
    assert Apply(world, LookAgain(w, known), around) == Some(Settle(world, w, pc.event, pc.intent, answer));
    hide Apply, Settle, Concluded, Conclude, Found;
    StepThen(world, LookAgain(w, known), Settle(world, w, pc.event, pc.intent, answer), rest, end, around);
    steps := [LookAgain(w, known)] + rest;
  }

  /** The submission was answered: the answer is checked and saved. */
  lemma ReplyIsARun(world: World, w: WorkerId, answer: Outcome<BrokerResult, ExecError>, calls: seq<BrokerCall>,
                    around: Surroundings) returns (steps: seq<Step>, end: World)
    requires world.PcOf(w).Sent? && world.PcOf(w).intent in world.rows && MayRaise(answer, around)
    requires answer != Raised(TimedOut)
    ensures var row := world.rows[world.PcOf(w).intent];
            && RunFrom(world, steps, around) == Some(end)
            && Concluded(world, end, w, Conclude(row, Validated(row.Key(), answer), calls))
  {
    var pc := world.PcOf(w);
    var checked := Validated(world.rows[pc.intent].Key(), answer);
    var rest;
    rest, end := SettleAndSave(world, w, checked, calls, around);
    assert Apply(world, Reply(w, answer), around) == Some(Settle(world, w, pc.event, pc.intent, checked));
    hide Apply, Settle, Concluded, Conclude, Validated;
    StepThen(world, Reply(w, answer), Settle(world, w, pc.event, pc.intent, checked), rest, end, around);
    steps := [Reply(w, answer)] + rest;
  }

  lemma SentIsARun(world: World, w: WorkerId, script: BrokerScript, n: nat, around: Surroundings)
    returns (steps: seq<Step>, end: World)
    requires world.PcOf(w).Sent? && world.PcOf(w).intent in world.rows && Permitted(script, n, around)
    ensures var row := world.rows[world.PcOf(w).intent];
            && RunFrom(world, steps, around) == Some(end)
            && Concluded(world, end, w, Resubmit(row, row.intent, script, n))
  {
    var pc := world.PcOf(w);
    var row := world.rows[pc.intent];
    var look, send := Lookup(row.intent.accountId, row.Key()), Submit(row.intent);
    var answer := script.submits(n + 1);
    if answer == Raised(TimedOut) {
      var doubtful := world.Move(w, Doubtful(pc.event, pc.intent));
      assert Apply(world, Reply(w, answer), around) == Some(doubtful);
      var rest;
      rest, end := DoubtIsARun(doubtful, w, script.lookups(n + 2), [look, send, look], around);
      hide Apply, Conclude, Found;
      StepThen(world, Reply(w, answer), doubtful, rest, end, around);
      steps := [Reply(w, answer)] + rest;
    } else {
      steps, end := ReplyIsARun(world, w, answer, [look, send], around);
    }
  }

  /** The lookup found nothing: the order is sent, and whatever comes back is settled. */
  lemma ResubmitIsARun(world: World, w: WorkerId, script: BrokerScript, n: nat, around: Surroundings)
    returns (steps: seq<Step>, end: World)
    requires world.PcOf(w).Locked? && world.PcOf(w).intent in world.rows
    requires Permitted(script, n, around) && MayBeAbsent(world, world.PcOf(w).intent, around)
    ensures var pc := world.PcOf(w);
            var row := world.rows[pc.intent];
            && RunFrom(world, steps, around) == Some(end)
            && Landed(world, end, w, pc.event, pc.intent, Resubmit(row, row.intent, script, n))
  {
    var pc := world.PcOf(w);
    var row := world.rows[pc.intent];
    var cleared := world.Move(w, Cleared(pc.event, pc.intent));
    var sent := cleared.(inFlight := cleared.inFlight + multiset{world.OrderKeyOf(pc.intent)}).Move(w, Sent(pc.event, pc.intent));
    assert Apply(world, LookUp(w, Ok(None)), around) == Some(cleared);
    assert Apply(cleared, Send(w), around) == Some(sent);
    var rest;
    rest, end := SentIsARun(sent, w, script, n, around);
    ResubmitSendsOnce(row, script, n);
    hide Apply, Resubmit, Submissions;
    StepThen(cleared, Send(w), sent, rest, end, around);
    StepThen(world, LookUp(w, Ok(None)), cleared, [Send(w)] + rest, end, around);
    steps := [LookUp(w, Ok(None))] + ([Send(w)] + rest);
  }

  lemma ResubmitSendsOnce(row: Row, script: BrokerScript, n: nat)
    ensures Submissions(Resubmit(row, row.intent, script, n).calls) == 1
  {
    CountCalls(Lookup(row.intent.accountId, row.Key()), Submit(row.intent));
  }

  /** The row needs no broker: it is missing, lacks evidence, has left QUEUED, or cannot be read. */
  lemma LockAloneIsARun(world: World, w: WorkerId, script: BrokerScript, n: nat, around: Surroundings)
    returns (steps: seq<Step>, end: World)
    requires world.PcOf(w).Claimed? && world.PcOf(w).intent !in world.rowLock
    requires NeedsWork(world, world.PcOf(w).intent) ==> !world.rows[world.PcOf(w).intent].intent.Valid()
    ensures var pc := world.PcOf(w);
            && RunFrom(world, steps, around) == Some(end)
            && Landed(world, end, w, pc.event, pc.intent, Execute(StoredIn(world, pc.intent), script, n))
  {
    var pc := world.PcOf(w);
    end := LockStep(world, w).value;
    steps := [Lock(w)];
    assert pc.intent in world.rows ==> world.rows[pc.intent := world.rows[pc.intent]] == world.rows;
    assert Submissions([]) == 0;
    RunThrough([world, end], steps, around);
  }

  /** The first lookup settles the order: it is known, or the lookup raises. */
  lemma KnownIsARun(world: World, w: WorkerId, script: BrokerScript, n: nat, around: Surroundings)
    returns (steps: seq<Step>, end: World)
    requires world.PcOf(w).Locked? && NeedsWork(world, world.PcOf(w).intent) && world.rows[world.PcOf(w).intent].intent.Valid()
    requires Permitted(script, n, around) && script.lookups(n) != Ok(None)
    ensures var pc := world.PcOf(w);
            && RunFrom(world, steps, around) == Some(end)
            && Landed(world, end, w, pc.event, pc.intent, Execute(Some(world.rows[pc.intent]), script, n))
  {
    var pc := world.PcOf(w);
    var row := world.rows[pc.intent];
    var look := Lookup(row.intent.accountId, row.Key());
    var known := script.lookups(n);
    var answer := Found(row.Key(), known, UnknownResult(row.Key()));
    var rest;
    rest, end := SettleAndSave(world, w, answer, [look], around);
    FoundConcludes(row, script, n);
    CountCalls(look, Submit(row.intent));
    assert Conclude(row, answer, [look]).calls == [look];
    assert Apply(world, LookUp(w, known), around) == Some(Settle(world, w, pc.event, pc.intent, answer));
    hide Apply, Settle, Conclude, Found, Submissions, Execute;
    StepThen(world, LookUp(w, known), Settle(world, w, pc.event, pc.intent, answer), rest, end, around);
    steps := [LookUp(w, known)] + rest;
  }

  /**
   * What `execute` does in one go is a run of the protocol: a worker that claimed the event can take
   * steps that leave the row, the locks, the requests sent and the worker's next move as the sequential
   * execution says.
   */
  lemma ExecuteIsARun(world: World, w: WorkerId, script: BrokerScript, n: nat, around: Surroundings)
    returns (steps: seq<Step>, end: World)
    requires world.PcOf(w).Claimed? && world.PcOf(w).intent !in world.rowLock
    requires Permitted(script, n, around)
    requires world.PcOf(w).intent in world.rows && script.lookups(n) == Ok(None) ==>
               MayBeAbsent(world, world.PcOf(w).intent, around)
    ensures var pc := world.PcOf(w);
            && RunFrom(world, steps, around) == Some(end)
            && Landed(world, end, w, pc.event, pc.intent, Execute(StoredIn(world, pc.intent), script, n))
  {
    var pc := world.PcOf(w);
    if !NeedsWork(world, pc.intent) || !world.rows[pc.intent].intent.Valid() {
      steps, end := LockAloneIsARun(world, w, script, n, around);
    } else {
      var locked := world.(rowLock := world.rowLock[pc.intent := w]).Move(w, Locked(pc.event, pc.intent));
      assert Apply(world, Lock(w), around) == Some(locked);
      var rest;
      if script.lookups(n) == Ok(None) {
        NoneResubmits(world.rows[pc.intent], script, n);
        rest, end := ResubmitIsARun(locked, w, script, n, around);
      } else {
        rest, end := KnownIsARun(locked, w, script, n, around);
      }
      hide Apply, Execute, Resubmit, Permitted, Submissions;
      StepThen(world, Lock(w), locked, rest, end, around);
      steps := [Lock(w)] + rest;
    }
  }

  lemma NoneResubmits(row: Row, script: BrokerScript, n: nat)
    requires row.HasEvidence() && row.state.Queued? && row.intent.Valid() && script.lookups(n) == Ok(None)
    ensures Execute(Some(row), script, n) == Resubmit(row, row.intent, script, n)
  {
  }

  lemma FoundConcludes(row: Row, script: BrokerScript, n: nat)
    requires row.HasEvidence() && row.state.Queued? && row.intent.Valid() && script.lookups(n) != Ok(None)
    ensures var look := [Lookup(row.intent.accountId, row.Key())];
            var answer := Found(row.Key(), script.lookups(n), UnknownResult(row.Key()));
            Execute(Some(row), script, n) == Conclude(row, answer, look)
  {
  }

  // ---- No order waits for ever -------------------------------------------------------------------------------

  /** A result the save of a queued order accepts: it names the order, at a state one or two allowed steps away. */
  predicate Savable(key: Key, result: BrokerResult) {
    result.clientOrderId == key && AllowedPath(SavePath(Queued, result.state))
  }

  predicate FindsSavable(key: Key, known: Outcome<Option<BrokerResult>, ExecError>) {
    known.Ok? && (known.value.Some? ==> Savable(key, known.value.value))
  }

  /** The broker answers: its lookups do not raise, a submission may at worst time out, and every result can be saved. */
  predicate Answers(script: BrokerScript, n: nat, key: Key) {
    && FindsSavable(key, script.lookups(n)) && FindsSavable(key, script.lookups(n + 2))
    && (script.submits(n + 1) == Raised(TimedOut) || (script.submits(n + 1).Ok? && Savable(key, script.submits(n + 1).value)))
  }

  /** Against a broker that answers, an execution saves a result. */
  lemma AnsweredIsSaved(row: Row, script: BrokerScript, n: nat)
    requires row.HasEvidence() && row.state.Queued? && row.intent.Valid() && Answers(script, n, row.Key())
    ensures var run := Execute(Some(row), script, n);
            && run.outcome.Ok? && run.row == Some(WithResult(row, run.outcome.value)) && !run.row.value.state.Queued?
  {
    hide AllowedPath;
    SavableIsSaved(row, UnknownResult(row.Key()));
    UnknownIsSavable(row.Key());
    if script.lookups(n).value.Some? { SavableIsSaved(row, script.lookups(n).value.value); }
    if script.submits(n + 1).Ok? { SavableIsSaved(row, script.submits(n + 1).value); }
    if script.lookups(n + 2).value.Some? { SavableIsSaved(row, script.lookups(n + 2).value.value); }
    hide SaveResult, SavePath;
  }

  lemma SavableIsSaved(row: Row, result: BrokerResult)
    requires row.state.Queued?
    ensures Savable(row.Key(), result) ==> SaveResult(row, result) == Ok(WithResult(row, result)) && !result.state.Queued?
  {
    SaveIsAllOrNothing(row, result);
  }

  lemma UnknownIsSavable(key: Key)
    ensures Savable(key, UnknownResult(key))
  {
  }

  /** There always is such a broker: the one that knows the order but not what became of it. */
  lemma SomeBrokerAnswers(key: Key) returns (script: BrokerScript)
    ensures script.lookups(0) != Ok(None) && Answers(script, 0, key) && forall around :: Permitted(script, 0, around)
  {
    UnknownIsSavable(key);
    script := BrokerScript(_ => Ok(Some(UnknownResult(key))), _ => Raised(TimedOut));
  }

  /**
   * From every reachable world a waiting order can still be executed, against any broker that answers:
   * whoever holds its event or its row may crash, and any idle worker can then claim the event, go through
   * the execution, and commit exactly the result that this broker's answers lead to.
   */
  lemma WaitingOrderCanBeExecuted(world: World, id: Id, w: WorkerId, script: BrokerScript, n: nat, around: Surroundings)
    returns (steps: seq<Step>, end: World)
    requires Sound(world, around) && !around.brokerRaisesFinal && !around.topiclessConsumer
    requires NeedsWork(world, id) && world.rows[id].intent.Valid() && world.PcOf(w).Idle?
    requires Answers(script, n, world.rows[id].Key())
    requires script.lookups(n) == Ok(None) ==> MayBeAbsent(world, id, around)
    ensures RunFrom(world, steps, around) == Some(end)
    ensures var run := Execute(Some(world.rows[id]), script, n);
            && run.outcome.Ok? && id in end.rows && end.rows[id] == WithResult(world.rows[id], run.outcome.value)
            && !end.rows[id].state.Queued? && end.PcOf(w).Settled? && id !in end.rowLock
  {
    hide Apply, LocksOk, OrdersOk, NothingStranded, CrashStep, Answers, Execute;
    EventOfWork(world, id);
    var home := world.home[id];
    var u := if home in world.eventLock then world.eventLock[home] else w;
    var one := CrashStep(world, u);
    CrashKeepsLocks(world, u);
    CrashFrees(world, u, w, home, id);
    var v := if id in one.rowLock then one.rowLock[id] else w;
    var two := CrashStep(one, v);
    CrashKeepsLocks(one, v);
    CrashFrees(one, v, w, home, id);
    ApplyCrash(world, u, around);
    ApplyCrash(one, v, around);
    var rest;
    rest, end := ExecuteWaiting(two, id, home, w, script, n, around);
    StepThen(one, Crash(v), two, rest, end, around);
    StepThen(world, Crash(u), one, [Crash(v)] + rest, end, around);
    steps := [Crash(u)] + ([Crash(v)] + rest);
  }

  lemma ApplyCrash(world: World, w: WorkerId, around: Surroundings)
    ensures Apply(world, Crash(w), around) == Some(CrashStep(world, w))
  {
  }

  lemma EventOfWork(world: World, id: Id)
    requires LocksOk(world) && NothingStranded(world) && NeedsWork(world, id)
    ensures id in world.home && world.home[id] in world.events
    ensures world.events[world.home[id]] == OutboxEvent(true, Some(id), false)
  {
    assert HomeOk(world, id) && WorkOk(world, id);
  }

  /** A crash changes no committed data and nobody else's locks, and takes every lock of its worker. */
  lemma CrashFrees(world: World, w: WorkerId, v: WorkerId, event: EventId, id: Id)
    requires LocksOk(world)
    ensures var next := CrashStep(world, w);
            && next.rows == world.rows && next.home == world.home && next.events == world.events
            && next.inFlight == world.inFlight && next.accepted == world.accepted
            && (world.PcOf(v).Idle? || v == w ==> next.PcOf(v).Idle?)
            && (event in next.eventLock ==> event in world.eventLock && next.eventLock[event] == world.eventLock[event] != w)
            && (id in next.rowLock ==> id in world.rowLock && next.rowLock[id] == world.rowLock[id] != w)
  {
    LockIsOk(world, event, id);
    hide LocksOk;
    if !world.PcOf(w).Idle? {
      var next := CrashStep(world, w);
      CrashShape(world, w);
      hide CrashStep, World.PcOf;
      PcAfter(world, next, w, Idle, v);
    }
  }

  lemma LockIsOk(world: World, event: EventId, id: Id)
    requires LocksOk(world)
    ensures EventLockOk(world, event) && RowLockOk(world, id)
  {
  }

  lemma ExecuteWaiting(world: World, id: Id, event: EventId, w: WorkerId, script: BrokerScript, n: nat, around: Surroundings)
    returns (steps: seq<Step>, end: World)
    requires NeedsWork(world, id) && world.rows[id].intent.Valid() && world.PcOf(w).Idle?
    requires event in world.events && world.events[event] == OutboxEvent(true, Some(id), false)
    requires event !in world.eventLock && id !in world.rowLock
    requires Answers(script, n, world.rows[id].Key())
    requires script.lookups(n) == Ok(None) ==> MayBeAbsent(world, id, around)
    ensures RunFrom(world, steps, around) == Some(end)
    ensures var run := Execute(Some(world.rows[id]), script, n);
            && run.outcome.Ok? && id in end.rows && end.rows[id] == WithResult(world.rows[id], run.outcome.value)
            && !end.rows[id].state.Queued? && end.PcOf(w).Settled? && id !in end.rowLock
  {
    var claimed := world.(eventLock := world.eventLock[event := w]).Move(w, Claimed(event, id));
    assert Apply(world, Claim(w, event), around) == Some(claimed);
    assert Permitted(script, n, around);
    AnsweredIsSaved(world.rows[id], script, n);
    hide Apply, Answers, Execute, Permitted, Submissions;
    var rest;
    rest, end := ExecuteIsARun(claimed, w, script, n, around);
    StepThen(world, Claim(w, event), claimed, rest, end, around);
    steps := [Claim(w, event)] + rest;
  }
}
