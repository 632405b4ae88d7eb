// What every reachable world of the execution protocol satisfies, one step at a time.

module ProtocolInvariant {
  import opened Prelude
  import opened OrderStates
  import opened Orders
  import opened ExecutionRules
  import opened Protocol

  // ---- Locks and rows ----------------------------------------------------------------------------------------

  /** A worker that is busy holds its event; one inside `execute` holds the row of a queued, complete intent. */
  predicate WorkerOk(world: World, w: WorkerId) {
    var pc := world.PcOf(w);
    && (!pc.Idle? ==>
          && pc.event in world.events && pc.event in world.eventLock && world.eventLock[pc.event] == w)
    && (pc.Claimed? ==> world.events[pc.event].payload == Some(pc.intent))
    && (InExecution(pc) ==>
          && world.events[pc.event].payload == Some(pc.intent)
          && pc.intent in world.rowLock && world.rowLock[pc.intent] == w
          && NeedsWork(world, pc.intent) && world.rows[pc.intent].intent.Valid())
  }

  predicate RowLockOk(world: World, id: Id) {
    id in world.rowLock ==> InExecution(world.PcOf(world.rowLock[id])) && world.PcOf(world.rowLock[id]).intent == id
  }

  predicate EventLockOk(world: World, event: EventId) {
    event in world.eventLock ==>
      !world.PcOf(world.eventLock[event]).Idle? && world.PcOf(world.eventLock[event]).event == event
  }

  /** The stored order is queued with its evidence: some worker must still execute it. */
  predicate NeedsWork(world: World, id: Id) {
    id in world.rows && world.rows[id].state.Queued? && world.rows[id].HasEvidence()
  }

  /** A queued intent has its own event, written with it and naming it. */
  predicate HomeOk(world: World, id: Id) {
    id in world.rows && world.rows[id].state.Queued? ==>
      && id in world.home && world.home[id] in world.events
      && world.events[world.home[id]].executionTopic && world.events[world.home[id]].payload == Some(id)
  }

  predicate KeysUnique(world: World) {
    forall i, j :: i in world.rows && j in world.rows && world.rows[i].Key() == world.rows[j].Key() ==> i == j
  }

  ghost predicate LocksOk(world: World) {
    && (forall w :: WorkerOk(world, w))
    && (forall id :: RowLockOk(world, id))
    && (forall event :: EventLockOk(world, event))
    && (forall id :: HomeOk(world, id))
    && KeysUnique(world)
  }

  /** The row held by a worker is held by nobody else, and likewise its event. */
  lemma HeldAlone(world: World, v: WorkerId, w: WorkerId)
    requires LocksOk(world) && v != w
    ensures !world.PcOf(v).Idle? && !world.PcOf(w).Idle? ==> world.PcOf(v).event != world.PcOf(w).event
    ensures InExecution(world.PcOf(v)) && InExecution(world.PcOf(w)) ==> world.PcOf(v).intent != world.PcOf(w).intent
  {
    assert WorkerOk(world, v) && WorkerOk(world, w);
  }

  /** A worker inside `execute` moves on to another step of it. */
  lemma MoveKeepsLocks(world: World, w: WorkerId, pc: Pc)
    requires LocksOk(world) && InExecution(world.PcOf(w)) && InExecution(pc)
    requires pc.event == world.PcOf(w).event && pc.intent == world.PcOf(w).intent
    ensures LocksOk(world.Move(w, pc))
  {
    var next := world.Move(w, pc);
    hide NeedsWork;
    forall v ensures WorkerOk(next, v) { assert WorkerOk(world, v) && WorkerOk(world, w); NeedsSameWork(world, next); }
    forall id ensures RowLockOk(next, id) { assert RowLockOk(world, id); }
    forall event ensures EventLockOk(next, event) { assert EventLockOk(world, event); }
    forall id ensures HomeOk(next, id) { assert HomeOk(world, id); }
  }

  lemma NeedsSameWork(world: World, next: World)
    requires next.rows == world.rows
    ensures forall id :: NeedsWork(next, id) <==> NeedsWork(world, id)
  {
  }

  /** A busy worker that holds no row any more, before or after giving it up, goes on to publish. */
  lemma LeaveForPublishing(world: World, w: WorkerId)
    requires LocksOk(world) && !world.PcOf(w).Idle?
    ensures var pc := world.PcOf(w);
            var freed := if InExecution(pc) then world.FreeRow(pc.intent) else world;
            LocksOk(freed.Move(w, Settled(pc.event)))
  {
    var pc := world.PcOf(w);
    var next := (if InExecution(pc) then world.FreeRow(pc.intent) else world).Move(w, Settled(pc.event));
    hide NeedsWork;
    NeedsSameWork(world, next);
    forall v ensures WorkerOk(next, v) {
      assert WorkerOk(world, v) && WorkerOk(world, w);
      if v != w { HeldAlone(world, v, w); }
    }
    forall id ensures RowLockOk(next, id) { assert RowLockOk(world, id) && WorkerOk(world, w); }
    forall event ensures EventLockOk(next, event) { assert EventLockOk(world, event) && WorkerOk(world, w); }
    forall id ensures HomeOk(next, id) { assert HomeOk(world, id); }
  }

  /** A dead worker takes its locks with it, and nothing else. */
  lemma CrashShape(world: World, w: WorkerId)
    requires !world.PcOf(w).Idle?
    ensures var pc, next := world.PcOf(w), CrashStep(world, w);
            && next.rows == world.rows && next.home == world.home && next.events == world.events
            && next.inFlight == world.inFlight && next.accepted == world.accepted
            && next.pcs == world.pcs[w := Idle] && next.eventLock == world.eventLock - {pc.event}
            && next.rowLock == if InExecution(pc) then world.rowLock - {pc.intent} else world.rowLock
  {
  }

  /** Where a worker stands after one worker moved. */
  lemma PcAfter(world: World, next: World, w: WorkerId, pc: Pc, v: WorkerId)
    requires next.pcs == world.pcs[w := pc]
    ensures next.PcOf(v) == if v == w then pc else world.PcOf(v)
  {
  }

  /** A crash, an exception that is not final, or the end of publishing: every lock of the worker goes. */
  lemma CrashKeepsLocks(world: World, w: WorkerId)
    requires LocksOk(world)
    ensures LocksOk(CrashStep(world, w))
  {
    if !world.PcOf(w).Idle? {
      var next := CrashStep(world, w);
      CrashShape(world, w);
      hide CrashStep, NeedsWork, World.PcOf;
      NeedsSameWork(world, next);
      forall v ensures WorkerOk(next, v) {
        assert WorkerOk(world, v) && WorkerOk(world, w);
        PcAfter(world, next, w, Idle, v);
        if v != w { HeldAlone(world, v, w); }
      }
      forall id ensures RowLockOk(next, id) {
        assert RowLockOk(world, id) && WorkerOk(world, w);
        if id in next.rowLock { PcAfter(world, next, w, Idle, next.rowLock[id]); }
      }
      forall event ensures EventLockOk(next, event) {
        assert EventLockOk(world, event) && WorkerOk(world, w);
        if event in next.eventLock { PcAfter(world, next, w, Idle, next.eventLock[event]); }
      }
      forall id ensures HomeOk(next, id) { assert HomeOk(world, id); }
    }
  }

  lemma RaiseKeepsLocks(world: World, w: WorkerId, error: ExecError)
    requires LocksOk(world) && InExecution(world.PcOf(w))
    ensures LocksOk(Raise(world, w, world.PcOf(w).event, world.PcOf(w).intent, error))
  {
    hide LocksOk;
    if IsTerminalError(error) { LeaveForPublishing(world, w); } else { CrashKeepsLocks(world, w); }
  }

  lemma SettleKeepsLocks(world: World, w: WorkerId, answer: Outcome<BrokerResult, ExecError>)
    requires LocksOk(world) && InExecution(world.PcOf(w))
    ensures LocksOk(Settle(world, w, world.PcOf(w).event, world.PcOf(w).intent, answer))
  {
    hide LocksOk, Raise;
    match answer {
      case Raised(error) => RaiseKeepsLocks(world, w, error);
      case Ok(result) => MoveKeepsLocks(world, w, Answered(world.PcOf(w).event, world.PcOf(w).intent, result));
    }
  }

  /** Creation adds one row under fresh names and touches nothing else. */
  lemma CreateShape(world: World, row: Row, event: EventId)
    requires CreateStep(world, row, event).Some?
    ensures var id, next := row.intent.intentId, CreateStep(world, row, event).value;
            && id !in world.rows && event !in world.events && next.rows == world.rows[id := row]
            && next.pcs == world.pcs && next.rowLock == world.rowLock && next.eventLock == world.eventLock
            && next.inFlight == world.inFlight && next.accepted == world.accepted
            && (if row.state.Queued? then
                  && next.home == world.home[id := event]
                  && next.events == world.events[event := OutboxEvent(true, Some(id), false)]
                else next.home == world.home && next.events == world.events)
    ensures forall other :: other in world.rows ==> world.rows[other].Key() != row.Key()
  {
  }

  lemma CreateKeepsLocks(world: World, row: Row, event: EventId)
    requires LocksOk(world) && CreateStep(world, row, event).Some?
    ensures LocksOk(CreateStep(world, row, event).value)
  {
    var next := CreateStep(world, row, event).value;
    CreateShape(world, row, event);
    hide CreateStep;
    assert KeysUnique(next) by { hide HomeOk, WorkerOk; }
    hide KeysUnique;
    forall v ensures WorkerOk(next, v) { assert WorkerOk(world, v); }
    forall id ensures RowLockOk(next, id) { assert RowLockOk(world, id); }
    forall e ensures EventLockOk(next, e) { assert EventLockOk(world, e); }
    forall id ensures HomeOk(next, id) { assert HomeOk(world, id); }
  }

  lemma ClaimKeepsLocks(world: World, w: WorkerId, event: EventId)
    requires LocksOk(world) && ClaimStep(world, w, event).Some?
    ensures LocksOk(ClaimStep(world, w, event).value)
  {
    var next := ClaimStep(world, w, event).value;
    hide NeedsWork;
    NeedsSameWork(world, next);
    forall v ensures WorkerOk(next, v) { assert WorkerOk(world, v); }
    forall id ensures RowLockOk(next, id) { assert RowLockOk(world, id); }
    forall e ensures EventLockOk(next, e) { assert EventLockOk(world, e); }
    forall id ensures HomeOk(next, id) { assert HomeOk(world, id); }
  }

  /** What waiting for the row lock can end in. */
  lemma LockShape(world: World, w: WorkerId)
    requires LockStep(world, w).Some?
    ensures var pc, next := world.PcOf(w), LockStep(world, w).value;
            && pc.Claimed?
            && (|| (next == world.Move(w, Settled(pc.event)) && !NeedsWork(world, pc.intent))
                || next == world.FreeEvent(pc.event).Move(w, Idle)
                || (&& next == world.(rowLock := world.rowLock[pc.intent := w]).Move(w, Locked(pc.event, pc.intent))
                    && pc.intent !in world.rowLock && NeedsWork(world, pc.intent) && world.rows[pc.intent].intent.Valid()))
  {
  }

  lemma LockedKeepsLocks(world: World, w: WorkerId)
    requires LocksOk(world) && world.PcOf(w).Claimed? && world.PcOf(w).intent !in world.rowLock
    requires NeedsWork(world, world.PcOf(w).intent) && world.rows[world.PcOf(w).intent].intent.Valid()
    ensures var pc := world.PcOf(w);
            LocksOk(world.(rowLock := world.rowLock[pc.intent := w]).Move(w, Locked(pc.event, pc.intent)))
  {
    var pc := world.PcOf(w);
    var next := world.(rowLock := world.rowLock[pc.intent := w]).Move(w, Locked(pc.event, pc.intent));
    NeedsSameWork(world, next);
    assert next.pcs == world.pcs[w := Locked(pc.event, pc.intent)];
    hide NeedsWork, World.PcOf;
    forall v ensures WorkerOk(next, v) {
      assert WorkerOk(world, v) && WorkerOk(world, w);
      PcAfter(world, next, w, Locked(pc.event, pc.intent), v);
    }
    forall id ensures RowLockOk(next, id) {
      assert RowLockOk(world, id);
      if id in next.rowLock { PcAfter(world, next, w, Locked(pc.event, pc.intent), next.rowLock[id]); }
    }
    forall e ensures EventLockOk(next, e) {
      assert EventLockOk(world, e) && WorkerOk(world, w);
      if e in next.eventLock { PcAfter(world, next, w, Locked(pc.event, pc.intent), next.eventLock[e]); }
    }
    forall id ensures HomeOk(next, id) { assert HomeOk(world, id); }
  }

  lemma NeededIsStored(world: World, id: Id)
    ensures NeedsWork(world, id) ==> id in world.rows
  {
  }

  lemma LockKeepsLocks(world: World, w: WorkerId)
    requires LocksOk(world) && LockStep(world, w).Some?
    ensures LocksOk(LockStep(world, w).value)
  {
    LockShape(world, w);
    hide LockStep, LocksOk, NeedsWork;
    LeaveForPublishing(world, w);
    CrashKeepsLocks(world, w);
    var pc := world.PcOf(w);
    NeededIsStored(world, pc.intent);
    if pc.intent !in world.rowLock && NeedsWork(world, pc.intent) && world.rows[pc.intent].intent.Valid() {
      LockedKeepsLocks(world, w);
    }
  }

  /** Events change only by being published. */
  lemma PublishedKeepsLocks(world: World, event: EventId)
    requires LocksOk(world) && event in world.events
    ensures LocksOk(world.(events := world.events[event := world.events[event].(published := true)]))
  {
    var next := world.(events := world.events[event := world.events[event].(published := true)]);
    hide NeedsWork;
    NeedsSameWork(world, next);
    forall v ensures WorkerOk(next, v) { assert WorkerOk(world, v); }
    forall id ensures RowLockOk(next, id) { assert RowLockOk(world, id); }
    forall e ensures EventLockOk(next, e) { assert EventLockOk(world, e); }
    forall id ensures HomeOk(next, id) { assert HomeOk(world, id); }
  }

  /** New events, and everything that happens at the broker, leave the locks alone. */
  lemma OutsideKeepsLocks(world: World, next: World)
    requires LocksOk(world)
    requires next.rows == world.rows && next.home == world.home && next.pcs == world.pcs
    requires next.rowLock == world.rowLock && next.eventLock == world.eventLock
    requires forall e :: e in world.events ==> e in next.events && next.events[e] == world.events[e]
    ensures LocksOk(next)
  {
    hide NeedsWork;
    NeedsSameWork(world, next);
    forall v ensures WorkerOk(next, v) { assert WorkerOk(world, v); }
    forall id ensures RowLockOk(next, id) { assert RowLockOk(world, id); }
    forall e ensures EventLockOk(next, e) { assert EventLockOk(world, e); }
    forall id ensures HomeOk(next, id) { assert HomeOk(world, id); }
  }

  /** What a save does to the row it holds. */
  lemma SavedRow(row: Row, result: BrokerResult)
    requires row.state.Queued? && SaveResult(row, result).Ok?
    ensures var saved := SaveResult(row, result).value;
            saved.intent == row.intent && !saved.state.Queued? && saved.HasEvidence() == row.HasEvidence()
  {
  }

  /** A successful save commits the row, frees it and goes on to publish. */
  lemma SaveShape(world: World, w: WorkerId)
    requires SaveStep(world, w).Some?
    ensures var pc, next := world.PcOf(w), SaveStep(world, w).value;
            && pc.Answered? && pc.intent in world.rows
            && match SaveResult(world.rows[pc.intent], pc.result)
               case Raised(error) => next == Raise(world, w, pc.event, pc.intent, error)
               case Ok(row) =>
                 && next.rows == world.rows[pc.intent := row] && next.home == world.home && next.events == world.events
                 && next.inFlight == world.inFlight && next.accepted == world.accepted
                 && next.pcs == world.pcs[w := Settled(pc.event)] && next.eventLock == world.eventLock
                 && next.rowLock == world.rowLock - {pc.intent}
  {
    hide SaveResult, Raise;
  }

  lemma SaveKeepsLocks(world: World, w: WorkerId)
    requires LocksOk(world) && SaveStep(world, w).Some?
    ensures LocksOk(SaveStep(world, w).value)
  {
    var pc, next := world.PcOf(w), SaveStep(world, w).value;
    SaveShape(world, w);
    assert WorkerOk(world, w);
    if SaveResult(world.rows[pc.intent], pc.result).Raised? {
      hide SaveResult, SaveStep, Raise, LocksOk;
      RaiseKeepsLocks(world, w, SaveResult(world.rows[pc.intent], pc.result).error);
    } else {
      SavedRow(world.rows[pc.intent], pc.result);
      hide SaveResult, SaveStep, World.PcOf;
      forall v ensures WorkerOk(next, v) {
        assert WorkerOk(world, v);
        PcAfter(world, next, w, Settled(pc.event), v);
        if v != w { HeldAlone(world, v, w); }
      }
      forall id ensures RowLockOk(next, id) {
        assert RowLockOk(world, id);
        if id in next.rowLock { PcAfter(world, next, w, Settled(pc.event), next.rowLock[id]); }
      }
      forall e ensures EventLockOk(next, e) {
        assert EventLockOk(world, e);
        if e in next.eventLock { PcAfter(world, next, w, Settled(pc.event), next.eventLock[e]); }
      }
      forall id ensures HomeOk(next, id) { assert HomeOk(world, id); }
    }
  }

  lemma LocksKept(world: World, step: Step, around: Surroundings)
    requires LocksOk(world) && Apply(world, step, around).Some?
    ensures LocksOk(Apply(world, step, around).value)
  {
    var next := Apply(world, step, around).value;
    hide LocksOk, Raise, SaveStep, CreateStep, ClaimStep, LockStep;
    match step {
      case Create(row, event) => CreateKeepsLocks(world, row, event);
      case Announce(_, _) => OutsideKeepsLocks(world, next);
      case Claim(w, event) => ClaimKeepsLocks(world, w, event);
      case Lock(w) => LockKeepsLocks(world, w);
      case LookUp(w, known) =>
        var pc := world.PcOf(w);
        if known == Ok(None) { MoveKeepsLocks(world, w, Cleared(pc.event, pc.intent)); }
        else { SettleKeepsLocks(world, w, Found(world.rows[pc.intent].Key(), known, UnknownResult(world.rows[pc.intent].Key()))); }
      case Send(w) =>
        var pc := world.PcOf(w);
        var sent := world.(inFlight := world.inFlight + multiset{world.OrderKeyOf(pc.intent)});
        OutsideKeepsLocks(world, sent);
        MoveKeepsLocks(sent, w, Sent(pc.event, pc.intent));
      case Reply(w, answer) =>
        var pc := world.PcOf(w);
        if answer == Raised(TimedOut) { MoveKeepsLocks(world, w, Doubtful(pc.event, pc.intent)); }
        else { SettleKeepsLocks(world, w, Validated(world.rows[pc.intent].Key(), answer)); }
      case LookAgain(w, known) =>
        var key := world.rows[world.PcOf(w).intent].Key();
        SettleKeepsLocks(world, w, Found(key, known, UnknownResult(key)));
      case Save(w) => SaveKeepsLocks(world, w);
      case Publish(w) =>
        var event := world.PcOf(w).event;
        var published := world.(events := world.events[event := world.events[event].(published := true)]);
        PublishedKeepsLocks(world, event);
        CrashKeepsLocks(published, w);
      case Crash(w) => CrashKeepsLocks(world, w);
      case BrokerTakes(_) => OutsideKeepsLocks(world, next);
      case BrokerLoses(_) => OutsideKeepsLocks(world, next);
      case Dispatch(event) => PublishedKeepsLocks(world, event);
    }
  }

  // ---- One order per key -------------------------------------------------------------------------------------

  /** Orders taken or still on their way under one account and key. */
  function Exposure(world: World, key: OrderKey): nat {
    world.accepted[key] + world.inFlight[key]
  }

  /** A worker cleared to submit knows that nothing was ever sent that could still count. */
  predicate ClearedOk(world: World, w: WorkerId) {
    var pc := world.PcOf(w);
    pc.Cleared? && pc.intent in world.rows ==> Exposure(world, world.OrderKeyOf(pc.intent)) == 0
  }

  ghost predicate OrdersOk(world: World) {
    && (forall key :: Exposure(world, key) <= 1)
    && (forall w :: ClearedOk(world, w))
  }

  /** Two workers inside `execute` work for different account and key pairs. */
  lemma KeysHeldAlone(world: World, v: WorkerId, w: WorkerId)
    requires LocksOk(world) && v != w && InExecution(world.PcOf(v)) && InExecution(world.PcOf(w))
    ensures world.PcOf(v).intent in world.rows && world.PcOf(w).intent in world.rows
    ensures world.OrderKeyOf(world.PcOf(v).intent) != world.OrderKeyOf(world.PcOf(w).intent)
  {
    HeldAlone(world, v, w);
    assert WorkerOk(world, v) && WorkerOk(world, w);
  }

  /** A step that sends nothing and clears nobody keeps the orders as they are. */
  lemma QuietStepKeepsOrders(world: World, next: World)
    requires LocksOk(world) && OrdersOk(world)
    requires next.inFlight <= world.inFlight && next.accepted == world.accepted
    requires forall id :: id in world.rows ==> id in next.rows && next.rows[id].intent == world.rows[id].intent
    requires forall w :: next.PcOf(w).Cleared? ==> next.PcOf(w) == world.PcOf(w)
    ensures OrdersOk(next)
  {
    forall key ensures Exposure(next, key) <= 1 { assert Exposure(world, key) <= 1; }
    forall w ensures ClearedOk(next, w) { assert ClearedOk(world, w) && WorkerOk(world, w); }
  }

  lemma SendKeepsOrders(world: World, w: WorkerId)
    requires LocksOk(world) && OrdersOk(world) && SendStep(world, w).Some?
    ensures OrdersOk(SendStep(world, w).value)
  {
    var next, sent := SendStep(world, w).value, world.OrderKeyOf(world.PcOf(w).intent);
    assert ClearedOk(world, w);
    forall key ensures Exposure(next, key) <= 1 { assert Exposure(world, key) <= 1; }
    forall v ensures ClearedOk(next, v) {
      assert ClearedOk(world, v);
      if v != w && world.PcOf(v).Cleared? { KeysHeldAlone(world, v, w); }
    }
  }

  /** An answer moves its worker and its locks only, and sends it to publish only for a final error of the broker. */
  predicate OnlyAnswers(world: World, next: World, w: WorkerId, around: Surroundings) {
    && next.rows == world.rows && next.home == world.home && next.events == world.events
    && next.inFlight == world.inFlight && next.accepted == world.accepted
    && next.pcs == world.pcs[w := next.PcOf(w)]
    && !next.PcOf(w).Cleared?
    && (next.PcOf(w).Settled? ==> around.brokerRaisesFinal)
  }

  lemma SettleOnlyAnswers(world: World, w: WorkerId, event: EventId, id: Id, answer: Outcome<BrokerResult, ExecError>,
                          around: Surroundings)
    requires MayRaise(answer, around)
    ensures OnlyAnswers(world, Settle(world, w, event, id, answer), w, around)
  {
  }

  lemma AnswersOnly(world: World, step: Step, around: Surroundings)
    requires Apply(world, step, around).Some?
    requires step.Reply? || step.LookAgain? || (step.LookUp? && step.known != Ok(None))
    ensures OnlyAnswers(world, Apply(world, step, around).value, step.worker, around)
  {
    hide Settle, OnlyAnswers;
    var w := step.worker;
    var pc := world.PcOf(w);
    var key := world.rows[pc.intent].Key();
    if step.Reply? {
      if step.answer == Raised(TimedOut) {
        TimeoutOnlyAnswers(world, w, pc, around);
      } else {
        SettleOnlyAnswers(world, w, pc.event, pc.intent, Validated(key, step.answer), around);
      }
    } else {
      SettleOnlyAnswers(world, w, pc.event, pc.intent, Found(key, step.known, UnknownResult(key)), around);
    }
  }

  lemma TimeoutOnlyAnswers(world: World, w: WorkerId, pc: Pc, around: Surroundings)
    requires pc.Sent?
    ensures OnlyAnswers(world, world.Move(w, Doubtful(pc.event, pc.intent)), w, around)
  {
  }

  lemma AnswerKeepsOrders(world: World, next: World, w: WorkerId, around: Surroundings)
    requires LocksOk(world) && OrdersOk(world) && OnlyAnswers(world, next, w, around)
    ensures OrdersOk(next)
  {
    QuietStepKeepsOrders(world, next);
  }

  lemma ClearKeepsOrders(world: World, w: WorkerId, around: Surroundings)
    requires OrdersOk(world) && around.soundLookup && LookUpStep(world, w, Ok(None), around).Some?
    ensures OrdersOk(LookUpStep(world, w, Ok(None), around).value)
  {
    var next := LookUpStep(world, w, Ok(None), around).value;
    forall key ensures Exposure(next, key) <= 1 { assert Exposure(world, key) <= 1; }
    forall v ensures ClearedOk(next, v) { assert ClearedOk(world, v); }
  }

  lemma SaveKeepsOrders(world: World, w: WorkerId)
    requires LocksOk(world) && OrdersOk(world) && SaveStep(world, w).Some?
    ensures OrdersOk(SaveStep(world, w).value)
  {
    var pc := world.PcOf(w);
    assert WorkerOk(world, w);
    if SaveResult(world.rows[pc.intent], pc.result).Ok? { SavedRow(world.rows[pc.intent], pc.result); }
    hide SaveResult;
    QuietStepKeepsOrders(world, SaveStep(world, w).value);
  }

  lemma CreateKeepsOrders(world: World, row: Row, event: EventId)
    requires LocksOk(world) && OrdersOk(world) && CreateStep(world, row, event).Some?
    ensures OrdersOk(CreateStep(world, row, event).value)
  {
    CreateShape(world, row, event);
    hide CreateStep;
    QuietStepKeepsOrders(world, CreateStep(world, row, event).value);
  }

  lemma BrokerKeepsOrders(world: World, key: OrderKey)
    requires OrdersOk(world) && 0 < world.inFlight[key]
    ensures OrdersOk(world.(inFlight := world.inFlight - multiset{key}, accepted := world.accepted + multiset{key}))
  {
    var next := world.(inFlight := world.inFlight - multiset{key}, accepted := world.accepted + multiset{key});
    forall other ensures Exposure(next, other) <= 1 { assert Exposure(world, other) <= 1; }
    forall v ensures ClearedOk(next, v) { assert ClearedOk(world, v); }
  }

  /** Nothing sent, nobody cleared, no row changed. */
  ghost predicate Quiet(world: World, next: World) {
    && next.rows == world.rows && next.inFlight <= world.inFlight && next.accepted == world.accepted
    && forall w :: next.PcOf(w).Cleared? ==> next.PcOf(w) == world.PcOf(w)
  }

  lemma ClaimIsQuiet(world: World, w: WorkerId, event: EventId)
    requires ClaimStep(world, w, event).Some?
    ensures Quiet(world, ClaimStep(world, w, event).value)
  {
  }

  lemma LockIsQuiet(world: World, w: WorkerId)
    requires LockStep(world, w).Some?
    ensures Quiet(world, LockStep(world, w).value)
  {
    LockShape(world, w);
    hide LockStep, NeedsWork, InExecution;
  }

  lemma PublishIsQuiet(world: World, w: WorkerId)
    requires PublishStep(world, w).Some?
    ensures Quiet(world, PublishStep(world, w).value)
  {
  }

  lemma CrashIsQuiet(world: World, w: WorkerId)
    ensures Quiet(world, CrashStep(world, w)) && Idling(world, CrashStep(world, w))
  {
    if !world.PcOf(w).Idle? {
      var next := CrashStep(world, w);
      CrashShape(world, w);
      hide CrashStep, World.PcOf, InExecution;
      forall v ensures next.PcOf(v) == world.PcOf(v) || next.PcOf(v).Idle? { PcAfter(world, next, w, Idle, v); }
    }
  }

  /** Rows and events left alone, nobody sent to publish. */
  ghost predicate Idling(world: World, next: World) {
    && next.rows == world.rows && next.home == world.home
    && (forall e :: e in world.events ==> e in next.events && next.events[e] == world.events[e])
    && forall w :: next.PcOf(w).Settled? ==> next.PcOf(w) == world.PcOf(w)
  }

  lemma SendIsIdling(world: World, w: WorkerId)
    requires SendStep(world, w).Some?
    ensures Idling(world, SendStep(world, w).value)
  {
  }

  lemma ClearIsIdling(world: World, w: WorkerId, around: Surroundings)
    requires LookUpStep(world, w, Ok(None), around).Some?
    ensures Idling(world, LookUpStep(world, w, Ok(None), around).value)
  {
  }

  lemma QuietKeepsOrders(world: World, next: World)
    requires LocksOk(world) && OrdersOk(world) && Quiet(world, next)
    ensures OrdersOk(next)
  {
    QuietStepKeepsOrders(world, next);
  }

  lemma OrdersKept(world: World, step: Step, around: Surroundings)
    requires LocksOk(world) && OrdersOk(world) && around.soundLookup && Apply(world, step, around).Some?
    ensures OrdersOk(Apply(world, step, around).value)
  {
    var next := Apply(world, step, around).value;
    hide LocksOk, OrdersOk, OnlyAnswers, CreateStep, ClaimStep, LockStep, SaveStep, LookUpStep, SendStep, ReplyStep, LookAgainStep,
         PublishStep, CrashStep;
    match step {
      case Claim(w, event) => ClaimIsQuiet(world, w, event); QuietKeepsOrders(world, next);
      case Lock(w) => LockIsQuiet(world, w); QuietKeepsOrders(world, next);
      case Publish(w) => PublishIsQuiet(world, w); QuietKeepsOrders(world, next);
      case Crash(w) => CrashIsQuiet(world, w); QuietKeepsOrders(world, next);
      case Create(row, event) => CreateKeepsOrders(world, row, event);
      case LookUp(w, known) =>
        if known == Ok(None) { ClearKeepsOrders(world, w, around); }
        else { AnswersOnly(world, step, around); AnswerKeepsOrders(world, next, w, around); }
      case Send(w) => SendKeepsOrders(world, w);
      case Reply(w, _) => AnswersOnly(world, step, around); AnswerKeepsOrders(world, next, w, around);
      case LookAgain(w, _) => AnswersOnly(world, step, around); AnswerKeepsOrders(world, next, w, around);
      case Save(w) => SaveKeepsOrders(world, w);
      case BrokerTakes(key) => BrokerKeepsOrders(world, key);
      case Announce(_, _) => QuietKeepsOrders(world, next);
      case BrokerLoses(_) => QuietKeepsOrders(world, next);
      case Dispatch(_) => QuietKeepsOrders(world, next);
    }
  }

  // ---- No stranded work --------------------------------------------------------------------------------------

  /** Work to do keeps its event unpublished. */
  predicate WorkOk(world: World, id: Id) {
    NeedsWork(world, id) && id in world.home && world.home[id] in world.events ==> !world.events[world.home[id]].published
  }

  /** A worker about to publish holds an event nobody needs any more. */
  predicate PublishOk(world: World, w: WorkerId, id: Id) {
    world.PcOf(w).Settled? && NeedsWork(world, id) && id in world.home ==> world.home[id] != world.PcOf(w).event
  }

  ghost predicate NothingStranded(world: World) {
    && (forall id :: WorkOk(world, id))
    && (forall w, id :: PublishOk(world, w, id))
  }

  /** A step that publishes nothing, creates no work, and sends nobody off to publish needed events. */
  lemma CarefulStepStrandsNothing(world: World, next: World)
    requires LocksOk(world) && NothingStranded(world) && next.home == world.home
    requires forall id :: NeedsWork(next, id) ==> NeedsWork(world, id)
    requires forall e :: e in world.events ==> e in next.events && next.events[e] == world.events[e]
    requires forall w, id :: next.PcOf(w).Settled? && next.PcOf(w) != world.PcOf(w) ==> PublishOk(next, w, id)
    ensures NothingStranded(next)
  {
    hide NeedsWork;
    forall id ensures WorkOk(next, id) { assert WorkOk(world, id) && HomeOk(world, id); NeedsIsQueued(world, id); }
    forall w, id ensures PublishOk(next, w, id) { assert PublishOk(world, w, id); }
  }

  lemma NeedsIsQueued(world: World, id: Id)
    ensures NeedsWork(world, id) ==> id in world.rows && world.rows[id].state.Queued?
  {
  }

  lemma CreateStrandsNothing(world: World, row: Row, event: EventId)
    requires LocksOk(world) && NothingStranded(world) && CreateStep(world, row, event).Some?
    ensures NothingStranded(CreateStep(world, row, event).value)
  {
    var next := CreateStep(world, row, event).value;
    CreateShape(world, row, event);
    hide CreateStep, InExecution, RowLockOk, EventLockOk, KeysUnique;
    forall id ensures WorkOk(next, id) { assert WorkOk(world, id) && HomeOk(world, id); }
    forall w, id ensures PublishOk(next, w, id) { assert PublishOk(world, w, id) && WorkerOk(world, w) && HomeOk(world, id); }
  }

  /** The event a worker holds is the home of no intent but the one it names. */
  lemma HomeOfNoOther(world: World, event: EventId, id: Id)
    requires LocksOk(world) && event in world.events && NeedsWork(world, id)
    ensures id in world.home && (world.home[id] == event ==> world.events[event].payload == Some(id))
  {
    assert HomeOk(world, id);
  }

  lemma ClaimStrandsNothing(world: World, w: WorkerId, event: EventId)
    requires LocksOk(world) && NothingStranded(world) && ClaimStep(world, w, event).Some?
    ensures NothingStranded(ClaimStep(world, w, event).value)
  {
    var next := ClaimStep(world, w, event).value;
    forall v, id | next.PcOf(v).Settled? && next.PcOf(v) != world.PcOf(v) ensures PublishOk(next, v, id) {
      if NeedsWork(world, id) { HomeOfNoOther(world, event, id); }
    }
    CarefulStepStrandsNothing(world, next);
  }

  lemma LockStrandsNothing(world: World, w: WorkerId)
    requires LocksOk(world) && NothingStranded(world) && LockStep(world, w).Some?
    ensures NothingStranded(LockStep(world, w).value)
  {
    var next := LockStep(world, w).value;
    LockShape(world, w);
    hide LockStep, NothingStranded, NeedsWork, InExecution, RowLockOk, EventLockOk, HomeOk, KeysUnique;
    assert WorkerOk(world, w);
    NeedsSameWork(world, next);
    forall v, id | next.PcOf(v).Settled? && next.PcOf(v) != world.PcOf(v) ensures PublishOk(next, v, id) {
      if NeedsWork(world, id) { HomeOfNoOther(world, world.PcOf(w).event, id); }
    }
    hide LocksOk;
    CarefulStepStrandsNothing(world, next);
  }

  lemma SaveStrandsNothing(world: World, w: WorkerId)
    requires LocksOk(world) && NothingStranded(world) && SaveStep(world, w).Some?
    ensures NothingStranded(SaveStep(world, w).value)
  {
    var pc, next := world.PcOf(w), SaveStep(world, w).value;
    assert WorkerOk(world, w);
    if SaveResult(world.rows[pc.intent], pc.result).Ok? { SavedRow(world.rows[pc.intent], pc.result); }
    SaveErrors(world.rows[pc.intent], pc.result);
    hide SaveResult;
    forall v, id | next.PcOf(v).Settled? && next.PcOf(v) != world.PcOf(v) ensures PublishOk(next, v, id) {
      if NeedsWork(world, id) { HomeOfNoOther(world, pc.event, id); }
    }
    CarefulStepStrandsNothing(world, next);
  }

  lemma SaveErrors(row: Row, result: BrokerResult)
    ensures SaveResult(row, result).Raised? ==> !IsTerminalError(SaveResult(row, result).error)
  {
  }

  lemma PublishStrandsNothing(world: World, w: WorkerId)
    requires LocksOk(world) && NothingStranded(world) && PublishStep(world, w).Some?
    ensures NothingStranded(PublishStep(world, w).value)
  {
    var next := PublishStep(world, w).value;
    hide NeedsWork;
    NeedsSameWork(world, next);
    forall id ensures WorkOk(next, id) { assert WorkOk(world, id) && PublishOk(world, w, id); }
    forall v, id ensures PublishOk(next, v, id) { assert PublishOk(world, v, id); }
  }

  lemma AnswerStrandsNothing(world: World, next: World, w: WorkerId, around: Surroundings)
    requires LocksOk(world) && NothingStranded(world) && OnlyAnswers(world, next, w, around) && !around.brokerRaisesFinal
    ensures NothingStranded(next)
  {
    hide NeedsWork;
    NeedsSameWork(world, next);
    CarefulStepStrandsNothing(world, next);
  }

  lemma IdlingStrandsNothing(world: World, next: World)
    requires LocksOk(world) && NothingStranded(world) && Idling(world, next)
    ensures NothingStranded(next)
  {
    hide NeedsWork;
    NeedsSameWork(world, next);
    CarefulStepStrandsNothing(world, next);
  }

  lemma WorkKept(world: World, step: Step, around: Surroundings)
    requires LocksOk(world) && NothingStranded(world) && Apply(world, step, around).Some?
    requires !around.brokerRaisesFinal && !around.topiclessConsumer
    ensures NothingStranded(Apply(world, step, around).value)
  {
    var next := Apply(world, step, around).value;
    hide LocksOk, NothingStranded, NeedsWork, OnlyAnswers, CreateStep, ClaimStep, LockStep, SaveStep, LookUpStep, SendStep,
         PublishStep, ReplyStep, LookAgainStep, CrashStep;
    match step {
      case Create(row, event) => CreateStrandsNothing(world, row, event);
      case Claim(w, event) => ClaimStrandsNothing(world, w, event);
      case Lock(w) => LockStrandsNothing(world, w);
      case LookUp(w, known) =>
        if known == Ok(None) {
          ClearIsIdling(world, w, around);
          IdlingStrandsNothing(world, next);
        } else {
          AnswersOnly(world, step, around);
          AnswerStrandsNothing(world, next, w, around);
        }
      case Reply(w, _) => AnswersOnly(world, step, around); AnswerStrandsNothing(world, next, w, around);
      case LookAgain(w, _) => AnswersOnly(world, step, around); AnswerStrandsNothing(world, next, w, around);
      case Save(w) => SaveStrandsNothing(world, w);
      case Publish(w) => PublishStrandsNothing(world, w);
      case Send(w) => SendIsIdling(world, w); IdlingStrandsNothing(world, next);
      case Crash(w) => CrashIsQuiet(world, w); IdlingStrandsNothing(world, next);
      case Announce(_, _) => IdlingStrandsNothing(world, next);
      case BrokerTakes(_) => IdlingStrandsNothing(world, next);
      case BrokerLoses(_) => IdlingStrandsNothing(world, next);
      case Dispatch(_) => // switched off in these surroundings
    }
  }
}
