// Many workers, one database, one broker: every interleaving of their steps, with crashes anywhere,
// replies that never come, and requests the broker takes long after their sender is gone.

module Protocol {
  import opened Prelude
  import opened OrderStates
  import opened Orders
  import opened ExecutionRules

  type WorkerId = nat
  type EventId = nat
  type OrderKey = (Id, Key)

  /** Where a worker stands; the steps inside `execute` hold the row lock. */
  datatype Pc =
    | Idle
    | Claimed(event: EventId, intent: Id)
    | Locked(event: EventId, intent: Id)
    | Cleared(event: EventId, intent: Id)
    | Sent(event: EventId, intent: Id)
    | Doubtful(event: EventId, intent: Id)
    | Answered(event: EventId, intent: Id, result: BrokerResult)
    | Settled(event: EventId)

  datatype OutboxEvent = OutboxEvent(executionTopic: bool, payload: Option<Id>, published: bool)

  /**
   * The committed database, the locks held on it, the workers, and the broker: requests still on their
   * way, and orders taken. `home` remembers the event that was written together with each queued intent.
   */
  datatype World = World(
    rows: map<Id, Row>,
    home: map<Id, EventId>,
    events: map<EventId, OutboxEvent>,
    rowLock: map<Id, WorkerId>,
    eventLock: map<EventId, WorkerId>,
    pcs: map<WorkerId, Pc>,
    inFlight: multiset<OrderKey>,
    accepted: multiset<OrderKey>
  ) {
    function PcOf(w: WorkerId): Pc {
      if w in pcs then pcs[w] else Idle
    }

    function Move(w: WorkerId, pc: Pc): World {
      this.(pcs := pcs[w := pc])
    }

    function FreeRow(id: Id): World {
      this.(rowLock := rowLock - {id})
    }

    function FreeEvent(event: EventId): World {
      this.(eventLock := eventLock - {event})
    }

    function OrderKeyOf(id: Id): OrderKey
      requires id in rows
    {
      (rows[id].intent.accountId, rows[id].Key())
    }
  }

  const EMPTY_WORLD := World(map[], map[], map[], map[], map[], map[], multiset{}, multiset{})

  /** What the surroundings may do; the theorems say which of these they need to be false or true. */
  datatype Surroundings = Surroundings(
    soundLookup: bool,          // a lookup finds nothing only when nothing was taken or is still on its way
    brokerRaisesFinal: bool,    // the broker may raise the errors the worker takes as final
    topiclessConsumer: bool     // another consumer publishes events of every topic
  )

  datatype Step =
    | Create(row: Row, event: EventId)
    | Announce(event: EventId, content: OutboxEvent)
    | Claim(worker: WorkerId, event: EventId)
    | Lock(worker: WorkerId)
    | LookUp(worker: WorkerId, known: Outcome<Option<BrokerResult>, ExecError>)
    | Send(worker: WorkerId)
    | Reply(worker: WorkerId, answer: Outcome<BrokerResult, ExecError>)
    | LookAgain(worker: WorkerId, known: Outcome<Option<BrokerResult>, ExecError>)
    | Save(worker: WorkerId)
    | Publish(worker: WorkerId)
    | Crash(worker: WorkerId)
    | BrokerTakes(key: OrderKey)
    | BrokerLoses(key: OrderKey)
    | Dispatch(event: EventId)

  // ---- The steps ---------------------------------------------------------------------------------------------

  /** An intent and, when it is queued, its event are stored in one transaction; ids are fresh, keys unique. */
  function CreateStep(world: World, row: Row, event: EventId): Option<World> {
    var id := row.intent.intentId;
    if id in world.rows || event in world.events || exists other | other in world.rows.Keys :: world.rows[other].Key() == row.Key()
    then None
    else if row.state.Queued? then
      Some(world.(rows := world.rows[id := row], home := world.home[id := event],
                  events := world.events[event := OutboxEvent(true, Some(id), false)]))
    else Some(world.(rows := world.rows[id := row]))
  }

  /** Skips locked rows; an unusable payload goes straight to publishing. */
  function ClaimStep(world: World, w: WorkerId, event: EventId): Option<World> {
    if !world.PcOf(w).Idle? || event !in world.events || event in world.eventLock then None
    else
      var e := world.events[event];
      if e.published || !e.executionTopic then None
      else
        var locked := world.(eventLock := world.eventLock[event := w]);
        Some(locked.Move(w, if e.payload.None? then Settled(event) else Claimed(event, e.payload.value)))
  }

  /** Waits for the row lock; missing rows, missing evidence and orders that left QUEUED need no broker. */
  function LockStep(world: World, w: WorkerId): Option<World> {
    var pc := world.PcOf(w);
    if !pc.Claimed? then None
    else if pc.intent !in world.rows then Some(world.Move(w, Settled(pc.event)))
    else if pc.intent in world.rowLock then None
    else
      var row := world.rows[pc.intent];
      if !row.HasEvidence() || !row.state.Queued? then Some(world.Move(w, Settled(pc.event)))
      else if row.AsDomain().None? then Some(world.FreeEvent(pc.event).Move(w, Idle))
      else Some(world.(rowLock := world.rowLock[pc.intent := w]).Move(w, Locked(pc.event, pc.intent)))
  }

  /** An exception inside `execute`: the row lock goes; a final error publishes the event, any other releases it. */
  function Raise(world: World, w: WorkerId, event: EventId, id: Id, error: ExecError): World {
    if IsTerminalError(error) then world.FreeRow(id).Move(w, Settled(event))
    else world.FreeRow(id).FreeEvent(event).Move(w, Idle)
  }

  function Settle(world: World, w: WorkerId, event: EventId, id: Id, answer: Outcome<BrokerResult, ExecError>): World {
    match answer
    case Raised(error) => Raise(world, w, event, id, error)
    case Ok(result) => world.Move(w, Answered(event, id, result))
  }

  predicate MayRaise<T>(answer: Outcome<T, ExecError>, around: Surroundings) {
    answer.Raised? && IsTerminalError(answer.error) ==> around.brokerRaisesFinal
  }

  predicate MayBeAbsent(world: World, id: Id, around: Surroundings)
    requires id in world.rows
  {
    && world.accepted[world.OrderKeyOf(id)] == 0
    && (around.soundLookup ==> world.inFlight[world.OrderKeyOf(id)] == 0)
  }

  function LookUpStep(world: World, w: WorkerId, known: Outcome<Option<BrokerResult>, ExecError>, around: Surroundings): Option<World> {
    var pc := world.PcOf(w);
    if !pc.Locked? || pc.intent !in world.rows || !MayRaise(known, around) then None
    else if known == Ok(None) then
      if MayBeAbsent(world, pc.intent, around) then Some(world.Move(w, Cleared(pc.event, pc.intent))) else None
    else
      var key := world.rows[pc.intent].Key();
      Some(Settle(world, w, pc.event, pc.intent, Found(key, known, UnknownResult(key))))
  }

  function SendStep(world: World, w: WorkerId): Option<World> {
    var pc := world.PcOf(w);
    if !pc.Cleared? || pc.intent !in world.rows then None
    else
      var sent := world.(inFlight := world.inFlight + multiset{world.OrderKeyOf(pc.intent)});
      Some(sent.Move(w, Sent(pc.event, pc.intent)))
  }

  /** The reply says nothing about whether the request is still on its way. */
  function ReplyStep(world: World, w: WorkerId, answer: Outcome<BrokerResult, ExecError>, around: Surroundings): Option<World> {
    var pc := world.PcOf(w);
    if !pc.Sent? || pc.intent !in world.rows || !MayRaise(answer, around) then None
    else if answer == Raised(TimedOut) then Some(world.Move(w, Doubtful(pc.event, pc.intent)))
    else Some(Settle(world, w, pc.event, pc.intent, Validated(world.rows[pc.intent].Key(), answer)))
  }

  function LookAgainStep(world: World, w: WorkerId, known: Outcome<Option<BrokerResult>, ExecError>, around: Surroundings): Option<World> {
    var pc := world.PcOf(w);
    if !pc.Doubtful? || pc.intent !in world.rows || !MayRaise(known, around) then None
    else
      var key := world.rows[pc.intent].Key();
      Some(Settle(world, w, pc.event, pc.intent, Found(key, known, UnknownResult(key))))
  }

  function SaveStep(world: World, w: WorkerId): Option<World> {
    var pc := world.PcOf(w);
    if !pc.Answered? || pc.intent !in world.rows then None
    else
      match SaveResult(world.rows[pc.intent], pc.result)
      case Raised(error) => Some(Raise(world, w, pc.event, pc.intent, error))
      case Ok(row) => Some(world.(rows := world.rows[pc.intent := row]).FreeRow(pc.intent).Move(w, Settled(pc.event)))
  }

  function PublishStep(world: World, w: WorkerId): Option<World> {
    var pc := world.PcOf(w);
    if !pc.Settled? || pc.event !in world.events then None
    else
      var published := world.events[pc.event].(published := true);
      Some(world.(events := world.events[pc.event := published]).FreeEvent(pc.event).Move(w, Idle))
  }

  predicate InExecution(pc: Pc) {
    pc.Locked? || pc.Cleared? || pc.Sent? || pc.Doubtful? || pc.Answered?
  }

  /** A dead worker's sessions are rolled back: its locks go, what it sent stays sent. */
  function CrashStep(world: World, w: WorkerId): World {
    var pc := world.PcOf(w);
    if pc.Idle? then world
    else if InExecution(pc) then world.FreeRow(pc.intent).FreeEvent(pc.event).Move(w, Idle)
    else world.FreeEvent(pc.event).Move(w, Idle)
  }

  /** The world after one step, or nothing when the step is not possible. */
  function Apply(world: World, step: Step, around: Surroundings): Option<World> {
    match step
    case Create(row, event) => CreateStep(world, row, event)
    case Announce(event, content) =>
      if event in world.events then None else Some(world.(events := world.events[event := content]))
    case Claim(w, event) => ClaimStep(world, w, event)
    case Lock(w) => LockStep(world, w)
    case LookUp(w, known) => LookUpStep(world, w, known, around)
    case Send(w) => SendStep(world, w)
    case Reply(w, answer) => ReplyStep(world, w, answer, around)
    case LookAgain(w, known) => LookAgainStep(world, w, known, around)
    case Save(w) => SaveStep(world, w)
    case Publish(w) => PublishStep(world, w)
    case Crash(w) => Some(CrashStep(world, w))
    case BrokerTakes(key) =>
      if world.inFlight[key] == 0 then None
      else Some(world.(inFlight := world.inFlight - multiset{key}, accepted := world.accepted + multiset{key}))
    case BrokerLoses(key) =>
      if world.inFlight[key] == 0 then None else Some(world.(inFlight := world.inFlight - multiset{key}))
    case Dispatch(event) =>
      if !around.topiclessConsumer || event !in world.events || event in world.eventLock then None
      else Some(world.(events := world.events[event := world.events[event].(published := true)]))
  }

  function RunFrom(world: World, steps: seq<Step>, around: Surroundings): Option<World>
    decreases |steps|
  {
    if steps == [] then Some(world)
    else
      match Apply(world, steps[0], around)
      case None => None
      case Some(next) => RunFrom(next, steps[1..], around)
  }

  function Reach(steps: seq<Step>, around: Surroundings): Option<World> {
    RunFrom(EMPTY_WORLD, steps, around)
  }
}
