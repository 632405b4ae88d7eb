// The in-memory broker as the broker of the protocol: its calls are steps the protocol allows, and its
// lookups are the sound ones that one order per key depends on.

module FakeBrokerRuns {
  import opened Prelude
  import opened Orders
  import opened ExecutionRules
  import opened Protocol
  import opened ProtocolInvariant
  import opened ProtocolTheorems
  import FakeBroker
  import FormatTheorems

  /**
   * The protocol's broker is this one: it has taken exactly the logged orders, and nothing is on its way,
   * because a submission is taken before the call returns.
   */
  ghost predicate Mirrors(world: World, accepted: seq<OrderKey>) {
    world.accepted == multiset(accepted) && world.inFlight == multiset{}
  }

  /** The lookup finds nothing exactly where a sound lookup may: nothing taken, nothing on its way. */
  lemma LookupIsSound(world: World, id: Id, broker: FakeBroker.Broker, around: Surroundings)
    requires broker.Valid() && Mirrors(world, broker.accepted) && id in world.rows
    ensures broker.Find(world.rows[id].intent.accountId, world.rows[id].Key()) == None <==> MayBeAbsent(world, id, around)
  {
    var key := world.OrderKeyOf(id);
    assert multiset(broker.accepted)[key] == 0 <==> key !in broker.accepted;
  }

  /** So every first lookup of a worker, and every second one, is a step of the protocol with sound lookups. */
  lemma LookupIsAStep(world: World, w: WorkerId, broker: FakeBroker.Broker, around: Surroundings)
    requires broker.Valid() && Mirrors(world, broker.accepted) && around.soundLookup
    requires world.PcOf(w).Locked? || world.PcOf(w).Doubtful?
    requires world.PcOf(w).intent in world.rows
    ensures var row := world.rows[world.PcOf(w).intent];
            var known := Ok(broker.Find(row.intent.accountId, row.Key()));
            var step := if world.PcOf(w).Locked? then LookUp(w, known) else LookAgain(w, known);
            Apply(world, step, around).Some? && Mirrors(Apply(world, step, around).value, broker.accepted)
  {
    var row := world.rows[world.PcOf(w).intent];
    var found := broker.Find(row.intent.accountId, row.Key());
    LookupIsSound(world, world.PcOf(w).intent, broker, around);
    hide *;
    if world.PcOf(w).Locked? {
      FirstLookupIsAStep(world, w, found, broker.accepted, around);
    } else {
      SecondLookupIsAStep(world, w, found, broker.accepted, around);
    }
  }

  lemma FirstLookupIsAStep(world: World, w: WorkerId, found: Option<BrokerResult>, accepted: seq<OrderKey>, around: Surroundings)
    requires Mirrors(world, accepted) && world.PcOf(w).Locked? && world.PcOf(w).intent in world.rows
    requires found == None ==> MayBeAbsent(world, world.PcOf(w).intent, around)
    ensures var next := Apply(world, LookUp(w, Ok(found)), around); next.Some? && Mirrors(next.value, accepted)
  {
    hide MayBeAbsent, Settle;
    var pc := world.PcOf(w);
    var key := world.rows[pc.intent].Key();
    SettleOnlyAnswers(world, w, pc.event, pc.intent, Found(key, Ok(found), UnknownResult(key)), around);
  }

  lemma SecondLookupIsAStep(world: World, w: WorkerId, found: Option<BrokerResult>, accepted: seq<OrderKey>, around: Surroundings)
    requires Mirrors(world, accepted) && world.PcOf(w).Doubtful? && world.PcOf(w).intent in world.rows
    ensures var next := Apply(world, LookAgain(w, Ok(found)), around); next.Some? && Mirrors(next.value, accepted)
  {
    hide Settle;
    var pc := world.PcOf(w);
    var key := world.rows[pc.intent].Key();
    SettleOnlyAnswers(world, w, pc.event, pc.intent, Found(key, Ok(found), UnknownResult(key)), around);
  }

  /** The log after one more submission: repeats are not taken again. */
  function AcceptedAfter(accepted: seq<OrderKey>, key: OrderKey): seq<OrderKey> {
    if key in accepted then accepted else accepted + [key]
  }

  /** The steps one submission amounts to: the request is taken at once, or dropped as a repeat. */
  function SubmissionSteps(w: WorkerId, key: OrderKey, accepted: seq<OrderKey>): seq<Step> {
    [Send(w), if key in accepted then BrokerLoses(key) else BrokerTakes(key)]
  }

  /** A submission is a run of the protocol that leaves its broker with the same orders as this one. */
  lemma SubmissionIsARun(world: World, w: WorkerId, accepted: seq<OrderKey>, around: Surroundings) returns (end: World)
    requires Mirrors(world, accepted) && world.PcOf(w).Cleared? && world.PcOf(w).intent in world.rows
    ensures var key := world.OrderKeyOf(world.PcOf(w).intent);
            && RunFrom(world, SubmissionSteps(w, key, accepted), around) == Some(end)
            && Mirrors(end, AcceptedAfter(accepted, key)) && end.PcOf(w) == Sent(world.PcOf(w).event, world.PcOf(w).intent)
  {
    var key := world.OrderKeyOf(world.PcOf(w).intent);
    var sent := SendStep(world, w).value;
    var steps := SubmissionSteps(w, key, accepted);
    assert sent.inFlight == multiset{key} && multiset{key}[key] == 1;
    assert multiset{key} - multiset{key} == multiset{};
    end := Apply(sent, steps[1], around).value;
    assert multiset(accepted + [key]) == multiset(accepted) + multiset{key};
    hide Mirrors;
    RunThrough([world, sent, end], steps, around);
  }

  lemma LoggedIsKnown(broker: FakeBroker.Broker, key: OrderKey)
    requires broker.Valid()
    ensures key in broker.accepted <==> key in broker.results
    ensures key in broker.results ==> broker.results[key].clientOrderId == key.1
  {
  }

  /** The class does what the log says. */
  method SubmitMirrored(broker: FakeBroker.Broker, intent: Intent) returns (result: BrokerResult)
    requires broker.Valid()
    modifies broker
    ensures broker.Valid()
    ensures broker.accepted == AcceptedAfter(old(broker.accepted), FakeBroker.KeyOf(intent))
    ensures result.clientOrderId == intent.idempotencyKey && broker.Find(intent.accountId, intent.idempotencyKey) == Some(result)
  {
    hide FakeBroker.NumberedResults, FakeBroker.KnownPositions, FakeBroker.InOrder;
    LoggedIsKnown(broker, FakeBroker.KeyOf(intent));
    result := broker.Submit(intent);
  }

  /** One order per key, over every run of the protocol whose lookups this broker answers. */
  lemma OneOrderPerKeyOnFakeBroker(steps: seq<Step>, around: Surroundings, accepted: seq<OrderKey>, key: OrderKey)
    requires around.soundLookup && Reach(steps, around).Some? && Mirrors(Reach(steps, around).value, accepted)
    ensures multiset(accepted)[key] <= 1
  {
    hide Reach;
    OneOrderPerKeyExactlyWhen(around);
  }

  /** References with one prefix are told apart by their text, as the strings of the broker are. */
  lemma ReferencesReadApart(prefix: string, a: nat, b: nat)
    requires BrokerRef(prefix, a).Text() == BrokerRef(prefix, b).Text()
    ensures a == b
  {
    FormatTheorems.NatTextDenotes(a);
    FormatTheorems.NatTextDenotes(b);
    assert NatText(a) == BrokerRef(prefix, a).Text()[|prefix| + 1..];
    assert NatText(b) == BrokerRef(prefix, b).Text()[|prefix| + 1..];
  }
}
