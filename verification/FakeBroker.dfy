// The deterministic in-memory broker: one accepted order per account and key, and hedged positions.

module FakeBroker {
  import opened Prelude
  import opened Market
  import opened OrderStates
  import opened Orders

  type OrderKey = (Id, Key)
  type PositionKey = (Id, BrokerRef)

  datatype Position = Position(
    ref: BrokerRef,
    accountId: Id,
    symbol: string,
    side: OrderSide,
    quantity: real,
    entryPrice: real,
    stopLoss: Option<real>,
    takeProfit: Option<real>,
    trancheRef: Option<string>
  )

  datatype PositionError = UnknownPosition | ClosesTooMuch | NegativeFill

  function KeyOf(intent: Intent): OrderKey {
    (intent.accountId, intent.idempotencyKey)
  }

  function AcceptedResult(key: Key, sequence: nat): BrokerResult {
    BrokerResult(key, Some(BrokerRef("fake", sequence)), Submitted, 0.0, None, Some(BrokerRef("fake-request", sequence)), None)
  }

  /**
   * The position that an accepted order opens, if it does: the intent's account, symbol, side and size, at its
   * limit price or else its reference price, with both of its levels and its tranche. Nothing else changes.
   */
  predicate OpenedFor(intent: Intent, sequence: nat, before: map<PositionKey, Position>, after: map<PositionKey, Position>,
                      orderBefore: seq<PositionKey>, orderAfter: seq<PositionKey>) {
    var ref := BrokerRef("fake-position", sequence);
    if intent.reduceOnly || (intent.limitPrice.None? && intent.referencePrice.None?) then
      after == before && orderAfter == orderBefore
    else
      && (intent.accountId, ref) in after && after == before[(intent.accountId, ref) := after[(intent.accountId, ref)]]
      && orderAfter == orderBefore + [(intent.accountId, ref)]
      && var held := after[(intent.accountId, ref)];
         && held.ref == ref && held.accountId == intent.accountId && held.symbol == intent.symbol
         && held.side == intent.side && held.quantity == intent.quantity
         && Some(held.entryPrice) == (if intent.limitPrice.Some? then intent.limitPrice else intent.referencePrice)
         && held.stopLoss == intent.stopLoss && held.takeProfit == intent.takeProfit
         && held.trancheRef == intent.trancheRef
  }

  /** The n-th accepted key owns the n-th result, and there are no other results. */
  predicate NumberedResults(results: map<OrderKey, BrokerResult>, accepted: seq<OrderKey>) {
    && (forall i :: 0 <= i < |accepted| ==>
          accepted[i] in results && results[accepted[i]] == AcceptedResult(accepted[i].1, i + 1))
    && (forall key :: key in results ==> SequenceOf(results[key]) < |accepted| && accepted[SequenceOf(results[key])] == key)
  }

  function SequenceOf(result: BrokerResult): nat {
    if result.brokerOrderId.Some? && 0 < result.brokerOrderId.value.number then result.brokerOrderId.value.number - 1 else 0
  }

  predicate KnownPositions(positions: map<PositionKey, Position>, sequence: nat) {
    forall key :: key in positions ==>
      && positions[key].ref == key.1 && positions[key].accountId == key.0
      && key.1.text == "fake-position" && key.1.number <= sequence
  }

  lemma AcceptedOnce(results: map<OrderKey, BrokerResult>, accepted: seq<OrderKey>, i: nat, j: nat)
    requires NumberedResults(results, accepted) && i < |accepted| && j < |accepted| && accepted[i] == accepted[j]
    ensures i == j
  {
    assert AcceptedResult(accepted[i].1, i + 1) == AcceptedResult(accepted[j].1, j + 1);
  }

  /** Every position appears in the insertion order exactly once, and nothing else does. */
  predicate InOrder(positions: map<PositionKey, Position>, order: seq<PositionKey>) {
    && (forall i :: 0 <= i < |order| ==> order[i] in positions)
    && (forall key :: key in positions ==> key in order)
    && (forall i, j :: 0 <= i < j < |order| ==> order[i] != order[j])
  }

  function Without(order: seq<PositionKey>, key: PositionKey): seq<PositionKey> {
    if order == [] then [] else (if order[0] == key then [] else [order[0]]) + Without(order[1..], key)
  }

  lemma {:induction false} WithoutKeepsOthers(order: seq<PositionKey>, key: PositionKey)
    requires forall i, j :: 0 <= i < j < |order| ==> order[i] != order[j]
    ensures var rest := Without(order, key);
            && (forall other :: other in rest <==> other in order && other != key)
            && (forall i, j :: 0 <= i < j < |rest| ==> rest[i] != rest[j])
  {
    if order != [] {
      var tail := order[1..];
      assert order == [order[0]] + tail && order[0] !in tail;
      WithoutKeepsOthers(tail, key);
      var rest := Without(tail, key);
      assert order[0] !in rest && Without(order, key) == (if order[0] == key then [] else [order[0]]) + rest;
      forall i, j | 0 <= i < j < |Without(order, key)| ensures Without(order, key)[i] != Without(order, key)[j] {
        if order[0] != key { assert Without(order, key)[j] == rest[j - 1] && Without(order, key)[j] in rest; }
      }
    }
  }

  /** Taking a key out of the order cuts its one place and keeps the rest in order. */
  lemma {:induction false} WithoutCutsOnePlace(order: seq<PositionKey>, i: nat)
    requires i < |order| && forall j, k :: 0 <= j < k < |order| ==> order[j] != order[k]
    ensures Without(order, order[i]) == order[..i] + order[i + 1..]
  {
    var key, tail := order[i], order[1..];
    if i == 0 {
      NothingToTakeOut(tail, key);
    } else {
      WithoutCutsOnePlace(tail, i - 1);
      assert order[..i] == [order[0]] + tail[..i - 1] && order[i + 1..] == tail[i..];
    }
  }

  lemma {:induction false} NothingToTakeOut(order: seq<PositionKey>, key: PositionKey)
    requires key !in order
    ensures Without(order, key) == order
  {
    if order != [] { NothingToTakeOut(order[1..], key); }
  }

  /** The positions of one account, oldest first. */
  function Listed(order: seq<PositionKey>, positions: map<PositionKey, Position>, accountId: Id): seq<Position> {
    if order == [] then []
    else
      var key := order[|order| - 1];
      Listed(order[..|order| - 1], positions, accountId)
      + if key in positions && key.0 == accountId then [positions[key]] else []
  }

  lemma {:induction false} ListedIsComplete(order: seq<PositionKey>, positions: map<PositionKey, Position>, accountId: Id)
    ensures forall position :: position in Listed(order, positions, accountId)
              <==> exists i :: 0 <= i < |order| && order[i] in positions && order[i].0 == accountId && positions[order[i]] == position
  {
    if order != [] {
      var init, last := order[..|order| - 1], |order| - 1;
      ListedIsComplete(init, positions, accountId);
      forall position
        ensures position in Listed(order, positions, accountId)
                <==> exists i :: 0 <= i < |order| && order[i] in positions && order[i].0 == accountId && positions[order[i]] == position
      {
        if position in Listed(init, positions, accountId) {
          var i :| 0 <= i < |init| && init[i] in positions && init[i].0 == accountId && positions[init[i]] == position;
          assert order[i] == init[i];
        }
        if i :| 0 <= i < |order| && order[i] in positions && order[i].0 == accountId && positions[order[i]] == position {
          if i < last { assert init[i] == order[i]; }
        }
      }
    }
  }

  lemma ListedStarts(order: seq<PositionKey>, positions: map<PositionKey, Position>, accountId: Id)
    ensures Listed(order[..0], positions, accountId) == []
  {
  }

  lemma ListedGrows(order: seq<PositionKey>, positions: map<PositionKey, Position>, accountId: Id, i: nat)
    requires i < |order|
    ensures Listed(order[..i + 1], positions, accountId)
            == Listed(order[..i], positions, accountId)
               + if order[i] in positions && order[i].0 == accountId then [positions[order[i]]] else []
  {
    assert order[..i + 1][..i] == order[..i];
  }

  /** What closing part of a position answers. */
  function ClosedResult(held: Position, closing: real): BrokerResult {
    BrokerResult(held.ref.Text(), Some(BrokerRef("fake-close-" + held.ref.text, held.ref.number)), Filled, closing,
                 Some(held.entryPrice), None, None)
  }

  lemma AcceptOne(results: map<OrderKey, BrokerResult>, accepted: seq<OrderKey>, key: OrderKey)
    requires NumberedResults(results, accepted) && key !in results
    ensures NumberedResults(results[key := AcceptedResult(key.1, |accepted| + 1)], accepted + [key])
  {
  }

  lemma OpenOne(positions: map<PositionKey, Position>, sequence: nat, position: Position)
    requires KnownPositions(positions, sequence) && position.ref == BrokerRef("fake-position", sequence + 1)
    ensures KnownPositions(positions, sequence + 1)
    ensures KnownPositions(positions[(position.accountId, position.ref) := position], sequence + 1)
  {
  }

  lemma NewInOrder(positions: map<PositionKey, Position>, order: seq<PositionKey>, sequence: nat, position: Position)
    requires KnownPositions(positions, sequence) && InOrder(positions, order)
    requires position.ref == BrokerRef("fake-position", sequence + 1)
    ensures InOrder(positions[(position.accountId, position.ref) := position], order + [(position.accountId, position.ref)])
  {
    var key := (position.accountId, position.ref);
    assert key !in positions;
    assert (order + [key])[|order|] == key;
  }

  lemma OldInOrder(positions: map<PositionKey, Position>, order: seq<PositionKey>, key: PositionKey, position: Position)
    requires InOrder(positions, order) && key in positions
    ensures InOrder(positions[key := position], order)
  {
  }

  lemma GoneFromOrder(positions: map<PositionKey, Position>, order: seq<PositionKey>, key: PositionKey)
    requires InOrder(positions, order)
    ensures InOrder(positions - {key}, Without(order, key))
  {
    WithoutKeepsOthers(order, key);
    forall i | 0 <= i < |Without(order, key)| ensures Without(order, key)[i] in positions - {key} {
      assert Without(order, key)[i] in Without(order, key);
    }
  }

  lemma OpenNone(positions: map<PositionKey, Position>, sequence: nat)
    requires KnownPositions(positions, sequence)
    ensures KnownPositions(positions, sequence + 1)
  {
  }

  class Broker {
    var results: map<OrderKey, BrokerResult>
    var positions: map<PositionKey, Position>
    var submittedKeys: seq<Key>

    /** The keys of the positions, oldest first: a dictionary remembers the order of its insertions. */
    var order: seq<PositionKey>

    /** Every order ever taken, in order; kept only to say what the dictionaries stand for. */
    ghost var accepted: seq<OrderKey>

    /** The results are numbered by acceptance, and no account and key is ever accepted twice. */
    ghost predicate Valid()
      reads this
    {
      && |submittedKeys| == |accepted| == |results|
      && NumberedResults(results, accepted)
      && (forall i :: 0 <= i < |accepted| ==> submittedKeys[i] == accepted[i].1)
      && KnownPositions(positions, |accepted|)
      && InOrder(positions, order)
    }

    /** What a lookup finds. */
    function Find(accountId: Id, key: Key): Option<BrokerResult>
      reads this
    {
      if (accountId, key) in results then Some(results[(accountId, key)]) else None
    }

    constructor ()
      ensures Valid() && accepted == [] && results == map[] && positions == map[]
    {
      results := map[];
      positions := map[];
      submittedKeys := [];
      order := [];
      accepted := [];
    }

    /** Accepts an order exactly once per account and key; a repeat changes nothing and answers the same. */
    method Submit(intent: Intent) returns (result: BrokerResult)
      requires Valid()
      modifies this
      ensures Valid()
      ensures KeyOf(intent) in results && results[KeyOf(intent)] == result
      ensures if KeyOf(intent) in old(results) then
                && result == old(results)[KeyOf(intent)] && accepted == old(accepted)
                && results == old(results) && positions == old(positions) && order == old(order) && submittedKeys == old(submittedKeys)
              else
                && result == BrokerResult(intent.idempotencyKey, Some(BrokerRef("fake", |old(accepted)| + 1)), Submitted, 0.0, None,
                                          Some(BrokerRef("fake-request", |old(accepted)| + 1)), None)
                && accepted == old(accepted) + [(intent.accountId, intent.idempotencyKey)]
                && results == old(results)[(intent.accountId, intent.idempotencyKey) := result]
                && submittedKeys == old(submittedKeys) + [intent.idempotencyKey]
                && OpenedFor(intent, |old(accepted)| + 1, old(positions), positions, old(order), order)
    {
      hide NumberedResults, KnownPositions, InOrder;
      var key := KeyOf(intent);
      if key in results {
        return results[key];
      }
      AcceptOne(results, accepted, key);
      OpenNone(positions, |accepted|);
      var sequence := |results| + 1;
      result := AcceptedResult(intent.idempotencyKey, sequence);
      results := results[key := result];
      submittedKeys := submittedKeys + [intent.idempotencyKey];
      accepted := accepted + [key];
      var reference := intent.PricingReference();
      if !intent.reduceOnly && reference.Some? {
        var ref := BrokerRef("fake-position", sequence);
        var position := Position(ref, intent.accountId, intent.symbol, intent.side, intent.quantity, reference.value,
                                 intent.stopLoss, intent.takeProfit, intent.trancheRef);
        OpenOne(old(positions), sequence - 1, position);
        NewInOrder(positions, order, sequence - 1, position);
        positions := positions[(intent.accountId, ref) := position];
        order := order + [(intent.accountId, ref)];
      }
    }

    /** The port contract: nothing is found exactly when nothing was ever accepted under the key. */
    method LookupByClientOrderId(accountId: Id, key: Key) returns (found: Option<BrokerResult>)
      requires Valid()
      ensures found == Find(accountId, key) && (found.None? <==> (accountId, key) !in accepted)
      ensures found.Some? ==> found.value.clientOrderId == key
    {
      found := Find(accountId, key);
    }

    /** Changes the bracket of one position and nothing else. */
    method ModifyPositionSltp(accountId: Id, ref: BrokerRef, stopLoss: Option<real>, takeProfit: Option<real>)
      returns (updated: Outcome<Position, PositionError>)
      requires Valid()
      modifies this`positions
      ensures Valid()
      ensures updated.Raised? <==> (accountId, ref) !in old(positions)
      ensures updated.Raised? ==> positions == old(positions)
      ensures updated.Ok? ==>
                && updated.value == old(positions)[(accountId, ref)].(stopLoss := stopLoss, takeProfit := takeProfit)
                && positions == old(positions)[(accountId, ref) := updated.value]
    {
      if (accountId, ref) !in positions {
        return Raised(UnknownPosition);
      }
      var position := positions[(accountId, ref)].(stopLoss := stopLoss, takeProfit := takeProfit);
      OldInOrder(positions, order, (accountId, ref), position);
      positions := positions[(accountId, ref) := position];
      updated := Ok(position);
    }

    /**
     * Closes part or all of one position: what is closed and what remains add up to what was held, and
     * a position closed in full is gone. Closing more than is held changes nothing; a negative quantity
     * enlarges the position before it is refused; everything between is filled at the entry price.
     */
    method ClosePosition(accountId: Id, ref: BrokerRef, quantity: Option<real>)
      returns (closed: Outcome<BrokerResult, PositionError>)
      requires Valid()
      modifies this`positions, this`order
      ensures Valid()
      ensures (accountId, ref) !in old(positions) ==> closed == Raised(UnknownPosition) && positions == old(positions)
      ensures (accountId, ref) in old(positions) ==>
                var held := old(positions)[(accountId, ref)];
                var closing := if quantity.None? then held.quantity else quantity.value;
                && closed == (if held.quantity < closing then Raised(ClosesTooMuch)
                              else if closing < 0.0 then Raised(NegativeFill)
                              else Ok(ClosedResult(held, closing)))
                && (closed.Ok? ==>
                      && closed.value.clientOrderId == ref.Text() && closed.value.state == Filled
                      && closed.value.filledQuantity == closing && closed.value.averagePrice == Some(held.entryPrice)
                      && closed.value.brokerOrderId.Some?
                      && closed.value.brokerOrderId.value.Text() == "fake-close-" + ref.Text()
                      && closed.value.brokerRequestId.None? && closed.value.errorCode.None?)
                && (held.quantity < closing ==> positions == old(positions))
                && (closing == held.quantity ==> positions == old(positions) - {(accountId, ref)})
                && (closing < held.quantity ==>
                      && (accountId, ref) in positions
                      && positions == old(positions)[(accountId, ref) := positions[(accountId, ref)]]
                      && positions[(accountId, ref)] == held.(quantity := positions[(accountId, ref)].quantity)
                      && positions[(accountId, ref)].quantity + closing == held.quantity)
      ensures order == if (accountId, ref) in old(positions) && (accountId, ref) !in positions
                       then Without(old(order), (accountId, ref)) else old(order)
    {
      hide NumberedResults, InOrder, Without;
      if (accountId, ref) !in positions {
        return Raised(UnknownPosition);
      }
      var position := positions[(accountId, ref)];
      var closing := if quantity.None? then position.quantity else quantity.value;
      if closing > position.quantity {
        return Raised(ClosesTooMuch);
      }
      var remaining := position.quantity - closing;
      if remaining > 0.0 {
        OldInOrder(positions, order, (accountId, ref), position.(quantity := remaining));
        positions := positions[(accountId, ref) := position.(quantity := remaining)];
      } else {
        GoneFromOrder(positions, order, (accountId, ref));
        positions := positions - {(accountId, ref)};
        order := Without(order, (accountId, ref));
      }
      if closing < 0.0 {
        return Raised(NegativeFill);
      }
      closed := Ok(ClosedResult(position, closing));
    }

    /** The account's positions, in the order in which they were opened. */
    method ListPositions(accountId: Id) returns (found: seq<Position>)
      requires Valid()
      ensures found == Listed(order, positions, accountId)
      ensures forall position :: position in found
                <==> exists key :: key in positions && key.0 == accountId && positions[key] == position
    {
      hide NumberedResults, KnownPositions, Listed;
      found := [];
      var i := 0;
      ListedStarts(order, positions, accountId);
      while i < |order|
        invariant 0 <= i <= |order| && found == Listed(order[..i], positions, accountId)
      {
        ListedGrows(order, positions, accountId, i);
        if order[i].0 == accountId {
          found := found + [positions[order[i]]];
        }
        i := i + 1;
      }
      assert order[..i] == order;
      ListedIsComplete(order, positions, accountId);
      forall position
        ensures position in found <==> exists key :: key in positions && key.0 == accountId && positions[key] == position
      {
        if key :| key in positions && key.0 == accountId && positions[key] == position {
          var k :| 0 <= k < |order| && order[k] == key;
        }
      }
    }
  }
}
