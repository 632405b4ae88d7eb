// Orders as the execution side sees them: the intent sent to a broker, the broker's answer, and the
// stored row that becomes both.

module Orders {
  import opened Prelude
  import opened Market
  import opened OrderStates

  type Id = nat
  type Key = string

  datatype OrderType = MarketOrder | LimitOrder

  datatype Intent = Intent(
    intentId: Id,
    accountId: Id,
    signalId: Id,
    symbol: string,
    side: OrderSide,
    orderType: OrderType,
    quantity: real,
    limitPrice: Option<real>,
    referencePrice: Option<real>,
    stopLoss: Option<real>,
    takeProfit: Option<real>,
    reduceOnly: bool,
    trancheRef: Option<string>,
    idempotencyKey: Key
  ) {
    function PricingReference(): Option<real> {
      if limitPrice.Some? then limitPrice else referencePrice
    }

    /** What the validators of the source's intent model enforce on these fields. */
    predicate Valid() {
      && 0.0 < quantity
      && PositivePrice(limitPrice) && PositivePrice(referencePrice) && PositivePrice(stopLoss) && PositivePrice(takeProfit)
      && (if orderType.LimitOrder? then limitPrice.Some? else limitPrice.None? && referencePrice.Some?)
      && BracketsOnCorrectSide(side, PricingReference(), stopLoss, takeProfit)
    }
  }

  predicate PositivePrice(price: Option<real>) {
    price.Some? ==> 0.0 < price.value
  }

  predicate BracketsOnCorrectSide(side: OrderSide, anchor: Option<real>, stopLoss: Option<real>, takeProfit: Option<real>) {
    anchor.Some? ==>
      if side.Buy? then
        (stopLoss.Some? ==> stopLoss.value < anchor.value) && (takeProfit.Some? ==> anchor.value < takeProfit.value)
      else
        (stopLoss.Some? ==> anchor.value < stopLoss.value) && (takeProfit.Some? ==> takeProfit.value < anchor.value)
  }

  /**
   * A valid intent, side by side with its prices: something to trade, a limit price exactly on a limit order,
   * a price to measure against, and each level, if given, a positive price on its own side of that price.
   */
  lemma ValidIntentIsExact(intent: Intent)
    ensures intent.Valid() <==>
              && 0.0 < intent.quantity
              && (intent.orderType.LimitOrder? <==> intent.limitPrice.Some?)
              && (intent.limitPrice.Some? || intent.referencePrice.Some?)
              && (intent.referencePrice.Some? ==> 0.0 < intent.referencePrice.value)
              && var price := if intent.limitPrice.Some? then intent.limitPrice.value else intent.referencePrice.value;
                 && 0.0 < price
                 && (intent.stopLoss.Some? ==>
                       0.0 < intent.stopLoss.value && if intent.side.Buy? then intent.stopLoss.value < price else price < intent.stopLoss.value)
                 && (intent.takeProfit.Some? ==>
                       0.0 < intent.takeProfit.value && if intent.side.Buy? then price < intent.takeProfit.value else intent.takeProfit.value < price)
  {
  }

  /** A reference the broker hands out, such as fake-3. */
  datatype BrokerRef = BrokerRef(text: string, number: nat) {
    function Text(): string {
      text + "-" + NatText(number)
    }
  }

  datatype BrokerResult = BrokerResult(
    clientOrderId: Key,
    brokerOrderId: Option<BrokerRef>,
    state: OrderState,
    filledQuantity: real,
    averagePrice: Option<real>,
    brokerRequestId: Option<BrokerRef>,
    errorCode: Option<string>
  )

  /** A stored order. The evidence columns are optional, as the code that reads them assumes. */
  datatype Row = Row(
    intent: Intent,
    state: OrderState,
    brokerOrderId: Option<BrokerRef>,
    filledQuantity: real,
    averagePrice: Option<real>,
    brokerRequestId: Option<BrokerRef>,
    errorCode: Option<string>,
    riskDecisionId: Option<Id>,
    approvalId: Option<Id>
  ) {
    predicate HasEvidence() {
      riskDecisionId.Some? && approvalId.Some?
    }

    function Key(): Key {
      intent.idempotencyKey
    }

    /** The columns as an intent, if the intent's own validation accepts them. */
    function AsDomain(): Option<Intent> {
      if intent.Valid() then Some(intent) else None
    }

    function AsBrokerResult(): BrokerResult {
      BrokerResult(Key(), brokerOrderId, state, filledQuantity, averagePrice, brokerRequestId, errorCode)
    }
  }

  /** The row written for a new intent: the order type, reference price, brackets and flags are left at their defaults. */
  function StoredRow(intent: Intent, state: OrderState, riskDecisionId: Id, approvalId: Id): Row {
    Row(intent.(orderType := LimitOrder, referencePrice := None, stopLoss := None, takeProfit := None,
                reduceOnly := false, trancheRef := None),
        state, None, 0.0, None, None, None, Some(riskDecisionId), Some(approvalId))
  }

  /** The columns of a new row: the intent's identity and size, the given state and evidence, and no result yet. */
  lemma NewRowColumns(intent: Intent, state: OrderState, riskDecisionId: Id, approvalId: Id)
    ensures var row := StoredRow(intent, state, riskDecisionId, approvalId);
            && row.intent.intentId == intent.intentId && row.intent.accountId == intent.accountId
            && row.intent.signalId == intent.signalId && row.intent.symbol == intent.symbol && row.intent.side == intent.side
            && row.intent.quantity == intent.quantity && row.intent.limitPrice == intent.limitPrice
            && row.Key() == intent.idempotencyKey && row.state == state
            && row.riskDecisionId == Some(riskDecisionId) && row.approvalId == Some(approvalId) && row.HasEvidence()
            && row.AsBrokerResult() == BrokerResult(intent.idempotencyKey, None, state, 0.0, None, None, None)
  {
  }

  /** A stored intent can be read back at all exactly when it is a limit order, and whole only without brackets or flags. */
  lemma StoredIntentReadsBackIff(intent: Intent, state: OrderState, riskDecisionId: Id, approvalId: Id)
    requires intent.Valid()
    ensures var read := StoredRow(intent, state, riskDecisionId, approvalId).AsDomain();
            && (read.Some? <==> intent.orderType.LimitOrder?)
            && (read == Some(intent) <==>
                  && intent.orderType.LimitOrder? && intent.referencePrice.None? && intent.stopLoss.None?
                  && intent.takeProfit.None? && !intent.reduceOnly && intent.trancheRef.None?)
  {
    var stored := StoredRow(intent, state, riskDecisionId, approvalId);
    assert stored.intent.Valid() <==> intent.orderType.LimitOrder?;
  }
}
