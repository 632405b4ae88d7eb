// What the confirmation of an entry decides, in plain terms of the fill price, the stop and the gap rule.

module EntryFillTheorems {
  import opened Algebra
  import opened Prelude
  import opened Market
  import opened TradeManager
  import opened TradeManagerPairs

  /** The price is further from a positive reference close than the configured number of basis points. */
  predicate GapTooWide(price: real, reference: Option<real>, config: Config) {
    && config.maxEntryGapBps.Some? && reference.Some? && 0.0 < reference.value
    && var drift := if price < reference.value then reference.value - price else price - reference.value;
       Times(config.maxEntryGapBps.value as real, reference.value) < 10000.0 * drift
  }

  lemma EntryGapIsExact(price: real, reference: Option<real>, config: Config)
    ensures EntryGapped(price, reference, config) <==> GapTooWide(price, reference, config)
  {
    if config.maxEntryGapBps.Some? && reference.Some? && 0.0 < reference.value {
      var limit, close := config.maxEntryGapBps.value as real, reference.value;
      var share := AbsReal(price - close) / close;
      Quotient(AbsReal(price - close), close);
      TimesOrder(limit, share * 10000.0, close);
      assert Times(share * 10000.0, close) == 10000.0 * Times(share, close);
    }
  }

  /** A tranche that awaits its fill takes the filled quantity, if one is reported. */
  function SizeOf(t: Tranche, quantity: Option<real>): Option<real> {
    if t.status.PendingEntry? && quantity.Some? then quantity else t.quantity
  }

  /** The entry is given up: every live tranche is sold off for the reason, and nothing is left. */
  predicate GivesUp(s: TradeState, quantity: Option<real>, decision: TradeDecision, reason: CloseReason)
    requires IsPair(s.tranches)
  {
    var a, b := s.tranches[0], s.tranches[1];
    && decision.state == TradeState(None, None, None, [])
    && decision.actions
       == Singleton(!a.status.Closed?, TradeAction(CloseMarket, T1, None, SizeOf(a, quantity), None, None, Some(reason)))
        + Singleton(!b.status.Closed?, TradeAction(CloseMarket, T2, None, SizeOf(b, quantity), None, None, Some(reason)))
  }

  /** What a tranche becomes when the entry stands. */
  function Confirmed(t: Tranche, price: real, barIndex: int, quantity: Option<real>, stop: real, target: Option<real>): Tranche {
    if t.status.PendingEntry? then
      Tranche(t.role, t.side, Open, SizeOf(t, quantity), Some(price), Some(stop), target, Some(barIndex), t.breakevenMoved,
              t.closeReason)
    else t
  }

  /** The entry stands: pending tranches open at the price with the stop, and only T1 gets the target. */
  predicate Opens(s: TradeState, price: real, barIndex: int, quantity: Option<real>, decision: TradeDecision, stop: real, target: real)
    requires IsPair(s.tranches)
  {
    var a, b := s.tranches[0], s.tranches[1];
    && decision.state == TradeState(s.side, s.pendingStop, s.referenceClose,
                                    [Confirmed(a, price, barIndex, quantity, stop, Some(target)),
                                     Confirmed(b, price, barIndex, quantity, stop, None)])
    && decision.actions
       == Singleton(a.status.PendingEntry?, TradeAction(SetBrackets, T1, None, None, Some(stop), Some(target), None))
        + Singleton(b.status.PendingEntry?, TradeAction(SetBrackets, T2, None, None, Some(stop), None, None))
  }

  function Stamped(s: TradeState, quantity: Option<real>): TradeState {
    if quantity.None? then s else StampQuantity(s, PendingTranches(s.tranches), quantity.value)
  }

  lemma StampedParts(s: TradeState, quantity: Option<real>)
    requires IsPair(s.tranches)
    ensures Stamped(s, quantity).(tranches := s.tranches) == s
    ensures var a, b := s.tranches[0], s.tranches[1];
            Stamped(s, quantity).tranches == [a.(quantity := SizeOf(a, quantity)), b.(quantity := SizeOf(b, quantity))]
  {
    if quantity.Some? { StampOnPair(s, quantity.value); }
  }

  lemma AbortGivesUp(s: TradeState, quantity: Option<real>, reason: CloseReason)
    requires IsPair(s.tranches)
    ensures GivesUp(s, quantity, AbortEntry(Stamped(s, quantity), reason), reason)
  {
    hide Stamped, AbortEntry;
    StampedParts(s, quantity);
    AbortOnPair(Stamped(s, quantity), reason);
  }

  lemma PendingOpens(s: TradeState, price: real, barIndex: int, quantity: Option<real>, stop: real, target: real)
    requires IsPair(s.tranches)
    ensures var stamped := Stamped(s, quantity);
            var (state, actions) := OpenPending(stamped, PendingTranches(stamped.tranches), price, barIndex, stop, target, []);
            Opens(s, price, barIndex, quantity, TradeDecision(state, actions), stop, target)
  {
    hide Stamped, OpenPending;
    StampedParts(s, quantity);
    OpenPendingOnPair(Stamped(s, quantity), price, barIndex, stop, target);
  }

  /**
   * Confirming the entry of a pair. Without a signal or a pending tranche it raises. The entry is given up
   * exactly when the price gapped too far, or else when it is not on the good side of the stop. Otherwise
   * T1's target lies rr_mult times the distance to the stop beyond the price, and T2 has none.
   */
  lemma EntryFillIsExact(s: TradeState, price: real, barIndex: int, config: Config, quantity: Option<real>, reference: Option<real>)
    requires IsPair(s.tranches)
    ensures var result := OnEntryFilled(s, price, barIndex, config, quantity, reference);
            if s.side.None? || s.pendingStop.None? then result == Raised(NoPendingSignal)
            else if !s.tranches[0].status.PendingEntry? && !s.tranches[1].status.PendingEntry? then result == Raised(NothingAwaitsEntry)
            else
              var stop := s.pendingStop.value;
              var distance := if s.side == Some(Buy) then price - stop else stop - price;
              && result.Ok?
              && if GapTooWide(price, reference, config) then GivesUp(s, quantity, result.value, EntryGap)
                 else if distance <= 0.0 then GivesUp(s, quantity, result.value, InvalidRisk)
                 else
                   var reward := Times(config.rrMult, distance);
                   Opens(s, price, barIndex, quantity, result.value, stop, if s.side == Some(Buy) then price + reward else price - reward)
  {
    hide EntryGapped, GapTooWide, StampQuantity, AbortEntry, OpenPending, GivesUp, Opens;
    PairParts(s.tranches);
    EntryGapIsExact(price, reference, config);
    if s.side.Some? && s.pendingStop.Some? {
      AbortGivesUp(s, quantity, EntryGap);
      AbortGivesUp(s, quantity, InvalidRisk);
      PendingOpens(s, price, barIndex, quantity, s.pendingStop.value, Target(s.side.value, price, s.pendingStop.value, config.rrMult));
    }
  }
}
