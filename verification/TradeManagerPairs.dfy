// Every reachable trade state holds either no tranche or one T1 followed by one T2. On such a
// pair the folds of the trade manager collapse to plain case splits, which the lemmas here give.

module TradeManagerPairs {
  import opened Prelude
  import opened Market
  import opened TradeManager

  predicate IsPair(tranches: seq<Tranche>) {
    |tranches| == 2 && tranches[0].role == T1 && tranches[1].role == T2
  }

  function Singleton<T>(present: bool, x: T): seq<T> {
    if present then [x] else []
  }

  function CloseIf(close: bool, tranche: Tranche, reason: CloseReason): Tranche {
    if close then CloseTranche(tranche, reason) else tranche
  }

  lemma PairParts(ts: seq<Tranche>)
    requires IsPair(ts)
    ensures ts == [ts[0], ts[1]]
    ensures FindTranche(ts, T1) == Some(ts[0]) && FindTranche(ts, T2) == Some(ts[1])
    ensures LiveTranches(ts) == Singleton(ts[0].Live(), ts[0]) + Singleton(ts[1].Live(), ts[1])
    ensures PendingTranches(ts)
            == Singleton(ts[0].status.PendingEntry?, ts[0]) + Singleton(ts[1].status.PendingEntry?, ts[1])
  {
    assert ts[1..] == [ts[1]] && ts[1..][1..] == [];
    assert LiveTranches(ts[1..]) == Singleton(ts[1].Live(), ts[1]);
    assert PendingTranches(ts[1..]) == Singleton(ts[1].status.PendingEntry?, ts[1]);
  }

  lemma PairIsFlat(s: TradeState)
    requires IsPair(s.tranches)
    ensures s.IsFlat() <==> !s.tranches[0].Live() && !s.tranches[1].Live()
  {
    PairParts(s.tranches);
  }

  lemma ReplaceOnPair(s: TradeState, updated: Tranche)
    requires IsPair(s.tranches)
    ensures Replace(s, updated)
            == s.(tranches := if updated.role.T1? then [updated, s.tranches[1]] else [s.tranches[0], updated])
  {
    assert Replace(s, updated).tranches
           == if updated.role.T1? then [updated, s.tranches[1]] else [s.tranches[0], updated];
  }

  lemma CloseOpposingOnPair(s: TradeState, side: OrderSide)
    requires IsPair(s.tranches)
    ensures var a, b := s.tranches[0], s.tranches[1];
            var closeA, closeB := a.Live() && a.side != side, b.Live() && b.side != side;
            CloseOpposing(s, LiveTranches(s.tranches), side, [])
            == (s.(tranches := [CloseIf(closeA, a, Reversal), CloseIf(closeB, b, Reversal)]),
                Singleton(closeA, CloseAction(a, Reversal)) + Singleton(closeB, CloseAction(b, Reversal)))
  {
    var a, b := s.tranches[0], s.tranches[1];
    var closeA, closeB := a.Live() && a.side != side, b.Live() && b.side != side;
    PairParts(s.tranches);
    var s1 := if closeA then Replace(s, CloseTranche(a, Reversal)) else s;
    var acts := Singleton(closeA, CloseAction(a, Reversal));
    ReplaceOnPair(s, CloseTranche(a, Reversal));
    ReplaceOnPair(s1, CloseTranche(b, Reversal));
    var live := LiveTranches(s.tranches);
    var rest := Singleton(b.Live(), b);
    assert if a.Live() then live[1..] == rest else live == rest;
    assert forall x: TradeAction :: [] + [x] == [x];
    assert CloseOpposing(s, live, side, []) == CloseOpposing(s1, rest, side, acts);
    if b.Live() { assert rest[1..] == []; }
    assert CloseOpposing(s1, rest, side, acts).0.tranches
           == [CloseIf(closeA, a, Reversal), CloseIf(closeB, b, Reversal)];
    assert CloseOpposing(s1, rest, side, acts).1 == acts + Singleton(closeB, CloseAction(b, Reversal));
  }

  lemma CloseAllOnPair(s: TradeState, reason: CloseReason)
    requires IsPair(s.tranches)
    ensures var a, b := s.tranches[0], s.tranches[1];
            CloseAll(s, LiveTranches(s.tranches), reason, [])
            == (s.(tranches := [CloseIf(a.Live(), a, reason), CloseIf(b.Live(), b, reason)]),
                Singleton(a.Live(), CloseAction(a, reason)) + Singleton(b.Live(), CloseAction(b, reason)))
  {
    var a, b := s.tranches[0], s.tranches[1];
    PairParts(s.tranches);
    var s1 := if a.Live() then Replace(s, CloseTranche(a, reason)) else s;
    var acts := Singleton(a.Live(), CloseAction(a, reason));
    ReplaceOnPair(s, CloseTranche(a, reason));
    ReplaceOnPair(s1, CloseTranche(b, reason));
    var live := LiveTranches(s.tranches);
    var rest := Singleton(b.Live(), b);
    assert if a.Live() then live[1..] == rest else live == rest;
    assert forall x: TradeAction :: [] + [x] == [x];
    assert CloseAll(s, live, reason, []) == CloseAll(s1, rest, reason, acts);
    if b.Live() { assert rest[1..] == []; }
    assert CloseAll(s1, rest, reason, acts).0.tranches == [CloseIf(a.Live(), a, reason), CloseIf(b.Live(), b, reason)];
    assert CloseAll(s1, rest, reason, acts).1 == acts + Singleton(b.Live(), CloseAction(b, reason));
  }

  /** Aborting an entry closes whatever is live and always ends flat, in the empty state. */
  lemma AbortOnPair(s: TradeState, reason: CloseReason)
    requires IsPair(s.tranches)
    ensures AbortEntry(s, reason).state == EMPTY_STATE
    ensures AbortEntry(s, reason).actions
            == Singleton(s.tranches[0].Live(), CloseAction(s.tranches[0], reason))
             + Singleton(s.tranches[1].Live(), CloseAction(s.tranches[1], reason))
  {
    CloseAllOnPair(s, reason);
    PairIsFlat(CloseAll(s, LiveTranches(s.tranches), reason, []).0);
  }

  function StampIf(stamp: bool, tranche: Tranche, quantity: real): Tranche {
    if stamp then tranche.(quantity := Some(quantity)) else tranche
  }

  lemma StampOnPair(s: TradeState, quantity: real)
    requires IsPair(s.tranches)
    ensures var a, b := s.tranches[0], s.tranches[1];
            StampQuantity(s, PendingTranches(s.tranches), quantity)
            == s.(tranches := [StampIf(a.status.PendingEntry?, a, quantity), StampIf(b.status.PendingEntry?, b, quantity)])
  {
    var a, b := s.tranches[0], s.tranches[1];
    PairParts(s.tranches);
    var a', b' := a.(quantity := Some(quantity)), b.(quantity := Some(quantity));
    var s1 := if a.status.PendingEntry? then Replace(s, a') else s;
    ReplaceOnPair(s, a');
    ReplaceOnPair(s1, b');
    var pending := PendingTranches(s.tranches);
    var rest := Singleton(b.status.PendingEntry?, b);
    assert if a.status.PendingEntry? then pending[1..] == rest else pending == rest;
    assert StampQuantity(s, pending, quantity) == StampQuantity(s1, rest, quantity);
    if b.status.PendingEntry? { assert rest[1..] == []; }
    assert StampQuantity(s1, rest, quantity).tranches
           == [StampIf(a.status.PendingEntry?, a, quantity), StampIf(b.status.PendingEntry?, b, quantity)];
  }

  function FillIf(fill: bool, tranche: Tranche, entryPrice: real, barIndex: int, stopLoss: real, target: real): Tranche {
    if fill then FilledTranche(tranche, entryPrice, barIndex, stopLoss, target) else tranche
  }

  lemma OpenPendingOnPair(s: TradeState, entryPrice: real, barIndex: int, stopLoss: real, target: real)
    requires IsPair(s.tranches)
    ensures var a, b := s.tranches[0], s.tranches[1];
            var fillA, fillB := a.status.PendingEntry?, b.status.PendingEntry?;
            OpenPending(s, PendingTranches(s.tranches), entryPrice, barIndex, stopLoss, target, [])
            == (s.(tranches := [FillIf(fillA, a, entryPrice, barIndex, stopLoss, target),
                                FillIf(fillB, b, entryPrice, barIndex, stopLoss, target)]),
                Singleton(fillA, BracketAction(T1, stopLoss, Some(target)))
              + Singleton(fillB, BracketAction(T2, stopLoss, None)))
  {
    var a, b := s.tranches[0], s.tranches[1];
    var fillA, fillB := a.status.PendingEntry?, b.status.PendingEntry?;
    PairParts(s.tranches);
    var a' := FilledTranche(a, entryPrice, barIndex, stopLoss, target);
    var b' := FilledTranche(b, entryPrice, barIndex, stopLoss, target);
    var s1 := if fillA then Replace(s, a') else s;
    var acts := Singleton(fillA, BracketAction(T1, stopLoss, Some(target)));
    ReplaceOnPair(s, a');
    ReplaceOnPair(s1, b');
    var pending := PendingTranches(s.tranches);
    var rest := Singleton(fillB, b);
    assert if fillA then pending[1..] == rest else pending == rest;
    assert forall x: TradeAction :: [] + [x] == [x];
    assert OpenPending(s, pending, entryPrice, barIndex, stopLoss, target, [])
           == OpenPending(s1, rest, entryPrice, barIndex, stopLoss, target, acts);
    if fillB { assert rest[1..] == []; }
    assert OpenPending(s1, rest, entryPrice, barIndex, stopLoss, target, acts).0.tranches
           == [FillIf(fillA, a, entryPrice, barIndex, stopLoss, target),
               FillIf(fillB, b, entryPrice, barIndex, stopLoss, target)];
    assert OpenPending(s1, rest, entryPrice, barIndex, stopLoss, target, acts).1
           == acts + Singleton(fillB, BracketAction(T2, stopLoss, None));
  }

  // ---- The rules of the closing bar, one by one --------------------------------------------------

  /** The runner after the break-even rule. */
  function MovedRunner(a: Tranche, b: Tranche, bar: Bar, signal: BarSignal): Tranche {
    if MovesToBreakeven(b, a, bar, signal) then b.(stopLoss := b.entryPrice, breakevenMoved := true) else b
  }

  function MoveAction(entryPrice: Option<real>): TradeAction {
    TradeAction(MoveStop, T2, None, None, entryPrice, None, None)
  }

  lemma BreakevenOnPair(s: TradeState, bar: Bar, signal: BarSignal)
    requires IsPair(s.tranches)
    ensures var a, b := s.tranches[0], s.tranches[1];
            ApplyBreakeven(s, bar, signal)
            == (s.(tranches := [a, MovedRunner(a, b, bar, signal)]),
                Singleton(MovesToBreakeven(b, a, bar, signal), MoveAction(b.entryPrice)))
  {
    var b := s.tranches[1];
    PairParts(s.tranches);
    ReplaceOnPair(s, b.(stopLoss := b.entryPrice, breakevenMoved := true));
  }

  lemma HullExitOnPair(s: TradeState, signal: BarSignal, config: Config)
    requires IsPair(s.tranches)
    ensures var a, b := s.tranches[0], s.tranches[1];
            var closes := HullCloses(b, signal, config);
            ApplyHullExit(s, signal, config)
            == (s.(tranches := [a, CloseIf(closes, b, HullFlip)]), Singleton(closes, CloseAction(b, HullFlip)))
  {
    PairParts(s.tranches);
    ReplaceOnPair(s, CloseTranche(s.tranches[1], HullFlip));
  }

  lemma SignalOnPair(s: TradeState, bar: Bar, signal: BarSignal)
    requires IsPair(s.tranches)
    ensures var a, b := s.tranches[0], s.tranches[1];
            ApplySignal(s, bar, signal) ==
            match SideOf(signal)
            case None => (s, [])
            case Some(side) =>
              var closeA, closeB := a.Live() && a.side != side, b.Live() && b.side != side;
              var closes := Singleton(closeA, CloseAction(a, Reversal)) + Singleton(closeB, CloseAction(b, Reversal));
              if (a.Live() && !closeA) || (b.Live() && !closeB) || StopOf(signal).None? then
                (s.(tranches := [CloseIf(closeA, a, Reversal), CloseIf(closeB, b, Reversal)]), closes)
              else
                (PendingState(side, StopOf(signal).value, bar.close), closes + [OpenAction(T1, side), OpenAction(T2, side)])
  {
    if SideOf(signal).Some? {
      var side := SideOf(signal).value;
      CloseOpposingOnPair(s, side);
      PairIsFlat(CloseOpposing(s, LiveTranches(s.tranches), side, []).0);
    }
  }

  lemma BarCloseOnEmpty(s: TradeState, bar: Bar, signal: BarSignal, config: Config)
    requires s.tranches == []
    ensures OnBarClose(s, bar, signal, config) ==
            if SideOf(signal).None? || StopOf(signal).None? then TradeDecision(s, [])
            else TradeDecision(PendingState(SideOf(signal).value, StopOf(signal).value, bar.close),
                               [OpenAction(T1, SideOf(signal).value), OpenAction(T2, SideOf(signal).value)])
  {
  }
}
