// What the trade manager promises under any sequence of bar closes, entry fills and closures,
// in whatever order a broker and a clock may deliver them.

module TradeManagerTheorems {
  import opened Algebra
  import opened Prelude
  import opened Market
  import opened TradeManager
  import opened TradeManagerPairs

  datatype Event =
    | BarClosed(bar: Bar, signal: BarSignal)
    | EntryFilled(price: real, barIndex: int, quantity: Option<real>, referenceClose: Option<real>)
    | TrancheClosed(role: TrancheRole, reason: CloseReason)

  /** One event handled by the manager; an event that raises changes nothing. */
  function Handle(s: TradeState, event: Event, config: Config): TradeDecision {
    match event
    case BarClosed(bar, signal) => OnBarClose(s, bar, signal, config)
    case EntryFilled(price, barIndex, quantity, referenceClose) =>
      var result := OnEntryFilled(s, price, barIndex, config, quantity, referenceClose);
      if result.Ok? then result.value else TradeDecision(s, [])
    case TrancheClosed(role, reason) => TradeDecision(OnTrancheClosed(s, role, reason), [])
  }

  function StateAfter(events: seq<Event>, config: Config): TradeState {
    if events == [] then EMPTY_STATE
    else Handle(StateAfter(events[..|events| - 1], config), events[|events| - 1], config).state
  }

  predicate OpenTrancheOk(t: Tranche, stop: real) {
    && t.entryPrice.Some? && t.entryBarIndex.Some? && 0.0 < Risk(t.side, t.entryPrice.value, stop)
    && (if t.breakevenMoved then t.role.T2? && t.stopLoss == t.entryPrice else t.stopLoss == Some(stop))
  }

  /** The shape of every reachable state: no tranche, or one T1 and one T2 on one side. */
  predicate WellFormed(s: TradeState) {
    s.tranches != [] ==>
      && IsPair(s.tranches) && s.side.Some? && s.pendingStop.Some?
      && (forall i :: 0 <= i < 2 ==> TrancheOk(s, s.tranches[i]))
  }

  predicate TrancheOk(s: TradeState, t: Tranche)
    requires s.side.Some? && s.pendingStop.Some?
  {
    && t.side == s.side.value
    && (t.status.Open? ==> OpenTrancheOk(t, s.pendingStop.value))
    && (t.status.PendingEntry? ==> !t.breakevenMoved)
  }

  predicate Holds(s: TradeState, role: TrancheRole) {
    var t := FindTranche(s.tranches, role);
    t.Some? && t.value.Live()
  }

  predicate OpensAnew(actions: seq<TradeAction>) {
    exists i :: 0 <= i < |actions| && actions[i].kind.OpenMarket?
  }

  predicate ClosesRole(actions: seq<TradeAction>, role: TrancheRole) {
    exists i :: 0 <= i < |actions| && actions[i].kind.CloseMarket? && actions[i].role == role
  }

  /** Stop and target sit on the two proper sides of the entry price. */
  predicate Brackets(side: OrderSide, entry: real, stop: real, target: Option<real>) {
    if side.Buy? then stop < entry && (target.Some? ==> entry < target.value)
    else entry < stop && (target.Some? ==> target.value < entry)
  }

  predicate Tighter(side: OrderSide, before: real, after: real) {
    if side.Buy? then before < after else after < before
  }

  predicate ClosesBeforeOpens(actions: seq<TradeAction>) {
    forall i, j :: 0 <= i < j < |actions| && actions[i].kind.OpenMarket? ==> !actions[j].kind.CloseMarket?
  }

  predicate ClosesEachRoleOnce(actions: seq<TradeAction>) {
    forall i, j :: 0 <= i < j < |actions| && actions[i].kind.CloseMarket? && actions[j].kind.CloseMarket?
                   ==> actions[i].role != actions[j].role
  }

  /** Market exits are emitted for exactly the positions the decision gives up. */
  predicate ClosesWhatItDrops(s: TradeState, decision: TradeDecision) {
    forall role :: ClosesRole(decision.actions, role)
                   <==> Holds(s, role) && (OpensAnew(decision.actions) || !Holds(decision.state, role))
  }

  /** Entries come as one pair at the end of the list, and only when everything live has been closed. */
  ghost predicate OpensOnlyWhenFlat(s: TradeState, decision: TradeDecision) {
    OpensAnew(decision.actions) ==>
      && |decision.actions| >= 2
      && (exists side :: decision.actions[|decision.actions| - 2..] == [OpenAction(T1, side), OpenAction(T2, side)])
      && (forall i :: 0 <= i < |decision.actions| - 2 ==> !decision.actions[i].kind.OpenMarket?)
      && (forall role :: Holds(s, role) ==> ClosesRole(decision.actions, role))
  }

  predicate BracketsAreSound(decision: TradeDecision) {
    forall i :: 0 <= i < |decision.actions| && decision.actions[i].kind.SetBrackets? ==>
      var action := decision.actions[i];
      var t := FindTranche(decision.state.tranches, action.role);
      && t.Some? && t.value.status.Open? && t.value.entryPrice.Some? && action.stopLoss.Some?
      && Brackets(t.value.side, t.value.entryPrice.value, action.stopLoss.value, action.takeProfit)
      && (action.takeProfit.Some? <==> action.role.T1?)
  }

  /** While the runner stays open its stop is kept, or moved for the first time, to entry and towards profit. */
  predicate RunnerStopOk(s: TradeState, decision: TradeDecision) {
    var before, after := FindTranche(s.tranches, T2), FindTranche(decision.state.tranches, T2);
    before.Some? && after.Some? && before.value.status.Open? && after.value.status.Open? ==>
      if before.value.breakevenMoved == after.value.breakevenMoved then
        after.value.stopLoss == before.value.stopLoss
      else
        && after.value.breakevenMoved
        && before.value.stopLoss.Some? && before.value.entryPrice.Some?
        && after.value.stopLoss == before.value.entryPrice
        && Tighter(before.value.side, before.value.stopLoss.value, before.value.entryPrice.value)
  }

  ghost predicate DecisionSafe(s: TradeState, decision: TradeDecision) {
    && WellFormed(decision.state)
    && ClosesBeforeOpens(decision.actions)
    && ClosesEachRoleOnce(decision.actions)
    && OpensOnlyWhenFlat(s, decision)
    && BracketsAreSound(decision)
    && RunnerStopOk(s, decision)
  }

  // ---- Action lists ----------------------------------------------------------------------------

  lemma ClosesRoleConcat(a: seq<TradeAction>, b: seq<TradeAction>, role: TrancheRole)
    ensures ClosesRole(a + b, role) <==> ClosesRole(a, role) || ClosesRole(b, role)
  {
    var c := a + b;
    if ClosesRole(a, role) {
      var i :| 0 <= i < |a| && a[i].kind.CloseMarket? && a[i].role == role;
      assert c[i] == a[i];
    }
    if ClosesRole(b, role) {
      var i :| 0 <= i < |b| && b[i].kind.CloseMarket? && b[i].role == role;
      assert c[|a| + i] == b[i];
    }
  }

  lemma ClosesRoleSingleton(present: bool, action: TradeAction, role: TrancheRole)
    ensures ClosesRole(Singleton(present, action), role)
            <==> present && action.kind.CloseMarket? && action.role == role
  {
    if present && action.kind.CloseMarket? && action.role == role {
      assert Singleton(present, action)[0] == action;
    }
  }

  predicate OnlyMovesAndCloses(actions: seq<TradeAction>) {
    forall i :: 0 <= i < |actions| ==> actions[i].kind.MoveStop? || actions[i].kind.CloseMarket?
  }

  // ---- Bar closes ------------------------------------------------------------------------------

  /** What one bar close does to a pair, named part by part. */
  datatype Close = Close(moves: bool, hull: bool, closeA: bool, closeB: bool, reopen: bool, held: Tranche)

  function CloseOf(s: TradeState, bar: Bar, signal: BarSignal, config: Config): Close
    requires IsPair(s.tranches)
  {
    var a, b := s.tranches[0], s.tranches[1];
    var runner := MovedRunner(a, b, bar, signal);
    var hull := HullCloses(runner, signal, config);
    var held := CloseIf(hull, runner, HullFlip);
    match SideOf(signal)
    case None => Close(MovesToBreakeven(b, a, bar, signal), hull, false, false, false, held)
    case Some(side) =>
      var closeA, closeB := a.Live() && a.side != side, held.Live() && held.side != side;
      Close(MovesToBreakeven(b, a, bar, signal), hull, closeA, closeB,
            (a.Live() ==> closeA) && (held.Live() ==> closeB) && StopOf(signal).Some?, held)
  }

  function Exits(s: TradeState, c: Close): seq<TradeAction>
    requires IsPair(s.tranches)
  {
    Singleton(c.moves, MoveAction(s.tranches[1].entryPrice))
    + Singleton(c.hull, CloseAction(c.held, HullFlip))
    + Singleton(c.closeA, CloseAction(s.tranches[0], Reversal))
    + Singleton(c.closeB, CloseAction(c.held, Reversal))
  }

  lemma BarCloseOnPair(s: TradeState, bar: Bar, signal: BarSignal, config: Config)
    requires IsPair(s.tranches)
    ensures var c := CloseOf(s, bar, signal, config);
            OnBarClose(s, bar, signal, config) ==
            if c.reopen then
              TradeDecision(PendingState(SideOf(signal).value, StopOf(signal).value, bar.close),
                            Exits(s, c) + [OpenAction(T1, SideOf(signal).value), OpenAction(T2, SideOf(signal).value)])
            else
              TradeDecision(s.(tranches := [CloseIf(c.closeA, s.tranches[0], Reversal), CloseIf(c.closeB, c.held, Reversal)]),
                            Exits(s, c))
  {
    var c := CloseOf(s, bar, signal, config);
    BreakevenOnPair(s, bar, signal);
    var (s1, a1) := ApplyBreakeven(s, bar, signal);
    HullExitOnPair(s1, signal, config);
    var (s2, a2) := ApplyHullExit(s1, signal, config);
    assert s2 == s.(tranches := [s.tranches[0], c.held]);
    SignalOnPair(s2, bar, signal);
    var (s3, a3) := ApplySignal(s2, bar, signal);
    var p2 := Singleton(c.closeA, CloseAction(s.tranches[0], Reversal));
    var p3 := Singleton(c.closeB, CloseAction(c.held, Reversal));
    var opens := if c.reopen then [OpenAction(T1, SideOf(signal).value), OpenAction(T2, SideOf(signal).value)] else [];
    assert a3 == p2 + p3 + opens;
    JoinParts(a1, a2, p2, p3, opens);
  }

  predicate ClosesFor(actions: seq<TradeAction>, role: TrancheRole, reason: CloseReason) {
    exists i :: 0 <= i < |actions| && actions[i].kind.CloseMarket? && actions[i].role == role && actions[i].reason == Some(reason)
  }

  lemma ClosesForConcat(a: seq<TradeAction>, b: seq<TradeAction>, role: TrancheRole, reason: CloseReason)
    ensures ClosesFor(a + b, role, reason) <==> ClosesFor(a, role, reason) || ClosesFor(b, role, reason)
  {
    var c := a + b;
    if ClosesFor(a, role, reason) {
      var i :| 0 <= i < |a| && a[i].kind.CloseMarket? && a[i].role == role && a[i].reason == Some(reason);
      assert c[i] == a[i];
    }
    if ClosesFor(b, role, reason) {
      var i :| 0 <= i < |b| && b[i].kind.CloseMarket? && b[i].role == role && b[i].reason == Some(reason);
      assert c[|a| + i] == b[i];
    }
  }

  lemma ClosesForSingleton(present: bool, action: TradeAction, role: TrancheRole, reason: CloseReason)
    ensures ClosesFor(Singleton(present, action), role, reason)
            <==> present && action.kind.CloseMarket? && action.role == role && action.reason == Some(reason)
  {
    if present && action.kind.CloseMarket? && action.role == role && action.reason == Some(reason) {
      assert Singleton(present, action)[0] == action;
    }
  }

  /**
   * A flip of the Hull colour closes the runner, and only the runner, exactly when the exit is switched on,
   * the runner is open, the flip goes against it, and its stop stands at break-even by then if the settings
   * ask for that; a stop moved on the same bar counts.
   */
  lemma HullExitExactlyWhen(s: TradeState, bar: Bar, signal: BarSignal, config: Config)
    requires IsPair(s.tranches)
    ensures var actions := OnBarClose(s, bar, signal, config).actions;
            var runner := s.tranches[1];
            && !ClosesFor(actions, T1, HullFlip)
            && (ClosesFor(actions, T2, HullFlip) <==>
                  && runner.status.Open? && config.useHullExit && FlipsAgainst(signal, runner.side)
                  && (config.onlyAfterBe ==> runner.breakevenMoved || MovesToBreakeven(runner, s.tranches[0], bar, signal)))
  {
    hide OnBarClose, MovesToBreakeven;
    BarCloseOnPair(s, bar, signal, config);
    var c := CloseOf(s, bar, signal, config);
    forall role ensures ClosesFor(Exits(s, c), role, HullFlip) <==> role.T2? && c.hull {
      HullPart(s, c, role);
    }
    if c.reopen {
      var side := SideOf(signal).value;
      var opens := [OpenAction(T1, side), OpenAction(T2, side)];
      ClosesForConcat(Exits(s, c), opens, T1, HullFlip);
      ClosesForConcat(Exits(s, c), opens, T2, HullFlip);
    }
  }

  lemma HullPart(s: TradeState, c: Close, role: TrancheRole)
    requires IsPair(s.tranches) && c.held.role == T2
    ensures ClosesFor(Exits(s, c), role, HullFlip) <==> role.T2? && c.hull
  {
    hide ClosesFor;
    var p0 := Singleton(c.moves, MoveAction(s.tranches[1].entryPrice));
    var p1 := Singleton(c.hull, CloseAction(c.held, HullFlip));
    var p2 := Singleton(c.closeA, CloseAction(s.tranches[0], Reversal));
    var p3 := Singleton(c.closeB, CloseAction(c.held, Reversal));
    ClosesForSingleton(c.moves, MoveAction(s.tranches[1].entryPrice), role, HullFlip);
    ClosesForSingleton(c.hull, CloseAction(c.held, HullFlip), role, HullFlip);
    ClosesForSingleton(c.closeA, CloseAction(s.tranches[0], Reversal), role, HullFlip);
    ClosesForSingleton(c.closeB, CloseAction(c.held, Reversal), role, HullFlip);
    ClosesForConcat(p0, p1, role, HullFlip);
    ClosesForConcat(p0 + p1, p2, role, HullFlip);
    ClosesForConcat(p0 + p1 + p2, p3, role, HullFlip);
  }

  lemma JoinParts(a: seq<TradeAction>, b: seq<TradeAction>, c: seq<TradeAction>, d: seq<TradeAction>, e: seq<TradeAction>)
    ensures a + b + (c + d + e) == a + b + c + d + e
    ensures a + b + c + d + [] == a + b + c + d
  {
  }

  lemma ExitsClose(s: TradeState, c: Close, role: TrancheRole)
    requires IsPair(s.tranches) && c.held.role == T2
    ensures ClosesRole(Exits(s, c), role) <==> if role.T1? then c.closeA else c.hull || c.closeB
    ensures OnlyMovesAndCloses(Exits(s, c))
  {
    var p0 := Singleton(c.moves, MoveAction(s.tranches[1].entryPrice));
    var p1 := Singleton(c.hull, CloseAction(c.held, HullFlip));
    var p2 := Singleton(c.closeA, CloseAction(s.tranches[0], Reversal));
    var p3 := Singleton(c.closeB, CloseAction(c.held, Reversal));
    ClosesRoleSingleton(c.moves, MoveAction(s.tranches[1].entryPrice), role);
    ClosesRoleSingleton(c.hull, CloseAction(c.held, HullFlip), role);
    ClosesRoleSingleton(c.closeA, CloseAction(s.tranches[0], Reversal), role);
    ClosesRoleSingleton(c.closeB, CloseAction(c.held, Reversal), role);
    ClosesRoleConcat(p0, p1, role);
    ClosesRoleConcat(p0 + p1, p2, role);
    ClosesRoleConcat(p0 + p1 + p2, p3, role);
  }

  lemma ExitsAreOrdered(s: TradeState, c: Close)
    requires IsPair(s.tranches) && c.held.role == T2 && (c.hull ==> !c.closeB)
    ensures ClosesEachRoleOnce(Exits(s, c))
  {
  }

  lemma AppendOpens(exits: seq<TradeAction>, side: OrderSide)
    requires OnlyMovesAndCloses(exits) && ClosesEachRoleOnce(exits)
    ensures var all := exits + [OpenAction(T1, side), OpenAction(T2, side)];
            && ClosesBeforeOpens(all) && ClosesEachRoleOnce(all)
            && (forall role :: ClosesRole(all, role) <==> ClosesRole(exits, role))
            && all[|all| - 2..] == [OpenAction(T1, side), OpenAction(T2, side)]
  {
    forall role
      ensures ClosesRole(exits + [OpenAction(T1, side), OpenAction(T2, side)], role) <==> ClosesRole(exits, role)
    {
      ClosesRoleConcat(exits, [OpenAction(T1, side), OpenAction(T2, side)], role);
    }
  }

  lemma PendingStateOk(side: OrderSide, stop: real, reference: real)
    ensures var p := PendingState(side, stop, reference);
            WellFormed(p) && IsPair(p.tranches) && p.tranches[0].Live() && p.tranches[1].Live()
  {
  }

  /** Reopening is safe when every live tranche is closed by the decision and sits on the other side. */
  lemma ReopenSafe(s: TradeState, exits: seq<TradeAction>, side: OrderSide, stop: real, reference: real)
    requires OnlyMovesAndCloses(exits) && ClosesEachRoleOnce(exits)
    requires forall role :: ClosesRole(exits, role) <==> Holds(s, role)
    ensures var d := TradeDecision(PendingState(side, stop, reference), exits + [OpenAction(T1, side), OpenAction(T2, side)]);
            DecisionSafe(s, d) && ClosesWhatItDrops(s, d)
  {
    var p := PendingState(side, stop, reference);
    var d := TradeDecision(p, exits + [OpenAction(T1, side), OpenAction(T2, side)]);
    PendingStateOk(side, stop, reference);
    AppendOpens(exits, side);
    assert d.actions[|exits|].kind.OpenMarket?;
    assert OpensOnlyWhenFlat(s, d) by { hide WellFormed, Holds, ClosesRole, ClosesBeforeOpens, ClosesEachRoleOnce; }
    assert BracketsAreSound(d) by { hide WellFormed, Holds, ClosesRole, ClosesBeforeOpens, ClosesEachRoleOnce, FindTranche; }
    FreshRunner(s, d, side, stop, reference);
    hide WellFormed, Holds, ClosesRole, ClosesBeforeOpens, ClosesEachRoleOnce, OpensOnlyWhenFlat, BracketsAreSound, RunnerStopOk;
  }

  lemma FreshRunner(s: TradeState, d: TradeDecision, side: OrderSide, stop: real, reference: real)
    requires d.state == PendingState(side, stop, reference)
    ensures RunnerStopOk(s, d)
  {
    PairParts(d.state.tranches);
  }

  /** Keeping the pair is safe when exactly the newly closed roles are closed by the decision. */
  lemma KeepSafe(s: TradeState, exits: seq<TradeAction>, a: Tranche, b: Tranche)
    requires WellFormed(s) && IsPair(s.tranches)
    requires OnlyMovesAndCloses(exits) && ClosesEachRoleOnce(exits)
    requires a.role == T1 && b.role == T2 && TrancheOk(s, a) && TrancheOk(s, b)
    requires ClosesRole(exits, T1) <==> s.tranches[0].Live() && !a.Live()
    requires ClosesRole(exits, T2) <==> s.tranches[1].Live() && !b.Live()
    requires RunnerStopOk(s, TradeDecision(s.(tranches := [a, b]), exits))
    ensures var d := TradeDecision(s.(tranches := [a, b]), exits);
            DecisionSafe(s, d) && ClosesWhatItDrops(s, d)
  {
    PairParts(s.tranches);
    PairParts([a, b]);
    var d := TradeDecision(s.(tranches := [a, b]), exits);
    assert TrancheOk(d.state, a) && TrancheOk(d.state, b);
    assert WellFormed(d.state);
  }

  lemma IdleSafe(s: TradeState)
    requires WellFormed(s)
    ensures DecisionSafe(s, TradeDecision(s, [])) && ClosesWhatItDrops(s, TradeDecision(s, []))
  {
  }

  /** What one bar close leaves of a pair it does not replace: the proper roles, and a stop that is kept or moved to entry. */
  lemma KeptPair(s: TradeState, bar: Bar, signal: BarSignal, config: Config)
    requires WellFormed(s) && IsPair(s.tranches)
    ensures var c := CloseOf(s, bar, signal, config);
            var a, b := CloseIf(c.closeA, s.tranches[0], Reversal), CloseIf(c.closeB, c.held, Reversal);
            && c.held.role == T2 && (c.hull ==> !c.closeB)
            && a.role == T1 && b.role == T2 && TrancheOk(s, a) && TrancheOk(s, b)
            && (c.closeA <==> s.tranches[0].Live() && !a.Live())
            && (c.hull || c.closeB <==> s.tranches[1].Live() && !b.Live())
            && RunnerStopOk(s, TradeDecision(s.(tranches := [a, b]), Exits(s, c)))
            && (c.reopen ==>
                  && SideOf(signal).Some? && StopOf(signal).Some?
                  && (s.tranches[0].Live() ==> c.closeA) && (s.tranches[1].Live() ==> c.hull || c.closeB))
  {
    hide Exits;
    var c := CloseOf(s, bar, signal, config);
    PairParts(s.tranches);
    PairParts([CloseIf(c.closeA, s.tranches[0], Reversal), CloseIf(c.closeB, c.held, Reversal)]);
  }

  /** A bar close on a pair is safe, whether it replaces the pair or keeps what is left of it. */
  lemma PairCloseSafe(s: TradeState, bar: Bar, signal: BarSignal, config: Config)
    requires WellFormed(s) && IsPair(s.tranches)
    ensures var c := CloseOf(s, bar, signal, config);
            var d := if c.reopen then
                       TradeDecision(PendingState(SideOf(signal).value, StopOf(signal).value, bar.close),
                                     Exits(s, c) + [OpenAction(T1, SideOf(signal).value), OpenAction(T2, SideOf(signal).value)])
                     else
                       TradeDecision(s.(tranches := [CloseIf(c.closeA, s.tranches[0], Reversal), CloseIf(c.closeB, c.held, Reversal)]),
                                     Exits(s, c));
            DecisionSafe(s, d) && ClosesWhatItDrops(s, d)
  {
    var c := CloseOf(s, bar, signal, config);
    KeptPair(s, bar, signal, config);
    PairParts(s.tranches);
    ExitsClose(s, c, T1);
    ExitsClose(s, c, T2);
    ExitsAreOrdered(s, c);
    hide DecisionSafe, ClosesWhatItDrops, Exits, RunnerStopOk, TrancheOk, OnlyMovesAndCloses, ClosesEachRoleOnce, ClosesRole, LiveTranches;
    if c.reopen {
      ReopenSafe(s, Exits(s, c), SideOf(signal).value, StopOf(signal).value, bar.close);
    } else {
      KeepSafe(s, Exits(s, c), CloseIf(c.closeA, s.tranches[0], Reversal), CloseIf(c.closeB, c.held, Reversal));
    }
  }

  lemma BarCloseSafe(s: TradeState, bar: Bar, signal: BarSignal, config: Config)
    requires WellFormed(s)
    ensures DecisionSafe(s, OnBarClose(s, bar, signal, config))
    ensures ClosesWhatItDrops(s, OnBarClose(s, bar, signal, config))
  {
    hide DecisionSafe, ClosesWhatItDrops, OnBarClose;
    if s.tranches == [] {
      BarCloseOnEmpty(s, bar, signal, config);
      if SideOf(signal).Some? && StopOf(signal).Some? {
        var side := SideOf(signal).value;
        assert [] + [OpenAction(T1, side), OpenAction(T2, side)] == [OpenAction(T1, side), OpenAction(T2, side)];
        ReopenSafe(s, [], side, StopOf(signal).value, bar.close);
      } else {
        IdleSafe(s);
      }
    } else {
      hide CloseOf, Exits, WellFormed;
      BarCloseOnPair(s, bar, signal, config);
      PairCloseSafe(s, bar, signal, config);
    }
  }

  // ---- Entry fills and closures ----------------------------------------------------------------

  lemma TargetBeyondEntry(side: OrderSide, entry: real, stop: real, rrMult: real)
    requires 0.0 < rrMult && 0.0 < Risk(side, entry, stop)
    ensures Brackets(side, entry, stop, Some(Target(side, entry, stop, rrMult))) && Brackets(side, entry, stop, None)
  {
    TimesPositive(rrMult, Risk(side, entry, stop));
  }

  lemma AbortSafe(s: TradeState, reason: CloseReason)
    requires IsPair(s.tranches)
    ensures DecisionSafe(s, AbortEntry(s, reason))
    ensures ClosesWhatItDrops(s, AbortEntry(s, reason))
  {
    var a, b := s.tranches[0], s.tranches[1];
    AbortOnPair(s, reason);
    PairParts(s.tranches);
    forall role
      ensures ClosesRole(AbortEntry(s, reason).actions, role) <==> Holds(s, role)
    {
      ClosesRoleSingleton(a.Live(), CloseAction(a, reason), role);
      ClosesRoleSingleton(b.Live(), CloseAction(b, reason), role);
      ClosesRoleConcat(Singleton(a.Live(), CloseAction(a, reason)), Singleton(b.Live(), CloseAction(b, reason)), role);
    }
  }

  /** Filling pending tranches keeps the pair well formed, and nothing that was live is dropped. */
  lemma FilledPairOk(s: TradeState, price: real, barIndex: int, target: real)
    requires WellFormed(s) && IsPair(s.tranches) && 0.0 < Risk(s.side.value, price, s.pendingStop.value)
    ensures var a, b := s.tranches[0], s.tranches[1];
            var next := s.(tranches := [FillIf(a.status.PendingEntry?, a, price, barIndex, s.pendingStop.value, target),
                                        FillIf(b.status.PendingEntry?, b, price, barIndex, s.pendingStop.value, target)]);
            && WellFormed(next)
            && (forall role :: Holds(next, role) <==> Holds(s, role))
            && (forall actions :: RunnerStopOk(s, TradeDecision(next, actions)))
  {
    hide Risk;
    var a, b := s.tranches[0], s.tranches[1];
    var next := s.(tranches := [FillIf(a.status.PendingEntry?, a, price, barIndex, s.pendingStop.value, target),
                                FillIf(b.status.PendingEntry?, b, price, barIndex, s.pendingStop.value, target)]);
    PairParts(s.tranches);
    PairParts(next.tranches);
    assert TrancheOk(next, next.tranches[0]) && TrancheOk(next, next.tranches[1]);
  }

  /** The brackets set for freshly filled tranches straddle the entry price. */
  lemma FilledBracketsOk(s: TradeState, price: real, barIndex: int, target: real)
    requires WellFormed(s) && IsPair(s.tranches)
    requires Brackets(s.side.value, price, s.pendingStop.value, Some(target)) && Brackets(s.side.value, price, s.pendingStop.value, None)
    ensures var a, b, stop := s.tranches[0], s.tranches[1], s.pendingStop.value;
            BracketsAreSound(TradeDecision(
              s.(tranches := [FillIf(a.status.PendingEntry?, a, price, barIndex, stop, target),
                              FillIf(b.status.PendingEntry?, b, price, barIndex, stop, target)]),
              Singleton(a.status.PendingEntry?, BracketAction(T1, stop, Some(target)))
              + Singleton(b.status.PendingEntry?, BracketAction(T2, stop, None))))
  {
    hide Brackets, OpenTrancheOk;
    var a, b, stop := s.tranches[0], s.tranches[1], s.pendingStop.value;
    PairParts([FillIf(a.status.PendingEntry?, a, price, barIndex, stop, target),
               FillIf(b.status.PendingEntry?, b, price, barIndex, stop, target)]);
  }

  predicate OnlySetsBrackets(actions: seq<TradeAction>) {
    forall i :: 0 <= i < |actions| ==> actions[i].kind.SetBrackets?
  }

  /** A decision that only sets brackets is safe when its parts are. */
  lemma BracketDecisionSafe(s: TradeState, d: TradeDecision)
    requires OnlySetsBrackets(d.actions) && WellFormed(d.state) && BracketsAreSound(d) && RunnerStopOk(s, d)
    requires forall role :: Holds(d.state, role) <==> Holds(s, role)
    ensures DecisionSafe(s, d) && ClosesWhatItDrops(s, d)
  {
    hide WellFormed, BracketsAreSound, RunnerStopOk, Holds;
  }

  lemma OpeningSafe(s: TradeState, price: real, barIndex: int, config: Config)
    requires WellFormed(s) && IsPair(s.tranches) && config.Valid()
    requires 0.0 < Risk(s.side.value, price, s.pendingStop.value)
    ensures var target := Target(s.side.value, price, s.pendingStop.value, config.rrMult);
            var (next, actions) := OpenPending(s, PendingTranches(s.tranches), price, barIndex, s.pendingStop.value, target, []);
            DecisionSafe(s, TradeDecision(next, actions)) && ClosesWhatItDrops(s, TradeDecision(next, actions))
  {
    hide OpenPending, Target, Risk, Brackets, PendingTranches, DecisionSafe, ClosesWhatItDrops, RunnerStopOk, BracketsAreSound, Holds,
         FillIf, TrancheOk;
    var stop := s.pendingStop.value;
    var target := Target(s.side.value, price, stop, config.rrMult);
    var (next, actions) := OpenPending(s, PendingTranches(s.tranches), price, barIndex, stop, target, []);
    OpenPendingOnPair(s, price, barIndex, stop, target);
    TargetBeyondEntry(s.side.value, price, stop, config.rrMult);
    FilledPairOk(s, price, barIndex, target);
    FilledBracketsOk(s, price, barIndex, target);
    assert OnlySetsBrackets(actions);
    BracketDecisionSafe(s, TradeDecision(next, actions));
  }

  lemma StampKeepsShape(s: TradeState, quantity: real)
    requires WellFormed(s) && IsPair(s.tranches)
    ensures var stamped := StampQuantity(s, PendingTranches(s.tranches), quantity);
            && WellFormed(stamped) && IsPair(stamped.tranches)
            && stamped.side == s.side && stamped.pendingStop == s.pendingStop
            && (forall role :: Holds(stamped, role) <==> Holds(s, role))
            && (forall d :: RunnerStopOk(stamped, d) ==> RunnerStopOk(s, d))
  {
    StampOnPair(s, quantity);
    var stamped := StampQuantity(s, PendingTranches(s.tranches), quantity);
    PairParts(s.tranches);
    PairParts(stamped.tranches);
    assert TrancheOk(stamped, stamped.tranches[0]) && TrancheOk(stamped, stamped.tranches[1]);
  }

  lemma EntryFilledSafe(s: TradeState, event: Event, config: Config)
    requires WellFormed(s) && config.Valid() && event.EntryFilled?
    ensures DecisionSafe(s, Handle(s, event, config))
    ensures ClosesWhatItDrops(s, Handle(s, event, config))
  {
    var d := Handle(s, event, config);
    if s.tranches != [] && PendingTranches(s.tranches) != [] {
      var stamped := if event.quantity.None? then s
                     else StampQuantity(s, PendingTranches(s.tranches), event.quantity.value);
      if event.quantity.Some? { StampKeepsShape(s, event.quantity.value); }
      var side, stop := s.side.value, s.pendingStop.value;
      if EntryGapped(event.price, event.referenceClose, config) {
        AbortSafe(stamped, EntryGap);
      } else if Risk(side, event.price, stop) <= 0.0 {
        AbortSafe(stamped, InvalidRisk);
      } else {
        OpeningSafe(stamped, event.price, event.barIndex, config);
      }
    }
  }

  lemma TrancheClosedSafe(s: TradeState, role: TrancheRole, reason: CloseReason)
    requires WellFormed(s)
    ensures DecisionSafe(s, TradeDecision(OnTrancheClosed(s, role, reason), []))
    ensures !Holds(OnTrancheClosed(s, role, reason), role)
  {
    if s.tranches != [] {
      PairParts(s.tranches);
      var t := FindTranche(s.tranches, role).value;
      ReplaceOnPair(s, CloseTranche(t, reason));
      var next := Replace(s, CloseTranche(t, reason));
      PairParts(next.tranches);
      PairIsFlat(next);
      hide Replace, LiveTranches;
      assert TrancheOk(next, next.tranches[0]) && TrancheOk(next, next.tranches[1]);
    }
  }

  lemma {:induction false} StatesAreWellFormed(events: seq<Event>, config: Config)
    requires config.Valid()
    ensures WellFormed(StateAfter(events, config))
  {
    if events != [] {
      var before, last := events[..|events| - 1], events[|events| - 1];
      StatesAreWellFormed(before, config);
      NextDecisionSafe(StateAfter(before, config), last, config);
    }
  }

  lemma NextDecisionSafe(s: TradeState, event: Event, config: Config)
    requires WellFormed(s) && config.Valid()
    ensures DecisionSafe(s, Handle(s, event, config))
    ensures !event.TrancheClosed? ==> ClosesWhatItDrops(s, Handle(s, event, config))
    ensures event.TrancheClosed? ==> !Holds(Handle(s, event, config).state, event.role)
  {
    match event
    case BarClosed(bar, signal) => BarCloseSafe(s, bar, signal, config);
    case EntryFilled(_, _, _, _) => EntryFilledSafe(s, event, config);
    case TrancheClosed(role, reason) => TrancheClosedSafe(s, role, reason);
  }

  /**
   * Under any sequence of events every decision is safe: live tranches share one side, one per role;
   * market exits go out for exactly the positions given up, once each, and before any entry; entries
   * go out only when nothing stays live; brackets straddle the entry price; the runner's stop moves
   * at most once, to the entry price, and only towards profit.
   */
  lemma EveryDecisionIsSafe(events: seq<Event>, k: nat, config: Config)
    requires config.Valid() && k < |events|
    ensures var s := StateAfter(events[..k], config);
            var decision := Handle(s, events[k], config);
            && decision.state == StateAfter(events[..k + 1], config)
            && WellFormed(s) && DecisionSafe(s, decision)
            && (!events[k].TrancheClosed? ==> ClosesWhatItDrops(s, decision))
            && (events[k].TrancheClosed? ==> !Holds(decision.state, events[k].role))
  {
    StatesAreWellFormed(events[..k], config);
    NextDecisionSafe(StateAfter(events[..k], config), events[k], config);
    assert events[..k + 1][..k] == events[..k];
  }

  /** A tranche given up for a reason: closed, with the reason on record and everything else as it was. */
  predicate GivenUpFor(before: Tranche, after: Tranche, reason: CloseReason) {
    after == Tranche(before.role, before.side, Closed, before.quantity, before.entryPrice, before.stopLoss, before.takeProfit,
                     before.entryBarIndex, before.breakevenMoved, Some(reason))
  }

  /**
   * A closure reported by the broker, on a pair: nothing when the tranche is closed already; the empty state when
   * nothing else is live; otherwise that tranche is given up for the reason and the other is untouched.
   */
  lemma TrancheClosedIsExact(s: TradeState, role: TrancheRole, reason: CloseReason)
    requires IsPair(s.tranches)
    ensures var next, mine := OnTrancheClosed(s, role, reason), if role.T1? then 0 else 1;
            if s.tranches[mine].status.Closed? then next == s
            else if s.tranches[1 - mine].status.Closed? then next == TradeState(None, None, None, [])
            else
              && next == TradeState(s.side, s.pendingStop, s.referenceClose, next.tranches) && |next.tranches| == 2
              && GivenUpFor(s.tranches[mine], next.tranches[mine], reason) && next.tranches[1 - mine] == s.tranches[1 - mine]
  {
    PairParts(s.tranches);
    var closed := CloseTranche(s.tranches[if role.T1? then 0 else 1], reason);
    ReplaceOnPair(s, closed);
    PairIsFlat(Replace(s, closed));
  }
}
