// The closing script restores the coupling: phase 3 of a bar, and with it the whole bar.

module BacktestScript {
  import opened Prelude
  import opened Market
  import opened TradeManager
  import opened TradeManagerPairs
  import opened TradeManagerTheorems
  import opened Backtest
  import opened BacktestInvariant
  import opened BacktestSteps

  lemma {:induction false} RegisterOfConcat(a: seq<TradeAction>, b: seq<TradeAction>, state: TradeState,
                                            brackets: seq<Bracket>, index: int)
    ensures var (mid, first) := Register(a, state, brackets, index);
            var (end, second) := Register(b, state, mid, index);
            Register(a + b, state, brackets, index) == (end, first + second)
  {
    hide RegisterOne, Deferred;
    if a == [] {
      assert a + b == b;
      assert forall x: seq<TradeAction> :: [] + x == x;
    } else {
      assert (a + b)[1..] == a[1..] + b;
      var next := RegisterOne(a[0], state, brackets, index);
      RegisterOfConcat(a[1..], b, state, next, index);
      var head := if Deferred(a[0]) then [a[0]] else [];
      var (mid, first) := Register(a[1..], state, next, index);
      var second := Register(b, state, mid, index).1;
      assert head + (first + second) == (head + first) + second;
    }
  }

  lemma RegisterSingleton(present: bool, action: TradeAction, state: TradeState, brackets: seq<Bracket>, index: int)
    ensures Register(Singleton(present, action), state, brackets, index)
            == (if present then RegisterOne(action, state, brackets, index) else brackets,
                Singleton(present && Deferred(action), action))
  {
    hide RegisterOne;
    if present {
      var one := [action];
      assert one[1..] == [];
      assert Singleton(Deferred(action), action) + [] == Singleton(Deferred(action), action);
    }
  }

  /** The pair after the four possible effects of the script, one at a time. */
  function Stage(s: TradeState, a: Tranche, b: Tranche): TradeState {
    s.(tranches := [a, b])
  }

  lemma MoveKeepsMatch(s: TradeState, bar: Bar, signal: BarSignal, state: TradeState, brackets: seq<Bracket>, index: int)
    requires IsPair(s.tranches) && BracketsMatch(s, brackets, index + 1)
    requires MovesToBreakeven(s.tranches[1], s.tranches[0], bar, signal)
    ensures BracketsMatch(Stage(s, s.tranches[0], MovedRunner(s.tranches[0], s.tranches[1], bar, signal)),
                          RegisterOne(MoveAction(s.tranches[1].entryPrice), state, brackets, index), index + 1)
  {
    if |brackets| == 2 {
      assert brackets[1..] == [brackets[1]] && [brackets[1]][1..] == [];
      assert GetBracket(brackets[1..], T2) == Some(brackets[1]);
      var moved := brackets[1].(stopLoss := s.tranches[1].entryPrice.value, breakeven := true, activeFrom := index + 1);
      assert PutBracket(brackets[1..], moved) == [moved];
    } else {
      assert brackets[1..] == [];
    }
  }

  lemma CloseKeepsMatch(s: TradeState, next: TradeState, role: TrancheRole, brackets: seq<Bracket>, n: int)
    requires IsPair(s.tranches) && IsPair(next.tranches) && BracketsMatch(s, brackets, n)
    requires IsOpen(s, role) && !IsOpen(next, role)
    requires forall r :: r != role ==> next.tranches[Slot(r)] == s.tranches[Slot(r)]
    ensures BracketsMatch(next, PopBracket(brackets, role), n)
  {
    PopFrom(brackets, role);
    var other := if role.T1? then T2 else T1;
    assert next.tranches[Slot(other)] == s.tranches[Slot(other)];
  }

  /** Market exits among the script's actions, in order. */
  function ScriptCloses(s: TradeState, c: Close): seq<TradeAction>
    requires IsPair(s.tranches)
  {
    Singleton(c.hull, CloseAction(c.held, HullFlip))
    + Singleton(c.closeA, CloseAction(s.tranches[0], Reversal))
    + Singleton(c.closeB, CloseAction(c.held, Reversal))
  }

  predicate CloseFits(s: TradeState, c: Close, bar: Bar, signal: BarSignal)
    requires IsPair(s.tranches)
  {
    && c.held.role == T2
    && c.moves == MovesToBreakeven(s.tranches[1], s.tranches[0], bar, signal)
    && c.held == CloseIf(c.hull, MovedRunner(s.tranches[0], s.tranches[1], bar, signal), HullFlip)
    && (c.hull ==> IsOpen(s, T2) && !c.closeB) && (c.closeB ==> IsOpen(s, T2)) && (c.closeA ==> IsOpen(s, T1))
  }

  /** Registering the exits edits the brackets exactly as the tranches change. */
  lemma RegisterExits(s: TradeState, c: Close, bar: Bar, signal: BarSignal, state: TradeState, brackets: seq<Bracket>, index: int)
    requires IsPair(s.tranches) && BracketsMatch(s, brackets, index + 1) && CloseFits(s, c, bar, signal)
    ensures var (left, deferred) := Register(Exits(s, c), state, brackets, index);
            && deferred == ScriptCloses(s, c)
            && BracketsMatch(Stage(s, CloseIf(c.closeA, s.tranches[0], Reversal), CloseIf(c.closeB, c.held, Reversal)),
                             left, index + 1)
  {
    hide BracketsMatch, RegisterOne, Register, MovesToBreakeven;
    var a, b := s.tranches[0], s.tranches[1];
    var runner := MovedRunner(a, b, bar, signal);
    var move, hull := MoveAction(b.entryPrice), CloseAction(c.held, HullFlip);
    var closeA, closeB := CloseAction(a, Reversal), CloseAction(c.held, Reversal);
    var p0, p1 := Singleton(c.moves, move), Singleton(c.hull, hull);
    var p2, p3 := Singleton(c.closeA, closeA), Singleton(c.closeB, closeB);

    RegisterOfConcat(p0 + p1 + p2, p3, state, brackets, index);
    RegisterOfConcat(p0 + p1, p2, state, brackets, index);
    RegisterOfConcat(p0, p1, state, brackets, index);

    var b1 := Register(p0, state, brackets, index).0;
    RegisterSingleton(c.moves, move, state, brackets, index);
    var s1 := Stage(s, a, runner);
    assert BracketsMatch(s1, b1, index + 1) by {
      if c.moves { MoveKeepsMatch(s, bar, signal, state, brackets, index); } else { assert s1 == s; }
    }
    var b2 := Register(p1, state, b1, index).0;
    RegisterSingleton(c.hull, hull, state, b1, index);
    var s2 := Stage(s, a, c.held);
    assert BracketsMatch(s2, b2, index + 1) by {
      if c.hull { CloseRegisters(hull, state, b1, index); CloseKeepsMatch(s1, s2, T2, b1, index + 1); }
    }
    var b3 := Register(p2, state, b2, index).0;
    RegisterSingleton(c.closeA, closeA, state, b2, index);
    var s3 := Stage(s, CloseIf(c.closeA, a, Reversal), c.held);
    assert BracketsMatch(s3, b3, index + 1) by {
      if c.closeA { CloseRegisters(closeA, state, b2, index); CloseKeepsMatch(s2, s3, T1, b2, index + 1); }
    }
    var b4 := Register(p3, state, b3, index).0;
    RegisterSingleton(c.closeB, closeB, state, b3, index);
    var s4 := Stage(s, CloseIf(c.closeA, a, Reversal), CloseIf(c.closeB, c.held, Reversal));
    assert BracketsMatch(s4, b4, index + 1) by {
      if c.closeB { CloseRegisters(closeB, state, b3, index); CloseKeepsMatch(s3, s4, T2, b3, index + 1); }
    }
    assert Singleton(c.moves && Deferred(move), move) == [];
    assert [] + Singleton(c.hull, hull) == Singleton(c.hull, hull);
  }

  lemma CloseRegisters(close: TradeAction, state: TradeState, brackets: seq<Bracket>, index: int)
    requires close.kind.CloseMarket?
    ensures RegisterOne(close, state, brackets, index) == PopBracket(brackets, close.role) && Deferred(close)
  {
  }

  // ---- The coupling after the script -----------------------------------------------------------------

  /** The exits the script queues are due at the next open. */
  lemma ScriptClosesDue(run: Run, s: TradeState, c: Close, entries: map<TrancheRole, Fill>, index: nat)
    requires run.Valid() && index < |run.bars| && Working(run, s, index + 1)
    requires EntriesMatch(run, s, [], entries, index + 1)
    requires c == CloseOf(s, run.bars[index], run.signals[index], run.settings.config)
    ensures ClosesOk(ScriptCloses(s, c))
    ensures forall i :: 0 <= i < |ScriptCloses(s, c)| ==> CloseDue(run, ScriptCloses(s, c)[i], entries, index + 1)
    ensures forall role :: Closing(ScriptCloses(s, c), role) <==> if role.T1? then c.closeA else c.hull || c.closeB
  {
    hide EntriesMatch, CloseDue, ClosesOk, Closing;
    CloseParts(run, s, c, index);
    forall role ensures Closing(ScriptCloses(s, c), role) <==> if role.T1? then c.closeA else c.hull || c.closeB {
      ScriptClosing(s, c, role);
    }
    ScriptClosesOk(s, c);
    forall i | 0 <= i < |ScriptCloses(s, c)| ensures CloseDue(run, ScriptCloses(s, c)[i], entries, index + 1) {
      var close := ScriptCloses(s, c)[i];
      if close.reason == Some(HullFlip) { DueAfterFlip(run, s, close, entries, index); }
      else { DueAfterReversal(run, s, close, entries, index); }
    }
  }

  /** Which exits a script may send for a working pair. */
  lemma CloseParts(run: Run, s: TradeState, c: Close, index: nat)
    requires run.Valid() && index < |run.bars| && Working(run, s, index + 1)
    requires c == CloseOf(s, run.bars[index], run.signals[index], run.settings.config)
    ensures c.held.role == T2 && s.tranches[0].role == T1 && (c.hull ==> !c.closeB)
    ensures c.hull ==> IsOpen(s, T2) && run.settings.config.useHullExit && s.side.Some?
                       && FlipsAgainst(run.signals[index], s.side.value)
    ensures c.closeA || c.closeB ==> SideOf(run.signals[index]).Some? && s.side != SideOf(run.signals[index])
    ensures (c.closeA ==> IsOpen(s, T1)) && (c.closeB ==> IsOpen(s, T2))
  {
    hide EntryFrom, Risk, StopFor, MovesToBreakeven;
  }

  lemma ScriptClosing(s: TradeState, c: Close, role: TrancheRole)
    requires IsPair(s.tranches) && c.held.role == T2 && s.tranches[0].role == T1
    ensures Closing(ScriptCloses(s, c), role) <==> if role.T1? then c.closeA else c.hull || c.closeB
  {
    var closes := ScriptCloses(s, c);
    var at1 := if c.hull then 1 else 0;
    var at2 := at1 + if c.closeA then 1 else 0;
    if c.hull { assert closes[0] == CloseAction(c.held, HullFlip); }
    if c.closeA { assert closes[at1] == CloseAction(s.tranches[0], Reversal); }
    if c.closeB { assert closes[at2] == CloseAction(c.held, Reversal); }
  }

  lemma ScriptClosesOk(s: TradeState, c: Close)
    requires IsPair(s.tranches) && c.held.role == T2 && s.tranches[0].role == T1 && (c.hull ==> !c.closeB)
    ensures ClosesOk(ScriptCloses(s, c))
  {
  }

  lemma DueAfterReversal(run: Run, s: TradeState, close: TradeAction, entries: map<TrancheRole, Fill>, index: nat)
    requires run.Valid() && index < |run.bars| && Working(run, s, index + 1)
    requires EntriesMatch(run, s, [], entries, index + 1) && IsOpen(s, close.role) && close.reason == Some(Reversal)
    requires SideOf(run.signals[index]).Some? && s.side != SideOf(run.signals[index])
    ensures CloseDue(run, close, entries, index + 1)
  {
  }

  lemma DueAfterFlip(run: Run, s: TradeState, close: TradeAction, entries: map<TrancheRole, Fill>, index: nat)
    requires run.Valid() && index < |run.bars| && Working(run, s, index + 1)
    requires EntriesMatch(run, s, [], entries, index + 1) && IsOpen(s, T2)
    requires close.role == T2 && close.reason == Some(HullFlip)
    requires run.settings.config.useHullExit && FlipsAgainst(run.signals[index], s.side.value)
    ensures CloseDue(run, close, entries, index + 1)
  {
  }

  lemma QueueOf(sim: Sim, closes: seq<TradeAction>)
    requires sim.queued == closes + DueOpens(sim.state) && ClosesOk(closes)
    ensures QueuedCloses(sim) == closes && QueueOk(sim)
  {
  }

  predicate SamePosition(a: Tranche, b: Tranche) {
    HasPosition(a) && HasPosition(b) && PositionFill(a) == PositionFill(b)
  }

  /** The entries seen from a later state in which fewer tranches are open and the others are closing. */
  lemma HandOver(run: Run, s: TradeState, next: TradeState, closes: seq<TradeAction>, entries: map<TrancheRole, Fill>, n: int)
    requires run.Valid() && n <= |run.bars| && EntriesMatch(run, s, [], entries, n)
    requires forall role :: IsOpen(s, role) <==> IsOpen(next, role) || Closing(closes, role)
    requires forall role :: !(IsOpen(next, role) && Closing(closes, role))
    requires forall role :: IsOpen(next, role) ==> SamePosition(next.tranches[Slot(role)], s.tranches[Slot(role)])
    requires forall i :: 0 <= i < |closes| ==> CloseDue(run, closes[i], entries, n)
    ensures EntriesMatch(run, next, closes, entries, n)
  {
    hide CloseDue;
  }

  lemma PendingIsAwaiting(run: Run, index: nat)
    requires run.Valid() && index < |run.bars|
    requires SideOf(run.signals[index]).Some? && StopOf(run.signals[index]).Some?
    ensures var s := PendingState(SideOf(run.signals[index]).value, StopOf(run.signals[index]).value, run.bars[index].close);
            && Awaiting(run, s, index + 1) && BreakevenCoupled(s) && FollowsLastSignal(run, s, index + 1)
            && DueOpens(s) == [OpenAction(T1, s.side.value), OpenAction(T2, s.side.value)]
            && BracketsMatch(s, [], index + 1) && (forall role :: !IsOpen(s, role))
  {
  }

  lemma RegisterOpens(s: TradeState, state: TradeState, brackets: seq<Bracket>, index: int)
    ensures Register(DueOpens(s), state, brackets, index) == (brackets, DueOpens(s))
  {
    if DueOpens(s) != [] {
      var a, b := DueOpens(s)[0], DueOpens(s)[1];
      RegisterPair(a, b, state, brackets, index);
      assert Singleton(true, a) + Singleton(true, b) == [a, b];
    }
  }

  /** What the script makes of the empty state: nothing, or a pair that awaits entry. */
  lemma NextOfEmpty(run: Run, index: nat)
    requires run.Valid() && index < |run.bars|
    ensures var decision := OnBarClose(EMPTY_STATE, run.bars[index], run.signals[index], run.settings.config);
            && StateOk(run, decision.state, index + 1) && BreakevenCoupled(decision.state)
            && (FollowsLastSignal(run, EMPTY_STATE, index) ==> FollowsLastSignal(run, decision.state, index + 1))
            && decision.actions == DueOpens(decision.state) && BracketsMatch(decision.state, [], index + 1)
            && (forall role :: !IsOpen(decision.state, role))
  {
    hide OnBarClose, Working, Awaiting;
    BarCloseOnEmpty(EMPTY_STATE, run.bars[index], run.signals[index], run.settings.config);
    if SideOf(run.signals[index]).Some? && StopOf(run.signals[index]).Some? { PendingIsAwaiting(run, index); }
  }

  /** With nothing open, only the queued exits own entries, whatever else the state says. */
  lemma NothingOpenAlike(run: Run, s: TradeState, next: TradeState, closes: seq<TradeAction>, entries: map<TrancheRole, Fill>, n: int)
    requires run.Valid() && n <= |run.bars| && EntriesMatch(run, s, closes, entries, n)
    requires forall role :: !IsOpen(s, role) && !IsOpen(next, role)
    ensures EntriesMatch(run, next, closes, entries, n)
  {
    hide CloseDue, IsOpen, Closing;
  }

  lemma ReadyParts(run: Run, s: TradeState, brackets: seq<Bracket>, closes: seq<TradeAction>, book: Book, index: nat)
    requires run.Valid() && index < |run.bars| && Ready(run, s, brackets, closes, book, index)
    ensures ClosesOk(closes) && FollowsLastSignal(run, s, index) && BracketsMatch(s, brackets, index + 1)
    ensures EntriesMatch(run, s, closes, book.entries, index + 1) && TradesOk(run, book.trades, index + 1)
  {
  }

  /** The script on an empty state: nothing, or a new pair of entry orders. */
  lemma ScriptOnEmpty(run: Run, brackets: seq<Bracket>, closes: seq<TradeAction>, plan: EntryPlan, book: Book, index: nat)
    requires run.Valid() && index < |run.bars| && Ready(run, EMPTY_STATE, brackets, closes, book, index)
    ensures var decision := OnBarClose(EMPTY_STATE, run.bars[index], run.signals[index], run.settings.config);
            var (left, queued) := Register(decision.actions, decision.state, brackets, index);
            Coupled(run, Sim(decision.state, left, closes + queued, plan.skips, book), index + 1)
  {
    var bar, signal := run.bars[index], run.signals[index];
    hide *;
    NothingIsOpen();
    NoBrackets(brackets, index + 1);
    ReadyParts(run, EMPTY_STATE, brackets, closes, book, index);
    var next := OnBarClose(EMPTY_STATE, bar, signal, run.settings.config).state;
    NextOfEmpty(run, index);
    RegisterOpens(next, next, brackets, index);
    NothingOpenAlike(run, EMPTY_STATE, next, closes, book.entries, index + 1);
    NoTargetToTake(next, book.trades, index);
    var sim := Sim(next, brackets, closes + DueOpens(next), plan.skips, book);
    QueueOf(sim, closes);
    CoupledFrom(run, sim, closes, index + 1);
  }

  lemma NoBrackets(brackets: seq<Bracket>, n: int)
    ensures BracketsMatch(EMPTY_STATE, brackets, n) ==> brackets == []
  {
  }

  lemma NoTargetToTake(s: TradeState, trades: seq<Trade>, index: int)
    requires forall role :: !IsOpen(s, role)
    ensures TargetsTaken(s, trades, index)
  {
  }

  /** What the script leaves of a working pair when it does not reopen. */
  lemma KeptPairOk(run: Run, s: TradeState, c: Close, index: nat)
    requires run.Valid() && index < |run.bars| && Working(run, s, index + 1)
    requires FollowsLastSignal(run, s, index) && BreakevenReady(s, run.bars[index], run.signals[index])
    requires c == CloseOf(s, run.bars[index], run.signals[index], run.settings.config) && !c.reopen
    ensures var next := Stage(s, CloseIf(c.closeA, s.tranches[0], Reversal), CloseIf(c.closeB, c.held, Reversal));
            && Working(run, next, index + 1) && BreakevenCoupled(next) && FollowsLastSignal(run, next, index + 1)
            && DueOpens(next) == []
  {
    var next := Stage(s, CloseIf(c.closeA, s.tranches[0], Reversal), CloseIf(c.closeB, c.held, Reversal));
    PairParts(s.tranches);
    PairParts(next.tranches);
    assert HasPosition(next.tranches[0]) && PositionFill(next.tranches[0]) == PositionFill(s.tranches[0]);
    assert Working(run, next, index + 1);
  }

  lemma CloseOfFits(run: Run, s: TradeState, index: nat)
    requires run.Valid() && index < |run.bars| && Working(run, s, index + 1)
    ensures IsPair(s.tranches)
    ensures CloseFits(s, CloseOf(s, run.bars[index], run.signals[index], run.settings.config), run.bars[index], run.signals[index])
  {
  }

  /** The coupling after the script, given the state and the exits it decided on. */
  lemma PairCoupled(run: Run, s: TradeState, next: TradeState, left: seq<Bracket>, closes: seq<TradeAction>,
                    skips: seq<Skip>, book: Book, index: nat)
    requires run.Valid() && index < |run.bars|
    requires EntriesMatch(run, s, [], book.entries, index + 1) && TradesOk(run, book.trades, index + 1)
    requires TargetsTaken(s, book.trades, index)
    requires StateOk(run, next, index + 1) && BreakevenCoupled(next) && FollowsLastSignal(run, next, index + 1)
    requires BracketsMatch(next, left, index + 1) && ClosesOk(closes)
    requires forall i :: 0 <= i < |closes| ==> CloseDue(run, closes[i], book.entries, index + 1)
    requires forall role :: IsOpen(s, role) <==> IsOpen(next, role) || Closing(closes, role)
    requires forall role :: !(IsOpen(next, role) && Closing(closes, role))
    requires forall role :: IsOpen(next, role) ==> SamePosition(next.tranches[Slot(role)], s.tranches[Slot(role)])
    ensures Coupled(run, Sim(next, left, closes + DueOpens(next), skips, book), index + 1)
  {
    hide *;
    QueueOf(Sim(next, left, closes + DueOpens(next), skips, book), closes);
    HandOver(run, s, next, closes, book.entries, index + 1);
    StillTaken(s, next, closes, book.trades, index);
    CoupledFrom(run, Sim(next, left, closes + DueOpens(next), skips, book), closes, index + 1);
  }

  lemma StillTaken(s: TradeState, next: TradeState, closes: seq<TradeAction>, trades: seq<Trade>, index: int)
    requires TargetsTaken(s, trades, index)
    requires forall role :: IsOpen(s, role) <==> IsOpen(next, role) || Closing(closes, role)
    ensures TargetsTaken(next, trades, index)
  {
  }

  lemma CoupledFrom(run: Run, sim: Sim, closes: seq<TradeAction>, n: nat)
    requires run.Valid() && n <= |run.bars|
    requires StateOk(run, sim.state, n) && BreakevenCoupled(sim.state) && FollowsLastSignal(run, sim.state, n)
    requires QueueOk(sim) && QueuedCloses(sim) == closes && BracketsMatch(sim.state, sim.brackets, n)
    requires EntriesMatch(run, sim.state, closes, sim.book.entries, n) && TradesOk(run, sim.book.trades, n)
    requires TargetsTaken(sim.state, sim.book.trades, n - 1)
    ensures Coupled(run, sim, n)
  {
    hide StateOk, BreakevenCoupled, FollowsLastSignal, QueueOk, QueuedCloses, BracketsMatch, EntriesMatch, TradesOk;
  }

  lemma KeptRoles(run: Run, s: TradeState, c: Close, index: nat)
    requires run.Valid() && index < |run.bars| && Working(run, s, index + 1)
    requires c == CloseOf(s, run.bars[index], run.signals[index], run.settings.config) && !c.reopen
    ensures var next := Stage(s, CloseIf(c.closeA, s.tranches[0], Reversal), CloseIf(c.closeB, c.held, Reversal));
            && (forall role :: IsOpen(next, role)
                  <==> IsOpen(s, role) && !(if role.T1? then c.closeA else c.hull || c.closeB))
            && (forall role: TrancheRole :: (if role.T1? then c.closeA else c.hull || c.closeB) ==> IsOpen(s, role))
            && (forall role :: IsOpen(next, role) ==> SamePosition(next.tranches[Slot(role)], s.tranches[Slot(role)]))
  {
  }

  lemma ReopenedRoles(run: Run, s: TradeState, c: Close, index: nat)
    requires run.Valid() && index < |run.bars| && Working(run, s, index + 1)
    requires c == CloseOf(s, run.bars[index], run.signals[index], run.settings.config) && c.reopen
    ensures SideOf(run.signals[index]).Some? && StopOf(run.signals[index]).Some?
    ensures forall role :: IsOpen(s, role) <==> if role.T1? then c.closeA else c.hull || c.closeB
    ensures var kept := Stage(s, CloseIf(c.closeA, s.tranches[0], Reversal), CloseIf(c.closeB, c.held, Reversal));
            forall role :: !IsOpen(kept, role)
  {
  }

  lemma ScriptOnPair(run: Run, s: TradeState, brackets: seq<Bracket>, plan: EntryPlan, book: Book, index: nat)
    requires run.Valid() && index < |run.bars| && Ready(run, s, brackets, [], book, index) && Working(run, s, index + 1)
    ensures var decision := OnBarClose(s, run.bars[index], run.signals[index], run.settings.config);
            var (left, queued) := Register(decision.actions, decision.state, brackets, index);
            Coupled(run, Sim(decision.state, left, queued, plan.skips, book), index + 1)
  {
    hide CloseDue, TradesOk, OnBarClose, ClosesOk, Working, MovesToBreakeven, HullCloses, ScriptCloses, Exits,
         FollowsLastSignal, Awaiting, Coupled, EntriesMatch, CloseFits, CloseOf, IsOpen, Closing, Register, SamePosition,
         BreakevenCoupled, BreakevenReady, DueOpens;
    var bar, signal, config := run.bars[index], run.signals[index], run.settings.config;
    CloseOfFits(run, s, index);
    var c := CloseOf(s, bar, signal, config);
    BarCloseOnPair(s, bar, signal, config);
    var decision := OnBarClose(s, bar, signal, config);
    RegisterExits(s, c, bar, signal, decision.state, brackets, index);
    ScriptClosesDue(run, s, c, book.entries, index);
    var (left, closes) := Register(Exits(s, c), decision.state, brackets, index);
    if c.reopen {
      ReopenedRoles(run, s, c, index);
      PendingIsAwaiting(run, index);
      RegisterOfConcat(Exits(s, c), DueOpens(decision.state), decision.state, brackets, index);
      RegisterOpens(decision.state, decision.state, left, index);
      assert left == [];
    } else {
      KeptPairOk(run, s, c, index);
      KeptRoles(run, s, c, index);
      assert closes + [] == closes;
    }
    PairCoupled(run, s, decision.state, left, closes, plan.skips, book, index);
  }

  // ---- One bar, and every bar ------------------------------------------------------------------------

  lemma ScriptPhaseOk(run: Run, plan: EntryPlan, s: TradeState, brackets: seq<Bracket>, closes: seq<TradeAction>, book: Book, index: nat)
    requires run.Valid() && index < |run.bars| && Ready(run, s, brackets, closes, book, index)
    ensures var decision := OnBarClose(s, run.bars[index], run.signals[index], run.settings.config);
            var (left, queued) := Register(decision.actions, decision.state, brackets, index);
            Coupled(run, Sim(decision.state, left, closes + queued, plan.skips, book), index + 1)
  {
    hide OnBarClose, Register, Coupled;
    if s == EMPTY_STATE {
      ScriptOnEmpty(run, brackets, closes, plan, book, index);
    } else {
      ScriptOnPair(run, s, brackets, plan, book, index);
      var decision := OnBarClose(s, run.bars[index], run.signals[index], run.settings.config);
      var queued := Register(decision.actions, decision.state, brackets, index).1;
      assert closes + queued == queued;
    }
  }

  /** Phases 2 and 3 when a pair has just been filled. */
  lemma EntryBarOk(run: Run, sim: Sim, mid: MidBar, index: nat)
    requires run.Valid() && index < |run.bars| && Coupled(run, sim, index)
    requires OpenPhase(sim, index, run.bars[index], run.settings) == Ok(mid) && mid.plan.entered != []
    ensures var fired := BracketPhase(mid, index, run.bars[index], run.settings.rate);
            fired == mid &&
            var confirmed := ConfirmEntry(mid.plan, mid.state, mid.brackets, index, run.bars[index], run.settings.config);
            confirmed.Ok? && Ready(run, confirmed.value.0, confirmed.value.1, confirmed.value.2, mid.book, index)
  {
    hide OpenPhase, Ready, ConfirmEntry, TradesOk, EntriesMatch, EntryGapped;
    OpenPhaseOk(run, sim, index);
    var s := mid.state;
    assert mid.brackets == [];
    if EntryGapped(run.bars[index].open, s.referenceClose, run.settings.config)
       || Risk(s.side.value, run.bars[index].open, s.pendingStop.value) <= 0.0 {
      ConfirmAborted(run, s, mid.plan, mid.book, index);
    } else {
      ConfirmFilled(run, s, mid.plan, mid.book, index);
    }
  }

  /** Phase 2 on a bar without a new entry. */
  lemma PlainBarOk(run: Run, sim: Sim, mid: MidBar, index: nat)
    requires run.Valid() && index < |run.bars| && Coupled(run, sim, index)
    requires OpenPhase(sim, index, run.bars[index], run.settings) == Ok(mid) && mid.plan.entered == []
    ensures var fired := BracketPhase(mid, index, run.bars[index], run.settings.rate);
            fired.plan == mid.plan && Ready(run, fired.state, fired.brackets, [], fired.book, index)
  {
    hide OpenPhase, Ready, TradesOk, FireBrackets;
    OpenPhaseOk(run, sim, index);
    var at := Standing(mid.brackets, mid.book, mid.state);
    assert StandingOk(run, at, index) && BreakevenCoupled(at.state) by { StandingFrom(run, sim, at, index); }
    BracketPhaseOk(run, at, index);
  }

  lemma StandingFrom(run: Run, sim: Sim, at: Standing, index: nat)
    requires run.Valid() && index < |run.bars| && Coupled(run, sim, index)
    requires at.brackets == sim.brackets && at.state == (if IsPending(sim.state) then EMPTY_STATE else sim.state)
    requires TradesOk(run, at.book.trades, index + 1) && EntriesMatch(run, at.state, [], at.book.entries, index)
    requires NoTargetAt(at.book.trades, index)
    ensures StandingOk(run, at, index) && BreakevenCoupled(at.state)
  {
    hide TradesOk, EntriesMatch;
  }

  /** One bar never raises and carries the coupling from one bar end to the next. */
  lemma BarStepOk(run: Run, sim: Sim, index: nat)
    requires run.Valid() && index < |run.bars| && Coupled(run, sim, index)
    ensures var next := BarStep(sim, index, run.bars[index], run.signals[index], run.settings);
            next.Ok? && Coupled(run, next.value, index + 1)
  {
    hide OpenPhase, BracketPhase, Coupled, Ready, OnBarClose, Register, TradesOk, EntriesMatch, Awaiting;
    OpenPhaseOk(run, sim, index);
    var bar, settings := run.bars[index], run.settings;
    var mid := OpenPhase(sim, index, bar, settings).value;
    var fired := BracketPhase(mid, index, bar, settings.rate);
    if mid.plan.entered == [] {
      PlainBarOk(run, sim, mid, index);
      ScriptPhaseOk(run, fired.plan, fired.state, fired.brackets, [], fired.book, index);
    } else {
      hide ConfirmEntry;
      EntryBarOk(run, sim, mid, index);
      var confirmed := ConfirmEntry(mid.plan, mid.state, mid.brackets, index, bar, settings.config).value;
      ScriptPhaseOk(run, mid.plan, confirmed.0, confirmed.1, confirmed.2, mid.book, index);
    }
  }

  /** The state the script of a bar starts from, and what it then decides. */
  lemma ScriptOfBar(run: Run, sim: Sim, index: nat) returns (s: TradeState)
    requires run.Valid() && index < |run.bars| && Coupled(run, sim, index)
    ensures s == EMPTY_STATE || Working(run, s, index + 1)
    ensures FollowsLastSignal(run, s, index)
    ensures ScriptInput(sim, index, run.bars[index], run.settings) == Ok(s)
    ensures var next := BarStep(sim, index, run.bars[index], run.signals[index], run.settings);
            next.Ok? && next.value.state == OnBarClose(s, run.bars[index], run.signals[index], run.settings.config).state
  {
    hide OpenPhase, BracketPhase, Coupled, OnBarClose, Register, TradesOk, EntriesMatch, Awaiting, Working, BracketsMatch,
         FollowsLastSignal;
    OpenPhaseOk(run, sim, index);
    var bar, settings := run.bars[index], run.settings;
    var mid := OpenPhase(sim, index, bar, settings).value;
    var fired := BracketPhase(mid, index, bar, settings.rate);
    if mid.plan.entered == [] {
      PlainBarOk(run, sim, mid, index);
      s := fired.state;
    } else {
      hide ConfirmEntry;
      EntryBarOk(run, sim, mid, index);
      s := ConfirmEntry(mid.plan, mid.state, mid.brackets, index, bar, settings.config).value.0;
    }
  }

  lemma InitiallyCoupled(run: Run)
    requires run.Valid()
    ensures Coupled(run, InitialSim(run.settings), 0)
  {
    hide Working, Awaiting, TradeOk, CloseDue, HasPosition, LastFired, DueOpens, IsOpen, Closing;
    NothingIsOpen();
    var sim := InitialSim(run.settings);
    assert DueOpens(sim.state) == [] && QueuedCloses(sim) == [] && forall role :: !Closing([], role) by { NothingIsDue(); }
  }

  lemma NothingIsOpen()
    ensures !IsOpen(EMPTY_STATE, T1) && !IsOpen(EMPTY_STATE, T2) && forall role :: !IsOpen(EMPTY_STATE, role)
  {
  }

  lemma NothingIsDue()
    ensures DueOpens(EMPTY_STATE) == [] && forall role :: !Closing([], role)
  {
  }

  /**
   * The coupling holds at the end of every bar of every run, and no run ever raises: the assertion
   * on entries and the two errors of the entry confirmation are unreachable.
   */
  lemma {:induction false} RunsStayCoupled(run: Run, n: nat)
    requires run.Valid() && n <= |run.bars|
    ensures run.At(n).Ok? && Coupled(run, run.At(n).value, n)
  {
    hide BarStep, Coupled;
    if n == 0 {
      InitiallyCoupled(run);
    } else {
      RunsStayCoupled(run, n - 1);
      BarStepOk(run, run.At(n - 1).value, n - 1);
    }
  }
}
