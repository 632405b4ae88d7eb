// Each phase of a bar keeps the coupling; together they carry it from one bar end to the next.

module BacktestSteps {
  import opened Prelude
  import opened Market
  import opened TradeManager
  import opened TradeManagerPairs
  import opened Backtest
  import opened BacktestInvariant

  // ---- Phase 1: queued exits -----------------------------------------------------------------------

  /** A queued exit that is due becomes a justified trade at this bar's open. */
  lemma RecordDueClose(run: Run, close: TradeAction, book: Book, index: nat)
    requires run.Valid() && index < |run.bars|
    requires CloseDue(run, close, book.entries, index) && TradesOk(run, book.trades, index + 1)
    ensures var after := RecordExit(book, run.settings.rate, index, close.role, run.bars[index].open, ReasonOf(close));
            && after.entries == book.entries - {close.role}
            && TradesOk(run, after.trades, index + 1)
            && (NoTargetAt(book.trades, index) ==> NoTargetAt(after.trades, index))
  {
    var entry := book.entries[close.role];
    var trade := TradeFor(entry, index, close.role, run.bars[index].open, ReasonOf(close));
    assert EntryOf(trade) == entry;
    assert TradeOk(run, trade, index + 1);
  }

  lemma PopAbsent(brackets: seq<Bracket>, role: TrancheRole)
    requires forall i :: 0 <= i < |brackets| ==> brackets[i].role != role
    ensures PopBracket(brackets, role) == brackets
  {
  }

  lemma {:induction false} SettleCloses(run: Run, closes: seq<TradeAction>, brackets: seq<Bracket>, book: Book, index: nat)
    requires run.Valid() && index < |run.bars|
    requires ClosesOk(closes) && TradesOk(run, book.trades, index + 1) && NoTargetAt(book.trades, index)
    requires forall i :: 0 <= i < |closes| ==> CloseDue(run, closes[i], book.entries, index)
    requires forall i :: 0 <= i < |brackets| ==> !Closing(closes, brackets[i].role)
    ensures var (left, after) := FillCloses(closes, index, run.bars[index], run.settings.rate, brackets, book);
            && left == brackets
            && TradesOk(run, after.trades, index + 1) && NoTargetAt(after.trades, index)
            && (forall role :: role in after.entries <==> role in book.entries && !Closing(closes, role))
            && (forall role :: role in after.entries ==> after.entries[role] == book.entries[role])
  {
    if closes != [] {
      var close, rest := closes[0], closes[1..];
      assert Closing(closes, close.role);
      forall role
        ensures Closing(closes, role) <==> role == close.role || Closing(rest, role)
      {
        if Closing(rest, role) {
          var i :| 0 <= i < |rest| && rest[i].role == role;
          assert closes[i + 1].role == role;
        }
        if Closing(closes, role) && role != close.role {
          var i :| 0 <= i < |closes| && closes[i].role == role;
          assert rest[i - 1].role == role;
        }
      }
      PopAbsent(brackets, close.role);
      RecordDueClose(run, close, book, index);
      var next := RecordExit(book, run.settings.rate, index, close.role, run.bars[index].open, ReasonOf(close));
      forall i | 0 <= i < |rest|
        ensures CloseDue(run, rest[i], next.entries, index)
      {
        assert rest[i] == closes[i + 1];
      }
      SettleCloses(run, rest, brackets, next, index);
    }
  }

  lemma {:induction false} FillClosesOfConcat(a: seq<TradeAction>, b: seq<TradeAction>, index: int, bar: Bar, rate: real,
                                             brackets: seq<Bracket>, book: Book)
    ensures var (left, after) := FillCloses(a, index, bar, rate, brackets, book);
            FillCloses(a + b, index, bar, rate, brackets, book) == FillCloses(b, index, bar, rate, left, after)
  {
    if a == [] {
      assert a + b == b;
    } else {
      assert (a + b)[1..] == a[1..] + b;
      if a[0].kind.CloseMarket? {
        FillClosesOfConcat(a[1..], b, index, bar, rate, PopBracket(brackets, a[0].role),
                           RecordExit(book, rate, index, a[0].role, bar.open, ReasonOf(a[0])));
      } else {
        FillClosesOfConcat(a[1..], b, index, bar, rate, brackets, book);
      }
    }
  }

  lemma {:induction false} OpensOfConcat(a: seq<TradeAction>, b: seq<TradeAction>)
    ensures OpensIn(a + b) == OpensIn(a) + OpensIn(b)
  {
    if a == [] {
      assert a + b == b;
    } else {
      assert (a + b)[1..] == a[1..] + b;
      OpensOfConcat(a[1..], b);
      var head := if a[0].kind.OpenMarket? then [a[0]] else [];
      assert head + (OpensIn(a[1..]) + OpensIn(b)) == head + OpensIn(a[1..]) + OpensIn(b);
    }
  }

  lemma {:induction false} ClosesHoldNoOpens(closes: seq<TradeAction>)
    requires ClosesOk(closes)
    ensures OpensIn(closes) == []
  {
    if closes != [] {
      ClosesHoldNoOpens(closes[1..]);
    }
  }

  lemma DueOpensAreOpens(s: TradeState)
    ensures OpensIn(DueOpens(s)) == DueOpens(s)
  {
    var opens := DueOpens(s);
    if opens != [] {
      var last := opens[1..];
      assert last == [opens[1]] && last[1..] == [];
      assert OpensIn(last) == [opens[1]];
    }
  }

  lemma DueOpensFill(s: TradeState, index: int, bar: Bar, rate: real, brackets: seq<Bracket>, book: Book)
    ensures FillCloses(DueOpens(s), index, bar, rate, brackets, book) == (brackets, book)
    ensures OpensIn(DueOpens(s)) == DueOpens(s)
  {
    var opens := DueOpens(s);
    DueOpensAreOpens(s);
    if opens != [] {
      var last := opens[1..];
      assert last == [opens[1]] && last[1..] == [];
      assert FillCloses(last, index, bar, rate, brackets, book) == (brackets, book);
    }
  }

  lemma TradesStayOk(run: Run, trades: seq<Trade>, n: int)
    requires run.Valid() && TradesOk(run, trades, n)
    ensures TradesOk(run, trades, n + 1) && NoTargetAt(trades, n)
  {
  }

  lemma KeepOpenEntries(s: TradeState, before: map<TrancheRole, Fill>, after: map<TrancheRole, Fill>)
    requires OpenEntriesMatch(s, before)
    requires forall role :: IsOpen(s, role) ==> role in after && role in before && after[role] == before[role]
    ensures OpenEntriesMatch(s, after)
  {
  }

  lemma BracketsAreOpen(s: TradeState, brackets: seq<Bracket>, n: int)
    requires BracketsMatch(s, brackets, n)
    ensures forall i :: 0 <= i < |brackets| ==> IsOpen(s, brackets[i].role)
  {
  }

  /** After the queued exits only the open tranches own an entry. */
  lemma ClosesPhase(run: Run, sim: Sim, index: nat)
    requires run.Valid() && index < |run.bars| && Coupled(run, sim, index)
    ensures OpensIn(sim.queued) == DueOpens(sim.state)
    ensures var (left, after) := FillCloses(sim.queued, index, run.bars[index], run.settings.rate, sim.brackets, sim.book);
            && left == sim.brackets
            && TradesOk(run, after.trades, index + 1) && NoTargetAt(after.trades, index)
            && EntriesMatch(run, sim.state, [], after.entries, index)
  {
    hide FillCloses, CloseDue, StateOk, TradesOk, NoTargetAt, OpenEntriesMatch, DueOpens, BracketsMatch, BreakevenCoupled,
         FollowsLastSignal, QueuedCloses, ClosesOk, IsOpen, OpensIn;
    var closes, opens := QueuedCloses(sim), DueOpens(sim.state);
    var bar, rate := run.bars[index], run.settings.rate;
    ClosesHoldNoOpens(closes);
    OpensOfConcat(closes, opens);
    var (left, after) := FillCloses(closes, index, bar, rate, sim.brackets, sim.book);
    DueOpensFill(sim.state, index, bar, rate, left, after);
    FillClosesOfConcat(closes, opens, index, bar, rate, sim.brackets, sim.book);
    BracketsAreOpen(sim.state, sim.brackets, index);
    TradesStayOk(run, sim.book.trades, index);
    SettleCloses(run, closes, sim.brackets, sim.book, index);
    KeepOpenEntries(sim.state, sim.book.entries, after.entries);
  }

  // ---- What the closing script may rely on -----------------------------------------------------------

  predicate BreakevenReady(s: TradeState, bar: Bar, signal: BarSignal) {
    IsOpen(s, T2) ==>
      (s.tranches[0].status.Closed?
       <==> s.tranches[1].breakevenMoved || MovesToBreakeven(s.tranches[1], s.tranches[0], bar, signal))
  }

  /** The coupling inside bar `index`, once its fills are in and before the script runs. */
  predicate Ready(run: Run, s: TradeState, brackets: seq<Bracket>, closes: seq<TradeAction>, book: Book, index: nat)
    requires run.Valid() && index < |run.bars|
  {
    && (s == EMPTY_STATE || Working(run, s, index + 1))
    && (closes != [] ==> s == EMPTY_STATE)
    && ClosesOk(closes)
    && FollowsLastSignal(run, s, index)
    && BreakevenReady(s, run.bars[index], run.signals[index])
    && BracketsMatch(s, brackets, index + 1)
    && EntriesMatch(run, s, closes, book.entries, index + 1)
    && TradesOk(run, book.trades, index + 1)
    && TargetsTaken(s, book.trades, index)
  }

  // ---- Phase 1: entries ------------------------------------------------------------------------------

  function EntryAt(run: Run, role: TrancheRole, quantity: real, index: nat): Fill
    requires run.Valid() && 1 <= index < |run.bars| && SideOf(run.signals[index - 1]).Some?
  {
    Fill(index, Entry, role, SideOf(run.signals[index - 1]).value, run.bars[index].open, quantity, None)
  }

  lemma PlannedQuantity(state: TradeState, entered: seq<TradeAction>, index: int, bar: Bar, book: Book, skips: seq<Skip>, settings: Settings)
    requires settings.Valid() && entered != [] && state.side.Some? && state.pendingStop.Some?
    ensures var plan := PlanEntry(state, entered, index, bar, book, skips, settings);
            if plan.entered == [] then plan.state == EMPTY_STATE
            else plan.entered == entered && plan.state == state && plan.quantity.Some?
  {
  }

  lemma FillPair(run: Run, book: Book, quantity: real, index: nat)
    requires run.Valid() && 1 <= index < |run.bars| && SideOf(run.signals[index - 1]).Some?
    ensures var side := SideOf(run.signals[index - 1]).value;
            FillOpens([OpenAction(T1, side), OpenAction(T2, side)], index, run.bars[index], Some(quantity), book)
            == Ok(AddEntry(AddEntry(book, EntryAt(run, T1, quantity, index)), EntryAt(run, T2, quantity, index)))
  {
    var side := SideOf(run.signals[index - 1]).value;
    var opens := [OpenAction(T1, side), OpenAction(T2, side)];
    var last := opens[1..];
    assert last == [opens[1]] && last[1..] == [];
    var first := AddEntry(book, EntryAt(run, T1, quantity, index));
    assert EntryFill(opens[0], index, run.bars[index], quantity) == EntryAt(run, T1, quantity, index);
    assert EntryFill(last[0], index, run.bars[index], quantity) == EntryAt(run, T2, quantity, index);
    assert FillOpens(last, index, run.bars[index], Some(quantity), first)
           == Ok(AddEntry(first, EntryAt(run, T2, quantity, index)));
  }

  lemma PendingAwaits(run: Run, s: TradeState, n: nat)
    requires run.Valid() && n <= |run.bars| && StateOk(run, s, n)
    ensures IsPending(s) <==> Awaiting(run, s, n)
    ensures IsPending(s) ==> s.side.Some? && s.pendingStop.Some? && DueOpens(s) != []
    ensures IsPending(s) ==> DueOpens(s) == [OpenAction(T1, s.side.value), OpenAction(T2, s.side.value)] && !IsOpen(s, T1) && !IsOpen(s, T2)
    ensures !IsPending(s) ==> DueOpens(s) == []
  {
  }

  lemma StateOfCoupled(run: Run, sim: Sim, n: nat)
    requires run.Valid() && n <= |run.bars| && Coupled(run, sim, n)
    ensures StateOk(run, sim.state, n)
  {
  }

  /** No tranche open: every entry left belongs to nobody, so there is none. */
  lemma NothingOpenMatches(run: Run, s: TradeState, entries: map<TrancheRole, Fill>, n: int)
    requires run.Valid() && n <= |run.bars| && EntriesMatch(run, s, [], entries, n) && !IsOpen(s, T1) && !IsOpen(s, T2)
    ensures entries == map[] && EntriesMatch(run, EMPTY_STATE, [], entries, n)
  {
    assert forall role :: role !in entries;
  }

  /** Phase 1 as a whole: it never raises, and either nothing enters or a pair does. */
  lemma OpenPhaseOk(run: Run, sim: Sim, index: nat)
    requires run.Valid() && index < |run.bars| && Coupled(run, sim, index)
    ensures var mid := OpenPhase(sim, index, run.bars[index], run.settings);
            && mid.Ok?
            && mid.value.brackets == sim.brackets
            && TradesOk(run, mid.value.book.trades, index + 1) && NoTargetAt(mid.value.book.trades, index)
            && (if mid.value.plan.entered == [] then
                  && mid.value.state == (if IsPending(sim.state) then EMPTY_STATE else sim.state)
                  && EntriesMatch(run, mid.value.state, [], mid.value.book.entries, index)
                else
                  && Awaiting(run, sim.state, index) && mid.value.state == sim.state
                  && mid.value.plan.quantity.Some?
                  && mid.value.book.entries
                     == map[T1 := EntryAt(run, T1, mid.value.plan.quantity.value, index),
                            T2 := EntryAt(run, T2, mid.value.plan.quantity.value, index)])
  {
    hide FillCloses, TradesOk, NoTargetAt, SkipFor, Working, Awaiting, BracketsMatch, EntriesMatch, OpensIn, DueOpens, IsPending, IsOpen;
    var bar, settings := run.bars[index], run.settings;
    ClosesPhase(run, sim, index);
    StateOfCoupled(run, sim, index);
    PendingAwaits(run, sim.state, index);
    hide Coupled;
    var (left, after) := FillCloses(sim.queued, index, bar, settings.rate, sim.brackets, sim.book);
    var plan := PlanEntry(sim.state, OpensIn(sim.queued), index, bar, after, sim.skips, settings);
    if IsPending(sim.state) {
      AwaitedPair(run, sim.state, index);
      PlannedQuantity(sim.state, OpensIn(sim.queued), index, bar, after, sim.skips, settings);
      NothingOpenMatches(run, sim.state, after.entries, index);
      hide PlanEntry;
      if plan.entered != [] {
        FillPair(run, after, plan.quantity.value, index);
      }
    }
  }

  lemma AwaitedPair(run: Run, s: TradeState, index: nat)
    requires run.Valid() && index < |run.bars| && Awaiting(run, s, index)
    ensures 1 <= index && SideOf(run.signals[index - 1]) == s.side && s.side.Some?
  {
  }

  // ---- Phase 3: confirming an entry ------------------------------------------------------------------

  /** The pair as filled and protected at this bar's open. */
  function FilledPair(run: Run, s: TradeState, quantity: real, index: nat): TradeState
    requires run.Valid() && index < |run.bars| && Awaiting(run, s, index)
  {
    var side, stop, price := s.side.value, s.pendingStop.value, run.bars[index].open;
    var target := Target(side, price, stop, run.settings.config.rrMult);
    s.(tranches := [Tranche(T1, side, Open, Some(quantity), Some(price), Some(stop), Some(target), Some(index), false, None),
                    Tranche(T2, side, Open, Some(quantity), Some(price), Some(stop), None, Some(index), false, None)])
  }

  function AbortClose(role: TrancheRole, quantity: real, reason: CloseReason): TradeAction {
    TradeAction(CloseMarket, role, None, Some(quantity), None, None, Some(reason))
  }

  /** What the entry confirmation decides on a freshly filled pair. */
  lemma FillDecision(run: Run, s: TradeState, quantity: real, index: nat)
    requires run.Valid() && index < |run.bars| && Awaiting(run, s, index)
    ensures var side, stop, price := s.side.value, s.pendingStop.value, run.bars[index].open;
            var config := run.settings.config;
            var gapped := EntryGapped(price, s.referenceClose, config);
            OnEntryFilled(s, price, index, config, Some(quantity), s.referenceClose) ==
            if gapped || Risk(side, price, stop) <= 0.0 then
              var reason := if gapped then EntryGap else InvalidRisk;
              Ok(TradeDecision(EMPTY_STATE, [AbortClose(T1, quantity, reason), AbortClose(T2, quantity, reason)]))
            else
              var target := Target(side, price, stop, config.rrMult);
              Ok(TradeDecision(FilledPair(run, s, quantity, index),
                               [BracketAction(T1, stop, Some(target)), BracketAction(T2, stop, None)]))
  {
    var side, stop, price := s.side.value, s.pendingStop.value, run.bars[index].open;
    PairParts(s.tranches);
    StampOnPair(s, quantity);
    var stamped := StampQuantity(s, PendingTranches(s.tranches), quantity);
    PairParts(stamped.tranches);
    AbortOnPair(stamped, EntryGap);
    AbortOnPair(stamped, InvalidRisk);
    OpenPendingOnPair(stamped, price, index, stop, Target(side, price, stop, run.settings.config.rrMult));
    BothPresent(AbortClose(T1, quantity, EntryGap), AbortClose(T2, quantity, EntryGap));
    BothPresent(AbortClose(T1, quantity, InvalidRisk), AbortClose(T2, quantity, InvalidRisk));
    var target := Target(side, price, stop, run.settings.config.rrMult);
    BothPresent(BracketAction(T1, stop, Some(target)), BracketAction(T2, stop, None));
  }

  lemma BothPresent(a: TradeAction, b: TradeAction)
    ensures Singleton(true, a) + Singleton(true, b) == [a, b]
  {
  }

  lemma PutAfter(a: Bracket, b: Bracket)
    requires a.role != b.role
    ensures PutBracket([a], b) == [a, b]
  {
    assert [a][1..] == [];
  }

  lemma RegisterPair(a: TradeAction, b: TradeAction, state: TradeState, brackets: seq<Bracket>, index: int)
    ensures Register([a, b], state, brackets, index)
            == (RegisterOne(b, state, RegisterOne(a, state, brackets, index), index),
                Singleton(Deferred(a), a) + Singleton(Deferred(b), b))
  {
    hide RegisterOne;
    var both := [a, b];
    var last := both[1..];
    assert last == [b] && last[1..] == [];
    var once := RegisterOne(a, state, brackets, index);
    assert Singleton(Deferred(b), b) + [] == Singleton(Deferred(b), b);
    assert Register(last, state, once, index) == (RegisterOne(b, state, once, index), Singleton(Deferred(b), b));
  }

  function NewBracket(t: Tranche, index: int): Bracket
    requires t.quantity.Some? && t.stopLoss.Some?
  {
    Bracket(t.role, t.side, t.quantity.value, t.stopLoss.value, t.takeProfit, index + 1, false)
  }

  /** The filled pair with its two fresh brackets is what the closing script may start from. */
  lemma FilledIsReady(run: Run, s: TradeState, quantity: real, book: Book, index: nat)
    requires run.Valid() && index < |run.bars| && Awaiting(run, s, index)
    requires book.entries == map[T1 := EntryAt(run, T1, quantity, index), T2 := EntryAt(run, T2, quantity, index)]
    requires TradesOk(run, book.trades, index + 1) && NoTargetAt(book.trades, index)
    requires 0.0 < Risk(s.side.value, run.bars[index].open, s.pendingStop.value)
    ensures var pair := FilledPair(run, s, quantity, index);
            Ready(run, pair, [NewBracket(pair.tranches[0], index), NewBracket(pair.tranches[1], index)], [], book, index)
  {
    hide TradesOk, NoTargetAt, Target;
    var pair := FilledPair(run, s, quantity, index);
    PairParts(pair.tranches);
    assert LastFired(run.signals, index) == s.side;
    FilledIsWorking(run, s, quantity, index);
    hide EntryFrom, Risk, FilledFrom, StopFor;
    assert EntriesMatch(run, pair, [], book.entries, index + 1);
    hide Working;
  }

  lemma FilledIsWorking(run: Run, s: TradeState, quantity: real, index: nat)
    requires run.Valid() && index < |run.bars| && Awaiting(run, s, index)
    requires 0.0 < Risk(s.side.value, run.bars[index].open, s.pendingStop.value)
    ensures Working(run, FilledPair(run, s, quantity, index), index + 1)
  {
    hide Risk, Target;
    var pair := FilledPair(run, s, quantity, index);
    assert StopFor(run, PositionFill(pair.tranches[0])) == s.pendingStop.value;
  }

  lemma ConfirmFilled(run: Run, s: TradeState, plan: EntryPlan, book: Book, index: nat)
    requires run.Valid() && index < |run.bars| && Awaiting(run, s, index)
    requires plan.entered != [] && plan.quantity.Some?
    requires book.entries == map[T1 := EntryAt(run, T1, plan.quantity.value, index), T2 := EntryAt(run, T2, plan.quantity.value, index)]
    requires TradesOk(run, book.trades, index + 1) && NoTargetAt(book.trades, index)
    requires !EntryGapped(run.bars[index].open, s.referenceClose, run.settings.config)
    requires 0.0 < Risk(s.side.value, run.bars[index].open, s.pendingStop.value)
    ensures var confirmed := ConfirmEntry(plan, s, [], index, run.bars[index], run.settings.config);
            confirmed.Ok? && Ready(run, confirmed.value.0, confirmed.value.1, confirmed.value.2, book, index)
  {
    hide OnEntryFilled;
    var quantity := plan.quantity.value;
    FillDecision(run, s, quantity, index);
    var pair := FilledPair(run, s, quantity, index);
    PairParts(pair.tranches);
    var t1, t2 := pair.tranches[0], pair.tranches[1];
    var a, b := BracketAction(T1, s.pendingStop.value, t1.takeProfit), BracketAction(T2, s.pendingStop.value, None);
    RegisterPair(a, b, pair, [], index);
    PutAfter(NewBracket(t1, index), NewBracket(t2, index));
    assert RegisterOne(a, pair, [], index) == [NewBracket(t1, index)];
    assert RegisterOne(b, pair, [NewBracket(t1, index)], index) == [NewBracket(t1, index), NewBracket(t2, index)];
    assert ConfirmEntry(plan, s, [], index, run.bars[index], run.settings.config)
           == Ok((pair, [NewBracket(t1, index), NewBracket(t2, index)], []));
    hide ConfirmEntry, RegisterOne, NewBracket;
    FilledIsReady(run, s, quantity, book, index);
  }

  lemma ConfirmAborted(run: Run, s: TradeState, plan: EntryPlan, book: Book, index: nat)
    requires run.Valid() && index < |run.bars| && Awaiting(run, s, index)
    requires plan.entered != [] && plan.quantity.Some?
    requires book.entries == map[T1 := EntryAt(run, T1, plan.quantity.value, index), T2 := EntryAt(run, T2, plan.quantity.value, index)]
    requires TradesOk(run, book.trades, index + 1)
    requires EntryGapped(run.bars[index].open, s.referenceClose, run.settings.config)
             || Risk(s.side.value, run.bars[index].open, s.pendingStop.value) <= 0.0
    ensures var confirmed := ConfirmEntry(plan, s, [], index, run.bars[index], run.settings.config);
            confirmed.Ok? && Ready(run, confirmed.value.0, confirmed.value.1, confirmed.value.2, book, index)
  {
    hide OnEntryFilled, EntryGapped, Register, CloseDue, TradesOk, EntriesMatch, Risk;
    var quantity := plan.quantity.value;
    FillDecision(run, s, quantity, index);
    var reason := if EntryGapped(run.bars[index].open, s.referenceClose, run.settings.config) then EntryGap else InvalidRisk;
    var a, b := AbortClose(T1, quantity, reason), AbortClose(T2, quantity, reason);
    AbortRegisters(a, b, index);
    assert ConfirmEntry(plan, s, [], index, run.bars[index], run.settings.config) == Ok((EMPTY_STATE, [], [a, b]));
    AbortDue(run, s, a, b, quantity, reason, index);
    AbortEntries(run, s, [a, b], book.entries, index + 1);
  }

  lemma AbortRegisters(a: TradeAction, b: TradeAction, index: int)
    requires a.kind.CloseMarket? && b.kind.CloseMarket?
    ensures Register([a, b], EMPTY_STATE, [], index) == ([], [a, b])
  {
    RegisterPair(a, b, EMPTY_STATE, [], index);
    BothPresent(a, b);
  }

  /** The exits of an aborted entry are due at the next open, for the reason of the abort. */
  lemma AbortDue(run: Run, s: TradeState, a: TradeAction, b: TradeAction, quantity: real, reason: CloseReason, index: nat)
    requires run.Valid() && index < |run.bars| && Awaiting(run, s, index)
    requires a == AbortClose(T1, quantity, reason) && b == AbortClose(T2, quantity, reason)
    requires if EntryGapped(run.bars[index].open, s.referenceClose, run.settings.config) then reason == EntryGap
             else reason == InvalidRisk && Risk(s.side.value, run.bars[index].open, s.pendingStop.value) <= 0.0
    ensures var entries := map[T1 := EntryAt(run, T1, quantity, index), T2 := EntryAt(run, T2, quantity, index)];
            CloseDue(run, a, entries, index + 1) && CloseDue(run, b, entries, index + 1)
  {
    hide EntryGapped;
  }

  lemma AbortEntries(run: Run, s: TradeState, closes: seq<TradeAction>, entries: map<TrancheRole, Fill>, n: int)
    requires run.Valid() && n <= |run.bars|
    requires |closes| == 2 && closes[0].role == T1 && closes[1].role == T2
    requires T1 in entries && T2 in entries
    requires CloseDue(run, closes[0], entries, n) && CloseDue(run, closes[1], entries, n)
    ensures EntriesMatch(run, EMPTY_STATE, closes, entries, n)
  {
    hide CloseDue;
    assert Closing(closes, T1) && Closing(closes, T2);
  }

  // ---- Phase 2: brackets -----------------------------------------------------------------------------

  predicate StandingOk(run: Run, at: Standing, index: nat)
    requires run.Valid() && index < |run.bars|
  {
    && (at.state == EMPTY_STATE || Working(run, at.state, index))
    && FollowsLastSignal(run, at.state, index)
    && BracketsMatch(at.state, at.brackets, index)
    && EntriesMatch(run, at.state, [], at.book.entries, index)
    && TradesOk(run, at.book.trades, index + 1)
    && TargetsTaken(at.state, at.book.trades, index)
  }

  function Slot(role: TrancheRole): nat {
    if role.T1? then 0 else 1
  }

  /** A bracket of an open tranche fires for a reason and at a price that justify the exit. */
  lemma HitJustified(run: Run, s: TradeState, bracket: Bracket, index: nat)
    requires run.Valid() && index < |run.bars| && Working(run, s, index)
    requires IsOpen(s, bracket.role) && Matches(bracket, s.tranches[Slot(bracket.role)], index)
    requires BracketExit(bracket, run.bars[index]).Some?
    ensures var hit := BracketExit(bracket, run.bars[index]).value;
            var entry := PositionFill(s.tranches[Slot(bracket.role)]);
            EntryFrom(run, entry, index) && ExitJustified(run, entry, index, hit.0, hit.1)
  {
  }

  /** The state left when one of the open tranches of a working pair is closed. */
  lemma CloseOneOf(run: Run, s: TradeState, role: TrancheRole, reason: CloseReason, n: int)
    requires run.Valid() && Working(run, s, n) && IsOpen(s, role)
    ensures var other := if role.T1? then T2 else T1;
            var after := OnTrancheClosed(s, role, reason);
            if IsOpen(s, other) then
              && Working(run, after, n) && after.side == s.side
              && after.tranches[Slot(role)] == CloseTranche(s.tranches[Slot(role)], reason)
              && after.tranches[Slot(other)] == s.tranches[Slot(other)]
            else after == EMPTY_STATE
  {
    hide EntryFrom, StopFor, Risk, Target;
    PairParts(s.tranches);
    var closed := CloseTranche(s.tranches[Slot(role)], reason);
    ReplaceOnPair(s, closed);
    var next := Replace(s, closed);
    PairIsFlat(next);
    assert HasPosition(next.tranches[0]);
    assert PositionFill(next.tranches[0]) == PositionFill(s.tranches[0]);
  }

  lemma PopFrom(brackets: seq<Bracket>, role: TrancheRole)
    requires |brackets| <= 2 && (exists i :: 0 <= i < |brackets| && brackets[i].role == role)
    requires |brackets| == 2 ==> brackets[0].role != brackets[1].role
    ensures PopBracket(brackets, role)
            == if |brackets| == 1 then [] else if brackets[0].role == role then [brackets[1]] else [brackets[0]]
  {
    if |brackets| == 2 && brackets[0].role != role {
      assert brackets[1..] == [brackets[1]];
      assert PopBracket(brackets[1..], role) == [];
    }
  }

  lemma RecordHit(run: Run, at: Standing, bracket: Bracket, index: nat)
    requires run.Valid() && index < |run.bars| && StandingOk(run, at, index) && Working(run, at.state, index)
    requires IsOpen(at.state, bracket.role) && Matches(bracket, at.state.tranches[Slot(bracket.role)], index)
    requires BracketExit(bracket, run.bars[index]).Some?
    ensures var hit := BracketExit(bracket, run.bars[index]).value;
            var after := RecordExit(at.book, run.settings.rate, index, bracket.role, hit.0, hit.1);
            && after.entries == at.book.entries - {bracket.role}
            && TradesOk(run, after.trades, index + 1)
            && (bracket.role.T2? && NoTargetAt(at.book.trades, index) ==> NoTargetAt(after.trades, index))
  {
    HitJustified(run, at.state, bracket, index);
    var hit := BracketExit(bracket, run.bars[index]).value;
    var entry := PositionFill(at.state.tranches[Slot(bracket.role)]);
    assert at.book.entries[bracket.role] == entry;
    var trade := TradeFor(entry, index, bracket.role, hit.0, hit.1);
    assert EntryOf(trade) == entry;
    assert TradeOk(run, trade, index + 1);
  }

  lemma StandingAfterHit(run: Run, at: Standing, bracket: Bracket, next: Standing, index: nat)
    requires run.Valid() && index < |run.bars| && StandingOk(run, at, index) && Working(run, at.state, index)
    requires IsOpen(at.state, bracket.role) && Matches(bracket, at.state.tranches[Slot(bracket.role)], index)
    requires next.brackets == PopBracket(at.brackets, bracket.role)
    requires next.book.entries == at.book.entries - {bracket.role} && TradesOk(run, next.book.trades, index + 1)
    requires bracket.role.T2? && NoTargetAt(at.book.trades, index) ==> NoTargetAt(next.book.trades, index)
    requires var other := if bracket.role.T1? then T2 else T1;
             if IsOpen(at.state, other) then
               && Working(run, next.state, index) && next.state.side == at.state.side
               && next.state.tranches[Slot(bracket.role)].status.Closed?
               && next.state.tranches[Slot(other)] == at.state.tranches[Slot(other)]
             else next.state == EMPTY_STATE
    ensures StandingOk(run, next, index)
  {
    hide TradesOk, EntriesMatch, NoTargetAt, PopBracket, Working, LastFired, Matches;
    var other := if bracket.role.T1? then T2 else T1;
    assert IsPair(at.state.tranches) by { StandingShape(at.state, bracket.role); }
    PopFrom(at.brackets, bracket.role) by { TwoRoles(at.state, at.brackets, bracket.role, index); }
    PairParts(at.state.tranches);
    if IsOpen(at.state, other) {
      WorkingIsPair(run, next.state, index);
      PairParts(next.state.tranches);
      TwoRoles(at.state, at.brackets, bracket.role, index);
    }
    LeaveEntry(run, at.state, next.state, at.book.entries, bracket.role, index);
  }

  lemma WorkingIsPair(run: Run, s: TradeState, n: int)
    requires run.Valid() && Working(run, s, n)
    ensures IsPair(s.tranches)
  {
  }

  lemma StandingShape(s: TradeState, role: TrancheRole)
    requires IsOpen(s, role)
    ensures IsPair(s.tranches)
  {
  }

  lemma TwoRoles(s: TradeState, brackets: seq<Bracket>, role: TrancheRole, n: int)
    requires BracketsMatch(s, brackets, n) && IsOpen(s, role)
    ensures 1 <= |brackets| <= 2 && (exists i :: 0 <= i < |brackets| && brackets[i].role == role)
    ensures |brackets| == 2 ==> brackets[0].role == T1 && brackets[1].role == T2
  {
    assert brackets[if |brackets| == 2 && role.T2? then 1 else 0].role == role;
  }

  /** Firing one bracket keeps the standing, and touches only its own tranche. */
  lemma FireOneOk(run: Run, at: Standing, bracket: Bracket, index: nat)
    requires run.Valid() && index < |run.bars| && StandingOk(run, at, index)
    requires IsOpen(at.state, bracket.role) && Matches(bracket, at.state.tranches[Slot(bracket.role)], index)
    ensures var after := FireOne(bracket, index, run.bars[index], run.settings.rate, at);
            var other := if bracket.role.T1? then T2 else T1;
            && StandingOk(run, after, index)
            && (if BracketExit(bracket, run.bars[index]).None? then after == at
                else if IsOpen(at.state, other) then
                  && Working(run, after.state, index)
                  && after.state.tranches[Slot(bracket.role)].status.Closed?
                  && after.state.tranches[Slot(bracket.role)].takeProfit == at.state.tranches[Slot(bracket.role)].takeProfit
                  && after.state.tranches[Slot(other)] == at.state.tranches[Slot(other)]
                else after.state == EMPTY_STATE)
  {
    hide BracketExit, RecordExit, TradesOk, OnTrancheClosed, Working, PopBracket, EntriesMatch, BracketsMatch,
         FollowsLastSignal, NoTargetAt;
    var hit := BracketExit(bracket, run.bars[index]);
    if hit.Some? {
      assert Working(run, at.state, index) by { StandingShape(at.state, bracket.role); }
      RecordHit(run, at, bracket, index);
      CloseOneOf(run, at.state, bracket.role, hit.value.1, index);
      StandingAfterHit(run, at, bracket, FireOne(bracket, index, run.bars[index], run.settings.rate, at), index);
    }
  }

  lemma LeaveEntry(run: Run, s: TradeState, next: TradeState, entries: map<TrancheRole, Fill>, role: TrancheRole, n: int)
    requires run.Valid() && n <= |run.bars| && EntriesMatch(run, s, [], entries, n)
    requires forall r :: IsOpen(next, r) <==> IsOpen(s, r) && r != role
    requires forall r :: IsOpen(next, r) ==> next.tranches[Slot(r)] == s.tranches[Slot(r)]
    ensures EntriesMatch(run, next, [], entries - {role}, n)
  {
  }

  lemma StandingIsReady(run: Run, at: Standing, index: nat)
    requires run.Valid() && index < |run.bars| && StandingOk(run, at, index)
    requires BreakevenReady(at.state, run.bars[index], run.signals[index])
    ensures Ready(run, at.state, at.brackets, [], at.book, index)
  {
    hide BreakevenReady, TradesOk, FollowsLastSignal;
  }

  /** Both tranches open: the stop takes both, the target only T1, and then the runner is due to move. */
  lemma FireBoth(run: Run, at: Standing, index: nat)
    requires run.Valid() && index < |run.bars| && StandingOk(run, at, index) && BreakevenCoupled(at.state)
    requires IsOpen(at.state, T1) && IsOpen(at.state, T2)
    ensures var after := FireBrackets(at.brackets, index, run.bars[index], run.settings.rate, at);
            StandingOk(run, after, index) && BreakevenReady(after.state, run.bars[index], run.signals[index])
  {
    hide StandingOk, RecordExit, FireOne;
    assert Working(run, at.state, index) && BracketsMatch(at.state, at.brackets, index) by { StandingParts(run, at, index); }
    var bar, rate := run.bars[index], run.settings.rate;
    var b1, b2 := at.brackets[0], at.brackets[1];
    assert at.brackets[1..] == [b2] && at.brackets[1..][1..] == [];
    FireOneOk(run, at, b1, index);
    var mid := FireOne(b1, index, bar, rate, at);
    assert IsOpen(mid.state, T2) && mid.state.tranches[1] == at.state.tranches[1];
    FireOneOk(run, mid, b2, index);
    var after := FireOne(b2, index, bar, rate, mid);
    assert FireBrackets(at.brackets, index, bar, rate, at) == after by {
      assert FireBrackets(at.brackets[1..], index, bar, rate, mid) == FireBrackets([], index, bar, rate, after);
    }
  }

  lemma StandingParts(run: Run, at: Standing, index: nat)
    requires run.Valid() && index < |run.bars| && StandingOk(run, at, index) && IsPair(at.state.tranches)
    ensures Working(run, at.state, index) && BracketsMatch(at.state, at.brackets, index)
  {
  }

  lemma FireSingle(run: Run, at: Standing, role: TrancheRole, index: nat)
    requires run.Valid() && index < |run.bars| && StandingOk(run, at, index) && BreakevenCoupled(at.state)
    requires IsOpen(at.state, role) && !IsOpen(at.state, if role.T1? then T2 else T1)
    ensures var after := FireBrackets(at.brackets, index, run.bars[index], run.settings.rate, at);
            StandingOk(run, after, index) && BreakevenReady(after.state, run.bars[index], run.signals[index])
  {
    hide StandingOk, RecordExit, FireOne, BracketExit;
    StandingParts(run, at, index);
    var bar, rate := run.bars[index], run.settings.rate;
    var b := at.brackets[0];
    assert at.brackets == [b] && at.brackets[1..] == [];
    FireOneOk(run, at, b, index);
    var after := FireOne(b, index, bar, rate, at);
    assert FireBrackets(at.brackets, index, bar, rate, at) == FireBrackets([], index, bar, rate, after);
  }

  lemma BracketPhaseOk(run: Run, at: Standing, index: nat)
    requires run.Valid() && index < |run.bars| && StandingOk(run, at, index) && BreakevenCoupled(at.state)
    ensures var after := FireBrackets(at.brackets, index, run.bars[index], run.settings.rate, at);
            Ready(run, after.state, after.brackets, [], after.book, index)
  {
    hide Ready, FireOne, Working;
    if IsOpen(at.state, T1) && IsOpen(at.state, T2) {
      FireBoth(run, at, index);
    } else if IsOpen(at.state, T1) {
      FireSingle(run, at, T1, index);
    } else if IsOpen(at.state, T2) {
      FireSingle(run, at, T2, index);
    }
    StandingIsReady(run, FireBrackets(at.brackets, index, run.bars[index], run.settings.rate, at), index);
  }
}
