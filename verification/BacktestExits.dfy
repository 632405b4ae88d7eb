// Which exits a bar owes: every order queued for the open fills there, every bracket whose level is
// reached fires, and nothing else leaves.

module BacktestExits {
  import opened Prelude
  import opened Market
  import opened TradeManager
  import opened TradeManagerPairs
  import opened TradeManagerTheorems
  import opened Backtest
  import opened BacktestInvariant
  import opened BacktestSteps
  import opened BacktestScript
  import opened BacktestAccountRuns
  import opened BacktestSkips
  import opened BacktestTheorems

  /** The trades of one role, in order. */
  function RoleTrades(trades: seq<Trade>, role: TrancheRole): seq<Trade> {
    if trades == [] then []
    else
      var last := trades[|trades| - 1];
      RoleTrades(trades[..|trades| - 1], role) + if last.role == role then [last] else []
  }

  lemma {:induction false} RoleTradesSplit(a: seq<Trade>, b: seq<Trade>, role: TrancheRole)
    ensures RoleTrades(a + b, role) == RoleTrades(a, role) + RoleTrades(b, role)
  {
    if b == [] {
      assert a + b == a;
    } else {
      var init := b[..|b| - 1];
      RoleTradesSplit(a, init, role);
      assert (a + b)[..|a + b| - 1] == a + init;
      var last := if b[|b| - 1].role == role then [b[|b| - 1]] else [];
      assert (RoleTrades(a, role) + RoleTrades(init, role)) + last == RoleTrades(a, role) + (RoleTrades(init, role) + last);
    }
  }

  // ---- What is due -------------------------------------------------------------------------------------------

  /** When and where a bracket leaves within a bar: its stop if reached, else its target if reached. */
  function BracketDue(bracket: Bracket, bar: Bar): Option<(real, CloseReason)> {
    if bracket.side.Buy? then
      if bar.low <= bracket.stopLoss then
        Some((MinReal(bar.open, bracket.stopLoss), if bracket.breakeven then BreakevenStop else StopLoss))
      else if bracket.takeProfit.Some? && bracket.takeProfit.value <= bar.high then
        Some((MaxReal(bar.open, bracket.takeProfit.value), TakeProfit))
      else None
    else
      if bracket.stopLoss <= bar.high then
        Some((MaxReal(bar.open, bracket.stopLoss), if bracket.breakeven then BreakevenStop else StopLoss))
      else if bracket.takeProfit.Some? && bar.low <= bracket.takeProfit.value then
        Some((MinReal(bar.open, bracket.takeProfit.value), TakeProfit))
      else None
  }

  lemma BracketExitIsDue(bracket: Bracket, bar: Bar)
    ensures BracketExit(bracket, bar) == BracketDue(bracket, bar)
  {
  }

  /** The first market exit queued for a role. */
  function CloseFor(queue: seq<TradeAction>, role: TrancheRole): Option<TradeAction> {
    if queue == [] then None
    else if queue[0].kind.CloseMarket? && queue[0].role == role then Some(queue[0])
    else CloseFor(queue[1..], role)
  }

  /** The exit a role owes on this bar: the queued one at the open, or its bracket's. */
  function ExitDue(sim: Sim, role: TrancheRole, bar: Bar): Option<(real, CloseReason)> {
    var close, bracket := CloseFor(sim.queued, role), GetBracket(sim.brackets, role);
    if close.Some? then Some((bar.open, if close.value.reason.Some? then close.value.reason.value else Reversal))
    else if bracket.Some? then BracketDue(bracket.value, bar)
    else None
  }

  // ---- One role through one bar ------------------------------------------------------------------------------

  function EntryFor(book: Book, role: TrancheRole): Option<Fill> {
    if role in book.entries then Some(book.entries[role]) else None
  }

  /** The trade that an exit makes of an entry. */
  function Finished(entry: Fill, index: int, exit: (real, CloseReason)): Trade {
    Trade(entry.role, entry.side, entry.quantity, entry.barIndex, entry.price, index, exit.0, exit.1)
  }

  /** Between two books a role's exit happens, exactly once, or nothing does. */
  predicate Leaves(before: Book, after: Book, role: TrancheRole, exit: Option<(real, CloseReason)>, index: int) {
    && before.trades <= after.trades
    && (exit.Some? && EntryFor(before, role).Some? ==>
          RoleTrades(after.trades, role) == RoleTrades(before.trades, role) + [Finished(EntryFor(before, role).value, index, exit.value)])
    && (exit.None? ==> RoleTrades(after.trades, role) == RoleTrades(before.trades, role))
    && (exit.None? && EntryFor(before, role).Some? ==> EntryFor(after, role) == EntryFor(before, role))
  }

  lemma LeavesOnce(a: Book, b: Book, c: Book, role: TrancheRole, first: Option<(real, CloseReason)>, second: Option<(real, CloseReason)>, index: int)
    requires Leaves(a, b, role, first, index) && Leaves(b, c, role, second, index) && (first.None? || second.None?)
    ensures Leaves(a, c, role, if first.Some? then first else second, index)
  {
  }

  predicate EntriesNamed(book: Book) {
    forall role :: role in book.entries ==> book.entries[role].role == role
  }

  lemma RecordLeaves(book: Book, rate: real, index: int, gone: TrancheRole, price: real, reason: CloseReason, role: TrancheRole)
    requires EntriesNamed(book)
    ensures var after := RecordExit(book, rate, index, gone, price, reason);
            EntriesNamed(after) && Leaves(book, after, role, if gone == role then Some((price, reason)) else None, index)
  {
    if gone in book.entries {
      var trade := TradeFor(book.entries[gone], index, gone, price, reason);
      assert RoleTrades([trade], role) == if gone == role then [trade] else [] by { assert [trade][..0] == []; }
      RoleTradesSplit(book.trades, [trade], role);
    }
  }

  predicate ClosesDistinct(queue: seq<TradeAction>) {
    forall i, j :: 0 <= i < j < |queue| && queue[i].kind.CloseMarket? && queue[j].kind.CloseMarket? ==> queue[i].role != queue[j].role
  }

  function CloseExit(close: Option<TradeAction>, bar: Bar): Option<(real, CloseReason)> {
    if close.None? then None else Some((bar.open, ReasonOf(close.value)))
  }

  lemma NoLaterClose(queue: seq<TradeAction>, role: TrancheRole)
    requires queue != [] && ClosesDistinct(queue) && queue[0].kind.CloseMarket? && queue[0].role == role
    ensures CloseFor(queue[1..], role).None?
  {
    NoCloseIn(queue[1..], role);
  }

  lemma {:induction false} NoCloseIn(queue: seq<TradeAction>, role: TrancheRole)
    requires forall i :: 0 <= i < |queue| && queue[i].kind.CloseMarket? ==> queue[i].role != role
    ensures CloseFor(queue, role).None?
  {
    if queue != [] { NoCloseIn(queue[1..], role); }
  }

  lemma {:induction false} QueueLeaves(queue: seq<TradeAction>, index: int, bar: Bar, rate: real, brackets: seq<Bracket>, book: Book, role: TrancheRole)
    requires EntriesNamed(book) && ClosesDistinct(queue)
    ensures var after := FillCloses(queue, index, bar, rate, brackets, book).1;
            EntriesNamed(after) && Leaves(book, after, role, CloseExit(CloseFor(queue, role), bar), index)
    decreases |queue|
  {
    hide RecordExit, Leaves, EntriesNamed;
    if queue == [] {
      StaysPut(book, role, index);
    } else {
      var rest, after := queue[1..], FillCloses(queue, index, bar, rate, brackets, book).1;
      if queue[0].kind.CloseMarket? {
        var gone, reason := queue[0].role, ReasonOf(queue[0]);
        var next := RecordExit(book, rate, index, gone, bar.open, reason);
        RecordLeaves(book, rate, index, gone, bar.open, reason, role);
        QueueLeaves(rest, index, bar, rate, PopBracket(brackets, gone), next, role);
        if gone == role { NoLaterClose(queue, role); }
        LeavesOnce(book, next, after, role, if gone == role then Some((bar.open, reason)) else None, CloseExit(CloseFor(rest, role), bar), index);
      } else {
        QueueLeaves(rest, index, bar, rate, brackets, book, role);
      }
    }
  }

  lemma StaysPut(book: Book, role: TrancheRole, index: int)
    ensures Leaves(book, book, role, None, index)
  {
  }

  predicate BracketsDistinct(brackets: seq<Bracket>, index: int) {
    && (forall i :: 0 <= i < |brackets| ==> brackets[i].activeFrom <= index)
    && (forall i, j :: 0 <= i < j < |brackets| ==> brackets[i].role != brackets[j].role)
  }

  function BracketLeaves(bracket: Option<Bracket>, bar: Bar): Option<(real, CloseReason)> {
    if bracket.None? then None else BracketDue(bracket.value, bar)
  }

  lemma {:induction false} NoBracketFor(brackets: seq<Bracket>, role: TrancheRole)
    requires forall i :: 0 <= i < |brackets| ==> brackets[i].role != role
    ensures GetBracket(brackets, role).None?
  {
    if brackets != [] { NoBracketFor(brackets[1..], role); }
  }

  lemma {:induction false} BracketsLeave(snapshot: seq<Bracket>, index: int, bar: Bar, rate: real, at: Standing, role: TrancheRole)
    requires EntriesNamed(at.book) && BracketsDistinct(snapshot, index)
    ensures var after := FireBrackets(snapshot, index, bar, rate, at).book;
            EntriesNamed(after) && Leaves(at.book, after, role, BracketLeaves(GetBracket(snapshot, role), bar), index)
    decreases |snapshot|
  {
    hide RecordExit, Leaves, EntriesNamed, BracketExit, BracketDue, OnTrancheClosed;
    if snapshot == [] {
      StaysPut(at.book, role, index);
    } else {
      var bracket, rest := snapshot[0], snapshot[1..];
      var next, exit := FireOne(bracket, index, bar, rate, at), BracketDue(bracket, bar);
      BracketExitIsDue(bracket, bar);
      if exit.Some? {
        RecordLeaves(at.book, rate, index, bracket.role, exit.value.0, exit.value.1, role);
      } else {
        StaysPut(at.book, role, index);
      }
      BracketsLeave(rest, index, bar, rate, next, role);
      if bracket.role == role { NoBracketFor(rest, role); }
      LeavesOnce(at.book, next.book, FireBrackets(snapshot, index, bar, rate, at).book, role,
                 if bracket.role == role then exit else None, BracketLeaves(GetBracket(rest, role), bar), index);
    }
  }

  // ---- One bar of a run --------------------------------------------------------------------------------------

  lemma {:induction false} CloseForIsQueued(queue: seq<TradeAction>, role: TrancheRole)
    ensures CloseFor(queue, role).Some? <==> ClosesRole(queue, role)
  {
    if queue != [] {
      CloseForIsQueued(queue[1..], role);
      if ClosesRole(queue, role) {
        var i :| 0 <= i < |queue| && queue[i].kind.CloseMarket? && queue[i].role == role;
        if 0 < i { assert queue[1..][i - 1] == queue[i]; }
      }
      if ClosesRole(queue[1..], role) {
        var i :| 0 <= i < |queue| - 1 && queue[1..][i].kind.CloseMarket? && queue[1..][i].role == role;
        assert queue[i + 1] == queue[1..][i];
      }
    }
  }

  /** What the coupling says of the queue, the brackets and the entries before a bar. */
  lemma CoupledParts(run: Run, sim: Sim, n: nat)
    requires run.Valid() && n <= |run.bars| && Coupled(run, sim, n)
    ensures ClosesDistinct(sim.queued) && BracketsDistinct(sim.brackets, n) && EntriesNamed(sim.book)
  {
    hide TradesOk, StateOk, CloseDue, FollowsLastSignal;
    DistinctQueue(sim);
    DistinctBrackets(run, sim.state, sim.brackets, n) by { assert StateOk(run, sim.state, n); }
    NamedEntries(run, sim, n);
  }

  lemma DistinctQueue(sim: Sim)
    requires QueueOk(sim)
    ensures ClosesDistinct(sim.queued)
  {
    hide QueuedCloses;
    var closes, opens := QueuedCloses(sim), DueOpens(sim.state);
    forall j | |closes| <= j < |sim.queued| ensures !sim.queued[j].kind.CloseMarket? {
      assert sim.queued[j] == opens[j - |closes|];
    }
    forall i, j | 0 <= i < j < |sim.queued| && sim.queued[i].kind.CloseMarket? && sim.queued[j].kind.CloseMarket?
      ensures sim.queued[i].role != sim.queued[j].role
    {
      assert sim.queued[i] == closes[i] && sim.queued[j] == closes[j];
    }
  }

  lemma DistinctBrackets(run: Run, s: TradeState, brackets: seq<Bracket>, n: nat)
    requires run.Valid() && n <= |run.bars| && StateOk(run, s, n) && BracketsMatch(s, brackets, n)
    ensures BracketsDistinct(brackets, n)
  {
    StateParts(run, s, n);
    hide StateOk;
  }

  lemma NamedEntries(run: Run, sim: Sim, n: nat)
    requires run.Valid() && n <= |run.bars| && Coupled(run, sim, n)
    ensures EntriesNamed(sim.book)
  {
    hide TradesOk, QueueOk, BracketsMatch, FollowsLastSignal, EntryFrom, ExitJustified, QueuedCloses, StateOk;
    forall role | role in sim.book.entries ensures sim.book.entries[role].role == role {
      if Closing(QueuedCloses(sim), role) {
        var i :| 0 <= i < |QueuedCloses(sim)| && QueuedCloses(sim)[i].role == role;
        assert CloseDue(run, QueuedCloses(sim)[i], sim.book.entries, n);
      } else {
        assert IsOpen(sim.state, role);
        OpenRole(run, sim.state, n, role);
      }
    }
  }

  lemma OpenRole(run: Run, s: TradeState, n: nat, role: TrancheRole)
    requires run.Valid() && n <= |run.bars| && StateOk(run, s, n) && IsOpen(s, role)
    ensures s.tranches[if role.T1? then 0 else 1].role == role
  {
  }

  /** Entries make no trade, and overwrite nothing. */
  lemma EntriesLeave(before: Book, closed: Book, first: Fill, second: Fill, role: TrancheRole, exit: Option<(real, CloseReason)>, index: int)
    requires closed.entries == map[] && Leaves(before, closed, role, exit, index)
    ensures Leaves(before, AddEntry(AddEntry(closed, first), second), role, exit, index)
  {
  }

  /** One role over a whole bar: the queue first, then its bracket. */
  lemma BarLeaves(run: Run, sim: Sim, n: nat, role: TrancheRole)
    requires run.Valid() && n < |run.bars| && Coupled(run, sim, n)
    requires CloseFor(sim.queued, role).None? || GetBracket(sim.brackets, role).None?
    ensures var next := BarStep(sim, n, run.bars[n], run.signals[n], run.settings);
            next.Ok? && Leaves(sim.book, next.value.book, role, ExitDue(sim, role, run.bars[n]), n)
  {
    hide Coupled, OpenPhase, FillCloses, FireBrackets, OnBarClose, ConfirmEntry, Register, AddEntry, Leaves, BracketDue, EntriesNamed,
         ClosesDistinct, BracketsDistinct, Filled, GivenUp, EntriesMatch, TradesOk, Awaiting, IsPending, Ready;
    var bar, rate := run.bars[n], run.settings.rate;
    BarStepOk(run, sim, n);
    CoupledParts(run, sim, n);
    OpenPhaseOk(run, sim, n);
    OpenSettles(run, sim, n);
    var mid, closed := OpenPhase(sim, n, bar, run.settings).value, ClosedBook(sim, n, bar, rate);
    var first, second := CloseExit(CloseFor(sim.queued, role), bar), BracketLeaves(GetBracket(sim.brackets, role), bar);
    QueueLeaves(sim.queued, n, bar, rate, sim.brackets, sim.book, role);
    if mid.plan.entered == [] {
      BracketsLeave(sim.brackets, n, bar, rate, Standing(mid.brackets, mid.book, mid.state), role);
      var after := FireBrackets(sim.brackets, n, bar, rate, Standing(mid.brackets, mid.book, mid.state)).book;
      LeavesOnce(sim.book, closed, after, role, first, second, n);
    } else {
      EnteredPair(run, sim, n);
      EntryBarOk(run, sim, mid, n);
      PendingHasNoBracket(run, sim, n);
      AwaitedPair(run, sim.state, n);
      var quantity := mid.plan.quantity.value;
      EntriesLeave(sim.book, closed, EntryAt(run, T1, quantity, n), EntryAt(run, T2, quantity, n), role, first, n);
    }
  }

  lemma PendingHasNoBracket(run: Run, sim: Sim, n: nat)
    requires run.Valid() && n <= |run.bars| && Coupled(run, sim, n) && Awaiting(run, sim.state, n)
    ensures sim.brackets == []
  {
  }

  /**
   * The exits of a bar, role by role. An exit queued for the role fills at the open; else the role's bracket
   * leaves at its stop, if the bar reaches it, or at its target, if the bar reaches only that; each makes
   * exactly one trade of the role's open entry. When neither is due there is no trade of the role, and its
   * entry stays as it is.
   */
  lemma ExitsAreExact(run: Run, n: nat, role: TrancheRole)
    requires run.Valid() && n < |run.bars|
    ensures run.At(n).Ok? && run.At(n + 1).Ok?
    ensures var before, after := run.At(n).value, run.At(n + 1).value;
            var due := ExitDue(before, role, run.bars[n]);
            && before.book.trades <= after.book.trades
            && var added := RoleTrades(after.book.trades[|before.book.trades|..], role);
               if due.Some? then role in before.book.entries && added == [Finished(before.book.entries[role], n, due.value)]
               else added == [] && (role in before.book.entries ==>
                                      role in after.book.entries && after.book.entries[role] == before.book.entries[role])
  {
    hide Coupled, OpenPhase, FillCloses, FireBrackets, OnBarClose, ConfirmEntry, Register, RecordExit, Leaves, BracketDue, EntriesNamed,
         ClosesDistinct, BracketsDistinct, Mirrors, IsOpen, IsPending, ClosesRole, BarStep;
    RunsStayCoupled(run, n);
    var before, bar := run.At(n).value, run.bars[n];
    CouplingRoleByRole(run, n, role);
    CloseForIsQueued(before.queued, role);
    BarLeaves(run, before, n, role);
    assert run.At(n + 1) == BarStep(before, n, bar, run.signals[n], run.settings);
    var after := run.At(n + 1).value;
    LeftTrades(before.book, after.book, role, ExitDue(before, role, bar), n);
  }

  lemma LeftTrades(before: Book, after: Book, role: TrancheRole, exit: Option<(real, CloseReason)>, index: int)
    requires Leaves(before, after, role, exit, index) && (exit.Some? ==> role in before.entries)
    ensures before.trades <= after.trades
    ensures var added := RoleTrades(after.trades[|before.trades|..], role);
            if exit.Some? then added == [Finished(before.entries[role], index, exit.value)]
            else added == [] && (role in before.entries ==> role in after.entries && after.entries[role] == before.entries[role])
  {
    var rest := after.trades[|before.trades|..];
    assert after.trades == before.trades + rest;
    RoleTradesSplit(before.trades, rest, role);
    Cancels(RoleTrades(before.trades, role), RoleTrades(rest, role), if exit.Some? then [Finished(before.entries[role], index, exit.value)] else []);
  }

  lemma Cancels<T>(a: seq<T>, b: seq<T>, c: seq<T>)
    requires a + b == a + c
    ensures b == c
  {
    assert b == (a + b)[|a|..] == (a + c)[|a|..] == c;
  }

  /** Brackets name different roles, so each is found under its own. */
  lemma {:induction false} FoundUnderItsRole(brackets: seq<Bracket>, i: nat, n: int)
    requires i < |brackets| && BracketsDistinct(brackets, n)
    ensures GetBracket(brackets, brackets[i].role) == Some(brackets[i])
  {
    if 0 < i { FoundUnderItsRole(brackets[1..], i - 1, n); }
  }

  /** The open entry that a standing bracket protects. */
  lemma ProtectedEntry(run: Run, sim: Sim, i: nat, n: nat)
    requires run.Valid() && n <= |run.bars| && Coupled(run, sim, n) && i < |sim.brackets|
    ensures var bracket := sim.brackets[i];
            && GetBracket(sim.brackets, bracket.role) == Some(bracket)
            && IsOpen(sim.state, bracket.role)
            && bracket.role in sim.book.entries
            && var entry := sim.book.entries[bracket.role];
               entry.role == bracket.role && entry.side == bracket.side && entry.quantity == bracket.quantity
  {
    hide StateOk, QueueOk, TradesOk, CloseDue, Closing, QueuedCloses, GetBracket;
    CoupledParts(run, sim, n);
    FoundUnderItsRole(sim.brackets, i, n);
  }

  /**
   * A standing bracket fires exactly when its level is reached. If the bar reaches the stop, one trade of the
   * tranche is added, at the stop or at an open already beyond it, and its reason says whether the stop had
   * been moved to break-even. If the bar reaches only the target, one trade is added at the target or at a
   * better open. Otherwise there is no trade of the tranche and its entry stays open.
   */
  lemma BracketsFireExactly(run: Run, n: nat, i: nat)
    requires run.Valid() && n < |run.bars| && run.At(n).Ok? && i < |run.At(n).value.brackets|
    ensures run.At(n + 1).Ok?
    ensures var before, after, bar := run.At(n).value, run.At(n + 1).value, run.bars[n];
            var bracket := before.brackets[i];
            && bracket.role in before.book.entries && before.book.trades <= after.book.trades
            && var entry := before.book.entries[bracket.role];
               var added := RoleTrades(after.book.trades[|before.book.trades|..], bracket.role);
               if StopHit(bracket.side, bracket.stopLoss, bar) then
                 added == [Trade(bracket.role, bracket.side, bracket.quantity, entry.barIndex, entry.price, n,
                                 StopFill(bracket.side, bracket.stopLoss, bar),
                                 if bracket.breakeven then BreakevenStop else StopLoss)]
               else if bracket.takeProfit.Some? && Touched(bracket.side, bracket.takeProfit.value, bar) then
                 added == [Trade(bracket.role, bracket.side, bracket.quantity, entry.barIndex, entry.price, n,
                                 TargetFill(bracket.side, bracket.takeProfit.value, bar), TakeProfit)]
               else
                 added == [] && bracket.role in after.book.entries && after.book.entries[bracket.role] == entry
  {
    hide Coupled, RunTo, RoleTrades, ClosesRole, Mirrors, IsOpen, IsPending;
    RunsStayCoupled(run, n);
    var before := run.At(n).value;
    var role := before.brackets[i].role;
    ProtectedEntry(run, before, i, n);
    ExitsAreExact(run, n, role);
    CouplingRoleByRole(run, n, role);
    CloseForIsQueued(before.queued, role);
  }

  /** Brackets that become active only later do nothing on this bar, whatever it reaches. */
  lemma {:induction false} DormantBracketsStay(snapshot: seq<Bracket>, index: int, bar: Bar, rate: real, at: Standing)
    requires forall i :: 0 <= i < |snapshot| ==> index < snapshot[i].activeFrom
    ensures FireBrackets(snapshot, index, bar, rate, at) == at
    decreases |snapshot|
  {
    if snapshot != [] { DormantBracketsStay(snapshot[1..], index, bar, rate, at); }
  }
}
