// Every awaited entry is settled on the next bar: it fills as a pair, or it is given up with a record.

module BacktestSkips {
  import opened Algebra
  import opened Prelude
  import opened Market
  import opened Sizing
  import opened SizingTheorems
  import opened TradeManager
  import opened Backtest
  import opened BacktestInvariant
  import opened BacktestSteps
  import opened BacktestScript
  import opened BacktestAccount
  import opened BacktestAccountRuns

  /** Between the two books nothing but exits was logged. */
  predicate OnlyExits(before: Book, after: Book) {
    before.fills <= after.fills && forall p :: |before.fills| <= p < |after.fills| ==> after.fills[p].kind.Exit?
  }

  lemma ExitsCompose(a: Book, b: Book, c: Book)
    requires OnlyExits(a, b) && OnlyExits(b, c)
    ensures OnlyExits(a, c)
  {
    forall p | |a.fills| <= p < |c.fills| ensures c.fills[p].kind.Exit? {
      if p < |b.fills| { assert c.fills[p] == b.fills[p]; }
    }
  }

  lemma RecordLogsOneExit(book: Book, rate: real, index: int, role: TrancheRole, price: real, reason: CloseReason)
    ensures OnlyExits(book, RecordExit(book, rate, index, role, price, reason))
  {
  }

  lemma {:induction false} ClosesLogExits(queue: seq<TradeAction>, index: int, bar: Bar, rate: real, brackets: seq<Bracket>, book: Book)
    ensures OnlyExits(book, FillCloses(queue, index, bar, rate, brackets, book).1)
    decreases |queue|
  {
    hide RecordExit;
    if queue != [] {
      if queue[0].kind.CloseMarket? {
        var next := RecordExit(book, rate, index, queue[0].role, bar.open, ReasonOf(queue[0]));
        RecordLogsOneExit(book, rate, index, queue[0].role, bar.open, ReasonOf(queue[0]));
        ClosesLogExits(queue[1..], index, bar, rate, PopBracket(brackets, queue[0].role), next);
        ExitsCompose(book, next, FillCloses(queue, index, bar, rate, brackets, book).1);
      } else {
        ClosesLogExits(queue[1..], index, bar, rate, brackets, book);
      }
    }
  }

  lemma {:induction false} BracketsLogExits(snapshot: seq<Bracket>, index: int, bar: Bar, rate: real, at: Standing)
    ensures OnlyExits(at.book, FireBrackets(snapshot, index, bar, rate, at).book)
    decreases |snapshot|
  {
    hide RecordExit, BracketExit, OnTrancheClosed;
    if snapshot != [] {
      var hit := BracketExit(snapshot[0], bar);
      if hit.Some? { RecordLogsOneExit(at.book, rate, index, snapshot[0].role, hit.value.0, hit.value.1); }
      var next := FireOne(snapshot[0], index, bar, rate, at);
      BracketsLogExits(snapshot[1..], index, bar, rate, next);
      ExitsCompose(at.book, next.book, FireBrackets(snapshot, index, bar, rate, at).book);
    }
  }

  predicate NoEntryAt(fills: seq<Fill>, index: int) {
    forall p :: 0 <= p < |fills| && fills[p].kind.Entry? ==> fills[p].barIndex != index
  }

  lemma ExitsAddNoEntry(before: Book, after: Book, index: int)
    requires OnlyExits(before, after) && NoEntryAt(before.fills, index)
    ensures NoEntryAt(after.fills, index)
  {
  }

  lemma LoggedBefore(run: Run, book: Book, n: int)
    requires run.Valid() && BookOk(run, book, n)
    ensures NoEntryAt(book.fills, n)
  {
    hide FiguresExact, PairUp, EntriesInPairs, EntriesBacked;
  }

  /** The account once the exits queued for a bar have filled. */
  function ClosedBook(sim: Sim, index: int, bar: Bar, rate: real): Book {
    FillCloses(sim.queued, index, bar, rate, sim.brackets, sim.book).1
  }

  // ---- The entry gate ----------------------------------------------------------------------------------------

  /**
   * When an entry is given up, for which reason and with which budget on record: on a ruined account, without
   * a distance to the stop, below the broker's least lot, or over budget when over-budget entries are not
   * confirmed. Otherwise it is taken, and in particular an over-budget entry is when they are.
   */
  lemma EntryGateIsExact(settings: Settings, stopDistance: real, equity: real, ruined: bool)
    requires settings.Valid()
    ensures var config, spec := settings.config, settings.spec;
            var share, loss := Times(equity, config.riskPct), Times(Times(stopDistance, spec.contractSize), settings.rate);
            var budget := if share < 0.0 then -share else share;
            && (0.0 < stopDistance ==> 0.0 < loss)
            && SkipFor(settings, stopDistance, equity, ruined) ==
               if ruined || equity <= 0.0 then Some((AccountRuined, share))
               else if stopDistance <= 0.0 then Some((NoRisk, budget))
               else if FloorToStep(WantedLots(config, spec, budget, loss), spec.volumeStep) < spec.volumeMin then
                 Some((BelowMinimum, budget))
               else if config.sizingMode.RiskPercent? && budget < Times(LeastLots(config, spec), loss) && !settings.confirmOverBudget then
                 Some((AwaitingConfirmation, budget))
               else None
  {
    hide SizeEntry, FloorToStep, WantedLots, LeastLots;
    RefusedExactlyWhen(settings.config, stopDistance, settings.spec, equity, settings.rate);
    var outcome := SizeEntry(settings.config, stopDistance, settings.spec, equity, settings.rate);
    assert outcome.rejection.Some? ==> outcome.rejection.value.NonPositiveRisk? || outcome.rejection.value.BelowBrokerMinimum?;
  }

  /** The record of an entry given up at this open. */
  predicate GivenUp(run: Run, s: TradeState, closed: Book, skip: Skip, index: nat)
    requires run.Valid() && index < |run.bars|
  {
    && s.side == Some(skip.side) && skip.barIndex == index && s.pendingStop.Some?
    && skip.stopDistance == AbsReal(run.bars[index].open - s.pendingStop.value) && skip.equity == closed.equity
    && SkipFor(run.settings, skip.stopDistance, closed.equity, closed.ruined) == Some((skip.reason, skip.budget))
  }

  /** What the sized entry adds to the log, and the size the account allowed it. */
  predicate Filled(run: Run, s: TradeState, closed: Book, fills: seq<Fill>, quantity: real, index: nat)
    requires run.Valid() && index < |run.bars| && Awaiting(run, s, index)
  {
    && closed.fills + [EntryAt(run, T1, quantity, index), EntryAt(run, T2, quantity, index)] <= fills
    && var distance := AbsReal(run.bars[index].open - s.pendingStop.value);
       && SkipFor(run.settings, distance, closed.equity, closed.ruined).None?
       && SizeEntry(run.settings.config, distance, run.settings.spec, closed.equity, run.settings.rate).quantity == Some(quantity)
  }

  /** The open: exits first, then the plan decides between entering and giving up. */
  lemma OpenSettles(run: Run, sim: Sim, index: nat)
    requires run.Valid() && index < |run.bars| && Coupled(run, sim, index) && OpenPhase(sim, index, run.bars[index], run.settings).Ok?
    ensures var mid := OpenPhase(sim, index, run.bars[index], run.settings).value;
            var closed := ClosedBook(sim, index, run.bars[index], run.settings.rate);
            && (mid.plan.entered == [] ==> mid.book == closed)
            && (!IsPending(sim.state) ==> mid.plan.skips == sim.skips && mid.plan.entered == [])
            && (IsPending(sim.state) && mid.plan.entered == [] ==>
                  && |mid.plan.skips| == |sim.skips| + 1 && mid.plan.skips[..|sim.skips|] == sim.skips
                  && GivenUp(run, sim.state, closed, mid.plan.skips[|sim.skips|], index))
            && (mid.plan.entered != [] ==>
                  && mid.plan.skips == sim.skips && Awaiting(run, sim.state, index) && mid.plan.quantity.Some?
                  && Filled(run, sim.state, closed, mid.book.fills, mid.plan.quantity.value, index))
  {
    hide FillCloses, TradesOk, CloseDue, Matches, Working, SizeEntry, SkipFor, OpensIn, EntriesMatch, BracketsMatch, OnlyExits;
    var bar, settings := run.bars[index], run.settings;
    ClosesPhase(run, sim, index);
    PendingAwaits(run, sim.state, index);
    var closed := ClosedBook(sim, index, bar, settings.rate);
    var plan := PlanEntry(sim.state, OpensIn(sim.queued), index, bar, closed, sim.skips, settings);
    if plan.entered != [] {
      EnteredPair(run, sim, index);
      PlanIsSized(sim.state, OpensIn(sim.queued), index, bar, closed, sim.skips, settings);
    }
  }

  /**
   * What becomes of an awaited entry at the next open. Either both tranches fill there, right after the
   * queued exits, with the size the account then allows; or exactly one record says why the entry was
   * given up, and nothing enters on that bar. Without an awaited entry nothing enters and nothing is
   * recorded.
   */
  lemma AwaitedEntryIsSettled(run: Run, n: nat) returns (quantity: Option<real>)
    requires run.Valid() && n < |run.bars|
    ensures run.At(n).Ok? && run.At(n + 1).Ok?
    ensures var before, after := run.At(n).value, run.At(n + 1).value;
            var closed := ClosedBook(before, n, run.bars[n], run.settings.rate);
            && OnlyExits(before.book, closed)
            && (quantity.Some? ==>
                  && Awaiting(run, before.state, n) && after.skips == before.skips
                  && Filled(run, before.state, closed, after.book.fills, quantity.value, n))
            && (quantity.None? ==> NoEntryAt(after.book.fills, n))
            && (quantity.None? && Awaiting(run, before.state, n) ==>
                  && |after.skips| == |before.skips| + 1 && after.skips[..|before.skips|] == before.skips
                  && GivenUp(run, before.state, closed, after.skips[|before.skips|], n))
            && (!Awaiting(run, before.state, n) ==> after.skips == before.skips)
  {
    hide BookOk, Coupled, OpenPhase, FillCloses, FireBrackets, OnBarClose, ConfirmEntry, Register, GivenUp, OnlyExits, Awaiting, Filled;
    RunsKeepBooks(run, n);
    RunsStayCoupled(run, n);
    RunsStayCoupled(run, n + 1);
    var before, after, bar, rate := run.At(n).value, run.At(n + 1).value, run.bars[n], run.settings.rate;
    var closed := ClosedBook(before, n, bar, rate);
    ClosesLogExits(before.queued, n, bar, rate, before.brackets, before.book);
    LoggedBefore(run, before.book, n);
    ExitsAddNoEntry(before.book, closed, n);
    OpenPhaseOk(run, before, n);
    StateOfCoupled(run, before, n);
    PendingAwaits(run, before.state, n);
    OpenSettles(run, before, n);
    var mid := OpenPhase(before, n, bar, run.settings).value;
    BracketsLogExits(mid.brackets, n, bar, rate, Standing(mid.brackets, mid.book, mid.state));
    assert OnlyExits(mid.book, after.book) && after.skips == mid.plan.skips;
    if mid.plan.entered == [] {
      quantity := None;
      ExitsAddNoEntry(closed, after.book, n);
    } else {
      quantity := mid.plan.quantity;
      FilledStays(run, before.state, closed, mid.book, after.book, quantity.value, n);
    }
  }

  lemma FilledStays(run: Run, s: TradeState, closed: Book, mid: Book, after: Book, quantity: real, index: nat)
    requires run.Valid() && index < |run.bars| && Awaiting(run, s, index)
    requires Filled(run, s, closed, mid.fills, quantity, index) && OnlyExits(mid, after)
    ensures Filled(run, s, closed, after.fills, quantity, index)
  {
    hide SizeEntry, SkipFor;
  }
}
