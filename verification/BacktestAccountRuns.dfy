// The account stays exact through every phase of every bar, hence over whole runs.

module BacktestAccountRuns {
  import opened Prelude
  import opened Market
  import opened Sizing
  import opened TradeManager
  import opened Backtest
  import opened BacktestInvariant
  import opened BacktestSteps
  import opened BacktestScript
  import opened BacktestAccount

  // ---- Entries ---------------------------------------------------------------------------------------

  lemma {:induction false} PairingCountsExits(fills: seq<Fill>)
    requires PairUp(fills).Some?
    ensures |PairUp(fills).value.trades| == ExitCount(fills)
  {
    if fills != [] {
      PairingCountsExits(fills[..|fills| - 1]);
    }
  }

  lemma NewEntryPairsUp(fills: seq<Fill>, before: Pairing, fill: Fill)
    requires PairUp(fills) == Some(before)
    requires fill.kind.Entry? && fill.reason.None? && fill.role !in before.entries
    ensures PairUp(fills + [fill]) == Some(before.(entries := before.entries[fill.role := fill]))
    ensures ExitCount(fills + [fill]) == ExitCount(fills)
  {
    var more := fills + [fill];
    assert more[..|more| - 1] == fills && more[|more| - 1] == fill;
  }

  lemma SolventNow(run: Run, book: Book)
    requires FiguresExact(run, book) && 0.0 < book.equity && !book.ruined
    requires book.trades != [] ==> 0.0 < run.settings.initialEquity
    ensures SolventThrough(run, book.trades, |book.trades|)
  {
    forall k | 0 <= k <= |book.trades|
      ensures 0.0 < Realised(run, book.trades, k)
    {
      if k == 0 {
        assert Realised(run, book.trades, 0) == run.settings.initialEquity;
      }
    }
  }

  lemma PairKeepsPairs(fills: seq<Fill>, first: Fill, second: Fill)
    requires EntriesInPairs(fills) && first.role.T1? && second == first.(role := T2)
    ensures EntriesInPairs(fills + [first] + [second])
  {
    var more := fills + [first] + [second];
    forall p | 0 <= p < |more| && more[p].kind.Entry?
      ensures PairedAt(more, p)
    {
      if p < |fills| {
        assert more[p] == fills[p] && PairedAt(fills, p);
      }
    }
  }

  lemma PairKeepsBacking(run: Run, fills: seq<Fill>, trades: seq<Trade>, first: Fill, second: Fill)
    requires run.Valid() && EntriesBacked(run, fills, trades) && first.kind.Entry? && second.kind.Entry?
    requires EntryBacked(run, trades, first, ExitCount(fills)) && EntryBacked(run, trades, second, ExitCount(fills + [first]))
    ensures EntriesBacked(run, fills + [first] + [second], trades)
  {
    hide EntryBacked;
    var more := fills + [first] + [second];
    forall p | 0 <= p < |more| && more[p].kind.Entry?
      ensures EntryBacked(run, trades, more[p], ExitCount(more[..p]))
    {
      if p < |fills| { assert more[..p] == fills[..p]; }
      else if p == |fills| { assert more[..p] == fills; }
      else { assert more[..p] == fills + [first]; }
    }
  }

  /** Entering a sized pair on a solvent account keeps the whole account. */
  lemma EntryKeepsBook(run: Run, book: Book, first: Fill, second: Fill, index: nat)
    requires run.Valid() && index < |run.bars| && BookOk(run, book, index + 1) && book.entries == map[]
    requires first.role.T1? && second == first.(role := T2) && first.barIndex == index
    requires EntryFrom(run, first, index + 1)
    requires var distance := AbsReal(first.price - StopFor(run, first));
             && SkipFor(run.settings, distance, book.equity, book.ruined).None?
             && SizeEntry(run.settings.config, distance, run.settings.spec, book.equity, run.settings.rate).quantity
                == Some(first.quantity)
    ensures BookOk(run, AddEntry(AddEntry(book, first), second), index + 1)
  {
    hide SizeEntry, SkipFor, FiguresExact, EntriesBacked, EntryBacked, PairUp, EntriesInPairs, ExitCount;
    var before := Pairing(book.entries, book.trades);
    NewEntryPairsUp(book.fills, before, first);
    NewEntryPairsUp(book.fills + [first], before.(entries := map[T1 := first]), second);
    PairingCountsExits(book.fills);
    BackedNow(run, book, first, index);
    BackedNow(run, book, second, index);
    PairKeepsPairs(book.fills, first, second);
    PairKeepsBacking(run, book.fills, book.trades, first, second);
    SameFigures(run, book, AddEntry(AddEntry(book, first), second));
  }

  /** An entry that passes the gate now is backed by every trade recorded so far. */
  lemma BackedNow(run: Run, book: Book, entry: Fill, index: nat)
    requires run.Valid() && index < |run.bars| && BookOk(run, book, index + 1)
    requires EntryFrom(run, entry, index + 1)
    requires var distance := AbsReal(entry.price - StopFor(run, entry));
             && SkipFor(run.settings, distance, book.equity, book.ruined).None?
             && SizeEntry(run.settings.config, distance, run.settings.spec, book.equity, run.settings.rate).quantity
                == Some(entry.quantity)
    ensures EntryBacked(run, book.trades, entry, |book.trades|)
    ensures 0.0 < run.settings.initialEquity
  {
    hide SizeEntry, IsPeak, IsMaxDrawdown, EverRuined, Realised, EntriesBacked;
    PairingCountsExits(book.fills);
    assert 0.0 < book.equity && !book.ruined;
    assert book.trades != [] ==> book.fills != [];
    if book.trades == [] { RealisedStart(run); }
    SolventNow(run, book);
  }

  lemma SameFigures(run: Run, before: Book, after: Book)
    requires FiguresExact(run, before)
    requires after.trades == before.trades && after.equity == before.equity && after.peakEquity == before.peakEquity
    requires after.maxDrawdown == before.maxDrawdown && after.ruined == before.ruined
    ensures FiguresExact(run, after)
  {
    hide IsPeak, IsMaxDrawdown, EverRuined;
  }

  lemma RealisedStart(run: Run)
    ensures Realised(run, [], 0) == run.settings.initialEquity
  {
  }

  // ---- Exits -----------------------------------------------------------------------------------------

  lemma DueCloseKeepsBook(run: Run, close: TradeAction, book: Book, index: nat)
    requires run.Valid() && index < |run.bars| && BookOk(run, book, index + 1)
    requires CloseDue(run, close, book.entries, index)
    ensures BookOk(run, RecordExit(book, run.settings.rate, index, close.role, run.bars[index].open, ReasonOf(close)), index + 1)
  {
    hide BookOk, RecordExit;
    ExitKeepsBook(run, book, index, close.role, run.bars[index].open, ReasonOf(close));
  }

  lemma {:induction false} ClosesKeepBook(run: Run, closes: seq<TradeAction>, brackets: seq<Bracket>, book: Book, index: nat)
    requires run.Valid() && index < |run.bars| && ClosesOk(closes) && BookOk(run, book, index + 1)
    requires forall i :: 0 <= i < |closes| ==> CloseDue(run, closes[i], book.entries, index)
    ensures BookOk(run, FillCloses(closes, index, run.bars[index], run.settings.rate, brackets, book).1, index + 1)
  {
    hide BookOk, CloseDue;
    if closes != [] {
      var close, rest := closes[0], closes[1..];
      DueCloseKeepsBook(run, close, book, index);
      var next := RecordExit(book, run.settings.rate, index, close.role, run.bars[index].open, ReasonOf(close));
      forall i | 0 <= i < |rest|
        ensures CloseDue(run, rest[i], next.entries, index)
      {
        assert rest[i] == closes[i + 1];
        StillDue(run, close.role, rest[i], book.entries, index);
      }
      ClosesKeepBook(run, rest, PopBracket(brackets, close.role), next, index);
    }
  }

  lemma StillDue(run: Run, gone: TrancheRole, close: TradeAction, entries: map<TrancheRole, Fill>, index: nat)
    requires run.Valid() && index < |run.bars| && CloseDue(run, close, entries, index) && close.role != gone
    ensures CloseDue(run, close, entries - {gone}, index) && CloseDue(run, close, entries, index)
  {
  }

  lemma QueueKeepsBook(run: Run, sim: Sim, index: nat)
    requires run.Valid() && index < |run.bars| && Coupled(run, sim, index) && BookOk(run, sim.book, index + 1)
    ensures BookOk(run, FillCloses(sim.queued, index, run.bars[index], run.settings.rate, sim.brackets, sim.book).1, index + 1)
  {
    hide BookOk, FillCloses, CloseDue, StateOk, TradesOk, BracketsMatch, OpenEntriesMatch, DueOpens, QueuedCloses, ClosesOk;
    var closes, opens := QueuedCloses(sim), DueOpens(sim.state);
    var bar, rate := run.bars[index], run.settings.rate;
    var (left, after) := FillCloses(closes, index, bar, rate, sim.brackets, sim.book);
    DueOpensFill(sim.state, index, bar, rate, left, after);
    FillClosesOfConcat(closes, opens, index, bar, rate, sim.brackets, sim.book);
    ClosesKeepBook(run, closes, sim.brackets, sim.book, index);
  }

  // ---- Phases ----------------------------------------------------------------------------------------

  /** When entries go in, they were sized against the account left by the queued exits. */
  lemma PlanIsSized(state: TradeState, entered: seq<TradeAction>, index: int, bar: Bar, book: Book, skips: seq<Skip>, settings: Settings)
    requires settings.Valid() && state.side.Some? && state.pendingStop.Some?
    requires PlanEntry(state, entered, index, bar, book, skips, settings).entered != []
    ensures var distance := AbsReal(bar.open - state.pendingStop.value);
            && SkipFor(settings, distance, book.equity, book.ruined).None?
            && PlanEntry(state, entered, index, bar, book, skips, settings).quantity
               == SizeEntry(settings.config, distance, settings.spec, book.equity, settings.rate).quantity
  {
    hide SizeEntry, SkipFor;
  }

  lemma EntryAtIsFromSignal(run: Run, s: TradeState, quantity: real, index: nat)
    requires run.Valid() && index < |run.bars| && Awaiting(run, s, index)
    ensures EntryFrom(run, EntryAt(run, T1, quantity, index), index + 1)
    ensures StopFor(run, EntryAt(run, T1, quantity, index)) == s.pendingStop.value
    ensures s.side.Some? && s.pendingStop.Some?
  {
  }

  lemma OpenPhaseKeepsBook(run: Run, sim: Sim, index: nat)
    requires run.Valid() && index < |run.bars| && Coupled(run, sim, index) && BookOk(run, sim.book, index + 1)
    ensures var mid := OpenPhase(sim, index, run.bars[index], run.settings);
            mid.Ok? && BookOk(run, mid.value.book, index + 1)
  {
    hide BookOk, FillCloses, Coupled, PlanEntry, TradesOk, EntriesMatch, EntryFrom, StopFor, SkipFor, SizeEntry, AddEntry,
         DueOpens, OpensIn;
    var bar, settings := run.bars[index], run.settings;
    OpenPhaseOk(run, sim, index);
    QueueKeepsBook(run, sim, index);
    var after := FillCloses(sim.queued, index, bar, settings.rate, sim.brackets, sim.book).1;
    var plan := PlanEntry(sim.state, OpensIn(sim.queued), index, bar, after, sim.skips, settings);
    if plan.entered != [] {
      var quantity := plan.quantity.value;
      EntryAtIsFromSignal(run, sim.state, quantity, index);
      PlanIsSized(sim.state, OpensIn(sim.queued), index, bar, after, sim.skips, settings);
      var first, second := EntryAt(run, T1, quantity, index), EntryAt(run, T2, quantity, index);
      EnteredPair(run, sim, index);
      EntryKeepsBook(run, after, first, second, index);
    }
  }

  /** The entries of a bar are exactly the T1 and T2 fills, on an account without open entries. */
  lemma EnteredPair(run: Run, sim: Sim, index: nat)
    requires run.Valid() && index < |run.bars| && Coupled(run, sim, index)
    requires OpenPhase(sim, index, run.bars[index], run.settings).Ok?
    requires OpenPhase(sim, index, run.bars[index], run.settings).value.plan.entered != []
    ensures Awaiting(run, sim.state, index)
    ensures var after := FillCloses(sim.queued, index, run.bars[index], run.settings.rate, sim.brackets, sim.book).1;
            var mid := OpenPhase(sim, index, run.bars[index], run.settings).value;
            && after.entries == map[] && mid.plan.quantity.Some?
            && mid.book == AddEntry(AddEntry(after, EntryAt(run, T1, mid.plan.quantity.value, index)),
                                    EntryAt(run, T2, mid.plan.quantity.value, index))
  {
    hide FillCloses, TradesOk, AddEntry, CloseDue, Matches, Working, SizeEntry, OpensIn;
    var bar, settings := run.bars[index], run.settings;
    OpenPhaseOk(run, sim, index);
    ClosesPhase(run, sim, index);
    var after := FillCloses(sim.queued, index, bar, settings.rate, sim.brackets, sim.book).1;
    var plan := PlanEntry(sim.state, OpensIn(sim.queued), index, bar, after, sim.skips, settings);
    PlannedQuantity(sim.state, OpensIn(sim.queued), index, bar, after, sim.skips, settings);
    FillPair(run, after, plan.quantity.value, index);
    assert forall role :: role !in after.entries;
  }

  lemma FireOneKeepsBook(run: Run, at: Standing, bracket: Bracket, index: nat)
    requires run.Valid() && index < |run.bars| && StandingOk(run, at, index) && BookOk(run, at.book, index + 1)
    requires IsOpen(at.state, bracket.role) && Matches(bracket, at.state.tranches[Slot(bracket.role)], index)
    ensures BookOk(run, FireOne(bracket, index, run.bars[index], run.settings.rate, at).book, index + 1)
  {
    hide BookOk, BracketExit, RecordExit, OnTrancheClosed, TradesOk;
    var hit := BracketExit(bracket, run.bars[index]);
    if hit.Some? {
      HitJustified(run, at.state, bracket, index);
      assert at.book.entries[bracket.role] == PositionFill(at.state.tranches[Slot(bracket.role)]);
      PriceOfHit(bracket, run.bars[index]);
      ExitKeepsBook(run, at.book, index, bracket.role, hit.value.0, hit.value.1);
    }
  }

  /** A bracket fills inside the bar. */
  lemma PriceOfHit(bracket: Bracket, bar: Bar)
    requires bar.Valid() && BracketExit(bracket, bar).Some?
    ensures bar.low <= BracketExit(bracket, bar).value.0 <= bar.high
  {
  }

  lemma BracketPhaseKeepsBook(run: Run, at: Standing, index: nat)
    requires run.Valid() && index < |run.bars| && StandingOk(run, at, index) && BookOk(run, at.book, index + 1)
    ensures BookOk(run, FireBrackets(at.brackets, index, run.bars[index], run.settings.rate, at).book, index + 1)
  {
    hide BookOk, FireOne, BracketExit, EntriesMatch, TradesOk, Working, FollowsLastSignal;
    var bar, rate := run.bars[index], run.settings.rate;
    if at.brackets != [] {
      var b1, rest := at.brackets[0], at.brackets[1..];
      FireOneOk(run, at, b1, index);
      FireOneKeepsBook(run, at, b1, index);
      var mid := FireOne(b1, index, bar, rate, at);
      if |at.brackets| == 2 {
        var b2 := at.brackets[1];
        assert rest == [b2] && rest[1..] == [];
        if mid != at { WorkingIsPair(run, mid.state, index); }
        assert IsOpen(mid.state, T2) && mid.state.tranches[1] == at.state.tranches[1];
        FireOneKeepsBook(run, mid, b2, index);
        assert FireBrackets(rest, index, bar, rate, mid) == FireBrackets([], index, bar, rate, FireOne(b2, index, bar, rate, mid));
      } else {
        assert rest == [];
      }
    }
  }

  lemma BookOkLater(run: Run, book: Book, n: int)
    requires run.Valid() && BookOk(run, book, n)
    ensures BookOk(run, book, n + 1)
  {
    hide FiguresExact, EntriesBacked, EntriesInPairs, PairUp;
  }

  lemma BarKeepsBook(run: Run, sim: Sim, index: nat)
    requires run.Valid() && index < |run.bars| && Coupled(run, sim, index) && BookOk(run, sim.book, index)
    ensures var next := BarStep(sim, index, run.bars[index], run.signals[index], run.settings);
            next.Ok? && BookOk(run, next.value.book, index + 1)
  {
    hide BookOk, OpenPhase, Coupled, FireBrackets, StandingOk, TradesOk, EntriesMatch, OnBarClose, Register, ConfirmEntry;
    BookOkLater(run, sim.book, index);
    OpenPhaseOk(run, sim, index);
    OpenPhaseKeepsBook(run, sim, index);
    BarStepOk(run, sim, index);
    var mid := OpenPhase(sim, index, run.bars[index], run.settings).value;
    var fired := BracketPhase(mid, index, run.bars[index], run.settings.rate);
    if mid.plan.entered == [] {
      var at := Standing(mid.brackets, mid.book, mid.state);
      StandingFrom(run, sim, at, index);
      BracketPhaseKeepsBook(run, at, index);
    } else {
      EntryBarOk(run, sim, mid, index);
    }
    assert BookOk(run, fired.book, index + 1);
  }

  lemma InitialBookOk(run: Run)
    requires run.Valid()
    ensures BookOk(run, InitialSim(run.settings).book, 0)
  {
    var initial := run.settings.initialEquity;
    assert Realised(run, [], 0) == initial;
    assert Fall(run, [], 0, 0) == 0.0;
  }

  /** After any number of bars of any run the account agrees with its reference definitions. */
  lemma {:induction false} RunsKeepBooks(run: Run, n: nat)
    requires run.Valid() && n <= |run.bars|
    ensures run.At(n).Ok? && BookOk(run, run.At(n).value.book, n)
  {
    hide BarStep, Coupled, BookOk;
    if n == 0 {
      InitialBookOk(run);
    } else {
      RunsKeepBooks(run, n - 1);
      RunsStayCoupled(run, n - 1);
      BarKeepsBook(run, run.At(n - 1).value, n - 1);
    }
  }
}
