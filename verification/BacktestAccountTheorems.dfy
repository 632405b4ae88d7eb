// What the account promises over whole runs: exact figures, an alternating fill log, no entry
// after ruin, and losses bounded by the risk that was sized.

module BacktestAccountTheorems {
  import opened Algebra
  import opened Prelude
  import opened Market
  import opened Sizing
  import opened SizingTheorems
  import opened TradeManager
  import opened Backtest
  import opened BacktestInvariant
  import opened BacktestTheorems
  import opened BacktestAccount
  import opened BacktestAccountRuns

  /** The streaming figures equal their definitions over the finished list of trades. */
  lemma FiguresAreExact(run: Run, n: nat)
    requires run.Valid() && n <= |run.bars|
    ensures run.At(n).Ok? && FiguresExact(run, run.At(n).value.book)
  {
    RunsKeepBooks(run, n);
  }

  /** The kind of the latest fill of a role, if it has any. */
  function LastKind(fills: seq<Fill>, role: TrancheRole): Option<FillKind> {
    if fills == [] then None
    else if fills[|fills| - 1].role == role then Some(fills[|fills| - 1].kind)
    else LastKind(fills[..|fills| - 1], role)
  }

  predicate Alternates(fills: seq<Fill>) {
    forall p :: 0 <= p < |fills| ==> (fills[p].kind.Entry? <==> LastKind(fills[..p], fills[p].role) != Some(Entry))
  }

  /** A log that pairs up alternates, role by role, and its open entries are the roles whose last fill entered. */
  lemma {:induction false} PairedLogsAlternate(fills: seq<Fill>)
    requires PairUp(fills).Some?
    ensures Alternates(fills)
    ensures forall role :: role in PairUp(fills).value.entries <==> LastKind(fills, role) == Some(Entry)
  {
    if fills != [] {
      var before, last := fills[..|fills| - 1], fills[|fills| - 1];
      PairedLogsAlternate(before);
      forall p | 0 <= p < |fills|
        ensures fills[p].kind.Entry? <==> LastKind(fills[..p], fills[p].role) != Some(Entry)
      {
        if p < |before| {
          assert fills[..p] == before[..p] && fills[p] == before[p];
        } else {
          assert fills[..p] == before;
        }
      }
    }
  }

  /** Every trade's entry, and every open entry, stands in the log. */
  lemma {:induction false} PairedEntriesAreLogged(fills: seq<Fill>)
    requires PairUp(fills).Some?
    ensures var paired := PairUp(fills).value;
            && (forall role :: role in paired.entries ==>
                  && paired.entries[role] in fills && paired.entries[role].role == role
                  && paired.entries[role].kind.Entry? && paired.entries[role].reason.None?)
            && (forall i :: 0 <= i < |paired.trades| ==> EntryOf(paired.trades[i]) in fills)
  {
    if fills != [] {
      var before, last := fills[..|fills| - 1], fills[|fills| - 1];
      PairedEntriesAreLogged(before);
      assert fills == before + [last];
      var earlier, later := PairUp(before).value, PairUp(fills).value;
      if last.kind.Exit? {
        var entry := earlier.entries[last.role];
        assert EntryOf(TradeFor(entry, last.barIndex, last.role, last.price, last.reason.value)) == entry;
      }
    }
  }

  /**
   * The fill log of every run: each role alternates entry and exit; entries come as a T1 and T2 pair
   * of the same bar, side, price and quantity; the trades and the open entries are exactly what pairing
   * the log yields, each exit at its entry's quantity on a strictly later bar; and every fill price lies
   * within its bar.
   */
  lemma FillLogIsSound(run: Run, n: nat)
    requires run.Valid() && n <= |run.bars|
    ensures run.At(n).Ok?
    ensures var book := run.At(n).value.book;
            && Alternates(book.fills)
            && EntriesInPairs(book.fills)
            && PairUp(book.fills) == Some(Pairing(book.entries, book.trades))
            && FillsWithinBars(run, book.fills, n)
  {
    RunsKeepBooks(run, n);
    PairedLogsAlternate(run.At(n).value.book.fills);
  }

  /**
   * No entry ever follows ruin, not even within the bar: when an entry fills, the initial equity and
   * every equity realised by the exits logged before it are positive.
   */
  lemma NoEntryAfterRuin(run: Run, n: nat, p: nat, k: nat)
    requires run.Valid() && n <= |run.bars| && run.At(n).Ok?
    requires var fills := run.At(n).value.book.fills;
             p < |fills| && fills[p].kind.Entry? && k <= ExitCount(fills[..p])
    ensures var book := run.At(n).value.book;
            k <= |book.trades| && 0.0 < Realised(run, book.trades, k)
  {
    RunsKeepBooks(run, n);
    var book := run.At(n).value.book;
    assert EntryBacked(run, book.trades, book.fills[p], ExitCount(book.fills[..p]));
  }

  lemma StopCost(distance: real, lots: real, spec: SymbolSpec, rate: real)
    ensures Times(Times(-distance, Units(lots, spec)), rate) == -RiskAmount(lots, RiskPerLot(distance, spec, rate))
  {
    var size := spec.contractSize;
    TimesDifference(0.0, distance, Units(lots, spec));
    assert Times(0.0, Units(lots, spec)) == 0.0;
    TimesDifference(0.0, Times(distance, Units(lots, spec)), rate);
    assert Times(0.0, rate) == 0.0;
    assert Times(distance, Times(lots, size)) == Times(lots, Times(distance, size)) by {
      TimesAssociates(distance, lots, size);
      TimesAssociates(lots, distance, size);
      TimesCommutes(distance, lots);
    }
    TimesAssociates(lots, Times(distance, size), rate);
  }

  /** What passing the gate without confirmation means for an entry of the given size. */
  lemma UnconfirmedEntry(settings: Settings, distance: real, equity: real, quantity: real) returns (lots: real)
    requires settings.Valid() && settings.config.sizingMode.RiskPercent? && !settings.confirmOverBudget
    requires SkipFor(settings, distance, equity, false).None?
    requires SizeEntry(settings.config, distance, settings.spec, equity, settings.rate).quantity == Some(quantity)
    ensures 0.0 < equity && quantity == Units(lots, settings.spec)
    ensures SizeEntry(settings.config, distance, settings.spec, equity, settings.rate).riskAmount
            == Some(RiskAmount(lots, RiskPerLot(distance, settings.spec, settings.rate)))
    ensures RiskAmount(lots, RiskPerLot(distance, settings.spec, settings.rate)) <= Times(equity, settings.config.riskPct)
  {
    var outcome := SizeEntry(settings.config, distance, settings.spec, equity, settings.rate);
    assert outcome.lots.Some? && !outcome.requiresConfirmation && 0.0 < equity by { hide SizeEntry; }
    lots := outcome.lots.value;
    UnconfirmedSizeIsLargestAffordable(settings.config, distance, settings.spec, equity, settings.rate);
    TimesNonNegative(equity, settings.config.riskPct);
    hide SizeEntry;
  }

  /** The cost of a backed entry that is stopped out at its stop. */
  lemma BackedStopLoss(run: Run, trades: seq<Trade>, trade: Trade, exits: nat)
    requires run.Valid() && run.settings.config.sizingMode.RiskPercent? && !run.settings.confirmOverBudget
    requires EntryBacked(run, trades, EntryOf(trade), exits)
    requires trade.Points() == -StopDistance(run, trade)
    ensures var equity := Realised(run, trades, exits);
            var sized := SizeEntry(run.settings.config, StopDistance(run, trade), run.settings.spec, equity, run.settings.rate);
            && sized.riskAmount == Some(-trade.Profit(run.settings.rate))
            && -trade.Profit(run.settings.rate) <= Times(equity, run.settings.config.riskPct)
  {
    hide SizeEntry, SkipFor, SolventThrough, Realised;
    var equity, distance := Realised(run, trades, exits), StopDistance(run, trade);
    var lots := UnconfirmedEntry(run.settings, distance, equity, trade.quantity);
    StopCost(distance, lots, run.settings.spec, run.settings.rate);
  }

  /**
   * In risk-percent mode, when nobody confirms entries over budget, a stop-loss filled at its stop
   * costs exactly the risk that was sized for it, which is at most the configured fraction of the
   * equity realised when the position was entered.
   */
  lemma StopLossCostsTheSizedRisk(run: Run, n: nat, i: nat) returns (p: nat)
    requires run.Valid() && n <= |run.bars| && run.At(n).Ok? && i < |run.At(n).value.book.trades|
    requires run.settings.config.sizingMode.RiskPercent? && !run.settings.confirmOverBudget
    requires var trade := run.At(n).value.book.trades[i];
             trade.reason.StopLoss? && 1 <= trade.entryBarIndex && 0 <= trade.exitBarIndex < |run.bars|
             && trade.entryBarIndex <= |run.bars|
             && !OpensBeyond(trade.side, StopFor(run, EntryOf(trade)), run.bars[trade.exitBarIndex])
    ensures var book := run.At(n).value.book;
            var trade := book.trades[i];
            && p < |book.fills| && book.fills[p] == EntryOf(trade) && ExitCount(book.fills[..p]) <= |book.trades|
            && var equity := Realised(run, book.trades, ExitCount(book.fills[..p]));
               var sized := SizeEntry(run.settings.config, StopDistance(run, trade), run.settings.spec, equity, run.settings.rate);
               && sized.riskAmount == Some(-trade.Profit(run.settings.rate))
               && -trade.Profit(run.settings.rate) <= Times(equity, run.settings.config.riskPct)
  {
    hide FiguresExact, SizeEntry, EntryBacked, Coupled, RunTo, PairUp, EntriesInPairs, FillsWithinBars;
    RunsKeepBooks(run, n);
    TradeOutcomes(run, n, i);
    var book := run.At(n).value.book;
    PairedEntriesAreLogged(book.fills);
    p :| 0 <= p < |book.fills| && book.fills[p] == EntryOf(book.trades[i]);
    BackedBounds(run, book.trades, book.fills[p], ExitCount(book.fills[..p]));
    BackedStopLoss(run, book.trades, book.trades[i], ExitCount(book.fills[..p]));
  }

  lemma BackedBounds(run: Run, trades: seq<Trade>, entry: Fill, exits: nat)
    requires run.Valid() && EntryBacked(run, trades, entry, exits)
    ensures exits <= |trades|
  {
  }
}
