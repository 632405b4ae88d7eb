// The account side of a run: the streaming figures, the fill log, and the size of every entry,
// against definitions that look only at the finished logs.

module BacktestAccount {
  import opened Prelude
  import opened Market
  import opened Sizing
  import opened TradeManager
  import opened Backtest
  import opened BacktestInvariant

  // ---- Reference definitions -------------------------------------------------------------------------

  /** Equity after the first `k` trades: the initial equity plus their profits. */
  function Realised(run: Run, trades: seq<Trade>, k: nat): real
    requires k <= |trades|
  {
    if k == 0 then run.settings.initialEquity
    else Realised(run, trades, k - 1) + trades[k - 1].Profit(run.settings.rate)
  }

  /** `x` is the largest value of the realised curve. */
  ghost predicate IsPeak(run: Run, trades: seq<Trade>, x: real) {
    && (forall k :: 0 <= k <= |trades| ==> Realised(run, trades, k) <= x)
    && (exists k :: 0 <= k <= |trades| && Realised(run, trades, k) == x)
  }

  function Fall(run: Run, trades: seq<Trade>, i: nat, j: nat): real
    requires i <= j <= |trades|
  {
    Realised(run, trades, i) - Realised(run, trades, j)
  }

  /** `x` is the largest fall of the realised curve from an earlier to a later point. */
  ghost predicate IsMaxDrawdown(run: Run, trades: seq<Trade>, x: real) {
    && (forall i, j :: 0 <= i <= j <= |trades| ==> Fall(run, trades, i, j) <= x)
    && (exists i, j :: 0 <= i <= j <= |trades| && Fall(run, trades, i, j) == x)
  }

  ghost predicate EverRuined(run: Run, trades: seq<Trade>) {
    exists k :: 1 <= k <= |trades| && Realised(run, trades, k) <= 0.0
  }

  ghost predicate FiguresExact(run: Run, book: Book) {
    && book.equity == Realised(run, book.trades, |book.trades|)
    && IsPeak(run, book.trades, book.peakEquity)
    && IsMaxDrawdown(run, book.trades, book.maxDrawdown)
    && (book.ruined <==> EverRuined(run, book.trades))
  }

  /** What a fill log amounts to: the entries still open and the finished trades. */
  datatype Pairing = Pairing(entries: map<TrancheRole, Fill>, trades: seq<Trade>)

  function PairNext(before: Pairing, fill: Fill): Option<Pairing> {
    if fill.kind.Entry? then
      if fill.role in before.entries || fill.reason.Some? then None
      else Some(before.(entries := before.entries[fill.role := fill]))
    else if fill.role !in before.entries || fill.reason.None? then None
    else
      var entry := before.entries[fill.role];
      if entry.barIndex < fill.barIndex && fill.side == entry.side && fill.quantity == entry.quantity then
        Some(Pairing(before.entries - {fill.role},
                     before.trades + [TradeFor(entry, fill.barIndex, fill.role, fill.price, fill.reason.value)]))
      else None
  }

  /**
   * Pairs each exit with the open entry of its role. A log pairs up only if every role alternates
   * entry and exit, and every exit has its entry's side and quantity on a strictly later bar.
   */
  function PairUp(fills: seq<Fill>): Option<Pairing> {
    if fills == [] then Some(Pairing(map[], []))
    else
      var before := PairUp(fills[..|fills| - 1]);
      if before.None? then None else PairNext(before.value, fills[|fills| - 1])
  }

  function ExitCount(fills: seq<Fill>): nat {
    if fills == [] then 0
    else ExitCount(fills[..|fills| - 1]) + if fills[|fills| - 1].kind.Exit? then 1 else 0
  }

  predicate PairedAt(fills: seq<Fill>, p: int) {
    0 <= p < |fills| &&
    if fills[p].role.T1? then p + 1 < |fills| && fills[p + 1] == fills[p].(role := T2)
    else 0 < p && fills[p - 1] == fills[p].(role := T1)
  }

  /** T1 and T2 enter together: same bar, side, price and quantity, next to each other in the log. */
  predicate EntriesInPairs(fills: seq<Fill>) {
    forall p :: 0 <= p < |fills| && fills[p].kind.Entry? ==> PairedAt(fills, p)
  }

  predicate FillsWithinBars(run: Run, fills: seq<Fill>, n: int) {
    forall p :: 0 <= p < |fills| ==>
      && 0 <= fills[p].barIndex < n && fills[p].barIndex < |run.bars|
      && run.bars[fills[p].barIndex].low <= fills[p].price <= run.bars[fills[p].barIndex].high
  }

  predicate SolventThrough(run: Run, trades: seq<Trade>, c: int) {
    forall k :: 0 <= k <= c && k <= |trades| ==> 0.0 < Realised(run, trades, k)
  }

  /** An entry is sized from the equity realised by then, with a solvent account and an answered gate. */
  predicate EntryBacked(run: Run, trades: seq<Trade>, entry: Fill, exits: nat)
    requires run.Valid()
  {
    && exits <= |trades| && SolventThrough(run, trades, exits)
    && EntryFrom(run, entry, |run.bars|)
    && var distance := AbsReal(entry.price - StopFor(run, entry));
       var equity := Realised(run, trades, exits);
       && SkipFor(run.settings, distance, equity, false).None?
       && SizeEntry(run.settings.config, distance, run.settings.spec, equity, run.settings.rate).quantity
          == Some(entry.quantity)
  }

  predicate EntriesBacked(run: Run, fills: seq<Fill>, trades: seq<Trade>)
    requires run.Valid()
  {
    forall p :: 0 <= p < |fills| && fills[p].kind.Entry? ==> EntryBacked(run, trades, fills[p], ExitCount(fills[..p]))
  }

  ghost predicate BookOk(run: Run, book: Book, n: int)
    requires run.Valid()
  {
    && FiguresExact(run, book)
    && PairUp(book.fills) == Some(Pairing(book.entries, book.trades))
    && EntriesInPairs(book.fills)
    && FillsWithinBars(run, book.fills, n)
    && EntriesBacked(run, book.fills, book.trades)
    && (book.fills != [] ==> 0.0 < run.settings.initialEquity)
  }

  // ---- Appending a trade -----------------------------------------------------------------------------

  lemma {:induction false} RealisedPrefix(run: Run, trades: seq<Trade>, trade: Trade, k: nat)
    requires k <= |trades|
    ensures Realised(run, trades + [trade], k) == Realised(run, trades, k)
  {
    if 0 < k {
      RealisedPrefix(run, trades, trade, k - 1);
    }
  }

  lemma RealisedAppend(run: Run, trades: seq<Trade>, trade: Trade)
    ensures forall k :: 0 <= k <= |trades| ==> Realised(run, trades + [trade], k) == Realised(run, trades, k)
    ensures Realised(run, trades + [trade], |trades| + 1)
            == Realised(run, trades, |trades|) + trade.Profit(run.settings.rate)
  {
    forall k | 0 <= k <= |trades|
      ensures Realised(run, trades + [trade], k) == Realised(run, trades, k)
    {
      RealisedPrefix(run, trades, trade, k);
    }
  }

  lemma PeakAppend(run: Run, trades: seq<Trade>, trade: Trade, peak: real)
    requires IsPeak(run, trades, peak)
    ensures var all := trades + [trade];
            IsPeak(run, all, MaxReal(peak, Realised(run, all, |all|)))
  {
    var all := trades + [trade];
    RealisedAppend(run, trades, trade);
    var k :| 0 <= k <= |trades| && Realised(run, trades, k) == peak;
    assert Realised(run, all, k) == peak;
  }

  lemma DrawdownAppend(run: Run, trades: seq<Trade>, trade: Trade, peak: real, drawdown: real)
    requires IsPeak(run, trades + [trade], peak) && IsMaxDrawdown(run, trades, drawdown)
    ensures var all := trades + [trade];
            IsMaxDrawdown(run, all, MaxReal(drawdown, peak - Realised(run, all, |all|)))
  {
    var all := trades + [trade];
    var last := |all|;
    var worst := MaxReal(drawdown, peak - Realised(run, all, last));
    RealisedAppend(run, trades, trade);
    forall i, j | 0 <= i <= j <= last
      ensures Fall(run, all, i, j) <= worst
    {
      if j <= |trades| {
        assert Fall(run, all, i, j) == Fall(run, trades, i, j);
      }
    }
    var i, j :| 0 <= i <= j <= |trades| && Fall(run, trades, i, j) == drawdown;
    assert Fall(run, all, i, j) == drawdown;
    var top :| 0 <= top <= last && Realised(run, all, top) == peak;
    assert Fall(run, all, top, last) == peak - Realised(run, all, last);
  }

  lemma RuinAppend(run: Run, trades: seq<Trade>, trade: Trade)
    ensures var all := trades + [trade];
            EverRuined(run, all) <==> EverRuined(run, trades) || Realised(run, all, |all|) <= 0.0
  {
    var all := trades + [trade];
    RealisedAppend(run, trades, trade);
    if EverRuined(run, trades) {
      var k :| 1 <= k <= |trades| && Realised(run, trades, k) <= 0.0;
      assert Realised(run, all, k) <= 0.0;
    }
    if EverRuined(run, all) {
      var k :| 1 <= k <= |all| && Realised(run, all, k) <= 0.0;
      assert k <= |trades| ==> Realised(run, trades, k) <= 0.0;
    }
  }

  lemma BackedAppend(run: Run, trades: seq<Trade>, trade: Trade, entry: Fill, exits: nat)
    requires run.Valid() && EntryBacked(run, trades, entry, exits)
    ensures EntryBacked(run, trades + [trade], entry, exits)
  {
    hide EntryFrom, SkipFor, SizeEntry;
    RealisedAppend(run, trades, trade);
  }

  lemma EntriesBackedAppend(run: Run, fills: seq<Fill>, trades: seq<Trade>, fill: Fill, trade: Trade)
    requires run.Valid() && EntriesBacked(run, fills, trades) && fill.kind.Exit?
    ensures EntriesBacked(run, fills + [fill], trades + [trade])
  {
    hide EntryBacked;
    var more := fills + [fill];
    forall p | 0 <= p < |more| && more[p].kind.Entry?
      ensures EntryBacked(run, trades + [trade], more[p], ExitCount(more[..p]))
    {
      assert more[..p] == fills[..p];
      BackedAppend(run, trades, trade, fills[p], ExitCount(fills[..p]));
    }
  }

  /** Recording the exit of an open entry on a later bar, inside that bar, keeps the whole account. */
  lemma ExitKeepsBook(run: Run, book: Book, index: nat, role: TrancheRole, price: real, reason: CloseReason)
    requires run.Valid() && index < |run.bars| && BookOk(run, book, index + 1)
    requires role in book.entries && book.entries[role].barIndex < index
    requires run.bars[index].low <= price <= run.bars[index].high
    ensures BookOk(run, RecordExit(book, run.settings.rate, index, role, price, reason), index + 1)
  {
    hide EntriesBacked, IsPeak, IsMaxDrawdown, EverRuined, Realised;
    var entry := book.entries[role];
    var trade := TradeFor(entry, index, role, price, reason);
    var fill := Fill(index, Exit, role, entry.side, price, entry.quantity, Some(reason));
    var fills := book.fills + [fill];
    assert fills[..|fills| - 1] == book.fills;
    assert PairUp(fills) == PairNext(Pairing(book.entries, book.trades), fill);
    RealisedAppend(run, book.trades, trade);
    PeakAppend(run, book.trades, trade, book.peakEquity);
    var equity := book.equity + trade.Profit(run.settings.rate);
    DrawdownAppend(run, book.trades, trade, MaxReal(book.peakEquity, equity), book.maxDrawdown);
    RuinAppend(run, book.trades, trade);
    EntriesBackedAppend(run, book.fills, book.trades, fill, trade);
    var after := RecordExit(book, run.settings.rate, index, role, price, reason);
    assert after.fills == fills && after.trades == book.trades + [trade];
    assert FiguresExact(run, after);
    assert PairUp(fills) == Some(Pairing(after.entries, after.trades));
    ExitKeepsPairs(book.fills, fill);
  }

  lemma ExitKeepsPairs(fills: seq<Fill>, exit: Fill)
    requires EntriesInPairs(fills) && exit.kind.Exit?
    ensures EntriesInPairs(fills + [exit])
  {
    var more := fills + [exit];
    forall p | 0 <= p < |more| && more[p].kind.Entry?
      ensures PairedAt(more, p)
    {
      assert more[p] == fills[p];
      assert PairedAt(fills, p);
    }
  }
}
