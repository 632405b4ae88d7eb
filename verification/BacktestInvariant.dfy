// The coupling between the trade state, the bracket dictionary, the order queue and the open
// entries that the simulator relies on at the end of every bar, and what it says of each trade.

module BacktestInvariant {
  import opened Prelude
  import opened Market
  import opened TradeManager
  import opened TradeManagerPairs
  import opened Backtest

  /** The data of one run: bars, the signal of each bar, and the settings. */
  datatype Run = Run(bars: seq<Bar>, signals: seq<BarSignal>, settings: Settings) {
    predicate Valid() {
      ValidBars(bars) && |bars| == |signals| && Numbered(signals) && settings.Valid()
    }

    function At(n: nat): Outcome<Sim, BacktestError>
      requires Valid() && n <= |bars|
    {
      RunTo(bars, signals, settings, n)
    }
  }

  // ---- Entries and trades, read off the bars and signals alone -------------------------------------

  /** The entry fills at the open of a bar whose predecessor fired for that side, with a stop level. */
  predicate EntryFrom(run: Run, entry: Fill, n: int)
    requires run.Valid()
  {
    && entry.kind.Entry? && entry.reason.None?
    && 1 <= entry.barIndex < n && entry.barIndex < |run.bars|
    && entry.price == run.bars[entry.barIndex].open
    && SideOf(run.signals[entry.barIndex - 1]) == Some(entry.side)
    && StopOf(run.signals[entry.barIndex - 1]).Some?
  }

  function StopFor(run: Run, entry: Fill): real
    requires run.Valid() && 1 <= entry.barIndex <= |run.bars|
  {
    var stop := StopOf(run.signals[entry.barIndex - 1]);
    if stop.Some? then stop.value else 0.0
  }

  predicate Gapped(run: Run, entry: Fill)
    requires run.Valid() && 1 <= entry.barIndex <= |run.bars|
  {
    EntryGapped(entry.price, Some(run.bars[entry.barIndex - 1].close), run.settings.config)
  }

  predicate StopHit(side: OrderSide, level: real, bar: Bar) {
    if side.Buy? then bar.low <= level else bar.high >= level
  }

  /** A stop fills at its level, or at the open when the open is already beyond it. */
  function StopFill(side: OrderSide, level: real, bar: Bar): real {
    if side.Buy? then MinReal(bar.open, level) else MaxReal(bar.open, level)
  }

  /** A target fills at its level, or at the open when the open is already better. */
  function TargetFill(side: OrderSide, level: real, bar: Bar): real {
    if side.Buy? then MaxReal(bar.open, level) else MinReal(bar.open, level)
  }

  function EntryOf(trade: Trade): Fill {
    Fill(trade.entryBarIndex, Entry, trade.role, trade.side, trade.entryPrice, trade.quantity, None)
  }

  /** Why and at what price a position may leave at bar `index`. */
  predicate ExitJustified(run: Run, entry: Fill, index: int, price: real, reason: CloseReason)
    requires run.Valid() && EntryFrom(run, entry, index) && index < |run.bars|
  {
    var bar, before := run.bars[index], run.signals[index - 1];
    var side, stop, config := entry.side, StopFor(run, entry), run.settings.config;
    var target := Target(side, entry.price, stop, config.rrMult);
    match reason
    case StopLoss =>
      && 0.0 < Risk(side, entry.price, stop)
      && StopHit(side, stop, bar) && price == StopFill(side, stop, bar)
    case TakeProfit =>
      && 0.0 < Risk(side, entry.price, stop) && entry.role == T1
      && !StopHit(side, stop, bar) && Touched(side, target, bar) && price == TargetFill(side, target, bar)
    case BreakevenStop =>
      && 0.0 < Risk(side, entry.price, stop) && entry.role == T2
      && StopHit(side, entry.price, bar) && price == StopFill(side, entry.price, bar)
    case HullFlip =>
      entry.role == T2 && config.useHullExit && FlipsAgainst(before, side) && price == bar.open
    case Reversal =>
      SideOf(before) == Some(Opposite(side)) && price == bar.open
    case InvalidRisk =>
      && index == entry.barIndex + 1 && Risk(side, entry.price, stop) <= 0.0 && !Gapped(run, entry)
      && price == bar.open
    case EntryGap =>
      index == entry.barIndex + 1 && Gapped(run, entry) && price == bar.open
  }

  predicate TradeOk(run: Run, trade: Trade, n: int)
    requires run.Valid()
  {
    && EntryFrom(run, EntryOf(trade), trade.exitBarIndex)
    && trade.exitBarIndex < n && trade.exitBarIndex < |run.bars|
    && ExitJustified(run, EntryOf(trade), trade.exitBarIndex, trade.exitPrice, trade.reason)
  }

  predicate TradesOk(run: Run, trades: seq<Trade>, n: int)
    requires run.Valid()
  {
    forall i :: 0 <= i < |trades| ==> TradeOk(run, trades[i], n)
  }

  // ---- The trade state -----------------------------------------------------------------------------

  predicate IsOpen(s: TradeState, role: TrancheRole) {
    IsPair(s.tranches) && s.tranches[if role.T1? then 0 else 1].status.Open?
  }

  /** A tranche filled from `entry`, with its levels. */
  predicate FilledFrom(run: Run, t: Tranche, entry: Fill)
    requires run.Valid() && 1 <= entry.barIndex <= |run.bars|
  {
    var stop := StopFor(run, entry);
    && (t.status.Open? || t.status.Closed?)
    && t.role == entry.role && t.side == entry.side
    && t.quantity == Some(entry.quantity) && t.entryPrice == Some(entry.price) && t.entryBarIndex == Some(entry.barIndex)
    && t.stopLoss == Some(if t.breakevenMoved then entry.price else stop)
    && t.takeProfit == (if t.role.T1? then Some(Target(entry.side, entry.price, stop, run.settings.config.rrMult)) else None)
    && (t.breakevenMoved ==> t.role.T2?)
  }

  /** The entry fill a filled tranche stands for. */
  function PositionFill(t: Tranche): Fill
    requires t.entryBarIndex.Some? && t.entryPrice.Some? && t.quantity.Some?
  {
    Fill(t.entryBarIndex.value, Entry, t.role, t.side, t.entryPrice.value, t.quantity.value, None)
  }

  predicate HasPosition(t: Tranche) {
    t.entryBarIndex.Some? && t.entryPrice.Some? && t.quantity.Some?
  }

  /** Both tranches come from one entry: same bar, side, price and quantity, at positive risk. */
  predicate Working(run: Run, s: TradeState, n: int)
    requires run.Valid()
  {
    && IsPair(s.tranches) && HasPosition(s.tranches[0])
    && var entry := PositionFill(s.tranches[0]);
       && EntryFrom(run, entry, n)
       && 0.0 < Risk(entry.side, entry.price, StopFor(run, entry))
       && s.side == Some(entry.side) && s.pendingStop == Some(StopFor(run, entry))
       && FilledFrom(run, s.tranches[0], entry)
       && FilledFrom(run, s.tranches[1], entry.(role := T2))
  }

  /** A signal fired on the bar just closed and waits for the next open. */
  predicate Awaiting(run: Run, s: TradeState, n: int)
    requires run.Valid() && n <= |run.bars|
  {
    && 1 <= n && SideOf(run.signals[n - 1]).Some? && StopOf(run.signals[n - 1]).Some?
    && s == PendingState(SideOf(run.signals[n - 1]).value, StopOf(run.signals[n - 1]).value, run.bars[n - 1].close)
  }

  predicate StateOk(run: Run, s: TradeState, n: int)
    requires run.Valid() && n <= |run.bars|
  {
    s == EMPTY_STATE || Awaiting(run, s, n) || Working(run, s, n)
  }

  /** The runner's stop is at break-even exactly when T1 is closed. */
  predicate BreakevenCoupled(s: TradeState) {
    IsOpen(s, T2) ==> (s.tranches[1].breakevenMoved <==> s.tranches[0].status.Closed?)
  }

  predicate FollowsLastSignal(run: Run, s: TradeState, n: nat)
    requires run.Valid() && n <= |run.bars|
  {
    LiveTranches(s.tranches) != [] ==> LastFired(run.signals, n) == s.side
  }

  // ---- Brackets, queue and open entries ------------------------------------------------------------

  predicate Matches(bracket: Bracket, t: Tranche, n: int) {
    && bracket.role == t.role && bracket.side == t.side
    && t.quantity == Some(bracket.quantity) && t.stopLoss == Some(bracket.stopLoss)
    && bracket.takeProfit == t.takeProfit && bracket.breakeven == t.breakevenMoved
    && bracket.activeFrom <= n
  }

  /** One active bracket per open tranche, T1 first, with the tranche's own levels. */
  predicate BracketsMatch(s: TradeState, brackets: seq<Bracket>, n: int) {
    if IsOpen(s, T1) && IsOpen(s, T2) then
      |brackets| == 2 && Matches(brackets[0], s.tranches[0], n) && Matches(brackets[1], s.tranches[1], n)
    else if IsOpen(s, T1) then |brackets| == 1 && Matches(brackets[0], s.tranches[0], n)
    else if IsOpen(s, T2) then |brackets| == 1 && Matches(brackets[0], s.tranches[1], n)
    else brackets == []
  }

  predicate IsPending(s: TradeState) {
    IsPair(s.tranches) && s.tranches[0].status.PendingEntry?
  }

  /** The entry orders that must be queued: one per pending tranche, and nothing else. */
  function DueOpens(s: TradeState): seq<TradeAction> {
    if IsPending(s) && s.side.Some? then [OpenAction(T1, s.side.value), OpenAction(T2, s.side.value)] else []
  }

  predicate Closing(closes: seq<TradeAction>, role: TrancheRole) {
    exists i :: 0 <= i < |closes| && closes[i].role == role
  }

  predicate ClosesOk(closes: seq<TradeAction>) {
    && (forall i :: 0 <= i < |closes| ==> closes[i].kind.CloseMarket? && closes[i].reason.Some?)
    && (forall i, j :: 0 <= i < j < |closes| ==> closes[i].role != closes[j].role)
  }

  /** The exit orders at the head of the queue. */
  function QueuedCloses(sim: Sim): seq<TradeAction> {
    if |DueOpens(sim.state)| <= |sim.queued| then sim.queued[..|sim.queued| - |DueOpens(sim.state)|] else []
  }

  predicate QueueOk(sim: Sim) {
    sim.queued == QueuedCloses(sim) + DueOpens(sim.state) && ClosesOk(QueuedCloses(sim))
  }

  /** The reasons for which the script itself sends a market exit. */
  predicate MarketReason(reason: CloseReason) {
    reason.HullFlip? || reason.Reversal? || reason.InvalidRisk? || reason.EntryGap?
  }

  /** Each queued exit owns an open entry that it may lawfully close at the next open. */
  predicate CloseDue(run: Run, close: TradeAction, entries: map<TrancheRole, Fill>, n: int)
    requires run.Valid() && n <= |run.bars|
  {
    && close.reason.Some? && MarketReason(close.reason.value) && close.role in entries && entries[close.role].role == close.role
    && EntryFrom(run, entries[close.role], n)
    && (n < |run.bars| ==>
          ExitJustified(run, entries[close.role], n, run.bars[n].open, close.reason.value))
  }

  /** An open entry exists exactly for an open tranche or a queued exit, never for both. */
  predicate EntriesMatch(run: Run, s: TradeState, closes: seq<TradeAction>, entries: map<TrancheRole, Fill>, n: int)
    requires run.Valid() && n <= |run.bars|
  {
    && (forall role :: role in entries <==> IsOpen(s, role) || Closing(closes, role))
    && (forall role :: !(IsOpen(s, role) && Closing(closes, role)))
    && OpenEntriesMatch(s, entries)
    && (forall i :: 0 <= i < |closes| ==> CloseDue(run, closes[i], entries, n))
  }

  predicate OpenEntriesMatch(s: TradeState, entries: map<TrancheRole, Fill>) {
    forall role :: IsOpen(s, role) ==>
      var t := s.tranches[if role.T1? then 0 else 1];
      HasPosition(t) && role in entries && entries[role] == PositionFill(t)
  }

  predicate NoTargetAt(trades: seq<Trade>, index: int) {
    forall i :: 0 <= i < |trades| && trades[i].exitBarIndex == index ==> !trades[i].reason.TakeProfit?
  }

  /** A bar on which T1 took its profit does not end with T1 open. */
  predicate TargetsTaken(s: TradeState, trades: seq<Trade>, index: int) {
    IsOpen(s, T1) ==> NoTargetAt(trades, index)
  }

  /** What holds of the simulator after the first `n` bars. */
  predicate Coupled(run: Run, sim: Sim, n: nat)
    requires run.Valid() && n <= |run.bars|
  {
    && StateOk(run, sim.state, n)
    && BreakevenCoupled(sim.state)
    && FollowsLastSignal(run, sim.state, n)
    && QueueOk(sim)
    && BracketsMatch(sim.state, sim.brackets, n)
    && EntriesMatch(run, sim.state, QueuedCloses(sim), sim.book.entries, n)
    && TradesOk(run, sim.book.trades, n)
    && TargetsTaken(sim.state, sim.book.trades, n - 1)
  }
}
