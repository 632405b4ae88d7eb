// Consequences of the coupling that a trader would ask about: what a trade can gain or lose,
// how the runner is protected, and what one signal can do.

module BacktestTheorems {
  import opened Algebra
  import opened Prelude
  import opened Market
  import opened TradeManager
  import opened TradeManagerPairs
  import opened TradeManagerTheorems
  import opened EntryFillTheorems
  import opened Backtest
  import opened BacktestInvariant
  import opened BacktestSteps
  import opened BacktestScript

  function TrancheFor(s: TradeState, role: TrancheRole): Tranche
    requires IsPair(s.tranches)
  {
    s.tranches[if role.T1? then 0 else 1]
  }

  /** The bracket carries the tranche's own side, size and levels, and may fire on the coming bar. */
  predicate Mirrors(bracket: Bracket, t: Tranche, n: int) {
    && bracket.role == t.role && bracket.side == t.side && Some(bracket.quantity) == t.quantity
    && Some(bracket.stopLoss) == t.stopLoss && bracket.takeProfit == t.takeProfit && bracket.breakeven == t.breakevenMoved
    && bracket.activeFrom <= n
  }

  lemma ClosesOfQueue(closes: seq<TradeAction>, s: TradeState, role: TrancheRole)
    requires ClosesOk(closes)
    ensures ClosesRole(closes, role) <==> Closing(closes, role)
    ensures !ClosesRole(DueOpens(s), role)
  {
  }

  lemma QueueParts(sim: Sim, role: TrancheRole)
    requires QueueOk(sim)
    ensures ClosesRole(sim.queued, role) <==> Closing(QueuedCloses(sim), role)
    ensures OpensIn(sim.queued) == DueOpens(sim.state)
  {
    hide OpensIn, QueuedCloses, DueOpens, ClosesRole, Closing, ClosesOk;
    var closes, opens := QueuedCloses(sim), DueOpens(sim.state);
    ClosesRoleConcat(closes, opens, role);
    ClosesOfQueue(closes, sim.state, role);
    ClosesHoldNoOpens(closes);
    OpensOfConcat(closes, opens);
    DueOpensAreOpens(sim.state);
    assert [] + opens == opens;
  }

  /**
   * The coupling at the end of every bar, role by role. A bracket exists exactly for an open tranche and
   * carries its levels; an open entry exists exactly for an open tranche or a queued exit, never both;
   * entries are queued exactly when both tranches await entry, with a side and a stop, and then nothing
   * is open and no bracket stands.
   */
  lemma CouplingRoleByRole(run: Run, n: nat, role: TrancheRole)
    requires run.Valid() && n <= |run.bars|
    ensures run.At(n).Ok?
    ensures var sim := run.At(n).value;
            var s, bracket := sim.state, GetBracket(sim.brackets, role);
            && (bracket.Some? <==> IsOpen(s, role))
            && (IsOpen(s, role) ==> Mirrors(bracket.value, TrancheFor(s, role), n))
            && (role in sim.book.entries <==> IsOpen(s, role) || ClosesRole(sim.queued, role))
            && !(IsOpen(s, role) && ClosesRole(sim.queued, role))
            && (OpensIn(sim.queued) != [] <==> IsPending(s))
            && (IsPending(s) ==>
                  && s.side.Some? && s.pendingStop.Some? && sim.brackets == [] && !IsOpen(s, role)
                  && s.tranches[0].status.PendingEntry? && s.tranches[1].status.PendingEntry?
                  && OpensIn(sim.queued) == [OpenAction(T1, s.side.value), OpenAction(T2, s.side.value)])
  {
    hide RunTo, TradesOk;
    RunsStayCoupled(run, n);
    var sim := run.At(n).value;
    StateParts(run, sim.state, n);
    QueueParts(sim, role);
    BracketParts(sim.state, sim.brackets, n, role);
    hide StateOk, BracketsMatch, OpenEntriesMatch, Closing, ClosesRole;
  }

  lemma StateParts(run: Run, s: TradeState, n: nat)
    requires run.Valid() && n <= |run.bars| && StateOk(run, s, n)
    ensures IsPending(s) ==>
              && s.side.Some? && s.pendingStop.Some? && !IsOpen(s, T1) && !IsOpen(s, T2)
              && s.tranches[0].status.PendingEntry? && s.tranches[1].status.PendingEntry?
    ensures IsOpen(s, T1) || IsOpen(s, T2) ==> s.tranches[0].role == T1 && s.tranches[1].role == T2
  {
  }

  lemma BracketParts(s: TradeState, brackets: seq<Bracket>, n: int, role: TrancheRole)
    requires BracketsMatch(s, brackets, n)
    requires IsOpen(s, T1) || IsOpen(s, T2) ==> s.tranches[0].role == T1 && s.tranches[1].role == T2
    ensures GetBracket(brackets, role).Some? <==> IsOpen(s, role)
    ensures IsOpen(s, role) ==> Mirrors(GetBracket(brackets, role).value, TrancheFor(s, role), n)
    ensures !IsOpen(s, T1) && !IsOpen(s, T2) ==> brackets == []
  {
    if |brackets| == 2 { assert brackets[1..][1..] == []; }
  }

  function StopDistance(run: Run, trade: Trade): real
    requires run.Valid() && 1 <= trade.entryBarIndex <= |run.bars|
  {
    AbsReal(trade.entryPrice - StopFor(run, EntryOf(trade)))
  }

  /** The open of the bar is already beyond the level, on the losing side. */
  predicate OpensBeyond(side: OrderSide, level: real, bar: Bar) {
    if side.Buy? then bar.open < level else level < bar.open
  }

  predicate WithinBar(price: real, bar: Bar) {
    bar.low <= price <= bar.high
  }

  lemma JustifiedPriceWithinBar(run: Run, trade: Trade, n: int)
    requires run.Valid() && TradeOk(run, trade, n)
    ensures WithinBar(trade.entryPrice, run.bars[trade.entryBarIndex])
    ensures WithinBar(trade.exitPrice, run.bars[trade.exitBarIndex])
  {
  }

  /** A fill at `level`, or at the open of a bar that opens beyond it on the losing side. */
  predicate FillsAt(side: OrderSide, level: real, bar: Bar, price: real) {
    price == if OpensBeyond(side, level, bar) then bar.open else level
  }

  /** What the trade earns at the target: the reward multiple, or more when the bar opens beyond it. */
  predicate EarnsReward(trade: Trade, reward: real, bar: Bar) {
    var atOpen := if trade.side.Buy? then bar.open - trade.entryPrice else trade.entryPrice - bar.open;
    if reward < atOpen then trade.exitPrice == bar.open else trade.Points() == reward
  }

  /** What a trade can gain or lose, by its reason. */
  predicate OutcomeOk(run: Run, trade: Trade)
    requires run.Valid() && 1 <= trade.entryBarIndex < trade.exitBarIndex < |run.bars|
  {
    var stop, bar := StopFor(run, EntryOf(trade)), run.bars[trade.exitBarIndex];
    var distance := StopDistance(run, trade);
    match trade.reason
    case StopLoss =>
      && FillsAt(trade.side, stop, bar, trade.exitPrice)
      && trade.Points() <= -distance < 0.0
      && (!OpensBeyond(trade.side, stop, bar) ==> trade.Points() == -distance)
    case TakeProfit =>
      && trade.role.T1? && 0.0 < Times(run.settings.config.rrMult, distance) <= trade.Points()
      && EarnsReward(trade, Times(run.settings.config.rrMult, distance), bar)
    case BreakevenStop =>
      && trade.role.T2? && FillsAt(trade.side, trade.entryPrice, bar, trade.exitPrice)
      && trade.Points() <= 0.0 && (!OpensBeyond(trade.side, trade.entryPrice, bar) ==> trade.Points() == 0.0)
    case _ => trade.exitPrice == bar.open
  }

  /**
   * Every trade of every run: it exits on a later bar than it entered, inside both bars' ranges. A
   * stop-loss fills at the stop, or at an open beyond it, so it loses at least the stop distance. A
   * take-profit is only ever taken on T1 and earns the reward multiple of the stop distance, or the open of
   * a bar that opens beyond it. A break-even stop only ever hits T2, fills at the entry price, or at an open
   * beyond it, and never earns. Every other exit fills at the open.
   */
  lemma TradeOutcomes(run: Run, n: nat, i: nat)
    requires run.Valid() && n <= |run.bars| && run.At(n).Ok? && i < |run.At(n).value.book.trades|
    ensures var trade := run.At(n).value.book.trades[i];
            && 1 <= trade.entryBarIndex < trade.exitBarIndex < n
            && trade.entryPrice == run.bars[trade.entryBarIndex].open
            && WithinBar(trade.entryPrice, run.bars[trade.entryBarIndex])
            && WithinBar(trade.exitPrice, run.bars[trade.exitBarIndex])
            && OutcomeOk(run, trade)
  {
    hide OutcomeOk, TradeOk, RunTo;
    RunsStayCoupled(run, n);
    var trade := run.At(n).value.book.trades[i];
    TradeIsOk(run, run.At(n).value, n, i);
    TradeParts(run, trade, n);
    JustifiedPriceWithinBar(run, trade, n);
    OutcomeOfJustified(run, trade, n);
  }

  lemma TradeIsOk(run: Run, sim: Sim, n: nat, i: nat)
    requires run.Valid() && n <= |run.bars| && Coupled(run, sim, n) && i < |sim.book.trades|
    ensures TradeOk(run, sim.book.trades[i], n)
  {
    hide StateOk, TradeOk;
  }

  lemma TradeParts(run: Run, trade: Trade, n: int)
    requires run.Valid() && TradeOk(run, trade, n)
    ensures 1 <= trade.entryBarIndex < trade.exitBarIndex < n && trade.exitBarIndex < |run.bars|
    ensures trade.entryPrice == run.bars[trade.entryBarIndex].open
    ensures SideOf(run.signals[trade.entryBarIndex - 1]) == Some(trade.side)
    ensures StopOf(run.signals[trade.entryBarIndex - 1]) == Some(StopFor(run, EntryOf(trade)))
  {
  }

  lemma OutcomeOfJustified(run: Run, trade: Trade, n: int)
    requires run.Valid() && n <= |run.bars| && TradeOk(run, trade, n)
    ensures OutcomeOk(run, trade)
  {
    var stop := StopFor(run, EntryOf(trade));
    var risk := Risk(trade.side, trade.entryPrice, stop);
    if 0.0 < risk {
      assert StopDistance(run, trade) == risk;
      TimesPositive(run.settings.config.rrMult, risk);
    }
  }

  /** The price at which the entry filled is on the good side of the stop. */
  predicate RisksSomething(trade: Trade, stop: real) {
    if trade.side.Buy? then stop < trade.entryPrice else trade.entryPrice < stop
  }

  /** Why a trade left, in terms of the bars and the signals alone. */
  predicate ReasonOk(run: Run, trade: Trade)
    requires run.Valid() && 1 <= trade.entryBarIndex < trade.exitBarIndex < |run.bars|
  {
    var bar, last, config := run.bars[trade.exitBarIndex], run.signals[trade.exitBarIndex - 1], run.settings.config;
    var stop, close := StopFor(run, EntryOf(trade)), Some(run.bars[trade.entryBarIndex - 1].close);
    match trade.reason
    case StopLoss =>
      RisksSomething(trade, stop) && if trade.side.Buy? then bar.low <= stop else stop <= bar.high
    case TakeProfit =>
      RisksSomething(trade, stop) && if trade.side.Buy? then stop < bar.low else bar.high < stop
    case BreakevenStop =>
      RisksSomething(trade, stop) && if trade.side.Buy? then bar.low <= trade.entryPrice else trade.entryPrice <= bar.high
    case HullFlip =>
      trade.role.T2? && config.useHullExit && if trade.side.Buy? then last.hullFlipDown else last.hullFlipUp
    case Reversal =>
      if trade.side.Buy? then last.sell && !last.buy else last.buy
    case InvalidRisk =>
      trade.exitBarIndex == trade.entryBarIndex + 1 && !RisksSomething(trade, stop) && !GapTooWide(trade.entryPrice, close, config)
    case EntryGap =>
      trade.exitBarIndex == trade.entryBarIndex + 1 && GapTooWide(trade.entryPrice, close, config)
  }

  /** Every trade of every run entered for the signal of the bar before and left for a reason the bars bear out. */
  lemma TradeReasons(run: Run, n: nat, i: nat)
    requires run.Valid() && n <= |run.bars| && run.At(n).Ok? && i < |run.At(n).value.book.trades|
    ensures var trade := run.At(n).value.book.trades[i];
            && 1 <= trade.entryBarIndex < trade.exitBarIndex < n
            && (if trade.side.Buy? then run.signals[trade.entryBarIndex - 1].buy
                else run.signals[trade.entryBarIndex - 1].sell && !run.signals[trade.entryBarIndex - 1].buy)
            && ReasonOk(run, trade)
  {
    hide ReasonOk, TradeOk, RunTo;
    RunsStayCoupled(run, n);
    var trade := run.At(n).value.book.trades[i];
    TradeIsOk(run, run.At(n).value, n, i);
    TradeParts(run, trade, n);
    ReasonOfJustified(run, trade, n);
  }

  lemma ReasonOfJustified(run: Run, trade: Trade, n: int)
    requires run.Valid() && n <= |run.bars| && TradeOk(run, trade, n)
    ensures ReasonOk(run, trade)
  {
    hide EntryGapped, GapTooWide, Target;
    EntryGapIsExact(trade.entryPrice, Some(run.bars[trade.entryBarIndex - 1].close), run.settings.config);
  }

  /** The runner's stop stands at break-even, at any bar end, exactly when T1 is already closed. */
  lemma BreakevenOnlyAfterT1(run: Run, n: nat)
    requires run.Valid() && n <= |run.bars|
    ensures run.At(n).Ok?
    ensures var s := run.At(n).value.state;
            IsOpen(s, T2) ==>
              && IsPair(s.tranches)
              && (s.tranches[1].breakevenMoved <==> s.tranches[0].status.Closed?)
              && (s.tranches[1].breakevenMoved ==> s.tranches[1].stopLoss == s.tranches[1].entryPrice)
  {
    RunsStayCoupled(run, n);
  }

  /** On a bar where T1 takes its profit the runner ends the bar closed, or protected at its entry price. */
  lemma RunnerProtectedAfterTarget(run: Run, n: nat, i: nat)
    requires run.Valid() && 1 <= n <= |run.bars| && run.At(n).Ok? && i < |run.At(n).value.book.trades|
    requires var trade := run.At(n).value.book.trades[i];
             trade.exitBarIndex == n - 1 && trade.reason.TakeProfit?
    ensures var s := run.At(n).value.state;
            && !IsOpen(s, T1)
            && (IsOpen(s, T2) ==>
                  && s.tranches[1].entryPrice.Some? && s.tranches[1].stopLoss == s.tranches[1].entryPrice
                  && |run.At(n).value.brackets| == 1
                  && run.At(n).value.brackets[0].role == T2
                  && Some(run.At(n).value.brackets[0].stopLoss) == s.tranches[1].entryPrice)
  {
    RunsStayCoupled(run, n);
    BreakevenOnlyAfterT1(run, n);
    var sim := run.At(n).value;
    assert !NoTargetAt(sim.book.trades, n - 1);
    if IsOpen(sim.state, T2) {
      assert Working(run, sim.state, n);
    }
  }

  lemma ScriptTakesSignal(run: Run, s: TradeState, index: nat)
    requires run.Valid() && index < |run.bars| && (s == EMPTY_STATE || Working(run, s, index + 1))
    requires FollowsLastSignal(run, s, index) && SideOf(run.signals[index]).Some?
    requires LastFired(run.signals, index) != SideOf(run.signals[index])
    ensures var next := OnBarClose(s, run.bars[index], run.signals[index], run.settings.config).state;
            if StopOf(run.signals[index]).Some? then
              next == PendingState(SideOf(run.signals[index]).value, StopOf(run.signals[index]).value, run.bars[index].close)
            else LiveTranches(next.tranches) == []
  {
    hide OnBarClose, MovesToBreakeven, HullCloses;
    var bar, signal, config := run.bars[index], run.signals[index], run.settings.config;
    if s == EMPTY_STATE {
      BarCloseOnEmpty(s, bar, signal, config);
    } else {
      PairParts(s.tranches);
      BarCloseOnPair(s, bar, signal, config);
      var c := CloseOf(s, bar, signal, config);
      if !c.reopen {
        PairParts([CloseIf(c.closeA, s.tranches[0], Reversal), CloseIf(c.closeB, c.held, Reversal)]);
      }
    }
  }

  /**
   * When signals alternate, none is ever ignored because its side is already held: a signal with a
   * stop level always ends its bar awaiting entry on its side, and one without leaves nothing live.
   */
  lemma EverySignalIsTaken(run: Run, n: nat)
    requires run.Valid() && n < |run.bars| && SideOf(run.signals[n]).Some?
    requires LastFired(run.signals, n) != SideOf(run.signals[n])
    ensures run.At(n + 1).Ok?
    ensures var next := run.At(n + 1).value.state;
            if StopOf(run.signals[n]).Some? then Awaiting(run, next, n + 1) && next.side == SideOf(run.signals[n])
            else LiveTranches(next.tranches) == []
  {
    hide BarStep, Coupled, OnBarClose;
    RunsStayCoupled(run, n);
    var s := ScriptOfBar(run, run.At(n).value, n);
    ScriptTakesSignal(run, s, n);
  }
}
