// The whole backtest: signals computed from the bars, then simulated bar by bar.

module UtBotBacktest {
  import opened Prelude
  import opened Market
  import opened TradeManager
  import opened Backtest
  import opened BacktestLoop
  import opened BacktestInvariant
  import opened BacktestAccount
  import opened BacktestAccountRuns
  import opened BacktestScript
  import opened BacktestTheorems
  import opened Signals
  import opened SignalTheorems

  /** The run whose signals are computed from its own bars. */
  function ComputedRun(bars: seq<Bar>, settings: Settings): (run: Run)
    requires ValidBars(bars) && settings.Valid()
    ensures run.Valid()
  {
    Run(bars, SignalSeries(bars, settings.config), settings)
  }

  /** The report is about the last bar of the run: its logs, and figures that are exact for the trades it lists. */
  ghost predicate Reports(run: Run, sim: Sim, report: BacktestResult) {
    && report.skips == sim.skips && report.finalState == sim.state
    && PairUp(report.fills) == Some(Pairing(sim.book.entries, report.trades))
    && report.initialEquity == run.settings.initialEquity
    && report.finalEquity == Realised(run, report.trades, |report.trades|)
    && IsPeak(run, report.trades, report.peakEquity)
    && IsMaxDrawdown(run, report.trades, report.maxDrawdown)
    && (report.ruined <==> EverRuined(run, report.trades))
  }

  /** The backtest never raises, whatever the bars and the settings are, and reports the run of its own signals. */
  method RunBacktest(bars: seq<Bar>, settings: Settings) returns (result: Outcome<BacktestResult, BacktestError>)
    requires ValidBars(bars) && settings.Valid()
    ensures result.Ok? && result == Report(ComputedRun(bars, settings).At(|bars|), settings)
    ensures ComputedRun(bars, settings).At(|bars|).Ok?
    ensures Reports(ComputedRun(bars, settings), ComputedRun(bars, settings).At(|bars|).value, result.value)
  {
    hide SignalSeries, BarStep, Coupled, IsPeak, IsMaxDrawdown, EverRuined, Realised, PairUp, EntriesInPairs, EntriesBacked;
    var signals := ComputeSignals(bars, settings.config);
    result := Simulate(bars, signals, settings);
    RunsKeepBooks(ComputedRun(bars, settings), |bars|);
  }

  /**
   * The stop of every trade of a computed run, and of every stop-loss exit, is the extreme of the sl_len bars
   * before its entry: their least low for a long trade, their greatest high for a short one. The entry answers
   * a cross of the trailing stop on the last of them.
   */
  lemma TradesStopAtTheWindow(bars: seq<Bar>, settings: Settings, n: nat, i: nat)
    requires ValidBars(bars) && settings.Valid() && n <= |bars|
    requires ComputedRun(bars, settings).At(n).Ok? && i < |ComputedRun(bars, settings).At(n).value.book.trades|
    ensures var run, slLen := ComputedRun(bars, settings), settings.config.slLen;
            var trade := run.At(n).value.book.trades[i];
            && 1 <= trade.entryBarIndex < |bars|
            && var last, stop := trade.entryBarIndex - 1, StopFor(run, EntryOf(trade));
               if trade.side.Buy? then run.signals[last].buy && IsWindowLow(Some(stop), bars, slLen, last)
               else run.signals[last].sell && IsWindowHigh(Some(stop), bars, slLen, last)
  {
    hide SignalSeries, RunTo, Coupled, TradeOk, StopFor, IsWindowLow, IsWindowHigh;
    var run := ComputedRun(bars, settings);
    RunsStayCoupled(run, n);
    TradeIsOk(run, run.At(n).value, n, i);
    StopOfTrade(bars, settings, run.At(n).value.book.trades[i], n);
  }

  lemma StopOfTrade(bars: seq<Bar>, settings: Settings, trade: Trade, n: nat)
    requires ValidBars(bars) && settings.Valid() && n <= |bars| && TradeOk(ComputedRun(bars, settings), trade, n)
    ensures 1 <= trade.entryBarIndex < |bars|
    ensures var run, last := ComputedRun(bars, settings), trade.entryBarIndex - 1;
            var stop := StopFor(run, EntryOf(trade));
            if trade.side.Buy? then run.signals[last].buy && IsWindowLow(Some(stop), bars, settings.config.slLen, last)
            else run.signals[last].sell && IsWindowHigh(Some(stop), bars, settings.config.slLen, last)
  {
    hide SignalSeries, TradeOk, IsWindowLow, IsWindowHigh, StopFor;
    TradeParts(ComputedRun(bars, settings), trade, n);
    StopLevelsAreWindowExtremes(bars, settings.config, trade.entryBarIndex - 1);
  }

  predicate HoldsSide(s: TradeState, side: OrderSide) {
    exists i :: 0 <= i < |s.tranches| && s.tranches[i].status.Open? && s.tranches[i].side == side
  }

  lemma HeldSideIsLive(run: Run, s: TradeState, n: int)
    requires run.Valid() && (s == EMPTY_STATE || Working(run, s, n))
    ensures forall side :: HoldsSide(s, side) ==> s.side == Some(side) && LiveTranches(s.tranches) != []
  {
    if s != EMPTY_STATE {
      PairIsLive(s);
    }
  }

  lemma PairIsLive(s: TradeState)
    requires |s.tranches| == 2
    ensures s.tranches[0].status.Open? || s.tranches[1].status.Open? ==> LiveTranches(s.tranches) != []
  {
    assert s.tranches[1..] == [s.tranches[1]];
  }

  /**
   * With a range average of two bars or more, the script of a computed run is never handed a signal
   * for the side it already holds, so every signal is acted on: it ends its bar awaiting entry on its
   * side, or, when the window for its stop level is still incomplete, with nothing live.
   */
  lemma NoSignalMeetsItsOwnSide(bars: seq<Bar>, settings: Settings, n: nat)
    requires ValidBars(bars) && settings.Valid() && 2 <= settings.config.utAtr && n < |bars|
    requires SideOf(ComputedRun(bars, settings).signals[n]).Some?
    ensures var run := ComputedRun(bars, settings);
            var side := SideOf(run.signals[n]).value;
            && run.At(n).Ok? && run.At(n + 1).Ok?
            && var script := ScriptInput(run.At(n).value, n, bars[n], settings);
            && script.Ok? && !HoldsSide(script.value, side)
            && var next := run.At(n + 1).value.state;
               if StopOf(run.signals[n]).Some? then Awaiting(run, next, n + 1) && next.side == Some(side)
               else LiveTranches(next.tranches) == []
  {
    hide SignalSeries, BarStep, Coupled, OnBarClose, ScriptInput, Working;
    var run := ComputedRun(bars, settings);
    SignalsAlternate(bars, settings.config);
    RunsStayCoupled(run, n);
    EverySignalIsTaken(run, n);
    var s := ScriptOfBar(run, run.At(n).value, n);
    HeldSideIsLive(run, s, n + 1);
  }
}
