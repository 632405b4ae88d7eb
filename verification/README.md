# MTOSS verification model

A Dafny model of three parts of the trading system and proofs of what they promise together.

**Strategy and simulator.** `Market`, `Sizing`, `TradeManager` and `Backtest` model a bar-by-bar
backtest of a two-tranche strategy: T1 takes a fixed profit, T2 runs on with its stop moved to
break-even. `BacktestLoop` is the simulator in its own imperative form, a ledger, a bracket dictionary
and a loop, proved to compute the runs that the specification functions describe. `BacktestInvariant`
states the coupling between trade state, brackets, order queue and open entries that the loop relies
on without saying so; `BacktestSteps` and `BacktestScript` prove that every bar keeps it, and
`BacktestTheorems`, `BacktestExits`, `BacktestSkips`, `BacktestAccount` and its two companions draw the
trading consequences: exact exits at exact prices for reasons the bars bear out, exact break-even, an
alternating fill log, exact account figures, no entry after ruin, and a fill or a record for every entry.
`TradeManagerTheorems` and `EntryFillTheorems` say what the trade manager decides under any events.

**Signals.** `Indicators` and `Signals` model the averages, the ratcheting trailing stop, the crosses
and the Hull colour, loops included. `IndicatorTheorems`, `TrailTheorems` and `SignalTheorems` say what
they mean, up to strict alternation of BUY and SELL on every price series. `UtBotBacktest` composes the
signals with the simulator.

**Execution.** `OrderStates`, `Orders`, `Mt5` and `FakeBroker` model orders and brokers.
`ExecutionRules` says what executing one stored order means for arbitrary broker answers;
`ExecutionService` and `ExecutionWorker` are the classes that do it step by step. `Protocol` is the same
work as a state machine of any number of workers, with crashes anywhere and requests that a broker takes
after their sender died; `ProtocolInvariant`, `ProtocolTheorems` and `ProtocolRuns` prove its safety, the
exact assumptions it needs, and that the sequential execution is one of its runs; `FakeBrokerRuns` shows
that the in-memory broker meets those assumptions.

`CauseChain` models the walk along exception causes, `Format` and `FormatTheorems` the rendering of
decimal strings. `Prelude` and `Algebra` hold shared vocabulary; products are named there so that the
solver reasons about money linearly.

Prices, money and lots are `real`. A value that may be missing is an `Option`, an operation that may
raise returns an `Outcome`. Methods whose names end in `Stepwise`, and the methods of the classes,
follow the source's own loops and updates; each is proved equal to the function its theorems are about.

`dafny verify dfyconfig.toml` checks everything.

## What the proofs found

Where the code and the text around it disagree, the model follows the code.

- *Signals "structurally alternate"* (`src/mtoss/application/trade_manager.py:243`): true of every price
  series if and only if ut_atr is at least 2. With ut_atr = 1, which the settings allow, two steps down
  with a still bar between sell twice in a row (`SignalTheorems.AlternatesExactlyWhen`).
- The first signal is not always a SELL: after a warm-up in which nothing moved, a first move up fires a
  BUY (`SignalTheorems.FirstSignalIsBuyIff`).
- The trailing stop is a ratchet except for one case: a close that rises exactly to the stop of a falling
  market resets it further away, with no signal (`TrailTheorems.StopLoosensExactlyOnTouch`). Every
  valid configuration has a price series on which that happens (`SignalTheorems.StopLoosensInEverySetting`).
- The port says that a lookup answering nothing means "never sent". "Not accepted so far" would not do:
  a request still on its way would be sent again (`ProtocolTheorems.OneOrderPerKeyExactlyWhen`). Proving
  the guarantee needs only that nothing was accepted and nothing is on its way, so a lost request may be
  forgotten.
- The worker takes `LookupError` as final. A broker adapter that raised one, a `KeyError` included, would
  publish an order that was never sent, and so would a second consumer that claims without a topic
  (`ProtocolTheorems.NoWorkStrandedExactlyWhen`). Nothing wires such a consumer today.
- A stored market order cannot be read back, because its type and reference price are not written; the
  worker retries it for ever (`ExecutionRules.StoredIntentReachesBrokerIff`).
- The confirmation gate and the monotonicity of sizes each hold under one condition on the settings,
  stated exactly (`SizingTheorems.ConfirmationGateIsExactIff`, `SizingTheorems.SizesNeverPerverseIff`).

## Model

| member | source | states |
|---|---|---|
| `SizingTheorems.FloorToStepIsLargestMultiple` | src/mtoss/application/sizing.py:79-82 | Rounding down yields the largest multiple of the volume step that does not exceed the value, and it is less than one step below it. |
| `SizingTheorems.UnconfirmedSizeIsLargestAffordable` | src/mtoss/application/sizing.py:85-153 | An unconfirmed RISK_PERCENT size is the largest step multiple within budget, max_lots and volume_max; it is at least volume_min, its quantity and risk are those of its lots, and it never risks more than the budget. |
| `SizingTheorems.ConfirmationGateIsExactIff` | src/mtoss/application/sizing.py:111-126 | Over all stops, equities and rates, confirmation is asked exactly when the smallest tradable lot is over budget, if and only if the floor lot is a step multiple or is smaller than one step. |
| `SizingTheorems.SizesNeverPerverseIff` | src/mtoss/application/sizing.py:85-153 | Lots (a rejection counting as none) never rise with a wider stop and never fall with more equity, if and only if the caps do not already shrink what the floor lot trades. |
| `SizingTheorems.FixedSizeIsTheFloor` | src/mtoss/application/sizing.py:105-110 | In FIXED mode the size is the rounded floor lot, whatever the account, without caps and without a question; its quantity is lots times contract size and its risk lots times the loss per lot; it is refused exactly below volume_min or at a non-positive stop. |
| `SizingTheorems.ConfirmedSizeIsTheFloor` | src/mtoss/application/sizing.py:111-126 | A size that asks for confirmation is the rounded floor lot, priced the same way, and only when the unrounded floor lot is over budget. |
| `SizingTheorems.RefusedExactlyWhen` | src/mtoss/application/sizing.py:85-153 | Over every stop, equity and rate: which sizes are refused for which reason, and which are asked about, in terms of the lots wanted before rounding. |
| `SizingTheorems.SizeIgnoresSignOfEquity` | src/mtoss/application/sizing.py:102 | A negative account is sized like a positive one of the same magnitude, because the budget is an absolute value. |
| `TradeManager.ApplySignalStepwise` | src/mtoss/application/trade_manager.py:212-265 | The loop over live tranches closes the opposing ones in order, gives up when anything stays live or the stop is missing, and otherwise opens one fresh pair; it computes the state and action list of its specification. |
| `TradeManager.OnBarCloseStepwise` | src/mtoss/application/trade_manager.py:139-154 | Break-even, Hull exit and signal are applied in that order, each to the state the one before left, with their actions appended in order. |
| `TradeManager.AbortEntryStepwise` | src/mtoss/application/trade_manager.py:345-361 | Every live tranche is closed for the given reason, one close action each, and a fully closed state is reset. |
| `TradeManager.StampQuantityStepwise` | src/mtoss/application/trade_manager.py:292-295 | The filled quantity is written on every pending tranche and on nothing else. |
| `TradeManager.OpenPendingStepwise` | src/mtoss/application/trade_manager.py:311-333 | Every pending tranche opens at the entry price with the pending stop, T1 alone with the target, and one bracket action each. |
| `TradeManager.OnEntryFilledStepwise` | src/mtoss/application/trade_manager.py:268-333 | The two error returns, the gap and the non-positive-risk aborts and the opening, decided in that order after the quantity is recorded. |
| `EntryFillTheorems.EntryGapIsExact` | src/mtoss/application/trade_manager.py:336-342 | An entry gapped exactly when max_entry_gap_bps is set, the reference close is positive, and 10000 times the drift exceeds that many times the close. |
| `EntryFillTheorems.EntryFillIsExact` | src/mtoss/application/trade_manager.py:268-361 | Confirming the entry of a pair, in plain prices: which of the two errors is raised; else whether it is given up for the gap or for a non-positive distance, with every live tranche closed in its filled quantity; else both pending tranches open with the stop, T1 with its target rr_mult distances beyond the price, T2 with none, and one bracket action each. |
| `TradeManagerTheorems.BarCloseOnPair` | src/mtoss/application/trade_manager.py:139-265 | What one bar close does to a T1/T2 pair, in closed form: who moves, who closes for which reason, and when the pair is replaced by a fresh one. |
| `TradeManagerTheorems.HullExitExactlyWhen` | src/mtoss/application/trade_manager.py:184-209 | A Hull flip closes the runner, and never T1, exactly when the exit is on, the runner is open, the flip goes against it, and break-even is reached by then where that is required. |
| `TradeManagerTheorems.TrancheClosedIsExact` | src/mtoss/application/trade_manager.py:364-381 | A closure reported by the broker closes exactly the one tranche, with its reason on record, resets a state in which nothing else is live, and ignores a tranche already closed. |
| `TradeManagerTheorems.NextDecisionSafe` | src/mtoss/application/trade_manager.py:139-381 | From any well-formed state, one bar close, fill or closure yields a safe decision and a well-formed state; market exits go out for exactly the positions given up. |
| `TradeManagerTheorems.EveryDecisionIsSafe` | src/mtoss/application/trade_manager.py:139-381 | Under any sequence of bar closes, fills and closures: live tranches share one side, one per role; each role is closed at most once and before any entry; entries are one pair, only when nothing stays live; brackets straddle the entry price; the runner's stop moves at most once, to entry, towards profit. |
| `BacktestLoop.Ledger.Record` | src/mtoss/strategies/ut_bot/backtest.py:205-236 | Recording an exit pops the open entry, logs the fill and the trade, and updates equity, peak, drawdown and ruin; without an entry nothing changes. |
| `BacktestLoop.Ledger.Enter` | src/mtoss/strategies/ut_bot/backtest.py:298-310 | An entry fill is logged and becomes the open entry of its role. |
| `BacktestLoop.BracketMap.RegisterActions` | src/mtoss/strategies/ut_bot/backtest.py:386-423 | Bracket settings, stop moves and pops are applied at once in order, and exactly the market orders are handed to the next bar. |
| `Backtest.BracketsStayInPlace` | src/mtoss/strategies/ut_bot/backtest.py:386-423 | The bracket dictionary keeps its insertion order: a role is found, overwritten and removed where it stands, and a new one comes last. |
| `BacktestLoop.FillQueued` | src/mtoss/strategies/ut_bot/backtest.py:246-260 | Queued exits pop their bracket and are recorded at the open, in order, and the queued entries are collected. |
| `BacktestLoop.FillEntries` | src/mtoss/strategies/ut_bot/backtest.py:298-310 | Each collected entry fills at the open with the sized quantity, or the assertion of the source fails. |
| `BacktestLoop.Fire` | src/mtoss/strategies/ut_bot/backtest.py:312-323 | Over a snapshot of the dictionary, active brackets that are hit leave it, are recorded and close their tranche. |
| `BacktestLoop.PlayOpen` | src/mtoss/strategies/ut_bot/backtest.py:246-310 | The first phase of a bar: exits, sizing or skipping, entries. |
| `BacktestLoop.PlayScript` | src/mtoss/strategies/ut_bot/backtest.py:325-340 | The third phase of a bar: entry confirmation first, then the closed bar, with both action lists registered. |
| `BacktestLoop.PlayBar` | src/mtoss/strategies/ut_bot/backtest.py:239-340 | One pass of the loop over the mutable parts. |
| `BacktestLoop.Simulate` | src/mtoss/strategies/ut_bot/backtest.py:193-352 | The whole loop, over any signal per bar, computes the run that the theorems below are about. |
| `BacktestScript.BarStepOk` | src/mtoss/strategies/ut_bot/backtest.py:239-340 | One bar keeps the coupling of trade state, brackets, queue, open entries and trades, and raises nothing. |
| `BacktestScript.RunsStayCoupled` | src/mtoss/strategies/ut_bot/backtest.py:239-352 | At the end of every bar of every run the coupling holds and nothing was raised: the assertion on entries and both errors of the entry confirmation are unreachable. |
| `BacktestTheorems.CouplingRoleByRole` | src/mtoss/strategies/ut_bot/backtest.py:239-340 | Per role: a bracket stands exactly for an open tranche, with its levels and active by the coming bar; an open entry exists exactly for an open tranche or a queued exit, never both; entries are queued exactly when both tranches await entry with side and stop, and then no bracket stands. |
| `BacktestScript.ScriptOfBar` | src/mtoss/strategies/ut_bot/backtest.py:325-340 | The state handed to a bar's script is empty or one filled pair on the side of the latest signal. |
| `BacktestTheorems.TradeOutcomes` | src/mtoss/strategies/ut_bot/backtest.py:152-174 | Every trade exits on a later bar, inside both bars' ranges, at an exact price: STOP_LOSS at the stop or an open beyond it, so at least the stop distance is lost; TAKE_PROFIT, on T1 only, earns exactly rr_mult distances or the open of a bar that opens beyond; BREAKEVEN_STOP, on T2 only, at the entry price or an open beyond it; everything else at the open. |
| `BacktestTheorems.TradeReasons` | src/mtoss/strategies/ut_bot/backtest.py:239-340 | Every trade entered for the signal of the bar before and left for a reason that the bars and signals bear out: the level was reached on that bar, the colour flipped or the opposite signal fired on the bar before, or, one bar after the entry, the gap or the distance was wrong. |
| `BacktestExits.ExitsAreExact` | src/mtoss/strategies/ut_bot/backtest.py:246-323 | What a bar owes each role: an exit queued for it fills at the open, else its bracket leaves at its stop or else its target if reached; that makes exactly one trade of its open entry, and otherwise there is none and the entry stays. |
| `BacktestExits.BracketsFireExactly` | src/mtoss/strategies/ut_bot/backtest.py:152-174 | Every standing bracket, on every bar of every run: if the bar reaches the stop there is exactly one trade at the stop or an open beyond it, named after break-even or not; if it reaches only the target, exactly one at the target or a better open; otherwise none, and the entry stays open. |
| `BacktestExits.DormantBracketsStay` | src/mtoss/strategies/ut_bot/backtest.py:314-316 | Brackets that become active only later do nothing on this bar. |
| `BacktestTheorems.BreakevenOnlyAfterT1` | src/mtoss/application/trade_manager.py:157-181 | At every bar end, an open runner stands at break-even exactly when T1 is closed, and then its stop is its entry price. |
| `BacktestTheorems.RunnerProtectedAfterTarget` | src/mtoss/strategies/ut_bot/backtest.py:312-340 | On a bar where T1 takes profit, T2 ends the bar closed, or alone with its bracket exactly at its entry price. |
| `BacktestTheorems.EverySignalIsTaken` | src/mtoss/application/trade_manager.py:242-265 | A signal that differs from the one before it always ends its bar awaiting entry on its side, or with nothing live when it has no stop level. |
| `BacktestSkips.AwaitedEntryIsSettled` | src/mtoss/strategies/ut_bot/backtest.py:262-310 | Every awaited entry either fills at the next open as a pair, after the queued exits and with the size the account then allows, or is given up with exactly one record of why; otherwise nothing enters and nothing is recorded. |
| `BacktestSkips.EntryGateIsExact` | src/mtoss/strategies/ut_bot/backtest.py:355-388 | When an entry is given up, for which reason and with which budget on record: a ruined account, no distance to the stop, below volume_min, over budget and not confirmed, in this order; otherwise it is taken, over-budget ones included when they are confirmed. |
| `BacktestAccountRuns.RunsKeepBooks` | src/mtoss/strategies/ut_bot/backtest.py:205-340 | Every bar keeps the books: exact figures, a log that pairs up into the trades, entries in pairs, prices within bars, every entry backed by a solvent account. |
| `BacktestAccountTheorems.FiguresAreExact` | src/mtoss/strategies/ut_bot/backtest.py:225-236 | Equity is the initial equity plus the profits of all trades; peak is the greatest realised equity; max_drawdown is the greatest fall between any two points of the realised curve; ruined holds exactly when some realised equity was not positive. |
| `BacktestAccountTheorems.PairedLogsAlternate` | src/mtoss/strategies/ut_bot/backtest.py:205-236 | A fill log that pairs up alternates ENTRY and EXIT for each role, and its open entries are the roles whose last fill entered. |
| `BacktestAccountTheorems.FillLogIsSound` | src/mtoss/strategies/ut_bot/backtest.py:205-340 | In every run the log alternates, entries come as T1/T2 pairs of one bar, side, price and quantity, each trade joins one entry and one exit of its quantity on a strictly later bar, and every price lies within its bar. |
| `BacktestAccountTheorems.NoEntryAfterRuin` | src/mtoss/strategies/ut_bot/backtest.py:355-368 | When an entry fills, the initial equity and every equity realised before it, even within the same bar, are positive. |
| `BacktestAccountTheorems.StopLossCostsTheSizedRisk` | src/mtoss/strategies/ut_bot/backtest.py:262-296 | In RISK_PERCENT mode without confirmations, a STOP_LOSS filled at its stop costs exactly the risk sized at entry, at most risk_pct of the equity realised by then. |
| `Indicators.Sma` | src/mtoss/strategies/ut_bot/indicators.py:28-45 | The window loop gives the mean where the window is full and complete, and nothing elsewhere. |
| `Indicators.RecursiveAverage` | src/mtoss/strategies/ut_bot/indicators.py:48-68 | Seeded by the simple average, then blended bar by bar; a missing value drops the average until the next seed. |
| `Indicators.Rma` | src/mtoss/strategies/ut_bot/indicators.py:71-75 | Wilder smoothing: alpha is 1 / length. |
| `Indicators.Ema` | src/mtoss/strategies/ut_bot/indicators.py:78-81 | Exponential smoothing: alpha is 2 / (length + 1). |
| `Indicators.Wma` | src/mtoss/strategies/ut_bot/indicators.py:84-114 | The weighted loop with its accumulated norm and its early stop on a missing value. |
| `Indicators.TrueRange` | src/mtoss/strategies/ut_bot/indicators.py:117-134 | High minus low on the first bar, then the greatest of the three distances. |
| `Indicators.Atr` | src/mtoss/strategies/ut_bot/indicators.py:137-140 | The Wilder average of the true ranges. |
| `Indicators.Hma` | src/mtoss/strategies/ut_bot/indicators.py:151-153 | The composition of three weighted averages. |
| `Indicators.Ehma` | src/mtoss/strategies/ut_bot/indicators.py:156-158 | The composition of three exponential averages. |
| `Indicators.Thma` | src/mtoss/strategies/ut_bot/indicators.py:161-169 | The composition of four weighted averages. |
| `Indicators.Cross` | src/mtoss/strategies/ut_bot/indicators.py:199-216 | A cross fires exactly where the side changes from at-or-beyond to strictly beyond, with all four values present. |
| `IndicatorTheorems.RmaFollowsWilder` | src/mtoss/strategies/ut_bot/indicators.py:71-75 | Seeded by the mean of the first full window; after that length averages are the new value plus length - 1 old averages, and a missing value drops it. |
| `IndicatorTheorems.EmaFollowsRecursion` | src/mtoss/strategies/ut_bot/indicators.py:78-81 | Seeded the same way; after that length + 1 averages are twice the new value plus length - 1 old averages. |
| `IndicatorTheorems.AtrFollowsWilder` | src/mtoss/strategies/ut_bot/indicators.py:137-140 | The average true range starts with the first full window, whose mean it is, and follows Wilder's recursion from there without gaps. |
| `IndicatorTheorems.TrueRangeIsSpan` | src/mtoss/strategies/ut_bot/indicators.py:117-134 | The true range is the span of the bar together with the previous close, and of the first bar alone. |
| `IndicatorTheorems.WindowLevels` | src/mtoss/strategies/ut_bot/indicators.py:172-187 | A full window's lowest and highest bound every value in it and are among them; an incomplete one has none. |
| `IndicatorTheorems.RoundsHalvesAwayFromZero` | src/mtoss/strategies/ut_bot/indicators.py:18-25 | Rounding goes to a nearest integer, halves away from zero on both sides. |
| `IndicatorTheorems.RecursiveDefinedWhereSmaIs` | src/mtoss/strategies/ut_bot/indicators.py:48-68 | With gaps anywhere, EMA and RMA are defined on exactly the bars where the simple average of their length is. |
| `IndicatorTheorems.RecursiveUnrolled` | src/mtoss/strategies/ut_bot/indicators.py:48-68 | There they equal the latest seed, faded by one factor per bar, plus the geometrically weighted inputs since. |
| `IndicatorTheorems.RecursiveWithinInputs` | src/mtoss/strategies/ut_bot/indicators.py:48-68 | They never leave the range of the inputs since that seed's window began. |
| `IndicatorTheorems.NormIsClosedForm` | src/mtoss/strategies/ut_bot/indicators.py:101-112 | The accumulated weights of a full window are length^2 * (length + 1) / 2. |
| `IndicatorTheorems.WmaLagsOnLine` | src/mtoss/strategies/ut_bot/indicators.py:84-114 | On a straight line the weighted average is the line (length - 1) / 3 bars late. |
| `IndicatorTheorems.WmaFollowsRecursion` | src/mtoss/strategies/ut_bot/indicators.py:84-114 | From one full window to the next, the numerator of the weighted average gains the new value at full weight and loses one share of every value of the window before. |
| `IndicatorTheorems.EmaLagsOnLine` | src/mtoss/strategies/ut_bot/indicators.py:48-81 | On a straight line the exponential average is the line (length - 1) / 2 bars late, from its first seed on. |
| `IndicatorTheorems.HullsDefinedFrom` | src/mtoss/strategies/ut_bot/indicators.py:143-169 | On any complete series HMA and EHMA start exactly at index n + m - 2 and THMA exactly at 2n - 2. |
| `IndicatorTheorems.HmaOfLine` | src/mtoss/strategies/ut_bot/indicators.py:143-153 | The HMA of a straight line is a line of the same slope from index n + m - 2 on. |
| `IndicatorTheorems.EhmaOfLine` | src/mtoss/strategies/ut_bot/indicators.py:143-158 | The EHMA of a straight line is a line of the same slope. |
| `IndicatorTheorems.ThmaOfLine` | src/mtoss/strategies/ut_bot/indicators.py:161-169 | The THMA of a straight line is a line of the same slope. |
| `IndicatorTheorems.SmoothingLengthIsRoundedRoot` | src/mtoss/strategies/ut_bot/indicators.py:151-158 | The smoothing length is the real square root rounded with halves away from zero, and at least one. |
| `Signals.TrailingStop` | src/mtoss/strategies/ut_bot/signals.py:46-78 | The four branches in order, with 0 as the base after a gap and no previous close on the first bar. |
| `Signals.HullColors` | src/mtoss/strategies/ut_bot/signals.py:91-98 | Green compares with the value two bars ago, and is missing while either is. |
| `Signals.Hull` | src/mtoss/strategies/ut_bot/signals.py:81-88 | The average of the configured mode over the effective length; THMA is called with half of it. |
| `Signals.ComputeSignals` | src/mtoss/strategies/ut_bot/signals.py:101-144 | One snapshot per bar, numbered by position, from closes, stop, crosses, colours and window extremes. |
| `SignalTheorems.StopLevelsAreWindowExtremes` | src/mtoss/strategies/ut_bot/signals.py:119-120 | The low level of a signal is present exactly from bar sl_len - 1 on, is at most every low of the last sl_len bars and is one of them; the high level mirrors it over the highs. |
| `SignalTheorems.FlagsAreExact` | src/mtoss/strategies/ut_bot/signals.py:122-142 | When each flag of a signal is set, both ways: BUY when the close rises above the stop from at or below it, SELL mirrored, a flip when the colour changes between two bars that both have one. |
| `SignalTheorems.LossFollowsWilder` | src/mtoss/strategies/ut_bot/signals.py:112-113 | The distance the stop keeps is ut_key times Wilder's average of the bar spans, by its recursion on the bars themselves. |
| `TrailTheorems.TrailIsRunningExtreme` | src/mtoss/strategies/ut_bot/signals.py:46-78 | The stop is the running maximum of close - loss while the closes rise above the stop carried over (floored by 0 after a gap), and the running minimum of close + loss otherwise, since the two latest closes last failed to stand strictly on one side of the stop carried over. |
| `TrailTheorems.RunsEndOnCrossGapOrTouch` | src/mtoss/strategies/ut_bot/signals.py:46-78 | With positive losses such a run ends exactly with a cross, a gap, or a close that meets the stop carried over. |
| `TrailTheorems.CrossesAreFlips` | src/mtoss/strategies/ut_bot/signals.py:115-116 | The crosses are exactly the bars on which the close changes its side of the stop. |
| `TrailTheorems.StopLoosensExactlyOnTouch` | src/mtoss/strategies/ut_bot/signals.py:62-76 | Between crosses the stop never falls while the close is above; below, it rises exactly when the close meets the previous stop. |
| `TrailTheorems.StopCanLoosen` | src/mtoss/strategies/ut_bot/signals.py:62-76 | Concrete closes and losses on which the stop loosens without any signal. |
| `SignalTheorems.StopLoosensInEverySetting` | src/mtoss/strategies/ut_bot/signals.py:62-76 | For every valid configuration a valid price series on which the stop of a falling market moves further away without any signal. |
| `SignalTheorems.AtrIsPositiveOnceMoved` | src/mtoss/strategies/ut_bot/indicators.py:48-140 | For lengths of two or more, the average true range starts at bar n - 1 and is positive exactly from the market's first move on. |
| `SignalTheorems.WarmupIsSilent` | src/mtoss/strategies/ut_bot/signals.py:114-120 | No signal fires before bar ut_atr. |
| `SignalTheorems.SignalsAlternate` | src/mtoss/strategies/ut_bot/signals.py:101-144 | For every valid price series and ut_atr >= 2, no signal repeats the side of the one before it. |
| `SignalTheorems.FirstSignalIsBuyIff` | src/mtoss/strategies/ut_bot/signals.py:46-78 | The first signal is a BUY exactly when the market stood still through the warm-up and its first move closed up. |
| `SignalTheorems.FirstSignalIsSell` | src/mtoss/strategies/ut_bot/signals.py:46-78 | When any of the first ut_atr bars moved, the first signal can only be a SELL. |
| `SignalTheorems.ShortRangeRepeatsASignal` | src/mtoss/strategies/ut_bot/indicators.py:71-75 | With ut_atr = 1 a concrete valid series sells twice in a row, for every ut_key. |
| `SignalTheorems.AlternatesExactlyWhen` | src/mtoss/application/trade_manager.py:242-245 | Signals alternate on every valid price series if and only if ut_atr is at least 2. |
| `SignalTheorems.ColourStartsOnTime` | src/mtoss/strategies/ut_bot/signals.py:91-98 | The Hull colour exists exactly from two bars after the average starts, and no flip comes before the third. |
| `SignalTheorems.ColourLooksTwoBarsBack` | src/mtoss/strategies/ut_bot/signals.py:91-98 | The colour of a signal compares the Hull average of the closes with its value two bars earlier and is missing exactly while either is. |
| `SignalTheorems.SteadyMarketColour` | src/mtoss/strategies/ut_bot/signals.py:81-98 | On a market that moves by the same amount every bar the colour, wherever it is defined, is green exactly when it rises, in all three Hull modes, and never flips. |
| `SignalTheorems.HullLengthIsTruncated` | src/mtoss/strategies/ut_bot/config.py:117-120 | The effective length is the scaled length rounded down, and never less than one bar. |
| `UtBotBacktest.RunBacktest` | src/mtoss/strategies/ut_bot/backtest.py:177-352 | Computing the signals and simulating them never raises, and the report is about that run: its skips and final state, a fill log that pairs up into the listed trades, and equity, peak, drawdown and ruin that are exact for them. |
| `UtBotBacktest.TradesStopAtTheWindow` | src/mtoss/strategies/ut_bot/signals.py:119-142 | In a computed run the stop of every long trade is the least low of the sl_len bars before its entry, that of every short trade their greatest high, and the entry answers the signal of the last of them. |
| `UtBotBacktest.NoSignalMeetsItsOwnSide` | src/mtoss/application/trade_manager.py:242-249 | With ut_atr >= 2 the script of a computed run is never handed a signal for the side it holds, and every signal is acted on. |
| `OrderStates.TerminalStatesAbsorb` | src/mtoss/application/order_state_machine.py:8-43 | On every allowed path a terminal state is the last. |
| `OrderStates.QueuedIsNeverReentered` | src/mtoss/application/order_state_machine.py:8-43 | On every allowed path QUEUED is entered at most once and nothing before it comes after it. |
| `OrderStates.OnlyUnknownAllowsReturn` | src/mtoss/application/order_state_machine.py:8-43 | A path can visit a state twice only by passing through UNKNOWN. |
| `OrderStates.EnteredFrom` | src/mtoss/application/order_state_machine.py:8-50 | The transition table read backwards: from exactly which states each state may be entered. |
| `Orders.StoredIntentReadsBackIff` | src/mtoss/infrastructure/db/repositories/orders.py:28-44 | A stored intent can be read back exactly when it is a limit order, and whole exactly when it also carries no reference price, bracket, flag or tranche. |
| `Orders.NewRowColumns` | src/mtoss/infrastructure/db/repositories/orders.py:28-44 | The columns of a new row: the intent's identity, side and size, the given state, both decisions in their own columns, no result yet. |
| `Orders.ValidIntentIsExact` | src/mtoss/domain/orders.py:88-166 | The intent's validation, in prices: positive quantity and prices, a limit price exactly on a limit order, a price to measure against, and each level on its own side of it. |
| `Mt5.AmbiguityIsNeverRejection` | src/mtoss/infrastructure/broker/mt5_errors.py:78-129 | A return code raises exactly when it is one of the five ambiguous ones and rejects exactly when it is neither ambiguous nor an acceptance; fills are split exactly by quantity; the result carries the key, references and fill it was given, and can be saved on a QUEUED order. |
| `Mt5.CodeGroupsAreDisjoint` | src/mtoss/infrastructure/broker/mt5_errors.py:14-66 | Rejection texts, ambiguous codes and acceptances do not overlap. |
| `Mt5.AmbiguousSubmissionIsLookedUp` | src/mtoss/application/execution_service.py:50-68 | An ambiguous MT5 answer ends as what a second lookup finds or as UNKNOWN, and as REJECTED only if the lookup says so; any other answer is stored as the code says, without another lookup. |
| `FakeBroker.Broker.Submit` | src/mtoss/infrastructure/broker/fake.py:21-53 | An order is accepted exactly once per account and key, with its number in both references; it opens a position of the intent's side, size, price, levels and tranche unless it only reduces or names no price; a repeat changes nothing and answers the same. |
| `FakeBroker.AcceptedOnce` | src/mtoss/infrastructure/broker/fake.py:21-53 | The acceptance log holds no account and key twice. |
| `FakeBroker.Broker.LookupByClientOrderId` | src/mtoss/infrastructure/broker/fake.py:55-58 | Nothing is found exactly when nothing was ever accepted under that account and key. |
| `FakeBroker.Broker.ModifyPositionSltp` | src/mtoss/infrastructure/broker/fake.py:60-74 | Only the two levels of the one position change; an unknown position is an error. |
| `FakeBroker.Broker.ClosePosition` | src/mtoss/infrastructure/broker/fake.py:76-102 | What is closed and what remains add up to what was held; a full close removes the position; the answer is exactly an error above the holding, an error below zero, and between a fill of the closed size at the entry price. |
| `FakeBroker.Broker.ListPositions` | src/mtoss/infrastructure/broker/fake.py:104-109 | Exactly the positions of the account, in the order in which they were opened. |
| `ExecutionService.OrderRepository.CreateWithOutbox` | src/mtoss/infrastructure/db/repositories/orders.py:19-77 | The row, its two audit rows and, exactly when it is QUEUED, its event are stored together; a used id, key or decision stores nothing. |
| `ExecutionService.OrderRepository.LockForExecution` | src/mtoss/infrastructure/db/repositories/orders.py:102-111 | The row is locked and read, or the lookup fails with nothing locked. |
| `ExecutionService.OrderRepository.SaveBrokerResult` | src/mtoss/infrastructure/db/repositories/orders.py:113-136 | All result columns are committed at once, or the row is rolled back whole; the lock is gone either way. |
| `ExecutionService.OrderRepository.ReleaseExecutionLock` | src/mtoss/infrastructure/db/repositories/orders.py:138-139 | The session's lock and its uncommitted copy are gone. |
| `ExecutionService.Service.SubmitAndSettle` | src/mtoss/application/execution_service.py:50-68 | A timeout, and only a timeout, leads to the second lookup and possibly to UNKNOWN. |
| `ExecutionService.Service.Run` | src/mtoss/application/execution_service.py:34-74 | Every way out, by value or by exception, leaves the row unlocked and does exactly what the specification of one execution says to the row and the broker. |
| `ExecutionRules.SaveIsAllOrNothing` | src/mtoss/infrastructure/db/repositories/orders.py:113-136 | A save succeeds exactly when the key matches and the one or two steps are allowed; it then stores the whole result, and SUBMITTED only if the broker said so. |
| `ExecutionRules.ExecutionIsSafe` | src/mtoss/application/execution_service.py:34-74 | One execution submits at most once, only a queued order with evidence whose lookup found nothing; whatever raises leaves the row unchanged; what is returned is what the row now says. |
| `ExecutionRules.ReexecutionIsARead` | src/mtoss/application/execution_service.py:40-41 | Executing again makes no broker call and returns the identical result. |
| `ExecutionRules.NothingIsSent` | src/mtoss/application/execution_service.py:36-43 | A missing row, missing evidence, an order past QUEUED and an unreadable intent, checked in this order, make no broker call and change nothing; an order past QUEUED answers with its own columns. |
| `ExecutionRules.AnswersDecideExactly` | src/mtoss/application/execution_service.py:43-71 | For a queued order with evidence, answer by answer: which calls are made, what is returned or raised, and the row it leaves; a savable result that names the order is returned as it is and stored field for field, and any other answer leaves the row as it was. |
| `ExecutionRules.TimeoutEndsLookedUpOrUnknown` | src/mtoss/application/execution_service.py:53-68 | A timed-out submission ends as what the second lookup finds or as UNKNOWN, after exactly one submission. |
| `ExecutionRules.ExecutionSettlesUnlessBrokerIsFinal` | src/mtoss/workers/executor.py:84-94 | An execution that returns or raises a final error leaves its intent missing, without evidence or past QUEUED, except exactly when the broker's last answer was that final error. |
| `ExecutionRules.StoredIntentReachesBrokerIff` | src/mtoss/infrastructure/db/models/order.py:91-111 | A freshly stored intent reaches the broker exactly when it is a limit order; a market order raises on reading and stays queued. |
| `ExecutionWorker.OutboxRepository.Claim` | src/mtoss/infrastructure/db/repositories/outbox.py:14-38 | The oldest unpublished, unlocked events of the topic, up to the limit, and all of them when fewer. |
| `ExecutionWorker.OutboxRepository.MarkPublished` | src/mtoss/infrastructure/db/repositories/outbox.py:40-50 | One event is marked and committed; an unknown one raises and changes nothing; the claim ends either way. |
| `ExecutionWorker.Worker.ProcessOne` | src/mtoss/workers/executor.py:70-105 | The oldest waiting event is handled: published untouched when its payload is unusable, else executed exactly once, published when the execution returned or raised a final error, and left alone with that very error raised otherwise; what is published is settled unless the broker raised a final error in this step. |
| `ExecutionWorker.Worker.RunOnce` | src/mtoss/workers/executor.py:60-68 | On returning k, k is the smaller of the limit and the number of waiting events, exactly the k oldest of them are published, and rows and broker calls are those of executing them in order; on raising, it stopped at one event, whose error it raised, with exactly the ones before it published. |
| `ProtocolInvariant.LocksKept` | src/mtoss/application/execution_service.py:34-74 | Every step of every worker keeps the lock discipline: who is inside an execution holds its event and the row of a queued, complete intent. |
| `ProtocolInvariant.OrdersKept` | src/mtoss/ports/broker.py:18-26 | Every step keeps at most one order per account and key taken or on its way. |
| `ProtocolInvariant.WorkKept` | src/mtoss/workers/executor.py:70-105 | Every step keeps the event of every order that still needs work unpublished and out of publishing hands. |
| `ProtocolTheorems.OneOrderPerKeyExactlyWhen` | src/mtoss/ports/broker.py:18-26 | Over all interleavings, crashes and timeouts, at most one order per account and key is accepted, if and only if a lookup finds nothing only when nothing was taken or is still on its way. |
| `ProtocolTheorems.UnsoundLookupDuplicates` | src/mtoss/application/execution_service.py:44-52 | The run that sends one order twice when a lookup overlooks a request on its way. |
| `ProtocolTheorems.RowLockedExactlyInExecution` | src/mtoss/application/execution_service.py:72-74 | In every reachable world a row is locked exactly while one worker is inside an execution of it. |
| `ProtocolTheorems.NoWorkerIsStuck` | src/mtoss/workers/executor.py:70-105 | In every reachable world each worker can take its next step whatever the others do: only the lock of a row can make it wait, and an idle one can claim exactly the unheld unpublished events of its topic. |
| `ProtocolTheorems.OnlyClashesStopStoring` | src/mtoss/infrastructure/db/repositories/orders.py:19-77 | An intent may be stored at any moment unless its id, event or key is in use, and exactly a queued one brings its own event; other events may be stored beside it. |
| `ProtocolTheorems.CrashLosesOnlyItsLocks` | src/mtoss/application/execution_service.py:72-74 | A worker may die at any point; exactly the locks it held go, and rows, events and requests on their way stay. |
| `ProtocolTheorems.NoWorkStrandedExactlyWhen` | src/mtoss/workers/executor.py:25-35 | Every committed queued intent with evidence keeps an unpublished event naming it, if and only if the broker never raises the worker's final errors and no consumer without a topic runs. |
| `ProtocolTheorems.TopiclessConsumerStrands` | src/mtoss/application/outbox_dispatcher.py:22-39 | The run in which a consumer of every topic publishes an order nobody executed. |
| `ProtocolTheorems.FinalBrokerErrorStrands` | src/mtoss/workers/executor.py:86-94 | The run in which a broker error taken as final publishes an order that was never sent. |
| `ProtocolTheorems.SettlesOnlyWhenDone` | src/mtoss/workers/executor.py:70-105 | A worker goes to publish an event only when its payload is unusable or its intent is missing, without evidence or past QUEUED. |
| `ProtocolTheorems.StepAdvancesRows` | src/mtoss/infrastructure/db/repositories/orders.py:113-136 | One step leaves a committed row alone or gives a queued row one whole result along allowed edges. |
| `ProtocolTheorems.ExecutedRowsAreFrozen` | src/mtoss/application/execution_service.py:40-41 | Over any run, a row that has left QUEUED never changes again. |
| `ProtocolRuns.ExecuteIsARun` | src/mtoss/application/execution_service.py:34-74 | The sequential execution is one run of the interleaved protocol: same row, locks, requests and next move. |
| `ProtocolRuns.WaitingOrderCanBeExecuted` | src/mtoss/workers/executor.py:70-105 | From every reachable world, and for every broker that answers, whoever holds the locks may crash and an idle worker can still execute a waiting order, committing exactly the result those answers lead to. |
| `ProtocolRuns.AnsweredIsSaved` | src/mtoss/application/execution_service.py:34-74 | Against any broker whose lookups do not raise, whose submission at worst times out and whose results can be saved, an execution commits a result. |
| `FakeBrokerRuns.LookupIsSound` | src/mtoss/infrastructure/broker/fake.py:55-58 | The in-memory broker finds nothing exactly where the port contract permits it: nothing taken under that key and nothing on its way. |
| `FakeBrokerRuns.LookupIsAStep` | src/mtoss/infrastructure/broker/fake.py:55-58 | Every lookup it answers, first or second, is a step of the protocol with sound lookups. |
| `FakeBrokerRuns.SubmissionIsARun` | src/mtoss/infrastructure/broker/fake.py:21-53 | One submission to it is a run of the protocol: the request is taken at once, or dropped as a repeat. |
| `FakeBrokerRuns.SubmitMirrored` | src/mtoss/infrastructure/broker/fake.py:21-53 | The class itself logs a new order once, a repeat not at all, and finds it from then on. |
| `FakeBrokerRuns.ReferencesReadApart` | src/mtoss/infrastructure/broker/fake.py:21-53 | References with one prefix and different numbers are different strings, so the numbering tells orders and positions apart. |
| `FakeBrokerRuns.OneOrderPerKeyOnFakeBroker` | src/mtoss/ports/broker.py:18-26 | In every world reached with sound lookups that this broker mirrors, its log holds at most one order per account and key. |
| `CauseChain.IsDuplicateIntent` | src/mtoss/api/routes/execution.py:31-69 | The walk ends on every finite chain, cyclic ones included, and is true exactly when some exception on it carries the duplicate SQLSTATE and some exception names the idempotency constraint. |
| `FormatTheorems.SplitsWhereWritten` | web/src/lib/format.ts:22-27 | Splitting a plain decimal at its point gives back its two parts. |
| `FormatTheorems.SignIsSplit` | web/src/lib/format.ts:6-15 | Of white space, an optional sign, a plain decimal and white space, the sign and the decimal are recovered. |
| `FormatTheorems.CurrencyTable` | web/src/lib/format.ts:34-40 | Symbol and decimals of the three currencies, and of any other. |
| `FormatTheorems.FixedCuts` | web/src/lib/format.ts:22-27 | Exactly the given number of decimals, cut and never rounded, with at least one integer digit. |
| `FormatTheorems.CutIsUnique` | web/src/lib/format.ts:21-27 | A number has only one cut to a given number of places. |
| `FormatTheorems.ShiftMultiplies` | web/src/lib/format.ts:77-83 | The shifted text denotes the number times the power of ten. |
| `FormatTheorems.SignedPercentIsExact` | web/src/lib/format.ts:56-62 | For every plain decimal written with white space around it and any sign: a minus exactly when the sign is a hyphen or a minus and a plus otherwise, exactly 100 times the magnitude cut to the places, without needless leading zeros, and a percent sign. |
| `FormatTheorems.RatioToPercentIsExact` | web/src/lib/format.ts:71-75 | For every such value: the minus under the same condition and no plus, and the same digits without a unit. |
| `FormatTheorems.GroupingIsExact` | web/src/lib/format.ts:17-19 | Deleting the commas gives the digits back, and the commas stand exactly before every third digit from the right. |
| `FormatTheorems.MoneyIsCut` | web/src/lib/format.ts:34-46 | For every such value: the minus under the same condition, the symbol, and the magnitude cut to the currency's places with its commas in place. |
| `FormatTheorems.TrimKeepsValue` | web/src/lib/format.ts:29-32 | Trimming keeps the number and leaves no zero at the end of the fraction, and no point without a fraction unless it was written so. |
| `FormatTheorems.QuantityIsExact` | web/src/lib/format.ts:86-92 | For every such value: the minus under the same condition and exactly the magnitude, no trailing zero, commas in place; the fraction vanishes exactly when it is zero. |

## Left out

- Rounding of floats and of 28-digit decimals, infinities and NaN: all arithmetic is exact.
- Non-positive lengths, which raise in the source, are excluded by preconditions, as are bars and settings their own validators refuse and non-positive exchange rates.
- Timestamps, identifiers as such, SHA-256 keys and the remaining field validation of the pydantic models; identifiers are natural numbers, keys are strings.
- SizingTheorems.SizesNeverPerverseIff: compares non-negative accounts only, because the budget is an absolute value; SizeIgnoresSignOfEquity says what happens below zero, and the simulator never sizes there.
- BacktestTheorems.EverySignalIsTaken: says that a signal is acted on, not that its entry fills; AwaitedEntryIsSettled says what becomes of it at the next open.
- ExecutionService.Service.Run: one session at a time; waiting for a row lock held elsewhere is in Protocol.
- ExecutionService.OrderRepository.CreateWithOutbox: the risk and approval snapshots are opaque text, and the audit rows of rejected risks are not modelled.
- ExecutionWorker.OutboxRepository.Claim: the payload copies handed out are represented by the positions of their events.
- ProtocolTheorems.OneOrderPerKeyExactlyWhen: a worker that loses its database connection, and with it the row lock, is taken to be dead and to send nothing more.
- ProtocolRuns.WaitingOrderCanBeExecuted: says that a run exists, not that a scheduler takes it; a broker whose answers cannot be saved leaves the order queued, as the code does.
- FormatTheorems.QuantityIsExact: a value written without integer digits and with a zero fraction, such as ".0", prints no digit at all; the statement covers it with an empty integer part.
- Percentages and amounts of text that is not a plain decimal: the functions are modelled on every string, the theorems are about plain decimals.
- signedMoney, percent, isNegative, isZero, pnlTone: short wrappers around the formatting functions modelled.
- The retry with another filling mode, the MT5 session thread, its queues and the link store.
- Risk engine, approval policy, intent creation, idempotency-key construction: short branches that would only add easy members.
- Whether warmup_bars covers the first Hull flip: it does not claim to, and ColourStartsOnTime gives the exact first bar.
- HTTP routes, database schema, Redis, Telegram, console pages, chart helpers and the forever loop around run_once.
