// The simulator in its own imperative form: a ledger that every exit updates in place, a bracket
// dictionary edited in place, and the loop over bars that keeps them in step with the trade state.

module BacktestLoop {
  import opened Prelude
  import opened Market
  import opened Sizing
  import opened TradeManager
  import opened Backtest

  /** The figures an exit updates: the variables captured by the nested recording function. */
  class Ledger {
    var fills: seq<Fill>
    var trades: seq<Trade>
    var openEntries: map<TrancheRole, Fill>
    var equity: real
    var peakEquity: real
    var maxDrawdown: real
    var ruined: bool

    function View(): Book
      reads this
    {
      Book(fills, trades, openEntries, equity, peakEquity, maxDrawdown, ruined)
    }

    constructor (initialEquity: real)
      ensures View() == Book([], [], map[], initialEquity, initialEquity, 0.0, false)
    {
      fills, trades, openEntries := [], [], map[];
      equity, peakEquity, maxDrawdown, ruined := initialEquity, initialEquity, 0.0, false;
    }

    method Record(rate: real, index: int, role: TrancheRole, price: real, reason: CloseReason)
      modifies this
      ensures View() == RecordExit(old(View()), rate, index, role, price, reason)
    {
      if role !in openEntries { return; }
      var entry := openEntries[role];
      openEntries := openEntries - {role};
      fills := fills + [Fill(index, Exit, role, entry.side, price, entry.quantity, Some(reason))];
      var trade := TradeFor(entry, index, role, price, reason);
      trades := trades + [trade];
      equity := equity + trade.Profit(rate);
      peakEquity := MaxReal(peakEquity, equity);
      maxDrawdown := MaxReal(maxDrawdown, peakEquity - equity);
      if equity <= 0.0 {
        ruined := true;
      }
    }

    method Enter(fill: Fill)
      modifies this
      ensures View() == AddEntry(old(View()), fill)
    {
      fills := fills + [fill];
      openEntries := openEntries[fill.role := fill];
    }
  }

  class BracketMap {
    var items: seq<Bracket>

    constructor ()
      ensures items == []
    {
      items := [];
    }

    method Pop(role: TrancheRole)
      modifies this
      ensures items == PopBracket(old(items), role)
    {
      items := PopBracket(items, role);
    }

    method Apply(action: TradeAction, state: TradeState, index: int)
      modifies this
      ensures items == RegisterOne(action, state, old(items), index)
    {
      items := RegisterOne(action, state, items, index);
    }

    /** Applies bracket changes at once and returns the market orders for the next bar. */
    method RegisterActions(actions: seq<TradeAction>, state: TradeState, index: int) returns (deferred: seq<TradeAction>)
      modifies this
      ensures items == Register(actions, state, old(items), index).0
      ensures deferred == Register(actions, state, old(items), index).1
    {
      hide RegisterOne;
      deferred := [];
      ghost var all := Register(actions, state, items, index);
      assert actions[0..] == actions;
      var i := 0;
      while i < |actions|
        invariant 0 <= i <= |actions|
        invariant Register(actions[i..], state, items, index).0 == all.0
        invariant deferred + Register(actions[i..], state, items, index).1 == all.1
      {
        assert actions[i..][0] == actions[i] && actions[i..][1..] == actions[i + 1..];
        Apply(actions[i], state, index);
        if Deferred(actions[i]) {
          deferred := deferred + [actions[i]];
        }
        i := i + 1;
      }
      assert actions[i..] == [];
    }
  }

  method FillQueued(queued: seq<TradeAction>, index: int, bar: Bar, rate: real, brackets: BracketMap, ledger: Ledger)
    returns (entered: seq<TradeAction>)
    modifies brackets, ledger
    ensures (brackets.items, ledger.View()) == FillCloses(queued, index, bar, rate, old(brackets.items), old(ledger.View()))
    ensures entered == OpensIn(queued)
  {
    entered := [];
    var i := 0;
    while i < |queued|
      invariant 0 <= i <= |queued|
      invariant FillCloses(queued[i..], index, bar, rate, brackets.items, ledger.View())
                == FillCloses(queued, index, bar, rate, old(brackets.items), old(ledger.View()))
      invariant entered + OpensIn(queued[i..]) == OpensIn(queued)
    {
      if queued[i].kind.CloseMarket? {
        brackets.Pop(queued[i].role);
        ledger.Record(rate, index, queued[i].role, bar.open, ReasonOf(queued[i]));
      } else if queued[i].kind.OpenMarket? {
        entered := entered + [queued[i]];
      }
      i := i + 1;
    }
  }

  method FillEntries(entered: seq<TradeAction>, index: int, bar: Bar, quantity: Option<real>, ledger: Ledger)
    returns (ok: bool)
    modifies ledger
    ensures FillOpens(entered, index, bar, quantity, old(ledger.View()))
            == if ok then Ok(ledger.View()) else Raised(AssertionFailed)
  {
    var i := 0;
    while i < |entered|
      invariant 0 <= i <= |entered|
      invariant FillOpens(entered[i..], index, bar, quantity, ledger.View())
                == FillOpens(entered, index, bar, quantity, old(ledger.View()))
    {
      if entered[i].side.None? || quantity.None? { return false; }
      ledger.Enter(EntryFill(entered[i], index, bar, quantity.value));
      i := i + 1;
    }
    ok := true;
  }

  method Fire(index: int, bar: Bar, rate: real, brackets: BracketMap, ledger: Ledger, state: TradeState)
    returns (next: TradeState)
    modifies brackets, ledger
    ensures Standing(brackets.items, ledger.View(), next)
            == FireBrackets(old(brackets.items), index, bar, rate, Standing(old(brackets.items), old(ledger.View()), state))
  {
    next := state;
    var snapshot := brackets.items;
    var i := 0;
    while i < |snapshot|
      invariant 0 <= i <= |snapshot|
      invariant FireBrackets(snapshot[i..], index, bar, rate, Standing(brackets.items, ledger.View(), next))
                == FireBrackets(snapshot, index, bar, rate, Standing(snapshot, old(ledger.View()), state))
    {
      var bracket := snapshot[i];
      var hit := BracketExit(bracket, bar);
      if bracket.activeFrom <= index && hit.Some? {
        brackets.Pop(bracket.role);
        ledger.Record(rate, index, bracket.role, hit.value.0, hit.value.1);
        next := OnTrancheClosed(next, bracket.role, hit.value.1);
      }
      i := i + 1;
    }
  }

  /** Phase 1 over the mutable parts. */
  method PlayOpen(state: TradeState, queued: seq<TradeAction>, skips: seq<Skip>, index: int, bar: Bar,
                  settings: Settings, brackets: BracketMap, ledger: Ledger) returns (ok: bool, plan: EntryPlan)
    requires settings.Valid()
    modifies brackets, ledger
    ensures OpenPhase(Sim(state, old(brackets.items), queued, skips, old(ledger.View())), index, bar, settings)
            == if ok then Ok(MidBar(plan, plan.state, brackets.items, ledger.View())) else Raised(AssertionFailed)
  {
    var entered := FillQueued(queued, index, bar, settings.rate, brackets, ledger);
    plan := PlanEntry(state, entered, index, bar, ledger.View(), skips, settings);
    ok := FillEntries(plan.entered, index, bar, plan.quantity, ledger);
  }

  /** Phase 3 over the mutable parts. */
  method PlayScript(plan: EntryPlan, state: TradeState, index: int, bar: Bar, signal: BarSignal, config: Config,
                    brackets: BracketMap, ledger: Ledger)
    returns (result: Outcome<(TradeState, seq<TradeAction>), BacktestError>)
    modifies brackets
    ensures ScriptPhase(MidBar(plan, state, old(brackets.items), ledger.View()), index, bar, signal, config)
            == match result
               case Raised(error) => Raised(error)
               case Ok((next, queued)) => Ok(Sim(next, brackets.items, queued, plan.skips, ledger.View()))
  {
    var next, queued: seq<TradeAction> := state, [];
    if plan.entered != [] {
      var entry := OnEntryFilledStepwise(state, bar.open, index, config, plan.quantity, state.referenceClose);
      if entry.Raised? { return Raised(ManagerRaised(entry.error)); }
      next := entry.value.state;
      queued := brackets.RegisterActions(entry.value.actions, next, index);
    }
    var decision := OnBarCloseStepwise(next, bar, signal, config);
    var more := brackets.RegisterActions(decision.actions, decision.state, index);
    result := Ok((decision.state, queued + more));
  }

  lemma RaisedStays(bars: seq<Bar>, signals: seq<BarSignal>, settings: Settings, m: nat, n: nat)
    requires settings.Valid() && m <= n <= |bars| == |signals|
    requires RunTo(bars, signals, settings, m).Raised?
    ensures RunTo(bars, signals, settings, n) == RunTo(bars, signals, settings, m)
  {
    if m < n { RaisedStays(bars, signals, settings, m, n - 1); }
  }

  /** One pass of the bar loop. */
  method PlayBar(state: TradeState, queued: seq<TradeAction>, skips: seq<Skip>, index: int, bar: Bar, signal: BarSignal,
                 settings: Settings, brackets: BracketMap, ledger: Ledger)
    returns (result: Outcome<(TradeState, seq<TradeAction>, seq<Skip>), BacktestError>)
    requires settings.Valid()
    modifies brackets, ledger
    ensures BarStep(Sim(state, old(brackets.items), queued, skips, old(ledger.View())), index, bar, signal, settings)
            == match result
               case Raised(error) => Raised(error)
               case Ok((next, queue, skipped)) => Ok(Sim(next, brackets.items, queue, skipped, ledger.View()))
  {
    var ok, plan := PlayOpen(state, queued, skips, index, bar, settings, brackets, ledger);
    if !ok { return Raised(AssertionFailed); }
    var fired := Fire(index, bar, settings.rate, brackets, ledger, plan.state);
    var script := PlayScript(plan, fired, index, bar, signal, settings.config, brackets, ledger);
    if script.Raised? { return Raised(script.error); }
    result := Ok((script.value.0, script.value.1, plan.skips));
  }

  /** The bar loop over a given signal per bar. */
  method Simulate(bars: seq<Bar>, signals: seq<BarSignal>, settings: Settings)
    returns (result: Outcome<BacktestResult, BacktestError>)
    requires settings.Valid() && |bars| == |signals|
    ensures result == Report(RunTo(bars, signals, settings, |bars|), settings)
  {
    hide BarStep;
    var state, queued: seq<TradeAction>, skips: seq<Skip> := EMPTY_STATE, [], [];
    var brackets := new BracketMap();
    var ledger := new Ledger(settings.initialEquity);
    var index := 0;
    while index < |bars|
      invariant 0 <= index <= |bars|
      invariant fresh(brackets) && fresh(ledger)
      invariant RunTo(bars, signals, settings, index) == Ok(Sim(state, brackets.items, queued, skips, ledger.View()))
    {
      var played := PlayBar(state, queued, skips, index, bars[index], signals[index], settings, brackets, ledger);
      index := index + 1;
      if played.Raised? {
        RaisedStays(bars, signals, settings, index, |bars|);
        return Raised(played.error);
      }
      state, queued, skips := played.value.0, played.value.1, played.value.2;
    }
    result := Ok(BacktestResult(ledger.fills, ledger.trades, skips, state, settings.initialEquity,
                                ledger.equity, ledger.peakEquity, ledger.maxDrawdown, ledger.ruined));
  }
}
