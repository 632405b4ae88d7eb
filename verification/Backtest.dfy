// The bar-by-bar simulator. One bar has three phases: orders queued at the previous close fill at
// the open, brackets already active fire inside the bar, and the script runs at the close.
//
// `BarStep` and `RunTo` say what a run computes; the loop over the simulator's mutable parts is in
// BacktestLoop and is proved to compute exactly that.

module Backtest {
  import opened Algebra
  import opened Prelude
  import opened Market
  import opened Sizing
  import opened TradeManager

  datatype FillKind = Entry | Exit

  datatype Fill = Fill(
    barIndex: int,
    kind: FillKind,
    role: TrancheRole,
    side: OrderSide,
    price: real,
    quantity: real,
    reason: Option<CloseReason>
  )

  datatype SkipReason = AwaitingConfirmation | BelowMinimum | NoRisk | AccountRuined

  datatype Skip = Skip(
    barIndex: int,
    side: OrderSide,
    reason: SkipReason,
    stopDistance: real,
    budget: real,
    equity: real
  )

  datatype Trade = Trade(
    role: TrancheRole,
    side: OrderSide,
    quantity: real,
    entryBarIndex: int,
    entryPrice: real,
    exitBarIndex: int,
    exitPrice: real,
    reason: CloseReason
  ) {
    /** Signed price move in the direction of the trade. */
    function Points(): real {
      if side.Buy? then exitPrice - entryPrice else entryPrice - exitPrice
    }

    function Profit(rate: real): real {
      Times(Times(Points(), quantity), rate)
    }
  }

  datatype Bracket = Bracket(
    role: TrancheRole,
    side: OrderSide,
    quantity: real,
    stopLoss: real,
    takeProfit: Option<real>,
    activeFrom: int,
    breakeven: bool
  )

  datatype Settings = Settings(
    config: Config,
    spec: SymbolSpec,
    rate: real,
    confirmOverBudget: bool,
    initialEquity: real
  ) {
    predicate Valid() {
      config.Valid() && spec.Valid() && 0.0 < rate
    }
  }

  datatype BacktestError = AssertionFailed | ManagerRaised(error: ManagerError)

  /** The account side of a run: the fill log, the trades, and the running figures. */
  datatype Book = Book(
    fills: seq<Fill>,
    trades: seq<Trade>,
    entries: map<TrancheRole, Fill>,
    equity: real,
    peakEquity: real,
    maxDrawdown: real,
    ruined: bool
  )

  datatype Sim = Sim(
    state: TradeState,
    brackets: seq<Bracket>,
    queued: seq<TradeAction>,
    skips: seq<Skip>,
    book: Book
  )

  datatype BacktestResult = BacktestResult(
    fills: seq<Fill>,
    trades: seq<Trade>,
    skips: seq<Skip>,
    finalState: TradeState,
    initialEquity: real,
    finalEquity: real,
    peakEquity: real,
    maxDrawdown: real,
    ruined: bool
  )

  // ---- The bracket dictionary, in insertion order ------------------------------------------------

  function GetBracket(brackets: seq<Bracket>, role: TrancheRole): Option<Bracket> {
    if brackets == [] then None
    else if brackets[0].role == role then Some(brackets[0])
    else GetBracket(brackets[1..], role)
  }

  /** Overwrites in place, or appends a new key at the end. */
  function PutBracket(brackets: seq<Bracket>, bracket: Bracket): seq<Bracket> {
    if brackets == [] then [bracket]
    else if brackets[0].role == bracket.role then [bracket] + brackets[1..]
    else [brackets[0]] + PutBracket(brackets[1..], bracket)
  }

  function PopBracket(brackets: seq<Bracket>, role: TrancheRole): seq<Bracket> {
    if brackets == [] then []
    else if brackets[0].role == role then brackets[1..]
    else [brackets[0]] + PopBracket(brackets[1..], role)
  }

  /** The dictionary of brackets: a role is looked up, overwritten and removed where it stands. */
  lemma {:induction false} BracketsStayInPlace(brackets: seq<Bracket>, i: nat, bracket: Bracket)
    requires i <= |brackets| && forall j :: 0 <= j < i ==> brackets[j].role != bracket.role
    requires i < |brackets| ==> brackets[i].role == bracket.role
    ensures GetBracket(brackets, bracket.role) == if i < |brackets| then Some(brackets[i]) else None
    ensures PutBracket(brackets, bracket) == if i < |brackets| then brackets[i := bracket] else brackets + [bracket]
    ensures PopBracket(brackets, bracket.role) == if i < |brackets| then brackets[..i] + brackets[i + 1..] else brackets
  {
    if 0 < i {
      BracketsStayInPlace(brackets[1..], i - 1, bracket);
      assert brackets == [brackets[0]] + brackets[1..];
      if i < |brackets| {
        assert brackets[..i] == [brackets[0]] + brackets[1..][..i - 1] && brackets[i + 1..] == brackets[1..][i..];
      }
    }
  }

  // ---- Brackets inside a bar ---------------------------------------------------------------------

  /** Whether and how a bracket fills inside a bar; the stop wins when both levels are reachable. */
  function BracketExit(bracket: Bracket, bar: Bar): Option<(real, CloseReason)> {
    var stop, target := bracket.stopLoss, bracket.takeProfit;
    var buy := bracket.side.Buy?;
    var hitStop := if buy then bar.low <= stop else bar.high >= stop;
    var hitTarget := target.Some? && if buy then bar.high >= target.value else bar.low <= target.value;
    var stopPrice := if (if buy then bar.open <= stop else bar.open >= stop) then bar.open else stop;
    if hitStop then
      Some((stopPrice, if bracket.breakeven then BreakevenStop else StopLoss))
    else if hitTarget then
      Some((if (if buy then bar.open >= target.value else bar.open <= target.value) then bar.open else target.value,
            TakeProfit))
    else
      None
  }

  // ---- Recording an exit -------------------------------------------------------------------------

  function TradeFor(entry: Fill, index: int, role: TrancheRole, price: real, reason: CloseReason): Trade {
    Trade(role, entry.side, entry.quantity, entry.barIndex, entry.price, index, price, reason)
  }

  function RecordExit(book: Book, rate: real, index: int, role: TrancheRole, price: real, reason: CloseReason): Book {
    if role !in book.entries then book
    else
      var entry := book.entries[role];
      var trade := TradeFor(entry, index, role, price, reason);
      var equity := book.equity + trade.Profit(rate);
      var peak := MaxReal(book.peakEquity, equity);
      Book(book.fills + [Fill(index, Exit, role, entry.side, price, entry.quantity, Some(reason))],
           book.trades + [trade],
           book.entries - {role},
           equity,
           peak,
           MaxReal(book.maxDrawdown, peak - equity),
           book.ruined || equity <= 0.0)
  }

  // ---- Phase 1: orders queued at the previous close ------------------------------------------------

  function ReasonOf(action: TradeAction): CloseReason {
    if action.reason.Some? then action.reason.value else Reversal
  }

  function FillCloses(queue: seq<TradeAction>, index: int, bar: Bar, rate: real, brackets: seq<Bracket>, book: Book)
      : (seq<Bracket>, Book)
    decreases |queue|
  {
    if queue == [] then (brackets, book)
    else if queue[0].kind.CloseMarket? then
      FillCloses(queue[1..], index, bar, rate, PopBracket(brackets, queue[0].role),
                 RecordExit(book, rate, index, queue[0].role, bar.open, ReasonOf(queue[0])))
    else FillCloses(queue[1..], index, bar, rate, brackets, book)
  }

  function OpensIn(queue: seq<TradeAction>): seq<TradeAction> {
    if queue == [] then []
    else (if queue[0].kind.OpenMarket? then [queue[0]] else []) + OpensIn(queue[1..])
  }

  function SkipFor(settings: Settings, stopDistance: real, equity: real, ruined: bool): Option<(SkipReason, real)>
    requires settings.Valid()
  {
    var outcome := SizeEntry(settings.config, stopDistance, settings.spec, equity, settings.rate);
    if ruined || equity <= 0.0 then Some((AccountRuined, Times(equity, settings.config.riskPct)))
    else if outcome.rejection == Some(NonPositiveRisk) then Some((NoRisk, outcome.budget))
    else if outcome.rejection == Some(BelowBrokerMinimum) || outcome.lots.None? then Some((BelowMinimum, outcome.budget))
    else if outcome.requiresConfirmation && !settings.confirmOverBudget then Some((AwaitingConfirmation, outcome.budget))
    else None
  }

  datatype EntryPlan = EntryPlan(state: TradeState, entered: seq<TradeAction>, quantity: Option<real>, skips: seq<Skip>)

  /** Sizes the queued entries at the open, or gives them up. */
  function PlanEntry(state: TradeState, entered: seq<TradeAction>, index: int, bar: Bar, book: Book,
                     skips: seq<Skip>, settings: Settings): EntryPlan
    requires settings.Valid()
  {
    if entered == [] || state.side.None? || state.pendingStop.None? then EntryPlan(state, entered, None, skips)
    else
      var stopDistance := AbsReal(bar.open - state.pendingStop.value);
      var skip := SkipFor(settings, stopDistance, book.equity, book.ruined);
      if skip.Some? then
        EntryPlan(EMPTY_STATE, [], None,
                  skips + [Skip(index, state.side.value, skip.value.0, stopDistance, skip.value.1, book.equity)])
      else
        EntryPlan(state, entered,
                  SizeEntry(settings.config, stopDistance, settings.spec, book.equity, settings.rate).quantity, skips)
  }

  function EntryFill(action: TradeAction, index: int, bar: Bar, quantity: real): Fill
    requires action.side.Some?
  {
    Fill(index, Entry, action.role, action.side.value, bar.open, quantity, None)
  }

  function AddEntry(book: Book, fill: Fill): Book {
    book.(fills := book.fills + [fill], entries := book.entries[fill.role := fill])
  }

  function FillOpens(entered: seq<TradeAction>, index: int, bar: Bar, quantity: Option<real>, book: Book)
      : Outcome<Book, BacktestError>
    decreases |entered|
  {
    if entered == [] then Ok(book)
    else if entered[0].side.None? || quantity.None? then Raised(AssertionFailed)
    else FillOpens(entered[1..], index, bar, quantity, AddEntry(book, EntryFill(entered[0], index, bar, quantity.value)))
  }

  // ---- Phase 2: brackets ---------------------------------------------------------------------------

  /** What a bracket may change when it fires. */
  datatype Standing = Standing(brackets: seq<Bracket>, book: Book, state: TradeState)

  function FireOne(bracket: Bracket, index: int, bar: Bar, rate: real, at: Standing): Standing {
    var hit := BracketExit(bracket, bar);
    if bracket.activeFrom > index || hit.None? then at
    else Standing(PopBracket(at.brackets, bracket.role),
                  RecordExit(at.book, rate, index, bracket.role, hit.value.0, hit.value.1),
                  OnTrancheClosed(at.state, bracket.role, hit.value.1))
  }

  function FireBrackets(snapshot: seq<Bracket>, index: int, bar: Bar, rate: real, at: Standing): Standing
    decreases |snapshot|
  {
    if snapshot == [] then at
    else FireBrackets(snapshot[1..], index, bar, rate, FireOne(snapshot[0], index, bar, rate, at))
  }

  // ---- Phase 3: the script at the close --------------------------------------------------------------

  function RegisterOne(action: TradeAction, state: TradeState, brackets: seq<Bracket>, index: int): seq<Bracket> {
    match action.kind
    case SetBrackets =>
      var tranche := FindTranche(state.tranches, action.role);
      if tranche.None? || action.stopLoss.None? || tranche.value.quantity.None? then brackets
      else PutBracket(brackets, Bracket(action.role, tranche.value.side, tranche.value.quantity.value,
                                        action.stopLoss.value, action.takeProfit, index + 1, false))
    case MoveStop =>
      var existing := GetBracket(brackets, action.role);
      if existing.None? || action.stopLoss.None? then brackets
      else PutBracket(brackets, existing.value.(stopLoss := action.stopLoss.value, breakeven := true, activeFrom := index + 1))
    case CloseMarket => PopBracket(brackets, action.role)
    case OpenMarket => brackets
  }

  predicate Deferred(action: TradeAction) {
    action.kind.OpenMarket? || action.kind.CloseMarket?
  }

  /** Bracket changes take effect at once; market orders are handed to the next bar. */
  function Register(actions: seq<TradeAction>, state: TradeState, brackets: seq<Bracket>, index: int)
      : (seq<Bracket>, seq<TradeAction>)
    decreases |actions|
  {
    if actions == [] then (brackets, [])
    else
      var (rest, deferred) := Register(actions[1..], state, RegisterOne(actions[0], state, brackets, index), index);
      (rest, (if Deferred(actions[0]) then [actions[0]] else []) + deferred)
  }

  /** The entry confirmation that opens phase 3 when this bar filled entries. */
  function ConfirmEntry(plan: EntryPlan, state: TradeState, brackets: seq<Bracket>, index: int, bar: Bar, config: Config)
      : Outcome<(TradeState, seq<Bracket>, seq<TradeAction>), BacktestError>
  {
    if plan.entered == [] then Ok((state, brackets, []))
    else
      match OnEntryFilled(state, bar.open, index, config, plan.quantity, state.referenceClose)
      case Raised(error) => Raised(ManagerRaised(error))
      case Ok(decision) =>
        var (registered, deferred) := Register(decision.actions, decision.state, brackets, index);
        Ok((decision.state, registered, deferred))
  }

  // ---- One bar, and a run ----------------------------------------------------------------------------

  /** A bar in the middle of its three phases. */
  datatype MidBar = MidBar(plan: EntryPlan, state: TradeState, brackets: seq<Bracket>, book: Book)

  /** Phase 1: market orders fill at the open. */
  function OpenPhase(sim: Sim, index: int, bar: Bar, settings: Settings): Outcome<MidBar, BacktestError>
    requires settings.Valid()
  {
    var (brackets, closed) := FillCloses(sim.queued, index, bar, settings.rate, sim.brackets, sim.book);
    var plan := PlanEntry(sim.state, OpensIn(sim.queued), index, bar, closed, sim.skips, settings);
    match FillOpens(plan.entered, index, bar, plan.quantity, closed)
    case Raised(error) => Raised(error)
    case Ok(book) => Ok(MidBar(plan, plan.state, brackets, book))
  }

  /** Phase 2: brackets active before this bar fire inside it. */
  function BracketPhase(mid: MidBar, index: int, bar: Bar, rate: real): MidBar {
    var after := FireBrackets(mid.brackets, index, bar, rate, Standing(mid.brackets, mid.book, mid.state));
    MidBar(mid.plan, after.state, after.brackets, after.book)
  }

  /** Phase 3: the entry is confirmed first, then the script sees the closed bar. */
  function ScriptPhase(mid: MidBar, index: int, bar: Bar, signal: BarSignal, config: Config): Outcome<Sim, BacktestError> {
    match ConfirmEntry(mid.plan, mid.state, mid.brackets, index, bar, config)
    case Raised(error) => Raised(error)
    case Ok(confirmed) =>
      var decision := OnBarClose(confirmed.0, bar, signal, config);
      var (brackets, queued) := Register(decision.actions, decision.state, confirmed.1, index);
      Ok(Sim(decision.state, brackets, confirmed.2 + queued, mid.plan.skips, mid.book))
  }

  /** The state the script of a bar is handed: after the open, the brackets and the entry confirmation. */
  function ScriptInput(sim: Sim, index: int, bar: Bar, settings: Settings): Outcome<TradeState, BacktestError>
    requires settings.Valid()
  {
    match OpenPhase(sim, index, bar, settings)
    case Raised(error) => Raised(error)
    case Ok(opening) =>
      var mid := BracketPhase(opening, index, bar, settings.rate);
      match ConfirmEntry(mid.plan, mid.state, mid.brackets, index, bar, settings.config)
      case Raised(error) => Raised(error)
      case Ok(confirmed) => Ok(confirmed.0)
  }

  function BarStep(sim: Sim, index: int, bar: Bar, signal: BarSignal, settings: Settings): Outcome<Sim, BacktestError>
    requires settings.Valid()
  {
    match OpenPhase(sim, index, bar, settings)
    case Raised(error) => Raised(error)
    case Ok(mid) => ScriptPhase(BracketPhase(mid, index, bar, settings.rate), index, bar, signal, settings.config)
  }

  function InitialSim(settings: Settings): Sim {
    Sim(EMPTY_STATE, [], [], [], Book([], [], map[], settings.initialEquity, settings.initialEquity, 0.0, false))
  }

  /** The simulator after the first `n` bars. */
  function RunTo(bars: seq<Bar>, signals: seq<BarSignal>, settings: Settings, n: nat): Outcome<Sim, BacktestError>
    requires settings.Valid() && n <= |bars| == |signals|
  {
    if n == 0 then Ok(InitialSim(settings))
    else
      match RunTo(bars, signals, settings, n - 1)
      case Raised(error) => Raised(error)
      case Ok(sim) => BarStep(sim, n - 1, bars[n - 1], signals[n - 1], settings)
  }

  function Report(run: Outcome<Sim, BacktestError>, settings: Settings): Outcome<BacktestResult, BacktestError> {
    match run
    case Raised(error) => Raised(error)
    case Ok(sim) =>
      Ok(BacktestResult(sim.book.fills, sim.book.trades, sim.skips, sim.state, settings.initialEquity,
                        sim.book.equity, sim.book.peakEquity, sim.book.maxDrawdown, sim.book.ruined))
  }
}
