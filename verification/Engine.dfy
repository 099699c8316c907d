/**
 * The single-symbol backtest engine.
 *
 * Per candle: execute the pending intent at the open, then look for a
 * protective exit, then ask the provider at the close.
 */
module Engine {
  import opened Results
  import opened Timeframes
  import opened Candles
  import opened Series
  import opened Totals
  import opened MathRules
  import opened Intents

  datatype Side = Buy | Sell

  datatype FillReason = MarketEntry | ExplicitExit | StopLoss | TakeProfit | EndOfData

  datatype EngineError =
    | InvalidCandles(series: SeriesError)
    | InputHashMismatch
    | ProviderFailed
    | NotATuple
    | TooManyIntents
    | UnknownIntent
    | InvalidIntent(intent: IntentError)
    | DecisionTimeMismatch
    | EntryRejectedWhileOpen
    | ExitRejectedWhileFlat
    | CannotEnterWhileOpen
    | CannotExitWhileFlat
    | NonPositivePrice
    | BracketsInvalid(bracket: IntentError)
    | NotionalTooSmall
    | NormalizedBracketsInvalid
    | PositionOpenAtEnd

  /** Identifiers are the sequence numbers that the program renders as text. */
  datatype Fill = Fill(
    fillId: nat,
    intentId: Option<string>,
    positionId: nat,
    barIndex: nat,
    fillTime: Instant,
    side: Side,
    direction: Direction,
    reason: FillReason,
    referencePrice: real,
    fillPrice: real,
    quantity: real,
    notional: real,
    fee: real,
    tickNormalized: bool)

  datatype Position = Position(
    positionId: nat,
    entryIntentId: string,
    direction: Direction,
    quantity: real,
    entryDecisionTime: Instant,
    entryFillTime: Instant,
    entryPrice: real,
    entryFee: real,
    stopLoss: real,
    takeProfit: real,
    entryBarIndex: nat)

  datatype OpenPosition = OpenPosition(snapshot: Position, entryFill: Fill)

  datatype Trade = Trade(
    tradeId: nat,
    positionId: nat,
    direction: Direction,
    quantity: real,
    entryFillId: nat,
    exitFillId: nat,
    entryTime: Instant,
    exitTime: Instant,
    entryPrice: real,
    exitPrice: real,
    stopLoss: real,
    takeProfit: real,
    exitReason: FillReason,
    entryFee: real,
    exitFee: real,
    totalFees: real,
    grossPnl: real,
    netPnl: real,
    barsHeld: int,
    sameBarAmbiguityUsed: bool)

  datatype DecisionContext = DecisionContext(
    candle: Candle,
    barIndex: nat,
    symbol: string,
    timeframe: Timeframe,
    position: Option<Position>,
    realizedEquity: real,
    lastClosedTrade: Option<Trade>,
    candlesProcessed: nat)

  /** An item of the provider's tuple: an intent, or some other object. */
  datatype ReplyItem = Known(intent: Intent) | Foreign

  datatype ProviderReply = Raised | NonTuple | Items(items: seq<ReplyItem>)

  /** A provider may keep state, so its reply depends on every context it has been given. */
  type Provider = seq<DecisionContext> -> ProviderReply

  datatype Setup = Setup(symbol: string, timeframe: Timeframe, policy: Policy, provider: Provider)

  // ---------- executing one fill ----------

  function MarketFill(policy: Policy, side: Side, reference: real): real {
    if side.Buy?
    then BuyFill(reference, policy.marketSlippageBps, policy.tickSize)
    else SellFill(reference, policy.marketSlippageBps, policy.tickSize)
  }

  function Slipped(policy: Policy, side: Side, reference: real): real {
    if side.Buy?
    then BuySlippage(reference, policy.marketSlippageBps)
    else SellSlippage(reference, policy.marketSlippageBps)
  }

  function NormalizedStop(policy: Policy, e: EnterIntent): real {
    if e.direction.Long? then FloorToTick(e.stopLoss, policy.tickSize) else CeilToTick(e.stopLoss, policy.tickSize)
  }

  function NormalizedTarget(policy: Policy, e: EnterIntent): real {
    if e.direction.Long? then FloorToTick(e.takeProfit, policy.tickSize) else CeilToTick(e.takeProfit, policy.tickSize)
  }

  function ExecuteEntry(
    policy: Policy, e: EnterIntent, candle: Candle, barIndex: nat, fillSeq: nat, positionSeq: nat, equity: real)
    : Result<(Fill, OpenPosition, real), EngineError>
  {
    var side := if e.direction.Long? then Buy else Sell;
    var slipped := Slipped(policy, side, candle.open);
    var fillPrice := MarketFill(policy, side, candle.open);
    var brackets := ValidateBrackets(e, fillPrice);
    var notional := Notional(fillPrice, e.quantity);
    var fee := ComputeFee(fillPrice, e.quantity, policy.takerFeeBps);
    var stop, target := NormalizedStop(policy, e), NormalizedTarget(policy, e);
    if fillPrice <= 0.0 then Err(NonPositivePrice)
    else if brackets.Err? then Err(BracketsInvalid(brackets.error))
    else if notional < policy.minimumNotional then Err(NotionalTooSmall)
    else if stop <= 0.0 || target <= 0.0 then Err(NonPositivePrice)
    else if e.direction.Long? && !(stop < fillPrice < target) then Err(NormalizedBracketsInvalid)
    else if e.direction.Short? && !(target < fillPrice < stop) then Err(NormalizedBracketsInvalid)
    else
      var fill := Fill(
        fillSeq, Some(e.intentId), positionSeq, barIndex, candle.openTime, side, e.direction, MarketEntry,
        candle.open, fillPrice, e.quantity, notional, fee, fillPrice != slipped);
      var snapshot := Position(
        positionSeq, e.intentId, e.direction, e.quantity, e.decisionOpenTime, candle.openTime,
        fillPrice, fee, stop, target, barIndex);
      Ok((fill, OpenPosition(snapshot, fill), equity - fee))
  }

  function GrossPnl(direction: Direction, entryPrice: real, exitPrice: real, quantity: real): real {
    if direction.Long? then (exitPrice - entryPrice) * quantity else (entryPrice - exitPrice) * quantity
  }

  function ExecuteExit(
    policy: Policy, position: OpenPosition, intentId: Option<string>, candle: Candle, barIndex: nat,
    fillSeq: nat, tradeSeq: nat, reason: FillReason, reference: real, equity: real, ambiguity: bool)
    : Result<(Fill, Trade, real), EngineError>
  {
    var snap := position.snapshot;
    var side := if snap.direction.Short? then Buy else Sell;
    var slipped := Slipped(policy, side, reference);
    var fillPrice := MarketFill(policy, side, reference);
    if fillPrice <= 0.0 then Err(NonPositivePrice)
    else
      var fee := ComputeFee(fillPrice, snap.quantity, policy.takerFeeBps);
      var notional := Notional(fillPrice, snap.quantity);
      var gross := GrossPnl(snap.direction, snap.entryPrice, fillPrice, snap.quantity);
      var net := gross - snap.entryFee - fee;
      var time := if reason.EndOfData? then candle.closeTime else candle.openTime;
      var fill := Fill(
        fillSeq, intentId, snap.positionId, barIndex, time, side, snap.direction, reason,
        reference, fillPrice, snap.quantity, notional, fee, fillPrice != slipped);
      var trade := Trade(
        tradeSeq, snap.positionId, snap.direction, snap.quantity, position.entryFill.fillId, fillSeq,
        snap.entryFillTime, time, snap.entryPrice, fillPrice, snap.stopLoss, snap.takeProfit, reason,
        snap.entryFee, fee, snap.entryFee + fee, gross, net, barIndex - snap.entryBarIndex, ambiguity);
      Ok((fill, trade, equity + gross - fee))
  }

  predicate StopTouched(direction: Direction, stopLoss: real, candle: Candle) {
    if direction.Long? then candle.low <= stopLoss else candle.high >= stopLoss
  }

  predicate TargetTouched(direction: Direction, takeProfit: real, candle: Candle) {
    if direction.Long? then candle.high >= takeProfit else candle.low <= takeProfit
  }

  /** The protective level that triggers, its price, and whether the bar was ambiguous. */
  function EvaluateProtective(p: Position, candle: Candle): Option<(FillReason, real, bool)> {
    var stopHit := StopTouched(p.direction, p.stopLoss, candle);
    var targetHit := TargetTouched(p.direction, p.takeProfit, candle);
    if stopHit && targetHit then Some((StopLoss, p.stopLoss, true))
    else if stopHit then Some((StopLoss, p.stopLoss, false))
    else if targetHit then Some((TakeProfit, p.takeProfit, false))
    else None
  }

  function SelectIntent(policy: Policy, reply: ProviderReply, decisionOpenTime: Instant, hasPosition: bool)
    : Result<Option<Intent>, EngineError>
  {
    match reply
    case Raised => Err(ProviderFailed)
    case NonTuple => Err(NotATuple)
    case Items(items) =>
      if |items| > 1 then Err(TooManyIntents)
      else if items == [] then Ok(None)
      else match items[0]
        case Foreign => Err(UnknownIntent)
        case Known(Enter(e)) =>
          var checked := ValidateForPolicy(e, policy);
          if checked.Err? then Err(InvalidIntent(checked.error))
          else if e.decisionOpenTime != decisionOpenTime then Err(DecisionTimeMismatch)
          else if hasPosition then Err(EntryRejectedWhileOpen)
          else Ok(Some(Enter(e)))
        case Known(Exit(x)) =>
          var checked := ValidateIntentId(x.intentId);
          if checked.Err? then Err(InvalidIntent(checked.error))
          else if x.decisionOpenTime != decisionOpenTime then Err(DecisionTimeMismatch)
          else if !hasPosition then Err(ExitRejectedWhileFlat)
          else Ok(Some(Exit(x)))
  }

  // ---------- one run as a state machine ----------

  /** Everything a run carries from one step to the next. */
  datatype Ledger = Ledger(
    equity: real,
    curve: seq<real>,
    fills: seq<Fill>,
    trades: seq<Trade>,
    position: Option<OpenPosition>,
    pending: Option<Intent>,
    fillSeq: nat,
    tradeSeq: nat,
    positionSeq: nat,
    contexts: seq<DecisionContext>)
  {
    function Opened(fill: Fill, entered: OpenPosition, newEquity: real): Ledger {
      this.(equity := newEquity, curve := curve + [newEquity], fills := fills + [fill], position := Some(entered),
            pending := None, fillSeq := fillSeq + 1, positionSeq := positionSeq + 1)
    }

    function Closed(fill: Fill, trade: Trade, newEquity: real): Ledger {
      this.(equity := newEquity, curve := curve + [newEquity], fills := fills + [fill], trades := trades + [trade],
            position := None, pending := None, fillSeq := fillSeq + 1, tradeSeq := tradeSeq + 1)
    }
  }

  function Start(policy: Policy): Ledger {
    Ledger(policy.initialEquity, [policy.initialEquity], [], [], None, None, 0, 0, 0, [])
  }

  function Exited(
    policy: Policy, s: Ledger, position: OpenPosition, intentId: Option<string>, candle: Candle, i: nat,
    reason: FillReason, reference: real, ambiguity: bool): Result<Ledger, EngineError>
  {
    var (fill, trade, equity) :- ExecuteExit(
                                   policy, position, intentId, candle, i, s.fillSeq + 1, s.tradeSeq + 1,
                                   reason, reference, s.equity, ambiguity);
    Ok(s.Closed(fill, trade, equity))
  }

  function AtOpen(policy: Policy, s: Ledger, candle: Candle, i: nat): Result<Ledger, EngineError> {
    match s.pending
    case None => Ok(s)
    case Some(Enter(e)) =>
      if s.position.Some? then Err(CannotEnterWhileOpen)
      else
        var (fill, entered, equity) :- ExecuteEntry(policy, e, candle, i, s.fillSeq + 1, s.positionSeq + 1, s.equity);
        Ok(s.Opened(fill, entered, equity))
    case Some(Exit(x)) =>
      if s.position.None? then Err(CannotExitWhileFlat)
      else Exited(policy, s, s.position.value, Some(x.intentId), candle, i, ExplicitExit, candle.open, false)
  }

  function Protect(policy: Policy, s: Ledger, candle: Candle, i: nat): Result<Ledger, EngineError> {
    if s.position.None? then Ok(s)
    else match EvaluateProtective(s.position.value.snapshot, candle)
      case None => Ok(s)
      case Some((reason, reference, ambiguity)) =>
        Exited(policy, s, s.position.value, None, candle, i, reason, reference, ambiguity)
  }

  function ContextAt(e: Setup, s: Ledger, candle: Candle, i: nat): DecisionContext {
    DecisionContext(
      candle, i, e.symbol, e.timeframe,
      match s.position case None => None case Some(p) => Some(p.snapshot),
      s.equity,
      if s.trades == [] then None else Some(s.trades[|s.trades| - 1]),
      i + 1)
  }

  function Decide(e: Setup, s: Ledger, candle: Candle, i: nat): Result<Ledger, EngineError> {
    var contexts := s.contexts + [ContextAt(e, s, candle, i)];
    var pending :- SelectIntent(e.policy, e.provider(contexts), candle.openTime, s.position.Some?);
    Ok(s.(pending := pending, contexts := contexts))
  }

  function Bar(e: Setup, s: Ledger, candle: Candle, i: nat): Result<Ledger, EngineError> {
    var afterOpen :- AtOpen(e.policy, s, candle, i);
    var afterTouch :- Protect(e.policy, afterOpen, candle, i);
    Decide(e, afterTouch, candle, i)
  }

  /** The ledger after the first n bars. */
  function RunBars(e: Setup, candles: seq<Candle>, n: nat): (r: Result<Ledger, EngineError>)
    requires n <= |candles|
    ensures r.Ok? ==> r.value.curve != []
    decreases n, 0
  {
    if n == 0 then Ok(Start(e.policy)) else NextBar(e, candles, n - 1)
  }

  /** The ledger after the first i bars and bar i. */
  function NextBar(e: Setup, candles: seq<Candle>, i: nat): (r: Result<Ledger, EngineError>)
    requires i < |candles|
    ensures r.Ok? ==> r.value.curve != []
    decreases i, 1
  {
    var s :- RunBars(e, candles, i);
    Bar(e, s, candles[i], i)
  }

  /** The forced close; a pending intent is recorded as unfilled rather than executed. */
  function AtEnd(policy: Policy, s: Ledger, candles: seq<Candle>): (r: Result<Ledger, EngineError>)
    requires candles != []
    ensures r.Ok? && s.curve != [] ==> r.value.curve != []
  {
    var last := |candles| - 1;
    if s.position.None? then Ok(s)
    else if !policy.forceCloseAtEnd then Err(PositionOpenAtEnd)
    else Exited(policy, s, s.position.value, None, candles[last], last, EndOfData, candles[last].close, false)
  }

  // ---------- results ----------

  datatype Summary = Summary(
    initialEquity: real,
    finalEquity: real,
    grossPnl: real,
    netPnl: real,
    totalFees: real,
    closedTradeCount: nat,
    winningTradeCount: nat,
    losingTradeCount: nat,
    breakevenTradeCount: nat,
    forcedCloseCount: nat,
    stopLossCount: nat,
    takeProfitCount: nat,
    explicitExitCount: nat,
    unfilledIntentCount: nat,
    maxRealizedEquityDrawdown: real,
    inputCandleCount: nat,
    inputCandleHash: string,
    policyHash: string)

  /** The digests of a run's input and of its policy. */
  datatype RunHashes = RunHashes(candles: seq<Candle> -> string, policy: Policy -> string)

  datatype BacktestResult = BacktestResult(
    symbol: string,
    timeframe: Timeframe,
    policy: Policy,
    fills: seq<Fill>,
    trades: seq<Trade>,
    unfilled: seq<Intent>,
    equityCurve: seq<real>,
    summary: Summary)

  function Count<T>(items: seq<T>, holds: T -> bool): (n: nat)
    ensures n <= |items|
  {
    if items == [] then 0 else Count(items[..|items| - 1], holds) + (if holds(items[|items| - 1]) then 1 else 0)
  }

  function GrossOf(t: Trade): real { t.grossPnl }
  function NetOf(t: Trade): real { t.netPnl }
  function FeeOf(f: Fill): real { f.fee }
  predicate IsWin(t: Trade) { t.netPnl > 0.0 }
  predicate IsLoss(t: Trade) { t.netPnl < 0.0 }
  predicate IsFlat(t: Trade) { t.netPnl == 0.0 }
  predicate IsForcedClose(t: Trade) { t.exitReason.EndOfData? }
  predicate IsStopLoss(t: Trade) { t.exitReason.StopLoss? }
  predicate IsTakeProfit(t: Trade) { t.exitReason.TakeProfit? }
  predicate IsExplicitExit(t: Trade) { t.exitReason.ExplicitExit? }

  function Peak(curve: seq<real>): real
    requires curve != []
  {
    var last := |curve| - 1;
    if last == 0 then curve[0] else Max(Peak(curve[..last]), curve[last])
  }

  /** The drawdown the loop computes. */
  function Drawdown(curve: seq<real>): real
    requires curve != []
  {
    var last := |curve| - 1;
    if last == 0 then 0.0 else Max(Drawdown(curve[..last]), Peak(curve) - curve[last])
  }

  method MaxDrawdown(curve: seq<real>) returns (maxDrawdown: real)
    requires curve != []
    ensures maxDrawdown == Drawdown(curve)
  {
    var peak := curve[0];
    maxDrawdown := 0.0;
    for i := 0 to |curve|
      invariant i == 0 ==> peak == curve[0] && maxDrawdown == 0.0
      invariant i > 0 ==> peak == Peak(curve[..i]) && maxDrawdown == Drawdown(curve[..i])
    {
      assert curve[..i + 1][..i] == curve[..i];
      var value := curve[i];
      if value > peak { peak := value; }
      var decline := peak - value;
      if decline > maxDrawdown { maxDrawdown := decline; }
    }
    assert curve[..|curve|] == curve;
  }

  function BuildSummary(
    policy: Policy, equity: real, drawdown: real, fills: seq<Fill>, trades: seq<Trade>, unfilledCount: nat,
    candleCount: nat, candleHash: string, policyHash: string): Summary
  {
    Summary(
      policy.initialEquity,
      equity,
      Total(trades, GrossOf),
      Total(trades, NetOf),
      Total(fills, FeeOf),
      |trades|,
      Count(trades, IsWin),
      Count(trades, IsLoss),
      Count(trades, IsFlat),
      Count(trades, IsForcedClose),
      Count(trades, IsStopLoss),
      Count(trades, IsTakeProfit),
      Count(trades, IsExplicitExit),
      unfilledCount,
      drawdown,
      candleCount,
      candleHash,
      policyHash)
  }

  function BuildResult(
    e: Setup, s: Ledger, unfilled: seq<Intent>, candleCount: nat, candleHash: string, policyHash: string)
    : BacktestResult
    requires s.curve != []
  {
    BacktestResult(
      e.symbol, e.timeframe, e.policy, s.fills, s.trades, unfilled, s.curve,
      BuildSummary(
        e.policy, s.equity, Drawdown(s.curve), s.fills, s.trades, |unfilled|, candleCount, candleHash,
        policyHash))
  }

  /** What a caller of the engine gets. */
  function RunResult(e: Setup, candles: seq<Candle>, expectedHash: Option<string>, hash: RunHashes)
    : Result<BacktestResult, EngineError>
  {
    match FirstDefect(candles, e.timeframe)
    case Some(defect) => Err(InvalidCandles(defect))
    case None =>
      if expectedHash.Some? && expectedHash.value != hash.candles(candles) then Err(InputHashMismatch)
      else
        var s :- RunBars(e, candles, |candles|);
        var final :- AtEnd(e.policy, s, candles);
        Ok(BuildResult(e, final, Unfilled(s), |candles|, hash.candles(candles), hash.policy(e.policy)))
  }

  function Unfilled(s: Ledger): seq<Intent> {
    match s.pending case None => [] case Some(intent) => [intent]
  }

  lemma {:induction false} ErrorsAreFinal(e: Setup, candles: seq<Candle>, i: nat, n: nat)
    requires i <= n <= |candles| && RunBars(e, candles, i).Err?
    ensures RunBars(e, candles, n) == RunBars(e, candles, i)
  {
    hide Bar;
    if i < n { ErrorsAreFinal(e, candles, i, n - 1); }
  }

  /** The variables one run updates in place. */
  class RunState {
    const setup: Setup
    var equity: real
    var curve: seq<real>
    var fills: seq<Fill>
    var trades: seq<Trade>
    var position: Option<OpenPosition>
    var pending: Option<Intent>
    var fillSeq: nat
    var tradeSeq: nat
    var positionSeq: nat
    var contexts: seq<DecisionContext>

    constructor (setup: Setup)
      ensures this.setup == setup && State() == Start(setup.policy)
    {
      this.setup := setup;
      equity, curve := setup.policy.initialEquity, [setup.policy.initialEquity];
      fills, trades, contexts := [], [], [];
      position, pending := None, None;
      fillSeq, tradeSeq, positionSeq := 0, 0, 0;
    }

    ghost function State(): Ledger
      reads this
    {
      Ledger(equity, curve, fills, trades, position, pending, fillSeq, tradeSeq, positionSeq, contexts)
    }

    /** Steps 1 to 4: the pending market intent, at the open. */
    method ExecutePending(candle: Candle, i: nat) returns (r: Result<(), EngineError>)
      modifies this
      ensures match AtOpen(setup.policy, old(State()), candle, i)
        case Ok(s) => r.Ok? && State() == s
        case Err(e) => r == Err(e)
    {
      hide ExecuteEntry, ExecuteExit;
      if pending.Some? {
        match pending.value {
          case Enter(intent) =>
            if position.Some? {
              return Err(CannotEnterWhileOpen);
            }
            fillSeq, positionSeq := fillSeq + 1, positionSeq + 1;
            var entry :- ExecuteEntry(setup.policy, intent, candle, i, fillSeq, positionSeq, equity);
            equity := entry.2;
            fills, curve := fills + [entry.0], curve + [equity];
            position := Some(entry.1);
          case Exit(intent) =>
            if position.None? {
              return Err(CannotExitWhileFlat);
            }
            var _ :- Close(Some(intent.intentId), candle, i, ExplicitExit, candle.open, false);
        }
        pending := None;
      }
      return Ok(());
    }

    /** Books the exit of the open position. */
    method Close(
      intentId: Option<string>, candle: Candle, i: nat, reason: FillReason, reference: real, ambiguity: bool)
      returns (r: Result<(), EngineError>)
      requires position.Some?
      modifies this
      ensures match Exited(
          setup.policy, old(State()), old(position.value), intentId, candle, i, reason, reference, ambiguity)
        case Ok(s) => r.Ok? && State() == s
        case Err(e) => r == Err(e)
    {
      hide ExecuteExit;
      fillSeq, tradeSeq := fillSeq + 1, tradeSeq + 1;
      var exit :- ExecuteExit(
        setup.policy, position.value, intentId, candle, i, fillSeq, tradeSeq, reason, reference, equity, ambiguity);
      equity := exit.2;
      fills, curve := fills + [exit.0], curve + [equity];
      trades := trades + [exit.1];
      position, pending := None, None;
      return Ok(());
    }

    /** Steps 5 to 7: protective exits, including on the entry bar. */
    method ExecuteProtective(candle: Candle, i: nat) returns (r: Result<(), EngineError>)
      modifies this
      ensures match Protect(setup.policy, old(State()), candle, i)
        case Ok(s) => r.Ok? && State() == s
        case Err(e) => r == Err(e)
    {
      if position.Some? {
        var trigger := EvaluateProtective(position.value.snapshot, candle);
        if trigger.Some? {
          r := Close(None, candle, i, trigger.value.0, trigger.value.1, trigger.value.2);
          return;
        }
      }
      return Ok(());
    }

    /** Steps 8 to 10: the decision at the close. */
    method AskProvider(candle: Candle, i: nat) returns (r: Result<(), EngineError>)
      modifies this
      ensures match Decide(setup, old(State()), candle, i)
        case Ok(s) => r.Ok? && State() == s
        case Err(e) => r == Err(e)
    {
      var _ := OpenDecision(candle, i);
      r := TakeReply(setup.provider(contexts), candle);
    }

    /** The context of this bar, recorded as given. */
    method OpenDecision(candle: Candle, i: nat) returns (context: DecisionContext)
      modifies this
      ensures context == ContextAt(setup, old(State()), candle, i)
      ensures State() == old(State()).(contexts := old(contexts) + [context])
    {
      context := DecisionContext(
        candle, i, setup.symbol, setup.timeframe,
        if position.None? then None else Some(position.value.snapshot),
        equity,
        if trades == [] then None else Some(trades[|trades| - 1]),
        i + 1);
      contexts := contexts + [context];
    }

    /** Queues the intent of a reply, or raises. */
    method TakeReply(reply: ProviderReply, candle: Candle) returns (r: Result<(), EngineError>)
      modifies this
      ensures match SelectIntent(setup.policy, reply, candle.openTime, old(position).Some?)
        case Ok(p) => r.Ok? && State() == old(State()).(pending := p)
        case Err(e) => r == Err(e)
    {
      pending :- SelectIntent(setup.policy, reply, candle.openTime, position.Some?);
      return Ok(());
    }

    method ForceClose(candles: seq<Candle>) returns (r: Result<(), EngineError>)
      requires candles != []
      modifies this
      ensures match AtEnd(setup.policy, old(State()), candles)
        case Ok(s) => r.Ok? && State() == s
        case Err(e) => r == Err(e)
    {
      if position.Some? {
        if !setup.policy.forceCloseAtEnd {
          return Err(PositionOpenAtEnd);
        }
        var final := candles[|candles| - 1];
        r := Close(None, final, |candles| - 1, EndOfData, final.close, false);
        return;
      }
      return Ok(());
    }

    /** End of data: the unfilled intent, the forced close, and the result. */
    method Finish(
      candles: seq<Candle>, inputHash: string, hash: RunHashes) returns (r: Result<BacktestResult, EngineError>)
      requires candles != [] && curve != []
      modifies this
      ensures match AtEnd(setup.policy, old(State()), candles)
        case Ok(s) =>
          && s.curve != []
          && r == Ok(BuildResult(setup, s, Unfilled(old(State())), |candles|, inputHash, hash.policy(setup.policy)))
        case Err(e) => r == Err(e)
    {
      hide Drawdown;
      var unfilled: seq<Intent> := [];
      if pending.Some? {
        unfilled := [pending.value];
      }
      var _ :- ForceClose(candles);
      var drawdown := MaxDrawdown(curve);
      return Ok(BacktestResult(
                  setup.symbol, setup.timeframe, setup.policy, fills, trades, unfilled, curve,
                  BuildSummary(
                    setup.policy, equity, drawdown, fills, trades, |unfilled|, |candles|, inputHash,
                    hash.policy(setup.policy))));
    }
  }

  class BacktestEngine {
    const setup: Setup
    const hash: RunHashes

    constructor (setup: Setup, hash: RunHashes)
      ensures this.setup == setup && this.hash == hash
    {
      this.setup := setup;
      this.hash := hash;
    }

    /** The digest of an accepted input. */
    method CheckInput(candles: seq<Candle>, expectedHash: Option<string>) returns (r: Result<string, EngineError>)
      ensures match FirstDefect(candles, setup.timeframe)
        case Some(defect) => r == Err(InvalidCandles(defect))
        case None =>
          && candles != []
          && r == if expectedHash.Some? && expectedHash.value != hash.candles(candles)
                  then Err(InputHashMismatch) else Ok(hash.candles(candles))
    {
      var checked := RequireCanonicalSeries(candles, setup.timeframe);
      if checked.Err? {
        return Err(InvalidCandles(checked.error));
      }
      var inputHash := hash.candles(candles);
      if expectedHash.Some? && expectedHash.value != inputHash {
        return Err(InputHashMismatch);
      }
      return Ok(inputHash);
    }

    method Run(candles: seq<Candle>, expectedHash: Option<string>) returns (r: Result<BacktestResult, EngineError>)
      ensures r == RunResult(setup, candles, expectedHash, hash)
    {
      hide FirstDefect, PlacedAt, IsAligned, AtOpen, Protect, Decide, Drawdown, AtEnd;
      var inputHash :- CheckInput(candles, expectedHash);
      var run := new RunState(setup);
      for i := 0 to |candles|
        invariant run.setup == setup
        invariant RunBars(setup, candles, i) == Ok(run.State())
      {
        StepOrFail(setup, candles, run.State(), i);
        var _ :- run.ExecutePending(candles[i], i);
        var _ :- run.ExecuteProtective(candles[i], i);
        var _ :- run.AskProvider(candles[i], i);
      }
      r := run.Finish(candles, inputHash, hash);
    }
  }

  /** The next bar continues the run, or is where it fails. */
  lemma StepOrFail(e: Setup, candles: seq<Candle>, s: Ledger, i: nat)
    requires i < |candles| && RunBars(e, candles, i) == Ok(s)
    ensures RunBars(e, candles, i + 1) == Bar(e, s, candles[i], i)
    ensures Bar(e, s, candles[i], i).Err? ==> RunBars(e, candles, |candles|) == Err(Bar(e, s, candles[i], i).error)
  {
    hide Bar;
    if Bar(e, s, candles[i], i).Err? { ErrorsAreFinal(e, candles, i + 1, |candles|); }
  }
}
