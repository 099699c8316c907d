/** Runs of one planned trade: exactly when such a run completes, and that every run that trades could have been one. */
module TradePlans {
  import opened Results
  import opened Timeframes
  import opened Candles
  import opened Series
  import opened MathRules
  import opened Intents
  import opened Engine
  import opened EngineLedger
  import opened EngineResults
  import opened EngineOrders
  import opened EngineCausality

  // ---------- a run without trades ----------

  /** The contexts of a run that has not traded. */
  function IdleContexts(e: Setup, candles: seq<Candle>, n: nat): (contexts: seq<DecisionContext>)
    requires n <= |candles|
    ensures |contexts| == n && Follows(e, candles, contexts)
  {
    seq(n, b requires 0 <= b < n => ContextAt(e, Start(e.policy), candles[b], b))
  }

  /** A provider that has asked for nothing in its first n replies has been shown exactly the idle contexts. */
  lemma {:induction false} IdleBars(e: Setup, candles: seq<Candle>, n: nat)
    requires n <= |candles|
    requires forall b: nat | 1 <= b <= n :: e.provider(IdleContexts(e, candles, b)) == Items([])
    ensures RunBars(e, candles, n) == Ok(Start(e.policy).(contexts := IdleContexts(e, candles, n)))
  {
    hide Bar, ContextAt;
    if n > 0 {
      IdleBars(e, candles, n - 1);
      IdleGrows(e, candles, n - 1);
      IdleBar(e, IdleContexts(e, candles, n - 1), candles[n - 1], n - 1);
    }
  }

  lemma IdleBar(e: Setup, contexts: seq<DecisionContext>, candle: Candle, n: nat)
    requires e.provider(contexts + [ContextAt(e, Start(e.policy), candle, n)]) == Items([])
    ensures Bar(e, Start(e.policy).(contexts := contexts), candle, n)
      == Ok(Start(e.policy).(contexts := contexts + [ContextAt(e, Start(e.policy), candle, n)]))
  {
  }

  lemma IdleGrows(e: Setup, candles: seq<Candle>, n: nat)
    requires n < |candles|
    ensures IdleContexts(e, candles, n + 1)
      == IdleContexts(e, candles, n) + [ContextAt(e, Start(e.policy), candles[n], n)]
    ensures ContextAt(e, Start(e.policy).(contexts := IdleContexts(e, candles, n)), candles[n], n)
      == ContextAt(e, Start(e.policy), candles[n], n)
  {
  }

  /** A provider that never asks for anything completes its run without a fill. */
  lemma NeverTrading(e: Setup, candles: seq<Candle>, expectedHash: Option<string>, hash: RunHashes)
    requires Canonical(candles, e.timeframe) && (expectedHash.Some? ==> expectedHash.value == hash.candles(candles))
    requires forall h | h != [] && Follows(e, candles, h) :: e.provider(h) == Items([])
    ensures RunResult(e, candles, expectedHash, hash).Ok? && RunResult(e, candles, expectedHash, hash).value.fills == []
  {
    hide FirstDefect, Canonical, RunBars, Drawdown, Follows;
    NoDefectMeansCanonical(candles, e.timeframe);
    IdleBars(e, candles, |candles|);
  }

  // ---------- a plan ----------

  /** Enter on the decision at the close of bar `decided`; leave at bar `exit` for `reason`. */
  datatype TradePlan = TradePlan(decided: nat, order: EnterIntent, exit: nat, reason: FillReason)

  /** What a provider on this plan replies at bar b: its entry, its exit if it asks for one, and nothing else. */
  function PlannedReply(p: TradePlan, candles: seq<Candle>, b: nat): ProviderReply
    requires b < |candles|
  {
    if b == p.decided then Items([Known(Enter(p.order))])
    else if p.reason.ExplicitExit? && b + 1 == p.exit then
      Items([Known(Exit(ExitIntent(p.order.intentId, candles[b].openTime)))])
    else Items([])
  }

  /** The level or price at which the plan leaves. */
  function LeavingPrice(policy: Policy, candles: seq<Candle>, p: TradePlan): real
    requires p.exit < |candles|
  {
    match p.reason
    case StopLoss => NormalizedStop(policy, p.order)
    case TakeProfit => NormalizedTarget(policy, p.order)
    case EndOfData => candles[p.exit].close
    case _ => candles[p.exit].open
  }

  /** Bar `exit` lets a position with the plan's bracket leave for the plan's reason. */
  predicate Leaves(policy: Policy, candles: seq<Candle>, p: TradePlan)
    requires p.exit < |candles|
  {
    var direction, bar := p.order.direction, candles[p.exit];
    var stopHit := StopTouched(direction, NormalizedStop(policy, p.order), bar);
    var targetHit := TargetTouched(direction, NormalizedTarget(policy, p.order), bar);
    && MarketFill(policy, ExitSide(direction), LeavingPrice(policy, candles, p)) > 0.0
    && match p.reason
       case StopLoss => stopHit
       case TakeProfit => targetHit && !stopHit
       case ExplicitExit => p.decided + 1 < p.exit
       case EndOfData => p.exit == |candles| - 1 && policy.forceCloseAtEnd && !stopHit && !targetHit
       case MarketEntry => false
  }

  /** The plan can be carried out: a condition on policy, intent and candles alone. */
  ghost predicate Feasible(policy: Policy, candles: seq<Candle>, p: TradePlan) {
    && p.decided < p.exit < |candles|
    && ValidateForPolicy(p.order, policy).Ok? && p.order.decisionOpenTime == candles[p.decided].openTime
    && Fillable(policy, p.order, candles[p.decided + 1].open)
    && Survives(
         candles, p.order.direction, NormalizedStop(policy, p.order), NormalizedTarget(policy, p.order),
         p.decided + 1, p.exit)
    && Leaves(policy, candles, p)
  }

  // ---------- a run on a plan ----------

  datatype Stage = Waiting | Holding | Done

  /** Where the plan stands after b bars. */
  function StageAfter(p: TradePlan, b: nat): Stage {
    if b <= p.decided + 1 then Waiting
    else if b <= p.exit || p.reason.EndOfData? then Stage.Holding
    else Done
  }

  /** And between the open of bar b and the look at its bracket. */
  function StageAtOpen(p: TradePlan, b: nat): Stage {
    if b <= p.decided then Waiting
    else if b < p.exit || (b == p.exit && !p.reason.ExplicitExit?) then Stage.Holding
    else Done
  }

  predicate FirstIsTheEntry(p: TradePlan, fills: seq<Fill>) {
    fills != [] && fills[0].reason.MarketEntry? && fills[0].barIndex == p.decided + 1
  }

  predicate InStage(policy: Policy, p: TradePlan, s: Ledger, stage: Stage) {
    match stage
    case Waiting => s.position.None? && s.fills == []
    case Holding =>
      && FirstIsTheEntry(p, s.fills) && s.position.Some?
      && var held := s.position.value.snapshot;
      && held.direction == p.order.direction
      && held.stopLoss == NormalizedStop(policy, p.order) && held.takeProfit == NormalizedTarget(policy, p.order)
    case Done => s.position.None? && FirstIsTheEntry(p, s.fills)
  }

  function Queue(p: TradePlan, candles: seq<Candle>, b: nat): Option<Intent>
    requires b <= |candles|
  {
    if b == 0 then None else OrderIn(PlannedReply(p, candles, b - 1))
  }

  /** Leaving a held position at a positive price succeeds. */
  lemma LeavingIsDone(
    policy: Policy, p: TradePlan, s: Ledger, id: Option<string>, candle: Candle, n: nat, reason: FillReason,
    reference: real, ambiguity: bool)
    requires InStage(policy, p, s, Stage.Holding) && MarketFill(policy, ExitSide(p.order.direction), reference) > 0.0
    ensures var after := Exited(policy, s, s.position.value, id, candle, n, reason, reference, ambiguity);
      after.Ok? && InStage(policy, p, after.value, Done)
  {
    hide MarketFill, Slipped, ComputeFee, NormalizedStop, NormalizedTarget;
  }

  lemma EnteringHolds(policy: Policy, p: TradePlan, s: Ledger, candle: Candle)
    requires s.pending == Some(Enter(p.order)) && InStage(policy, p, s, Waiting)
    requires Fillable(policy, p.order, candle.open)
    ensures AtOpen(policy, s, candle, p.decided + 1).Ok?
    ensures InStage(policy, p, AtOpen(policy, s, candle, p.decided + 1).value, Stage.Holding)
  {
    EntryIsExact(policy, p.order, candle, p.decided + 1, s.fillSeq + 1, s.positionSeq + 1, s.equity);
    hide Fillable, MarketFill, Slipped, ComputeFee, NormalizedStop, NormalizedTarget;
  }

  lemma OpenFollowsPlan(policy: Policy, candles: seq<Candle>, p: TradePlan, s: Ledger, b: nat)
    requires Feasible(policy, candles, p) && b < |candles|
    requires InStage(policy, p, s, StageAfter(p, b)) && s.pending == Queue(p, candles, b)
    ensures AtOpen(policy, s, candles[b], b).Ok?
    ensures InStage(policy, p, AtOpen(policy, s, candles[b], b).value, StageAtOpen(p, b))
  {
    hide InStage, Fillable, MarketFill, ExecuteEntry, ExecuteExit, ValidateForPolicy, Exited, Survives;
    if b == p.decided + 1 {
      EnteringHolds(policy, p, s, candles[b]);
    } else if b == p.exit && p.reason.ExplicitExit? {
      LeavingIsDone(policy, p, s, Some(p.order.intentId), candles[b], b, ExplicitExit, candles[b].open, false);
      HoldingIsOpen(policy, p, s);
    }
  }

  lemma HoldingIsOpen(policy: Policy, p: TradePlan, s: Ledger)
    ensures InStage(policy, p, s, Stage.Holding) ==> s.position.Some?
    ensures InStage(policy, p, s, Waiting) || InStage(policy, p, s, Done) ==> s.position.None?
  {
  }

  lemma TouchFollowsPlan(policy: Policy, candles: seq<Candle>, p: TradePlan, s: Ledger, b: nat)
    requires Feasible(policy, candles, p) && b < |candles| && InStage(policy, p, s, StageAtOpen(p, b))
    ensures Protect(policy, s, candles[b], b).Ok?
    ensures InStage(policy, p, Protect(policy, s, candles[b], b).value, StageAfter(p, b + 1))
  {
    HoldingIsOpen(policy, p, s);
    if StageAtOpen(p, b).Holding? {
      var held := s.position.value.snapshot;
      assert b < p.exit ==> Untouched(held.direction, held.stopLoss, held.takeProfit, candles[b]);
      hide InStage, Fillable, MarketFill, ValidateForPolicy, Exited, Survives, NormalizedStop, NormalizedTarget;
      if b == p.exit && !p.reason.EndOfData? {
        var (reason, reference, ambiguity) := EvaluateProtective(held, candles[b]).value;
        LeavingIsDone(policy, p, s, None, candles[b], b, reason, reference, ambiguity);
      }
    }
  }

  lemma DecisionFollowsPlan(e: Setup, candles: seq<Candle>, p: TradePlan, s: Ledger, b: nat)
    requires Feasible(e.policy, candles, p) && b < |candles| && InStage(e.policy, p, s, StageAfter(p, b + 1))
    requires e.provider(s.contexts + [ContextAt(e, s, candles[b], b)]) == PlannedReply(p, candles, b)
    ensures Decide(e, s, candles[b], b).Ok?
    ensures var after := Decide(e, s, candles[b], b).value;
      InStage(e.policy, p, after, StageAfter(p, b + 1)) && after.pending == Queue(p, candles, b + 1)
  {
    ValidOrderHasValidId(e.policy, p.order);
    HoldingIsOpen(e.policy, p, s);
    hide Fillable, ValidateForPolicy, ValidateIntentId, Survives, ContextAt, NormalizedStop, NormalizedTarget, Leaves;
  }

  lemma ValidOrderHasValidId(policy: Policy, x: EnterIntent)
    requires ValidateForPolicy(x, policy).Ok?
    ensures ValidateIntentId(x.intentId).Ok?
  {
  }

  /** The provider keeps to the plan on every history of these bars. */
  ghost predicate Keeps(e: Setup, candles: seq<Candle>, p: TradePlan) {
    forall h: seq<DecisionContext> {:trigger e.provider(h)} | h != [] && Follows(e, candles, h) ::
      e.provider(h) == PlannedReply(p, candles, |h| - 1)
  }

  lemma {:induction false} BarsFollowPlan(e: Setup, candles: seq<Candle>, p: TradePlan, n: nat)
    requires Feasible(e.policy, candles, p) && Keeps(e, candles, p) && n <= |candles|
    ensures RunBars(e, candles, n).Ok?
    ensures var s := RunBars(e, candles, n).value;
      InStage(e.policy, p, s, StageAfter(p, n)) && s.pending == Queue(p, candles, n)
  {
    hide Bar, Feasible, Keeps;
    if n > 0 {
      hide Queue;
      BarsFollowPlan(e, candles, p, n - 1);
      ContextsFollowBars(e, candles, n - 1);
      BarFollowsPlan(e, candles, p, RunBars(e, candles, n - 1).value, n - 1);
    }
  }

  lemma BarFollowsPlan(e: Setup, candles: seq<Candle>, p: TradePlan, s: Ledger, b: nat)
    requires Feasible(e.policy, candles, p) && Keeps(e, candles, p) && b < |candles|
    requires |s.contexts| == b && Follows(e, candles, s.contexts)
    requires InStage(e.policy, p, s, StageAfter(p, b)) && s.pending == Queue(p, candles, b)
    ensures Bar(e, s, candles[b], b).Ok?
    ensures var after := Bar(e, s, candles[b], b).value;
      InStage(e.policy, p, after, StageAfter(p, b + 1)) && after.pending == Queue(p, candles, b + 1)
  {
    hide Feasible, AtOpen, Protect, Decide, InStage, StageAfter, StageAtOpen, Queue, PlannedReply;
    OpenFollowsPlan(e.policy, candles, p, s, b);
    var atOpen := AtOpen(e.policy, s, candles[b], b).value;
    TouchFollowsPlan(e.policy, candles, p, atOpen, b);
    ContextsWait(e.policy, s, candles[b], b);
    ContextsWait(e.policy, atOpen, candles[b], b);
    var touched := Protect(e.policy, atOpen, candles[b], b).value;
    assert Follows(e, candles, touched.contexts + [ContextAt(e, touched, candles[b], b)]);
    DecisionFollowsPlan(e, candles, p, touched, b);
  }

  lemma EndFollowsPlan(policy: Policy, candles: seq<Candle>, p: TradePlan, s: Ledger)
    requires Feasible(policy, candles, p) && InStage(policy, p, s, StageAfter(p, |candles|))
    ensures candles != [] && AtEnd(policy, s, candles).Ok?
    ensures FirstIsTheEntry(p, AtEnd(policy, s, candles).value.fills)
  {
    HoldingIsOpen(policy, p, s);
    if p.reason.EndOfData? {
      LeavingIsDone(policy, p, s, None, candles[p.exit], p.exit, EndOfData, candles[p.exit].close, false);
    }
    hide Exited, Fillable, Survives, ValidateForPolicy, MarketFill;
  }

  /** A run that keeps to a feasible plan completes, and its first fill is the planned entry. */
  lemma PlanCompletes(
    e: Setup, candles: seq<Candle>, p: TradePlan, expectedHash: Option<string>, hash: RunHashes)
    requires Canonical(candles, e.timeframe) && (expectedHash.Some? ==> expectedHash.value == hash.candles(candles))
    requires Feasible(e.policy, candles, p) && Keeps(e, candles, p)
    ensures RunResult(e, candles, expectedHash, hash).Ok?
    ensures FirstIsTheEntry(p, RunResult(e, candles, expectedHash, hash).value.fills)
  {
    hide FirstDefect, Canonical, RunBars, Drawdown, Keeps, AtEnd, Feasible, InStage, FirstIsTheEntry, BuildSummary;
    NoDefectMeansCanonical(candles, e.timeframe);
    BarsFollowPlan(e, candles, p, |candles|);
    EndFollowsPlan(e.policy, candles, p, RunBars(e, candles, |candles|).value);
  }

  // ---------- every run that trades could have been planned ----------

  /** Bars do not force a close. */
  lemma {:induction false} BarsNeverForceClose(e: Setup, candles: seq<Candle>, n: nat)
    requires n <= |candles| && RunBars(e, candles, n).Ok?
    ensures forall j | 0 <= j < |RunBars(e, candles, n).value.fills| ::
              !RunBars(e, candles, n).value.fills[j].reason.EndOfData?
  {
    hide Bar, AtOpen;
    if n > 0 {
      BarsNeverForceClose(e, candles, n - 1);
      BarAddsFills(e, RunBars(e, candles, n - 1).value, candles[n - 1], n - 1);
    }
  }

  lemma ForcedClosesNeedThePolicy(
    e: Setup, candles: seq<Candle>, expectedHash: Option<string>, hash: RunHashes, r: BacktestResult, j: nat)
    requires Completed(e, candles, expectedHash, hash, r) && j < |r.fills| && r.fills[j].reason.EndOfData?
    ensures e.policy.forceCloseAtEnd
  {
    CompletedFills(e, candles, expectedHash, hash, r);
    BarsNeverForceClose(e, candles, |candles|);
    hide FirstDefect, RunBars, Drawdown, Exited;
  }

  /** The plan a completed run that trades has followed as far as its first trade. */
  lemma FirstTradeIsPlanned(
    e: Setup, candles: seq<Candle>, expectedHash: Option<string>, hash: RunHashes, r: BacktestResult)
    returns (p: TradePlan)
    requires Completed(e, candles, expectedHash, hash, r) && r.fills != []
    ensures Feasible(e.policy, candles, p) && FirstIsTheEntry(p, r.fills)
    ensures RunBars(e, candles, |candles|).Ok? && |RunBars(e, candles, |candles|).value.contexts| == |candles|
    ensures e.provider(RunBars(e, candles, |candles|).value.contexts[..p.decided + 1]) == Items([Known(Enter(p.order))])
  {
    hide Completed, RunBars, Fillable, NormalizedStop, NormalizedTarget;
    hide MarketFill, OnGrid, NormalizedFrom, ValidateForPolicy;
    CompletedRunIsRoundTrips(e, candles, expectedHash, hash, r);
    CompletedTradesKeepOrders(e, candles, expectedHash, hash, r, 0);
    CompletedFillsFollowOrders(e, candles, expectedHash, hash, r);
    var entry, exit, trade := r.fills[0], r.fills[1], r.trades[0];
    assert RoundTrip(e.policy, candles, 0, r.fills[2 * 0], r.fills[2 * 0 + 1], trade);
    var order := Orders(e, candles)[entry.barIndex].value.enter;
    p := TradePlan(entry.barIndex - 1, order, exit.barIndex, exit.reason);
    if exit.reason.EndOfData? { ForcedClosesNeedThePolicy(e, candles, expectedHash, hash, r, 1); }
    OrderedReply(e, candles, expectedHash, hash, r, entry.barIndex);
  }

  /** Replies on a plan, whoever is asked. */
  function OnPlan(candles: seq<Candle>, p: TradePlan): Provider {
    (h: seq<DecisionContext>) =>
      if 0 < |h| <= |candles| then PlannedReply(p, candles, |h| - 1) else Items([])
  }

  /** The run completes and its first fill is at bar n. */
  predicate EntersAt(e: Setup, candles: seq<Candle>, hash: RunHashes, n: nat) {
    var r := RunResult(e, candles, None, hash);
    r.Ok? && r.value.fills != [] && r.value.fills[0].barIndex == n
  }

  ghost predicate FeasibleAt(policy: Policy, candles: seq<Candle>, n: nat) {
    exists p: TradePlan :: Feasible(policy, candles, p) && p.decided + 1 == n
  }

  lemma TradingIsFeasible(e: Setup, candles: seq<Candle>, hash: RunHashes, n: nat)
    requires EntersAt(e, candles, hash, n)
    ensures FeasibleAt(e.policy, candles, n)
  {
    hide RunResult, Feasible, RunBars;
    var p := FirstTradeIsPlanned(e, candles, None, hash, RunResult(e, candles, None, hash).value);
  }

  lemma FeasibleIsTraded(e: Setup, candles: seq<Candle>, hash: RunHashes, p: TradePlan)
    requires Canonical(candles, e.timeframe) && Feasible(e.policy, candles, p) && e.provider == OnPlan(candles, p)
    ensures EntersAt(e, candles, hash, p.decided + 1)
  {
    hide RunResult, Feasible, PlannedReply, Canonical;
    assert Keeps(e, candles, p);
    PlanCompletes(e, candles, p, None, hash);
  }

  /**
   * On a gap-free series some provider completes a run whose first fill is at bar
   * n exactly when a plan that enters at bar n is feasible.
   */
  lemma TradingIsFeasibility(
    symbol: string, timeframe: Timeframe, policy: Policy, candles: seq<Candle>, hash: RunHashes, n: nat)
    requires Canonical(candles, timeframe)
    ensures (exists provider: Provider :: EntersAt(Setup(symbol, timeframe, policy, provider), candles, hash, n))
      <==> FeasibleAt(policy, candles, n)
  {
    hide Canonical, Feasible, EntersAt;
    if provider: Provider :| EntersAt(Setup(symbol, timeframe, policy, provider), candles, hash, n) {
      TradingIsFeasible(Setup(symbol, timeframe, policy, provider), candles, hash, n);
    }
    if p: TradePlan :| Feasible(policy, candles, p) && p.decided + 1 == n {
      FeasibleIsTraded(Setup(symbol, timeframe, policy, OnPlan(candles, p)), candles, hash, p);
    }
  }

  // ---------- a plan that always finds its exit ----------

  /** With the close forced and every way out priced, an entry that fills is enough. */
  lemma {:induction false} FillableIsFeasible(
    policy: Policy, candles: seq<Candle>, order: EnterIntent, decided: nat, from: nat)
    returns (p: TradePlan)
    requires decided + 1 <= from < |candles| && policy.forceCloseAtEnd
    requires ValidateForPolicy(order, policy).Ok? && order.decisionOpenTime == candles[decided].openTime
    requires Fillable(policy, order, candles[decided + 1].open)
    requires MarketFill(policy, ExitSide(order.direction), NormalizedStop(policy, order)) > 0.0
    requires MarketFill(policy, ExitSide(order.direction), NormalizedTarget(policy, order)) > 0.0
    requires MarketFill(policy, ExitSide(order.direction), candles[|candles| - 1].close) > 0.0
    requires Survives(
               candles, order.direction, NormalizedStop(policy, order), NormalizedTarget(policy, order),
               decided + 1, from)
    ensures Feasible(policy, candles, p) && p.decided == decided && p.order == order
    decreases |candles| - from
  {
    hide Fillable, ValidateForPolicy, MarketFill, NormalizedStop, NormalizedTarget;
    var stop, target, direction := NormalizedStop(policy, order), NormalizedTarget(policy, order), order.direction;
    if StopTouched(direction, stop, candles[from]) {
      p := TradePlan(decided, order, from, StopLoss);
    } else if TargetTouched(direction, target, candles[from]) {
      p := TradePlan(decided, order, from, TakeProfit);
    } else if from == |candles| - 1 {
      p := TradePlan(decided, order, from, EndOfData);
    } else {
      p := FillableIsFeasible(policy, candles, order, decided, from + 1);
    }
  }
}
