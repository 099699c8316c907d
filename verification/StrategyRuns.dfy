/** Whole strategy runs: the adapter behind the engine, and the envelope around the result. */
module StrategyRuns {
  import opened Results
  import opened Candles
  import opened Series
  import opened Averages
  import opened DecisionViews
  import opened ComposedViews
  import opened Readiness
  import opened Intents
  import opened Engine
  import opened EngineResults
  import opened EngineOrders
  import opened EngineCausality
  import opened StrategyAdapter

  // ---------- the counters ----------

  /** The engine's context for its bar passes every guard, and the gate is the readiness of that bar. */
  lemma EngineContextsPass(m: Arithmetic, a: Adapter, policy: Policy, context: DecisionContext)
    requires TrustedFeed(m, a.digests.indicators, a.feed)
    requires context.barIndex < |a.feed.composition.input.execution|
    requires context.candle == a.feed.composition.input.execution[context.barIndex]
    requires context.candlesProcessed == context.barIndex + 1
    requires context.symbol == a.feed.composition.input.symbol
    requires context.timeframe == a.feed.composition.input.executionTimeframe
    ensures Fits(a.feed) && |a.feed.composition.input.contexts| == |a.feed.composition.contextIndicators|
    ensures Gate(a, context)
      == Ok(if ReadyAt(a.feed.composition, context.barIndex) then Some(EnhancedAt(a, context)) else None)
  {
    hide TrustedFeed, ReadyAt, EnhancedAt, ComposedViewAt;
    ReadinessIsExact(m, a.digests, a.feed, context.barIndex);
  }

  /** The adapter skips up to the first ready bar and asks at every bar from there on. */
  lemma {:induction false} CountsFollowReadiness(m: Arithmetic, a: Adapter, policy: Policy, seen: seq<DecisionContext>)
    requires TrustedFeed(m, a.digests.indicators, a.feed) && Fits(a.feed)
    requires Follows(SetupOf(a, policy), a.feed.composition.input.execution, seen)
    ensures |a.feed.composition.input.contexts| == |a.feed.composition.contextIndicators|
    ensures SkippedBy(a, seen) == FirstReady(a.feed.composition, |seen|)
    ensures SkippedBy(a, seen) + |ShownBy(a, seen)| == |seen|
  {
    hide Fits, ReadyAt, EnhancedAt, ComposedViewAt, Gate;
    if seen != [] {
      var c, last := a.feed.composition, |seen| - 1;
      CountsFollowReadiness(m, a, policy, seen[..last]);
      EngineContextsPass(m, a, policy, seen[last]);
      var first := FirstReady(c, last);
      if first < last {
        ReadinessIsMonotone(m, c, first, last);
      }
    }
  }

  // ---------- what a strategy may trade ----------

  /** What a caller of the runner gets. */
  function StrategyResult(a: Adapter, policy: Policy, hash: RunHashes): Result<BacktestResult, EngineError>
    requires Fits(a.feed)
  {
    var x := a.feed.composition.input;
    RunResult(SetupOf(a, policy), x.execution, Some(x.executionHash), hash)
  }

  lemma StrategyCompletes(a: Adapter, policy: Policy, hash: RunHashes, r: BacktestResult)
    requires Fits(a.feed) && StrategyResult(a, policy, hash) == Ok(r)
    ensures var e, x := SetupOf(a, policy), a.feed.composition.input;
      Completed(e, x.execution, Some(x.executionHash), hash, r) && e.provider == AsProvider(a) && e.policy == policy
  {
    hide Fits, RunResult, AsProvider;
  }

  /** An entry the engine is handed has passed the gate and the direction check. */
  lemma EntryWasAllowed(m: Arithmetic, a: Adapter, policy: Policy, seen: seq<DecisionContext>, x: EnterIntent)
    requires TrustedFeed(m, a.digests.indicators, a.feed) && Fits(a.feed) && seen != []
    requires Follows(SetupOf(a, policy), a.feed.composition.input.execution, seen)
    requires AsProvider(a)(seen) == Items([Known(Enter(x))])
    ensures |a.feed.composition.input.contexts| == |a.feed.composition.contextIndicators|
    ensures ReadyAt(a.feed.composition, |seen| - 1) && x.direction in a.directions
  {
    hide TrustedFeed, Fits, ReadyAt, EnhancedAt, ShownBy;
    EngineContextsPass(m, a, policy, seen[|seen| - 1]);
    assert Supported([Known(Enter(x))][0], a.directions) ==> x.direction in a.directions;
  }

  /**
   * In a completed run each entry was decided one bar earlier, at a ready bar, in
   * a direction the strategy supports.
   */
  lemma EntriesPassTheGate(
    m: Arithmetic, a: Adapter, policy: Policy, hash: RunHashes, r: BacktestResult, j: nat)
    requires TrustedFeed(m, a.digests.indicators, a.feed) && Fits(a.feed) && StrategyResult(a, policy, hash) == Ok(r)
    requires j < |r.fills| && r.fills[j].reason.MarketEntry?
    ensures |a.feed.composition.input.contexts| == |a.feed.composition.contextIndicators|
    ensures 1 <= r.fills[j].barIndex < |a.feed.composition.input.execution|
    ensures ReadyAt(a.feed.composition, r.fills[j].barIndex - 1) && r.fills[j].direction in a.directions
  {
    hide *;
    var e, x := SetupOf(a, policy), a.feed.composition.input;
    StrategyCompletes(a, policy, hash, r);
    var b := r.fills[j].barIndex;
    var order := EntryIsTheReply(e, x.execution, Some(x.executionHash), hash, r, j);
    var contexts := RunBars(e, x.execution, |x.execution|).value.contexts;
    ContextsFollowBars(e, x.execution, |x.execution|);
    EarlierFollow(e, x.execution, contexts, b);
    EntryWasAllowed(m, a, policy, contexts[..b], order);
  }

  lemma EarlierFollow(e: Setup, candles: seq<Candle>, contexts: seq<DecisionContext>, n: nat)
    requires Follows(e, candles, contexts) && n <= |contexts|
    ensures Follows(e, candles, contexts[..n])
  {
  }

  /** So a completed run trades only in supported directions, and nothing fills at or before the first ready bar. */
  lemma TradesPassTheGate(m: Arithmetic, a: Adapter, policy: Policy, hash: RunHashes, r: BacktestResult)
    requires TrustedFeed(m, a.digests.indicators, a.feed) && Fits(a.feed) && StrategyResult(a, policy, hash) == Ok(r)
    ensures |a.feed.composition.input.contexts| == |a.feed.composition.contextIndicators|
    ensures forall t: nat | t < |r.trades| :: r.trades[t].direction in a.directions
    ensures forall j: nat | j < |r.fills| ::
              r.fills[j].barIndex > FirstReady(a.feed.composition, |a.feed.composition.input.execution|)
  {
    assert |a.feed.composition.input.contexts| == |a.feed.composition.contextIndicators|;
    hide TrustedFeed, Fits, ReadyAt, Completed, SetupOf, StrategyResult;
    var e, x := SetupOf(a, policy), a.feed.composition.input;
    StrategyCompletes(a, policy, hash, r);
    TradesStartWithEntries(e, x.execution, Some(x.executionHash), hash, r);
    forall t: nat | t < |r.trades|
      ensures r.trades[t].direction in a.directions
    {
      EntriesPassTheGate(m, a, policy, hash, r, 2 * t);
    }
    if r.trades != [] {
      assert r.fills[2 * 0].reason.MarketEntry?;
      EntriesPassTheGate(m, a, policy, hash, r, 0);
    }
  }

  // ---------- the envelope ----------

  datatype EnvelopeError = NegativeCount | CountsDoNotAddUp | PolicyHashMismatch | CandleHashMismatch

  datatype Envelope = Envelope(
    executionHash: string,
    policyHash: string,
    result: BacktestResult,
    providerInvocationCount: int,
    warmupSkippedDecisionCount: int)

  function FromRun(x: Input, policy: Policy, hash: RunHashes, result: BacktestResult, invocations: int, skipped: int)
    : Result<Envelope, EnvelopeError>
  {
    if invocations < 0 || skipped < 0 then Err(NegativeCount)
    else if invocations + skipped != |x.execution| then Err(CountsDoNotAddUp)
    else if result.summary.policyHash != hash.policy(policy) then Err(PolicyHashMismatch)
    else if result.summary.inputCandleHash != x.executionHash then Err(CandleHashMismatch)
    else Ok(Envelope(x.executionHash, hash.policy(policy), result, invocations, skipped))
  }

  /**
   * After a completed run an adapter that served it has skipped exactly the bars
   * before the first ready one, and the envelope accepts its counters.
   */
  lemma EnvelopeAcceptsEveryRun(m: Arithmetic, a: Adapter, policy: Policy, hash: RunHashes, r: BacktestResult)
    requires TrustedFeed(m, a.digests.indicators, a.feed) && Fits(a.feed) && StrategyResult(a, policy, hash) == Ok(r)
    ensures |a.feed.composition.input.contexts| == |a.feed.composition.contextIndicators|
    ensures var x := a.feed.composition.input;
      var ledger := RunBars(SetupOf(a, policy), x.execution, |x.execution|);
      && ledger.Ok?
      && var seen := ledger.value.contexts;
      && |seen| == |x.execution| && SkippedBy(a, seen) == FirstReady(a.feed.composition, |x.execution|)
      && FromRun(x, policy, hash, r, |ShownBy(a, seen)|, SkippedBy(a, seen))
         == Ok(Envelope(
                 x.executionHash, hash.policy(policy), r, |x.execution| - SkippedBy(a, seen), SkippedBy(a, seen)))
  {
    hide TrustedFeed, Fits, ReadyAt, Gate, AsProvider, Bar, AtEnd, FirstDefect, Drawdown, FirstReady;
    var x := a.feed.composition.input;
    var e := SetupOf(a, policy);
    ContextsFollowBars(e, x.execution, |x.execution|);
    CountsFollowReadiness(m, a, policy, RunBars(e, x.execution, |x.execution|).value.contexts);
  }

  datatype RunnerError = EngineFailed(engine: EngineError) | EnvelopeRejected(envelope: EnvelopeError)

  /** One bar of the engine with the adapter object answering. */
  method ServeBar(adapter: MultiTimeframeIndicatorProviderAdapter, run: RunState, candle: Candle, i: nat)
    returns (r: Result<(), EngineError>)
    requires adapter.Valid() && adapter.seen == run.contexts && run.setup.provider == AsProvider(adapter.adapter)
    modifies adapter, run
    ensures match Bar(run.setup, old(run.State()), candle, i)
      case Ok(s) => r.Ok? && run.State() == s && adapter.Valid() && adapter.seen == run.contexts
      case Err(e) => r == Err(e)
  {
    hide TrustedFeed, Fits, AtOpen, Protect, AsProvider, SelectIntent, Answer, ShownBy, SkippedBy, ContextAt;
    ContextsWait(run.setup.policy, run.State(), candle, i);
    var _ :- run.ExecutePending(candle, i);
    ContextsWait(run.setup.policy, run.State(), candle, i);
    var _ :- run.ExecuteProtective(candle, i);
    var context := run.OpenDecision(candle, i);
    var answer := adapter.OnBarClose(context);
    r := run.TakeReply(if answer.Ok? then Items(answer.value) else Raised, candle);
  }

  /** The engine's loop with the adapter object as its provider: it ends as the run of the provider function does. */
  method ServeRun(
    adapter: MultiTimeframeIndicatorProviderAdapter, engine: BacktestEngine, candles: seq<Candle>,
    expectedHash: Option<string>) returns (r: Result<BacktestResult, EngineError>)
    requires adapter.Valid() && adapter.seen == [] && engine.setup.provider == AsProvider(adapter.adapter)
    modifies adapter
    ensures r == RunResult(engine.setup, candles, expectedHash, engine.hash)
    ensures r.Ok? ==>
      && adapter.Valid() && RunBars(engine.setup, candles, |candles|).Ok?
      && adapter.seen == RunBars(engine.setup, candles, |candles|).value.contexts
  {
    hide TrustedFeed, Fits, AsProvider, Bar, AtEnd, FirstDefect, BuildResult, ShownBy, SkippedBy;
    var inputHash :- engine.CheckInput(candles, expectedHash);
    var run := new RunState(engine.setup);
    for i := 0 to |candles|
      invariant run.setup == engine.setup && fresh(run)
      invariant adapter.Valid() && adapter.seen == run.contexts
      invariant RunBars(engine.setup, candles, i) == Ok(run.State())
    {
      StepOrFail(engine.setup, candles, run.State(), i);
      var _ :- ServeBar(adapter, run, candles[i], i);
    }
    r := run.Finish(candles, inputHash, engine.hash);
  }

  /** The envelope of a completed run, from what its adapter has seen. */
  lemma EnvelopeOfRun(
    m: Arithmetic, a: Adapter, policy: Policy, hash: RunHashes, r: BacktestResult, seen: seq<DecisionContext>)
    requires TrustedFeed(m, a.digests.indicators, a.feed) && Fits(a.feed) && StrategyResult(a, policy, hash) == Ok(r)
    requires var x := a.feed.composition.input;
      var ledger := RunBars(SetupOf(a, policy), x.execution, |x.execution|);
      ledger.Ok? && ledger.value.contexts == seen
    ensures |a.feed.composition.input.contexts| == |a.feed.composition.contextIndicators|
    ensures var x := a.feed.composition.input;
      var skipped := FirstReady(a.feed.composition, |x.execution|);
      FromRun(x, policy, hash, r, |ShownBy(a, seen)|, SkippedBy(a, seen))
      == Ok(Envelope(x.executionHash, hash.policy(policy), r, |x.execution| - skipped, skipped))
  {
    hide TrustedFeed, Fits, RunBars, StrategyResult, FromRun, FirstReady, ShownBy, SkippedBy, SetupOf;
    EnvelopeAcceptsEveryRun(m, a, policy, hash, r);
  }

  /** The strategy runner: a completed run always gets its envelope, with the counts of its readiness. */
  method RunStrategy(ghost m: Arithmetic, a: Adapter, policy: Policy, hash: RunHashes)
    returns (r: Result<Envelope, RunnerError>)
    requires TrustedFeed(m, a.digests.indicators, a.feed)
    ensures Fits(a.feed) && |a.feed.composition.input.contexts| == |a.feed.composition.contextIndicators|
    ensures match StrategyResult(a, policy, hash)
      case Err(e) => r == Err(EngineFailed(e))
      case Ok(result) =>
        var x, skipped :=
          a.feed.composition.input, FirstReady(a.feed.composition, |a.feed.composition.input.execution|);
        r == Ok(Envelope(x.executionHash, hash.policy(policy), result, |x.execution| - skipped, skipped))
  {
    TrustedFeedFits(m, a.digests.indicators, a.feed);
    assert |a.feed.composition.input.contexts| == |a.feed.composition.contextIndicators|;
    var x := a.feed.composition.input;
    assert StrategyResult(a, policy, hash)
        == RunResult(SetupOf(a, policy), x.execution, Some(x.executionHash), hash);
    assert SetupOf(a, policy).provider == AsProvider(a);
    hide TrustedFeed, Fits, AsProvider, RunBars, RunResult, FromRun, FirstReady, ShownBy, SkippedBy, ReadyAt;
    hide StrategyResult, SetupOf;
    var adapter := new MultiTimeframeIndicatorProviderAdapter(m, a);
    var engine := new BacktestEngine(SetupOf(a, policy), hash);
    var result := ServeRun(adapter, engine, x.execution, Some(x.executionHash));
    if result.Err? {
      return Err(EngineFailed(result.error));
    }
    EnvelopeOfRun(m, a, policy, hash, result.value, adapter.seen);
    var envelope := FromRun(
      x, policy, hash, result.value, adapter.providerInvocationCount, adapter.warmupSkippedDecisionCount);
    r := match envelope case Ok(v) => Ok(v) case Err(e) => Err(EnvelopeRejected(e));
  }
}
