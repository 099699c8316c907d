/** No lookahead through the whole pipeline, and what identity digests have to do with it. */
module NoLookahead {
  import opened Results
  import opened Timeframes
  import opened Candles
  import opened Series
  import opened Derivation
  import opened Resampling
  import opened Alignment
  import opened Averages
  import opened DecisionViews
  import opened ComposedViews
  import opened ViewCausality
  import opened Readiness
  import opened InputIdentity
  import opened Intents
  import opened Engine
  import opened EngineResults
  import opened EngineCausality
  import opened StrategyAdapter
  import opened StrategyRuns

  // ---------- one strategy on two inputs ----------

  /** The same directions, digests and configuration. */
  ghost predicate SameSetting(one: Adapter, two: Adapter) {
    && one.digests == two.digests && one.directions == two.directions
    && SameConfiguration(one.feed.composition, two.feed.composition)
  }

  function IdentityAt(a: Adapter, i: nat): Identity
    requires i < |a.feed.composition.input.execution|
  {
    IdentityOf(
      a.feed.composition.input.strategyHash, BaseViewAt(a.digests.base, a.feed.composition.input, i))
  }

  const NO_IDENTITY := Identity("", "", "", [])

  function Masked(shown: seq<Enhanced>): seq<Enhanced> {
    seq(|shown|, k requires 0 <= k < |shown| => shown[k].(identity := NO_IDENTITY))
  }

  /** The provider decides on candles, indicators and its position, not on digests. */
  ghost predicate IgnoresIdentity(p: StrategyProvider) {
    forall shown: seq<Enhanced> {:trigger p(shown)} :: p(shown) == p(Masked(shown))
  }

  /** This provider does not look at the digests, or they are the same, or no bar before k is ready. */
  ghost predicate Blind(one: Adapter, two: Adapter, k: nat)
    requires |one.feed.composition.input.contexts| == |one.feed.composition.contextIndicators|
    requires k <= |one.feed.composition.input.execution|
  {
    || IgnoresIdentity(one.provider)
    || SameIdentity(one.feed.composition.input, two.feed.composition.input)
    || FirstReady(one.feed.composition, k) == k
  }

  /** The same visible past at one bar is the same visible past at every earlier bar. */
  lemma SamePastShrinks(x: Input, y: Input, late: nat, i: nat)
    requires TrustedInput(x) && TrustedInput(y) && SamePastAt(x, y, late) && i <= late
    ensures SamePastAt(x, y, i)
  {
    hide Canonical, TrustedContext, VisibleCount;
    assert x.execution[..i + 1] == x.execution[..late + 1][..i + 1];
    assert y.execution[..i + 1] == y.execution[..late + 1][..i + 1];
    assert x.execution[i] == x.execution[..late + 1][i] == y.execution[i];
    assert x.execution[i].closeTime <= x.execution[late].closeTime by {
      CanonicalClosesAscend(x.execution, x.executionTimeframe);
    }
    forall k: nat | k < |x.contexts|
      ensures VisibleAt(x, k, i) == VisibleAt(y, k, i)
      ensures x.contexts[k].candles[..VisibleAt(x, k, i)] == y.contexts[k].candles[..VisibleAt(y, k, i)]
    {
      SameVisibleEarlier(
        x.contexts[k].candles, y.contexts[k].candles, x.execution[i].closeTime, x.execution[late].closeTime);
    }
  }

  lemma SameVisibleEarlier(a: seq<Candle>, b: seq<Candle>, earlier: Instant, later: Instant)
    requires earlier <= later && VisibleCount(a, later) == VisibleCount(b, later)
    requires a[..VisibleCount(a, later)] == b[..VisibleCount(b, later)]
    ensures VisibleCount(a, earlier) == VisibleCount(b, earlier)
    ensures a[..VisibleCount(a, earlier)] == b[..VisibleCount(b, earlier)]
  {
  }

  /** With the same past, what a bar's identity adds is exactly the input's digests. */
  lemma IdentityIsTheInputs(one: Adapter, two: Adapter, i: nat)
    requires SameSetting(one, two) && SamePastAt(one.feed.composition.input, two.feed.composition.input, i)
    ensures IdentityAt(one, i) == IdentityAt(two, i)
      <==> SameIdentity(one.feed.composition.input, two.feed.composition.input)
  {
    hide VisibleCount;
    var a, b := one.feed.composition, two.feed.composition;
    var v, w := BaseViewAt(one.digests.base, a.input, i), BaseViewAt(two.digests.base, b.input, i);
    SameBaseDocument(one.digests.base, a, b, i);
    forall k: nat | k < |a.input.contexts|
      ensures ContextHashesOf(v.contexts)[k] == (a.input.contexts[k].candleHash, a.input.contexts[k].alignmentHash)
      ensures ContextHashesOf(w.contexts)[k] == (b.input.contexts[k].candleHash, b.input.contexts[k].alignmentHash)
    {
    }
    if SameIdentity(a.input, b.input) {
      assert ContextHashesOf(v.contexts) == ContextHashesOf(w.contexts);
    }
  }

  function MaskedGate(g: Result<Option<Enhanced>, AdapterError>): Result<Option<Enhanced>, AdapterError> {
    match g
    case Ok(Some(e)) => Ok(Some(e.(identity := NO_IDENTITY)))
    case _ => g
  }

  lemma SameGate(m: Arithmetic, one: Adapter, two: Adapter, context: DecisionContext)
    requires TrustedFeed(m, one.digests.indicators, one.feed) && TrustedFeed(m, two.digests.indicators, two.feed)
    requires SameSetting(one, two)
    requires SamePastAt(one.feed.composition.input, two.feed.composition.input, context.barIndex)
    ensures Fits(one.feed) && Fits(two.feed)
    ensures MaskedGate(Gate(one, context)) == MaskedGate(Gate(two, context))
    ensures SameIdentity(one.feed.composition.input, two.feed.composition.input) ==>
      Gate(one, context) == Gate(two, context)
  {
    hide TrustedFeed, VisibleAt, ExecutionViewAt, SlotsAt, ShowComposed, MakeDecisionView, IdentityOf, SameIdentity;
    var x, y, i := one.feed.composition.input, two.feed.composition.input, context.barIndex;
    assert x.execution[i] == x.execution[..i + 1][i] == y.execution[i];
    ComposedViewDependsOnPast(m, one.digests, one.feed, two.feed, i);
    IdentityIsTheInputs(one, two, i);
    ShownReadiness(one, i);
    ShownReadiness(two, i);
  }

  lemma ShownReadiness(a: Adapter, i: nat)
    requires Fits(a.feed) && i < |a.feed.composition.input.execution|
    ensures Readable(ComposedViewAt(a.digests, a.feed, i))
    ensures ShowComposed(ComposedViewAt(a.digests, a.feed, i)).overallReady
      == ComposedViewAt(a.digests, a.feed, i).overallReady
  {
    hide ComposedViewAt, Readable;
    ViewIsReadable(a.digests, a.feed, i);
  }

  /** What the two providers have been shown differs at most in digests. */
  lemma {:induction false} SameShown(
    m: Arithmetic, one: Adapter, two: Adapter, policy: Policy, seen: seq<DecisionContext>)
    requires TrustedFeed(m, one.digests.indicators, one.feed) && Fits(one.feed)
    requires TrustedFeed(m, two.digests.indicators, two.feed) && Fits(two.feed)
    requires SameSetting(one, two)
    requires Follows(SetupOf(one, policy), one.feed.composition.input.execution, seen)
    requires forall j: nat | j < |seen| :: SamePastAt(one.feed.composition.input, two.feed.composition.input, j)
    ensures Masked(ShownBy(one, seen)) == Masked(ShownBy(two, seen))
    ensures SameIdentity(one.feed.composition.input, two.feed.composition.input) ==>
      ShownBy(one, seen) == ShownBy(two, seen)
  {
    hide TrustedFeed, Fits, SameConfiguration, SamePastAt, Gate, SameIdentity;
    if seen != [] {
      var last := |seen| - 1;
      SameShown(m, one, two, policy, seen[..last]);
      SameGate(m, one, two, seen[last]);
      MaskedGrows(ShownBy(one, seen[..last]), Gate(one, seen[last]));
      MaskedGrows(ShownBy(two, seen[..last]), Gate(two, seen[last]));
    }
  }

  lemma MaskedGrows(shown: seq<Enhanced>, g: Result<Option<Enhanced>, AdapterError>)
    ensures g.Ok? && g.value.Some? ==>
      Masked(shown + [g.value.value]) == Masked(shown) + [MaskedGate(g).value.value]
  {
  }

  lemma SameAnswer(m: Arithmetic, one: Adapter, two: Adapter, policy: Policy, seen: seq<DecisionContext>, k: nat)
    requires TrustedFeed(m, one.digests.indicators, one.feed) && Fits(one.feed)
    requires TrustedFeed(m, two.digests.indicators, two.feed) && Fits(two.feed)
    requires SameSetting(one, two) && one.provider == two.provider
    requires |one.feed.composition.input.contexts| == |one.feed.composition.contextIndicators|
    requires seen != [] && |seen| <= k <= |one.feed.composition.input.execution| && Blind(one, two, k)
    requires Follows(SetupOf(one, policy), one.feed.composition.input.execution, seen)
    requires forall j: nat | j < |seen| :: SamePastAt(one.feed.composition.input, two.feed.composition.input, j)
    ensures Answer(one, seen) == Answer(two, seen)
  {
    hide TrustedFeed, Fits, SameConfiguration, SamePastAt, Gate, SameIdentity, ReadyAt, CheckReply;
    var last := |seen| - 1;
    SameShown(m, one, two, policy, seen);
    SameGate(m, one, two, seen[last]);
    if FirstReady(one.feed.composition, k) == k {
      EngineContextsPass(m, one, policy, seen[last]);
    }
  }

  /** Behind its adapter a strategy that does not act on digests answers alike on inputs with the same visible past. */
  lemma SamePastSameStrategy(m: Arithmetic, one: Adapter, two: Adapter, policy: Policy, k: nat)
    requires TrustedFeed(m, one.digests.indicators, one.feed) && Fits(one.feed)
    requires TrustedFeed(m, two.digests.indicators, two.feed) && Fits(two.feed)
    requires SameSetting(one, two) && one.provider == two.provider
    requires k > 0 ==> SamePastAt(one.feed.composition.input, two.feed.composition.input, k - 1)
    requires |one.feed.composition.input.contexts| == |one.feed.composition.contextIndicators| && Blind(one, two, k)
    ensures SamePast(one.feed.composition.input.execution, two.feed.composition.input.execution, k)
    ensures SameStrategy(SetupOf(one, policy), SetupOf(two, policy), one.feed.composition.input.execution, k)
  {
    hide Fits, SameConfiguration, SamePastAt, Answer, Blind;
    var x, y := one.feed.composition.input, two.feed.composition.input;
    assert SamePast(x.execution, y.execution, k) by { SamePastPrefix(x, y, k); }
    SameMarket(one, two);
    forall seen | |seen| <= k && Follows(SetupOf(one, policy), x.execution, seen)
      ensures AsProvider(one)(seen) == AsProvider(two)(seen)
    {
      if seen != [] {
        forall j: nat | j < |seen|
          ensures SamePastAt(x, y, j)
        {
          SamePastShrinks(x, y, k - 1, j);
        }
        SameAnswer(m, one, two, policy, seen, k);
      }
    }
  }

  lemma SamePastPrefix(x: Input, y: Input, k: nat)
    requires k > 0 ==> SamePastAt(x, y, k - 1)
    ensures SamePast(x.execution, y.execution, k)
  {
    assert k > 0 ==>
        forall i | 0 <= i < k :: x.execution[i] == x.execution[..k][i] == y.execution[..k][i] == y.execution[i];
  }

  lemma SameMarket(one: Adapter, two: Adapter)
    requires SameSetting(one, two)
    ensures one.feed.composition.input.symbol == two.feed.composition.input.symbol
    ensures one.feed.composition.input.executionTimeframe == two.feed.composition.input.executionTimeframe
  {
  }

  // ---------- no lookahead, end to end ----------

  /**
   * Two inputs of one setting that share the execution bars before k and whatever
   * is visible at every decision that can fill there: the last is at bar k - 2.
   */
  ghost predicate SharePast(m: Arithmetic, one: Adapter, two: Adapter, k: nat) {
    && TrustedFeed(m, one.digests.indicators, one.feed) && TrustedFeed(m, two.digests.indicators, two.feed)
    && Fits(one.feed) && Fits(two.feed)
    && SameSetting(one, two)
    && SamePast(one.feed.composition.input.execution, two.feed.composition.input.execution, k)
    && (k > 1 ==> SamePastAt(one.feed.composition.input, two.feed.composition.input, k - 2))
  }

  /**
   * No lookahead from candles and indicators to the ledger: two completed runs of
   * one strategy on such inputs make the same fills before bar k, a forced close
   * apart, unless the provider acts on digests of the whole input at a ready bar
   * before k - 1.
   */
  lemma StrategyFillsDependOnPast(
    m: Arithmetic, one: Adapter, two: Adapter, policy: Policy, hash: RunHashes,
    expectedHash: Option<string>, otherHash: Option<string>, r: BacktestResult, q: BacktestResult, k: nat)
    requires SharePast(m, one, two, k) && one.provider == two.provider
    requires |one.feed.composition.input.contexts| == |one.feed.composition.contextIndicators|
    requires k > 0 ==> Blind(one, two, k - 1)
    requires Completed(SetupOf(one, policy), one.feed.composition.input.execution, expectedHash, hash, r)
    requires Completed(SetupOf(two, policy), two.feed.composition.input.execution, otherHash, hash, q)
    ensures SameFillsBefore(r.fills, q.fills, k)
  {
    hide TrustedFeed, Fits, SameConfiguration, SamePastAt, Completed, SameStrategy, SetupOf, Blind, SameFillsBefore;
    if k > 0 { SamePastSameStrategy(m, one, two, policy, k - 1); }
    FillsDependOnPast(
      SetupOf(one, policy), one.feed.composition.input.execution, r,
      SetupOf(two, policy), two.feed.composition.input.execution, q, expectedHash, otherHash, hash, k);
  }

  // ---------- contexts resampled from the execution series ----------

  /** Every context series is the resample of the execution series. */
  predicate ContextsAreResampled(x: Input) {
    x.execution != []
    && forall k | 0 <= k < |x.contexts| ::
         var plan := DerivePlan(x.executionTimeframe, x.contexts[k].timeframe);
         && plan.Ok? && 0 < plan.value.ratio
         && CompleteBuckets(x.execution, plan.value) && x.contexts[k].candles == Targets(x.execution, plan.value)
  }

  /** With resampled contexts the execution bars alone decide what is visible. */
  lemma ResampledPastIsExecutionPast(a: Composition, b: Composition, i: nat)
    requires TrustedInput(a.input) && TrustedInput(b.input) && SameConfiguration(a, b)
    requires ContextsAreResampled(a.input) && ContextsAreResampled(b.input)
    requires i < |a.input.execution| && i < |b.input.execution|
    requires a.input.execution[..i + 1] == b.input.execution[..i + 1]
    ensures SamePastAt(a.input, b.input, i)
  {
    hide CompleteBuckets, DerivePlan, VisibleCount, Targets, Canonical;
    var x, y := a.input, b.input;
    forall k: nat | k < |x.contexts|
      ensures VisibleAt(x, k, i) == VisibleAt(y, k, i)
      ensures x.contexts[k].candles[..VisibleAt(x, k, i)] == y.contexts[k].candles[..VisibleAt(y, k, i)]
    {
      var plan := DerivePlan(x.executionTimeframe, x.contexts[k].timeframe).value;
      PlanNamesItsTimeframes(x.executionTimeframe, x.contexts[k].timeframe);
      FutureBarsCannotLeak(x.execution, y.execution, plan, i);
    }
  }

  lemma PlanNamesItsTimeframes(source: Timeframe, target: Timeframe)
    requires DerivePlan(source, target).Ok?
    ensures ValidPlan(DerivePlan(source, target).value)
    ensures DerivePlan(source, target).value.source == source
  {
  }

  /** Inputs with resampled contexts share a past as soon as they share their execution bars. */
  lemma ResampledInputsSharePast(m: Arithmetic, one: Adapter, two: Adapter, k: nat)
    requires TrustedFeed(m, one.digests.indicators, one.feed) && TrustedFeed(m, two.digests.indicators, two.feed)
    requires Fits(one.feed) && Fits(two.feed) && SameSetting(one, two)
    requires ContextsAreResampled(one.feed.composition.input) && ContextsAreResampled(two.feed.composition.input)
    requires SamePast(one.feed.composition.input.execution, two.feed.composition.input.execution, k)
    ensures SharePast(m, one, two, k)
  {
    hide Fits, SameConfiguration, SamePastAt, ContextsAreResampled, TrustedInput;
    if k > 1 {
      ResampledPastIsExecutionPast(one.feed.composition, two.feed.composition, k - 2);
    }
  }

  /**
   * The whole pipeline, resampling, alignment, indicators, views, adapter and
   * engine: change any execution bar from k on, rebuild everything derived from
   * it, and no fill before bar k changes, unless the provider acts on digests of
   * the whole input at a ready bar before k - 1.
   */
  lemma PipelineHasNoLookahead(
    m: Arithmetic, one: Adapter, two: Adapter, policy: Policy, hash: RunHashes,
    expectedHash: Option<string>, otherHash: Option<string>, r: BacktestResult, q: BacktestResult, k: nat)
    requires TrustedFeed(m, one.digests.indicators, one.feed) && Fits(one.feed)
    requires TrustedFeed(m, two.digests.indicators, two.feed) && Fits(two.feed)
    requires SameSetting(one, two) && one.provider == two.provider
    requires ContextsAreResampled(one.feed.composition.input) && ContextsAreResampled(two.feed.composition.input)
    requires SamePast(one.feed.composition.input.execution, two.feed.composition.input.execution, k)
    requires |one.feed.composition.input.contexts| == |one.feed.composition.contextIndicators|
    requires k > 0 ==> Blind(one, two, k - 1)
    requires Completed(SetupOf(one, policy), one.feed.composition.input.execution, expectedHash, hash, r)
    requires Completed(SetupOf(two, policy), two.feed.composition.input.execution, otherHash, hash, q)
    ensures SameFillsBefore(r.fills, q.fills, k)
  {
    hide Fits, TrustedFeed, SameSetting, SamePast, SharePast;
    hide Completed, SetupOf, ContextsAreResampled, Blind, SameFillsBefore;
    ResampledInputsSharePast(m, one, two, k);
    StrategyFillsDependOnPast(m, one, two, policy, hash, expectedHash, otherHash, r, q, k);
  }
}
