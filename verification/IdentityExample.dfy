/**
 * Two inputs that share five bars and differ in the sixth, and a provider whose
 * earlier fills give the difference away.
 */
module IdentityExample {
  import opened Results
  import opened Timeframes
  import opened Decimals
  import opened Candles
  import opened Series
  import opened Derivation
  import opened Resampling
  import opened Alignment
  import opened Averages
  import opened Indicators
  import opened CandleCsv
  import opened IndicatorViews
  import opened DecisionViews
  import opened ComposedViews
  import opened ViewCausality
  import opened Readiness
  import opened InputIdentity
  import opened MathRules
  import opened Intents
  import opened Engine
  import opened EngineCausality
  import opened TradePlans
  import opened StrategyAdapter
  import opened NoLookahead
  import opened DigestPeeking

  // ---------- the candles ----------

  lemma WholePrice(n: nat)
    ensures Value(Decimal(false, n, 0)) == n as real
  {
  }

  /** A candle without volume that rises from one whole price to another. */
  function Rising(open: Instant, timeframe: Timeframe, from: nat, to: nat): DecimalCandle
    requires from <= to
  {
    WholePrice(from);
    WholePrice(to);
    WholePrice(0);
    var low, high := Decimal(false, from, 0), Decimal(false, to, 0);
    DecimalFields(open, low, high, low, high, ZERO, ExpectedClose(open, timeframe), ZERO, 0, ZERO, ZERO)
  }

  lemma RisingIs(open: Instant, timeframe: Timeframe, from: nat, to: nat)
    requires from <= to
    ensures Numeric(Rising(open, timeframe, from, to))
      == CandleFields(
           open, from as real, to as real, from as real, to as real, 0.0, ExpectedClose(open, timeframe), 0.0, 0,
           0.0, 0.0)
  {
    WholePrice(from);
    WholePrice(to);
    WholePrice(0);
  }

  /** Six one-minute candles at ten, the last of which rises to its own price. */
  function Minutes(last: nat): seq<DecimalCandle>
    requires 10 <= last
  {
    [Rising(0, M1, 10, 10), Rising(MINUTE, M1, 10, 10), Rising(2 * MINUTE, M1, 10, 10),
     Rising(3 * MINUTE, M1, 10, 10), Rising(4 * MINUTE, M1, 10, 10), Rising(5 * MINUTE, M1, 10, last)]
  }

  function ThreeMinutes(last: nat): seq<DecimalCandle>
    requires 10 <= last
  {
    [Rising(0, M3, 10, 10), Rising(3 * MINUTE, M3, 10, last)]
  }

  /** The candles in plain numbers. */
  function Plain(open: Instant, timeframe: Timeframe, last: nat): CandleFields {
    CandleFields(open, 10.0, last as real, 10.0, last as real, 0.0, ExpectedClose(open, timeframe), 0.0, 0, 0.0, 0.0)
  }

  lemma CandlesAre(last: nat)
    requires 10 <= last
    ensures NumericOf(Minutes(last))
      == [Plain(0, M1, 10), Plain(MINUTE, M1, 10), Plain(2 * MINUTE, M1, 10),
          Plain(3 * MINUTE, M1, 10), Plain(4 * MINUTE, M1, 10), Plain(5 * MINUTE, M1, last)]
    ensures NumericOf(ThreeMinutes(last)) == [Plain(0, M3, 10), Plain(3 * MINUTE, M3, last)]
  {
    RisingIs(0, M1, 10, 10);
    RisingIs(MINUTE, M1, 10, 10);
    RisingIs(2 * MINUTE, M1, 10, 10);
    RisingIs(3 * MINUTE, M1, 10, 10);
    RisingIs(4 * MINUTE, M1, 10, 10);
    RisingIs(5 * MINUTE, M1, 10, last);
    RisingIs(0, M3, 10, 10);
    RisingIs(3 * MINUTE, M3, 10, last);
    hide Rising;
  }

  lemma Times(last: nat)
    requires 10 <= last
    ensures |NumericOf(Minutes(last))| == 6 && |NumericOf(ThreeMinutes(last))| == 2
    ensures forall i: nat | i < 6 ::
              && NumericOf(Minutes(last))[i].openTime == i * Duration(M1)
              && NumericOf(Minutes(last))[i].closeTime == ExpectedClose(i * Duration(M1), M1)
    ensures forall i: nat | i < 2 ::
              && NumericOf(ThreeMinutes(last))[i].openTime == i * Duration(M3)
              && NumericOf(ThreeMinutes(last))[i].closeTime == ExpectedClose(i * Duration(M3), M3)
  {
    CandlesAre(last);
    hide NumericOf, Minutes, ThreeMinutes, ExpectedClose;
  }

  lemma CandlesAreCanonical(last: nat)
    requires 10 <= last
    ensures Canonical(NumericOf(Minutes(last)), M1) && Canonical(NumericOf(ThreeMinutes(last)), M3)
  {
    Times(last);
    EvenIsCanonical(NumericOf(Minutes(last)), M1);
    EvenIsCanonical(NumericOf(ThreeMinutes(last)), M3);
  }

  lemma EvenIsCanonical(candles: seq<Candle>, timeframe: Timeframe)
    requires candles != []
    requires forall i: nat | i < |candles| ::
               && candles[i].openTime == i * Duration(timeframe)
               && candles[i].closeTime == ExpectedClose(i * Duration(timeframe), timeframe)
    ensures Canonical(candles, timeframe)
  {
    AlignFloorIsFloor(0, timeframe);
    hide AlignFloor, ExpectedClose, Duration;
  }

  /** The three-minute candles are the resample of the one-minute candles. */
  lemma ThreeMinutesAreResampled(last: nat)
    requires 10 <= last
    ensures var plan := DerivePlan(M1, M3);
      && plan.Ok? && plan.value.ratio == 3 && CompleteBuckets(NumericOf(Minutes(last)), plan.value)
      && NumericOf(ThreeMinutes(last)) == Targets(NumericOf(Minutes(last)), plan.value)
  {
    CandlesAre(last);
    AlignFloorIsFloor(0, M3);
    hide NumericOf, Minutes, ThreeMinutes, AlignFloor;
    var plan, source := DerivePlan(M1, M3).value, NumericOf(Minutes(last));
    BucketIs(source, 0, last);
    BucketIs(source, 1, last);
  }

  lemma BucketIs(source: seq<Candle>, k: nat, last: nat)
    requires k < 2 && 10 <= last && |source| == 6
    requires forall i: nat | i < 6 :: source[i] == Plain(i * MINUTE, M1, if i == 5 then last else 10)
    ensures DerivePlan(M1, M3).Ok? && DerivePlan(M1, M3).value.ratio == 3
    ensures TargetAt(source, DerivePlan(M1, M3).value, k) == Plain(3 * k * MINUTE, M3, if k == 1 then last else 10)
  {
    var children, to := Bucket(source, 3, k), if k == 1 then last else 10;
    assert children == [source[3 * k], source[3 * k + 1], source[3 * k + 2]];
    ThreeMerge(children, 3 * k * MINUTE, to);
  }

  lemma ThreeMerge(children: seq<Candle>, open: Instant, last: nat)
    requires 10 <= last
    requires children == [Plain(open, M1, 10), Plain(open + MINUTE, M1, 10), Plain(open + 2 * MINUTE, M1, last)]
    ensures Aggregate(children, open, M3) == Plain(open, M3, last)
  {
    var two := children[..2];
    assert two[..1] == [children[0]] && two[1] == children[1];
    assert MergeAll(two[..1]) == children[0];
    assert MergeAll(two) == Merge(children[0], children[1]);
    assert MergeAll(children) == Merge(Merge(children[0], children[1]), children[2]);
  }

  // ---------- the inputs ----------

  function Unidentified(last: nat): Input
    requires 10 <= last
  {
    var execution, context := NumericOf(Minutes(last)), NumericOf(ThreeMinutes(last));
    Input(
      "strategy", "BTCUSDT", M1, 0, execution,
      [ContextInput(M3, 0, context, Mapping(execution, context), "", "")], "", "")
  }

  function ExampleInput(h: InputHasher, last: nat): Input
    requires 10 <= last
  {
    Identify(h, Unidentified(last))
  }

  lemma ExampleFields(h: InputHasher, last: nat)
    requires 10 <= last
    ensures var x := ExampleInput(h, last);
      && x.strategyHash == "strategy" && x.symbol == "BTCUSDT" && x.executionTimeframe == M1 && x.executionWarmup == 0
      && x.execution == NumericOf(Minutes(last)) && |x.execution| == 6
      && |x.contexts| == 1 && x.contexts[0].timeframe == M3 && x.contexts[0].warmupBars == 0
      && x.contexts[0].candles == NumericOf(ThreeMinutes(last))
  {
    hide Mapping, AlignmentHash, CandleHash, BundleHash, Rising;
  }

  /** What the input factory checks holds of the example, and its contexts are resampled. */
  lemma ExampleIsTrusted(h: InputHasher, last: nat)
    requires 10 <= last
    ensures TrustedInput(ExampleInput(h, last)) && Identified(h, ExampleInput(h, last))
    ensures DecimalInput(ExampleInput(h, last)) && ContextsAreResampled(ExampleInput(h, last))
  {
    ExampleFields(h, last);
    CandlesAreCanonical(last);
    ThreeMinutesAreResampled(last);
    hide Mapping, Canonical, AlignmentHash, CandleHash, BundleHash, Minutes, ThreeMinutes, NumericOf, DerivePlan;
    hide CompleteBuckets, Targets;
    var x := Unidentified(last);
    assert DecimalSeries(x.execution) && DecimalSeries(x.contexts[0].candles);
    hide DecimalSeries;
    IdentifyIsIdentified(h, x);
  }

  lemma SeriesSharePrefix()
    ensures var a, b := NumericOf(Minutes(10)), NumericOf(Minutes(11));
      |a| == |b| == 6 && a[..5] == b[..5] && a[5] != b[5]
    ensures var a, b := NumericOf(ThreeMinutes(10)), NumericOf(ThreeMinutes(11));
      |a| == |b| == 2 && a[..1] == b[..1]
  {
    CandlesAre(10);
    CandlesAre(11);
    hide NumericOf, Minutes, ThreeMinutes;
  }

  /** From the third bar to the fifth, one context candle has closed. */
  lemma OneCandleIsVisible(h: InputHasher, last: nat, i: nat)
    requires 10 <= last && 2 <= i <= 4
    ensures |ExampleInput(h, last).execution| == 6 && |ExampleInput(h, last).contexts| == 1
    ensures VisibleAt(ExampleInput(h, last), 0, i) == 1
  {
    ExampleFields(h, last);
    Times(last);
    hide ExampleInput, Minutes, ThreeMinutes, NumericOf, VisibleCount;
    var x := ExampleInput(h, last);
    VisibleCountIs(x.contexts[0].candles, x.execution[i].closeTime, 0, 1);
  }

  /** The example inputs share five bars and what is visible at each of them, and differ in the sixth. */
  lemma ExampleSharesPast(h: InputHasher)
    ensures var x, y := ExampleInput(h, 10), ExampleInput(h, 11);
      && |x.execution| == |y.execution| == 6 && x.execution[5] != y.execution[5] && SamePastAt(x, y, 4)
  {
    ExampleFields(h, 10);
    ExampleFields(h, 11);
    SeriesSharePrefix();
    OneCandleIsVisible(h, 10, 4);
    OneCandleIsVisible(h, 11, 4);
    hide ExampleInput, Minutes, ThreeMinutes, NumericOf, VisibleAt;
  }

  // ---------- the strategy ----------

  /** The true range of the execution series, which needs no warm-up. */
  function ExampleBundle(m: Arithmetic, candles: seq<Candle>): Bundle {
    Bundle("BTCUSDT", M1, candles, [SeriesOf(m, TrueRange, None, candles)])
  }

  function ExampleSource(h: Hasher, m: Arithmetic, candles: seq<Candle>): Source {
    var key, values := SeriesKey(TrueRange, None), SeriesOf(m, TrueRange, None, candles).values;
    Source(
      key, values, PrefixChain(h, Header("BTCUSDT", M1, key), values),
      seq(|values| + 1, k requires 0 <= k <= |values| => DefinedCount(values[..k])))
  }

  function ExampleFeed(m: Arithmetic, d: Digests, h: InputHasher, last: nat): ComposedFeed
    requires 10 <= last
  {
    var x := ExampleInput(h, last);
    ComposedFeed(
      Composition(x, Some(ExampleBundle(m, x.execution)), [None]),
      Some(Feed("BTCUSDT", M1, |x.execution|, [ExampleSource(d.indicators, m, x.execution)])),
      [None])
  }

  function ExampleAdapter(m: Arithmetic, d: Digests, h: InputHasher, last: nat, p: StrategyProvider): Adapter
    requires 10 <= last
  {
    Adapter(d, ExampleFeed(m, d, h, last), {Long}, p)
  }

  lemma ExampleBundleIsTrusted(m: Arithmetic, h: Hasher, candles: seq<Candle>)
    requires candles != []
    ensures Trusted(m, ExampleBundle(m, candles))
    ensures FeedOf(h, ExampleBundle(m, candles), Feed("BTCUSDT", M1, |candles|, [ExampleSource(h, m, candles)]))
  {
    hide Calculate, PrefixChain;
  }

  lemma ExampleFeedIsTrusted(m: Arithmetic, d: Digests, h: InputHasher, last: nat)
    requires 10 <= last
    ensures TrustedFeed(m, d.indicators, ExampleFeed(m, d, h, last)) && Fits(ExampleFeed(m, d, h, last))
  {
    ExampleIsTrusted(h, last);
    ExampleFields(h, last);
    var x := ExampleInput(h, last);
    ExampleBundleIsTrusted(m, d.indicators, x.execution);
    assert ExampleBundle(m, x.execution).candles == x.execution;
    assert ExampleBundle(m, x.execution).symbol == "BTCUSDT" && ExampleBundle(m, x.execution).timeframe == M1;
    hide ExampleInput, TrustedInput, DecimalInput, Identified, ContextsAreResampled, ExampleBundle, ExampleSource;
    hide NumericOf, Minutes, ThreeMinutes, Trusted, FeedOf;
    TrustedFeedFits(m, d.indicators, ExampleFeed(m, d, h, last));
  }

  lemma ExampleRequest(m: Arithmetic, a: seq<Candle>, b: seq<Candle>)
    ensures SameRequest(ExampleBundle(m, a), ExampleBundle(m, b))
  {
    hide Calculate;
  }

  lemma ExampleConfiguration(m: Arithmetic, d: Digests, h: InputHasher)
    ensures SameConfiguration(ExampleFeed(m, d, h, 10).composition, ExampleFeed(m, d, h, 11).composition)
  {
    ExampleFields(h, 10);
    ExampleFields(h, 11);
    var x, y := ExampleInput(h, 10), ExampleInput(h, 11);
    ExampleRequest(m, x.execution, y.execution);
    hide ExampleInput, NumericOf, Minutes, ThreeMinutes, ExampleSource, ExampleBundle;
    OneSlot(x, ExampleBundle(m, x.execution), y, ExampleBundle(m, y.execution));
  }

  lemma OneSlot(x: Input, a: Bundle, y: Input, b: Bundle)
    requires x.strategyHash == y.strategyHash && x.symbol == y.symbol && x.executionTimeframe == y.executionTimeframe
    requires x.executionWarmup == y.executionWarmup && |x.contexts| == |y.contexts| == 1 && SameRequest(a, b)
    requires x.contexts[0].timeframe == y.contexts[0].timeframe && x.contexts[0].warmupBars == y.contexts[0].warmupBars
    ensures SameConfiguration(Composition(x, Some(a), [None]), Composition(y, Some(b), [None]))
  {
  }

  lemma ExampleSharesSetting(m: Arithmetic, d: Digests, h: InputHasher, p: StrategyProvider)
    ensures SharePast(m, ExampleAdapter(m, d, h, 10, p), ExampleAdapter(m, d, h, 11, p), 5)
  {
    ExampleFeedIsTrusted(m, d, h, 10);
    ExampleFeedIsTrusted(m, d, h, 11);
    ExampleSharesPast(h);
    ExampleConfiguration(m, d, h);
    FeedHasItsInput(m, d, h, 10);
    FeedHasItsInput(m, d, h, 11);
    hide TrustedFeed, Fits, ExampleInput, SameConfiguration, SamePastAt, ExampleFeed, SharePast;
    SharedUpTo(m, ExampleAdapter(m, d, h, 10, p), ExampleAdapter(m, d, h, 11, p), 5, 5);
  }

  lemma FeedHasItsInput(m: Arithmetic, d: Digests, h: InputHasher, last: nat)
    requires 10 <= last
    ensures ExampleFeed(m, d, h, last).composition.input == ExampleInput(h, last)
  {
    hide ExampleInput, ExampleSource;
  }

  /** Sharing a past does not make the digests agree. */
  lemma ExampleDigestsDiffer(h: InputHasher)
    requires Binds(h)
    ensures !SameIdentity(ExampleInput(h, 10), ExampleInput(h, 11))
  {
    ExampleIsTrusted(h, 10);
    ExampleIsTrusted(h, 11);
    ExampleSharesPast(h);
    hide ExampleInput, Identified, DecimalInput, TrustedInput, Binds, SamePastAt, SameIdentity, ContextsAreResampled;
    IdentityIsContents(h, ExampleInput(h, 10), ExampleInput(h, 11));
  }

  /** After five shared bars the candle views' own hashes differ at each of them. */
  lemma ViewHashesLeak(base: BaseDocument -> Digest, m: Arithmetic, d: Digests, h: InputHasher, i: nat)
    requires Binds(h) && i < 5 && forall a, b | base(a) == base(b) :: a == b
    ensures |ExampleInput(h, 10).execution| == |ExampleInput(h, 11).execution| == 6
    ensures BaseViewAt(base, ExampleInput(h, 10), i).viewHash != BaseViewAt(base, ExampleInput(h, 11), i).viewHash
  {
    var one, two := ExampleFeed(m, d, h, 10).composition, ExampleFeed(m, d, h, 11).composition;
    ExampleIsTrusted(h, 10);
    ExampleIsTrusted(h, 11);
    ExampleSharesPast(h);
    ExampleConfiguration(m, d, h);
    FeedHasItsInput(m, d, h, 10);
    FeedHasItsInput(m, d, h, 11);
    hide ExampleInput, ExampleFeed, Identified, DecimalInput, TrustedInput, SamePastAt, SameConfiguration, BaseViewAt;
    hide ContextsAreResampled, Binds;
    SamePastShrinks(ExampleInput(h, 10), ExampleInput(h, 11), 4, i);
    BaseHashBindsWholeInput(base, h, one, two, i);
  }

  // ---------- the trade ----------

  function ExamplePolicy(): Policy {
    MakePolicy(PolicyFields(1000.0, 0.0, 0.0, 1.0, 1.0, 1.0, 0.0, true)).value
  }

  /** Long from the third bar's decision, with a bracket that no bar touches. */
  function ExamplePlan(): TradePlan {
    TradePlan(2, EnterIntent("long", 2 * MINUTE, Long, 1.0, 5.0, 20.0), 5, EndOfData)
  }

  lemma ExamplePrices()
    ensures MarketFill(ExamplePolicy(), Buy, 10.0) == MarketFill(ExamplePolicy(), Sell, 10.0) == 10.0
    ensures NormalizedStop(ExamplePolicy(), ExamplePlan().order) == 5.0
    ensures NormalizedTarget(ExamplePolicy(), ExamplePlan().order) == 20.0
    ensures Notional(10.0, 1.0) == 10.0 && IsQuantityAligned(1.0, 1.0)
  {
  }

  lemma ExamplePlanIsFeasible()
    ensures Feasible(ExamplePolicy(), NumericOf(Minutes(10)), ExamplePlan())
  {
    ExamplePrices();
    CandlesAre(10);
    hide NumericOf, Minutes, MarketFill, NormalizedStop, NormalizedTarget, Notional, IsQuantityAligned;
  }

  /** The third bar is ready: its context has closed a candle, and the true range needs none before it. */
  lemma ExampleIsReady(m: Arithmetic, d: Digests, h: InputHasher, p: StrategyProvider)
    ensures ReadyHere(ExampleAdapter(m, d, h, 10, p), 2)
  {
    ExampleFields(h, 10);
    OneCandleIsVisible(h, 10, 2);
    NeedsNoWarmup(m, ExampleInput(h, 10).execution);
    hide ExampleInput, NumericOf, Minutes, ThreeMinutes, VisibleAt, ExampleSource, ExampleBundle, WarmedUp;
  }

  lemma NeedsNoWarmup(m: Arithmetic, candles: seq<Candle>)
    ensures WarmedUp(ExampleBundle(m, candles), 2)
  {
    hide Calculate;
  }

  lemma ExampleAllowsItsPlan(m: Arithmetic, d: Digests, h: InputHasher, p: StrategyProvider)
    ensures Allows(ExampleAdapter(m, d, h, 10, p), ExamplePolicy(), 4, ExamplePlan())
  {
    ExamplePlanIsFeasible();
    ExampleIsReady(m, d, h, p);
    ExampleFields(h, 10);
    FeedHasItsInput(m, d, h, 10);
    hide Feasible, ExampleInput, NumericOf, Minutes, ThreeMinutes, ExampleFeed, ReadyHere;
  }

  /** The engine's digest of a series is the one the input factory takes. */
  function ExampleHashes(h: InputHasher, policyHash: Policy -> string): RunHashes {
    RunHashes(candles => CandleHash(h, candles), policyHash)
  }

  lemma ExampleCarriesItsDigest(h: InputHasher, policyHash: Policy -> string, last: nat)
    requires 10 <= last
    ensures CarriesItsDigest(ExampleHashes(h, policyHash), ExampleInput(h, last))
  {
    ExampleIsTrusted(h, last);
    hide ExampleInput, TrustedInput, DecimalInput, ContextsAreResampled, AlignmentHash, BundleHash, CandleHash;
  }

  lemma AdapterHasItsInput(m: Arithmetic, d: Digests, h: InputHasher, last: nat, p: StrategyProvider)
    requires 10 <= last
    ensures ExampleAdapter(m, d, h, last, p).feed.composition.input == ExampleInput(h, last)
  {
    FeedHasItsInput(m, d, h, last);
    hide ExampleFeed, ExampleInput;
  }

  /**
   * The promise fails: two inputs that the factories accept share everything
   * visible at their first five bars, and a provider that buys when it recognises
   * one of them by digest completes both runs, with its first fill at the fourth
   * bar in one and none at all in the other.
   */
  lemma DigestsLeak(m: Arithmetic, d: Digests, h: InputHasher, policyHash: Policy -> string, p: StrategyProvider)
    requires Binds(h)
    ensures SharePast(m, ExampleAdapter(m, d, h, 10, p), ExampleAdapter(m, d, h, 11, p), 5)
    ensures SplitsRuns(
              ExampleAdapter(m, d, h, 10, p), ExampleAdapter(m, d, h, 11, p), ExamplePolicy(),
              ExampleHashes(h, policyHash), PeekingTrader(ExampleInput(h, 10), ExamplePlan()), 3)
  {
    hide ExampleAdapter, ExampleInput, TrustedFeed, Fits, SameSetting, SamePastAt, SamePast, Allows, SameIdentity;
    hide PeekingTrader, Binds, ExamplePolicy, ExampleHashes, SplitsRuns, CarriesItsDigest;
    ExampleSharesSetting(m, d, h, p);
    ExampleDigestsDiffer(h);
    ExampleAllowsItsPlan(m, d, h, p);
    AdapterHasItsInput(m, d, h, 10, p);
    AdapterHasItsInput(m, d, h, 11, p);
    ExampleCarriesItsDigest(h, policyHash, 10);
    ExampleCarriesItsDigest(h, policyHash, 11);
    PeekingSplitsRuns(
      m, ExampleAdapter(m, d, h, 10, p), ExampleAdapter(m, d, h, 11, p), ExamplePolicy(),
      ExampleHashes(h, policyHash), 4, ExamplePlan());
  }
}
