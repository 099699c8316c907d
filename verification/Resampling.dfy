/** Complete-bucket resampling of a candle series to a coarser timeframe. */
module Resampling {
  import opened Integers
  import opened Results
  import opened Timeframes
  import opened Candles
  import opened Series
  import opened Derivation
  import opened Totals

  datatype ResamplingError =
    | NoPlan(plan: DerivationError)
    | BadSource(source: SeriesError)
    | BadTarget(target: SeriesError)
    | SourceHashMismatch
    | EmptySource
    | PartialBucket
    | TargetCountMismatch
    | MisalignedStart
    | MisplacedChild(bucket: int, child: int)
    | InvalidAggregate(candle: CandleError)
    | TargetMismatch(index: nat)
    | FinalCloseMismatch

  // ---------- aggregation as an associative merge ----------

  /** The candle that covers a and then b. */
  function Merge(a: CandleFields, b: CandleFields): CandleFields {
    CandleFields(
      a.openTime, a.open, Max(a.high, b.high), Min(a.low, b.low), b.close, a.volume + b.volume,
      b.closeTime, a.quoteVolume + b.quoteVolume, a.tradeCount + b.tradeCount,
      a.takerBase + b.takerBase, a.takerQuote + b.takerQuote)
  }

  function MergeAll(candles: seq<CandleFields>): CandleFields
    requires candles != []
  {
    var last := |candles| - 1;
    if last == 0 then candles[0] else Merge(MergeAll(candles[..last]), candles[last])
  }

  /** Merging is associative, so a series may be cut anywhere. */
  lemma {:induction false} MergeAllSplits(a: seq<CandleFields>, b: seq<CandleFields>)
    requires a != [] && b != []
    ensures MergeAll(a + b) == Merge(MergeAll(a), MergeAll(b))
  {
    var last := |b| - 1;
    assert (a + b)[..|a| + last] == a + b[..last];
    assert (a + b)[|a| + last] == b[last];
    if last == 0 {
      assert a + b[..last] == a;
    } else {
      MergeAllSplits(a, b[..last]);
    }
  }

  /** A merged candle opens with its first part and closes with its last. */
  lemma {:induction false} MergedEnds(candles: seq<CandleFields>)
    requires candles != []
    ensures var m, last := MergeAll(candles), |candles| - 1;
      && m.openTime == candles[0].openTime && m.open == candles[0].open
      && m.closeTime == candles[last].closeTime && m.close == candles[last].close
  {
    if |candles| > 1 {
      MergedEnds(candles[..|candles| - 1]);
    }
  }

  /** Its high and low bound those of all parts and are attained by some part. */
  lemma {:induction false} MergedExtremes(candles: seq<CandleFields>)
    requires candles != []
    ensures forall i | 0 <= i < |candles| ::
              MergeAll(candles).low <= candles[i].low && candles[i].high <= MergeAll(candles).high
    ensures exists i :: 0 <= i < |candles| && candles[i].high == MergeAll(candles).high
    ensures exists i :: 0 <= i < |candles| && candles[i].low == MergeAll(candles).low
  {
    var last := |candles| - 1;
    if last > 0 {
      var init := candles[..last];
      MergedExtremes(init);
      var h :| 0 <= h < last && init[h].high == MergeAll(init).high;
      var l :| 0 <= l < last && init[l].low == MergeAll(init).low;
      assert forall i | 0 <= i < last :: candles[i] == init[i];
      var m := MergeAll(candles);
      assert candles[h].high == m.high || candles[last].high == m.high;
      assert candles[l].low == m.low || candles[last].low == m.low;
    } else {
      assert candles[0].high == MergeAll(candles).high && candles[0].low == MergeAll(candles).low;
    }
  }

  function VolumeOf(c: CandleFields): real { c.volume }
  function QuoteVolumeOf(c: CandleFields): real { c.quoteVolume }
  function TradeCountOf(c: CandleFields): int { c.tradeCount }
  function TakerBaseOf(c: CandleFields): real { c.takerBase }
  function TakerQuoteOf(c: CandleFields): real { c.takerQuote }

  /** Its volumes and its trade count are the sums over its parts. */
  lemma {:induction false} MergedSums(candles: seq<CandleFields>)
    requires candles != []
    ensures var m := MergeAll(candles);
      && m.volume == Total(candles, VolumeOf) && m.quoteVolume == Total(candles, QuoteVolumeOf)
      && m.tradeCount == TotalCount(candles, TradeCountOf)
      && m.takerBase == Total(candles, TakerBaseOf) && m.takerQuote == Total(candles, TakerQuoteOf)
  {
    var init := candles[..|candles| - 1];
    if init != [] { MergedSums(init); }
  }

  /** Merging valid candles gives a valid candle as long as time does not run backwards. */
  lemma {:induction false} MergedIsValid(candles: seq<Candle>)
    requires candles != [] && candles[0].openTime <= candles[|candles| - 1].closeTime
    ensures MergeAll(candles).Valid()
  {
    MergedEnds(candles);
    MergedExtremes(candles);
    MergedAmountsAreNonNegative(candles);
  }

  lemma {:induction false} MergedAmountsAreNonNegative(candles: seq<Candle>)
    requires candles != []
    ensures var m := MergeAll(candles);
      0 <= m.tradeCount && 0.0 <= m.volume && 0.0 <= m.quoteVolume && 0.0 <= m.takerBase && 0.0 <= m.takerQuote
  {
    if |candles| > 1 {
      MergedAmountsAreNonNegative(candles[..|candles| - 1]);
    }
  }

  // ---------- buckets ----------

  function Aggregate(children: seq<Candle>, targetOpen: Instant, target: Timeframe): (c: Candle)
    requires children != []
  {
    MergedEnds(children);
    MergedExtremes(children);
    MergedAmountsAreNonNegative(children);
    MergeAll(children).(openTime := targetOpen, closeTime := ExpectedClose(targetOpen, target))
  }

  function Bucket(candles: seq<Candle>, ratio: int, k: nat): (b: seq<Candle>)
    requires 0 < ratio && (k + 1) * ratio <= |candles|
    ensures |b| == ratio
  {
    assert 0 <= k * ratio <= (k + 1) * ratio == k * ratio + ratio;
    candles[k * ratio..(k + 1) * ratio]
  }

  lemma BucketFits(n: nat, ratio: int, k: nat)
    requires 0 < ratio && k < n / ratio
    ensures (k + 1) * ratio <= n
  {
    if k + 1 < n / ratio { ProductsStepByDivisor(k + 1, n / ratio, ratio); }
  }

  function TargetAt(source: seq<Candle>, plan: Plan, k: nat): Candle
    requires source != [] && 0 < plan.ratio && k < |source| / plan.ratio
  {
    BucketFits(|source|, plan.ratio, k);
    Aggregate(Bucket(source, plan.ratio, k), source[0].openTime + k * Duration(plan.target), plan.target)
  }

  /** The target series: one candle per complete bucket. */
  function Targets(source: seq<Candle>, plan: Plan): (t: seq<Candle>)
    requires source != [] && 0 < plan.ratio
    ensures |t| == |source| / plan.ratio
  {
    seq(|source| / plan.ratio, k requires 0 <= k < |source| / plan.ratio => TargetAt(source, plan, k))
  }

  method AggregateBucket(children: seq<Candle>, targetOpen: Instant, target: Timeframe)
    returns (r: Result<Candle, ResamplingError>)
    requires children != []
    ensures r == Ok(Aggregate(children, targetOpen, target))
  {
    var high, low := children[0].high, children[0].low;
    var volume, quote, takerBase, takerQuote := 0.0, 0.0, 0.0, 0.0;
    var tradeCount := 0;
    for i := 0 to |children|
      invariant i == 0 ==> high == children[0].high && low == children[0].low
      invariant i == 0 ==> volume == quote == takerBase == takerQuote == 0.0 && tradeCount == 0
      invariant i > 0 ==> var m := MergeAll(children[..i]);
          && high == m.high && low == m.low && volume == m.volume && quote == m.quoteVolume
          && tradeCount == m.tradeCount && takerBase == m.takerBase && takerQuote == m.takerQuote
    {
      var child := children[i];
      assert children[..i + 1][..i] == children[..i];
      if child.high > high { high := child.high; }
      if child.low < low { low := child.low; }
      volume := volume + child.volume;
      quote := quote + child.quoteVolume;
      tradeCount := tradeCount + child.tradeCount;
      takerBase := takerBase + child.takerBase;
      takerQuote := takerQuote + child.takerQuote;
    }
    assert children[..|children|] == children;
    MergedEnds(children);
    var made := MakeCandle(CandleFields(
      targetOpen, children[0].open, high, low, children[|children| - 1].close, volume,
      ExpectedClose(targetOpen, target), quote, tradeCount, takerBase, takerQuote));
    r := match made case Ok(c) => Ok(c) case Err(e) => Err(InvalidAggregate(e));
  }

  method AggregateCompleteBuckets(source: seq<Candle>, plan: Plan) returns (targets: seq<Candle>)
    requires source != [] && 0 < plan.ratio
    ensures targets == Targets(source, plan)
  {
    targets := [];
    var firstOpen := source[0].openTime;
    for k := 0 to |source| / plan.ratio
      invariant |targets| == k
      invariant forall j: nat | j < k :: targets[j] == TargetAt(source, plan, j)
    {
      BucketFits(|source|, plan.ratio, k);
      var children := Bucket(source, plan.ratio, k);
      var made := AggregateBucket(children, firstOpen + k * Duration(plan.target), plan.target);
      assert made.value == TargetAt(source, plan, k);
      targets := targets + [made.value];
    }
    assert targets == Targets(source, plan);
  }

  // ---------- verification of a claimed target ----------

  /** The guards both the resampler and its verifier place on a canonical source. */
  predicate CompleteBuckets(source: seq<Candle>, plan: Plan)
    requires source != [] && 0 < plan.ratio
  {
    && |source| % plan.ratio == 0
    && AlignFloor(source[0].openTime, plan.target) == source[0].openTime
  }

  predicate ValidPlan(plan: Plan) {
    DerivePlan(plan.source, plan.target) == Ok(plan)
  }

  /** Children of a canonical source always sit where the placement check expects them. */
  lemma ChildrenAreInPlace(source: seq<Candle>, plan: Plan, k: nat, i: nat)
    requires ValidPlan(plan) && Canonical(source, plan.source)
    requires k < |source| / plan.ratio && i < plan.ratio
    ensures (k + 1) * plan.ratio <= |source|
    ensures Bucket(source, plan.ratio, k)[i].openTime
      == source[0].openTime + k * Duration(plan.target) + i * Duration(plan.source)
  {
    PlanIsExact(plan.source, plan.target);
    BucketFits(|source|, plan.ratio, k);
    BucketStart(plan.ratio, k, i, Duration(plan.source), Duration(plan.target));
    assert Bucket(source, plan.ratio, k)[i] == source[k * plan.ratio + i];
    assert PlacedAt(source, plan.source, k * plan.ratio + i);
  }

  lemma BucketStart(ratio: int, k: int, i: int, d: int, e: int)
    requires e == ratio * d
    ensures (k * ratio + i) * d == k * e + i * d
  {
  }

  lemma LastChildCloses(source: seq<Candle>, plan: Plan, k: nat)
    requires ValidPlan(plan) && Canonical(source, plan.source)
    requires k < |source| / plan.ratio
    ensures (k + 1) * plan.ratio <= |source|
    ensures 0 < plan.ratio && var last := Bucket(source, plan.ratio, k)[plan.ratio - 1];
      last.closeTime == ExpectedClose(source[0].openTime + k * Duration(plan.target), plan.target)
  {
    PlanIsExact(plan.source, plan.target);
    ChildrenAreInPlace(source, plan, k, plan.ratio - 1);
    assert Bucket(source, plan.ratio, k)[plan.ratio - 1] == source[k * plan.ratio + plan.ratio - 1];
    assert PlacedAt(source, plan.source, k * plan.ratio + plan.ratio - 1);
    OneLess(plan.ratio, Duration(plan.source));
  }

  lemma OneLess(ratio: int, d: int)
    ensures (ratio - 1) * d == ratio * d - d
  {
  }

  /** A target that opens where its bucket opens also closes where its last child closes. */
  lemma TargetIsMerged(source: seq<Candle>, plan: Plan, k: nat)
    requires ValidPlan(plan) && Canonical(source, plan.source)
    requires k < |source| / plan.ratio
    ensures 0 < plan.ratio && (k + 1) * plan.ratio <= |source|
    ensures TargetAt(source, plan, k) == MergeAll(Bucket(source, plan.ratio, k))
  {
    PlanIsExact(plan.source, plan.target);
    LastChildCloses(source, plan, k);
    ChildrenAreInPlace(source, plan, k, 0);
    MergedEnds(Bucket(source, plan.ratio, k));
  }

  /** The resampler's output is itself a canonical series of the target timeframe. */
  lemma TargetsAreCanonical(source: seq<Candle>, plan: Plan)
    requires ValidPlan(plan) && Canonical(source, plan.source) && CompleteBuckets(source, plan)
    ensures Canonical(Targets(source, plan), plan.target)
  {
  }

  /** So is the last target's close: the final close-time guard cannot fire. */
  lemma FinalCloseIsImplied(source: seq<Candle>, plan: Plan)
    requires ValidPlan(plan) && Canonical(source, plan.source) && CompleteBuckets(source, plan)
    ensures |Targets(source, plan)| > 0
    ensures Targets(source, plan)[|source| / plan.ratio - 1].closeTime == source[|source| - 1].closeTime
  {
    TargetsAreCanonical(source, plan);
    var last := |source| / plan.ratio - 1;
    LastChildCloses(source, plan, last);
    LastBucketEndsSource(source, plan.ratio);
    assert TargetAt(source, plan, last).closeTime == Bucket(source, plan.ratio, last)[plan.ratio - 1].closeTime;
  }

  lemma LastBucketEndsSource(source: seq<Candle>, ratio: int)
    requires 0 < ratio && |source| % ratio == 0 && |source| / ratio > 0
    ensures (|source| / ratio - 1 + 1) * ratio == |source|
    ensures Bucket(source, ratio, |source| / ratio - 1)[ratio - 1] == source[|source| - 1]
  {
    WholeMultiple(|source|, ratio);
  }

  /** Candle j opens j durations after the first. */
  predicate OpensAt(source: seq<Candle>, timeframe: Timeframe, j: nat)
    requires j < |source|
  {
    source[j].openTime == source[0].openTime + j * Duration(timeframe)
  }

  predicate OpensEvenly(source: seq<Candle>, timeframe: Timeframe) {
    forall j: nat | j < |source| :: OpensAt(source, timeframe, j)
  }

  /** What the verifier asks of any source: whole buckets from a target boundary, evenly opened. */
  predicate Verifiable(source: seq<Candle>, plan: Plan)
    requires 0 < plan.ratio
  {
    source != [] && CompleteBuckets(source, plan) && OpensEvenly(source, plan.source)
  }

  /** The i-th child of the k-th bucket opens where the target slot expects it. */
  predicate ChildPlaced(source: seq<Candle>, plan: Plan, k: nat, i: nat)
    requires 0 < plan.ratio && k < |source| / plan.ratio && i < plan.ratio
  {
    BucketFits(|source|, plan.ratio, k);
    Bucket(source, plan.ratio, k)[i].openTime
    == source[0].openTime + k * Duration(plan.target) + i * Duration(plan.source)
  }

  lemma ChildSitsAt(source: seq<Candle>, plan: Plan, k: nat, i: nat)
    requires ValidPlan(plan) && 0 < plan.ratio && k < |source| / plan.ratio && i < plan.ratio
    ensures k * plan.ratio + i < |source|
    ensures ChildPlaced(source, plan, k, i)
      <==> OpensAt(source, plan.source, k * plan.ratio + i)
  {
    BucketFits(|source|, plan.ratio, k);
    PlanIsExact(plan.source, plan.target);
    assert (k + 1) * plan.ratio == k * plan.ratio + plan.ratio;
    BucketStart(plan.ratio, k, i, Duration(plan.source), Duration(plan.target));
  }

  lemma IndexIsChild(source: seq<Candle>, ratio: int, j: nat)
    requires 0 < ratio && |source| % ratio == 0 && j < |source|
    ensures j / ratio < |source| / ratio && j / ratio * ratio + j % ratio == j
  {
    WholeMultiple(|source|, ratio);
    FloorIsMonotone(j, |source|, ratio);
    assert j == j / ratio * ratio + j % ratio;
  }

  predicate BucketsPlaced(source: seq<Candle>, plan: Plan)
    requires 0 < plan.ratio
  {
    forall k: nat, i: nat | k < |source| / plan.ratio && i < plan.ratio :: ChildPlaced(source, plan, k, i)
  }

  /** Placement bucket by bucket is even placement of the whole source. */
  lemma PlacementIsEven(source: seq<Candle>, plan: Plan)
    requires ValidPlan(plan) && 0 < plan.ratio && |source| % plan.ratio == 0
    ensures OpensEvenly(source, plan.source) <==> BucketsPlaced(source, plan)
  {
    hide ChildPlaced, OpensAt, ValidPlan;
    var ratio := plan.ratio;
    if OpensEvenly(source, plan.source) {
      forall k: nat, i: nat | k < |source| / ratio && i < ratio
        ensures ChildPlaced(source, plan, k, i)
      {
        ChildSitsAt(source, plan, k, i);
      }
    }
    if BucketsPlaced(source, plan) {
      forall j: nat | j < |source|
        ensures OpensAt(source, plan.source, j)
      {
        IndexIsChild(source, ratio, j);
        ChildSitsAt(source, plan, j / ratio, j % ratio);
        assert ChildPlaced(source, plan, j / ratio, j % ratio);
      }
    }
  }

  /**
   * Accepts a target exactly when the source is made of evenly opened whole
   * buckets, the target is their aggregation, and both close together.
   */
  method VerifyCompleteBuckets(source: seq<Candle>, target: seq<Candle>, plan: Plan)
    returns (r: Result<(), ResamplingError>)
    requires ValidPlan(plan)
    ensures 0 < plan.ratio
    ensures r.Ok? <==>
      && Verifiable(source, plan) && target == Targets(source, plan)
      && target != [] && source[|source| - 1].closeTime == target[|target| - 1].closeTime
  {
    PlanIsExact(plan.source, plan.target);
    var ratio := plan.ratio;
    assert 0 < ratio;
    hide AlignFloor, Aggregate, ValidPlan, OpensEvenly, Duration;
    if |source| % ratio != 0 {
      return Err(PartialBucket);
    }
    PlacementIsEven(source, plan);
    var expectedCount := |source| / ratio;
    if |target| != expectedCount {
      return Err(TargetCountMismatch);
    }
    if source == [] {
      return Err(EmptySource);
    }
    var firstOpen := source[0].openTime;
    if AlignFloor(firstOpen, plan.target) != firstOpen {
      return Err(MisalignedStart);
    }
    WholeMultiple(|source|, ratio);
    assert 0 < expectedCount;
    for k := 0 to expectedCount
      invariant forall j: nat | j < k :: target[j] == TargetAt(source, plan, j)
      invariant forall j: nat, i: nat | j < k && i < ratio :: ChildPlaced(source, plan, j, i)
    {
      BucketFits(|source|, ratio, k);
      var children := Bucket(source, ratio, k);
      var targetOpen := firstOpen + k * Duration(plan.target);
      for i := 0 to |children|
        invariant forall c: nat | c < i :: ChildPlaced(source, plan, k, c)
      {
        if children[i].openTime != targetOpen + i * Duration(plan.source) {
          assert !ChildPlaced(source, plan, k, i);
          return Err(MisplacedChild(k, i));
        }
      }
      var expected := AggregateBucket(children, targetOpen, plan.target);
      if target[k] != expected.value {
        assert target[k] != Targets(source, plan)[k];
        return Err(TargetMismatch(k));
      }
    }
    assert target == Targets(source, plan);
    if source[|source| - 1].closeTime != target[|target| - 1].closeTime {
      return Err(FinalCloseMismatch);
    }
    return Ok(());
  }

  /** On a canonical source the placement and final-close checks are implied. */
  lemma CanonicalIsVerifiable(source: seq<Candle>, plan: Plan)
    requires ValidPlan(plan) && 0 < plan.ratio && Canonical(source, plan.source) && CompleteBuckets(source, plan)
    ensures Verifiable(source, plan) && Targets(source, plan) != []
    ensures source[|source| - 1].closeTime == Targets(source, plan)[|Targets(source, plan)| - 1].closeTime
  {
    FinalCloseIsImplied(source, plan);
    forall j: nat | j < |source|
      ensures OpensAt(source, plan.source, j)
    {
      assert PlacedAt(source, plan.source, j);
    }
  }

  lemma PlacementHolds(source: seq<Candle>, plan: Plan, k: nat)
    requires ValidPlan(plan) && Canonical(source, plan.source)
    requires k < |source| / plan.ratio
    ensures (k + 1) * plan.ratio <= |source|
    ensures forall i | 0 <= i < plan.ratio ::
              Bucket(source, plan.ratio, k)[i].openTime
              == source[0].openTime + k * Duration(plan.target) + i * Duration(plan.source)
  {
    BucketFits(|source|, plan.ratio, k);
    forall i | 0 <= i < plan.ratio
      ensures Bucket(source, plan.ratio, k)[i].openTime
        == source[0].openTime + k * Duration(plan.target) + i * Duration(plan.source)
    {
      ChildrenAreInPlace(source, plan, k, i);
    }
  }

  // ---------- the resampler ----------

  datatype ResampledSeries = ResampledSeries(
    symbol: string,
    plan: Plan,
    candles: seq<Candle>,
    sourceCount: nat,
    sourceMinimumOpen: Instant,
    sourceMaximumOpen: Instant,
    sourceHash: string,
    targetMinimumOpen: Instant,
    targetMaximumOpen: Instant,
    targetHash: string)

  function Describe(
    symbol: string, plan: Plan, source: seq<Candle>, target: seq<Candle>, hash: seq<Candle> -> string): ResampledSeries
    requires source != [] && target != []
  {
    ResampledSeries(
      symbol, plan, target,
      |source|, source[0].openTime, source[|source| - 1].openTime, hash(source),
      target[0].openTime, target[|target| - 1].openTime, hash(target))
  }

  method FromVerifiedSeries(
    symbol: string, plan: Plan, source: seq<Candle>, target: seq<Candle>, hash: seq<Candle> -> string)
    returns (r: Result<ResampledSeries, ResamplingError>)
    ensures r.Ok? <==>
      && DerivePlan(plan.source, plan.target).Ok?
      && var derived := DerivePlan(plan.source, plan.target).value;
      && 0 < derived.ratio && Canonical(source, plan.source)
      && CompleteBuckets(source, derived) && target == Targets(source, derived)
    ensures r.Ok? ==> target != []
    ensures r.Ok? ==> r.value == Describe(symbol, DerivePlan(plan.source, plan.target).value, source, target, hash)
  {
    PlanIsExact(plan.source, plan.target);
    var derived := DerivePlan(plan.source, plan.target);
    if derived.Err? {
      return Err(NoPlan(derived.error));
    }
    var checkedSource := RequireCanonicalSeries(source, plan.source);
    if checkedSource.Err? {
      return Err(BadSource(checkedSource.error));
    }
    if CompleteBuckets(source, derived.value) {
      TargetsAreCanonical(source, derived.value);
      CanonicalIsVerifiable(source, derived.value);
    }
    var checkedTarget := RequireCanonicalSeries(target, plan.target);
    if checkedTarget.Err? {
      return Err(BadTarget(checkedTarget.error));
    }
    var verified := VerifyCompleteBuckets(source, target, derived.value);
    if verified.Err? {
      return Err(verified.error);
    }
    return Ok(Describe(symbol, derived.value, source, target, hash));
  }

  /** What a caller gets: the first guard that fails, or the aggregation of the source. */
  function Resample(
    source: seq<Candle>, symbol: string, plan: Plan, expectedHash: Option<string>, hash: seq<Candle> -> string)
    : Result<ResampledSeries, ResamplingError>
  {
    PlanIsExact(plan.source, plan.target);
    NoDefectMeansCanonical(source, plan.source);
    var derived := DerivePlan(plan.source, plan.target);
    if derived.Err? then Err(NoPlan(derived.error))
    else match FirstDefect(source, plan.source)
      case Some(e) => Err(BadSource(e))
      case None =>
        if expectedHash.Some? && expectedHash.value != hash(source) then Err(SourceHashMismatch)
        else if |source| % derived.value.ratio != 0 then Err(PartialBucket)
        else if AlignFloor(source[0].openTime, plan.target) != source[0].openTime then Err(MisalignedStart)
        else
          FinalCloseIsImplied(source, derived.value);
          Ok(Describe(symbol, derived.value, source, Targets(source, derived.value), hash))
  }

  /**
   * The placement check and the factory's second verification never reject
   * what the first guards let through.
   */
  method ResampleCandles(
    source: seq<Candle>, symbol: string, plan: Plan, expectedHash: Option<string>, hash: seq<Candle> -> string)
    returns (r: Result<ResampledSeries, ResamplingError>)
    ensures r == Resample(source, symbol, plan, expectedHash, hash)
  {
    PlanIsExact(plan.source, plan.target);
    var derivation := DerivePlan(plan.source, plan.target);
    if derivation.Err? {
      return Err(NoPlan(derivation.error));
    }
    var derived := derivation.value;
    var checked := RequireCanonicalSeries(source, derived.source);
    if checked.Err? {
      return Err(BadSource(checked.error));
    }
    if expectedHash.Some? && expectedHash.value != hash(source) {
      return Err(SourceHashMismatch);
    }
    if |source| % derived.ratio != 0 {
      return Err(PartialBucket);
    }
    var firstOpen := source[0].openTime;
    if AlignFloor(firstOpen, derived.target) != firstOpen {
      return Err(MisalignedStart);
    }
    for k := 0 to |source| / derived.ratio {
      PlacementHolds(source, derived, k);
      var children := Bucket(source, derived.ratio, k);
      var targetOpen := firstOpen + k * Duration(derived.target);
      for i := 0 to |children| {
        if children[i].openTime != targetOpen + i * Duration(derived.source) {
          return Err(MisplacedChild(k, i));
        }
      }
    }
    var targets := AggregateCompleteBuckets(source, derived);
    r := FromVerifiedSeries(symbol, derived, source, targets, hash);
  }

  // ---------- composition and conservation ----------

  /** t merges the k-th run of `ratio` candles of the source. */
  predicate IsMergedBucket(source: seq<CandleFields>, ratio: int, k: nat, t: CandleFields) {
    && 0 <= k * ratio < (k + 1) * ratio <= |source|
    && t == MergeAll(source[k * ratio..(k + 1) * ratio])
  }

  lemma {:induction false} BucketsMergeLikeTheirSource(
    source: seq<CandleFields>, ratio: int, targets: seq<CandleFields>, lo: nat, hi: nat)
    requires 0 < ratio && lo < hi <= |targets|
    requires forall k: nat {:trigger IsMergedBucket(source, ratio, k, targets[k])} | k < |targets| ::
               IsMergedBucket(source, ratio, k, targets[k])
    ensures lo * ratio < hi * ratio <= |source|
    ensures MergeAll(targets[lo..hi]) == MergeAll(source[lo * ratio..hi * ratio])
  {
    var last := hi - 1;
    assert IsMergedBucket(source, ratio, last, targets[last]);
    if lo < last {
      BucketsMergeLikeTheirSource(source, ratio, targets, lo, last);
      MergeNext(source, targets, lo, last, lo * ratio, last * ratio, hi * ratio);
    } else {
      assert targets[lo..hi] == [targets[last]];
    }
  }

  lemma MergeNext(source: seq<CandleFields>, targets: seq<CandleFields>, lo: nat, last: nat, a: nat, b: nat, c: nat)
    requires lo < last < |targets| && a < b < c <= |source|
    requires MergeAll(targets[lo..last]) == MergeAll(source[a..b])
    requires targets[last] == MergeAll(source[b..c])
    ensures MergeAll(targets[lo..last + 1]) == MergeAll(source[a..c])
  {
    hide Merge;
    MergeAllSplits(source[a..b], source[b..c]);
    assert source[a..c] == source[a..b] + source[b..c];
    assert targets[lo..last + 1][..last - lo] == targets[lo..last];
  }

  lemma TargetsAreMergedBuckets(source: seq<Candle>, plan: Plan)
    requires ValidPlan(plan) && Canonical(source, plan.source)
    ensures 0 < plan.ratio
    ensures forall k: nat {:trigger IsMergedBucket(source, plan.ratio, k, Targets(source, plan)[k])} |
              k < |source| / plan.ratio ::
              IsMergedBucket(source, plan.ratio, k, Targets(source, plan)[k])
  {
    PlanIsExact(plan.source, plan.target);
    forall k: nat | k < |source| / plan.ratio
      ensures IsMergedBucket(source, plan.ratio, k, Targets(source, plan)[k])
    {
      TargetIsMerged(source, plan, k);
      ProductsStepByDivisor(k, k + 1, plan.ratio);
    }
  }

  /** Source and target merge to one and the same candle. */
  lemma SourceAndTargetMergeAlike(source: seq<Candle>, plan: Plan)
    requires ValidPlan(plan) && Canonical(source, plan.source) && 0 < plan.ratio && CompleteBuckets(source, plan)
    ensures Targets(source, plan) != [] && MergeAll(Targets(source, plan)) == MergeAll(source)
  {
    FinalCloseIsImplied(source, plan);
    TargetsAreMergedBuckets(source, plan);
    WholeMultiple(|source|, plan.ratio);
    WholeSourceMerges(source, plan.ratio, Targets(source, plan));
  }

  /**
   * Nothing is lost or invented: the target totals the volumes and trades of the
   * source, and keeps its ends and extremes.
   */
  lemma ResamplingConserves(source: seq<Candle>, plan: Plan)
    requires ValidPlan(plan) && Canonical(source, plan.source) && 0 < plan.ratio && CompleteBuckets(source, plan)
    ensures var target := Targets(source, plan);
      && target != []
      && Total<CandleFields>(target, VolumeOf) == Total<CandleFields>(source, VolumeOf)
      && Total<CandleFields>(target, QuoteVolumeOf) == Total<CandleFields>(source, QuoteVolumeOf)
      && TotalCount<CandleFields>(target, TradeCountOf) == TotalCount<CandleFields>(source, TradeCountOf)
      && Total<CandleFields>(target, TakerBaseOf) == Total<CandleFields>(source, TakerBaseOf)
      && Total<CandleFields>(target, TakerQuoteOf) == Total<CandleFields>(source, TakerQuoteOf)
      && target[0].open == source[0].open && target[|target| - 1].close == source[|source| - 1].close
      && MergeAll(target).high == MergeAll(source).high && MergeAll(target).low == MergeAll(source).low
  {
    hide MergeAll, Targets, Canonical, CompleteBuckets, ValidPlan;
    SourceAndTargetMergeAlike(source, plan);
    var target := Targets(source, plan);
    MergedSums(source);
    MergedSums(target);
    MergedEnds(source);
    MergedEnds(target);
  }

  lemma WholeSourceMerges(source: seq<CandleFields>, ratio: int, targets: seq<CandleFields>)
    requires 0 < ratio && 0 < |targets| && |targets| * ratio == |source|
    requires forall k: nat {:trigger IsMergedBucket(source, ratio, k, targets[k])} | k < |targets| ::
               IsMergedBucket(source, ratio, k, targets[k])
    ensures source != [] && MergeAll(targets) == MergeAll(source)
  {
    BucketsMergeLikeTheirSource(source, ratio, targets, 0, |targets|);
    assert targets[0..|targets|] == targets && source[0..|source|] == source;
  }

  /** Buckets of buckets are buckets. */
  lemma NestedBuckets(
    source: seq<CandleFields>, r: int, s: int, middle: seq<CandleFields>, k: nat, t: CandleFields)
    requires 0 < r && 0 < s
    requires forall j: nat {:trigger IsMergedBucket(source, r, j, middle[j])} | j < |middle| ::
               IsMergedBucket(source, r, j, middle[j])
    requires IsMergedBucket(middle, s, k, t)
    ensures IsMergedBucket(source, s * r, k, t)
  {
    BucketsMergeLikeTheirSource(source, r, middle, k * s, (k + 1) * s);
    Regroup(k, s, r);
    Regroup(k + 1, s, r);
  }

  /** Resampling in two stages gives the candles of resampling in one. */
  lemma ResamplingComposes(source: seq<Candle>, ab: Plan, bc: Plan, ac: Plan)
    requires ValidPlan(ab) && ValidPlan(bc) && ValidPlan(ac)
    requires ab.target == bc.source && ac.source == ab.source && ac.target == bc.target
    requires Canonical(source, ac.source) && 0 < ac.ratio && CompleteBuckets(source, ac)
    ensures 0 < ab.ratio && CompleteBuckets(source, ab)
    ensures var middle := Targets(source, ab);
      && Canonical(middle, bc.source) && 0 < bc.ratio && CompleteBuckets(middle, bc)
      && Targets(middle, bc) == Targets(source, ac)
  {
    TwoStagesAreAllowed(source, ab, bc, ac);
    var middle := Targets(source, ab);
    TargetsAreMergedBuckets(source, ab);
    TargetsAreMergedBuckets(middle, bc);
    TargetsAreMergedBuckets(source, ac);
    forall k: nat | k < |source| / ac.ratio
      ensures Targets(middle, bc)[k] == Targets(source, ac)[k]
    {
      assert IsMergedBucket(middle, bc.ratio, k, Targets(middle, bc)[k]);
      assert IsMergedBucket(source, ac.ratio, k, Targets(source, ac)[k]);
      NestedBuckets(source, ab.ratio, bc.ratio, middle, k, Targets(middle, bc)[k]);
    }
  }

  lemma TwoStagesAreAllowed(source: seq<Candle>, ab: Plan, bc: Plan, ac: Plan)
    requires ValidPlan(ab) && ValidPlan(bc) && ValidPlan(ac)
    requires ab.target == bc.source && ac.source == ab.source && ac.target == bc.target
    requires Canonical(source, ac.source) && 0 < ac.ratio && CompleteBuckets(source, ac)
    ensures 0 < ab.ratio && 0 < bc.ratio && ac.ratio == bc.ratio * ab.ratio
    ensures CompleteBuckets(source, ab) && Canonical(Targets(source, ab), bc.source)
    ensures CompleteBuckets(Targets(source, ab), bc)
    ensures |source| / ab.ratio / bc.ratio == |source| / ac.ratio
  {
    PlanIsExact(ab.source, ab.target);
    PlanIsExact(bc.source, bc.target);
    RatiosMultiply(ab.source, ab.target, bc.target);
    WholeInStages(|source|, ab.ratio, bc.ratio);
    CoarserAlignmentIsFiner(source[0].openTime, ab.target, ac.target);
    TargetsAreCanonical(source, ab);
  }

  lemma WholeInStages(n: int, r: int, s: int)
    requires 0 < r && 0 < s && n % (s * r) == 0
    ensures n % r == 0 && n / r % s == 0 && n / r / s == n / (s * r)
  {
    DivisionInStages(n, r, s);
  }
}
