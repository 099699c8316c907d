/** Which context candles a decision on an execution candle may see. */
module Alignment {
  import opened Integers
  import opened Results
  import opened Timeframes
  import opened Candles
  import opened Series
  import opened Derivation
  import opened Resampling
  import opened Counting

  datatype AlignmentError =
    | NotDerivable(plan: DerivationError)
    | BadExecution(execution: SeriesError)
    | BadContext(context: SeriesError)
    | MappingLengthMismatch
    | NegativeIndex(index: int)
    | IndexOutOfRange(index: int)
    | NotMonotone(index: int)
    | FutureCandle(index: int)
    | MappingMismatch
    | EmptyContext
    | InstrumentedMappingDiverged

  // ---------- the specification ----------

  /** How many leading context candles have closed by the decision instant. */
  function VisibleCount(context: seq<Candle>, decision: Instant, from: nat := 0): (n: nat)
    requires from <= |context|
    ensures from <= n <= |context|
    ensures forall j | from <= j < n :: context[j].closeTime <= decision
    ensures n < |context| ==> decision < context[n].closeTime
    decreases |context| - from
  {
    if from < |context| && context[from].closeTime <= decision
    then VisibleCount(context, decision, from + 1)
    else from
  }

  function Slot(visible: nat): Option<int> {
    if visible == 0 then None else Some(visible - 1)
  }

  function Mapping(execution: seq<Candle>, context: seq<Candle>): seq<Option<int>> {
    seq(|execution|, i requires 0 <= i < |execution| => Slot(VisibleCount(context, execution[i].closeTime)))
  }

  predicate ClosesAscend(candles: seq<Candle>) {
    forall i, j | 0 <= i < j < |candles| :: candles[i].closeTime < candles[j].closeTime
  }

  lemma CanonicalClosesAscend(candles: seq<Candle>, timeframe: Timeframe)
    requires Canonical(candles, timeframe)
    ensures ClosesAscend(candles)
  {
    forall i, j | 0 <= i < j < |candles|
      ensures candles[i].closeTime < candles[j].closeTime
    {
      assert PlacedAt(candles, timeframe, i) && PlacedAt(candles, timeframe, j);
      ProductsStepByDivisor(i, j, Duration(timeframe));
    }
  }

  /** The count is pinned down by the boundary it sits on. */
  lemma {:induction false} VisibleCountIs(context: seq<Candle>, decision: Instant, from: nat, n: nat)
    requires from <= n <= |context|
    requires forall j | from <= j < n :: context[j].closeTime <= decision
    requires n < |context| ==> decision < context[n].closeTime
    ensures VisibleCount(context, decision, from) == n
    decreases n - from
  {
  }

  /** No lookahead, and nothing withheld: the mapped candle is the latest one closed by the decision. */
  lemma MappingIsLatestClosed(execution: seq<Candle>, context: seq<Candle>, i: nat)
    requires ClosesAscend(context) && i < |execution|
    ensures match Mapping(execution, context)[i]
      case None => forall j | 0 <= j < |context| :: execution[i].closeTime < context[j].closeTime
      case Some(m) =>
        && 0 <= m < |context|
        && context[m].closeTime <= execution[i].closeTime
        && forall j | 0 <= j < |context| && context[j].closeTime <= execution[i].closeTime :: j <= m
  {
  }

  /** Later decisions see at least as much. */
  lemma {:induction false} VisibleCountIsMonotone(
    context: seq<Candle>, earlier: Instant, later: Instant, from: nat := 0)
    requires earlier <= later && from <= |context|
    ensures VisibleCount(context, earlier, from) <= VisibleCount(context, later, from)
    decreases |context| - from
  {
  }

  function Clip(x: int, upper: nat): nat {
    if x < 0 then 0 else if x > upper then upper else x
  }

  /** Arithmetic form: whole context durations since the first context open, clipped to the series. */
  lemma VisibleCountClosedForm(context: seq<Candle>, timeframe: Timeframe, decision: Instant)
    requires Canonical(context, timeframe)
    ensures VisibleCount(context, decision)
      == Clip((decision + MILLISECOND - context[0].openTime) / Duration(timeframe), |context|)
  {
    var d, elapsed := Duration(timeframe), decision + MILLISECOND - context[0].openTime;
    var n := Clip(elapsed / d, |context|);
    forall j | 0 <= j < |context|
      ensures context[j].closeTime <= decision <==> j + 1 <= elapsed / d
    {
      assert PlacedAt(context, timeframe, j);
      assert context[j].closeTime + MILLISECOND == context[0].openTime + j * d + d;
      ReachesMultiple(elapsed, d, j + 1);
    }
    VisibleCountIs(context, decision, 0, n);
  }

  lemma ReachesMultiple(x: int, d: int, k: int)
    requires d > 0
    ensures (k - 1) * d + d <= x <==> k <= x / d
  {
    MultipleDivides(k, d);
    if k * d <= x { FloorIsMonotone(k * d, x, d); }
    if k <= x / d && k < x / d { ProductsStepByDivisor(k, x / d, d); }
  }

  // ---------- the two-pointer merge ----------

  /** Linear: every read either advances the pointer or ends one bar's search. */
  method ComputeNoLookaheadMapping(execution: seq<Candle>, context: CountingSequence<Candle>)
    returns (mapping: seq<Option<int>>)
    requires ClosesAscend(execution)
    modifies context`readCount
    ensures mapping == Mapping(execution, context.items)
    ensures old(context.readCount) <= context.readCount <= old(context.readCount) + |execution| + |context.items|
  {
    mapping := [];
    var contextIndex := -1;
    for i := 0 to |execution|
      invariant -1 <= contextIndex < |context.items|
      invariant |mapping| == i
      invariant forall k | 0 <= k < i :: Marks(context.items, execution[k].closeTime, mapping[k])
      invariant i == 0 ==> contextIndex == -1
      invariant forall j | 0 <= j <= contextIndex :: i > 0 && context.items[j].closeTime <= execution[i - 1].closeTime
      invariant old(context.readCount) <= context.readCount <= old(context.readCount) + i + contextIndex + 1
    {
      var decisionClose := execution[i].closeTime;
      var searching := true;
      while searching && contextIndex + 1 < |context.items|
        invariant -1 <= contextIndex < |context.items|
        invariant forall j | 0 <= j <= contextIndex :: context.items[j].closeTime <= decisionClose
        invariant !searching ==> contextIndex + 1 < |context.items|
        invariant !searching ==> decisionClose < context.items[contextIndex + 1].closeTime
        invariant old(context.readCount) <= context.readCount
        invariant context.readCount <= old(context.readCount) + i + contextIndex + 1 + (if searching then 0 else 1)
        decreases |context.items| - contextIndex, searching
      {
        var next := context.Get(contextIndex + 1);
        if next.closeTime <= decisionClose {
          contextIndex := contextIndex + 1;
        } else {
          searching := false;
        }
      }
      mapping := mapping + [if contextIndex < 0 then None else Some(contextIndex)];
    }
    MarksDetermineMapping(execution, context.items, mapping);
  }

  /** The slot m sits on the boundary between closed and unclosed context candles. */
  predicate Marks(context: seq<Candle>, decision: Instant, m: Option<int>) {
    var n := if m.None? then 0 else m.value + 1;
    && (m.Some? ==> 0 <= m.value)
    && n <= |context|
    && (forall j | 0 <= j < n :: context[j].closeTime <= decision)
    && (n < |context| ==> decision < context[n].closeTime)
  }

  lemma MarksDetermineMapping(execution: seq<Candle>, context: seq<Candle>, mapping: seq<Option<int>>)
    requires |mapping| == |execution|
    requires forall k | 0 <= k < |mapping| :: Marks(context, execution[k].closeTime, mapping[k])
    ensures mapping == Mapping(execution, context)
  {
  }

  /** The binding check accepts the derived mapping and no other. */
  method AssertMappingBound(execution: seq<Candle>, context: seq<Candle>, mapping: seq<Option<int>>)
    returns (r: Result<seq<Option<int>>, AlignmentError>)
    requires ClosesAscend(execution) && ClosesAscend(context)
    ensures r.Ok? <==> mapping == Mapping(execution, context)
    ensures r.Ok? ==> r.value == mapping
  {
    if |mapping| != |execution| {
      return Err(MappingLengthMismatch);
    }
    var previous := -1;
    for i := 0 to |mapping|
      invariant mapping == Mapping(execution, context) ==> previous < VisibleCountBefore(execution, context, i)
    {
      var bar := execution[i];
      assert mapping == Mapping(execution, context) ==> mapping[i] == Slot(VisibleCount(context, bar.closeTime));
      if i > 0 { VisibleCountIsMonotone(context, execution[i - 1].closeTime, bar.closeTime); }
      if mapping[i].Some? {
        var value := mapping[i].value;
        if value < 0 {
          return Err(NegativeIndex(i));
        }
        if value >= |context| {
          return Err(IndexOutOfRange(i));
        }
        if value < previous {
          return Err(NotMonotone(i));
        }
        previous := value;
        if context[value].closeTime > bar.closeTime {
          return Err(FutureCandle(i));
        }
      }
    }
    var counted := new CountingSequence(context);
    var expected := ComputeNoLookaheadMapping(execution, counted);
    if mapping != expected {
      return Err(MappingMismatch);
    }
    return Ok(mapping);
  }

  /** Context candles visible at the bar before i; zero before the first bar. */
  function VisibleCountBefore(execution: seq<Candle>, context: seq<Candle>, i: nat): nat
    requires i <= |execution|
  {
    if i == 0 then 0 else VisibleCount(context, execution[i - 1].closeTime)
  }

  // ---------- alignment results ----------

  datatype ContextAlignment = ContextAlignment(
    symbol: string,
    executionTimeframe: Timeframe,
    contextTimeframe: Timeframe,
    executionCount: nat,
    contextCount: nat,
    executionHash: string,
    contextHash: string,
    mapping: seq<Option<int>>)

  /** The alignment check reports every break in the sequence of opens as a gap. */
  function GapFreeError(e: SeriesError): SeriesError {
    match e
    case DuplicateOpen(i) => GapBefore(i)
    case OutOfOrder(i) => GapBefore(i)
    case _ => e
  }

  function AlignmentOf(
    symbol: string, executionTimeframe: Timeframe, contextTimeframe: Timeframe,
    execution: seq<Candle>, context: seq<Candle>, hash: seq<Candle> -> string): ContextAlignment
  {
    ContextAlignment(
      symbol, executionTimeframe, contextTimeframe, |execution|, |context|,
      hash(execution), hash(context), Mapping(execution, context))
  }

  /** Fails only on bad input: the binding check never rejects the mapping just computed. */
  method FromCandles(
    symbol: string, executionTimeframe: Timeframe, contextTimeframe: Timeframe,
    execution: seq<Candle>, context: seq<Candle>, hash: seq<Candle> -> string)
    returns (r: Result<ContextAlignment, AlignmentError>)
    ensures r.Ok? <==>
      && DerivePlan(executionTimeframe, contextTimeframe).Ok?
      && Canonical(execution, executionTimeframe) && Canonical(context, contextTimeframe)
    ensures r.Ok? ==>
      r.value == AlignmentOf(symbol, executionTimeframe, contextTimeframe, execution, context, hash)
  {
    var plan := DerivePlan(executionTimeframe, contextTimeframe);
    if plan.Err? {
      return Err(NotDerivable(plan.error));
    }
    var checkedExecution := RequireCanonicalSeries(execution, executionTimeframe);
    if checkedExecution.Err? {
      return Err(BadExecution(GapFreeError(checkedExecution.error)));
    }
    var checkedContext := RequireCanonicalSeries(context, contextTimeframe);
    if checkedContext.Err? {
      return Err(BadContext(GapFreeError(checkedContext.error)));
    }
    CanonicalClosesAscend(execution, executionTimeframe);
    CanonicalClosesAscend(context, contextTimeframe);
    var counted := new CountingSequence(context);
    var mapping := ComputeNoLookaheadMapping(execution, counted);
    var bound := AssertMappingBound(execution, context, mapping);
    return Ok(ContextAlignment(
                symbol, executionTimeframe, contextTimeframe, |execution|, |context|,
                hash(execution), hash(context), bound.value));
  }

  /** The instrumented run agrees with the factory and reads the context linearly. */
  method AlignWithCountingContext(
    symbol: string, executionTimeframe: Timeframe, contextTimeframe: Timeframe,
    execution: seq<Candle>, context: CountingSequence<Candle>, hash: seq<Candle> -> string)
    returns (r: Result<(ContextAlignment, nat), AlignmentError>)
    modifies context`readCount
    ensures r.Ok? <==>
      && DerivePlan(executionTimeframe, contextTimeframe).Ok?
      && Canonical(execution, executionTimeframe) && Canonical(context.items, contextTimeframe)
    ensures r.Ok? ==>
      && r.value.0 == AlignmentOf(symbol, executionTimeframe, contextTimeframe, execution, context.items, hash)
      && r.value.1 <= |execution| + |context.items|
  {
    hide DerivePlan, IsAligned, PlacedAt, FirstDefect, Mapping, ClosesAscend, VisibleCount;
    var plan := DerivePlan(executionTimeframe, contextTimeframe);
    if plan.Err? {
      return Err(NotDerivable(plan.error));
    }
    var checkedExecution := RequireCanonicalSeries(execution, executionTimeframe);
    if checkedExecution.Err? {
      return Err(BadExecution(GapFreeError(checkedExecution.error)));
    }
    if |context.items| == 0 {
      return Err(EmptyContext);
    }
    var materialized: seq<Candle> := [];
    for i := 0 to |context.items|
      invariant materialized == context.items[..i]
    {
      var candle := context.Get(i);
      materialized := materialized + [candle];
    }
    assert materialized == context.items;
    var checkedContext := RequireCanonicalSeries(materialized, contextTimeframe);
    if checkedContext.Err? {
      return Err(BadContext(GapFreeError(checkedContext.error)));
    }
    CanonicalClosesAscend(execution, executionTimeframe);
    var before := context.readCount;
    var mapping := ComputeNoLookaheadMapping(execution, context);
    var spent := context.readCount - before;
    var alignment := FromCandles(symbol, executionTimeframe, contextTimeframe, execution, materialized, hash);
    if alignment.value.mapping != mapping {
      return Err(InstrumentedMappingDiverged);
    }
    return Ok((alignment.value, spent));
  }

  // ---------- resampled context never looks ahead ----------

  /**
   * When the context is resampled from the execution series, the bar at i sees
   * exactly the (i + 1) / ratio buckets that are complete at i, and they are the
   * resample of execution bars up to i alone.
   */
  lemma ResampledContextIsPast(execution: seq<Candle>, plan: Plan, i: nat)
    requires ValidPlan(plan) && Canonical(execution, plan.source)
    requires 0 < plan.ratio && CompleteBuckets(execution, plan) && i < |execution|
    ensures VisibleCount(Targets(execution, plan), execution[i].closeTime) == (i + 1) / plan.ratio
    ensures var whole := (i + 1) / plan.ratio * plan.ratio;
      && 0 <= whole <= i + 1
      && (whole > 0 ==>
            Targets(execution, plan)[..(i + 1) / plan.ratio] == Targets(execution[..whole], plan))
  {
    BucketsVisibleAt(execution, plan, i);
    TargetsUpTo(execution, plan, i);
  }

  lemma TargetsUpTo(source: seq<Candle>, plan: Plan, i: nat)
    requires source != [] && 0 < plan.ratio && i < |source|
    ensures (i + 1) / plan.ratio <= |source| / plan.ratio
    ensures var whole := (i + 1) / plan.ratio * plan.ratio;
      && 0 <= whole <= i + 1
      && (whole > 0 ==> Targets(source, plan)[..(i + 1) / plan.ratio] == Targets(source[..whole], plan))
  {
    var m := (i + 1) / plan.ratio;
    FloorIsMonotone(i + 1, |source|, plan.ratio);
    TargetsOfPrefix(source, plan, m);
    assert i + 1 == m * plan.ratio + (i + 1) % plan.ratio;
  }

  lemma BucketsVisibleAt(execution: seq<Candle>, plan: Plan, i: nat)
    requires ValidPlan(plan) && Canonical(execution, plan.source)
    requires 0 < plan.ratio && CompleteBuckets(execution, plan) && i < |execution|
    ensures VisibleCount(Targets(execution, plan), execution[i].closeTime) == (i + 1) / plan.ratio
  {
    TargetsAreCanonical(execution, plan);
    BucketsFitTargets(execution, plan, i);
    FirstTargetOpen(execution, plan);
    VisibleFromCommonStart(execution, Targets(execution, plan), plan, i);
  }

  lemma BucketsFitTargets(source: seq<Candle>, plan: Plan, i: nat)
    requires 0 < plan.ratio && i < |source|
    ensures 0 <= (i + 1) / plan.ratio <= |Targets(source, plan)|
  {
    FloorIsMonotone(i + 1, |source|, plan.ratio);
  }

  lemma VisibleFromCommonStart(execution: seq<Candle>, context: seq<Candle>, plan: Plan, i: nat)
    requires ValidPlan(plan) && 0 < plan.ratio
    requires Canonical(execution, plan.source) && Canonical(context, plan.target)
    requires i < |execution| && context[0].openTime == execution[0].openTime
    requires 0 <= (i + 1) / plan.ratio <= |context|
    ensures VisibleCount(context, execution[i].closeTime) == (i + 1) / plan.ratio
  {
    ElapsedAt(execution, plan, i, context[0].openTime);
    VisibleCountIsQuotient(context, plan.target, execution[i].closeTime, (i + 1) / plan.ratio);
  }

  lemma FirstTargetOpen(source: seq<Candle>, plan: Plan)
    requires source != [] && 0 < plan.ratio && |source| / plan.ratio > 0
    ensures Targets(source, plan)[0].openTime == source[0].openTime
  {
  }

  lemma VisibleCountIsQuotient(context: seq<Candle>, timeframe: Timeframe, decision: Instant, q: nat)
    requires Canonical(context, timeframe) && q <= |context|
    requires (decision + MILLISECOND - context[0].openTime) / Duration(timeframe) == q
    ensures VisibleCount(context, decision) == q
  {
    VisibleCountClosedForm(context, timeframe, decision);
  }

  lemma ElapsedAt(execution: seq<Candle>, plan: Plan, i: nat, start: Instant)
    requires ValidPlan(plan) && Canonical(execution, plan.source) && i < |execution|
    requires start == execution[0].openTime
    ensures 0 < plan.ratio
    ensures (execution[i].closeTime + MILLISECOND - start) / Duration(plan.target) == (i + 1) / plan.ratio
  {
    assert PlacedAt(execution, plan.source, i);
    PlanIsExact(plan.source, plan.target);
    BucketsCompleteBy(i, plan.ratio, Duration(plan.source), Duration(plan.target));
  }

  lemma BucketsCompleteBy(i: int, ratio: int, d: int, e: int)
    requires 0 < ratio && 0 < d && e == ratio * d
    ensures 0 < e && (i * d + d) / e == (i + 1) / ratio
  {
    ScaledDivision(i + 1, ratio, d);
    assert i * d + d == (i + 1) * d;
  }

  lemma TargetsOfPrefix(source: seq<Candle>, plan: Plan, m: nat)
    requires source != [] && 0 < plan.ratio && m <= |source| / plan.ratio
    ensures 0 <= m * plan.ratio <= |source|
    ensures m > 0 ==> m * plan.ratio > 0 && Targets(source, plan)[..m] == Targets(source[..m * plan.ratio], plan)
  {
    if m > 0 {
      var ratio := plan.ratio;
      BucketFits(|source|, ratio, m - 1);
      ProductsStepByDivisor(0, m, ratio);
      MultipleDivides(m, ratio);
      var prefix := source[..m * ratio];
      forall k: nat | k < m
        ensures Targets(source, plan)[k] == Targets(prefix, plan)[k]
      {
        BucketFits(|source|, ratio, k);
        BucketFits(|prefix|, ratio, k);
        assert Bucket(source, ratio, k) == Bucket(prefix, ratio, k);
      }
    }
  }

  /** Changing anything after bar i leaves every context candle visible at i as it was. */
  lemma FutureBarsCannotLeak(one: seq<Candle>, two: seq<Candle>, plan: Plan, i: nat)
    requires ValidPlan(plan) && 0 < plan.ratio
    requires Canonical(one, plan.source) && CompleteBuckets(one, plan)
    requires Canonical(two, plan.source) && CompleteBuckets(two, plan)
    requires i < |one| && i < |two| && one[..i + 1] == two[..i + 1]
    ensures VisibleCount(Targets(one, plan), one[i].closeTime) == VisibleCount(Targets(two, plan), two[i].closeTime)
    ensures Targets(one, plan)[..VisibleCount(Targets(one, plan), one[i].closeTime)]
      == Targets(two, plan)[..VisibleCount(Targets(two, plan), two[i].closeTime)]
  {
    BucketsVisibleAt(one, plan, i);
    BucketsVisibleAt(two, plan, i);
    TargetsUpTo(one, plan, i);
    TargetsUpTo(two, plan, i);
    SamePrefixSameTargets(one, two, plan, i);
  }

  lemma SamePrefixSameTargets(one: seq<Candle>, two: seq<Candle>, plan: Plan, i: nat)
    requires 0 < plan.ratio && i < |one| && i < |two| && one[..i + 1] == two[..i + 1]
    requires (i + 1) / plan.ratio <= |one| / plan.ratio && (i + 1) / plan.ratio <= |two| / plan.ratio
    ensures Targets(one, plan)[..(i + 1) / plan.ratio] == Targets(two, plan)[..(i + 1) / plan.ratio]
  {
    assert one[0] == one[..i + 1][0] == two[0];
    forall k: nat | k < (i + 1) / plan.ratio
      ensures Targets(one, plan)[k] == Targets(two, plan)[k]
    {
      BucketFits(i + 1, plan.ratio, k);
      assert Bucket(one, plan.ratio, k) == Bucket(one[..i + 1], plan.ratio, k);
      assert Bucket(two, plan.ratio, k) == Bucket(two[..i + 1], plan.ratio, k);
    }
  }
}
