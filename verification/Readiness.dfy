/** When a composed view is ready, in closed form; once ready, always ready. */
module Readiness {
  import opened Series
  import opened Alignment
  import opened Averages
  import opened Indicators
  import opened IndicatorViews
  import opened DecisionViews
  import opened ComposedViews

  /** Every series of the bundle has passed its warm-up by candle i. */
  predicate WarmedUp(b: Bundle, i: int) {
    forall k | 0 <= k < |b.series| ::
      && ValidParameters(b.series[k].code, b.series[k].period)
      && UndefinedPrefix(b.series[k].code, b.series[k].period) <= i
  }

  /** The k-th context has closed enough candles for its declared warm-up and for its indicators. */
  predicate ContextReadyAt(c: Composition, k: nat, i: nat)
    requires k < |c.input.contexts| == |c.contextIndicators| && i < |c.input.execution|
  {
    var v := VisibleAt(c.input, k, i);
    && v >= RequiredVisibleCount(c.input.contexts[k].warmupBars)
    && (c.contextIndicators[k].Some? ==> WarmedUp(c.contextIndicators[k].value, v - 1))
  }

  predicate ReadyAt(c: Composition, i: nat)
    requires |c.input.contexts| == |c.contextIndicators| && i < |c.input.execution|
  {
    && i + 1 >= RequiredVisibleCount(c.input.executionWarmup)
    && (c.executionIndicators.Some? ==> WarmedUp(c.executionIndicators.value, i))
    && forall k: nat | k < |c.input.contexts| :: ContextReadyAt(c, k, i)
  }

  lemma MadeViewIsReady(m: Arithmetic, h: Hasher, b: Bundle, f: Feed, i: nat)
    requires Trusted(m, b) && FeedOf(h, b, f) && i < |b.candles|
    ensures Complete(f)
    ensures MakeView(h, f.symbol, f.timeframe, i, f.sources).overallReady <==> WarmedUp(b, i)
  {
    hide FeedOf, MakeView;
    ReadyMeansWarmedUp(m, h, b, f, i);
  }

  lemma SlotReady(m: Arithmetic, h: Hasher, f: ComposedFeed, k: nat, i: nat)
    requires TrustedFeed(m, h, f) && k < |f.contextFeeds| && i < |f.composition.input.execution|
    ensures Fits(f) && |f.composition.input.contexts| == |f.composition.contextIndicators|
    ensures ContextReadyAt(f.composition, k, i)
      <==> ContextViewAt(f.composition.input, k, i).ready && SlotAt(h, f, k, i).ready
  {
    hide Trusted, FeedOf, MakeView, VisibleCount, TrustedContext, Canonical, WarmedUp;
    TrustedFeedFits(m, h, f);
    var c, v := f.composition, VisibleAt(f.composition.input, k, i);
    assert SlotFeed(h, c.contextIndicators[k], f.contextFeeds[k]);
    if f.contextFeeds[k].Some? && v > 0 {
      MadeViewIsReady(m, h, c.contextIndicators[k].value, f.contextFeeds[k].value, v - 1);
    }
  }

  /** The readiness gate in closed form: visible counts against warm-ups, nothing else. */
  lemma ReadinessIsExact(m: Arithmetic, d: Digests, f: ComposedFeed, i: nat)
    requires TrustedFeed(m, d.indicators, f) && i < |f.composition.input.execution|
    ensures Fits(f) && |f.composition.input.contexts| == |f.composition.contextIndicators|
    ensures ComposedViewAt(d, f, i).overallReady <==> ReadyAt(f.composition, i)
  {
    TrustedFeedFits(m, d.indicators, f);
    var c, x, view := f.composition, f.composition.input, ComposedViewAt(d, f, i);
    if f.executionFeed.Some? {
      MadeViewIsReady(m, d.indicators, c.executionIndicators.value, f.executionFeed.value, i);
    }
    forall k: nat | k < |x.contexts|
      ensures ContextReadyAt(c, k, i) <==> view.base.contexts[k].ready && view.slots[k].ready
    {
      SlotReady(m, d.indicators, f, k, i);
    }
    hide Trusted, FeedOf, MakeView, TrustedComposition, ContextReadyAt, ContextViewAt, SlotAt, WarmedUp;
    GateIsConjunction(d, f, i);
  }

  lemma GateIsConjunction(d: Digests, f: ComposedFeed, i: nat)
    requires Fits(f) && i < |f.composition.input.execution|
    ensures var view := ComposedViewAt(d, f, i);
      && |view.base.contexts| == |view.slots| == |f.composition.input.contexts|
      && (view.overallReady <==>
            && i + 1 >= RequiredVisibleCount(f.composition.input.executionWarmup)
            && (f.executionFeed.Some? ==> ExecutionViewAt(d.indicators, f, i).value.overallReady)
            && forall k: nat | k < |view.slots| :: view.base.contexts[k].ready && view.slots[k].ready)
  {
  }

  /** More closed candles never undo readiness. */
  lemma ReadinessIsMonotone(m: Arithmetic, c: Composition, i: nat, j: nat)
    requires TrustedComposition(m, c) && i <= j < |c.input.execution| && ReadyAt(c, i)
    ensures ReadyAt(c, j)
  {
    var x := c.input;
    CanonicalClosesAscend(x.execution, x.executionTimeframe);
    forall k: nat | k < |x.contexts|
      ensures ContextReadyAt(c, k, j)
    {
      assert ContextReadyAt(c, k, i);
      VisibleCountIsMonotone(x.contexts[k].candles, x.execution[i].closeTime, x.execution[j].closeTime);
    }
  }

  /** The first ready bar among the first n, or n if there is none. */
  function FirstReady(c: Composition, n: nat): (first: nat)
    requires |c.input.contexts| == |c.contextIndicators| && n <= |c.input.execution|
    ensures first <= n
    ensures first < n ==> ReadyAt(c, first)
    ensures forall i: nat | i < first :: !ReadyAt(c, i)
  {
    if n == 0 then 0
    else
      var earlier := FirstReady(c, n - 1);
      if earlier < n - 1 || ReadyAt(c, n - 1) then earlier else n
  }
}
