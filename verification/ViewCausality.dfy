/** A composed view is a function of its visible past, and readiness never goes back. */
module ViewCausality {
  import opened Results
  import opened Timeframes
  import opened Candles
  import opened Series
  import opened Alignment
  import opened Averages
  import opened IndicatorViews
  import opened DecisionViews
  import opened ComposedViews

  // ---------- what a provider can read ----------

  datatype ContextShown = ContextShown(timeframe: Timeframe, visible: seq<Candle>, latest: Option<int>, ready: bool)

  datatype SlotShown = SlotShown(
    timeframe: Timeframe,
    latest: Option<int>,
    indicators: Option<ViewShown>,
    configured: bool,
    ready: bool)

  /** The view less its identity hashes, which cover the whole input by design. */
  datatype ComposedShown = ComposedShown(
    barIndex: nat,
    current: Candle,
    executionVisible: seq<Candle>,
    contexts: seq<ContextShown>,
    baseReady: bool,
    execution: Option<ViewShown>,
    slots: seq<SlotShown>,
    overallReady: bool,
    visibleHash: Digest)

  predicate Readable(v: ComposedView) {
    && v.base.history.Valid()
    && (forall k | 0 <= k < |v.base.contexts| :: v.base.contexts[k].history.Valid())
    && (v.execution.Some? ==> ValidView(v.execution.value))
    && forall k | 0 <= k < |v.slots| && v.slots[k].indicators.Some? :: ValidView(v.slots[k].indicators.value)
  }

  function ShowContext(c: ContextView): ContextShown
    requires c.history.Valid()
  {
    ContextShown(c.timeframe, c.history.Visible(), c.latestClosedIndex, c.ready)
  }

  function ShowOption(v: Option<View>): Option<ViewShown>
    requires v.Some? ==> ValidView(v.value)
  {
    if v.None? then None else Some(Show(v.value))
  }

  function ShowSlot(s: SlotView): SlotShown
    requires s.indicators.Some? ==> ValidView(s.indicators.value)
  {
    SlotShown(s.timeframe, s.latestClosedIndex, ShowOption(s.indicators), s.configured, s.ready)
  }

  function ShowComposed(v: ComposedView): ComposedShown
    requires Readable(v)
  {
    ComposedShown(
      v.base.barIndex, v.base.current, v.base.history.Visible(),
      seq(|v.base.contexts|, k requires 0 <= k < |v.base.contexts| => ShowContext(v.base.contexts[k])),
      v.base.overallReady,
      ShowOption(v.execution),
      seq(|v.slots|, k requires 0 <= k < |v.slots| => ShowSlot(v.slots[k])),
      v.overallReady, v.visibleHash)
  }

  // ---------- same configuration, same visible past ----------

  predicate SameOptionalRequest(a: Option<Bundle>, b: Option<Bundle>) {
    if a.None? then b.None? else b.Some? && SameRequest(a.value, b.value)
  }

  predicate SameConfiguration(a: Composition, b: Composition) {
    && a.input.strategyHash == b.input.strategyHash
    && a.input.symbol == b.input.symbol && a.input.executionTimeframe == b.input.executionTimeframe
    && a.input.executionWarmup == b.input.executionWarmup
    && |a.input.contexts| == |b.input.contexts|
    && (forall k | 0 <= k < |a.input.contexts| ::
          && a.input.contexts[k].timeframe == b.input.contexts[k].timeframe
          && a.input.contexts[k].warmupBars == b.input.contexts[k].warmupBars)
    && SameOptionalRequest(a.executionIndicators, b.executionIndicators)
    && |a.contextIndicators| == |b.contextIndicators|
    && forall k | 0 <= k < |a.contextIndicators| :: SameOptionalRequest(a.contextIndicators[k], b.contextIndicators[k])
  }

  /** The execution bars up to i and the context bars closed by then are the same. */
  predicate SamePastAt(a: Input, b: Input, i: nat) {
    && i < |a.execution| && i < |b.execution| && a.execution[..i + 1] == b.execution[..i + 1]
    && |a.contexts| == |b.contexts|
    && forall k: nat | k < |a.contexts| ::
         && VisibleAt(a, k, i) == VisibleAt(b, k, i)
         && a.contexts[k].candles[..VisibleAt(a, k, i)] == b.contexts[k].candles[..VisibleAt(b, k, i)]
  }

  /** One configured slot or series: equal visible candles give equal views. */
  lemma SameMadeView(m: Arithmetic, h: Hasher, a: Bundle, fa: Feed, b: Bundle, fb: Feed, i: nat)
    requires Trusted(m, a) && FeedOf(h, a, fa) && Trusted(m, b) && FeedOf(h, b, fb) && SameRequest(a, b)
    requires i < |a.candles| && i < |b.candles| && a.candles[..i + 1] == b.candles[..i + 1]
    ensures Complete(fa) && Complete(fb)
    ensures var v, w :=
        MakeView(h, fa.symbol, fa.timeframe, i, fa.sources), MakeView(h, fb.symbol, fb.timeframe, i, fb.sources);
      ValidView(v) && ValidView(w) && Show(v) == Show(w)
  {
    hide Trusted, FeedOf, SameRequest, MakeView;
    ViewDependsOnPast(m, h, a, fa, b, fb, i);
  }

  lemma SameSlot(m: Arithmetic, h: Hasher, fa: ComposedFeed, fb: ComposedFeed, k: nat, i: nat)
    requires TrustedFeed(m, h, fa) && TrustedFeed(m, h, fb) && SameConfiguration(fa.composition, fb.composition)
    requires SamePastAt(fa.composition.input, fb.composition.input, i) && k < |fa.contextFeeds|
    ensures Fits(fa) && Fits(fb) && |fa.contextFeeds| == |fb.contextFeeds|
    ensures var s, t := SlotAt(h, fa, k, i), SlotAt(h, fb, k, i);
      && (s.indicators.Some? ==> ValidView(s.indicators.value))
      && (t.indicators.Some? ==> ValidView(t.indicators.value))
      && ShowSlot(s) == ShowSlot(t) && DocumentOfSlot(s) == DocumentOfSlot(t)
  {
    hide SameRequest, Trusted, FeedOf, MakeView, VisibleCount, Canonical, TrustedContext;
    TrustedFeedFits(m, h, fa);
    TrustedFeedFits(m, h, fb);
    assert SlotFeed(h, fa.composition.contextIndicators[k], fa.contextFeeds[k]);
    assert SlotFeed(h, fb.composition.contextIndicators[k], fb.contextFeeds[k]);
    assert SameOptionalRequest(fa.composition.contextIndicators[k], fb.composition.contextIndicators[k]);
    var v := VisibleAt(fa.composition.input, k, i);
    if fa.contextFeeds[k].Some? && v > 0 {
      SameMadeView(
        m, h, fa.composition.contextIndicators[k].value, fa.contextFeeds[k].value,
        fb.composition.contextIndicators[k].value, fb.contextFeeds[k].value, v - 1);
    }
  }

  lemma SameExecutionView(m: Arithmetic, h: Hasher, fa: ComposedFeed, fb: ComposedFeed, i: nat)
    requires TrustedFeed(m, h, fa) && TrustedFeed(m, h, fb) && SameConfiguration(fa.composition, fb.composition)
    requires SamePastAt(fa.composition.input, fb.composition.input, i)
    ensures Fits(fa) && Fits(fb)
    ensures var s, t := ExecutionViewAt(h, fa, i), ExecutionViewAt(h, fb, i);
      && (s.Some? ==> ValidView(s.value)) && (t.Some? ==> ValidView(t.value)) && ShowOption(s) == ShowOption(t)
  {
    hide SameRequest, Trusted, FeedOf, MakeView, VisibleCount, Canonical, TrustedContext;
    TrustedFeedFits(m, h, fa);
    TrustedFeedFits(m, h, fb);
    if fa.executionFeed.Some? {
      SameMadeView(
        m, h, fa.composition.executionIndicators.value, fa.executionFeed.value,
        fb.composition.executionIndicators.value, fb.executionFeed.value, i);
    }
  }

  lemma SameContextView(a: Composition, b: Composition, k: nat, i: nat)
    requires SameConfiguration(a, b) && SamePastAt(a.input, b.input, i) && k < |a.input.contexts|
    ensures ShowContext(ContextViewAt(a.input, k, i)) == ShowContext(ContextViewAt(b.input, k, i))
  {
  }

  /**
   * No lookahead: two compositions with the same configuration that agree on the
   * execution bars up to i and on the context bars closed by then show a provider
   * exactly the same thing at i, including the provider-visible hash.
   */
  lemma ComposedViewDependsOnPast(m: Arithmetic, d: Digests, fa: ComposedFeed, fb: ComposedFeed, i: nat)
    requires TrustedFeed(m, d.indicators, fa) && TrustedFeed(m, d.indicators, fb)
    requires SameConfiguration(fa.composition, fb.composition)
    requires SamePastAt(fa.composition.input, fb.composition.input, i)
    ensures Fits(fa) && Fits(fb)
    ensures Readable(ComposedViewAt(d, fa, i)) && Readable(ComposedViewAt(d, fb, i))
    ensures ShowComposed(ComposedViewAt(d, fa, i)) == ShowComposed(ComposedViewAt(d, fb, i))
  {
    TrustedFeedFits(m, d.indicators, fa);
    TrustedFeedFits(m, d.indicators, fb);
    SameExecutionView(m, d.indicators, fa, fb, i);
    forall k: nat | k < |fa.contextFeeds|
      ensures |fb.contextFeeds| == |fa.contextFeeds|
      ensures var s, t := SlotAt(d.indicators, fa, k, i), SlotAt(d.indicators, fb, k, i);
        && (s.indicators.Some? ==> ValidView(s.indicators.value))
        && (t.indicators.Some? ==> ValidView(t.indicators.value))
        && ShowSlot(s) == ShowSlot(t) && DocumentOfSlot(s) == DocumentOfSlot(t)
    {
      SameSlot(m, d.indicators, fa, fb, k, i);
    }
    forall k: nat | k < |fa.composition.input.contexts|
      ensures ShowContext(ContextViewAt(fa.composition.input, k, i))
        == ShowContext(ContextViewAt(fb.composition.input, k, i))
    {
      SameContextView(fa.composition, fb.composition, k, i);
    }
    SameComposition(d, fa, fb, i);
  }

  lemma SameComposition(d: Digests, fa: ComposedFeed, fb: ComposedFeed, i: nat)
    requires Fits(fa) && Fits(fb) && |fa.contextFeeds| == |fb.contextFeeds|
    requires i < |fa.composition.input.execution| && i < |fb.composition.input.execution|
    requires fa.composition.input.execution[..i + 1] == fb.composition.input.execution[..i + 1]
    requires fa.composition.input.executionWarmup == fb.composition.input.executionWarmup
    requires var s, t := ExecutionViewAt(d.indicators, fa, i), ExecutionViewAt(d.indicators, fb, i);
      && (s.Some? ==> ValidView(s.value)) && (t.Some? ==> ValidView(t.value)) && ShowOption(s) == ShowOption(t)
    requires forall k: nat | k < |fa.contextFeeds| ::
               var s, t := SlotAt(d.indicators, fa, k, i), SlotAt(d.indicators, fb, k, i);
               && (s.indicators.Some? ==> ValidView(s.indicators.value))
               && (t.indicators.Some? ==> ValidView(t.indicators.value))
               && ShowSlot(s) == ShowSlot(t) && DocumentOfSlot(s) == DocumentOfSlot(t)
    requires forall k: nat | k < |fa.composition.input.contexts| ::
               ShowContext(ContextViewAt(fa.composition.input, k, i))
               == ShowContext(ContextViewAt(fb.composition.input, k, i))
    ensures Readable(ComposedViewAt(d, fa, i)) && Readable(ComposedViewAt(d, fb, i))
    ensures ShowComposed(ComposedViewAt(d, fa, i)) == ShowComposed(ComposedViewAt(d, fb, i))
  {
    hide SlotAt, ExecutionViewAt, Complete, VisibleCount;
    var v, w := ComposedViewAt(d, fa, i), ComposedViewAt(d, fb, i);
    var x, y := fa.composition.input, fb.composition.input;
    assert x.execution[i] == x.execution[..i + 1][i] == y.execution[i];
    forall k | 0 <= k < |v.slots|
      ensures ShowSlot(v.slots[k]) == ShowSlot(w.slots[k]) && DocumentOfSlot(v.slots[k]) == DocumentOfSlot(w.slots[k])
      ensures v.slots[k].ready == w.slots[k].ready
    {
      assert v.slots[k] == SlotAt(d.indicators, fa, k, i) && w.slots[k] == SlotAt(d.indicators, fb, k, i);
    }
    forall k | 0 <= k < |v.base.contexts|
      ensures v.base.contexts[k].history.Valid() && w.base.contexts[k].history.Valid()
      ensures ShowContext(v.base.contexts[k]) == ShowContext(w.base.contexts[k])
      ensures v.base.contexts[k].ready == w.base.contexts[k].ready
    {
      assert v.base.contexts[k] == ContextViewAt(x, k, i) && w.base.contexts[k] == ContextViewAt(y, k, i);
    }
    assert HashOf(v.execution) == HashOf(w.execution) && v.executionReady == w.executionReady;
    assert v.base.overallReady == w.base.overallReady && v.overallReady == w.overallReady;
    assert DocumentsOf(v.slots) == DocumentsOf(w.slots);
  }
}
