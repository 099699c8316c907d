/** What the provider-visible hashes bind: they agree exactly when what they stand for does. */
module VisibleHashes {
  import opened Results
  import opened Averages
  import opened Indicators
  import opened Alignment
  import opened Decimals
  import opened IndicatorViews
  import opened DecisionViews
  import opened ComposedViews

  /** Digests of chains and views without collisions, over decimals printed canonically. */
  ghost predicate BindsViews(h: Hasher) {
    && CollisionFree(h) && PrintsDecimals(h.decimalText)
    && forall a, b | h.view(a) == h.view(b) :: a == b
  }

  ghost predicate DecimalBundle(b: Bundle) {
    forall k | 0 <= k < |b.series| :: DecimalValued(b.series[k].values)
  }

  predicate SameItemVisible(a: IndicatorSeries, b: IndicatorSeries, i: nat) {
    && a.code == b.code && a.period == b.period && i < |a.values| && i < |b.values|
    && a.values[..i + 1] == b.values[..i + 1]
  }

  /** The same series of the same market, with the same values up to and including bar i. */
  predicate SameVisible(a: Bundle, b: Bundle, i: nat) {
    && a.symbol == b.symbol && a.timeframe == b.timeframe && |a.series| == |b.series|
    && forall k | 0 <= k < |a.series| :: SameItemVisible(a.series[k], b.series[k], i)
  }

  /** One item's document binds its key and its visible values. */
  lemma ItemBinds(h: Hasher, a: Header, s: Source, i: nat, b: Header, t: Source, j: nat)
    requires BindsViews(h) && Bound(h, a.symbol, a.timeframe, s) && Bound(h, b.symbol, b.timeframe, t)
    requires a.key == s.key && b.key == t.key && a.symbol == b.symbol && a.timeframe == b.timeframe
    requires i < |s.values| && j < |t.values| && DecimalValued(s.values) && DecimalValued(t.values)
    ensures ItemDocumentOf(h, MakeItem(s, i + 1)) == ItemDocumentOf(h, MakeItem(t, j + 1))
      <==> s.key == t.key && s.values[..i + 1] == t.values[..j + 1]
  {
    var xs, ys := s.values[..i + 1], t.values[..j + 1];
    assert MakeItem(s, i + 1).visiblePrefixHash == PrefixHash(h, a, xs);
    assert MakeItem(t, j + 1).visiblePrefixHash == PrefixHash(h, b, ys);
    assert xs[i] == s.values[i] && ys[j] == t.values[j];
    hide PrefixHash, CollisionFree, PrintsDecimals, IsDecimal;
    PrefixHashBinds(h, a, b, xs, ys);
  }

  lemma DocumentsTellReady(h: Hasher, a: seq<Item>, b: seq<Item>)
    requires ItemDocuments(h, a) == ItemDocuments(h, b)
    ensures |a| == |b| && AllReady(a) == AllReady(b)
  {
    assert |ItemDocuments(h, a)| == |a| && |ItemDocuments(h, b)| == |b|;
    assert forall k | 0 <= k < |a| ::
        ItemDocuments(h, a)[k].ready == a[k].ready && ItemDocuments(h, b)[k].ready == b[k].ready;
  }

  lemma SeriesBind(m: Arithmetic, h: Hasher, a: Bundle, fa: Feed, b: Bundle, fb: Feed, i: nat, k: nat)
    requires Trusted(m, a) && FeedOf(h, a, fa) && i < |a.candles| && DecimalBundle(a)
    requires Trusted(m, b) && FeedOf(h, b, fb) && i < |b.candles| && DecimalBundle(b)
    requires BindsViews(h) && a.symbol == b.symbol && a.timeframe == b.timeframe
    requires k < |a.series| && k < |b.series|
    ensures |fa.sources| == |a.series| && |fb.sources| == |b.series| && Complete(fa) && Complete(fb)
    ensures i < |fa.sources[k].values| && i < |fb.sources[k].values|
    ensures ItemDocumentOf(h, MakeItem(fa.sources[k], i + 1)) == ItemDocumentOf(h, MakeItem(fb.sources[k], i + 1))
      <==> SameItemVisible(a.series[k], b.series[k], i)
  {
    TrustedFeedIsComplete(m, h, a, fa);
    TrustedFeedIsComplete(m, h, b, fb);
    hide Calculate, MakeItem, ItemDocumentOf, CollisionFree, PrintsDecimals;
    var s, t := fa.sources[k], fb.sources[k];
    ItemBinds(h, Header(a.symbol, a.timeframe, s.key), s, i, Header(b.symbol, b.timeframe, t.key), t, i);
  }

  lemma DocumentsBind(h: Hasher, v: seq<Item>, a: seq<IndicatorSeries>, w: seq<Item>, b: seq<IndicatorSeries>, i: nat)
    requires |v| == |a| && |w| == |b|
    requires forall k: nat | k < |a| && k < |b| ::
               ItemDocumentOf(h, v[k]) == ItemDocumentOf(h, w[k]) <==> SameItemVisible(a[k], b[k], i)
    ensures ItemDocuments(h, v) == ItemDocuments(h, w)
      <==> |a| == |b| && forall k | 0 <= k < |a| :: SameItemVisible(a[k], b[k], i)
  {
    hide SameItemVisible, ItemDocumentOf;
    var p, q := ItemDocuments(h, v), ItemDocuments(h, w);
    assert |p| == |a| && |q| == |b|;
    if p == q {
      forall k | 0 <= k < |a|
        ensures SameItemVisible(a[k], b[k], i)
      {
        assert p[k] == q[k];
      }
    }
  }

  /** The items of two feeds of one market have the same documents exactly when keys and visible values agree. */
  lemma ItemsBind(m: Arithmetic, h: Hasher, a: Bundle, fa: Feed, b: Bundle, fb: Feed, i: nat)
    requires Trusted(m, a) && FeedOf(h, a, fa) && i < |a.candles| && DecimalBundle(a)
    requires Trusted(m, b) && FeedOf(h, b, fb) && i < |b.candles| && DecimalBundle(b)
    requires BindsViews(h) && a.symbol == b.symbol && a.timeframe == b.timeframe
    ensures Complete(fa) && Complete(fb)
    ensures var v := MakeView(h, fa.symbol, fa.timeframe, i, fa.sources).items;
      var w := MakeView(h, fb.symbol, fb.timeframe, i, fb.sources).items;
      ItemDocuments(h, v) == ItemDocuments(h, w) <==> SameVisible(a, b, i)
  {
    TrustedFeedIsComplete(m, h, a, fa);
    TrustedFeedIsComplete(m, h, b, fb);
    var v := MakeView(h, fa.symbol, fa.timeframe, i, fa.sources).items;
    var w := MakeView(h, fb.symbol, fb.timeframe, i, fb.sources).items;
    assert |v| == |a.series| && |w| == |b.series|;
    forall k: nat | k < |a.series| && k < |b.series|
      ensures ItemDocumentOf(h, v[k]) == ItemDocumentOf(h, w[k]) <==> SameItemVisible(a.series[k], b.series[k], i)
    {
      SeriesBind(m, h, a, fa, b, fb, i, k);
      assert v[k] == MakeItem(fa.sources[k], i + 1) && w[k] == MakeItem(fb.sources[k], i + 1);
    }
    hide Trusted, FeedOf, MakeView, ItemDocuments, ItemDocumentOf, BindsViews, DecimalBundle, SameItemVisible, MakeItem;
    DocumentsBind(h, v, a.series, w, b.series, i);
  }

  /**
   * Two view hashes agree exactly when the views are of the same bar and market,
   * request the same series, and show the same values.
   */
  lemma ViewHashBinds(m: Arithmetic, h: Hasher, a: Bundle, fa: Feed, i: nat, b: Bundle, fb: Feed, j: nat)
    requires Trusted(m, a) && FeedOf(h, a, fa) && i < |a.candles| && DecimalBundle(a)
    requires Trusted(m, b) && FeedOf(h, b, fb) && j < |b.candles| && DecimalBundle(b)
    requires BindsViews(h)
    ensures Complete(fa) && Complete(fb)
    ensures var v, w :=
        MakeView(h, fa.symbol, fa.timeframe, i, fa.sources), MakeView(h, fb.symbol, fb.timeframe, j, fb.sources);
      && (v.viewHash == w.viewHash <==> i == j && SameVisible(a, b, i))
      && (v.viewHash == w.viewHash ==> v.overallReady == w.overallReady)
  {
    TrustedFeedIsComplete(m, h, a, fa);
    TrustedFeedIsComplete(m, h, b, fb);
    var v, w :=
      MakeView(h, fa.symbol, fa.timeframe, i, fa.sources), MakeView(h, fb.symbol, fb.timeframe, j, fb.sources);
    if i == j && a.symbol == b.symbol && a.timeframe == b.timeframe {
      ItemsBind(m, h, a, fa, b, fb, i);
    }
    hide MakeItem, Trusted, FeedOf, CollisionFree, PrintsDecimals;
    hide DecimalBundle, ItemDocuments, AllReady, SameItemVisible;
    if ItemDocuments(h, v.items) == ItemDocuments(h, w.items) {
      DocumentsTellReady(h, v.items, w.items);
    }
  }

  // ---------- the composed view ----------

  ghost predicate DecimalOption(b: Option<Bundle>) {
    b.Some? ==> DecimalBundle(b.value)
  }

  ghost predicate DecimalComposition(c: Composition) {
    && DecimalOption(c.executionIndicators)
    && forall k | 0 <= k < |c.contextIndicators| :: DecimalOption(c.contextIndicators[k])
  }

  predicate SameOptionalView(a: Option<Bundle>, b: Option<Bundle>, i: nat) {
    if a.None? then b.None? else b.Some? && SameVisible(a.value, b.value, i)
  }

  /** The k-th slots are configured alike, have closed as many candles, and show the same indicator values. */
  predicate SameSlotVisible(a: Composition, i: nat, b: Composition, j: nat, k: nat)
    requires i < |a.input.execution| && j < |b.input.execution|
    requires k < |a.input.contexts| == |a.contextIndicators| && k < |b.input.contexts| == |b.contextIndicators|
  {
    var v := VisibleAt(a.input, k, i);
    && a.input.contexts[k].timeframe == b.input.contexts[k].timeframe && v == VisibleAt(b.input, k, j)
    && (a.contextIndicators[k].Some? <==> b.contextIndicators[k].Some?)
    && (v > 0 ==> SameOptionalView(a.contextIndicators[k], b.contextIndicators[k], v - 1))
  }

  lemma SlotBinds(m: Arithmetic, h: Hasher, fa: ComposedFeed, i: nat, fb: ComposedFeed, j: nat, k: nat)
    requires TrustedFeed(m, h, fa) && i < |fa.composition.input.execution| && DecimalComposition(fa.composition)
    requires TrustedFeed(m, h, fb) && j < |fb.composition.input.execution| && DecimalComposition(fb.composition)
    requires BindsViews(h) && k < |fa.contextFeeds| && k < |fb.contextFeeds|
    ensures Fits(fa) && Fits(fb)
    ensures |fa.composition.input.contexts| == |fa.composition.contextIndicators|
    ensures |fb.composition.input.contexts| == |fb.composition.contextIndicators|
    ensures DocumentOfSlot(SlotAt(h, fa, k, i)) == DocumentOfSlot(SlotAt(h, fb, k, j))
      <==> SameSlotVisible(fa.composition, i, fb.composition, j, k)
  {
    hide Trusted, FeedOf, MakeView, VisibleCount, TrustedInput, SameVisible, DecimalBundle, BindsViews;
    TrustedFeedFits(m, h, fa);
    TrustedFeedFits(m, h, fb);
    var a, b := fa.composition, fb.composition;
    assert SlotFeed(h, a.contextIndicators[k], fa.contextFeeds[k]);
    assert SlotFeed(h, b.contextIndicators[k], fb.contextFeeds[k]);
    assert DecimalOption(a.contextIndicators[k]) && DecimalOption(b.contextIndicators[k]);
    var v, w := VisibleAt(a.input, k, i), VisibleAt(b.input, k, j);
    if fa.contextFeeds[k].Some? && fb.contextFeeds[k].Some? && v > 0 && w > 0 {
      ViewHashBinds(
        m, h, a.contextIndicators[k].value, fa.contextFeeds[k].value, v - 1,
        b.contextIndicators[k].value, fb.contextFeeds[k].value, w - 1);
    }
  }

  lemma ExecutionBinds(m: Arithmetic, h: Hasher, fa: ComposedFeed, i: nat, fb: ComposedFeed, j: nat)
    requires TrustedFeed(m, h, fa) && i < |fa.composition.input.execution| && DecimalComposition(fa.composition)
    requires TrustedFeed(m, h, fb) && j < |fb.composition.input.execution| && DecimalComposition(fb.composition)
    requires BindsViews(h) && i == j
    ensures Fits(fa) && Fits(fb)
    ensures var v, w := ExecutionViewAt(h, fa, i), ExecutionViewAt(h, fb, j);
      && (HashOf(v) == HashOf(w)
          <==> SameOptionalView(fa.composition.executionIndicators, fb.composition.executionIndicators, i))
      && (HashOf(v) == HashOf(w) ==> v.None? == w.None? && (v.Some? ==> v.value.overallReady == w.value.overallReady))
  {
    hide Trusted, FeedOf, MakeView, TrustedInput, SameVisible, DecimalBundle, BindsViews;
    TrustedFeedFits(m, h, fa);
    TrustedFeedFits(m, h, fb);
    var a, b := fa.composition.executionIndicators, fb.composition.executionIndicators;
    if a.Some? && b.Some? {
      ViewHashBinds(m, h, a.value, fa.executionFeed.value, i, b.value, fb.executionFeed.value, j);
    }
  }

  /** What the provider-visible hash of a composed view stands for. */
  predicate SameShownIndicators(a: Composition, i: nat, b: Composition, j: nat)
    requires i < |a.input.execution| && j < |b.input.execution|
    requires |a.input.contexts| == |a.contextIndicators| && |b.input.contexts| == |b.contextIndicators|
  {
    && i == j && SameOptionalView(a.executionIndicators, b.executionIndicators, i)
    && |a.contextIndicators| == |b.contextIndicators|
    && forall k: nat | k < |a.contextIndicators| :: SameSlotVisible(a, i, b, j, k)
  }

  lemma SlotsBind(m: Arithmetic, h: Hasher, fa: ComposedFeed, i: nat, fb: ComposedFeed, j: nat)
    requires TrustedFeed(m, h, fa) && i < |fa.composition.input.execution| && DecimalComposition(fa.composition)
    requires TrustedFeed(m, h, fb) && j < |fb.composition.input.execution| && DecimalComposition(fb.composition)
    requires BindsViews(h)
    ensures Fits(fa) && Fits(fb)
    ensures |fa.composition.input.contexts| == |fa.composition.contextIndicators|
    ensures |fb.composition.input.contexts| == |fb.composition.contextIndicators|
    ensures DocumentsOf(SlotsAt(h, fa, i)) == DocumentsOf(SlotsAt(h, fb, j))
      <==> |fa.composition.contextIndicators| == |fb.composition.contextIndicators|
           && forall k: nat | k < |fa.composition.contextIndicators| ::
                SameSlotVisible(fa.composition, i, fb.composition, j, k)
  {
    TrustedFeedFits(m, h, fa);
    TrustedFeedFits(m, h, fb);
    var n, l := |fa.composition.contextIndicators|, |fb.composition.contextIndicators|;
    assert |fa.contextFeeds| == n && |fb.contextFeeds| == l;
    hide TrustedFeed, SlotAt, SameSlotVisible, DecimalComposition, BindsViews, DocumentOfSlot, Complete;
    var p, q := DocumentsOf(SlotsAt(h, fa, i)), DocumentsOf(SlotsAt(h, fb, j));
    assert |p| == n && |q| == l;
    if n == l {
      forall k: nat | k < n
        ensures p[k] == q[k] <==> SameSlotVisible(fa.composition, i, fb.composition, j, k)
      {
        SlotBinds(m, h, fa, i, fb, j, k);
      }
      assert p == q <==> forall k: nat | k < n :: p[k] == q[k];
    }
  }

  /**
   * Two provider-visible hashes agree exactly when bar, readiness, configuration,
   * closed context candles and every visible indicator value agree.
   */
  lemma ComposedHashBinds(m: Arithmetic, d: Digests, fa: ComposedFeed, i: nat, fb: ComposedFeed, j: nat)
    requires TrustedFeed(m, d.indicators, fa) && i < |fa.composition.input.execution|
    requires TrustedFeed(m, d.indicators, fb) && j < |fb.composition.input.execution|
    requires DecimalComposition(fa.composition) && DecimalComposition(fb.composition)
    requires BindsViews(d.indicators) && forall a, b | d.composed(a) == d.composed(b) :: a == b
    ensures Fits(fa) && Fits(fb)
    ensures |fa.composition.input.contexts| == |fa.composition.contextIndicators|
    ensures |fb.composition.input.contexts| == |fb.composition.contextIndicators|
    ensures var v, w := ComposedViewAt(d, fa, i), ComposedViewAt(d, fb, j);
      v.visibleHash == w.visibleHash
      <==> v.overallReady == w.overallReady && SameShownIndicators(fa.composition, i, fb.composition, j)
  {
    SlotsBind(m, d.indicators, fa, i, fb, j);
    if i == j { ExecutionBinds(m, d.indicators, fa, i, fb, j); }
    assert BaseViewAt(d.base, fa.composition.input, i).barIndex == i;
    assert BaseViewAt(d.base, fb.composition.input, j).barIndex == j;
    hide TrustedFeed, Fits, SlotsAt, ExecutionViewAt, SameSlotVisible, SameOptionalView, DecimalComposition;
    hide BindsViews, BaseViewAt, DocumentsOf, AllSlotsReady;
  }
}
