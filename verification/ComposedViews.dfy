/** The composed candle and indicator feed, and what its views may depend on. */
module ComposedViews {
  import opened Results
  import opened Timeframes
  import opened Candles
  import opened Series
  import opened Alignment
  import opened Averages
  import opened Indicators
  import opened IndicatorViews
  import opened DecisionViews

  datatype Composition = Composition(
    input: Input,
    executionIndicators: Option<Bundle>,
    contextIndicators: seq<Option<Bundle>>)

  /** The bundle was calculated on exactly this series. */
  ghost predicate TrustedSlot(m: Arithmetic, b: Bundle, symbol: string, timeframe: Timeframe, candles: seq<Candle>) {
    Trusted(m, b) && b.symbol == symbol && b.timeframe == timeframe && b.candles == candles
  }

  /** At least one bundle is configured. */
  predicate HasIndicators(c: Composition) {
    c.executionIndicators.Some? || exists k :: 0 <= k < |c.contextIndicators| && c.contextIndicators[k].Some?
  }

  /** What the composition factory has verified. */
  ghost predicate TrustedComposition(m: Arithmetic, c: Composition) {
    && TrustedInput(c.input)
    && |c.contextIndicators| == |c.input.contexts|
    && HasIndicators(c)
    && (c.executionIndicators.Some? ==>
          TrustedSlot(m, c.executionIndicators.value, c.input.symbol, c.input.executionTimeframe, c.input.execution))
    && forall k | 0 <= k < |c.contextIndicators| && c.contextIndicators[k].Some? ::
         TrustedSlot(
           m, c.contextIndicators[k].value, c.input.symbol, c.input.contexts[k].timeframe, c.input.contexts[k].candles)
  }

  datatype ComposedFeed = ComposedFeed(
    composition: Composition,
    executionFeed: Option<Feed>,
    contextFeeds: seq<Option<Feed>>)

  ghost predicate SlotFeed(h: Hasher, b: Option<Bundle>, f: Option<Feed>) {
    if b.None? then f.None? else f.Some? && FeedOf(h, b.value, f.value)
  }

  /** A feed built over a trusted composition. */
  ghost predicate TrustedFeed(m: Arithmetic, h: Hasher, f: ComposedFeed) {
    && TrustedComposition(m, f.composition)
    && SlotFeed(h, f.composition.executionIndicators, f.executionFeed)
    && |f.contextFeeds| == |f.composition.contextIndicators|
    && forall k | 0 <= k < |f.contextFeeds| :: SlotFeed(h, f.composition.contextIndicators[k], f.contextFeeds[k])
  }

  method FromComposition(ghost m: Arithmetic, h: Hasher, c: Composition) returns (f: ComposedFeed)
    requires TrustedComposition(m, c)
    ensures TrustedFeed(m, h, f) && f.composition == c
  {
    var executionFeed: Option<Feed> := None;
    if c.executionIndicators.Some? {
      var feed := FromBundle(h, c.executionIndicators.value);
      executionFeed := Some(feed);
    }
    var contextFeeds: seq<Option<Feed>> := [];
    for k := 0 to |c.contextIndicators|
      invariant |contextFeeds| == k
      invariant forall j | 0 <= j < k :: SlotFeed(h, c.contextIndicators[j], contextFeeds[j])
    {
      if c.contextIndicators[k].Some? {
        var feed := FromBundle(h, c.contextIndicators[k].value);
        contextFeeds := contextFeeds + [Some(feed)];
      } else {
        contextFeeds := contextFeeds + [None];
      }
    }
    f := ComposedFeed(c, executionFeed, contextFeeds);
  }

  // ---------- slots ----------

  datatype SlotView = SlotView(
    timeframe: Timeframe,
    latestClosedIndex: Option<int>,
    indicators: Option<View>,
    configured: bool,
    ready: bool)

  /** The guarded construction of one context slot. */
  function MakeSlot(timeframe: Timeframe, latest: Option<int>, view: Option<View>, configured: bool)
    : Result<SlotView, DecisionError>
  {
    if !configured then
      if view.Some? then Err(UnconfiguredView) else Ok(SlotView(timeframe, latest, None, false, true))
    else if latest.None? then
      if view.Some? then Err(ViewWithoutClosedCandle) else Ok(SlotView(timeframe, None, None, true, false))
    else if view.None? then Err(MissingIndicatorView)
    else if view.value.barIndex != latest.value then Err(IndicatorBarMismatch)
    else if view.value.visibleCount != latest.value + 1 then Err(IndicatorCountMismatch)
    else if view.value.timeframe != timeframe then Err(IndicatorTimeframeMismatch)
    else Ok(SlotView(timeframe, latest, view, true, view.value.overallReady))
  }

  datatype SlotDocument = SlotDocument(
    timeframe: Timeframe,
    latest: Option<int>,
    configured: bool,
    ready: bool,
    viewHash: Option<Digest>)

  datatype ComposedDocument = ComposedDocument(
    barIndex: nat,
    executionViewHash: Option<Digest>,
    executionConfigured: bool,
    executionReady: bool,
    slots: seq<SlotDocument>,
    overallReady: bool)

  datatype Digests = Digests(
    indicators: Hasher,
    base: BaseDocument -> Digest,
    composed: ComposedDocument -> Digest)

  datatype ComposedView = ComposedView(
    base: DecisionView,
    execution: Option<View>,
    slots: seq<SlotView>,
    executionReady: bool,
    overallReady: bool,
    visibleHash: Digest)

  function HashOf(v: Option<View>): Option<Digest> {
    if v.None? then None else Some(v.value.viewHash)
  }

  function DocumentOfSlot(s: SlotView): SlotDocument {
    SlotDocument(s.timeframe, s.latestClosedIndex, s.configured, s.ready, HashOf(s.indicators))
  }

  function DocumentsOf(slots: seq<SlotView>): seq<SlotDocument> {
    seq(|slots|, k requires 0 <= k < |slots| => DocumentOfSlot(slots[k]))
  }

  predicate AllSlotsReady(slots: seq<SlotView>) {
    forall k | 0 <= k < |slots| :: slots[k].ready
  }

  function Compose(d: Digests, base: DecisionView, execution: Option<View>, slots: seq<SlotView>): ComposedView {
    var executionReady := execution.None? || execution.value.overallReady;
    var overallReady := base.overallReady && executionReady && AllSlotsReady(slots);
    ComposedView(
      base, execution, slots, executionReady, overallReady,
      d.composed(ComposedDocument(
                   base.barIndex, HashOf(execution), execution.Some?, executionReady, DocumentsOf(slots),
                   overallReady)))
  }

  /** The guarded construction of the composed view. */
  function MakeComposed(d: Digests, base: DecisionView, execution: Option<View>, configured: bool, slots: seq<SlotView>)
    : Result<ComposedView, DecisionError>
  {
    if |slots| != |base.contexts| then Err(SlotCountMismatch)
    else if configured && execution.None? then Err(MissingIndicatorView)
    else if configured && execution.value.barIndex != base.barIndex then Err(IndicatorBarMismatch)
    else if configured && execution.value.visibleCount != base.history.end then Err(IndicatorCountMismatch)
    else if !configured && execution.Some? then Err(UnconfiguredView)
    else Ok(Compose(d, base, execution, slots))
  }

  /** The indicator view a configured slot exposes once its context has closed a candle. */
  function SlotAt(h: Hasher, f: ComposedFeed, k: nat, i: nat): SlotView
    requires i < |f.composition.input.execution|
    requires k < |f.contextFeeds| == |f.composition.input.contexts|
    requires f.contextFeeds[k].Some? ==>
               Complete(f.contextFeeds[k].value)
               && f.contextFeeds[k].value.candleCount == |f.composition.input.contexts[k].candles|
  {
    var x := f.composition.input;
    var timeframe, v := x.contexts[k].timeframe, VisibleAt(x, k, i);
    match f.contextFeeds[k]
    case None => SlotView(timeframe, Slot(v), None, false, true)
    case Some(feed) =>
      if v == 0 then SlotView(timeframe, None, None, true, false)
      else
        var view := MakeView(h, feed.symbol, feed.timeframe, v - 1, feed.sources);
        SlotView(timeframe, Slot(v), Some(view), true, view.overallReady)
  }

  predicate Fits(f: ComposedFeed) {
    && |f.contextFeeds| == |f.composition.input.contexts|
    && (f.executionFeed.Some? ==>
          Complete(f.executionFeed.value) && f.executionFeed.value.candleCount == |f.composition.input.execution|)
    && forall k | 0 <= k < |f.contextFeeds| && f.contextFeeds[k].Some? ::
         && Complete(f.contextFeeds[k].value)
         && f.contextFeeds[k].value.candleCount == |f.composition.input.contexts[k].candles|
  }

  lemma TrustedFeedFits(m: Arithmetic, h: Hasher, f: ComposedFeed)
    requires TrustedFeed(m, h, f)
    ensures Fits(f)
  {
  }

  function ExecutionViewAt(h: Hasher, f: ComposedFeed, i: nat): Option<View>
    requires Fits(f) && i < |f.composition.input.execution|
  {
    match f.executionFeed
    case None => None
    case Some(feed) => Some(MakeView(h, feed.symbol, feed.timeframe, i, feed.sources))
  }

  function SlotsAt(h: Hasher, f: ComposedFeed, i: nat): seq<SlotView>
    requires Fits(f) && i < |f.composition.input.execution|
  {
    seq(|f.contextFeeds|, k requires 0 <= k < |f.contextFeeds| => SlotAt(h, f, k, i))
  }

  function ComposedViewAt(d: Digests, f: ComposedFeed, i: nat): ComposedView
    requires Fits(f) && i < |f.composition.input.execution|
  {
    Compose(
      d, BaseViewAt(d.base, f.composition.input, i),
      ExecutionViewAt(d.indicators, f, i), SlotsAt(d.indicators, f, i))
  }

  /** Over a trusted feed no guard of the k-th slot can fire. */
  lemma SlotGuardsHold(m: Arithmetic, h: Hasher, f: ComposedFeed, k: nat, i: nat)
    requires TrustedFeed(m, h, f) && k < |f.contextFeeds| && i < |f.composition.input.execution|
    ensures Fits(f) && |f.contextFeeds| == |f.composition.input.contexts|
    ensures var x := f.composition.input;
      var c := ContextViewAt(x, k, i);
      var shows := f.contextFeeds[k].Some? && c.latestClosedIndex.Some?;
      && (shows ==>
            var view := ViewAt(h, f.contextFeeds[k].value, c.latestClosedIndex.value);
            view.Ok? && view.value.symbol == x.symbol && view.value.visibleCount == c.history.end)
      && var view := if shows then Some(ViewAt(h, f.contextFeeds[k].value, c.latestClosedIndex.value).value) else None;
         MakeSlot(c.timeframe, c.latestClosedIndex, view, f.contextFeeds[k].Some?) == Ok(SlotAt(h, f, k, i))
  {
    hide SeriesOf, Bound, Canonical, Mapping, MakeItem;
    TrustedFeedFits(m, h, f);
    assert SlotFeed(h, f.composition.contextIndicators[k], f.contextFeeds[k]);
  }

  lemma ExecutionGuardsHold(m: Arithmetic, h: Hasher, f: ComposedFeed, i: nat)
    requires TrustedFeed(m, h, f) && i < |f.composition.input.execution|
    ensures Fits(f)
    ensures f.executionFeed.Some? ==>
      var view := ViewAt(h, f.executionFeed.value, i);
      && view.Ok? && ExecutionViewAt(h, f, i) == Some(view.value)
      && view.value.symbol == f.composition.input.symbol
      && view.value.timeframe == f.composition.input.executionTimeframe
      && view.value.barIndex == i && view.value.visibleCount == i + 1
  {
    hide SeriesOf, Bound, Canonical, Mapping, MakeItem;
    TrustedFeedFits(m, h, f);
  }

  /** The program's assembly. Over a trusted feed only the bar index can be refused. */
  method ViewAtBar(ghost m: Arithmetic, d: Digests, f: ComposedFeed, barIndex: int)
    returns (r: Result<ComposedView, DecisionError>)
    requires TrustedFeed(m, d.indicators, f)
    ensures Fits(f)
    ensures r == if 0 <= barIndex < |f.composition.input.execution|
                 then Ok(ComposedViewAt(d, f, barIndex)) else Err(BarOutsideExecution)
  {
    hide Trusted, FeedOf, TrustedSlot, TrustedContext, Canonical, ContextViewAt, SlotAt, ViewAt, MakeSlot;
    var h, x := d.indicators, f.composition.input;
    TrustedFeedFits(m, h, f);
    if 0 <= barIndex < |x.execution| {
      BaseViewExists(d.base, x, barIndex);
      ExecutionGuardsHold(m, h, f, barIndex);
    }
    var base :- DecisionViewAt(d.base, x, barIndex);
    var execution: Option<View> := None;
    if f.executionFeed.Some? {
      var view := ViewAt(h, f.executionFeed.value, base.barIndex);
      if view.value.symbol != x.symbol {
        return Err(IndicatorSymbolMismatch);
      }
      if view.value.timeframe != x.executionTimeframe {
        return Err(IndicatorTimeframeMismatch);
      }
      execution := Some(view.value);
    }
    var slots: seq<SlotView> := [];
    for k := 0 to |base.contexts|
      invariant |slots| == k
      invariant forall j: nat | j < k :: slots[j] == SlotAt(h, f, j, barIndex)
    {
      var context := base.contexts[k];
      SlotGuardsHold(m, h, f, k, barIndex);
      var view: Option<View> := None;
      if f.contextFeeds[k].Some? && context.latestClosedIndex.Some? {
        var indicators := ViewAt(h, f.contextFeeds[k].value, context.latestClosedIndex.value);
        if indicators.value.symbol != x.symbol {
          return Err(IndicatorSymbolMismatch);
        }
        if indicators.value.visibleCount != context.history.end {
          return Err(IndicatorCountMismatch);
        }
        view := Some(indicators.value);
      }
      var slot := MakeSlot(context.timeframe, context.latestClosedIndex, view, f.contextFeeds[k].Some?);
      slots := slots + [slot.value];
    }
    assert slots == SlotsAt(h, f, barIndex);
    return MakeComposed(d, base, execution, f.executionFeed.Some?, slots);
  }
}
