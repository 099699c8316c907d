/** Per-bar multi-timeframe decision views: candles, then candles with indicators. */
module DecisionViews {
  import opened Results
  import opened Timeframes
  import opened Candles
  import opened Series
  import opened Alignment
  import opened Histories
  import opened IndicatorViews

  datatype DecisionError =
    | BarOutsideExecution
    | NegativeLatestIndex
    | HistoryOutOfRange
    | NoLatestCandle
    | CurrentIsNotLatest
    | ViewWithoutClosedCandle
    | MissingIndicatorView
    | IndicatorBarMismatch
    | IndicatorCountMismatch
    | IndicatorTimeframeMismatch
    | IndicatorSymbolMismatch
    | UnconfiguredView
    | SlotCountMismatch

  // ---------- inputs ----------

  datatype ContextInput = ContextInput(
    timeframe: Timeframe,
    warmupBars: nat,
    candles: seq<Candle>,
    mapping: seq<Option<int>>,
    candleHash: Digest,
    alignmentHash: Digest)

  datatype Input = Input(
    strategyHash: Digest,
    symbol: string,
    executionTimeframe: Timeframe,
    executionWarmup: nat,
    execution: seq<Candle>,
    contexts: seq<ContextInput>,
    executionHash: Digest,
    bundleHash: Digest)

  predicate TrustedContext(execution: seq<Candle>, c: ContextInput) {
    Canonical(c.candles, c.timeframe) && c.mapping == Mapping(execution, c.candles)
  }

  /** What the input factory has verified. */
  predicate TrustedInput(x: Input) {
    && Canonical(x.execution, x.executionTimeframe)
    && forall k | 0 <= k < |x.contexts| :: TrustedContext(x.execution, x.contexts[k])
  }

  /** A declared warm-up of zero still needs one closed candle. */
  function RequiredVisibleCount(warmupBars: nat): nat {
    if warmupBars < 1 then 1 else warmupBars
  }

  // ---------- candle views ----------

  datatype ContextView = ContextView(
    timeframe: Timeframe,
    history: History<Candle>,
    latestClosedIndex: Option<int>,
    ready: bool,
    candleHash: Digest,
    alignmentHash: Digest)

  /** The guarded construction of one context view. */
  function MakeContextView(c: ContextInput, latest: Option<int>): Result<ContextView, DecisionError> {
    if latest.Some? && latest.value < 0 then Err(NegativeLatestIndex)
    else
      var end := if latest.None? then 0 else latest.value + 1;
      var history := MakeHistory(c.candles, end);
      if history.Err? then Err(HistoryOutOfRange)
      else if latest.Some? && history.value.Latest().None? then Err(NoLatestCandle)
      else
        Ok(ContextView(
             c.timeframe, history.value, latest, end >= RequiredVisibleCount(c.warmupBars),
             c.candleHash, c.alignmentHash))
  }

  /** How many candles of a context the bar at i may see. */
  function VisibleAt(x: Input, k: nat, i: nat): (v: nat)
    requires k < |x.contexts| && i < |x.execution|
    ensures v <= |x.contexts[k].candles|
  {
    VisibleCount(x.contexts[k].candles, x.execution[i].closeTime)
  }

  function ContextViewAt(x: Input, k: nat, i: nat): ContextView
    requires k < |x.contexts| && i < |x.execution|
  {
    var v, c := VisibleAt(x, k, i), x.contexts[k];
    ContextView(
      c.timeframe, History(c.candles, v), Slot(v), v >= RequiredVisibleCount(c.warmupBars),
      c.candleHash, c.alignmentHash)
  }

  /** On trusted input no guard of a context view can fire. */
  lemma ContextGuardsHold(x: Input, k: nat, i: nat)
    requires TrustedInput(x) && k < |x.contexts| && i < |x.execution|
    ensures |x.contexts[k].mapping| == |x.execution|
    ensures MakeContextView(x.contexts[k], x.contexts[k].mapping[i]) == Ok(ContextViewAt(x, k, i))
  {
  }

  datatype ContextDocument = ContextDocument(timeframe: Timeframe, latest: Option<int>, ready: bool, visibleCount: nat)

  datatype BaseDocument = BaseDocument(
    bundleHash: Digest,
    barIndex: nat,
    contexts: seq<ContextDocument>,
    executionReady: bool,
    executionVisibleCount: nat,
    overallReady: bool)

  datatype DecisionView = DecisionView(
    bundleHash: Digest,
    barIndex: nat,
    current: Candle,
    history: History<Candle>,
    executionReady: bool,
    contexts: seq<ContextView>,
    overallReady: bool,
    viewHash: Digest)

  function DocumentOfContext(v: ContextView): ContextDocument {
    ContextDocument(v.timeframe, v.latestClosedIndex, v.ready, v.history.end)
  }

  function ContextDocuments(contexts: seq<ContextView>): seq<ContextDocument> {
    seq(|contexts|, k requires 0 <= k < |contexts| => DocumentOfContext(contexts[k]))
  }

  predicate AllContextsReady(contexts: seq<ContextView>) {
    forall k | 0 <= k < |contexts| :: contexts[k].ready
  }

  function ContextViewsFrom(x: Input, i: nat, k: nat): Result<seq<ContextView>, DecisionError>
    requires i < |x.execution| && k <= |x.contexts|
    requires forall j | 0 <= j < |x.contexts| :: |x.contexts[j].mapping| == |x.execution|
    decreases |x.contexts| - k
  {
    if k == |x.contexts| then Ok([])
    else
      var head :- MakeContextView(x.contexts[k], x.contexts[k].mapping[i]);
      var tail :- ContextViewsFrom(x, i, k + 1);
      Ok([head] + tail)
  }

  function MakeDecisionView(base: BaseDocument -> Digest, x: Input, i: nat, contexts: seq<ContextView>): DecisionView
    requires i < |x.execution|
  {
    var executionReady := i + 1 >= RequiredVisibleCount(x.executionWarmup);
    var overallReady := executionReady && AllContextsReady(contexts);
    DecisionView(
      x.bundleHash, i, x.execution[i], History(x.execution, i + 1), executionReady, contexts, overallReady,
      base(BaseDocument(x.bundleHash, i, ContextDocuments(contexts), executionReady, i + 1, overallReady)))
  }

  /** The candle feed's view with all its guards. */
  function DecisionViewAt(base: BaseDocument -> Digest, x: Input, barIndex: int): Result<DecisionView, DecisionError>
    requires TrustedInput(x)
  {
    if barIndex < 0 || barIndex >= |x.execution| then Err(BarOutsideExecution)
    else
      assert forall j | 0 <= j < |x.contexts| :: |x.contexts[j].mapping| == |x.execution| by {
        forall j | 0 <= j < |x.contexts|
          ensures |x.contexts[j].mapping| == |x.execution|
        {
          ContextGuardsHold(x, j, barIndex);
        }
      }
      var contexts :- ContextViewsFrom(x, barIndex, 0);
      if History(x.execution, barIndex + 1).Latest() != Some(x.execution[barIndex]) then Err(CurrentIsNotLatest)
      else Ok(MakeDecisionView(base, x, barIndex, contexts))
  }

  function ContextViewsAt(x: Input, i: nat): seq<ContextView>
    requires i < |x.execution|
  {
    seq(|x.contexts|, k requires 0 <= k < |x.contexts| => ContextViewAt(x, k, i))
  }

  function BaseViewAt(base: BaseDocument -> Digest, x: Input, i: nat): DecisionView
    requires i < |x.execution|
  {
    MakeDecisionView(base, x, i, ContextViewsAt(x, i))
  }

  /** On trusted input every bar has its view. */
  lemma BaseViewExists(base: BaseDocument -> Digest, x: Input, i: nat)
    requires TrustedInput(x) && i < |x.execution|
    ensures DecisionViewAt(base, x, i) == Ok(BaseViewAt(base, x, i))
  {
    forall j | 0 <= j < |x.contexts|
      ensures |x.contexts[j].mapping| == |x.execution|
    {
      ContextGuardsHold(x, j, i);
    }
    ContextViewsSucceed(x, i, 0);
    assert ContextViewsAt(x, i)[0..] == ContextViewsAt(x, i);
  }

  lemma {:induction false} ContextViewsSucceed(x: Input, i: nat, k: nat)
    requires TrustedInput(x) && i < |x.execution| && k <= |x.contexts|
    requires forall j | 0 <= j < |x.contexts| :: |x.contexts[j].mapping| == |x.execution|
    ensures ContextViewsFrom(x, i, k) == Ok(ContextViewsAt(x, i)[k..])
    decreases |x.contexts| - k
  {
    hide MakeContextView, ContextViewAt, TrustedInput;
    if k < |x.contexts| {
      ContextViewsSucceed(x, i, k + 1);
      ContextGuardsHold(x, k, i);
      assert ContextViewsAt(x, i)[k..] == [ContextViewAt(x, k, i)] + ContextViewsAt(x, i)[k + 1..];
    }
  }
}
