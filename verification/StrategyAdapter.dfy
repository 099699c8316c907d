/** The strategy adapter: it puts an indicator-aware provider behind the engine's provider interface. */
module StrategyAdapter {
  import opened Results
  import opened Averages
  import opened IndicatorViews
  import opened DecisionViews
  import opened ComposedViews
  import opened ViewCausality
  import opened Intents
  import opened Engine

  datatype AdapterError =
    | SymbolMismatch
    | TimeframeMismatch
    | ProcessedCountMismatch
    | ViewUnavailable(view: DecisionError)
    | BarIndexMismatch
    | CandleMismatch
    | ProviderRaised
    | NotAnExactTuple
    | DirectionNotSupported

  /** The digests handed to the provider: of the strategy, the bundle, the candle view and each context. */
  datatype Identity = Identity(
    strategyHash: Digest,
    bundleHash: Digest,
    viewHash: Digest,
    contextHashes: seq<(Digest, Digest)>)

  function ContextHashesOf(contexts: seq<ContextView>): seq<(Digest, Digest)> {
    seq(|contexts|, k requires 0 <= k < |contexts| => (contexts[k].candleHash, contexts[k].alignmentHash))
  }

  function IdentityOf(strategyHash: Digest, base: DecisionView): Identity {
    Identity(strategyHash, base.bundleHash, base.viewHash, ContextHashesOf(base.contexts))
  }

  /** What the strategy's provider receives: the engine's context, the composed view, and their digests. */
  datatype Enhanced = Enhanced(base: DecisionContext, view: ComposedShown, identity: Identity)

  /** A strategy provider may keep state, so its reply depends on all it has been shown. */
  type StrategyProvider = seq<Enhanced> -> ProviderReply

  datatype Adapter = Adapter(
    digests: Digests,
    feed: ComposedFeed,
    directions: set<Direction>,
    provider: StrategyProvider)

  lemma ViewIsReadable(d: Digests, f: ComposedFeed, i: nat)
    requires Fits(f) && i < |f.composition.input.execution|
    ensures Readable(ComposedViewAt(d, f, i))
  {
  }

  function EnhancedAt(a: Adapter, context: DecisionContext): Enhanced
    requires Fits(a.feed) && context.barIndex < |a.feed.composition.input.execution|
  {
    ViewIsReadable(a.digests, a.feed, context.barIndex);
    var view := ComposedViewAt(a.digests, a.feed, context.barIndex);
    Enhanced(context, ShowComposed(view), IdentityOf(a.feed.composition.input.strategyHash, view.base))
  }

  /** The guards and the readiness gate: nothing, or what the strategy's provider is shown. */
  function Gate(a: Adapter, context: DecisionContext): Result<Option<Enhanced>, AdapterError>
    requires Fits(a.feed)
  {
    var x, i := a.feed.composition.input, context.barIndex;
    if context.symbol != x.symbol then Err(SymbolMismatch)
    else if context.timeframe != x.executionTimeframe then Err(TimeframeMismatch)
    else if context.candlesProcessed != i + 1 then Err(ProcessedCountMismatch)
    else if i >= |x.execution| then Err(ViewUnavailable(BarOutsideExecution))
    else if context.candle != x.execution[i] then Err(CandleMismatch)
    else if !ComposedViewAt(a.digests, a.feed, i).overallReady then Ok(None)
    else Ok(Some(EnhancedAt(a, context)))
  }

  /** Everything the strategy's provider has been shown. */
  function ShownBy(a: Adapter, seen: seq<DecisionContext>): seq<Enhanced>
    requires Fits(a.feed)
  {
    if seen == [] then []
    else
      var last := |seen| - 1;
      match Gate(a, seen[last])
      case Ok(Some(enhanced)) => ShownBy(a, seen[..last]) + [enhanced]
      case _ => ShownBy(a, seen[..last])
  }

  function SkippedBy(a: Adapter, seen: seq<DecisionContext>): nat
    requires Fits(a.feed)
  {
    if seen == [] then 0
    else
      var last := |seen| - 1;
      SkippedBy(a, seen[..last]) + (if Gate(a, seen[last]) == Ok(None) then 1 else 0)
  }

  predicate Supported(item: ReplyItem, directions: set<Direction>) {
    item.Known? && item.intent.Enter? ==> item.intent.enter.direction in directions
  }

  function CheckReply(reply: ProviderReply, directions: set<Direction>): Result<seq<ReplyItem>, AdapterError> {
    match reply
    case Raised => Err(ProviderRaised)
    case NonTuple => Err(NotAnExactTuple)
    case Items(items) =>
      if forall k | 0 <= k < |items| :: Supported(items[k], directions) then Ok(items) else Err(DirectionNotSupported)
  }

  /** The adapter's answer to the last of the contexts it has seen. */
  function Answer(a: Adapter, seen: seq<DecisionContext>): Result<seq<ReplyItem>, AdapterError>
    requires Fits(a.feed) && seen != []
  {
    match Gate(a, seen[|seen| - 1])
    case Err(e) => Err(e)
    case Ok(None) => Ok([])
    case Ok(Some(_)) => CheckReply(a.provider(ShownBy(a, seen)), a.directions)
  }

  /** The adapter as the engine meets it: any exception is a raised reply. */
  function AsProvider(a: Adapter): Provider
    requires Fits(a.feed)
  {
    seen =>
      if seen == [] then Items([])
      else match Answer(a, seen)
        case Ok(items) => Items(items)
        case Err(_) => Raised
  }

  function SetupOf(a: Adapter, policy: Policy): Setup
    requires Fits(a.feed)
  {
    Setup(a.feed.composition.input.symbol, a.feed.composition.input.executionTimeframe, policy, AsProvider(a))
  }

  class MultiTimeframeIndicatorProviderAdapter {
    ghost const arithmetic: Arithmetic
    const adapter: Adapter
    var providerInvocationCount: nat
    var warmupSkippedDecisionCount: nat
    /** What the provider has been shown, which is all a provider with memory can depend on. */
    var shown: seq<Enhanced>
    ghost var seen: seq<DecisionContext>

    constructor (ghost arithmetic: Arithmetic, adapter: Adapter)
      requires TrustedFeed(arithmetic, adapter.digests.indicators, adapter.feed)
      ensures Valid() && this.adapter == adapter && seen == []
    {
      this.arithmetic, this.adapter := arithmetic, adapter;
      providerInvocationCount, warmupSkippedDecisionCount := 0, 0;
      shown, seen := [], [];
      new;
      TrustedFeedFits(arithmetic, adapter.digests.indicators, adapter.feed);
    }

    /** The counters and the provider's memory are determined by the contexts seen. */
    ghost predicate Valid()
      reads this
    {
      && TrustedFeed(arithmetic, adapter.digests.indicators, adapter.feed)
      && Fits(adapter.feed)
      && shown == ShownBy(adapter, seen)
      && providerInvocationCount == |shown|
      && warmupSkippedDecisionCount == SkippedBy(adapter, seen)
    }

    /** Answers one bar exactly as the provider function the engine is given. */
    method OnBarClose(context: DecisionContext) returns (r: Result<seq<ReplyItem>, AdapterError>)
      requires Valid()
      modifies this
      ensures Valid() && seen == old(seen) + [context]
      ensures r == Answer(adapter, seen)
      ensures AsProvider(adapter)(seen) == match r case Ok(items) => Items(items) case Err(_) => Raised
    {
      hide TrustedFeed, Fits, ComposedViewAt, ShowComposed;
      var input := adapter.feed.composition.input;
      seen := seen + [context];
      assert seen[..|seen| - 1] == old(seen);
      if context.symbol != input.symbol {
        return Err(SymbolMismatch);
      }
      if context.timeframe != input.executionTimeframe {
        return Err(TimeframeMismatch);
      }
      if context.candlesProcessed != context.barIndex + 1 {
        return Err(ProcessedCountMismatch);
      }
      var at := ViewAtBar(arithmetic, adapter.digests, adapter.feed, context.barIndex);
      if at.Err? {
        return Err(ViewUnavailable(at.error));
      }
      var view := at.value;
      ViewShowsItsBar(adapter.digests, adapter.feed, context.barIndex);
      if context.barIndex != view.base.barIndex {
        return Err(BarIndexMismatch);
      }
      if context.candle != view.base.current {
        return Err(CandleMismatch);
      }
      if !view.overallReady {
        warmupSkippedDecisionCount := warmupSkippedDecisionCount + 1;
        return Ok([]);
      }
      ViewIsReadable(adapter.digests, adapter.feed, context.barIndex);
      providerInvocationCount := providerInvocationCount + 1;
      shown := shown + [Enhanced(context, ShowComposed(view), IdentityOf(input.strategyHash, view.base))];
      var reply := adapter.provider(shown);
      if reply.Raised? {
        return Err(ProviderRaised);
      }
      if reply.NonTuple? {
        return Err(NotAnExactTuple);
      }
      for k := 0 to |reply.items|
        invariant forall j | 0 <= j < k :: Supported(reply.items[j], adapter.directions)
      {
        if reply.items[k].Known? && reply.items[k].intent.Enter? {
          if reply.items[k].intent.enter.direction !in adapter.directions {
            assert !Supported(reply.items[k], adapter.directions);
            return Err(DirectionNotSupported);
          }
        }
      }
      return Ok(reply.items);
    }
  }

  lemma ViewShowsItsBar(d: Digests, f: ComposedFeed, i: nat)
    requires Fits(f) && i < |f.composition.input.execution|
    ensures ComposedViewAt(d, f, i).base.barIndex == i
    ensures ComposedViewAt(d, f, i).base.current == f.composition.input.execution[i]
  {
  }
}
