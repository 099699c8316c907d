/** Exactly when a provider that reads digests of the whole input can make two runs with one past differ. */
module DigestPeeking {
  import opened Results
  import opened Candles
  import opened Series
  import opened Averages
  import opened DecisionViews
  import opened ComposedViews
  import opened ViewCausality
  import opened Readiness
  import opened InputIdentity
  import opened Intents
  import opened Engine
  import opened EngineLedger
  import opened EngineResults
  import opened EngineOrders
  import opened EngineCausality
  import opened TradePlans
  import opened StrategyAdapter
  import opened StrategyRuns
  import opened NoLookahead

  // ---------- a provider that recognises its input ----------

  /** The digests that are the same at every bar of an input. */
  function Marks(i: Identity): Identity {
    i.(viewHash := "")
  }

  function MarksOf(x: Input): Identity {
    Identity(
      x.strategyHash, x.bundleHash, "",
      seq(|x.contexts|, k requires 0 <= k < |x.contexts| => (x.contexts[k].candleHash, x.contexts[k].alignmentHash)))
  }

  lemma MarksAreTheInputs(a: Adapter, i: nat)
    requires i < |a.feed.composition.input.execution|
    ensures Marks(IdentityAt(a, i)) == MarksOf(a.feed.composition.input)
  {
  }

  lemma SameMarks(x: Input, y: Input)
    ensures MarksOf(x) == MarksOf(y) <==> SameIdentity(x, y)
  {
    var p, q := MarksOf(x).contextHashes, MarksOf(y).contextHashes;
    if p == q {
      assert |x.contexts| == |p| == |q| == |y.contexts|;
      forall k | 0 <= k < |x.contexts|
        ensures x.contexts[k].candleHash == y.contexts[k].candleHash
        ensures x.contexts[k].alignmentHash == y.contexts[k].alignmentHash
      {
        assert p[k] == q[k];
      }
    }
  }

  /** A provider that acts on its bar when it recognises the input by its digests, and else does nothing. */
  function Peeking(target: Identity, replies: nat -> ProviderReply): StrategyProvider {
    (shown: seq<Enhanced>) =>
      if shown != [] && Marks(shown[|shown| - 1].identity) == target
      then replies(shown[|shown| - 1].base.barIndex) else Items([])
  }

  function WithProvider(a: Adapter, p: StrategyProvider): Adapter {
    a.(provider := p)
  }

  lemma NothingIsAllowed(directions: set<Direction>)
    ensures CheckReply(Items([]), directions) == Ok([])
  {
  }

  /** Its answers on every history of the engine's: nothing until its own input is ready, then its replies. */
  lemma PeekingAnswers(
    m: Arithmetic, a: Adapter, policy: Policy, target: Identity, replies: nat -> ProviderReply,
    seen: seq<DecisionContext>)
    requires TrustedFeed(m, a.digests.indicators, a.feed) && Fits(a.feed) && a.provider == Peeking(target, replies)
    requires seen != [] && Follows(SetupOf(a, policy), a.feed.composition.input.execution, seen)
    ensures |a.feed.composition.input.contexts| == |a.feed.composition.contextIndicators|
    ensures Answer(a, seen)
      == if ReadyAt(a.feed.composition, |seen| - 1) && MarksOf(a.feed.composition.input) == target
         then CheckReply(replies(|seen| - 1), a.directions) else Ok([])
  {
    hide TrustedFeed, Fits, ReadyAt, CheckReply, ShowComposed, BaseViewAt;
    hide ExecutionViewAt, SlotsAt, IdentityOf, MarksOf, Marks;
    var i := |seen| - 1;
    EngineContextsPass(m, a, policy, seen[i]);
    NothingIsAllowed(a.directions);
    MarksAreTheInputs(a, i);
    if ReadyAt(a.feed.composition, i) {
      assert ShownBy(a, seen)[|ShownBy(a, seen)| - 1] == EnhancedAt(a, seen[i]);
      LastShown(a, seen[i]);
    }
  }

  lemma LastShown(a: Adapter, context: DecisionContext)
    requires Fits(a.feed) && context.barIndex < |a.feed.composition.input.execution|
    ensures EnhancedAt(a, context).identity == IdentityAt(a, context.barIndex) && EnhancedAt(a, context).base == context
  {
    hide ShowComposed, BaseViewAt, ExecutionViewAt, SlotsAt, IdentityOf;
  }

  // ---------- exactly when every provider answers alike ----------

  ghost predicate AnswersAlike(one: Adapter, two: Adapter, policy: Policy, k: nat, p: StrategyProvider)
    requires Fits(one.feed) && Fits(two.feed)
  {
    SameStrategy(
      SetupOf(WithProvider(one, p), policy), SetupOf(WithProvider(two, p), policy),
      one.feed.composition.input.execution, k)
  }

  lemma AlikeIfBlind(m: Arithmetic, one: Adapter, two: Adapter, policy: Policy, k: nat, p: StrategyProvider)
    requires TrustedFeed(m, one.digests.indicators, one.feed) && Fits(one.feed)
    requires TrustedFeed(m, two.digests.indicators, two.feed) && Fits(two.feed)
    requires SameSetting(one, two)
    requires k > 0 ==> SamePastAt(one.feed.composition.input, two.feed.composition.input, k - 1)
    requires |one.feed.composition.input.contexts| == |one.feed.composition.contextIndicators|
    requires k <= |one.feed.composition.input.execution| && Blind(WithProvider(one, p), WithProvider(two, p), k)
    ensures AnswersAlike(one, two, policy, k, p)
  {
    hide Fits, SamePastAt, SameIdentity, SameStrategy, TrustedFeed, SameConfiguration;
    SamePastSameStrategy(m, WithProvider(one, p), WithProvider(two, p), policy, k);
  }

  /** What the peeking provider does at one bar only. */
  function Only(i: nat, reply: ProviderReply): nat -> ProviderReply {
    b => if b == i then reply else Items([])
  }

  /** A provider that does nothing before bar i is shown, there, exactly the idle contexts of its run. */
  lemma PeekingIsIdle(m: Arithmetic, a: Adapter, policy: Policy, i: nat, target: Identity, reply: ProviderReply)
    requires TrustedFeed(m, a.digests.indicators, a.feed) && Fits(a.feed)
    requires a.provider == Peeking(target, Only(i, reply))
    requires i < |a.feed.composition.input.execution|
    ensures var e, candles := SetupOf(a, policy), a.feed.composition.input.execution;
      RunBars(e, candles, i) == Ok(Start(policy).(contexts := IdleContexts(e, candles, i)))
  {
    hide TrustedFeed, Fits, Answer, ReadyAt, RunBars, IdleContexts, CheckReply, MarksOf, Peeking, Follows;
    var e, candles := SetupOf(a, policy), a.feed.composition.input.execution;
    forall b: nat | 1 <= b <= i
      ensures e.provider(IdleContexts(e, candles, b)) == Items([])
    {
      PeekingAnswers(m, a, policy, target, Only(i, reply), IdleContexts(e, candles, b));
      NothingIsAllowed(a.directions);
    }
    IdleBars(e, candles, i);
  }

  /**
   * Where digests differ at a ready bar, the provider that recognises one input
   * tells the two apart, on the history that both of its runs have come to.
   */
  lemma PeekingTellsApart(m: Arithmetic, one: Adapter, two: Adapter, policy: Policy, i: nat, reply: ProviderReply)
    requires SharePast(m, one, two, i + 1) && ReadyHere(one, i)
    requires !SameIdentity(one.feed.composition.input, two.feed.composition.input)
    requires CheckReply(reply, one.directions) != Ok([])
    ensures var p := Peeking(MarksOf(one.feed.composition.input), Only(i, reply));
      var e, f := SetupOf(WithProvider(one, p), policy), SetupOf(WithProvider(two, p), policy);
      var x, y := one.feed.composition.input, two.feed.composition.input;
      var seen := IdleContexts(e, x.execution, i + 1);
      && seen == IdleContexts(f, y.execution, i + 1)
      && RunBars(e, x.execution, i) == RunBars(f, y.execution, i) == Ok(Start(policy).(contexts := seen[..i]))
      && e.provider(seen) != f.provider(seen)
  {
    hide TrustedFeed, Fits, ReadyAt, CheckReply, SamePastAt, SameIdentity;
    hide Peeking, Only, MarksOf, RunBars, SameConfiguration;
    var x, y := one.feed.composition.input, two.feed.composition.input;
    var p := Peeking(MarksOf(x), Only(i, reply));
    var a, b := WithProvider(one, p), WithProvider(two, p);
    PeekingIsIdle(m, a, policy, i, MarksOf(x), reply);
    PeekingIsIdle(m, b, policy, i, MarksOf(x), reply);
    var e, f := SetupOf(a, policy), SetupOf(b, policy);
    var seen := IdleContexts(e, x.execution, i + 1);
    SameMarket(one, two);
    assert seen == IdleContexts(f, y.execution, i + 1);
    assert seen[..i] == IdleContexts(e, x.execution, i);
    assert IdleContexts(e, x.execution, i) == IdleContexts(f, y.execution, i);
    hide IdleContexts;
    PeekingAnswers(m, a, policy, MarksOf(x), Only(i, reply), seen);
    PeekingAnswers(m, b, policy, MarksOf(x), Only(i, reply), seen);
    SameMarks(x, y);
    OnlyThere(i, reply);
    AnswersDiffer(a, b, seen);
  }

  ghost predicate ReadyHere(a: Adapter, i: nat) {
    && |a.feed.composition.input.contexts| == |a.feed.composition.contextIndicators|
    && i < |a.feed.composition.input.execution| && ReadyAt(a.feed.composition, i)
  }

  lemma OnlyThere(i: nat, reply: ProviderReply)
    ensures Only(i, reply)(i) == reply
  {
  }

  lemma AnswersDiffer(a: Adapter, b: Adapter, seen: seq<DecisionContext>)
    requires Fits(a.feed) && Fits(b.feed) && seen != [] && Answer(b, seen) == Ok([]) && Answer(a, seen) != Ok([])
    ensures AsProvider(a)(seen) != AsProvider(b)(seen)
  {
    hide Answer;
  }

  /** Histories with one visible past up to bar k - 1 share it up to every earlier bar. */
  lemma SharedUpTo(m: Arithmetic, one: Adapter, two: Adapter, k: nat, n: nat)
    requires TrustedFeed(m, one.digests.indicators, one.feed) && Fits(one.feed)
    requires TrustedFeed(m, two.digests.indicators, two.feed) && Fits(two.feed)
    requires SameSetting(one, two) && n <= k
    requires k > 0 ==> SamePastAt(one.feed.composition.input, two.feed.composition.input, k - 1)
    ensures SharePast(m, one, two, n)
  {
    hide Fits, SameConfiguration, SamePastAt, TrustedInput;
    SamePastPrefix(one.feed.composition.input, two.feed.composition.input, k);
    if n > 1 { SamePastShrinks(one.feed.composition.input, two.feed.composition.input, k - 1, n - 2); }
  }

  /**
   * On two inputs with the same past before bar k, every provider answers alike
   * through the first k bars exactly when the digests they are handed agree or no
   * bar before k is ready.
   */
  lemma EveryProviderAnswersAlike(m: Arithmetic, one: Adapter, two: Adapter, policy: Policy, k: nat)
    requires TrustedFeed(m, one.digests.indicators, one.feed) && Fits(one.feed)
    requires TrustedFeed(m, two.digests.indicators, two.feed) && Fits(two.feed)
    requires SameSetting(one, two)
    requires k > 0 ==> SamePastAt(one.feed.composition.input, two.feed.composition.input, k - 1)
    ensures |one.feed.composition.input.contexts| == |one.feed.composition.contextIndicators|
    ensures (forall p: StrategyProvider :: AnswersAlike(one, two, policy, k, p))
      <==> SameIdentity(one.feed.composition.input, two.feed.composition.input)
           || FirstReady(one.feed.composition, k) == k
  {
    assert k <= |one.feed.composition.input.execution|;
    hide Fits, SamePastAt, AnswersAlike, SameIdentity, ReadyAt, TrustedInput, Peeking, SharePast, MarksOf, RunBars;
    var x, y, first := one.feed.composition.input, two.feed.composition.input, FirstReady(one.feed.composition, k);
    if SameIdentity(x, y) || first == k {
      forall p: StrategyProvider
        ensures AnswersAlike(one, two, policy, k, p)
      {
        AlikeIfBlind(m, one, two, policy, k, p);
      }
    } else {
      SharedUpTo(m, one, two, k, first + 1);
      PeekingTellsApart(m, one, two, policy, first, Raised);
      var p := Peeking(MarksOf(x), Only(first, Raised));
      var e := SetupOf(WithProvider(one, p), policy);
      NotAlike(one, two, policy, k, p, IdleContexts(e, x.execution, first + 1));
    }
  }

  /** One history on which the replies differ is enough. */
  lemma NotAlike(one: Adapter, two: Adapter, policy: Policy, k: nat, p: StrategyProvider, seen: seq<DecisionContext>)
    requires Fits(one.feed) && Fits(two.feed) && |seen| <= k
    requires Follows(SetupOf(WithProvider(one, p), policy), one.feed.composition.input.execution, seen)
    requires AsProvider(WithProvider(one, p))(seen) != AsProvider(WithProvider(two, p))(seen)
    ensures !AnswersAlike(one, two, policy, k, p)
  {
    hide Fits, AsProvider, Follows;
  }

  /** The digests being those of the contents, that is when the inputs are wholly the same, or nothing was shown. */
  lemma OnlyWholeInputsAreAlike(
    m: Arithmetic, one: Adapter, two: Adapter, policy: Policy, k: nat, h: InputHasher)
    requires TrustedFeed(m, one.digests.indicators, one.feed) && Fits(one.feed)
    requires TrustedFeed(m, two.digests.indicators, two.feed) && Fits(two.feed)
    requires SameSetting(one, two)
    requires k > 0 ==> SamePastAt(one.feed.composition.input, two.feed.composition.input, k - 1)
    requires Binds(h)
    requires DecimalInput(one.feed.composition.input) && Identified(h, one.feed.composition.input)
    requires DecimalInput(two.feed.composition.input) && Identified(h, two.feed.composition.input)
    ensures |one.feed.composition.input.contexts| == |one.feed.composition.contextIndicators|
    ensures (forall p: StrategyProvider :: AnswersAlike(one, two, policy, k, p))
      <==> SameContents(one.feed.composition.input, two.feed.composition.input)
           || FirstReady(one.feed.composition, k) == k
  {
    EveryProviderAnswersAlike(m, one, two, policy, k);
    IdentityIsContents(h, one.feed.composition.input, two.feed.composition.input);
  }

  // ---------- exactly when every provider's fills are alike ----------

  /** The two runs of a provider, if both complete, make the same fills before bar k, a forced close apart. */
  ghost predicate FillsAlike(one: Adapter, two: Adapter, policy: Policy, hash: RunHashes, k: nat, p: StrategyProvider)
    requires Fits(one.feed) && Fits(two.feed)
  {
    var r, q := StrategyResult(WithProvider(one, p), policy, hash), StrategyResult(WithProvider(two, p), policy, hash);
    r.Ok? && q.Ok? ==> SameFillsBefore(r.value.fills, q.value.fills, k)
  }

  /** The plan enters before bar k, decided at a ready bar, in a supported direction, and can be carried out. */
  ghost predicate Allows(a: Adapter, policy: Policy, k: nat, p: TradePlan) {
    && p.decided + 1 < k && ReadyHere(a, p.decided) && p.order.direction in a.directions
    && Feasible(policy, a.feed.composition.input.execution, p)
  }

  /** Whether this input, under this policy, can be traded before bar k at all. */
  ghost predicate Tradable(a: Adapter, policy: Policy, k: nat) {
    exists p: TradePlan :: Allows(a, policy, k, p)
  }

  /** The input carries the digest that the engine computes of its candles. */
  predicate CarriesItsDigest(hash: RunHashes, x: Input) {
    x.executionHash == hash.candles(x.execution)
  }

  lemma FirstTradeIsAllowed(m: Arithmetic, a: Adapter, policy: Policy, contexts: seq<DecisionContext>, p: TradePlan)
    requires TrustedFeed(m, a.digests.indicators, a.feed) && Fits(a.feed)
    requires Follows(SetupOf(a, policy), a.feed.composition.input.execution, contexts) && p.decided < |contexts|
    requires AsProvider(a)(contexts[..p.decided + 1]) == Items([Known(Enter(p.order))])
    ensures ReadyHere(a, p.decided) && p.order.direction in a.directions
  {
    var e, x := SetupOf(a, policy), a.feed.composition.input;
    FollowsFit(e, x.execution, contexts);
    hide TrustedFeed, Fits, ReadyAt, AsProvider, Follows;
    EarlierFollow(e, x.execution, contexts, p.decided + 1);
    EntryWasAllowed(m, a, policy, contexts[..p.decided + 1], p.order);
  }

  /** The first trade of a completed run is on a plan that the input allows. */
  lemma TradedIsTradable(m: Arithmetic, a: Adapter, policy: Policy, hash: RunHashes, k: nat, r: BacktestResult)
    requires TrustedFeed(m, a.digests.indicators, a.feed) && Fits(a.feed) && StrategyResult(a, policy, hash) == Ok(r)
    requires r.fills != [] && r.fills[0].barIndex < k
    ensures Tradable(a, policy, k)
  {
    hide TrustedFeed, Fits, AsProvider, Completed, StrategyResult, Feasible, RunBars, Follows, ReadyHere, SetupOf;
    var e, x := SetupOf(a, policy), a.feed.composition.input;
    StrategyCompletes(a, policy, hash, r);
    var p := FirstTradeIsPlanned(e, x.execution, Some(x.executionHash), hash, r);
    PlanIsInside(policy, x.execution, p);
    ContextsFollowBars(e, x.execution, |x.execution|);
    FirstTradeIsAllowed(m, a, policy, RunBars(e, x.execution, |x.execution|).value.contexts, p);
    assert Allows(a, policy, k, p);
  }

  lemma PlanIsInside(policy: Policy, candles: seq<Candle>, p: TradePlan)
    requires Feasible(policy, candles, p)
    ensures p.decided < |candles|
  {
  }

  /** What cannot be traded before bar k is not: in every completed run of every provider. */
  lemma UntradableMakesNoFills(
    m: Arithmetic, a: Adapter, policy: Policy, hash: RunHashes, k: nat, r: BacktestResult)
    requires TrustedFeed(m, a.digests.indicators, a.feed) && Fits(a.feed) && StrategyResult(a, policy, hash) == Ok(r)
    requires !Tradable(a, policy, k)
    ensures forall j | 0 <= j < |r.fills| :: r.fills[j].barIndex >= k
  {
    hide TrustedFeed, Fits, SetupOf, Completed, StrategyResult, Tradable;
    var e, x := SetupOf(a, policy), a.feed.composition.input;
    StrategyCompletes(a, policy, hash, r);
    if r.fills != [] && r.fills[0].barIndex < k {
      TradedIsTradable(m, a, policy, hash, k, r);
    }
    TradesStartWithEntries(e, x.execution, Some(x.executionHash), hash, r);
  }

  /** The replies of a plan on these bars. */
  function Planned(p: TradePlan, candles: seq<Candle>): nat -> ProviderReply {
    (b: nat) => if b < |candles| then PlannedReply(p, candles, b) else Items([])
  }

  /** The provider that trades this plan when it recognises this input. */
  function PeekingTrader(x: Input, p: TradePlan): StrategyProvider {
    Peeking(MarksOf(x), Planned(p, x.execution))
  }

  lemma TraderAnswers(m: Arithmetic, a: Adapter, policy: Policy, k: nat, p: TradePlan, h: seq<DecisionContext>)
    requires TrustedFeed(m, a.digests.indicators, a.feed) && Fits(a.feed) && Allows(a, policy, k, p)
    requires a.provider == PeekingTrader(a.feed.composition.input, p)
    requires h != [] && Follows(SetupOf(a, policy), a.feed.composition.input.execution, h)
    ensures |h| <= |a.feed.composition.input.execution|
    ensures AsProvider(a)(h) == PlannedReply(p, a.feed.composition.input.execution, |h| - 1)
  {
    var x, b := a.feed.composition.input, |h| - 1;
    assert TrustedComposition(m, a.feed.composition) && p.decided < p.exit;
    FollowsFit(SetupOf(a, policy), x.execution, h);
    assert Planned(p, x.execution)(b) == PlannedReply(p, x.execution, b);
    hide TrustedFeed, TrustedComposition, Fits, ReadyAt, Answer, Follows;
    hide Feasible, Peeking, MarksOf, CheckReply, PlannedReply;
    hide Planned;
    PeekingAnswers(m, a, policy, MarksOf(x), Planned(p, x.execution), h);
    PlanIsSupported(p, x.execution, b, a.directions);
    if p.decided <= b { ReadinessIsMonotone(m, a.feed.composition, p.decided, b); }
  }

  lemma TraderKeepsItsPlan(m: Arithmetic, a: Adapter, policy: Policy, k: nat, p: TradePlan)
    requires TrustedFeed(m, a.digests.indicators, a.feed) && Fits(a.feed) && Allows(a, policy, k, p)
    requires a.provider == PeekingTrader(a.feed.composition.input, p)
    ensures Keeps(SetupOf(a, policy), a.feed.composition.input.execution, p)
  {
    hide TrustedFeed, Fits, Allows, AsProvider, Follows, PeekingTrader, PlannedReply;
    forall h: seq<DecisionContext> | h != [] && Follows(SetupOf(a, policy), a.feed.composition.input.execution, h)
      ensures |h| <= |a.feed.composition.input.execution|
      ensures AsProvider(a)(h) == PlannedReply(p, a.feed.composition.input.execution, |h| - 1)
    {
      TraderAnswers(m, a, policy, k, p, h);
    }
  }

  lemma FollowsFit(e: Setup, candles: seq<Candle>, h: seq<DecisionContext>)
    requires Follows(e, candles, h)
    ensures |h| <= |candles|
  {
  }

  /** A plan asks for nothing before its decision and only for what its direction allows. */
  lemma PlanIsSupported(p: TradePlan, candles: seq<Candle>, b: nat, directions: set<Direction>)
    requires b < |candles| && p.decided < p.exit && p.order.direction in directions
    ensures b < p.decided ==> PlannedReply(p, candles, b) == Items([])
    ensures PlannedReply(p, candles, b).Items?
    ensures CheckReply(PlannedReply(p, candles, b), directions) == Ok(PlannedReply(p, candles, b).items)
  {
  }

  lemma TraderStaysIdle(m: Arithmetic, a: Adapter, policy: Policy, x: Input, p: TradePlan)
    requires TrustedFeed(m, a.digests.indicators, a.feed) && Fits(a.feed)
    requires !SameIdentity(x, a.feed.composition.input) && a.provider == PeekingTrader(x, p)
    ensures forall h | h != [] && Follows(SetupOf(a, policy), a.feed.composition.input.execution, h) ::
              AsProvider(a)(h) == Items([])
  {
    hide TrustedFeed, Fits, ReadyAt, Answer, Follows, Peeking, MarksOf, CheckReply, SameIdentity, Planned;
    var y := a.feed.composition.input;
    SameMarks(x, y);
    forall h: seq<DecisionContext> | h != [] && Follows(SetupOf(a, policy), y.execution, h)
      ensures AsProvider(a)(h) == Items([])
    {
      PeekingAnswers(m, a, policy, MarksOf(x), Planned(p, x.execution), h);
    }
  }

  lemma FeedIsCanonical(m: Arithmetic, a: Adapter)
    requires TrustedFeed(m, a.digests.indicators, a.feed)
    ensures Canonical(a.feed.composition.input.execution, a.feed.composition.input.executionTimeframe)
  {
  }

  lemma SameReady(a: Adapter, p: StrategyProvider, i: nat)
    ensures ReadyHere(WithProvider(a, p), i) <==> ReadyHere(a, i)
  {
    hide ReadyAt;
  }

  /**
   * The provider completes both runs, on one input with an entry at bar n as its
   * first fill, on the other without a fill.
   */
  ghost predicate SplitsRuns(
    one: Adapter, two: Adapter, policy: Policy, hash: RunHashes, p: StrategyProvider, n: nat)
  {
    && Fits(one.feed) && Fits(two.feed)
    && var r := StrategyResult(WithProvider(one, p), policy, hash);
       var q := StrategyResult(WithProvider(two, p), policy, hash);
    && r.Ok? && q.Ok?
    && r.value.fills != [] && r.value.fills[0].reason.MarketEntry? && r.value.fills[0].barIndex == n
    && q.value.fills == []
  }

  lemma SplitIsNotAlike(
    one: Adapter, two: Adapter, policy: Policy, hash: RunHashes, k: nat, p: StrategyProvider, n: nat)
    requires SplitsRuns(one, two, policy, hash, p, n) && n < k
    ensures Fits(one.feed) && Fits(two.feed) && !FillsAlike(one, two, policy, hash, k, p)
  {
    hide Fits, StrategyResult;
    assert Settled(StrategyResult(WithProvider(one, p), policy, hash).value.fills[0], k);
  }

  lemma TraderTrades(m: Arithmetic, a: Adapter, policy: Policy, hash: RunHashes, k: nat, p: TradePlan)
    requires TrustedFeed(m, a.digests.indicators, a.feed) && Fits(a.feed) && Allows(a, policy, k, p)
    requires a.provider == PeekingTrader(a.feed.composition.input, p)
    requires CarriesItsDigest(hash, a.feed.composition.input)
    ensures StrategyResult(a, policy, hash).Ok?
    ensures FirstIsTheEntry(p, StrategyResult(a, policy, hash).value.fills)
  {
    FeedIsCanonical(m, a);
    hide TrustedFeed, Fits, ReadyHere, Feasible, Keeps;
    hide Canonical, PeekingTrader, AsProvider, RunResult, FirstIsTheEntry;
    TraderKeepsItsPlan(m, a, policy, k, p);
    var x := a.feed.composition.input;
    PlanCompletes(SetupOf(a, policy), x.execution, p, Some(x.executionHash), hash);
  }

  lemma TraderIdles(m: Arithmetic, a: Adapter, policy: Policy, hash: RunHashes, x: Input, p: TradePlan)
    requires TrustedFeed(m, a.digests.indicators, a.feed) && Fits(a.feed)
    requires !SameIdentity(x, a.feed.composition.input) && a.provider == PeekingTrader(x, p)
    requires CarriesItsDigest(hash, a.feed.composition.input)
    ensures StrategyResult(a, policy, hash).Ok? && StrategyResult(a, policy, hash).value.fills == []
  {
    FeedIsCanonical(m, a);
    hide TrustedFeed, Fits, Canonical, PeekingTrader, SameIdentity, AsProvider, RunResult, Follows;
    TraderStaysIdle(m, a, policy, x, p);
    var y := a.feed.composition.input;
    NeverTrading(SetupOf(a, policy), y.execution, Some(y.executionHash), hash);
  }

  /**
   * If the digests of two inputs differ and one of them can be traded, the
   * provider that trades on recognising it splits their runs.
   */
  lemma PeekingSplitsRuns(
    m: Arithmetic, one: Adapter, two: Adapter, policy: Policy, hash: RunHashes, k: nat, p: TradePlan)
    requires TrustedFeed(m, one.digests.indicators, one.feed) && Fits(one.feed)
    requires TrustedFeed(m, two.digests.indicators, two.feed) && Fits(two.feed)
    requires CarriesItsDigest(hash, one.feed.composition.input) && CarriesItsDigest(hash, two.feed.composition.input)
    requires !SameIdentity(one.feed.composition.input, two.feed.composition.input) && Allows(one, policy, k, p)
    ensures SplitsRuns(one, two, policy, hash, PeekingTrader(one.feed.composition.input, p), p.decided + 1)
  {
    hide TrustedFeed, Fits, ReadyHere, Feasible, PeekingTrader, SameIdentity, StrategyResult;
    var trader := PeekingTrader(one.feed.composition.input, p);
    SameReady(one, trader, p.decided);
    TraderTrades(m, WithProvider(one, trader), policy, hash, k, p);
    TraderIdles(m, WithProvider(two, trader), policy, hash, one.feed.composition.input, p);
  }

  lemma SameIdentityIsMutual(x: Input, y: Input)
    ensures SameIdentity(x, y) <==> SameIdentity(y, x)
  {
  }

  lemma AlikeIsMutual(one: Adapter, two: Adapter, policy: Policy, hash: RunHashes, k: nat, p: StrategyProvider)
    requires Fits(one.feed) && Fits(two.feed)
    ensures FillsAlike(one, two, policy, hash, k, p) <==> FillsAlike(two, one, policy, hash, k, p)
  {
    hide Fits, StrategyResult;
  }

  /** Of two inputs with different digests, neither may be tradable if every provider's fills are to be alike. */
  lemma TradableSplitsFills(
    m: Arithmetic, one: Adapter, two: Adapter, policy: Policy, hash: RunHashes, k: nat)
    requires TrustedFeed(m, one.digests.indicators, one.feed) && Fits(one.feed)
    requires TrustedFeed(m, two.digests.indicators, two.feed) && Fits(two.feed)
    requires CarriesItsDigest(hash, one.feed.composition.input) && CarriesItsDigest(hash, two.feed.composition.input)
    requires !SameIdentity(one.feed.composition.input, two.feed.composition.input) && Tradable(one, policy, k)
    ensures !forall p: StrategyProvider :: FillsAlike(one, two, policy, hash, k, p)
  {
    hide TrustedFeed, Fits, StrategyResult, ReadyHere, Feasible, SameIdentity, PeekingTrader, FillsAlike, SplitsRuns;
    var p: TradePlan :| Allows(one, policy, k, p);
    PeekingSplitsRuns(m, one, two, policy, hash, k, p);
    SplitIsNotAlike(one, two, policy, hash, k, PeekingTrader(one.feed.composition.input, p), p.decided + 1);
  }

  lemma FillsAreAlike(
    m: Arithmetic, one: Adapter, two: Adapter, policy: Policy, hash: RunHashes, k: nat, p: StrategyProvider)
    requires SharePast(m, one, two, k)
    requires SameIdentity(one.feed.composition.input, two.feed.composition.input)
             || (!Tradable(one, policy, k) && !Tradable(two, policy, k))
    ensures FillsAlike(one, two, policy, hash, k, p)
  {
    var a, b := WithProvider(one, p), WithProvider(two, p);
    var r, q := StrategyResult(a, policy, hash), StrategyResult(b, policy, hash);
    if r.Ok? && q.Ok? {
      if SameIdentity(one.feed.composition.input, two.feed.composition.input) {
        assert SharePast(m, a, b, k) && (k > 0 ==> Blind(a, b, k - 1));
        hide SharePast, Blind, Completed, SetupOf, StrategyResult;
        var x, y := one.feed.composition.input, two.feed.composition.input;
        StrategyCompletes(a, policy, hash, r.value);
        StrategyCompletes(b, policy, hash, q.value);
        StrategyFillsDependOnPast(
          m, a, b, policy, hash, Some(x.executionHash), Some(y.executionHash), r.value, q.value, k);
      } else {
        hide TrustedFeed, Fits, StrategyResult, SameIdentity, SameConfiguration, Allows;
        SameTradable(one, policy, k, p);
        SameTradable(two, policy, k, p);
        UntradableMakesNoFills(m, a, policy, hash, k, r.value);
        UntradableMakesNoFills(m, b, policy, hash, k, q.value);
      }
    }
  }

  lemma SameTradable(a: Adapter, policy: Policy, k: nat, p: StrategyProvider)
    ensures Tradable(WithProvider(a, p), policy, k) <==> Tradable(a, policy, k)
  {
    hide Feasible, ReadyHere;
    forall plan: TradePlan
      ensures Allows(WithProvider(a, p), policy, k, plan) <==> Allows(a, policy, k, plan)
    {
      SameReady(a, p, plan.decided);
    }
  }

  /**
   * The exact condition of no lookahead. On two inputs with the same past before
   * bar k, the completed runs of every provider make the same fills before bar k,
   * a forced close apart, exactly when the digests they are handed agree or
   * neither input can be traded before bar k.
   */
  lemma EveryProviderFillsAlike(
    m: Arithmetic, one: Adapter, two: Adapter, policy: Policy, hash: RunHashes, k: nat)
    requires SharePast(m, one, two, k)
    requires CarriesItsDigest(hash, one.feed.composition.input) && CarriesItsDigest(hash, two.feed.composition.input)
    ensures (forall p: StrategyProvider :: FillsAlike(one, two, policy, hash, k, p))
      <==> SameIdentity(one.feed.composition.input, two.feed.composition.input)
           || (!Tradable(one, policy, k) && !Tradable(two, policy, k))
  {
    hide TrustedFeed, Fits, FillsAlike, SameSetting, Tradable, SameIdentity, SamePast, SamePastAt;
    var x, y := one.feed.composition.input, two.feed.composition.input;
    SameIdentityIsMutual(x, y);
    if SameIdentity(x, y) || (!Tradable(one, policy, k) && !Tradable(two, policy, k)) {
      forall p: StrategyProvider
        ensures FillsAlike(one, two, policy, hash, k, p)
      {
        FillsAreAlike(m, one, two, policy, hash, k, p);
      }
    } else if Tradable(one, policy, k) {
      TradableSplitsFills(m, one, two, policy, hash, k);
    } else {
      TradableSplitsFills(m, two, one, policy, hash, k);
      forall p: StrategyProvider
        ensures FillsAlike(one, two, policy, hash, k, p) <==> FillsAlike(two, one, policy, hash, k, p)
      {
        AlikeIsMutual(one, two, policy, hash, k, p);
      }
    }
  }

  /** In particular nothing can be traded before bar k if no bar before k - 1 is ready. */
  lemma UnreadyIsUntradable(a: Adapter, policy: Policy, k: nat)
    requires |a.feed.composition.input.contexts| == |a.feed.composition.contextIndicators|
    requires 0 < k <= |a.feed.composition.input.execution| && FirstReady(a.feed.composition, k - 1) == k - 1
    ensures !Tradable(a, policy, k)
  {
    hide ReadyAt, Feasible;
  }

  /**
   * And something can if the close is forced, a ready bar is followed by an open
   * that fills an entry, and its exits are priced.
   */
  lemma ReadyAndFillableIsTradable(a: Adapter, policy: Policy, k: nat, order: EnterIntent, i: nat)
    requires ReadyHere(a, i) && i + 1 < k && i + 1 < |a.feed.composition.input.execution|
    requires policy.forceCloseAtEnd && order.direction in a.directions
    requires var candles := a.feed.composition.input.execution;
      && ValidateForPolicy(order, policy).Ok? && order.decisionOpenTime == candles[i].openTime
      && Fillable(policy, order, candles[i + 1].open)
      && MarketFill(policy, ExitSide(order.direction), NormalizedStop(policy, order)) > 0.0
      && MarketFill(policy, ExitSide(order.direction), NormalizedTarget(policy, order)) > 0.0
      && MarketFill(policy, ExitSide(order.direction), candles[|candles| - 1].close) > 0.0
    ensures Tradable(a, policy, k)
  {
    hide ReadyAt, Feasible, Fillable, ValidateForPolicy, MarketFill, NormalizedStop, NormalizedTarget;
    var p := FillableIsFeasible(policy, a.feed.composition.input.execution, order, i, i + 1);
    assert Allows(a, policy, k, p);
  }

  /**
   * The digests being those of the contents, the condition is that the inputs are
   * wholly the same or cannot be traded.
   */
  lemma OnlyWholeInputsFillAlike(
    m: Arithmetic, one: Adapter, two: Adapter, policy: Policy, hash: RunHashes, k: nat, h: InputHasher)
    requires SharePast(m, one, two, k) && Binds(h)
    requires CarriesItsDigest(hash, one.feed.composition.input) && CarriesItsDigest(hash, two.feed.composition.input)
    requires DecimalInput(one.feed.composition.input) && Identified(h, one.feed.composition.input)
    requires DecimalInput(two.feed.composition.input) && Identified(h, two.feed.composition.input)
    ensures (forall p: StrategyProvider :: FillsAlike(one, two, policy, hash, k, p))
      <==> SameContents(one.feed.composition.input, two.feed.composition.input)
           || (!Tradable(one, policy, k) && !Tradable(two, policy, k))
  {
    EveryProviderFillsAlike(m, one, two, policy, hash, k);
    IdentityIsContents(h, one.feed.composition.input, two.feed.composition.input);
  }

  /**
   * And so for the whole pipeline: with resampled contexts it is enough that the
   * execution bars before k are the same.
   */
  lemma PipelineFillsAlike(
    m: Arithmetic, one: Adapter, two: Adapter, policy: Policy, hash: RunHashes, k: nat)
    requires TrustedFeed(m, one.digests.indicators, one.feed) && TrustedFeed(m, two.digests.indicators, two.feed)
    requires Fits(one.feed) && Fits(two.feed) && SameSetting(one, two)
    requires ContextsAreResampled(one.feed.composition.input) && ContextsAreResampled(two.feed.composition.input)
    requires SamePast(one.feed.composition.input.execution, two.feed.composition.input.execution, k)
    requires CarriesItsDigest(hash, one.feed.composition.input) && CarriesItsDigest(hash, two.feed.composition.input)
    ensures (forall p: StrategyProvider :: FillsAlike(one, two, policy, hash, k, p))
      <==> SameIdentity(one.feed.composition.input, two.feed.composition.input)
           || (!Tradable(one, policy, k) && !Tradable(two, policy, k))
  {
    hide SharePast, TrustedFeed, Fits, SameSetting, ContextsAreResampled, FillsAlike, Tradable, SameIdentity;
    ResampledInputsSharePast(m, one, two, k);
    EveryProviderFillsAlike(m, one, two, policy, hash, k);
  }
}
