/** Two runs that share a past share every fill that past determines. */
module EngineCausality {
  import opened Results
  import opened Timeframes
  import opened Candles
  import opened Series
  import opened MathRules
  import opened Intents
  import opened Engine
  import opened EngineLedger
  import opened EngineResults

  // ---------- what the provider is shown ----------

  /** The contexts a provider has been given are the bars in order, one each. */
  predicate Follows(e: Setup, candles: seq<Candle>, contexts: seq<DecisionContext>) {
    && |contexts| <= |candles|
    && forall j | 0 <= j < |contexts| ::
         && contexts[j].candle == candles[j] && contexts[j].barIndex == j && contexts[j].candlesProcessed == j + 1
         && contexts[j].symbol == e.symbol && contexts[j].timeframe == e.timeframe
  }

  lemma {:induction false} ContextsFollowBars(e: Setup, candles: seq<Candle>, n: nat)
    requires n <= |candles| && RunBars(e, candles, n).Ok?
    ensures var contexts := RunBars(e, candles, n).value.contexts;
      |contexts| == n && Follows(e, candles, contexts)
  {
    hide Bar;
    if n > 0 {
      ContextsFollowBars(e, candles, n - 1);
      BarContexts(e, RunBars(e, candles, n - 1).value, candles[n - 1], n - 1);
    }
  }

  lemma BarContexts(e: Setup, s: Ledger, candle: Candle, n: nat)
    requires Bar(e, s, candle, n).Ok?
    ensures var after := Bar(e, s, candle, n).value.contexts;
      && |after| == |s.contexts| + 1 && after[..|s.contexts|] == s.contexts
      && var c := after[|s.contexts|];
      && c.candle == candle && c.barIndex == n && c.candlesProcessed == n + 1
      && c.symbol == e.symbol && c.timeframe == e.timeframe
  {
  }

  /** The context of a bar shows the ledger as that bar's fills left it. */
  predicate ShowsLedger(c: DecisionContext, s: Ledger) {
    && c.position == (match s.position case None => None case Some(p) => Some(p.snapshot))
    && c.realizedEquity == s.equity
    && c.lastClosedTrade == if s.trades == [] then None else Some(s.trades[|s.trades| - 1])
  }

  /**
   * At bar b the provider is shown the open position, the realised equity and the
   * last closed trade of the run after the fills of bar b, in longer runs too.
   */
  lemma {:induction false} ContextsShowTheLedger(e: Setup, candles: seq<Candle>, n: nat, b: nat)
    requires b < n <= |candles| && RunBars(e, candles, n).Ok?
    ensures RunBars(e, candles, b + 1).Ok? && |RunBars(e, candles, n).value.contexts| == n
    ensures ShowsLedger(RunBars(e, candles, n).value.contexts[b], RunBars(e, candles, b + 1).value)
  {
    ContextsFollowBars(e, candles, n - 1);
    hide Bar, ShowsLedger, Follows;
    BarContexts(e, RunBars(e, candles, n - 1).value, candles[n - 1], n - 1);
    if b < n - 1 {
      ContextsShowTheLedger(e, candles, n - 1, b);
    } else {
      BarShowsItsLedger(e, RunBars(e, candles, b).value, candles[b], b);
    }
  }

  lemma BarShowsItsLedger(e: Setup, s: Ledger, candle: Candle, n: nat)
    requires Bar(e, s, candle, n).Ok?
    ensures var after := Bar(e, s, candle, n).value;
      |after.contexts| == |s.contexts| + 1 && ShowsLedger(after.contexts[|s.contexts|], after)
  {
    hide AtOpen, Protect, SelectIntent;
    var atOpen := AtOpen(e.policy, s, candle, n).value;
    ContextsWait(e.policy, s, candle, n);
    ContextsWait(e.policy, atOpen, candle, n);
  }

  /** Only the decision records a context. */
  lemma ContextsWait(policy: Policy, s: Ledger, candle: Candle, i: nat)
    ensures AtOpen(policy, s, candle, i).Ok? ==> AtOpen(policy, s, candle, i).value.contexts == s.contexts
    ensures Protect(policy, s, candle, i).Ok? ==> Protect(policy, s, candle, i).value.contexts == s.contexts
  {
    hide ExecuteEntry, ExecuteExit, EvaluateProtective;
  }

  /** Same instrument and policy, and providers that answer alike when shown the first k of these bars. */
  ghost predicate SameStrategy(one: Setup, two: Setup, candles: seq<Candle>, k: nat) {
    && one.symbol == two.symbol && one.timeframe == two.timeframe && one.policy == two.policy
    && forall h: seq<DecisionContext> {:trigger one.provider(h)} {:trigger two.provider(h)} |
         |h| <= k && Follows(one, candles, h) :: one.provider(h) == two.provider(h)
  }

  /** The first k bars are the same. */
  predicate SamePast(a: seq<Candle>, b: seq<Candle>, k: nat) {
    k <= |a| && k <= |b| && forall i | 0 <= i < k :: a[i] == b[i]
  }

  /** The ledger after k bars is a function of those k bars. */
  lemma {:induction false} LedgerDependsOnPast(one: Setup, two: Setup, a: seq<Candle>, b: seq<Candle>, k: nat)
    requires SamePast(a, b, k) && SameStrategy(one, two, a, k)
    ensures RunBars(one, a, k) == RunBars(two, b, k)
  {
    hide Bar, Follows;
    if k > 0 {
      var i := k - 1;
      LedgerDependsOnPast(one, two, a, b, i);
      if RunBars(one, a, i).Ok? {
        ContextsFollowBars(one, a, i);
        SameBar(one, two, a, RunBars(one, a, i).value, i);
      }
    }
  }

  lemma SameBar(one: Setup, two: Setup, candles: seq<Candle>, s: Ledger, i: nat)
    requires i < |candles| && SameStrategy(one, two, candles, i + 1)
    requires |s.contexts| == i && Follows(one, candles, s.contexts)
    ensures Bar(one, s, candles[i], i) == Bar(two, s, candles[i], i)
  {
    hide ExecuteEntry, ExecuteExit, SelectIntent;
  }

  // ---------- fills are never revised ----------

  /** What one bar adds: at most an open fill, then at most a protective one. */
  lemma BarAddsFills(e: Setup, s: Ledger, candle: Candle, n: nat)
    requires Bar(e, s, candle, n).Ok?
    ensures AtOpen(e.policy, s, candle, n).Ok?
    ensures var atOpen, after := AtOpen(e.policy, s, candle, n).value.fills, Bar(e, s, candle, n).value.fills;
      && s.fills <= atOpen <= after
      && (forall j | |s.fills| <= j < |after| :: after[j].barIndex == n)
      && (forall j | |s.fills| <= j < |atOpen| :: atOpen[j].reason.MarketEntry? || atOpen[j].reason.ExplicitExit?)
      && (forall j | |atOpen| <= j < |after| :: after[j].reason.StopLoss? || after[j].reason.TakeProfit?)
  {
    hide SelectIntent, MarketFill, Slipped, ComputeFee;
  }

  /** A longer run keeps every fill of a shorter one and adds only fills of later bars. */
  lemma {:induction false} FillsOnlyGrow(e: Setup, candles: seq<Candle>, k: nat, n: nat)
    requires k <= n <= |candles| && RunBars(e, candles, n).Ok?
    ensures RunBars(e, candles, k).Ok?
    ensures var early, late := RunBars(e, candles, k).value.fills, RunBars(e, candles, n).value.fills;
      early <= late && forall j | |early| <= j < |late| :: late[j].barIndex >= k
  {
    hide Bar;
    if k < n {
      FillsOnlyGrow(e, candles, k, n - 1);
      BarAddsFills(e, RunBars(e, candles, n - 1).value, candles[n - 1], n - 1);
    }
  }

  /** The fills of a completed run are those of its bars, then at most a forced close. */
  lemma CompletedFills(
    e: Setup, candles: seq<Candle>, expectedHash: Option<string>, hash: RunHashes, r: BacktestResult)
    requires Completed(e, candles, expectedHash, hash, r)
    ensures candles != [] && RunBars(e, candles, |candles|).Ok?
    ensures var fills := RunBars(e, candles, |candles|).value.fills;
      fills <= r.fills && forall j | |fills| <= j < |r.fills| :: r.fills[j].reason.EndOfData?
  {
    hide Bar, FirstDefect, PlacedAt, IsAligned, MarketFill, Slipped, ComputeFee;
    NoDefectMeansCanonical(candles, e.timeframe);
  }

  // ---------- no lookahead ----------

  /** A fill before bar k that is not a forced close. */
  predicate Settled(f: Fill, k: nat) {
    f.barIndex < k && !f.reason.EndOfData?
  }

  /** The same fills before bar k, a forced close apart. */
  predicate SameFillsBefore(a: seq<Fill>, b: seq<Fill>, k: nat) {
    && (forall j | 0 <= j < |a| && Settled(a[j], k) :: j < |b| && b[j] == a[j])
    && (forall j | 0 <= j < |b| && Settled(b[j], k) :: j < |a| && a[j] == b[j])
  }

  /** What a bar fills does not depend on what is decided at its close. */
  lemma FillsPrecedeTheDecision(one: Setup, two: Setup, s: Ledger, candle: Candle, n: nat)
    requires one.policy == two.policy && Bar(one, s, candle, n).Ok? && Bar(two, s, candle, n).Ok?
    ensures Bar(one, s, candle, n).value.fills == Bar(two, s, candle, n).value.fills
  {
    hide AtOpen, Protect, SelectIntent;
  }

  lemma SameFillsAfter(one: Setup, two: Setup, a: seq<Candle>, b: seq<Candle>, k: nat)
    requires SamePast(a, b, k) && (k > 0 ==> SameStrategy(one, two, a, k - 1))
    requires RunBars(one, a, k).Ok? && RunBars(two, b, k).Ok?
    ensures RunBars(one, a, k).value.fills == RunBars(two, b, k).value.fills
  {
    hide Bar, Follows;
    if k > 0 {
      LedgerDependsOnPast(one, two, a, b, k - 1);
      FillsPrecedeTheDecision(one, two, RunBars(one, a, k - 1).value, a[k - 1], k - 1);
    }
  }

  /**
   * If two series agree on their first k bars and the providers answer alike on
   * all of those but the last, the two runs make the same fills before bar k, a
   * forced close apart.
   */
  lemma FillsDependOnPast(
    one: Setup, a: seq<Candle>, r: BacktestResult, two: Setup, b: seq<Candle>, q: BacktestResult,
    expectedHash: Option<string>, otherHash: Option<string>, hash: RunHashes, k: nat)
    requires Completed(one, a, expectedHash, hash, r) && Completed(two, b, otherHash, hash, q)
    requires SamePast(a, b, k) && (k > 0 ==> SameStrategy(one, two, a, k - 1))
    ensures SameFillsBefore(r.fills, q.fills, k)
  {
    hide RunResult, Bar, AtEnd, SameStrategy;
    CompletedFills(one, a, expectedHash, hash, r);
    CompletedFills(two, b, otherHash, hash, q);
    FillsOnlyGrow(one, a, k, |a|);
    FillsOnlyGrow(two, b, k, |b|);
    SameFillsAfter(one, two, a, b, k);
  }

  /** A ledger can be closed off exactly when it is flat, or its position may be forced closed at a positive price. */
  predicate CanEnd(policy: Policy, s: Ledger, candles: seq<Candle>)
    requires candles != []
  {
    s.position.None? || (
      && policy.forceCloseAtEnd
      && MarketFill(policy, ExitSide(s.position.value.snapshot.direction), candles[|candles| - 1].close) > 0.0)
  }

  lemma EndsExactly(policy: Policy, s: Ledger, candles: seq<Candle>)
    requires candles != []
    ensures AtEnd(policy, s, candles).Ok? <==> CanEnd(policy, s, candles)
  {
    hide MarketFill, Slipped, ComputeFee;
  }

  lemma PrefixLedger(e: Setup, candles: seq<Candle>, k: nat)
    requires k <= |candles| && RunBars(e, candles, |candles|).Ok?
    ensures RunBars(e, candles, k).Ok? && RunBars(e, candles[..k], k) == RunBars(e, candles, k)
  {
    hide Bar, SameStrategy;
    FillsOnlyGrow(e, candles, k, |candles|);
    assert SameStrategy(e, e, candles, k) by { SameAsItself(e, candles, k); }
    LedgerDependsOnPast(e, e, candles, candles[..k], k);
  }

  /**
   * Cutting a completed run short: the run on the first k bars completes exactly
   * when it is flat there, or may force its position closed at a positive price.
   */
  lemma PrefixRunCompletes(
    e: Setup, candles: seq<Candle>, r: BacktestResult, k: nat, expectedHash: Option<string>, hash: RunHashes)
    requires k <= |candles| && Completed(e, candles, expectedHash, hash, r)
    ensures RunBars(e, candles, k).Ok?
    ensures RunResult(e, candles[..k], None, hash).Ok?
      <==> k > 0 && CanEnd(e.policy, RunBars(e, candles, k).value, candles[..k])
  {
    CompletedFills(e, candles, expectedHash, hash, r);
    PrefixLedger(e, candles, k);
    if k > 0 {
      PrefixHasNoDefect(e.timeframe, candles, k);
      EndsExactly(e.policy, RunBars(e, candles, k).value, candles[..k]);
    }
    hide RunBars, AtEnd, CanEnd, Drawdown, IsAligned, PlacedAt, BuildSummary;
  }

  lemma PrefixHasNoDefect(timeframe: Timeframe, candles: seq<Candle>, k: nat)
    requires FirstDefect(candles, timeframe) == None && 0 < k <= |candles|
    ensures FirstDefect(candles[..k], timeframe) == None
  {
    hide IsAligned;
    NoDefectMeansCanonical(candles, timeframe);
    NoDefectMeansCanonical(candles[..k], timeframe);
    forall i: nat | i < k
      ensures PlacedAt(candles[..k], timeframe, i)
    {
      assert PlacedAt(candles, timeframe, i);
    }
  }

  /** Dropping a final forced close, if there is one. */
  function LessForcedClose(fills: seq<Fill>): seq<Fill> {
    if fills != [] && fills[|fills| - 1].reason.EndOfData? then fills[..|fills| - 1] else fills
  }

  /** The run on a prefix, its forced close apart, is a prefix of the run on the whole. */
  lemma PrefixRunIsPrefix(
    e: Setup, candles: seq<Candle>, r: BacktestResult, k: nat, q: BacktestResult,
    expectedHash: Option<string>, prefixHash: Option<string>, hash: RunHashes)
    requires k <= |candles|
    requires Completed(e, candles, expectedHash, hash, r) && Completed(e, candles[..k], prefixHash, hash, q)
    ensures LessForcedClose(q.fills) <= r.fills
  {
    hide RunResult, Bar, Exited;
    CompletedFills(e, candles, expectedHash, hash, r);
    FillsOnlyGrow(e, candles, k, |candles|);
    PrefixLedger(e, candles, k);
    AtMostOneForcedClose(e, candles[..k], prefixHash, hash, q);
  }

  lemma SameAsItself(e: Setup, candles: seq<Candle>, k: nat)
    ensures SameStrategy(e, e, candles, k)
  {
  }

  lemma AtMostOneForcedClose(
    e: Setup, candles: seq<Candle>, expectedHash: Option<string>, hash: RunHashes, r: BacktestResult)
    requires Completed(e, candles, expectedHash, hash, r)
    ensures RunBars(e, candles, |candles|).Ok?
    ensures LessForcedClose(r.fills) <= RunBars(e, candles, |candles|).value.fills
  {
    hide Bar, FirstDefect, PlacedAt, IsAligned, MarketFill, Slipped, ComputeFee;
    NoDefectMeansCanonical(candles, e.timeframe);
  }

  /** An open fill reads nothing of its bar but the open. */
  lemma OpenReadsOnlyTheOpen(policy: Policy, s: Ledger, c: Candle, d: Candle, n: nat)
    requires c.open == d.open && c.openTime == d.openTime
    ensures AtOpen(policy, s, c, n) == AtOpen(policy, s, d, n)
  {
    hide ExecuteEntry, ExecuteExit;
    match s.pending
    case None =>
    case Some(Enter(e)) => EntryReadsOnlyTheOpen(policy, e, c, d, n, s.fillSeq + 1, s.positionSeq + 1, s.equity);
    case Some(Exit(x)) =>
      if s.position.Some? {
        ExitReadsOnlyTheOpen(
          policy, s.position.value, Some(x.intentId), c, d, n, s.fillSeq + 1, s.tradeSeq + 1, s.equity);
      }
  }

  lemma EntryReadsOnlyTheOpen(
    policy: Policy, e: EnterIntent, c: Candle, d: Candle, n: nat, fillSeq: nat, positionSeq: nat, equity: real)
    requires c.open == d.open && c.openTime == d.openTime
    ensures ExecuteEntry(policy, e, c, n, fillSeq, positionSeq, equity)
      == ExecuteEntry(policy, e, d, n, fillSeq, positionSeq, equity)
  {
  }

  lemma ExitReadsOnlyTheOpen(
    policy: Policy, position: OpenPosition, id: Option<string>, c: Candle, d: Candle, n: nat,
    fillSeq: nat, tradeSeq: nat, equity: real)
    requires c.open == d.open && c.openTime == d.openTime
    ensures ExecuteExit(policy, position, id, c, n, fillSeq, tradeSeq, ExplicitExit, c.open, equity, false)
      == ExecuteExit(policy, position, id, d, n, fillSeq, tradeSeq, ExplicitExit, d.open, equity, false)
  {
  }

  /**
   * Entries and explicit exits at bar k are decided before bar k trades: changing
   * its high, low or close, or anything later, leaves them as they were.
   */
  lemma OpenFillsIgnoreTheirBar(
    one: Setup, a: seq<Candle>, r: BacktestResult, two: Setup, b: seq<Candle>, q: BacktestResult,
    expectedHash: Option<string>, otherHash: Option<string>, hash: RunHashes, k: nat)
    requires Completed(one, a, expectedHash, hash, r) && Completed(two, b, otherHash, hash, q)
    requires SamePast(a, b, k) && SameStrategy(one, two, a, k)
    requires k < |a| && k < |b| && a[k].open == b[k].open && a[k].openTime == b[k].openTime
    ensures forall j | 0 <= j < |r.fills| && r.fills[j].barIndex == k
                       && (r.fills[j].reason.MarketEntry? || r.fills[j].reason.ExplicitExit?) ::
              j < |q.fills| && q.fills[j] == r.fills[j]
  {
    hide RunResult, Bar, AtEnd, AtOpen, Follows;
    CompletedFills(one, a, expectedHash, hash, r);
    CompletedFills(two, b, otherHash, hash, q);
    LedgerDependsOnPast(one, two, a, b, k);
    OpenFillsUpTo(one, a, k);
    OpenFillsUpTo(two, b, k);
    OpenReadsOnlyTheOpen(one.policy, RunBars(one, a, k).value, a[k], b[k], k);
  }

  /** Of the fills up to bar k, the open fills are exactly those made by bar k's open. */
  lemma OpenFillsUpTo(e: Setup, candles: seq<Candle>, k: nat)
    requires k < |candles| && RunBars(e, candles, |candles|).Ok?
    ensures RunBars(e, candles, k).Ok? && AtOpen(e.policy, RunBars(e, candles, k).value, candles[k], k).Ok?
    ensures var atOpen := AtOpen(e.policy, RunBars(e, candles, k).value, candles[k], k).value.fills;
      var fills := RunBars(e, candles, |candles|).value.fills;
      atOpen <= fills && forall j | |atOpen| <= j < |fills| ::
        fills[j].barIndex > k || fills[j].reason.StopLoss? || fills[j].reason.TakeProfit?
  {
    hide Bar, AtOpen;
    FillsOnlyGrow(e, candles, k + 1, |candles|);
    BarAddsFills(e, RunBars(e, candles, k).value, candles[k], k);
  }
}
