/**
 * Every fill at an open carries out the intent the provider returned one bar
 * earlier, and every intent is carried out.
 */
module EngineOrders {
  import opened Results
  import opened Candles
  import opened Series
  import opened MathRules
  import opened Intents
  import opened Engine
  import opened EngineLedger
  import opened EngineResults
  import opened EngineCausality

  // ---------- what the provider ordered ----------

  /** The one intent of a reply, if the reply is a tuple of exactly one. */
  function OrderIn(reply: ProviderReply): Option<Intent> {
    if reply.Items? && |reply.items| == 1 && reply.items[0].Known? then Some(reply.items[0].intent) else None
  }

  /** orders[b] is what the reply at bar b - 1 asks of bar b. */
  ghost function OrdersOf(provider: Provider, contexts: seq<DecisionContext>): (orders: seq<Option<Intent>>)
    ensures |orders| == |contexts| + 1
  {
    seq(|contexts| + 1, b requires 0 <= b <= |contexts| => if b == 0 then None else OrderIn(provider(contexts[..b])))
  }

  /** An open at which the entry is executed: its fill price, notional and bracket are acceptable. */
  predicate Fillable(policy: Policy, x: EnterIntent, open: real) {
    var price := MarketFill(policy, EntrySide(x.direction), open);
    && 0.0 < price && 0.0 < x.stopLoss && 0.0 < x.takeProfit
    && Bracketed(x.direction, price, x.stopLoss, x.takeProfit)
    && policy.minimumNotional <= Notional(price, x.quantity)
    && 0.0 < NormalizedStop(policy, x) && 0.0 < NormalizedTarget(policy, x)
    && Bracketed(x.direction, price, NormalizedStop(policy, x), NormalizedTarget(policy, x))
  }

  /** The entry fill and the bracket it opened are those of the intent, and acceptable at this open. */
  predicate CarriesOut(policy: Policy, candles: seq<Candle>, f: Fill, x: EnterIntent) {
    && f.reason.MarketEntry? && f.intentId == Some(x.intentId)
    && f.direction == x.direction && f.side == EntrySide(x.direction) && f.quantity == x.quantity
    && f.barIndex < |candles| && f.referencePrice == candles[f.barIndex].open
    && f.fillTime == candles[f.barIndex].openTime
    && Fillable(policy, x, f.referencePrice) && policy.minimumNotional <= f.notional
  }

  /** The fill of its bar's order, or a protective or forced exit that no intent asked for. */
  predicate FollowsOrder(policy: Policy, candles: seq<Candle>, orders: seq<Option<Intent>>, f: Fill, m: nat) {
    match f.reason
    case MarketEntry =>
      && 1 <= f.barIndex < m <= |orders|
      && orders[f.barIndex].Some? && orders[f.barIndex].value.Enter?
      && CarriesOut(policy, candles, f, orders[f.barIndex].value.enter)
    case ExplicitExit =>
      && 1 <= f.barIndex < m <= |orders|
      && orders[f.barIndex].Some? && orders[f.barIndex].value.Exit?
      && f.intentId == Some(orders[f.barIndex].value.exit.intentId)
      && f.barIndex < |candles| && f.referencePrice == candles[f.barIndex].open
    case _ => f.intentId.None?
  }

  predicate IsAt(fills: seq<Fill>, j: nat, b: nat, reason: FillReason) {
    j < |fills| && fills[j].barIndex == b && fills[j].reason == reason
  }

  ghost predicate FilledAt(fills: seq<Fill>, b: nat, reason: FillReason) {
    exists j: nat :: IsAt(fills, j, b, reason)
  }

  ghost predicate Executed(orders: seq<Option<Intent>>, fills: seq<Fill>, b: nat)
    requires b < |orders|
  {
    match orders[b]
    case None => true
    case Some(Enter(_)) => FilledAt(fills, b, MarketEntry)
    case Some(Exit(_)) => FilledAt(fills, b, ExplicitExit)
  }

  /** The bracket of a position or trade is the tick-normalised bracket of the intent that opened it. */
  predicate BracketOf(policy: Policy, orders: seq<Option<Intent>>, entry: Fill, stop: real, target: real) {
    && entry.barIndex < |orders| && orders[entry.barIndex].Some? && orders[entry.barIndex].value.Enter?
    && stop == NormalizedStop(policy, orders[entry.barIndex].value.enter)
    && target == NormalizedTarget(policy, orders[entry.barIndex].value.enter)
  }

  /** After the opens of the first m bars, fills, trades and the position follow the orders. */
  ghost predicate Obeys(policy: Policy, candles: seq<Candle>, orders: seq<Option<Intent>>, s: Ledger, m: nat) {
    && m <= |orders|
    && (forall j: nat | j < |s.fills| :: FollowsOrder(policy, candles, orders, s.fills[j], m))
    && (forall b: nat | b < m :: Executed(orders, s.fills, b))
    && |s.fills| == 2 * |s.trades| + Open(s)
    && (forall t: nat | t < |s.trades| ::
          BracketOf(policy, orders, s.fills[2 * t], s.trades[t].stopLoss, s.trades[t].takeProfit))
    && (s.position.Some? ==>
          BracketOf(
            policy, orders, s.fills[|s.fills| - 1],
            s.position.value.snapshot.stopLoss, s.position.value.snapshot.takeProfit))
  }

  // ---------- each phase keeps it ----------

  lemma FilledStays(fills: seq<Fill>, f: Fill, b: nat, reason: FillReason)
    requires FilledAt(fills, b, reason)
    ensures FilledAt(fills + [f], b, reason)
  {
    var j: nat :| IsAt(fills, j, b, reason);
    assert IsAt(fills + [f], j, b, reason);
  }

  lemma ExecutedStays(orders: seq<Option<Intent>>, fills: seq<Fill>, f: Fill, b: nat)
    requires b < |orders| && Executed(orders, fills, b)
    ensures Executed(orders, fills + [f], b)
  {
    match orders[b]
    case None =>
    case Some(Enter(_)) => FilledStays(fills, f, b, MarketEntry);
    case Some(Exit(_)) => FilledStays(fills, f, b, ExplicitExit);
  }

  lemma NewFillIsAt(fills: seq<Fill>, f: Fill)
    ensures FilledAt(fills + [f], f.barIndex, f.reason)
  {
    assert IsAt(fills + [f], |fills|, f.barIndex, f.reason);
  }

  /** An entry is executed exactly at the opens where it is fillable. */
  lemma EntryIsExact(
    policy: Policy, x: EnterIntent, candle: Candle, n: nat, fillSeq: nat, positionSeq: nat, equity: real)
    ensures ExecuteEntry(policy, x, candle, n, fillSeq, positionSeq, equity).Ok? <==> Fillable(policy, x, candle.open)
  {
    hide MarketFill, Slipped, ComputeFee, NormalizedStop, NormalizedTarget, Notional;
  }

  /** The facts of an entry execution. */
  lemma EntryCarriesOut(
    policy: Policy, x: EnterIntent, candles: seq<Candle>, n: nat, fillSeq: nat, positionSeq: nat, equity: real)
    requires n < |candles| && ExecuteEntry(policy, x, candles[n], n, fillSeq, positionSeq, equity).Ok?
    ensures var (f, entered, _) := ExecuteEntry(policy, x, candles[n], n, fillSeq, positionSeq, equity).value;
      && CarriesOut(policy, candles, f, x) && f.barIndex == n
      && entered.snapshot.stopLoss == NormalizedStop(policy, x)
      && entered.snapshot.takeProfit == NormalizedTarget(policy, x)
  {
    EntryIsExact(policy, x, candles[n], n, fillSeq, positionSeq, equity);
    hide MarketFill, Slipped, ComputeFee, NormalizedStop, NormalizedTarget, Fillable, Notional;
  }

  /** The facts of an exit execution. */
  lemma ExitIsRecorded(
    policy: Policy, p: OpenPosition, id: Option<string>, candle: Candle, n: nat, fillSeq: nat, tradeSeq: nat,
    reason: FillReason, reference: real, equity: real, ambiguity: bool)
    requires ExecuteExit(policy, p, id, candle, n, fillSeq, tradeSeq, reason, reference, equity, ambiguity).Ok?
    ensures var (f, trade, _) :=
        ExecuteExit(policy, p, id, candle, n, fillSeq, tradeSeq, reason, reference, equity, ambiguity).value;
      && f.intentId == id && f.reason == reason && f.barIndex == n && f.referencePrice == reference
      && trade.stopLoss == p.snapshot.stopLoss && trade.takeProfit == p.snapshot.takeProfit
  {
    hide MarketFill, Slipped, ComputeFee;
  }

  /** Nothing yet asked of bar m: one more bar opened changes nothing else. */
  lemma WaitingObeys(policy: Policy, candles: seq<Candle>, orders: seq<Option<Intent>>, s: Ledger, m: nat)
    requires Obeys(policy, candles, orders, s, m) && m < |orders| && orders[m].None?
    ensures Obeys(policy, candles, orders, s, m + 1)
  {
    hide CarriesOut, BracketOf;
  }

  lemma EnteringObeys(
    policy: Policy, candles: seq<Candle>, orders: seq<Option<Intent>>, s: Ledger, f: Fill, entered: OpenPosition,
    equity: real, x: EnterIntent, m: nat)
    requires Obeys(policy, candles, orders, s, m) && 1 <= m < |orders|
    requires orders[m] == Some(Enter(x)) && s.position.None?
    requires CarriesOut(policy, candles, f, x) && f.barIndex == m
    requires entered.snapshot.stopLoss == NormalizedStop(policy, x)
    requires entered.snapshot.takeProfit == NormalizedTarget(policy, x)
    ensures Obeys(policy, candles, orders, s.Opened(f, entered, equity), m + 1)
  {
    hide Executed, NormalizedStop, NormalizedTarget;
    forall b: nat | b < m
      ensures Executed(orders, s.fills + [f], b)
    {
      ExecutedStays(orders, s.fills, f, b);
    }
    EntryExecuted(orders, s.fills, f, m, x);
  }

  lemma EntryExecuted(orders: seq<Option<Intent>>, fills: seq<Fill>, f: Fill, m: nat, x: EnterIntent)
    requires m < |orders| && orders[m] == Some(Enter(x)) && f.barIndex == m && f.reason.MarketEntry?
    ensures Executed(orders, fills + [f], m)
  {
    NewFillIsAt(fills, f);
  }

  lemma ExitExecuted(orders: seq<Option<Intent>>, fills: seq<Fill>, f: Fill, m: nat, y: ExitIntent)
    requires m < |orders| && orders[m] == Some(Exit(y)) && f.barIndex == m && f.reason.ExplicitExit?
    ensures Executed(orders, fills + [f], m)
  {
    NewFillIsAt(fills, f);
  }

  /** Closing: `m` is the bound before, `bound` the bound after the exit. */
  lemma ClosingObeys(
    policy: Policy, candles: seq<Candle>, orders: seq<Option<Intent>>, s: Ledger, f: Fill, trade: Trade, equity: real,
    m: nat, bound: nat)
    requires Obeys(policy, candles, orders, s, m) && m <= bound <= m + 1 && bound <= |orders| && s.position.Some?
    requires FollowsOrder(policy, candles, orders, f, bound)
    requires bound == m + 1 ==> Executed(orders, s.fills + [f], m)
    requires trade.stopLoss == s.position.value.snapshot.stopLoss
    requires trade.takeProfit == s.position.value.snapshot.takeProfit
    ensures Obeys(policy, candles, orders, s.Closed(f, trade, equity), bound)
  {
    hide Executed, CarriesOut, BracketOf;
    var after := s.Closed(f, trade, equity);
    forall b: nat | b < m
      ensures Executed(orders, s.fills + [f], b)
    {
      ExecutedStays(orders, s.fills, f, b);
    }
    forall t: nat | t < |after.trades|
      ensures BracketOf(policy, orders, after.fills[2 * t], after.trades[t].stopLoss, after.trades[t].takeProfit)
    {
      if t < |s.trades| {
        assert after.trades[t] == s.trades[t] && after.fills[2 * t] == s.fills[2 * t];
      }
    }
    forall j: nat | j < |after.fills|
      ensures FollowsOrder(policy, candles, orders, after.fills[j], bound)
    {
      if j < |s.fills| { assert FollowsOrder(policy, candles, orders, s.fills[j], m); }
    }
  }

  /** The open of bar n carries out exactly the pending order. */
  lemma OpenObeys(policy: Policy, candles: seq<Candle>, orders: seq<Option<Intent>>, s: Ledger, n: nat)
    requires n < |candles| && Obeys(policy, candles, orders, s, n) && |orders| == n + 1
    requires s.pending == orders[n] && (n == 0 ==> orders[0].None?)
    requires AtOpen(policy, s, candles[n], n).Ok?
    ensures Obeys(policy, candles, orders, AtOpen(policy, s, candles[n], n).value, n + 1)
  {
    hide ExecuteEntry, ExecuteExit, Obeys, Executed;
    match s.pending
    case None => WaitingObeys(policy, candles, orders, s, n);
    case Some(Enter(x)) =>
      EntryCarriesOut(policy, x, candles, n, s.fillSeq + 1, s.positionSeq + 1, s.equity);
      var (f, entered, equity) :=
        ExecuteEntry(policy, x, candles[n], n, s.fillSeq + 1, s.positionSeq + 1, s.equity).value;
      EnteringObeys(policy, candles, orders, s, f, entered, equity, x, n);
    case Some(Exit(y)) =>
      var p := s.position.value;
      ExitIsRecorded(
        policy, p, Some(y.intentId), candles[n], n, s.fillSeq + 1, s.tradeSeq + 1, ExplicitExit, candles[n].open,
        s.equity, false);
      var (f, trade, equity) := ExecuteExit(
        policy, p, Some(y.intentId), candles[n], n, s.fillSeq + 1, s.tradeSeq + 1, ExplicitExit, candles[n].open,
        s.equity, false).value;
      ExitExecuted(orders, s.fills, f, n, y);
      ClosingObeys(policy, candles, orders, s, f, trade, equity, n, n + 1);
  }

  /** A protective or forced exit answers to no order. */
  lemma UnorderedExitObeys(
    policy: Policy, candles: seq<Candle>, orders: seq<Option<Intent>>, s: Ledger, candle: Candle, n: nat, m: nat,
    reason: FillReason, reference: real, ambiguity: bool)
    requires Obeys(policy, candles, orders, s, m) && s.position.Some?
    requires reason.StopLoss? || reason.TakeProfit? || reason.EndOfData?
    requires Exited(policy, s, s.position.value, None, candle, n, reason, reference, ambiguity).Ok?
    ensures Obeys(
              policy, candles, orders,
              Exited(policy, s, s.position.value, None, candle, n, reason, reference, ambiguity).value, m)
  {
    hide ExecuteExit, Executed;
    var p := s.position.value;
    ExitIsRecorded(policy, p, None, candle, n, s.fillSeq + 1, s.tradeSeq + 1, reason, reference, s.equity, ambiguity);
    var (f, trade, equity) := ExecuteExit(
      policy, p, None, candle, n, s.fillSeq + 1, s.tradeSeq + 1, reason, reference, s.equity, ambiguity).value;
    ClosingObeys(policy, candles, orders, s, f, trade, equity, m, m);
  }

  lemma ProtectObeys(policy: Policy, candles: seq<Candle>, orders: seq<Option<Intent>>, s: Ledger, n: nat, m: nat)
    requires n < |candles| && Obeys(policy, candles, orders, s, m) && Protect(policy, s, candles[n], n).Ok?
    ensures Obeys(policy, candles, orders, Protect(policy, s, candles[n], n).value, m)
  {
    hide Exited, Obeys;
    if s.position.Some? {
      var trigger := EvaluateProtective(s.position.value.snapshot, candles[n]);
      if trigger.Some? {
        UnorderedExitObeys(
          policy, candles, orders, s, candles[n], n, m, trigger.value.0, trigger.value.1, trigger.value.2);
      }
    }
  }

  /** A new order asks nothing of the bars before it. */
  lemma MoreOrdersObey(
    policy: Policy, candles: seq<Candle>, orders: seq<Option<Intent>>, next: Option<Intent>, s: Ledger, m: nat)
    requires Obeys(policy, candles, orders, s, m)
    ensures Obeys(policy, candles, orders + [next], s, m)
  {
    hide CarriesOut, NormalizedStop, NormalizedTarget, FilledAt;
    forall b: nat | b < m
      ensures Executed(orders + [next], s.fills, b)
    {
      assert Executed(orders, s.fills, b);
    }
    forall j: nat | j < |s.fills|
      ensures FollowsOrder(policy, candles, orders + [next], s.fills[j], m)
    {
      assert FollowsOrder(policy, candles, orders, s.fills[j], m);
    }
    forall t: nat | t < |s.trades|
      ensures BracketOf(policy, orders + [next], s.fills[2 * t], s.trades[t].stopLoss, s.trades[t].takeProfit)
    {
      assert BracketOf(policy, orders, s.fills[2 * t], s.trades[t].stopLoss, s.trades[t].takeProfit);
    }
  }

  // ---------- whole runs ----------

  /** What a run that goes on has accepted: no intent, or one valid for this bar and this position. */
  predicate Accepted(policy: Policy, reply: ProviderReply, decided: Candle) {
    && reply.Items?
    && (match OrderIn(reply)
        case None => reply.items == []
        case Some(Enter(x)) => ValidateForPolicy(x, policy).Ok? && x.decisionOpenTime == decided.openTime
        case Some(Exit(y)) => ValidateIntentId(y.intentId).Ok? && y.decisionOpenTime == decided.openTime)
  }

  lemma SelectionIsTheOrder(policy: Policy, reply: ProviderReply, candle: Candle, hasPosition: bool)
    requires SelectIntent(policy, reply, candle.openTime, hasPosition).Ok?
    ensures SelectIntent(policy, reply, candle.openTime, hasPosition).value == OrderIn(reply)
    ensures Accepted(policy, reply, candle)
  {
    hide ValidateForPolicy, ValidateIntentId;
  }

  /** After n bars the ledger follows every order but the last, which is pending, and every reply was acceptable. */
  lemma {:induction false} BarsObey(e: Setup, candles: seq<Candle>, n: nat)
    requires n <= |candles| && RunBars(e, candles, n).Ok?
    ensures var s := RunBars(e, candles, n).value;
      && |s.contexts| == n
      && Obeys(e.policy, candles, OrdersOf(e.provider, s.contexts), s, n)
      && s.pending == OrdersOf(e.provider, s.contexts)[n]
      && forall b: nat {:trigger s.contexts[..b]} | 1 <= b <= n ::
           Accepted(e.policy, e.provider(s.contexts[..b]), candles[b - 1])
  {
    if n == 0 {
      StartObeys(e, candles);
    } else {
      BarsObey(e, candles, n - 1);
      hide Obeys, AtOpen, Protect, Accepted;
      BarObeys(e, candles, RunBars(e, candles, n - 1).value, n - 1);
    }
  }

  lemma StartObeys(e: Setup, candles: seq<Candle>)
    ensures var s := Start(e.policy);
      && Obeys(e.policy, candles, OrdersOf(e.provider, s.contexts), s, 0)
      && s.pending == OrdersOf(e.provider, s.contexts)[0]
  {
  }

  lemma BarObeys(e: Setup, candles: seq<Candle>, s: Ledger, n: nat)
    requires n < |candles| && |s.contexts| == n && Bar(e, s, candles[n], n).Ok?
    requires Obeys(e.policy, candles, OrdersOf(e.provider, s.contexts), s, n)
    requires s.pending == OrdersOf(e.provider, s.contexts)[n]
    requires forall b: nat {:trigger s.contexts[..b]} | 1 <= b <= n ::
               Accepted(e.policy, e.provider(s.contexts[..b]), candles[b - 1])
    ensures var after := Bar(e, s, candles[n], n).value;
      && |after.contexts| == n + 1
      && Obeys(e.policy, candles, OrdersOf(e.provider, after.contexts), after, n + 1)
      && after.pending == OrdersOf(e.provider, after.contexts)[n + 1]
      && forall b: nat {:trigger after.contexts[..b]} | 1 <= b <= n + 1 ::
           Accepted(e.policy, e.provider(after.contexts[..b]), candles[b - 1])
  {
    hide Obeys, AtOpen, Protect, SelectIntent, Accepted, OrderIn;
    var orders := OrdersOf(e.provider, s.contexts);
    OpenObeys(e.policy, candles, orders, s, n);
    var atOpen := AtOpen(e.policy, s, candles[n], n).value;
    ProtectObeys(e.policy, candles, orders, atOpen, n, n + 1);
    ContextsWait(e.policy, s, candles[n], n);
    ContextsWait(e.policy, atOpen, candles[n], n);
    var touched := Protect(e.policy, atOpen, candles[n], n).value;
    var after := Bar(e, s, candles[n], n).value;
    var reply := e.provider(after.contexts);
    SelectionIsTheOrder(e.policy, reply, candles[n], touched.position.Some?);
    OrdersGrow(e.provider, s.contexts, after.contexts[n]);
    MoreOrdersObey(e.policy, candles, orders, OrderIn(reply), touched, n + 1);
    DecisionObeys(e.policy, candles, orders + [OrderIn(reply)], touched, after, n + 1);
    forall b: nat {:trigger after.contexts[..b]} | 1 <= b <= n + 1
      ensures Accepted(e.policy, e.provider(after.contexts[..b]), candles[b - 1])
    {
      if b <= n {
        assert after.contexts[..b] == s.contexts[..b];
      } else {
        assert after.contexts[..b] == after.contexts;
      }
    }
  }

  /** Deciding touches neither fills nor trades. */
  lemma DecisionObeys(
    policy: Policy, candles: seq<Candle>, orders: seq<Option<Intent>>, s: Ledger, after: Ledger, m: nat)
    requires Obeys(policy, candles, orders, s, m)
    requires after == s.(pending := after.pending, contexts := after.contexts)
    ensures Obeys(policy, candles, orders, after, m)
  {
    hide FollowsOrder, Executed, BracketOf;
  }

  lemma OrdersGrow(provider: Provider, contexts: seq<DecisionContext>, c: DecisionContext)
    ensures OrdersOf(provider, contexts + [c]) == OrdersOf(provider, contexts) + [OrderIn(provider(contexts + [c]))]
  {
    hide OrderIn;
    var more := contexts + [c];
    assert more[..|more|] == more;
    forall b | 1 <= b <= |contexts|
      ensures more[..b] == contexts[..b]
    {
    }
  }

  // ---------- completed runs ----------

  /** The orders of a run that reaches its end; orders[|candles|] has no bar left to be executed at. */
  ghost function Orders(e: Setup, candles: seq<Candle>): seq<Option<Intent>>
    requires RunBars(e, candles, |candles|).Ok?
  {
    OrdersOf(e.provider, RunBars(e, candles, |candles|).value.contexts)
  }

  lemma CompletedRunObeys(
    e: Setup, candles: seq<Candle>, expectedHash: Option<string>, hash: RunHashes, r: BacktestResult)
    returns (final: Ledger)
    requires Completed(e, candles, expectedHash, hash, r)
    ensures RunBars(e, candles, |candles|).Ok? && |RunBars(e, candles, |candles|).value.contexts| == |candles|
    ensures Obeys(e.policy, candles, Orders(e, candles), final, |candles|)
    ensures final.position.None? && final.fills == r.fills && final.trades == r.trades
    ensures r.unfilled == match Orders(e, candles)[|candles|] case None => [] case Some(i) => [i]
    ensures forall b: nat | 1 <= b <= |candles| ::
              Accepted(e.policy, e.provider(RunBars(e, candles, |candles|).value.contexts[..b]), candles[b - 1])
  {
    CompletedFills(e, candles, expectedHash, hash, r);
    hide Obeys, Bar, Exited, FirstDefect, Drawdown, Accepted;
    BarsObey(e, candles, |candles|);
    var s := RunBars(e, candles, |candles|).value;
    var last := |candles| - 1;
    final := AtEnd(e.policy, s, candles).value;
    if s.position.Some? {
      UnorderedExitObeys(
        e.policy, candles, Orders(e, candles), s, candles[last], last, |candles|, EndOfData, candles[last].close,
        false);
      ForcedExitIsFlat(e.policy, s, candles[last], last, candles[last].close);
    }
  }

  lemma ForcedExitIsFlat(policy: Policy, s: Ledger, candle: Candle, n: nat, reference: real)
    requires s.position.Some? && Exited(policy, s, s.position.value, None, candle, n, EndOfData, reference, false).Ok?
    ensures Exited(policy, s, s.position.value, None, candle, n, EndOfData, reference, false).value.position.None?
  {
    hide ExecuteExit;
  }

  /**
   * Orders are executed, all of them and nothing else: at each bar an entry is
   * filled exactly when the provider's reply one bar earlier was one entry intent,
   * and an explicit exit exactly when it was one exit intent; any other reply was
   * empty, and the last reply is what is reported unfilled.
   */
  lemma CompletedRunExecutesOrders(
    e: Setup, candles: seq<Candle>, expectedHash: Option<string>, hash: RunHashes, r: BacktestResult)
    requires Completed(e, candles, expectedHash, hash, r)
    ensures candles != [] && RunBars(e, candles, |candles|).Ok?
    ensures var contexts := RunBars(e, candles, |candles|).value.contexts;
      && |contexts| == |candles| && Follows(e, candles, contexts)
      && (forall b: nat | 1 <= b < |candles| ::
            var reply := e.provider(contexts[..b]);
            && ((exists x :: reply == Items([Known(Enter(x))])) <==> FilledAt(r.fills, b, MarketEntry))
            && ((exists y :: reply == Items([Known(Exit(y))])) <==> FilledAt(r.fills, b, ExplicitExit))
            && (!FilledAt(r.fills, b, MarketEntry) && !FilledAt(r.fills, b, ExplicitExit) ==> reply == Items([])))
      && !FilledAt(r.fills, 0, MarketEntry) && !FilledAt(r.fills, 0, ExplicitExit)
      && e.provider(contexts) == Items(seq(|r.unfilled|, k requires 0 <= k < |r.unfilled| => Known(r.unfilled[k])))
  {
    hide Completed, RunBars, BracketOf, CarriesOut;
    CompletedFills(e, candles, expectedHash, hash, r);
    var final := CompletedRunObeys(e, candles, expectedHash, hash, r);
    ContextsFollowBars(e, candles, |candles|);
    var contexts, orders := RunBars(e, candles, |candles|).value.contexts, Orders(e, candles);
    assert contexts[..|candles|] == contexts;
    hide Follows;
    forall b: nat | 1 <= b < |candles|
      ensures var reply := e.provider(contexts[..b]);
        && ((exists x :: reply == Items([Known(Enter(x))])) <==> FilledAt(r.fills, b, MarketEntry))
        && ((exists y :: reply == Items([Known(Exit(y))])) <==> FilledAt(r.fills, b, ExplicitExit))
        && (!FilledAt(r.fills, b, MarketEntry) && !FilledAt(r.fills, b, ExplicitExit) ==> reply == Items([]))
    {
      assert Accepted(e.policy, e.provider(contexts[..b]), candles[b - 1]);
      assert Executed(orders, r.fills, b);
      OrderIsFilled(e.policy, candles, orders, r.fills, b, |candles|);
      ReplyIsItsOrder(e.policy, e.provider(contexts[..b]), candles[b - 1]);
    }
    OrderIsFilled(e.policy, candles, orders, r.fills, 0, |candles|);
    ReplyIsItsOrder(e.policy, e.provider(contexts[..|candles|]), candles[|candles| - 1]);
  }

  /** An acceptable reply is its order and nothing more. */
  lemma ReplyIsItsOrder(policy: Policy, reply: ProviderReply, decided: Candle)
    requires Accepted(policy, reply, decided)
    ensures reply == match OrderIn(reply) case None => Items([]) case Some(i) => Items([Known(i)])
    ensures (exists x :: reply == Items([Known(Enter(x))])) <==> OrderIn(reply).Some? && OrderIn(reply).value.Enter?
    ensures (exists y :: reply == Items([Known(Exit(y))])) <==> OrderIn(reply).Some? && OrderIn(reply).value.Exit?
  {
    hide ValidateForPolicy, ValidateIntentId;
    if OrderIn(reply).Some? {
      assert reply.items == [reply.items[0]];
      match OrderIn(reply).value
      case Enter(x) => assert reply == Items([Known(Enter(x))]);
      case Exit(y) => assert reply == Items([Known(Exit(y))]);
    }
  }

  /** An order is the whole of the reply one bar earlier. */
  lemma OrderedReply(
    e: Setup, candles: seq<Candle>, expectedHash: Option<string>, hash: RunHashes, r: BacktestResult, b: nat)
    requires Completed(e, candles, expectedHash, hash, r) && 1 <= b <= |candles|
    ensures RunBars(e, candles, |candles|).Ok? && |RunBars(e, candles, |candles|).value.contexts| == |candles|
    ensures Orders(e, candles)[b].Some? ==>
      e.provider(RunBars(e, candles, |candles|).value.contexts[..b]) == Items([Known(Orders(e, candles)[b].value)])
  {
    hide Completed, RunBars, Obeys;
    var _ := CompletedRunObeys(e, candles, expectedHash, hash, r);
    var reply := e.provider(RunBars(e, candles, |candles|).value.contexts[..b]);
    assert Accepted(e.policy, reply, candles[b - 1]);
    ReplyIsItsOrder(e.policy, reply, candles[b - 1]);
  }

  lemma OrderIsFilled(
    policy: Policy, candles: seq<Candle>, orders: seq<Option<Intent>>, fills: seq<Fill>, b: nat, m: nat)
    requires b < m <= |orders| && Executed(orders, fills, b)
    requires forall j: nat | j < |fills| :: FollowsOrder(policy, candles, orders, fills[j], m)
    ensures FilledAt(fills, b, MarketEntry) <==> b >= 1 && orders[b].Some? && orders[b].value.Enter?
    ensures FilledAt(fills, b, ExplicitExit) <==> b >= 1 && orders[b].Some? && orders[b].value.Exit?
  {
    hide CarriesOut;
    if FilledAt(fills, b, MarketEntry) {
      var j: nat :| IsAt(fills, j, b, MarketEntry);
      assert FollowsOrder(policy, candles, orders, fills[j], m);
    }
    if FilledAt(fills, b, ExplicitExit) {
      var j: nat :| IsAt(fills, j, b, ExplicitExit);
      assert FollowsOrder(policy, candles, orders, fills[j], m);
    }
  }

  /**
   * And each fill is its own order's: its id, direction, side and quantity, at the
   * open; a protective or forced exit has no intent.
   */
  lemma CompletedFillsFollowOrders(
    e: Setup, candles: seq<Candle>, expectedHash: Option<string>, hash: RunHashes, r: BacktestResult)
    requires Completed(e, candles, expectedHash, hash, r)
    ensures RunBars(e, candles, |candles|).Ok? && |RunBars(e, candles, |candles|).value.contexts| == |candles|
    ensures forall j: nat | j < |r.fills| :: FollowsOrder(e.policy, candles, Orders(e, candles), r.fills[j], |candles|)
  {
    hide Completed, RunBars, FollowsOrder, BracketOf, Executed;
    var _ := CompletedRunObeys(e, candles, expectedHash, hash, r);
  }

  /** An entry fill is in the direction of the one intent that was the reply one bar earlier. */
  lemma EntryIsTheReply(
    e: Setup, candles: seq<Candle>, expectedHash: Option<string>, hash: RunHashes, r: BacktestResult, j: nat)
    returns (x: EnterIntent)
    requires Completed(e, candles, expectedHash, hash, r) && j < |r.fills| && r.fills[j].reason.MarketEntry?
    ensures RunBars(e, candles, |candles|).Ok? && |RunBars(e, candles, |candles|).value.contexts| == |candles|
    ensures 1 <= r.fills[j].barIndex < |candles| && r.fills[j].direction == x.direction
    ensures e.provider(RunBars(e, candles, |candles|).value.contexts[..r.fills[j].barIndex]) == Items([Known(Enter(x))])
  {
    hide Completed, RunBars, Fillable;
    CompletedFillsFollowOrders(e, candles, expectedHash, hash, r);
    assert FollowsOrder(e.policy, candles, Orders(e, candles), r.fills[j], |candles|);
    OrderedReply(e, candles, expectedHash, hash, r, r.fills[j].barIndex);
    x := Orders(e, candles)[r.fills[j].barIndex].value.enter;
  }

  /**
   * The normalised levels of an intent are on the grid, within a tick of the
   * intent's, on the program's side of them.
   */
  predicate NormalizedFrom(level: real, asked: real, direction: Direction, tick: real) {
    if direction.Long? then level <= asked < level + tick else level - tick < asked <= level
  }

  /**
   * A trade's direction, quantity and bracket are those of the intent that opened
   * it, the bracket moved onto the tick grid.
   */
  lemma CompletedTradesKeepOrders(
    e: Setup, candles: seq<Candle>, expectedHash: Option<string>, hash: RunHashes, r: BacktestResult, t: nat)
    requires Completed(e, candles, expectedHash, hash, r) && t < |r.trades|
    ensures |r.fills| == 2 * |r.trades| && 1 <= r.fills[2 * t].barIndex < |candles|
    ensures RunBars(e, candles, |candles|).Ok? && |RunBars(e, candles, |candles|).value.contexts| == |candles|
    ensures var order, trade := Orders(e, candles)[r.fills[2 * t].barIndex], r.trades[t];
      && order.Some? && order.value.Enter?
      && var x := order.value.enter;
      && r.fills[2 * t].intentId == Some(x.intentId) && trade.direction == x.direction && trade.quantity == x.quantity
      && trade.stopLoss == NormalizedStop(e.policy, x) && trade.takeProfit == NormalizedTarget(e.policy, x)
      && OnGrid(trade.stopLoss, e.policy.tickSize) && OnGrid(trade.takeProfit, e.policy.tickSize)
      && NormalizedFrom(trade.stopLoss, x.stopLoss, x.direction, e.policy.tickSize)
      && NormalizedFrom(trade.takeProfit, x.takeProfit, x.direction, e.policy.tickSize)
      && x.decisionOpenTime == candles[r.fills[2 * t].barIndex - 1].openTime && ValidateForPolicy(x, e.policy).Ok?
      && Fillable(e.policy, x, candles[r.fills[2 * t].barIndex].open)
      && e.policy.minimumNotional <= r.fills[2 * t].notional
  {
    hide Completed, RunBars, NormalizedStop, NormalizedTarget, Booked, FirstTouch, ValidateForPolicy, Executed;
    CompletedRunIsRoundTrips(e, candles, expectedHash, hash, r);
    var final := CompletedRunObeys(e, candles, expectedHash, hash, r);
    var entry, orders := r.fills[2 * t], Orders(e, candles);
    assert RoundTrip(e.policy, candles, t, entry, r.fills[2 * t + 1], r.trades[t]);
    assert FollowsOrder(e.policy, candles, orders, entry, |candles|);
    assert BracketOf(e.policy, orders, entry, r.trades[t].stopLoss, r.trades[t].takeProfit);
    var b := entry.barIndex;
    assert Accepted(e.policy, e.provider(RunBars(e, candles, |candles|).value.contexts[..b]), candles[b - 1]);
    LevelsAreNormalized(e.policy, orders[b].value.enter);
  }

  lemma LevelsAreNormalized(policy: Policy, x: EnterIntent)
    ensures OnGrid(NormalizedStop(policy, x), policy.tickSize) && OnGrid(NormalizedTarget(policy, x), policy.tickSize)
    ensures NormalizedFrom(NormalizedStop(policy, x), x.stopLoss, x.direction, policy.tickSize)
    ensures NormalizedFrom(NormalizedTarget(policy, x), x.takeProfit, x.direction, policy.tickSize)
  {
    TickLevelsAreOnGrid(x.stopLoss, policy.tickSize);
    TickLevelsAreOnGrid(x.takeProfit, policy.tickSize);
  }
}
