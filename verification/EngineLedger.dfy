/** What every run of the engine keeps: linked, correctly booked and first-touch round trips. */
module EngineLedger {
  import opened Results
  import opened Candles
  import opened MathRules
  import opened Intents
  import opened Engine
  import opened Totals

  // ---------- one round trip ----------

  predicate Untouched(direction: Direction, stop: real, target: real, candle: Candle) {
    !StopTouched(direction, stop, candle) && !TargetTouched(direction, target, candle)
  }

  /** Bars from..to lie strictly inside the bracket. */
  ghost predicate Survives(candles: seq<Candle>, direction: Direction, stop: real, target: real, from: nat, to: nat) {
    to <= |candles| && forall j | from <= j < to :: Untouched(direction, stop, target, candles[j])
  }

  predicate Bracketed(direction: Direction, price: real, stop: real, target: real) {
    if direction.Long? then stop < price < target else target < price < stop
  }

  /** A fill at the adverse normalised price of its reference, with its fee. */
  predicate Priced(policy: Policy, f: Fill) {
    && f.fillPrice == MarketFill(policy, f.side, f.referencePrice)
    && 0.0 < f.fillPrice && 0.0 < f.quantity
    && f.notional == Notional(f.fillPrice, f.quantity)
    && f.fee == ComputeFee(f.fillPrice, f.quantity, policy.takerFeeBps)
  }

  function EntrySide(direction: Direction): Side { if direction.Long? then Buy else Sell }
  function ExitSide(direction: Direction): Side { if direction.Long? then Sell else Buy }

  /** The t-th trade is the t-th position, entered by fill 2t + 1 and left by fill 2t + 2. */
  predicate Linked(t: nat, entry: Fill, exit: Fill, trade: Trade) {
    && entry.fillId == trade.entryFillId == 2 * t + 1
    && exit.fillId == trade.exitFillId == 2 * t + 2
    && trade.tradeId == trade.positionId == entry.positionId == exit.positionId == t + 1
    && entry.reason.MarketEntry? && exit.reason == trade.exitReason
    && entry.direction == exit.direction == trade.direction
    && entry.quantity == exit.quantity == trade.quantity
    && entry.side == EntrySide(trade.direction) && exit.side == ExitSide(trade.direction)
    && entry.fillTime == trade.entryTime && exit.fillTime == trade.exitTime
    && trade.barsHeld == exit.barIndex - entry.barIndex
  }

  function SignedMove(direction: Direction, from: real, to: real): real {
    if direction.Long? then to - from else from - to
  }

  predicate Booked(policy: Policy, candles: seq<Candle>, entry: Fill, exit: Fill, trade: Trade) {
    && Priced(policy, entry) && Priced(policy, exit)
    && entry.barIndex < |candles| && entry.referencePrice == candles[entry.barIndex].open
    && trade.entryPrice == entry.fillPrice && trade.exitPrice == exit.fillPrice
    && trade.entryFee == entry.fee && trade.exitFee == exit.fee
    && trade.totalFees == entry.fee + exit.fee
    && trade.grossPnl == SignedMove(trade.direction, entry.fillPrice, exit.fillPrice) * trade.quantity
    && trade.netPnl == trade.grossPnl - entry.fee - exit.fee
    && Bracketed(trade.direction, trade.entryPrice, trade.stopLoss, trade.takeProfit)
  }

  /** Stop-first, first-touch exits: no bar before the exit bar touched the bracket. */
  ghost predicate FirstTouch(candles: seq<Candle>, entry: Fill, exit: Fill, trade: Trade) {
    && entry.barIndex <= exit.barIndex < |candles|
    && Survives(candles, trade.direction, trade.stopLoss, trade.takeProfit, entry.barIndex, exit.barIndex)
    && var bar := candles[exit.barIndex];
    match exit.reason
    case StopLoss =>
      && StopTouched(trade.direction, trade.stopLoss, bar) && exit.referencePrice == trade.stopLoss
      && (trade.sameBarAmbiguityUsed <==> TargetTouched(trade.direction, trade.takeProfit, bar))
    case TakeProfit =>
      && TargetTouched(trade.direction, trade.takeProfit, bar) && exit.referencePrice == trade.takeProfit
      && !StopTouched(trade.direction, trade.stopLoss, bar) && !trade.sameBarAmbiguityUsed
    case ExplicitExit =>
      entry.barIndex < exit.barIndex && exit.referencePrice == bar.open && !trade.sameBarAmbiguityUsed
    case EndOfData =>
      && exit.barIndex == |candles| - 1 && exit.referencePrice == bar.close && !trade.sameBarAmbiguityUsed
      && Untouched(trade.direction, trade.stopLoss, trade.takeProfit, bar)
    case MarketEntry => false
  }

  ghost predicate RoundTrip(policy: Policy, candles: seq<Candle>, t: nat, entry: Fill, exit: Fill, trade: Trade) {
    && Linked(t, entry, exit, trade)
    && Booked(policy, candles, entry, exit, trade)
    && FirstTouch(candles, entry, exit, trade)
  }

  // ---------- the invariant of a ledger ----------

  function Open(s: Ledger): nat { if s.position.Some? then 1 else 0 }

  predicate Shape(s: Ledger) {
    && |s.fills| == 2 * |s.trades| + Open(s)
    && s.fillSeq == |s.fills| && s.tradeSeq == |s.trades| && s.positionSeq == |s.trades| + Open(s)
    && |s.curve| == |s.fills| + 1
  }

  ghost predicate Trips(policy: Policy, candles: seq<Candle>, fills: seq<Fill>, trades: seq<Trade>)
    requires 2 * |trades| <= |fills|
  {
    forall t: nat | t < |trades| :: RoundTrip(policy, candles, t, fills[2 * t], fills[2 * t + 1], trades[t])
  }

  /** The position came from the fill f, numbered `id`, and has survived every bar before `to`. */
  ghost predicate Holding(policy: Policy, candles: seq<Candle>, p: Position, f: Fill, id: nat, to: nat) {
    && f.fillId == id && 2 * f.positionId == id + 1 && f.positionId == p.positionId
    && f.reason.MarketEntry? && f.side == EntrySide(p.direction)
    && f.direction == p.direction && f.quantity == p.quantity
    && f.fillTime == p.entryFillTime && f.barIndex == p.entryBarIndex
    && f.fillPrice == p.entryPrice && f.fee == p.entryFee
    && Priced(policy, f)
    && f.barIndex < |candles| && f.referencePrice == candles[f.barIndex].open
    && Bracketed(p.direction, p.entryPrice, p.stopLoss, p.takeProfit)
    && Survives(candles, p.direction, p.stopLoss, p.takeProfit, f.barIndex, to)
  }

  /** Fills are in bar order, below `bound`, and each re-entry is strictly after the exit before it. */
  ghost predicate Ordered(fills: seq<Fill>, bound: nat) {
    && (forall j | 0 <= j < |fills| :: fills[j].barIndex < bound)
    && (forall j, k | 0 <= j < k < |fills| ::
          && fills[j].barIndex <= fills[k].barIndex
          && (j % 2 == 1 ==> fills[j].barIndex < fills[k].barIndex))
  }

  function FeesOf(t: Trade): real { t.totalFees }

  function OpenFee(s: Ledger): real {
    if s.position.Some? then s.position.value.snapshot.entryFee else 0.0
  }

  /** The realised curve steps by the entry fee and then by the rest of the trade's net P&L. */
  ghost predicate Steps(curve: seq<real>, trades: seq<Trade>)
    requires 2 * |trades| < |curve|
  {
    forall t: nat | t < |trades| ::
      && curve[2 * t + 1] == curve[2 * t] - trades[t].entryFee
      && curve[2 * t + 2] == curve[2 * t] + trades[t].netPnl
  }

  /** Equity and fees reconcile at every moment. */
  predicate Money(policy: Policy, s: Ledger)
    requires Shape(s)
  {
    && s.curve[0] == policy.initialEquity && s.curve[|s.fills|] == s.equity
    && s.equity == policy.initialEquity + Total(s.trades, NetOf) - OpenFee(s)
    && Total(s.fills, FeeOf) == Total(s.trades, FeesOf) + OpenFee(s)
    && (s.position.Some? ==> s.equity == s.curve[|s.fills| - 1] - OpenFee(s))
  }

  ghost predicate Sound(policy: Policy, candles: seq<Candle>, s: Ledger, bound: nat, survived: nat) {
    && Shape(s)
    && Trips(policy, candles, s.fills, s.trades)
    && (s.position.Some? ==>
          && s.position.value.entryFill == s.fills[|s.fills| - 1]
          && Holding(policy, candles, s.position.value.snapshot, s.fills[|s.fills| - 1], |s.fills|, survived))
    && Ordered(s.fills, bound)
    && Money(policy, s)
    && Steps(s.curve, s.trades)
  }

  /** A queued entry is valid and finds no position; a queued exit finds one. */
  predicate Queued(policy: Policy, s: Ledger) {
    match s.pending
    case None => true
    case Some(Enter(e)) => s.position.None? && ValidateForPolicy(e, policy).Ok?
    case Some(Exit(_)) => s.position.Some?
  }

  // ---------- how each part grows ----------

  lemma TripsKeep(policy: Policy, candles: seq<Candle>, fills: seq<Fill>, trades: seq<Trade>, f: Fill)
    requires 2 * |trades| <= |fills| && Trips(policy, candles, fills, trades)
    ensures Trips(policy, candles, fills + [f], trades)
  {
  }

  lemma TripsGrow(policy: Policy, candles: seq<Candle>, fills: seq<Fill>, trades: seq<Trade>, t: Trade)
    requires 2 * |trades| + 2 == |fills| && Trips(policy, candles, fills, trades)
    requires RoundTrip(policy, candles, |trades|, fills[2 * |trades|], fills[2 * |trades| + 1], t)
    ensures Trips(policy, candles, fills, trades + [t])
  {
    forall k: nat | k < |trades| + 1
      ensures RoundTrip(policy, candles, k, fills[2 * k], fills[2 * k + 1], (trades + [t])[k])
    {
      assert k < |trades| ==> RoundTrip(policy, candles, k, fills[2 * k], fills[2 * k + 1], trades[k]);
    }
  }

  lemma OrderedGrow(fills: seq<Fill>, f: Fill, below: nat, bound: nat)
    requires Ordered(fills, below) && f.barIndex < bound && below <= bound
    requires if |fills| % 2 == 0 then below <= f.barIndex else below <= f.barIndex + 1
    ensures Ordered(fills + [f], bound)
  {
    var last := |fills| - 1;
    forall j | 0 <= j < |fills|
      ensures fills[j].barIndex <= f.barIndex && (j % 2 == 1 ==> fills[j].barIndex < f.barIndex)
    {
      if |fills| % 2 == 1 && j % 2 == 1 {
        assert fills[j].barIndex < fills[last].barIndex;
      }
    }
  }

  /** What the entry execution hands over when it succeeds. */
  lemma EntryFacts(
    policy: Policy, e: EnterIntent, candles: seq<Candle>, n: nat, fillSeq: nat, positionSeq: nat, equity: real)
    requires n < |candles| && ValidateForPolicy(e, policy).Ok? && fillSeq + 1 == 2 * positionSeq
    requires ExecuteEntry(policy, e, candles[n], n, fillSeq, positionSeq, equity).Ok?
    ensures var (f, entered, after) := ExecuteEntry(policy, e, candles[n], n, fillSeq, positionSeq, equity).value;
      && entered.entryFill == f && f.barIndex == n && after == equity - f.fee
      && entered.snapshot.entryFee == f.fee
      && Holding(policy, candles, entered.snapshot, f, fillSeq, n)
  {
    hide MarketFill, Slipped, NormalizedStop, NormalizedTarget, ComputeFee;
  }

  lemma EnteringKeepsSound(policy: Policy, candles: seq<Candle>, s: Ledger, f: Fill, entered: OpenPosition, n: nat)
    requires n < |candles| && Sound(policy, candles, s, n, n) && s.position.None?
    requires entered.entryFill == f && f.barIndex == n && entered.snapshot.entryFee == f.fee
    requires Holding(policy, candles, entered.snapshot, f, |s.fills| + 1, n)
    ensures Sound(policy, candles, s.Opened(f, entered, s.equity - f.fee), n + 1, n)
  {
    hide RoundTrip, Holding, Priced;
    TripsKeep(policy, candles, s.fills, s.trades, f);
    OrderedGrow(s.fills, f, n, n + 1);
    MoneyAfterEntry(policy, s, f, entered);
  }

  lemma MoneyAfterEntry(policy: Policy, s: Ledger, f: Fill, entered: OpenPosition)
    requires Shape(s) && Money(policy, s) && Steps(s.curve, s.trades) && s.position.None?
    requires entered.snapshot.entryFee == f.fee
    ensures var s' := s.Opened(f, entered, s.equity - f.fee);
      Shape(s') && Money(policy, s') && Steps(s'.curve, s'.trades)
  {
  }

  lemma MoneyAfterClose(policy: Policy, s: Ledger, f: Fill, trade: Trade, after: real)
    requires Shape(s) && Money(policy, s) && Steps(s.curve, s.trades) && s.position.Some?
    requires trade.entryFee == s.position.value.snapshot.entryFee
    requires trade.netPnl == trade.grossPnl - trade.entryFee - f.fee && trade.totalFees == trade.entryFee + f.fee
    requires after == s.equity + trade.grossPnl - f.fee
    ensures var s' := s.Closed(f, trade, after);
      Shape(s') && Money(policy, s') && Steps(s'.curve, s'.trades)
  {
  }

  /** The state in which a position can be closed. */
  ghost predicate Closable(policy: Policy, candles: seq<Candle>, s: Ledger, survived: nat) {
    && Shape(s) && s.position.Some?
    && s.position.value.entryFill == s.fills[|s.fills| - 1]
    && Holding(policy, candles, s.position.value.snapshot, s.fills[|s.fills| - 1], |s.fills|, survived)
  }

  function ExitOf(
    policy: Policy, s: Ledger, position: OpenPosition, intentId: Option<string>, candle: Candle, n: nat,
    reason: FillReason, reference: real, ambiguity: bool): Result<(Fill, Trade, real), EngineError>
  {
    ExecuteExit(
      policy, position, intentId, candle, n, s.fillSeq + 1, s.tradeSeq + 1, reason, reference, s.equity, ambiguity)
  }

  /** What the exit execution hands over when it succeeds, before anything is said about touching. */
  lemma ExitIsLinked(
    policy: Policy, candles: seq<Candle>, s: Ledger, intentId: Option<string>, n: nat, survived: nat,
    reason: FillReason, reference: real, ambiguity: bool)
    requires n < |candles| && Closable(policy, candles, s, survived)
    requires ExitOf(policy, s, s.position.value, intentId, candles[n], n, reason, reference, ambiguity).Ok?
    ensures var (f, trade, after) :=
        ExitOf(policy, s, s.position.value, intentId, candles[n], n, reason, reference, ambiguity).value;
      var p := s.position.value.snapshot;
      && Linked(|s.trades|, s.fills[|s.fills| - 1], f, trade)
      && f.barIndex == n && f.reason == reason && f.referencePrice == reference
      && trade.direction == p.direction && trade.stopLoss == p.stopLoss && trade.takeProfit == p.takeProfit
      && trade.sameBarAmbiguityUsed == ambiguity
      && after == s.equity + trade.grossPnl - f.fee && trade.entryFee == p.entryFee
  {
  }

  lemma ExitIsBooked(
    policy: Policy, candles: seq<Candle>, s: Ledger, intentId: Option<string>, n: nat, survived: nat,
    reason: FillReason, reference: real, ambiguity: bool)
    requires n < |candles| && Closable(policy, candles, s, survived)
    requires ExitOf(policy, s, s.position.value, intentId, candles[n], n, reason, reference, ambiguity).Ok?
    ensures var (f, trade, after) :=
        ExitOf(policy, s, s.position.value, intentId, candles[n], n, reason, reference, ambiguity).value;
      Booked(policy, candles, s.fills[|s.fills| - 1], f, trade)
  {
    hide MarketFill, Slipped, ComputeFee;
  }

  lemma ClosingKeepsSound(
    policy: Policy, candles: seq<Candle>, s: Ledger, f: Fill, trade: Trade, after: real, bound: nat, survived: nat,
    to: nat)
    requires Sound(policy, candles, s, bound, survived) && s.position.Some?
    requires RoundTrip(policy, candles, |s.trades|, s.fills[|s.fills| - 1], f, trade)
    requires after == s.equity + trade.grossPnl - f.fee && trade.entryFee == s.position.value.snapshot.entryFee
    requires bound <= f.barIndex + 1
    ensures Sound(policy, candles, s.Closed(f, trade, after), f.barIndex + 1, to)
  {
    hide Holding, Priced, FirstTouch;
    TripsKeep(policy, candles, s.fills, s.trades, f);
    TripsGrow(policy, candles, s.fills + [f], s.trades, trade);
    OrderedGrow(s.fills, f, bound, f.barIndex + 1);
    MoneyAfterClose(policy, s, f, trade, after);
  }

  // ---------- every bar keeps the invariant ----------

  lemma SoundIsClosable(policy: Policy, candles: seq<Candle>, s: Ledger, bound: nat, survived: nat)
    requires Sound(policy, candles, s, bound, survived) && s.position.Some?
    ensures Closable(policy, candles, s, survived)
  {
    hide Trips, Ordered, Money, Steps, Holding;
  }

  lemma ClosableSurvives(policy: Policy, candles: seq<Candle>, s: Ledger, survived: nat)
    requires Closable(policy, candles, s, survived)
    ensures |s.fills| > 0
    ensures var p := s.position.value.snapshot;
      && s.fills[|s.fills| - 1].barIndex == p.entryBarIndex
      && Survives(candles, p.direction, p.stopLoss, p.takeProfit, p.entryBarIndex, survived)
  {
    hide Survives, Priced, Bracketed;
  }

  /** An exit whose reason, bar and reference obey the first-touch rule keeps the ledger sound. */
  lemma ExitingKeepsSound(
    policy: Policy, candles: seq<Candle>, s: Ledger, intentId: Option<string>, n: nat, bound: nat, survived: nat,
    reason: FillReason, reference: real, ambiguity: bool)
    requires n < |candles| && Sound(policy, candles, s, bound, survived) && s.position.Some? && bound <= n + 1
    requires s.position.value.snapshot.entryBarIndex <= n <= survived
    requires ExitRule(candles, s.position.value.snapshot, n, reason, reference, ambiguity)
    requires Exited(policy, s, s.position.value, intentId, candles[n], n, reason, reference, ambiguity).Ok?
    ensures var s' := Exited(policy, s, s.position.value, intentId, candles[n], n, reason, reference, ambiguity).value;
      s'.position.None? && Sound(policy, candles, s', n + 1, n + 1)
  {
    SoundIsClosable(policy, candles, s, bound, survived);
    ClosableSurvives(policy, candles, s, survived);
    hide ExecuteExit, Linked, Booked, Sound, Closable, Survives, FirstTouch, ExitRule;
    var (f, trade, after) :=
      ExitOf(policy, s, s.position.value, intentId, candles[n], n, reason, reference, ambiguity).value;
    ExitIsLinked(policy, candles, s, intentId, n, survived, reason, reference, ambiguity);
    ExitIsBooked(policy, candles, s, intentId, n, survived, reason, reference, ambiguity);
    TouchRuleHolds(candles, s.position.value.snapshot, s.fills[|s.fills| - 1], f, trade, survived, ambiguity);
    ClosingKeepsSound(policy, candles, s, f, trade, after, bound, survived, n + 1);
  }

  /** When the engine may close position p at bar n for a given reason. */
  predicate ExitRule(candles: seq<Candle>, p: Position, n: nat, reason: FillReason, reference: real, ambiguity: bool)
    requires n < |candles|
  {
    var stopHit := StopTouched(p.direction, p.stopLoss, candles[n]);
    var targetHit := TargetTouched(p.direction, p.takeProfit, candles[n]);
    match reason
    case StopLoss => stopHit && reference == p.stopLoss && ambiguity == targetHit
    case TakeProfit => targetHit && !stopHit && reference == p.takeProfit && !ambiguity
    case ExplicitExit => p.entryBarIndex < n && reference == candles[n].open && !ambiguity
    case EndOfData => n == |candles| - 1 && reference == candles[n].close && !ambiguity && !stopHit && !targetHit
    case MarketEntry => false
  }

  lemma TouchRuleHolds(
    candles: seq<Candle>, p: Position, entry: Fill, f: Fill, trade: Trade, survived: nat, ambiguity: bool)
    requires f.barIndex < |candles| && entry.barIndex == p.entryBarIndex <= f.barIndex <= survived
    requires Survives(candles, p.direction, p.stopLoss, p.takeProfit, entry.barIndex, survived)
    requires trade.direction == p.direction && trade.stopLoss == p.stopLoss && trade.takeProfit == p.takeProfit
    requires trade.sameBarAmbiguityUsed == ambiguity
    requires ExitRule(candles, p, f.barIndex, f.reason, f.referencePrice, ambiguity)
    ensures FirstTouch(candles, entry, f, trade)
  {
  }

  lemma BoundWeakens(fills: seq<Fill>, n: nat)
    requires Ordered(fills, n)
    ensures Ordered(fills, n + 1)
  {
  }

  lemma EnteredBefore(policy: Policy, candles: seq<Candle>, s: Ledger, bound: nat, survived: nat)
    requires Sound(policy, candles, s, bound, survived) && s.position.Some?
    ensures s.position.value.snapshot.entryBarIndex < bound
  {
  }

  lemma OpenKeepsSound(policy: Policy, candles: seq<Candle>, s: Ledger, n: nat)
    requires n < |candles| && Sound(policy, candles, s, n, n) && Queued(policy, s)
    requires AtOpen(policy, s, candles[n], n).Ok?
    ensures Sound(policy, candles, AtOpen(policy, s, candles[n], n).value, n + 1, n)
  {
    hide ExecuteEntry, ExecuteExit, RoundTrip, Priced, Ordered, Money, Steps;
    match s.pending
    case None =>
      BoundWeakens(s.fills, n);
    case Some(Enter(e)) =>
      EntryFacts(policy, e, candles, n, s.fillSeq + 1, s.positionSeq + 1, s.equity);
      var (f, entered, after) :=
        ExecuteEntry(policy, e, candles[n], n, s.fillSeq + 1, s.positionSeq + 1, s.equity).value;
      EnteringKeepsSound(policy, candles, s, f, entered, n);
    case Some(Exit(x)) =>
      EnteredBefore(policy, candles, s, n, n);
      ExitingKeepsSound(
        policy, candles, s, Some(x.intentId), n, n, n, ExplicitExit, candles[n].open, false);
  }

  lemma ProtectKeepsSound(policy: Policy, candles: seq<Candle>, s: Ledger, n: nat)
    requires n < |candles| && Sound(policy, candles, s, n + 1, n)
    requires Protect(policy, s, candles[n], n).Ok?
    ensures Sound(policy, candles, Protect(policy, s, candles[n], n).value, n + 1, n + 1)
  {
    if s.position.Some? {
      var p := s.position.value.snapshot;
      match EvaluateProtective(p, candles[n])
      case Some((reason, reference, ambiguity)) =>
        ExitingKeepsSound(policy, candles, s, None, n, n + 1, n, reason, reference, ambiguity);
      case None =>
        assert Survives(candles, p.direction, p.stopLoss, p.takeProfit, p.entryBarIndex, n + 1);
    }
  }

  lemma DecideKeepsSound(e: Setup, candles: seq<Candle>, s: Ledger, n: nat)
    requires n < |candles| && Sound(e.policy, candles, s, n + 1, n + 1)
    requires Decide(e, s, candles[n], n).Ok?
    ensures var s' := Decide(e, s, candles[n], n).value;
      Sound(e.policy, candles, s', n + 1, n + 1) && Queued(e.policy, s')
  {
    hide RoundTrip, Holding, Ordered, Steps, ValidateForPolicy, ValidateIntentId;
  }

  /** The two execution guards are unreachable: what is queued always fits the position. */
  lemma GuardsAreUnreachable(policy: Policy, s: Ledger, candle: Candle, n: nat)
    requires Queued(policy, s)
    ensures AtOpen(policy, s, candle, n) != Err(CannotEnterWhileOpen)
    ensures AtOpen(policy, s, candle, n) != Err(CannotExitWhileFlat)
  {
  }

  lemma ExitsFailOnlyOnPrice(
    policy: Policy, s: Ledger, position: OpenPosition, intentId: Option<string>, candle: Candle, n: nat,
    reason: FillReason, reference: real, ambiguity: bool)
    ensures Exited(policy, s, position, intentId, candle, n, reason, reference, ambiguity).Err? ==>
      Exited(policy, s, position, intentId, candle, n, reason, reference, ambiguity).error == NonPositivePrice
  {
  }

  lemma OnlyTheOpenHasGuards(e: Setup, s: Ledger, candle: Candle, n: nat)
    ensures Protect(e.policy, s, candle, n).Err? ==> Protect(e.policy, s, candle, n).error == NonPositivePrice
    ensures Decide(e, s, candle, n) != Err(CannotEnterWhileOpen)
    ensures Decide(e, s, candle, n) != Err(CannotExitWhileFlat)
  {
  }

  /** After any number of bars of any run, the ledger is sound. */
  lemma {:induction false} BarsKeepSound(e: Setup, candles: seq<Candle>, n: nat)
    requires n <= |candles|
    ensures match RunBars(e, candles, n)
      case Ok(s) => Sound(e.policy, candles, s, n, n) && Queued(e.policy, s)
      case Err(err) => err != CannotEnterWhileOpen && err != CannotExitWhileFlat
  {
    hide Bar, Sound, Queued, Start;
    StartIsSound(e.policy, candles);
    if n > 0 {
      var i := n - 1;
      BarsKeepSound(e, candles, i);
      if RunBars(e, candles, i).Ok? {
        BarKeepsSound(e, candles, RunBars(e, candles, i).value, i);
      }
    }
  }

  lemma StartIsSound(policy: Policy, candles: seq<Candle>)
    ensures Sound(policy, candles, Start(policy), 0, 0) && Queued(policy, Start(policy))
  {
  }

  lemma BarKeepsSound(e: Setup, candles: seq<Candle>, s: Ledger, n: nat)
    requires n < |candles| && Sound(e.policy, candles, s, n, n) && Queued(e.policy, s)
    ensures match Bar(e, s, candles[n], n)
      case Ok(s') => Sound(e.policy, candles, s', n + 1, n + 1) && Queued(e.policy, s')
      case Err(err) => err != CannotEnterWhileOpen && err != CannotExitWhileFlat
  {
    hide AtOpen, Protect, Decide, Sound, Queued;
    GuardsAreUnreachable(e.policy, s, candles[n], n);
    var atOpen := AtOpen(e.policy, s, candles[n], n);
    if atOpen.Ok? {
      OpenKeepsSound(e.policy, candles, s, n);
      OnlyTheOpenHasGuards(e, atOpen.value, candles[n], n);
      var touched := Protect(e.policy, atOpen.value, candles[n], n);
      if touched.Ok? {
        ProtectKeepsSound(e.policy, candles, atOpen.value, n);
        OnlyTheOpenHasGuards(e, touched.value, candles[n], n);
        if Decide(e, touched.value, candles[n], n).Ok? {
          DecideKeepsSound(e, candles, touched.value, n);
        }
      }
    }
  }
}
