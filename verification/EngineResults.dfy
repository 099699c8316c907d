/** What a completed run promises its caller. */
module EngineResults {
  import opened Results
  import opened Candles
  import opened Series
  import opened MathRules
  import opened Intents
  import opened Engine
  import opened Totals
  import opened EngineLedger

  function FinalLedger(e: Setup, candles: seq<Candle>): Result<Ledger, EngineError>
    requires candles != []
  {
    var s :- RunBars(e, candles, |candles|);
    AtEnd(e.policy, s, candles)
  }

  lemma FinalLedgerIsSound(e: Setup, candles: seq<Candle>)
    requires candles != []
    ensures match FinalLedger(e, candles)
      case Ok(s) => s.position.None? && Sound(e.policy, candles, s, |candles|, |candles|)
      case Err(err) => err != CannotEnterWhileOpen && err != CannotExitWhileFlat
  {
    hide Bar, Sound, Queued, Exited;
    BarsKeepSound(e, candles, |candles|);
    if RunBars(e, candles, |candles|).Ok? {
      ForcedCloseKeepsSound(e.policy, candles, RunBars(e, candles, |candles|).value);
    }
  }

  lemma ForcedCloseKeepsSound(policy: Policy, candles: seq<Candle>, s: Ledger)
    requires candles != [] && Sound(policy, candles, s, |candles|, |candles|)
    ensures match AtEnd(policy, s, candles)
      case Ok(final) => final.position.None? && Sound(policy, candles, final, |candles|, |candles|)
      case Err(err) => err == NonPositivePrice || err == PositionOpenAtEnd
  {
    hide ExecuteExit, Priced, RoundTrip, Money, Steps, Linked, Booked;
    var last := |candles| - 1;
    if s.position.Some? {
      EnteredBefore(policy, candles, s, |candles|, |candles|);
      ExitsFailOnlyOnPrice(
        policy, s, s.position.value, None, candles[last], last, EndOfData, candles[last].close, false);
      if AtEnd(policy, s, candles).Ok? {
        ExitingKeepsSound(
          policy, candles, s, None, last, |candles|, |candles|, EndOfData, candles[last].close, false);
      }
    }
  }

  predicate Completed(
    e: Setup, candles: seq<Candle>, expectedHash: Option<string>, hash: RunHashes, r: BacktestResult)
  {
    RunResult(e, candles, expectedHash, hash) == Ok(r)
  }

  lemma CompletedFromLedger(
    e: Setup, candles: seq<Candle>, expectedHash: Option<string>, hash: RunHashes, r: BacktestResult)
    returns (s: Ledger)
    requires Completed(e, candles, expectedHash, hash, r)
    ensures Canonical(candles, e.timeframe)
    ensures s.position.None? && Sound(e.policy, candles, s, |candles|, |candles|)
    ensures r.fills == s.fills && r.trades == s.trades && r.equityCurve == s.curve && |s.curve| > 0
    ensures r.summary == BuildSummary(
      e.policy, s.equity, Drawdown(s.curve), s.fills, s.trades, |r.unfilled|, |candles|, hash.candles(candles),
      hash.policy(e.policy))
  {
    hide Bar, Sound, AtEnd, FirstDefect;
    NoDefectMeansCanonical(candles, e.timeframe);
    FinalLedgerIsSound(e, candles);
    s := FinalLedger(e, candles).value;
  }

  /** The execution guards against a second position and a missing one never fire. */
  lemma RunsNeverMeetTheGuards(
    e: Setup, candles: seq<Candle>, expectedHash: Option<string>, hash: RunHashes)
    ensures RunResult(e, candles, expectedHash, hash) != Err(CannotEnterWhileOpen)
    ensures RunResult(e, candles, expectedHash, hash) != Err(CannotExitWhileFlat)
  {
    hide Bar, AtEnd, FirstDefect;
    NoDefectMeansCanonical(candles, e.timeframe);
    if FirstDefect(candles, e.timeframe) == None {
      FinalLedgerIsSound(e, candles);
    }
  }

  /**
   * Every trade of every completed run is a linked entry and exit, booked at
   * adverse prices, closed at the first bar that touched its bracket.
   */
  lemma CompletedRunIsRoundTrips(
    e: Setup, candles: seq<Candle>, expectedHash: Option<string>, hash: RunHashes, r: BacktestResult)
    requires Completed(e, candles, expectedHash, hash, r)
    ensures |r.fills| == 2 * |r.trades|
    ensures forall t: nat | t < |r.trades| ::
              RoundTrip(e.policy, candles, t, r.fills[2 * t], r.fills[2 * t + 1], r.trades[t])
    ensures Ordered(r.fills, |candles|)
  {
    hide RoundTrip, Money, Steps, Ordered, RunResult, Canonical;
    var s := CompletedFromLedger(e, candles, expectedHash, hash, r);
  }

  /** The entry of each trade, and that no fill comes before the first. */
  lemma TradesStartWithEntries(
    e: Setup, candles: seq<Candle>, expectedHash: Option<string>, hash: RunHashes, r: BacktestResult)
    requires Completed(e, candles, expectedHash, hash, r)
    ensures |r.fills| == 2 * |r.trades|
    ensures forall t: nat | t < |r.trades| ::
              r.fills[2 * t].reason.MarketEntry? && r.fills[2 * t].direction == r.trades[t].direction
    ensures forall j | 0 <= j < |r.fills| :: r.fills[0].barIndex <= r.fills[j].barIndex
  {
    hide Completed, Booked, FirstTouch;
    CompletedRunIsRoundTrips(e, candles, expectedHash, hash, r);
    forall t: nat | t < |r.trades|
      ensures r.fills[2 * t].reason.MarketEntry? && r.fills[2 * t].direction == r.trades[t].direction
    {
      assert RoundTrip(e.policy, candles, t, r.fills[2 * t], r.fills[2 * t + 1], r.trades[t]);
    }
  }

  // ---------- conservation ----------

  /** The ledger balances: equity, fees and the realised curve all reconcile with the trades. */
  lemma CompletedRunConserves(
    e: Setup, candles: seq<Candle>, expectedHash: Option<string>, hash: RunHashes, r: BacktestResult)
    requires Completed(e, candles, expectedHash, hash, r)
    ensures r.summary.finalEquity == r.summary.initialEquity + r.summary.netPnl
    ensures r.summary.totalFees == Total(r.trades, FeesOf)
    ensures r.summary.netPnl == r.summary.grossPnl - r.summary.totalFees
    ensures |r.equityCurve| == |r.fills| + 1 && |r.fills| == 2 * |r.trades|
    ensures r.equityCurve[0] == r.summary.initialEquity && r.equityCurve[|r.fills|] == r.summary.finalEquity
    ensures Steps(r.equityCurve, r.trades)
  {
    hide RoundTrip, Ordered, RunResult, Canonical, Drawdown;
    var s := CompletedFromLedger(e, candles, expectedHash, hash, r);
    TradesNetTheirFees(e, candles, expectedHash, hash, r);
    NetIsGrossLessFees(r.trades);
  }

  lemma TradesNetTheirFees(
    e: Setup, candles: seq<Candle>, expectedHash: Option<string>, hash: RunHashes, r: BacktestResult)
    requires Completed(e, candles, expectedHash, hash, r)
    ensures forall t: nat | t < |r.trades| :: r.trades[t].netPnl == r.trades[t].grossPnl - r.trades[t].totalFees
    ensures forall t: nat | t < |r.trades| :: !r.trades[t].exitReason.MarketEntry?
  {
    hide RunResult, Priced;
    CompletedRunIsRoundTrips(e, candles, expectedHash, hash, r);
    forall t: nat | t < |r.trades|
      ensures r.trades[t].netPnl == r.trades[t].grossPnl - r.trades[t].totalFees
      ensures !r.trades[t].exitReason.MarketEntry?
    {
      assert RoundTrip(e.policy, candles, t, r.fills[2 * t], r.fills[2 * t + 1], r.trades[t]);
    }
  }

  lemma {:induction false} NetIsGrossLessFees(trades: seq<Trade>)
    requires forall t: nat | t < |trades| :: trades[t].netPnl == trades[t].grossPnl - trades[t].totalFees
    ensures Total(trades, NetOf) == Total(trades, GrossOf) - Total(trades, FeesOf)
  {
    if trades != [] { NetIsGrossLessFees(trades[..|trades| - 1]); }
  }

  /** Each trade is counted under exactly one exit reason and exactly one outcome. */
  lemma CompletedRunCountsPartition(
    e: Setup, candles: seq<Candle>, expectedHash: Option<string>, hash: RunHashes, r: BacktestResult)
    requires Completed(e, candles, expectedHash, hash, r)
    ensures var m := r.summary;
      && m.closedTradeCount == |r.trades|
      && m.stopLossCount + m.takeProfitCount + m.explicitExitCount + m.forcedCloseCount == m.closedTradeCount
      && m.winningTradeCount + m.losingTradeCount + m.breakevenTradeCount == m.closedTradeCount
  {
    hide RoundTrip, Ordered, RunResult, Canonical, Drawdown, Money, Steps;
    var s := CompletedFromLedger(e, candles, expectedHash, hash, r);
    TradesNetTheirFees(e, candles, expectedHash, hash, r);
    CountsPartition(r.trades);
  }

  lemma {:induction false} CountsPartition(trades: seq<Trade>)
    requires forall t: nat | t < |trades| :: !trades[t].exitReason.MarketEntry?
    ensures Count(trades, IsStopLoss) + Count(trades, IsTakeProfit) + Count(trades, IsExplicitExit)
      + Count(trades, IsForcedClose) == |trades|
    ensures Count(trades, IsWin) + Count(trades, IsLoss) + Count(trades, IsFlat) == |trades|
  {
    if trades != [] { CountsPartition(trades[..|trades| - 1]); }
  }

  // ---------- drawdown ----------

  lemma {:induction false} DrawdownBoundsFalls(curve: seq<real>)
    requires curve != []
    ensures forall i, j | 0 <= i <= j < |curve| :: curve[i] - curve[j] <= Drawdown(curve)
  {
    var last := |curve| - 1;
    if last > 0 {
      var init := curve[..last];
      DrawdownBoundsFalls(init);
      PeakIsHighest(curve);
      hide Peak;
      forall i, j | 0 <= i <= j < |curve|
        ensures curve[i] - curve[j] <= Drawdown(curve)
      {
        if j < last { assert init[i] - init[j] <= Drawdown(init); }
      }
    }
  }

  predicate Falls(curve: seq<real>, i: int, j: int, drop: real) {
    0 <= i <= j < |curve| && curve[i] - curve[j] == drop
  }

  lemma {:induction false} DrawdownIsAttained(curve: seq<real>)
    requires curve != []
    ensures exists i, j :: Falls(curve, i, j, Drawdown(curve))
  {
    var last := |curve| - 1;
    if last == 0 {
      assert Falls(curve, 0, 0, Drawdown(curve));
    } else {
      var init := curve[..last];
      DrawdownIsAttained(init);
      PeakIsHighest(curve);
      hide Peak;
      var i, j :| Falls(init, i, j, Drawdown(init));
      var p :| 0 <= p <= last && curve[p] == Peak(curve);
      assert Falls(curve, i, j, Drawdown(curve)) || Falls(curve, p, last, Drawdown(curve));
    }
  }

  /** The summary's drawdown is the largest fall from any point of the curve to any later point. */
  lemma DrawdownIsWorstFall(curve: seq<real>)
    requires curve != []
    ensures forall i, j | 0 <= i <= j < |curve| :: curve[i] - curve[j] <= Drawdown(curve)
    ensures exists i, j :: Falls(curve, i, j, Drawdown(curve))
  {
    DrawdownBoundsFalls(curve);
    DrawdownIsAttained(curve);
  }

  /** So it is for the realised equity of a completed run. */
  lemma CompletedDrawdownIsWorstFall(
    e: Setup, candles: seq<Candle>, expectedHash: Option<string>, hash: RunHashes, r: BacktestResult)
    requires Completed(e, candles, expectedHash, hash, r)
    ensures var worst := r.summary.maxRealizedEquityDrawdown;
      && (forall i, j | 0 <= i <= j < |r.equityCurve| :: r.equityCurve[i] - r.equityCurve[j] <= worst)
      && exists i, j :: Falls(r.equityCurve, i, j, worst)
  {
    hide Completed, Sound, Drawdown;
    var _ := CompletedFromLedger(e, candles, expectedHash, hash, r);
    DrawdownIsWorstFall(r.equityCurve);
  }

  lemma {:induction false} PeakIsHighest(curve: seq<real>)
    requires curve != []
    ensures forall i | 0 <= i < |curve| :: curve[i] <= Peak(curve)
    ensures exists i :: 0 <= i < |curve| && curve[i] == Peak(curve)
  {
    var last := |curve| - 1;
    if last == 0 {
      assert curve[0] == Peak(curve);
    } else {
      PeakIsHighest(curve[..last]);
      var p :| 0 <= p < last && curve[..last][p] == Peak(curve[..last]);
      assert curve[p] == Peak(curve) || curve[last] == Peak(curve);
      forall i | 0 <= i < |curve|
        ensures curve[i] <= Peak(curve)
      {
        if i < last { assert curve[..last][i] <= Peak(curve[..last]); }
      }
    }
  }

  // ---------- friction ----------

  /** The trade's profit had both fills been at their reference prices. */
  function FrictionlessPnl(entry: Fill, exit: Fill, trade: Trade): real {
    SignedMove(trade.direction, entry.referencePrice, exit.referencePrice) * trade.quantity
  }

  /** The most that slippage and tick rounding can take from a trade, per unit. */
  function FrictionBound(policy: Policy, entry: Fill, exit: Fill): real {
    (entry.referencePrice + exit.referencePrice) * (policy.marketSlippageBps / 10000.0) + 2.0 * policy.tickSize
  }

  lemma TripPaysFriction(policy: Policy, candles: seq<Candle>, t: nat, entry: Fill, exit: Fill, trade: Trade)
    requires RoundTrip(policy, candles, t, entry, exit, trade)
    ensures entry.referencePrice > 0.0 && exit.referencePrice > 0.0
    ensures trade.grossPnl <= FrictionlessPnl(entry, exit, trade)
    ensures FrictionlessPnl(entry, exit, trade) - trade.grossPnl < FrictionBound(policy, entry, exit) * trade.quantity
  {
    hide Priced, FirstTouch, SignedMove, FrictionBound, Bracketed;
    FillIsAdverse(policy, entry);
    FillIsAdverse(policy, exit);
    MoveIsWorse(policy, entry, exit, trade.direction);
    QuantityIsPositive(policy, entry);
    var ideal := SignedMove(trade.direction, entry.referencePrice, exit.referencePrice);
    var actual := SignedMove(trade.direction, entry.fillPrice, exit.fillPrice);
    var bound := FrictionBound(policy, entry, exit);
    ScaleGap(
      actual, ideal, bound, trade.quantity, trade.grossPnl, FrictionlessPnl(entry, exit, trade),
      bound * trade.quantity);
  }

  /** Friction never helps a trade, and never costs it more than slippage and one tick on each side. */
  lemma FrictionNeverHelps(
    e: Setup, candles: seq<Candle>, expectedHash: Option<string>, hash: RunHashes, r: BacktestResult, t: nat)
    requires Completed(e, candles, expectedHash, hash, r) && t < |r.trades|
    ensures |r.fills| == 2 * |r.trades|
    ensures var entry, exit, trade := r.fills[2 * t], r.fills[2 * t + 1], r.trades[t];
      && entry.referencePrice > 0.0 && exit.referencePrice > 0.0
      && trade.grossPnl <= FrictionlessPnl(entry, exit, trade)
      && FrictionlessPnl(entry, exit, trade) - trade.grossPnl < FrictionBound(e.policy, entry, exit) * trade.quantity
  {
    hide RoundTrip, Ordered, Completed, FrictionBound, SignedMove;
    CompletedRunIsRoundTrips(e, candles, expectedHash, hash, r);
    TripPaysFriction(e.policy, candles, t, r.fills[2 * t], r.fills[2 * t + 1], r.trades[t]);
  }

  lemma QuantityIsPositive(policy: Policy, f: Fill)
    requires Priced(policy, f)
    ensures f.quantity > 0.0
  {
  }

  lemma MoveIsWorse(policy: Policy, entry: Fill, exit: Fill, direction: Direction)
    requires Priced(policy, entry) && Priced(policy, exit)
    requires entry.side == EntrySide(direction) && exit.side == ExitSide(direction)
    ensures SignedMove(direction, entry.fillPrice, exit.fillPrice)
      <= SignedMove(direction, entry.referencePrice, exit.referencePrice)
      < SignedMove(direction, entry.fillPrice, exit.fillPrice) + FrictionBound(policy, entry, exit)
  {
    hide Priced;
    FillIsAdverse(policy, entry);
    FillIsAdverse(policy, exit);
    SumTimes(entry.referencePrice, exit.referencePrice, policy.marketSlippageBps / 10000.0);
  }

  /** A fill is on the wrong side of its reference by less than slippage plus one tick. */
  lemma FillIsAdverse(policy: Policy, f: Fill)
    requires Priced(policy, f)
    ensures f.referencePrice > 0.0
    ensures var lost := if f.side.Buy? then f.fillPrice - f.referencePrice else f.referencePrice - f.fillPrice;
      0.0 <= lost < f.referencePrice * (policy.marketSlippageBps / 10000.0) + policy.tickSize
  {
    hide BuyFill, SellFill, ComputeFee;
    if f.side.Buy? {
      BuyFillIsAdverse(f.referencePrice, policy.marketSlippageBps, policy.tickSize);
    } else {
      SellFillIsAdverse(f.referencePrice, policy.marketSlippageBps, policy.tickSize);
    }
  }

  lemma SumTimes(a: real, b: real, rate: real)
    ensures (a + b) * rate == a * rate + b * rate
  {
  }

  lemma ScaleGap(low: real, high: real, bound: real, q: real, lowQ: real, highQ: real, boundQ: real)
    requires q > 0.0 && low <= high && high - low < bound
    requires lowQ == low * q && highQ == high * q && boundQ == bound * q
    ensures lowQ <= highQ && highQ - lowQ < boundQ
  {
  }

  lemma TripLosesAtStop(policy: Policy, candles: seq<Candle>, t: nat, entry: Fill, exit: Fill, trade: Trade)
    requires RoundTrip(policy, candles, t, entry, exit, trade) && IsStopLoss(trade)
    ensures trade.grossPnl < 0.0 && trade.netPnl < 0.0
  {
    hide Priced;
    FillIsAdverse(policy, exit);
    QuantityIsPositive(policy, entry);
    FillFeeIsNonNegative(policy, entry);
    FillFeeIsNonNegative(policy, exit);
    ScaledOrder(
      SignedMove(trade.direction, entry.fillPrice, exit.fillPrice), 0.0, trade.quantity, trade.grossPnl, 0.0);
  }

  lemma FillFeeIsNonNegative(policy: Policy, f: Fill)
    requires Priced(policy, f)
    ensures f.fee >= 0.0
  {
  }

  /** A stop-loss exit always loses money, before fees and after. */
  lemma StopLossesLose(
    e: Setup, candles: seq<Candle>, expectedHash: Option<string>, hash: RunHashes, r: BacktestResult)
    requires Completed(e, candles, expectedHash, hash, r)
    ensures forall t: nat | t < |r.trades| && IsStopLoss(r.trades[t]) ::
              r.trades[t].grossPnl < 0.0 && r.trades[t].netPnl < 0.0
  {
    hide RoundTrip, Ordered, Completed;
    CompletedRunIsRoundTrips(e, candles, expectedHash, hash, r);
    forall t: nat | t < |r.trades| && IsStopLoss(r.trades[t])
      ensures r.trades[t].grossPnl < 0.0 && r.trades[t].netPnl < 0.0
    {
      TripLosesAtStop(e.policy, candles, t, r.fills[2 * t], r.fills[2 * t + 1], r.trades[t]);
    }
  }

  /** So the stop-loss count never exceeds the losing count. */
  lemma StopLossCountIsBounded(
    e: Setup, candles: seq<Candle>, expectedHash: Option<string>, hash: RunHashes, r: BacktestResult)
    requires Completed(e, candles, expectedHash, hash, r)
    ensures r.summary.stopLossCount <= r.summary.losingTradeCount
  {
    hide Sound, Drawdown;
    StopLossesLose(e, candles, expectedHash, hash, r);
    var s := CompletedFromLedger(e, candles, expectedHash, hash, r);
    hide Completed;
    CountIsMonotone(r.trades, IsStopLoss, IsLoss);
  }

  lemma {:induction false} CountIsMonotone<T>(items: seq<T>, p: T -> bool, q: T -> bool)
    requires forall i: nat | i < |items| && p(items[i]) :: q(items[i])
    ensures Count(items, p) <= Count(items, q)
  {
    if items != [] { CountIsMonotone(items[..|items| - 1], p, q); }
  }
}
