/** Gap-free aligned candle series, and the check that recognises them. */
module Series {
  import opened Results
  import opened Timeframes
  import opened Candles

  datatype SeriesError =
    | EmptySeries
    | Misaligned(index: nat)
    | CloseTimeMismatch(index: nat)
    | DuplicateOpen(index: nat)
    | OutOfOrder(index: nat)
    | GapBefore(index: nat)

  function ExpectedClose(open: Instant, timeframe: Timeframe): Instant {
    open + Duration(timeframe) - MILLISECOND
  }

  /** Candle i opens i durations after the first and closes just before the next. */
  predicate PlacedAt(candles: seq<Candle>, timeframe: Timeframe, i: nat)
    requires i < |candles|
  {
    && candles[i].openTime == candles[0].openTime + i * Duration(timeframe)
    && candles[i].closeTime == ExpectedClose(candles[i].openTime, timeframe)
  }

  /** A gap-free series of closed, aligned candles. */
  predicate Canonical(candles: seq<Candle>, timeframe: Timeframe) {
    && candles != []
    && IsAligned(candles[0].openTime, timeframe)
    && forall i: nat | i < |candles| :: PlacedAt(candles, timeframe, i)
  }

  /** What the check says about one candle, given that the ones before it passed. */
  function DefectAt(candles: seq<Candle>, timeframe: Timeframe, i: nat): Option<SeriesError>
    requires i < |candles|
  {
    var c := candles[i];
    if !IsAligned(c.openTime, timeframe) then Some(Misaligned(i))
    else if c.closeTime != ExpectedClose(c.openTime, timeframe) then Some(CloseTimeMismatch(i))
    else if i == 0 then None
    else if c.openTime == candles[i - 1].openTime then Some(DuplicateOpen(i))
    else if c.openTime < candles[i - 1].openTime then Some(OutOfOrder(i))
    else if c.openTime != candles[i - 1].openTime + Duration(timeframe) then Some(GapBefore(i))
    else None
  }

  function FirstDefect(candles: seq<Candle>, timeframe: Timeframe, from: nat := 0): Option<SeriesError>
    decreases |candles| - from
  {
    if candles == [] then Some(EmptySeries)
    else if from >= |candles| then None
    else match DefectAt(candles, timeframe, from)
      case Some(e) => Some(e)
      case None => FirstDefect(candles, timeframe, from + 1)
  }

  /** Scanning neighbour by neighbour accepts exactly the canonical series. */
  lemma NoDefectMeansCanonical(candles: seq<Candle>, timeframe: Timeframe)
    ensures FirstDefect(candles, timeframe) == None <==> Canonical(candles, timeframe)
  {
    if candles != [] {
      NoDefectMeansNoneAt(candles, timeframe, 0);
      if FirstDefect(candles, timeframe) == None {
        StepsReachMultiples(candles, timeframe, |candles|);
      }
      if Canonical(candles, timeframe) {
        forall i: nat | i < |candles|
          ensures DefectAt(candles, timeframe, i) == None
        {
          assert PlacedAt(candles, timeframe, i);
          assert i > 0 ==> PlacedAt(candles, timeframe, i - 1);
          StepKeepsAlignment(candles[0].openTime, i, timeframe);
          assert i * Duration(timeframe) == (i - 1) * Duration(timeframe) + Duration(timeframe);
        }
      }
    }
  }

  lemma {:induction false} NoDefectMeansNoneAt(candles: seq<Candle>, timeframe: Timeframe, from: nat)
    requires candles != []
    ensures FirstDefect(candles, timeframe, from) == None
      <==> forall i | from <= i < |candles| :: DefectAt(candles, timeframe, i) == None
    decreases |candles| - from
  {
    if from < |candles| {
      NoDefectMeansNoneAt(candles, timeframe, from + 1);
    }
  }

  lemma {:induction false} StepsReachMultiples(candles: seq<Candle>, timeframe: Timeframe, n: nat)
    requires n <= |candles|
    requires forall i | 0 <= i < |candles| :: DefectAt(candles, timeframe, i) == None
    ensures n > 0 ==> IsAligned(candles[0].openTime, timeframe)
    ensures forall i: nat | i < n :: PlacedAt(candles, timeframe, i)
  {
    if n > 0 {
      StepsReachMultiples(candles, timeframe, n - 1);
      assert DefectAt(candles, timeframe, n - 1) == None;
      assert n > 1 ==> PlacedAt(candles, timeframe, n - 2);
      assert (n - 2) * Duration(timeframe) + Duration(timeframe) == (n - 1) * Duration(timeframe);
    }
  }

  /** The program's scan, which carries the previous open time. */
  method RequireCanonicalSeries(candles: seq<Candle>, timeframe: Timeframe)
    returns (r: Result<seq<Candle>, SeriesError>)
    ensures r == match FirstDefect(candles, timeframe) case None => Ok(candles) case Some(e) => Err(e)
    ensures r.Ok? <==> Canonical(candles, timeframe)
  {
    NoDefectMeansCanonical(candles, timeframe);
    if |candles| == 0 {
      return Err(EmptySeries);
    }
    var duration := Duration(timeframe);
    var previousOpen: Option<Instant> := None;
    for index := 0 to |candles|
      invariant previousOpen == if index == 0 then None else Some(candles[index - 1].openTime)
      invariant FirstDefect(candles, timeframe) == FirstDefect(candles, timeframe, index)
    {
      var candle := candles[index];
      if !IsAligned(candle.openTime, timeframe) {
        return Err(Misaligned(index));
      }
      if candle.closeTime != ExpectedClose(candle.openTime, timeframe) {
        return Err(CloseTimeMismatch(index));
      }
      if previousOpen.Some? {
        if candle.openTime == previousOpen.value {
          return Err(DuplicateOpen(index));
        }
        if candle.openTime < previousOpen.value {
          return Err(OutOfOrder(index));
        }
        if candle.openTime != previousOpen.value + duration {
          return Err(GapBefore(index));
        }
      }
      previousOpen := Some(candle.openTime);
    }
    return Ok(candles);
  }
}
