/** Half-open import ranges. */
module Ranges {
  import opened Integers
  import opened Results
  import opened Timeframes

  datatype RangeError = StartMisaligned | EndMisaligned | StartNotBeforeEnd | IncludesOpenCandle | NotAMultiple

  datatype ImportRange = ImportRange(start: Instant, end: Instant, timeframe: Timeframe)

  function ExpectedCandleCount(range: ImportRange): Result<int, RangeError> {
    var delta, step := range.end - range.start, Duration(range.timeframe);
    if delta % step != 0 then Err(NotAMultiple) else Ok(delta / step)
  }

  function ParseImportRange(start: Instant, end: Instant, timeframe: Timeframe, now: Instant)
    : Result<ImportRange, RangeError>
  {
    if !IsAligned(start, timeframe) then Err(StartMisaligned)
    else if !IsAligned(end, timeframe) then Err(EndMisaligned)
    else if !(start < end) then Err(StartNotBeforeEnd)
    else if end > AlignFloor(now, timeframe) then Err(IncludesOpenCandle)
    else Ok(ImportRange(start, end, timeframe))
  }

  /** An accepted range has a whole positive candle count, and all its candles have closed by now. */
  lemma ParsedRangeIsWhole(start: Instant, end: Instant, timeframe: Timeframe, now: Instant)
    requires ParseImportRange(start, end, timeframe, now).Ok?
    ensures var range := ParseImportRange(start, end, timeframe, now).value;
      var count := ExpectedCandleCount(range);
      && count.Ok? && count.value > 0
      && range.start + count.value * Duration(timeframe) == range.end
      && forall k: int {:trigger k * Duration(timeframe)} | k < count.value ::
           range.start + k * Duration(timeframe) + Duration(timeframe) <= now
  {
    hide IsAligned, AlignFloor, Duration;
    var d := Duration(timeframe);
    AlignFloorIsFloor(start, timeframe);
    AlignFloorIsFloor(end, timeframe);
    AlignFloorIsGreatestAligned(now, timeframe);
    WholeMultiple(start, d);
    WholeMultiple(end, d);
    var n := end / d - start / d;
    assert end - start == n * d;
    MultipleDivides(n, d);
    if n <= 0 { ProductsStepByDivisor(n - 1, 0, d); }
    forall k: int {:trigger k * Duration(timeframe)} | k < n
      ensures start + k * d + d <= now
    {
      ProductsStepByDivisor(k, n, d);
    }
  }
}
