/** The canonical OHLCV candle. */
module Candles {
  import opened Results
  import opened Timeframes

  datatype CandleError = CloseBeforeOpen | NegativeTradeCount | HighTooLow | LowTooHigh | NegativeVolume

  /** The fields of a candle before validation. */
  datatype CandleFields = CandleFields(
    openTime: Instant,
    open: real,
    high: real,
    low: real,
    close: real,
    volume: real,
    closeTime: Instant,
    quoteVolume: real,
    tradeCount: int,
    takerBase: real,
    takerQuote: real)
  {
    predicate Valid() {
      && openTime <= closeTime
      && 0 <= tradeCount
      && open <= high && close <= high && low <= high
      && low <= open && low <= close
      && 0.0 <= volume && 0.0 <= quoteVolume && 0.0 <= takerBase && 0.0 <= takerQuote
    }
  }

  type Candle = c: CandleFields | c.Valid() witness CandleFields(0, 0.0, 0.0, 0.0, 0.0, 0.0, 0, 0.0, 0, 0.0, 0.0)

  /** Each candle opens after all the ones before it. */
  predicate Ascending(candles: seq<Candle>) {
    forall i, j | 0 <= i < j < |candles| :: candles[i].openTime < candles[j].openTime
  }

  function Max(a: real, b: real): real { if a >= b then a else b }
  function Min(a: real, b: real): real { if a <= b then a else b }

  /** Construction with the checks in the program's order. */
  function MakeCandle(f: CandleFields): (r: Result<Candle, CandleError>)
    ensures r.Ok? <==> f.Valid()
    ensures r.Ok? ==> r.value == f
  {
    if f.closeTime < f.openTime then Err(CloseBeforeOpen)
    else if f.tradeCount < 0 then Err(NegativeTradeCount)
    else if f.high < Max(Max(f.open, f.close), f.low) then Err(HighTooLow)
    else if f.low > Min(Min(f.open, f.close), f.high) then Err(LowTooHigh)
    else if f.volume < 0.0 || f.quoteVolume < 0.0 || f.takerBase < 0.0 || f.takerQuote < 0.0 then Err(NegativeVolume)
    else Ok(f)
  }
}
