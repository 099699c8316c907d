/**
 * Exponential moving average, true range and Wilder average true range.
 *
 * The recurrences take their arithmetic as a parameter: what they read, where
 * they are defined and what they depend on holds for any rounding; their bounds
 * are stated for exact arithmetic.
 */
module Averages {
  import opened Results
  import opened Candles
  import opened MathRules

  /** The decimal operations of a math policy. */
  datatype Arithmetic = Arithmetic(
    add: (real, real) -> real,
    sub: (real, real) -> real,
    mul: (real, real) -> real,
    div: (real, real) -> real)

  function Exact(): Arithmetic {
    Arithmetic(
      (a: real, b: real) => a + b,
      (a: real, b: real) => a - b,
      (a: real, b: real) => a * b,
      (a: real, b: real) => if b == 0.0 then 0.0 else a / b)
  }

  /** Sums, products and quotients of non-negative numbers, and differences of ordered ones, are not negative. */
  ghost predicate SignSafe(m: Arithmetic) {
    && (forall a: real, b: real | a >= 0.0 && b >= 0.0 :: m.add(a, b) >= 0.0)
    && (forall a: real, b: real | a >= b :: m.sub(a, b) >= 0.0)
    && (forall a: real, b: real | a >= 0.0 && b >= 0.0 :: m.mul(a, b) >= 0.0)
    && (forall a: real, b: real | a >= 0.0 && b > 0.0 :: m.div(a, b) >= 0.0)
  }

  lemma ExactIsSignSafe()
    ensures SignSafe(Exact())
  {
  }

  // ---------- specifications ----------

  function SeedSum(m: Arithmetic, xs: seq<real>, count: nat): real
    requires count <= |xs|
  {
    if count == 0 then 0.0 else m.add(SeedSum(m, xs, count - 1), xs[count - 1])
  }

  function Seed(m: Arithmetic, xs: seq<real>, period: nat): real
    requires 1 <= period <= |xs|
  {
    m.div(SeedSum(m, xs, period), period as real)
  }

  function EmaStep(m: Arithmetic, period: nat, previous: real, x: real): real {
    m.add(previous, m.mul(m.div(2.0, (period + 1) as real), m.sub(x, previous)))
  }

  function EmaAt(m: Arithmetic, xs: seq<real>, period: nat, i: nat): real
    requires 1 <= period <= i + 1 && i < |xs|
  {
    if period == 1 then xs[i]
    else if i + 1 == period then Seed(m, xs, period)
    else EmaStep(m, period, EmaAt(m, xs, period, i - 1), xs[i])
  }

  function WilderStep(m: Arithmetic, period: nat, previous: real, x: real): real {
    m.div(m.add(m.mul(previous, (period - 1) as real), x), period as real)
  }

  function WilderAt(m: Arithmetic, xs: seq<real>, period: nat, i: nat): real
    requires 1 <= period <= i + 1 && i < |xs|
  {
    if period == 1 then xs[i]
    else if i + 1 == period then Seed(m, xs, period)
    else WilderStep(m, period, WilderAt(m, xs, period, i - 1), xs[i])
  }

  function TrueRangeAt(m: Arithmetic, candles: seq<Candle>, i: nat): real
    requires i < |candles|
  {
    var c := candles[i];
    if i == 0 then m.sub(c.high, c.low)
    else
      var previousClose := candles[i - 1].close;
      Max(Max(m.sub(c.high, c.low), Abs(m.sub(c.high, previousClose))), Abs(m.sub(c.low, previousClose)))
  }

  function Closes(candles: seq<Candle>): (xs: seq<real>)
    ensures |xs| == |candles|
  {
    seq(|candles|, i requires 0 <= i < |candles| => candles[i].close)
  }

  function TrueRanges(m: Arithmetic, candles: seq<Candle>): (xs: seq<real>)
    ensures |xs| == |candles|
  {
    seq(|candles|, i requires 0 <= i < |candles| => TrueRangeAt(m, candles, i))
  }

  function EmaSlot(m: Arithmetic, xs: seq<real>, period: nat, i: nat): Option<real>
    requires 1 <= period && i < |xs|
  {
    if i + 1 < period then None else Some(EmaAt(m, xs, period, i))
  }

  function WilderSlot(m: Arithmetic, xs: seq<real>, period: nat, i: nat): Option<real>
    requires 1 <= period && i < |xs|
  {
    if i + 1 < period then None else Some(WilderAt(m, xs, period, i))
  }

  function Ema(m: Arithmetic, xs: seq<real>, period: nat): (out: seq<Option<real>>)
    requires 1 <= period
    ensures |out| == |xs|
  {
    seq(|xs|, i requires 0 <= i < |xs| => EmaSlot(m, xs, period, i))
  }

  function Wilder(m: Arithmetic, xs: seq<real>, period: nat): (out: seq<Option<real>>)
    requires 1 <= period
    ensures |out| == |xs|
  {
    seq(|xs|, i requires 0 <= i < |xs| => WilderSlot(m, xs, period, i))
  }

  // ---------- the program's loops ----------

  method EmaClose(m: Arithmetic, candles: seq<Candle>, period: nat) returns (values: seq<Option<real>>)
    requires 1 <= period
    ensures values == Ema(m, Closes(candles), period)
  {
    var n := |candles|;
    ghost var xs := Closes(candles);
    values := seq(n, _ => None);
    if period == 1 {
      for i := 0 to n
        invariant |values| == n && forall j: nat | j < i :: values[j] == EmaSlot(m, xs, period, j)
      {
        values := values[i := Some(candles[i].close)];
      }
    } else if period <= n {
      var seedSum := 0.0;
      for i := 0 to period
        invariant seedSum == SeedSum(m, xs, i)
      {
        seedSum := m.add(seedSum, candles[i].close);
      }
      var previous := m.div(seedSum, period as real);
      values := values[period - 1 := Some(previous)];
      assert previous == EmaAt(m, xs, period, period - 1);
      var alpha := m.div(2.0, (period + 1) as real);
      for i := period to n
        invariant |values| == n && previous == EmaAt(m, xs, period, i - 1)
        invariant forall j: nat | j < i :: values[j] == EmaSlot(m, xs, period, j)
      {
        previous := m.add(previous, m.mul(alpha, m.sub(candles[i].close, previous)));
        values := values[i := Some(previous)];
      }
    }
  }

  method TrueRangeValues(m: Arithmetic, candles: seq<Candle>) returns (out: seq<real>)
    requires candles != []
    ensures out == TrueRanges(m, candles)
  {
    out := [m.sub(candles[0].high, candles[0].low)];
    var previousClose := candles[0].close;
    for i := 1 to |candles|
      invariant |out| == i && previousClose == candles[i - 1].close
      invariant forall j: nat | j < i :: out[j] == TrueRangeAt(m, candles, j)
    {
      var c := candles[i];
      var rangeHc := Abs(m.sub(c.high, previousClose));
      var rangeLc := Abs(m.sub(c.low, previousClose));
      var tr := m.sub(c.high, c.low);
      if rangeHc > tr { tr := rangeHc; }
      if rangeLc > tr { tr := rangeLc; }
      out := out + [tr];
      previousClose := c.close;
    }
  }

  method WilderAtr(m: Arithmetic, candles: seq<Candle>, period: nat) returns (values: seq<Option<real>>)
    requires 1 <= period && candles != []
    ensures values == Wilder(m, TrueRanges(m, candles), period)
  {
    hide TrueRanges;
    var xs := TrueRangeValues(m, candles);
    var n := |xs|;
    values := seq(n, _ => None);
    if period == 1 {
      for i := 0 to n
        invariant |values| == n && forall j: nat | j < i :: values[j] == WilderSlot(m, xs, period, j)
      {
        values := values[i := Some(xs[i])];
      }
    } else if period <= n {
      var seedSum := 0.0;
      for i := 0 to period
        invariant seedSum == SeedSum(m, xs, i)
      {
        seedSum := m.add(seedSum, xs[i]);
      }
      var atr := m.div(seedSum, period as real);
      values := values[period - 1 := Some(atr)];
      assert atr == WilderAt(m, xs, period, period - 1);
      for i := period to n
        invariant |values| == n && atr == WilderAt(m, xs, period, i - 1)
        invariant forall j: nat | j < i :: values[j] == WilderSlot(m, xs, period, j)
      {
        atr := m.div(m.add(m.mul(atr, (period - 1) as real), xs[i]), period as real);
        values := values[i := Some(atr)];
      }
    }
  }

  // ---------- causality: no value reads past its own index ----------

  lemma {:induction false} SeedSumIsLocal(m: Arithmetic, xs: seq<real>, ys: seq<real>, count: nat)
    requires count <= |xs| && count <= |ys| && xs[..count] == ys[..count]
    ensures SeedSum(m, xs, count) == SeedSum(m, ys, count)
  {
    if count > 0 {
      assert xs[..count - 1] == xs[..count][..count - 1] == ys[..count - 1];
      assert xs[count - 1] == xs[..count][count - 1] == ys[count - 1];
      SeedSumIsLocal(m, xs, ys, count - 1);
    }
  }

  lemma {:induction false} RecurrencesAreLocal(m: Arithmetic, xs: seq<real>, ys: seq<real>, period: nat, i: nat)
    requires 1 <= period <= i + 1 && i < |xs| && i < |ys| && xs[..i + 1] == ys[..i + 1]
    ensures EmaAt(m, xs, period, i) == EmaAt(m, ys, period, i)
    ensures WilderAt(m, xs, period, i) == WilderAt(m, ys, period, i)
  {
    assert xs[i] == xs[..i + 1][i] == ys[i];
    if i + 1 == period {
      SeedSumIsLocal(m, xs, ys, period);
    } else if period > 1 {
      assert xs[..i] == xs[..i + 1][..i] == ys[..i];
      RecurrencesAreLocal(m, xs, ys, period, i - 1);
    }
  }

  // ---------- bounds in exact arithmetic ----------

  predicate Within(xs: seq<real>, count: nat, lo: real, hi: real)
    requires count <= |xs|
  {
    forall j | 0 <= j < count :: lo <= xs[j] <= hi
  }

  lemma {:induction false} SeedSumBounds(xs: seq<real>, count: nat, lo: real, hi: real)
    requires count <= |xs| && Within(xs, count, lo, hi)
    ensures lo * count as real <= SeedSum(Exact(), xs, count) <= hi * count as real
  {
    if count > 0 {
      SeedSumBounds(xs, count - 1, lo, hi);
      OneMore(lo, count);
      OneMore(hi, count);
    }
  }

  lemma OneMore(x: real, count: nat)
    requires count > 0
    ensures x * count as real == x * (count - 1) as real + x
  {
  }

  /** x == n / d lies between the bounds that n respects d-fold. */
  lemma QuotientBounds(n: real, d: real, lo: real, hi: real)
    requires d > 0.0 && lo * d <= n <= hi * d
    ensures lo <= n / d <= hi
  {
  }

  /** A moving average never leaves the range of the values it has seen. */
  lemma {:induction false} EmaStaysWithin(xs: seq<real>, period: nat, i: nat, lo: real, hi: real)
    requires 1 <= period <= i + 1 && i < |xs| && Within(xs, i + 1, lo, hi)
    ensures lo <= EmaAt(Exact(), xs, period, i) <= hi
  {
    if i + 1 == period {
      SeedSumBounds(xs, period, lo, hi);
      QuotientBounds(SeedSum(Exact(), xs, period), period as real, lo, hi);
    } else if period > 1 {
      EmaStaysWithin(xs, period, i - 1, lo, hi);
      EmaStepStaysWithin(period, EmaAt(Exact(), xs, period, i - 1), xs[i], lo, hi);
    }
  }

  lemma EmaStepStaysWithin(period: nat, previous: real, x: real, lo: real, hi: real)
    requires 1 <= period && lo <= previous <= hi && lo <= x <= hi
    ensures lo <= EmaStep(Exact(), period, previous, x) <= hi
  {
    QuotientBounds(2.0, (period + 1) as real, 0.0, 1.0);
    Blend(2.0 / (period + 1) as real, previous, x, lo, hi);
  }

  lemma Blend(alpha: real, x: real, y: real, lo: real, hi: real)
    requires 0.0 <= alpha <= 1.0 && lo <= x <= hi && lo <= y <= hi
    ensures lo <= x + alpha * (y - x) <= hi
  {
    var step := alpha * (y - x);
    if y >= x {
      SignOfProduct(alpha, y - x, step);
      SignOfProduct(1.0 - alpha, y - x, (1.0 - alpha) * (y - x));
      assert (1.0 - alpha) * (y - x) == (y - x) - step;
    } else {
      SignOfProduct(alpha, x - y, -step);
      SignOfProduct(1.0 - alpha, x - y, (1.0 - alpha) * (x - y));
      assert (1.0 - alpha) * (x - y) == (x - y) + step;
    }
  }

  /** So does Wilder's, which is why an ATR lies between the least and the greatest true range so far. */
  lemma {:induction false} WilderStaysWithin(xs: seq<real>, period: nat, i: nat, lo: real, hi: real)
    requires 1 <= period <= i + 1 && i < |xs| && Within(xs, i + 1, lo, hi)
    ensures lo <= WilderAt(Exact(), xs, period, i) <= hi
  {
    if i + 1 == period {
      SeedSumBounds(xs, period, lo, hi);
      QuotientBounds(SeedSum(Exact(), xs, period), period as real, lo, hi);
    } else if period > 1 {
      WilderStaysWithin(xs, period, i - 1, lo, hi);
      WilderStepStaysWithin(period, WilderAt(Exact(), xs, period, i - 1), xs[i], lo, hi);
    }
  }

  lemma WilderStepStaysWithin(period: nat, previous: real, x: real, lo: real, hi: real)
    requires 1 < period && lo <= previous <= hi && lo <= x <= hi
    ensures lo <= WilderStep(Exact(), period, previous, x) <= hi
  {
    var rest, d := (period - 1) as real, period as real;
    WeightedSumStaysWithin(rest, previous, x, lo, hi, previous * rest, lo * d, hi * d);
    QuotientBounds(previous * rest + x, d, lo, hi);
  }

  lemma WeightedSumStaysWithin(
    rest: real, previous: real, x: real, lo: real, hi: real, weighted: real, loD: real, hiD: real)
    requires rest > 0.0 && lo <= previous <= hi && lo <= x <= hi
    requires weighted == previous * rest && loD == lo * (rest + 1.0) && hiD == hi * (rest + 1.0)
    ensures loD <= weighted + x <= hiD
  {
  }

  /** True range is the bar's range stretched to reach the previous close. */
  lemma TrueRangeIsStretchedRange(candles: seq<Candle>, i: nat)
    requires i < |candles|
    ensures var c := candles[i];
      TrueRangeAt(Exact(), candles, i)
      == if i == 0 then c.high - c.low
         else Max(c.high, candles[i - 1].close) - Min(c.low, candles[i - 1].close)
  {
  }

  // ---------- signs under any sign-safe arithmetic ----------

  lemma TrueRangeIsNonNegative(m: Arithmetic, candles: seq<Candle>, i: nat)
    requires SignSafe(m) && i < |candles|
    ensures TrueRangeAt(m, candles, i) >= 0.0
  {
  }

  lemma {:induction false} SeedSumIsNonNegative(m: Arithmetic, xs: seq<real>, count: nat)
    requires SignSafe(m) && count <= |xs| && forall j | 0 <= j < count :: xs[j] >= 0.0
    ensures SeedSum(m, xs, count) >= 0.0
  {
    if count > 0 { SeedSumIsNonNegative(m, xs, count - 1); }
  }

  lemma {:induction false} WilderIsNonNegative(m: Arithmetic, xs: seq<real>, period: nat, i: nat)
    requires SignSafe(m) && 1 <= period <= i + 1 && i < |xs| && forall j | 0 <= j <= i :: xs[j] >= 0.0
    ensures WilderAt(m, xs, period, i) >= 0.0
  {
    if i + 1 == period {
      SeedSumIsNonNegative(m, xs, period);
    } else if period > 1 {
      WilderIsNonNegative(m, xs, period, i - 1);
    }
  }
}
