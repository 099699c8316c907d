/** The seven indicator calculators and the assembly every result passes through. */
module Indicators {
  import opened Results
  import opened Candles
  import opened Counting
  import opened Extrema
  import opened Averages

  datatype IndicatorCode =
    | EmaOfClose
    | TrueRange
    | WilderAtr
    | RollingHighest
    | RollingLowest
    | PriorRollingHighest
    | PriorRollingLowest

  const MAX_PERIOD: int := 1_000_000

  datatype IndicatorError =
    | PeriodNotAccepted
    | PeriodMissing
    | PeriodOutOfRange
    | LengthMismatch
    | DefinedDuringWarmup(index: nat)
    | UndefinedAfterWarmup(index: nat)
    | NegativeValue(index: nat)

  /** The only parameter is a period, which every indicator but the true range takes. */
  datatype IndicatorSeries = IndicatorSeries(
    code: IndicatorCode,
    period: Option<int>,
    values: seq<Option<real>>,
    firstDefinedIndex: Option<nat>,
    definedValueCount: nat)

  predicate ValidParameters(code: IndicatorCode, period: Option<int>) {
    if code.TrueRange? then period.None? else period.Some? && 1 <= period.value <= MAX_PERIOD
  }

  function CanonicalizeParameters(code: IndicatorCode, period: Option<int>): (r: Result<Option<int>, IndicatorError>)
    ensures r.Ok? <==> ValidParameters(code, period)
    ensures r.Ok? ==> r.value == period
  {
    if code.TrueRange? then (if period.Some? then Err(PeriodNotAccepted) else Ok(None))
    else if period.None? then Err(PeriodMissing)
    else if period.value < 1 || period.value > MAX_PERIOD then Err(PeriodOutOfRange)
    else Ok(period)
  }

  // ---------- what the calculators compute ----------

  function Highs(candles: seq<Candle>): (xs: seq<real>)
    ensures |xs| == |candles|
  {
    seq(|candles|, i requires 0 <= i < |candles| => candles[i].high)
  }

  function Lows(candles: seq<Candle>): (xs: seq<real>)
    ensures |xs| == |candles|
  {
    seq(|candles|, i requires 0 <= i < |candles| => candles[i].low)
  }

  function Defined(xs: seq<real>): (out: seq<Option<real>>)
    ensures |out| == |xs|
  {
    seq(|xs|, i requires 0 <= i < |xs| => Some(xs[i]))
  }

  function Calculate(m: Arithmetic, code: IndicatorCode, period: Option<int>, candles: seq<Candle>)
    : (values: seq<Option<real>>)
    requires ValidParameters(code, period)
    ensures |values| == |candles|
  {
    match code
    case EmaOfClose => Ema(m, Closes(candles), period.value)
    case TrueRange => Defined(TrueRanges(m, candles))
    case WilderAtr => Wilder(m, TrueRanges(m, candles), period.value)
    case RollingHighest => Rolling(Highs(candles), period.value, true)
    case RollingLowest => Rolling(Lows(candles), period.value, false)
    case PriorRollingHighest => Prior(Highs(candles), period.value, true)
    case PriorRollingLowest => Prior(Lows(candles), period.value, false)
  }

  // ---------- shape ----------

  /** Undefined for exactly the first `prefix` slots. */
  predicate WarmupShape(values: seq<Option<real>>, prefix: nat) {
    forall i | 0 <= i < |values| :: values[i].Some? <==> prefix <= i
  }

  function UndefinedPrefix(code: IndicatorCode, period: Option<int>): nat
    requires ValidParameters(code, period)
  {
    match code
    case TrueRange => 0
    case PriorRollingHighest => period.value
    case PriorRollingLowest => period.value
    case _ => period.value - 1
  }

  predicate NonNegative(values: seq<Option<real>>) {
    forall i | 0 <= i < |values| && values[i].Some? :: values[i].value >= 0.0
  }

  predicate CodeInvariants(code: IndicatorCode, period: Option<int>, values: seq<Option<real>>)
    requires ValidParameters(code, period)
  {
    && WarmupShape(values, UndefinedPrefix(code, period))
    && (code.TrueRange? || code.WilderAtr? ==> NonNegative(values))
  }

  function FirstDefinedIndex(values: seq<Option<real>>, from: nat := 0): Option<nat>
    decreases |values| - from
  {
    if from >= |values| then None
    else if values[from].Some? then Some(from)
    else FirstDefinedIndex(values, from + 1)
  }

  function DefinedCount(values: seq<Option<real>>): nat {
    if values == [] then 0
    else DefinedCount(values[..|values| - 1]) + (if values[|values| - 1].Some? then 1 else 0)
  }

  /** The recorded first index and count are those of the warm-up shape. */
  lemma {:induction false} ShapeCounts(values: seq<Option<real>>, prefix: nat)
    requires WarmupShape(values, prefix)
    ensures DefinedCount(values) == if prefix <= |values| then |values| - prefix else 0
  {
    if values != [] { ShapeCounts(values[..|values| - 1], prefix); }
  }

  lemma {:induction false} ShapeStarts(values: seq<Option<real>>, prefix: nat, from: nat)
    requires WarmupShape(values, prefix) && from <= prefix
    ensures FirstDefinedIndex(values, from) == if prefix < |values| then Some(prefix) else None
    decreases prefix - from
  {
    if from < prefix {
      ShapeStarts(values, prefix, from + 1);
      if from >= |values| {
        assert FirstDefinedIndex(values, from) == None;
      }
    }
  }

  method RequireWarmupShape(values: seq<Option<real>>, prefix: nat) returns (r: Result<(), IndicatorError>)
    ensures r.Ok? <==> WarmupShape(values, prefix)
  {
    var n := |values|;
    if prefix >= n {
      for i := 0 to n
        invariant forall j | 0 <= j < i :: values[j] == None
      {
        if values[i].Some? {
          return Err(DefinedDuringWarmup(i));
        }
      }
      return Ok(());
    }
    for i := 0 to prefix
      invariant forall j | 0 <= j < i :: values[j] == None
    {
      if values[i].Some? {
        return Err(DefinedDuringWarmup(i));
      }
    }
    for i := prefix to n
      invariant forall j | prefix <= j < i :: values[j].Some?
    {
      if values[i].None? {
        return Err(UndefinedAfterWarmup(i));
      }
    }
    return Ok(());
  }

  method EnforceCodeInvariants(code: IndicatorCode, period: Option<int>, values: seq<Option<real>>)
    returns (r: Result<(), IndicatorError>)
    requires ValidParameters(code, period)
    ensures r.Ok? <==> CodeInvariants(code, period, values)
  {
    var n := |values|;
    var prefix := UndefinedPrefix(code, period);
    var shape := RequireWarmupShape(values, if prefix > n then n else prefix);
    assert WarmupShape(values, if prefix > n then n else prefix) <==> WarmupShape(values, prefix);
    if shape.Err? {
      return Err(shape.error);
    }
    if code.TrueRange? || code.WilderAtr? {
      for i := 0 to n
        invariant forall j | 0 <= j < i && values[j].Some? :: values[j].value >= 0.0
      {
        if values[i].Some? && values[i].value < 0.0 {
          return Err(NegativeValue(i));
        }
      }
    }
    return Ok(());
  }

  /** The one place where results are built. */
  method CalculatedIndicatorSeries(
    code: IndicatorCode, period: Option<int>, values: seq<Option<real>>, candleCount: nat)
    returns (r: Result<IndicatorSeries, IndicatorError>)
    ensures r.Ok? <==> ValidParameters(code, period) && |values| == candleCount && CodeInvariants(code, period, values)
    ensures r.Ok? ==>
      r.value == IndicatorSeries(code, period, values, FirstDefinedIndex(values), DefinedCount(values))
  {
    var parameters := CanonicalizeParameters(code, period);
    if parameters.Err? {
      return Err(parameters.error);
    }
    if |values| != candleCount {
      return Err(LengthMismatch);
    }
    var enforced := EnforceCodeInvariants(code, parameters.value, values);
    if enforced.Err? {
      return Err(enforced.error);
    }
    return Ok(IndicatorSeries(code, parameters.value, values, FirstDefinedIndex(values), DefinedCount(values)));
  }

  // ---------- the calculators always assemble ----------

  /** Every calculator's output has its declared warm-up, whatever the arithmetic. */
  lemma CalculatorsHaveShape(m: Arithmetic, code: IndicatorCode, period: Option<int>, candles: seq<Candle>)
    requires ValidParameters(code, period)
    ensures WarmupShape(Calculate(m, code, period, candles), UndefinedPrefix(code, period))
  {
  }

  /** Every calculator's output has its declared warm-up, and ranges are not negative, whatever the rounding. */
  lemma CalculatorsMeetInvariants(m: Arithmetic, code: IndicatorCode, period: Option<int>, candles: seq<Candle>)
    requires SignSafe(m) && ValidParameters(code, period)
    ensures CodeInvariants(code, period, Calculate(m, code, period, candles))
  {
    var xs := TrueRanges(m, candles);
    forall i | 0 <= i < |candles|
      ensures xs[i] >= 0.0
    {
      TrueRangeIsNonNegative(m, candles, i);
    }
    if code.WilderAtr? {
      forall i | period.value - 1 <= i < |candles|
        ensures WilderAt(m, xs, period.value, i) >= 0.0
      {
        WilderIsNonNegative(m, xs, period.value, i);
      }
    }
  }

  /** The series of a calculator, its metadata in closed form. */
  function SeriesOf(m: Arithmetic, code: IndicatorCode, period: Option<int>, candles: seq<Candle>): IndicatorSeries
    requires ValidParameters(code, period)
  {
    var n, prefix := |candles|, UndefinedPrefix(code, period);
    IndicatorSeries(
      code, period, Calculate(m, code, period, candles),
      if prefix < n then Some(prefix) else None,
      if prefix <= n then n - prefix else 0)
  }

  /** A calculator fails only on its parameters. */
  method Compute(m: Arithmetic, code: IndicatorCode, period: Option<int>, candles: seq<Candle>)
    returns (r: Result<IndicatorSeries, IndicatorError>)
    requires SignSafe(m) && candles != []
    ensures r.Ok? <==> ValidParameters(code, period)
    ensures r.Ok? ==> r.value == SeriesOf(m, code, period, candles)
  {
    var parameters := CanonicalizeParameters(code, period);
    if parameters.Err? {
      return Err(parameters.error);
    }
    var values: seq<Option<real>>;
    match code {
      case EmaOfClose =>
        values := EmaClose(m, candles, period.value);
      case TrueRange =>
        var ranges := TrueRangeValues(m, candles);
        values := Defined(ranges);
      case WilderAtr =>
        values := Averages.WilderAtr(m, candles, period.value);
      case RollingHighest =>
        var highs := new CountingSequence(Highs(candles));
        values := RollingExtrema(highs, period.value, true);
      case RollingLowest =>
        var lows := new CountingSequence(Lows(candles));
        values := RollingExtrema(lows, period.value, false);
      case PriorRollingHighest =>
        var highs := new CountingSequence(Highs(candles));
        values := PriorExtrema(highs, period.value, true);
      case PriorRollingLowest =>
        var lows := new CountingSequence(Lows(candles));
        values := PriorExtrema(lows, period.value, false);
    }
    CalculatorsMeetInvariants(m, code, period, candles);
    ShapeCounts(values, UndefinedPrefix(code, period));
    ShapeStarts(values, UndefinedPrefix(code, period), 0);
    r := CalculatedIndicatorSeries(code, period, values, |candles|);
  }

  // ---------- causality ----------

  lemma {:induction false} WindowExtremeIsLocal(xs: seq<real>, ys: seq<real>, lo: nat, hi: nat, wantMax: bool)
    requires lo < hi <= |xs| && hi <= |ys| && xs[..hi] == ys[..hi]
    ensures WindowExtreme(xs, lo, hi, wantMax) == WindowExtreme(ys, lo, hi, wantMax)
    decreases hi
  {
    assert xs[hi - 1] == xs[..hi][hi - 1] == ys[hi - 1];
    if lo + 1 < hi {
      assert xs[..hi - 1] == xs[..hi][..hi - 1] == ys[..hi - 1];
      WindowExtremeIsLocal(xs, ys, lo, hi - 1, wantMax);
    }
  }

  /** What a slot reads of the candles, it reads at or before its own index. */
  lemma SlotIsLocal(m: Arithmetic, code: IndicatorCode, period: Option<int>, a: seq<Candle>, b: seq<Candle>, i: nat)
    requires ValidParameters(code, period) && i < |a| && i < |b| && a[..i + 1] == b[..i + 1]
    ensures Calculate(m, code, period, a)[i] == Calculate(m, code, period, b)[i]
  {
    assert forall j | 0 <= j <= i :: a[j] == a[..i + 1][j] == b[j];
    if code.EmaOfClose? {
      assert Closes(a)[..i + 1] == Closes(b)[..i + 1];
      if period.value <= i + 1 { RecurrencesAreLocal(m, Closes(a), Closes(b), period.value, i); }
    } else if code.TrueRange? || code.WilderAtr? {
      assert TrueRanges(m, a)[..i + 1] == TrueRanges(m, b)[..i + 1];
      if code.WilderAtr? {
        if period.value <= i + 1 { RecurrencesAreLocal(m, TrueRanges(m, a), TrueRanges(m, b), period.value, i); }
      } else {
        assert TrueRanges(m, a)[..i + 1][i] == TrueRanges(m, b)[..i + 1][i];
      }
    } else {
      ExtremaAreLocal(m, code, period, a, b, i);
    }
  }

  lemma ExtremaAreLocal(
    m: Arithmetic, code: IndicatorCode, period: Option<int>, a: seq<Candle>, b: seq<Candle>, i: nat)
    requires code.RollingHighest? || code.RollingLowest? || code.PriorRollingHighest? || code.PriorRollingLowest?
    requires ValidParameters(code, period) && i < |a| && i < |b| && a[..i + 1] == b[..i + 1]
    ensures Calculate(m, code, period, a)[i] == Calculate(m, code, period, b)[i]
  {
    assert forall j | 0 <= j <= i :: a[j] == a[..i + 1][j] == b[j];
    hide Ema, Wilder, TrueRanges, WindowExtreme;
    var p := period.value;
    var highest := code.RollingHighest? || code.PriorRollingHighest?;
    var xs, ys := if highest then Highs(a) else Lows(a), if highest then Highs(b) else Lows(b);
    assert xs[..i + 1] == ys[..i + 1];
    assert xs[..i] == xs[..i + 1][..i] == ys[..i];
    if p <= i + 1 { WindowExtremeIsLocal(xs, ys, i + 1 - p, i + 1, highest); }
    if p <= i { WindowExtremeIsLocal(xs, ys, i - p, i, highest); }
  }

  /** Calculating on a prefix of the candles gives the prefix of calculating on all of them. */
  lemma CalculatorsAreCausal(m: Arithmetic, code: IndicatorCode, period: Option<int>, candles: seq<Candle>, k: nat)
    requires ValidParameters(code, period) && k <= |candles|
    ensures Calculate(m, code, period, candles[..k]) == Calculate(m, code, period, candles)[..k]
  {
    forall i: nat | i < k
      ensures Calculate(m, code, period, candles[..k])[i] == Calculate(m, code, period, candles)[i]
    {
      assert candles[..k][..i + 1] == candles[..i + 1];
      SlotIsLocal(m, code, period, candles[..k], candles, i);
    }
  }
}
