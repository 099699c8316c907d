/** Exact integer-ratio derivation of a coarser timeframe from a finer one. */
module Derivation {
  import opened Integers
  import opened Results
  import opened Timeframes

  const MAX_DERIVATION_RATIO: int := 10_080

  datatype DerivationError = SameTimeframe | TargetFiner | NotAMultiple | RatioOutOfRange

  datatype Plan = Plan(source: Timeframe, target: Timeframe, ratio: int)

  function DurationMilliseconds(timeframe: Timeframe): (ms: int)
    ensures 60_000 <= ms <= 604_800_000 && Duration(timeframe) == ms * MILLISECOND
  {
    Duration(timeframe) / MILLISECOND
  }

  function ExactRatio(sourceMs: int, targetMs: int): Result<int, DerivationError>
    requires 0 < sourceMs
  {
    if sourceMs == targetMs then Err(SameTimeframe)
    else if sourceMs > targetMs then Err(TargetFiner)
    else if targetMs % sourceMs != 0 then Err(NotAMultiple)
    else
      var ratio := targetMs / sourceMs;
      if ratio < 1 || ratio > MAX_DERIVATION_RATIO then Err(RatioOutOfRange) else Ok(ratio)
  }

  function DerivePlan(source: Timeframe, target: Timeframe): Result<Plan, DerivationError> {
    var ratio :- ExactRatio(DurationMilliseconds(source), DurationMilliseconds(target));
    Ok(Plan(source, target, ratio))
  }

  /** A plan exists exactly for a strictly coarser multiple, and no ratio is ever out of range. */
  lemma PlanIsExact(source: Timeframe, target: Timeframe)
    ensures DerivePlan(source, target).Ok?
      <==> Duration(source) < Duration(target) && Duration(target) % Duration(source) == 0
    ensures DerivePlan(source, target) != Err(RatioOutOfRange)
    ensures DerivePlan(source, target).Ok? ==>
      var ratio := DerivePlan(source, target).value.ratio;
      1 < ratio && Duration(target) == ratio * Duration(source)
  {
    var s, t := DurationMilliseconds(source), DurationMilliseconds(target);
    RatioIsExact(s, t, Duration(source), Duration(target));
  }

  lemma RatioIsExact(s: int, t: int, d: int, e: int)
    requires 60_000 <= s <= 604_800_000 && 60_000 <= t <= 604_800_000
    requires d == s * MILLISECOND && e == t * MILLISECOND
    ensures ExactRatio(s, t).Ok? <==> d < e && e % d == 0
    ensures ExactRatio(s, t) != Err(RatioOutOfRange)
    ensures ExactRatio(s, t).Ok? ==> 1 < ExactRatio(s, t).value && e == ExactRatio(s, t).value * d
  {
    ScaledDivision(t, s, MILLISECOND);
    if t % s == 0 && s < t {
      var ratio := t / s;
      assert t == ratio * s;
      if ratio < 2 { ProductsStepByDivisor(ratio, 2, s); }
      if ratio > MAX_DERIVATION_RATIO { ProductsStepByDivisor(MAX_DERIVATION_RATIO, ratio, s); }
      assert e == ratio * d;
    }
  }

  /** Ratios multiply along a chain of timeframes. */
  lemma RatiosMultiply(a: Timeframe, b: Timeframe, c: Timeframe)
    requires DerivePlan(a, b).Ok? && DerivePlan(b, c).Ok?
    ensures DerivePlan(a, c).Ok?
    ensures DerivePlan(a, c).value.ratio == DerivePlan(a, b).value.ratio * DerivePlan(b, c).value.ratio
  {
    PlanIsExact(a, b);
    PlanIsExact(b, c);
    PlanIsExact(a, c);
    var p, q := DerivePlan(a, b).value.ratio, DerivePlan(b, c).value.ratio;
    ChainIsExact(Duration(a), Duration(b), Duration(c), p, q);
    QuotientOf(a, c, p * q);
  }

  lemma ChainIsExact(a: int, b: int, c: int, p: int, q: int)
    requires 0 < a && b == p * a && c == q * b
    ensures c == (p * q) * a && c % a == 0
  {
    assert c == q * (p * a) == (p * q) * a;
    MultipleDivides(p * q, a);
  }

  lemma QuotientOf(source: Timeframe, target: Timeframe, ratio: int)
    requires DerivePlan(source, target).Ok? && Duration(target) == ratio * Duration(source)
    ensures DerivePlan(source, target).value.ratio == ratio
  {
    PlanIsExact(source, target);
    SplitIsUnique(Duration(source), ratio, 0, DerivePlan(source, target).value.ratio, 0);
  }
}
