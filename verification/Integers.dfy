/** Facts about floor division that the solver does not find by itself. */
module Integers {

  lemma ProductsStepByDivisor(a: int, b: int, d: int)
    requires d > 0 && a < b
    ensures a * d + d <= b * d
  {
    assert (b - a - 1) * d >= 0;
    assert (b - a - 1) * d == b * d - a * d - d;
  }

  lemma QuotientIsUnique(x: int, d: int, q: int, r: int)
    requires d > 0 && x == q * d + r && 0 <= r < d
    ensures x / d == q && x % d == r
  {
    SplitIsUnique(d, q, r, x / d, x % d);
  }

  lemma SplitIsUnique(d: int, q: int, r: int, q': int, r': int)
    requires d > 0 && q * d + r == q' * d + r' && 0 <= r < d && 0 <= r' < d
    ensures q == q' && r == r'
  {
    if q < q' { ProductsStepByDivisor(q, q', d); }
    if q' < q { ProductsStepByDivisor(q', q, d); }
  }

  /** Dividing by k * d in two stages. */
  lemma DivisionInStages(x: int, d: int, k: int)
    requires d > 0 && k > 0
    ensures k * d > 0
    ensures x % (k * d) % d == x % d
    ensures x % (k * d) / d == x / d - x / (k * d) * k
    ensures x / (k * d) == x / d / k
    ensures x % (k * d) == x / d % k * d + x % d
  {
    ProductsStepByDivisor(0, k, d);
    var q, r := x / d, x % d;
    var q', r' := q / k, q % k;
    ProductsStepByDivisor(r', k, d);
    assert q == q' * k + r';
    assert r' * d >= 0;
    assert x == q' * (k * d) + (r' * d + r) by {
      assert q * d == (q' * k) * d + r' * d;
      assert (q' * k) * d == q' * (k * d);
    }
    QuotientIsUnique(x, k * d, q', r' * d + r);
    QuotientIsUnique(r' * d + r, d, r', r);
  }

  lemma MultipleDivides(k: int, d: int)
    requires d > 0
    ensures k * d % d == 0 && k * d / d == k
  {
    QuotientIsUnique(k * d, d, k, 0);
  }

  lemma FloorIsMonotone(x: int, y: int, d: int)
    requires d > 0 && x <= y
    ensures x / d <= y / d
  {
    if y / d < x / d { ProductsStepByDivisor(y / d, x / d, d); }
  }

  lemma FloorIsMultiple(x: int, d: int)
    requires d > 0
    ensures (x - x % d) % d == 0
  {
    QuotientIsUnique(x - x % d, d, x / d, 0);
  }

  /** x - x % d is the greatest multiple of d that does not exceed x. */
  lemma FloorIsGreatestMultiple(x: int, d: int, u: int)
    requires d > 0 && u <= x && u % d == 0
    ensures u <= x - x % d
  {
    FloorIsMonotone(u, x, d);
    if u / d < x / d { ProductsStepByDivisor(u / d, x / d, d); }
  }

  lemma DivisibilityChains(x: int, d: int, f: int)
    requires d > 0 && f > 0 && x % d == 0 && d % f == 0
    ensures x % f == 0
  {
    var k := d / f;
    assert d == k * f;
    DivisionInStages(x, f, k);
  }

  /** A common factor cancels from a division. */
  lemma ScaledDivision(x: int, d: int, k: int)
    requires d > 0 && k > 0
    ensures d * k > 0 && (x * k) / (d * k) == x / d && (x * k) % (d * k) == x % d * k
  {
    ProductsStepByDivisor(0, d, k);
    ProductsStepByDivisor(x % d, d, k);
    assert x * k == (x / d) * d * k + x % d * k;
    assert (x / d) * d * k == (x / d) * (d * k);
    if x % d > 0 { ProductsStepByDivisor(0, x % d, k); }
    QuotientIsUnique(x * k, d * k, x / d, x % d * k);
  }

  lemma ShiftByMultiple(x: int, k: int, d: int)
    requires d > 0 && x % d == 0
    ensures (x + k * d) % d == 0
  {
    QuotientIsUnique(x + k * d, d, x / d + k, 0);
  }

  lemma WholeMultiple(x: int, d: int)
    requires d > 0 && x % d == 0
    ensures x / d * d == x
  {
  }

  lemma Regroup(a: int, b: int, c: int)
    ensures a * b * c == a * (b * c)
  {
  }

  /** Division rounded up, for what is left to cover; nothing left takes nothing. */
  function CeilDiv(x: int, d: int): int
    requires d > 0
  {
    if x <= 0 then 0 else (x - 1) / d + 1
  }

  /** The least number of steps of d that cover x. */
  lemma CeilDivIsLeast(x: int, d: int, q: nat)
    requires d > 0
    ensures x <= CeilDiv(x, d) * d
    ensures x <= q * d ==> CeilDiv(x, d) <= q
  {
    if x > 0 {
      assert CeilDiv(x, d) * d == (x - 1) / d * d + d;
      if q < CeilDiv(x, d) && q > 0 { ProductsStepByDivisor(q - 1, (x - 1) / d, d); }
    }
  }

  lemma CeilDivStep(x: int, d: int)
    requires d > 0 && x > 0
    ensures CeilDiv(x, d) == CeilDiv(x - d, d) + 1
  {
    if x > d {
      QuotientIsUnique(x - 1 - d, d, (x - 1) / d - 1, (x - 1) % d);
    } else {
      QuotientIsUnique(x - 1, d, 0, x - 1);
    }
  }

  lemma CeilDivIsMonotone(x: int, y: int, d: int)
    requires d > 0 && x <= y
    ensures 0 <= CeilDiv(x, d) <= CeilDiv(y, d)
  {
    if x > 0 { FloorIsMonotone(x - 1, y - 1, d); }
    if x > 0 { FloorIsMonotone(0, x - 1, d); }
    if y > 0 { FloorIsMonotone(0, y - 1, d); }
  }
}
