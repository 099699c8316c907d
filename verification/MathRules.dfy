/** Tick, slippage and fee arithmetic, in exact reals. */
module MathRules {

  function TickMultiple(n: int, tick: real): real {
    n as real * tick
  }

  /** x is a whole number of steps. */
  ghost predicate OnGrid(x: real, step: real) {
    exists n :: x == TickMultiple(n, step)
  }

  function FloorToTick(price: real, tick: real): (r: real)
    requires tick > 0.0
    ensures r <= price < r + tick
  {
    var units := price / tick;
    FloorBrackets(units.Floor as real, units, tick, units.Floor as real * tick, price);
    units.Floor as real * tick
  }

  function CeilToTick(price: real, tick: real): (r: real)
    requires tick > 0.0
    ensures r - tick < price <= r
  {
    var units := -(price / tick);
    FloorBrackets(units.Floor as real, units, tick, units.Floor as real * tick, -price);
    -(units.Floor as real * tick)
  }

  // The products are named so that the solver only meets linear facts about them.

  lemma ScaledOrder(a: real, b: real, c: real, ac: real, bc: real)
    requires c > 0.0 && ac == a * c && bc == b * c
    ensures a <= b ==> ac <= bc
    ensures a < b ==> ac < bc
  {
  }

  lemma NextMultiple(a: real, c: real, ac: real, next: real)
    requires ac == a * c && next == (a + 1.0) * c
    ensures next == ac + c
  {
  }

  lemma FloorBrackets(f: real, x: real, tick: real, ft: real, xt: real)
    requires tick > 0.0 && f <= x < f + 1.0 && ft == f * tick && xt == x * tick
    ensures ft <= xt < ft + tick
  {
    var next := (f + 1.0) * tick;
    ScaledOrder(f, x, tick, ft, xt);
    ScaledOrder(x, f + 1.0, tick, xt, next);
    NextMultiple(f, tick, ft, next);
  }

  lemma TickLevelsAreOnGrid(price: real, tick: real)
    requires tick > 0.0
    ensures OnGrid(FloorToTick(price, tick), tick) && OnGrid(CeilToTick(price, tick), tick)
  {
    var down, up := (price / tick).Floor, (-(price / tick)).Floor;
    assert FloorToTick(price, tick) == TickMultiple(down, tick);
    NegatedMultiple(up, tick);
    assert CeilToTick(price, tick) == TickMultiple(-up, tick);
  }

  /** The tick floor is the greatest tick multiple that does not exceed the price. */
  lemma FloorToTickIsGreatest(price: real, tick: real, k: int)
    requires tick > 0.0 && TickMultiple(k, tick) <= price
    ensures OnGrid(FloorToTick(price, tick), tick)
    ensures TickMultiple(k, tick) <= FloorToTick(price, tick)
  {
    var units := (price / tick).Floor;
    assert FloorToTick(price, tick) == TickMultiple(units, tick);
    if units < k { GridSpacing(units, k, tick); }
  }

  /** The tick ceiling is the least tick multiple that is not below the price. */
  lemma CeilToTickIsLeast(price: real, tick: real, k: int)
    requires tick > 0.0 && price <= TickMultiple(k, tick)
    ensures OnGrid(CeilToTick(price, tick), tick)
    ensures CeilToTick(price, tick) <= TickMultiple(k, tick)
  {
    var units := (-(price / tick)).Floor;
    NegatedMultiple(units, tick);
    assert CeilToTick(price, tick) == TickMultiple(-units, tick);
    if k < -units { GridSpacing(k, -units, tick); }
  }

  lemma GridSpacing(m: int, n: int, tick: real)
    requires tick > 0.0 && m < n
    ensures TickMultiple(m, tick) + tick <= TickMultiple(n, tick)
  {
    var next := (m as real + 1.0) * tick;
    NextMultiple(m as real, tick, m as real * tick, next);
    ScaledOrder(m as real + 1.0, n as real, tick, next, n as real * tick);
  }

  lemma NegatedMultiple(n: int, tick: real)
    ensures TickMultiple(-n, tick) == -TickMultiple(n, tick)
  {
  }

  function BuySlippage(reference: real, bps: real): real {
    reference * (1.0 + bps / 10000.0)
  }

  function SellSlippage(reference: real, bps: real): real {
    reference * (1.0 - bps / 10000.0)
  }

  function Abs(x: real): real { if x < 0.0 then -x else x }

  function Notional(fillPrice: real, quantity: real): real {
    Abs(fillPrice * quantity)
  }

  function ComputeFee(fillPrice: real, quantity: real, bps: real): real {
    Notional(fillPrice, quantity) * bps / 10000.0
  }

  /** The exact remainder test on quantities. */
  predicate IsQuantityAligned(quantity: real, step: real)
    requires step > 0.0
  {
    quantity - (quantity / step).Floor as real * step == 0.0
  }

  /** It accepts exactly the whole multiples of the step. */
  lemma QuantityAlignedMeansOnGrid(quantity: real, step: real)
    requires step > 0.0
    ensures IsQuantityAligned(quantity, step) <==> OnGrid(quantity, step)
  {
    assert quantity - (quantity / step).Floor as real * step == 0.0 ==>
        quantity == TickMultiple((quantity / step).Floor, step);
    if OnGrid(quantity, step) {
      var n :| quantity == TickMultiple(n, step);
      FloorToTickIsGreatest(quantity, step, n);
    }
  }

  // ---------- adverse fills ----------

  function BuyFill(reference: real, bps: real, tick: real): real
    requires tick > 0.0
  {
    CeilToTick(BuySlippage(reference, bps), tick)
  }

  function SellFill(reference: real, bps: real, tick: real): real
    requires tick > 0.0
  {
    FloorToTick(SellSlippage(reference, bps), tick)
  }

  /** What the policy's slippage bound buys: a slipped price stays positive exactly below 10,000 basis points. */
  lemma SlippageStaysPositive(reference: real, bps: real)
    requires reference > 0.0 && bps >= 0.0
    ensures BuySlippage(reference, bps) >= reference
    ensures SellSlippage(reference, bps) > 0.0 <==> bps < 10000.0
  {
    var rate := bps / 10000.0;
    SignOfProduct(1.0 - rate, reference, (1.0 - rate) * reference);
    SignOfProduct(reference, rate, reference * rate);
    assert SellSlippage(reference, bps) == (1.0 - rate) * reference;
    Distribute(reference, rate, reference * rate);
    assert BuySlippage(reference, bps) == reference + reference * rate;
  }

  /** A buy that fills at a positive price never beats its reference, and misses it by a bounded amount. */
  lemma BuyFillIsAdverse(reference: real, bps: real, tick: real)
    requires tick > 0.0 && 0.0 <= bps < 10000.0 && BuyFill(reference, bps, tick) > 0.0
    ensures reference > 0.0
    ensures reference <= BuyFill(reference, bps, tick) < reference + reference * (bps / 10000.0) + tick
  {
    var rate := bps / 10000.0;
    var slip := reference * rate;
    Distribute(reference, rate, slip);
    SignOfProduct(reference, 1.0 + rate, BuySlippage(reference, bps));
    SignOfProduct(reference, rate, slip);
  }

  /** The same for a sell, mirrored. */
  lemma SellFillIsAdverse(reference: real, bps: real, tick: real)
    requires tick > 0.0 && 0.0 <= bps < 10000.0 && SellFill(reference, bps, tick) > 0.0
    ensures reference > 0.0
    ensures reference - reference * (bps / 10000.0) - tick < SellFill(reference, bps, tick) <= reference
  {
  }

  lemma Distribute(x: real, rate: real, slip: real)
    requires slip == x * rate
    ensures x * (1.0 + rate) == x + slip && x * (1.0 - rate) == x - slip
  {
  }

  lemma SignOfProduct(a: real, b: real, ab: real)
    requires ab == a * b
    ensures b > 0.0 ==> (ab > 0.0 <==> a > 0.0)
    ensures a >= 0.0 && b >= 0.0 ==> ab >= 0.0
  {
  }

  lemma FeeIsNonNegative(fillPrice: real, quantity: real, bps: real)
    requires bps >= 0.0
    ensures ComputeFee(fillPrice, quantity, bps) >= 0.0
  {
  }
}
