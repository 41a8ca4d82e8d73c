/** The execution layer's stand-alone position sizer: risk a fixed 2% of the
    account on the distance to the stop. */
module ExecutionRisk {
  import opened Common

  /** The fraction of the account one trade may lose. */
  const MaxRiskPerTrade: real := 0.02

  /** `position_size`: rejects any non-positive input with a ValueError;
      otherwise the quantity whose loss over the stop distance (a fraction of
      the price) is exactly 2% of the balance. */
  function PositionSize(accountBalance: real, stopLossDistance: real, price: real): (r: Result<real>)
    ensures r.Err? <==> stopLossDistance <= 0.0 || price <= 0.0 || accountBalance <= 0.0
    ensures r.Err? ==> r.error == "ValueError"
    ensures r.Ok? ==> r.value > 0.0
    ensures r.Ok? ==> r.value * (stopLossDistance * price) == accountBalance * MaxRiskPerTrade
  {
    if stopLossDistance <= 0.0 || price <= 0.0 || accountBalance <= 0.0 then Err("ValueError")
    else
      var riskAmount := accountBalance * MaxRiskPerTrade;
      var perUnit := stopLossDistance * price;
      assert perUnit > 0.0 by { PositiveProduct(stopLossDistance, price); }
      Ok(riskAmount / perUnit)
  }

  /** A wider stop or a higher price buys strictly fewer units. */
  lemma PositionSizeDecreasing(accountBalance: real, d1: real, p1: real, d2: real, p2: real)
    requires accountBalance > 0.0 && 0.0 < d1 && 0.0 < p1 && 0.0 < d2 && 0.0 < p2
    requires d1 * p1 < d2 * p2
    ensures PositionSize(accountBalance, d2, p2).value < PositionSize(accountBalance, d1, p1).value
  {
    var q1 := PositionSize(accountBalance, d1, p1).value;
    var q2 := PositionSize(accountBalance, d2, p2).value;
    var budget := accountBalance * MaxRiskPerTrade;
    assert q1 * (d1 * p1) == budget && q2 * (d2 * p2) == budget;
    if q2 >= q1 {
      PositiveProduct(d1, p1);
      ProductStrict(q1, q2, d1 * p1, d2 * p2);
      assert false;
    }
  }

  lemma ProductStrict(a: real, b: real, x: real, y: real)
    requires 0.0 < a <= b && 0.0 < x < y
    ensures a * x < b * y
  {
    assert a * x < a * y;
    assert a * y <= b * y;
  }

  /** Sizing scales with the account: twice the balance, twice the units. */
  lemma PositionSizeLinear(accountBalance: real, stopLossDistance: real, price: real, k: real)
    requires accountBalance > 0.0 && stopLossDistance > 0.0 && price > 0.0 && k > 0.0
    ensures PositionSize(k * accountBalance, stopLossDistance, price).Ok?
    ensures PositionSize(k * accountBalance, stopLossDistance, price).value
            == k * PositionSize(accountBalance, stopLossDistance, price).value
  {
    PositiveProduct(k, accountBalance);
    PositiveProduct(stopLossDistance, price);
    var q := PositionSize(accountBalance, stopLossDistance, price).value;
    var qk := PositionSize(k * accountBalance, stopLossDistance, price).value;
    var u := stopLossDistance * price;
    assert qk * u == k * (q * u);
    ProductCancels(qk, k * q, u);
  }

  lemma ProductCancels(a: real, b: real, u: real)
    requires u > 0.0 && a * u == b * u
    ensures a == b
  {
  }

  /** The module's example: 10000 with a 1% stop at 20000 is one unit. */
  lemma PositionSizeExample()
    ensures PositionSize(10000.0, 0.01, 20000.0) == Ok(1.0)
  {
  }
}
