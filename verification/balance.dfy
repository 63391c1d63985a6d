/** `Balance`: an immutable snapshot of an account's available and
    unavailable (reserved) money at one time. */
module Balances {
  import opened Base

  datatype BalanceError = NegativeAvailable | NegativeUnavailable

  datatype Balance = Balance(
    balanceId: Id,
    accountId: Id,
    runId: Id,
    timestamp: Timestamp,
    available: real,
    unavailable: real)

  /** `__post_init__`: neither component may be negative; available is
      checked first. */
  function Create(d: Balance): (r: Result<Balance, BalanceError>)
    ensures r.Ok? <==> d.available >= 0.0 && d.unavailable >= 0.0
    ensures r.Ok? ==> r.value == d
    ensures r == Err(NegativeAvailable) <==> d.available < 0.0
    ensures r == Err(NegativeUnavailable) <==> d.available >= 0.0 && d.unavailable < 0.0
  {
    if d.available < 0.0 then Err(NegativeAvailable)
    else if d.unavailable < 0.0 then Err(NegativeUnavailable)
    else Ok(d)
  }

  /** `total_balance`: for a snapshot construction accepts, at least each
      component, and 0 only when both are. */
  function Total(b: Balance): (t: real)
    ensures b.available >= 0.0 && b.unavailable >= 0.0 ==>
      t >= b.available && t >= b.unavailable && (t == 0.0 <==> b.available == 0.0 && b.unavailable == 0.0)
  {
    b.available + b.unavailable
  }

  /** `utilization_rate`: the reserved share of the total, in percent, and 0
      for an empty balance. */
  function Utilization(b: Balance): (u: real)
    ensures Total(b) == 0.0 ==> u == 0.0
    ensures Total(b) != 0.0 ==> u * Total(b) == b.unavailable * 100.0
  {
    if Total(b) == 0.0 then 0.0 else (b.unavailable / Total(b)) * 100.0
  }

  /** For a constructed balance the utilization is a percentage: between 0
      and 100, 0 exactly when nothing is reserved, 100 exactly when
      everything is. */
  lemma UtilizationBounds(b: Balance)
    requires Create(b).Ok?
    ensures 0.0 <= Utilization(b) <= 100.0
    ensures Utilization(b) == 0.0 <==> b.unavailable == 0.0
    ensures Utilization(b) == 100.0 <==> b.available == 0.0 && b.unavailable > 0.0
  {
    var t := Total(b);
    if t != 0.0 {
      var u := Utilization(b);
      assert t > 0.0;
      assert (100.0 - u) * t == 100.0 * t - u * t;
      assert (100.0 - u) * t == b.available * 100.0;
      SignOfProduct(u, t);
      SignOfProduct(100.0 - u, t);
    }
  }

  /** With a positive factor, a product has the sign of the other factor. */
  lemma SignOfProduct(x: real, t: real)
    requires t > 0.0
    ensures x * t > 0.0 <==> x > 0.0
    ensures x * t == 0.0 <==> x == 0.0
  {
    if x > 0.0 {
      assert x * t > 0.0;
    } else if x < 0.0 {
      assert (-x) * t > 0.0;
    }
  }

  /** 70000 available and 30000 reserved is 30% utilization of 100000;
      95000 and 5000 is 5%. */
  lemma UtilizationExample()
    ensures Total(Balance(0, 1, 2, 0, 80000.0, 20000.0)) == 100000.0
    ensures Utilization(Balance(0, 1, 2, 0, 70000.0, 30000.0)) == 30.0
    ensures Utilization(Balance(0, 1, 2, 0, 95000.0, 5000.0)) == 5.0
    ensures Utilization(Balance(0, 1, 2, 0, 0.0, 100000.0)) == 100.0
    ensures Utilization(Balance(0, 1, 2, 0, 0.0, 0.0)) == 0.0
    ensures Create(Balance(0, 1, 2, 0, -100.0, 0.0)) == Err(NegativeAvailable)
    ensures Create(Balance(0, 1, 2, 0, 100.0, -50.0)) == Err(NegativeUnavailable)
  {
  }
}
