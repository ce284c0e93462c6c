/** The clearing engine: aggregate demand and supply at a candidate price and
    the fixed-depth bisection that picks the step's uniform price
    (Program.cs:81-108). */
module Clearing {
  import opened Orders

  /** The iteration budget `ClearingPrice` is called with. */
  const MaxIter := 30

  /** Sum of the quantities of the buy orders that accept `price`. */
  function DemandOf(orders: seq<Order>, price: real): int
  {
    if |orders| == 0 then 0
    else
      var last := orders[|orders| - 1];
      DemandOf(orders[..|orders| - 1], price) + (if last.BuysAt(price) then last.quantity else 0)
  }

  /** Sum of the quantities of the sell orders that accept `price`. */
  function SupplyOf(orders: seq<Order>, price: real): int
  {
    if |orders| == 0 then 0
    else
      var last := orders[|orders| - 1];
      SupplyOf(orders[..|orders| - 1], price) + (if last.SellsAt(price) then last.quantity else 0)
  }

  /** Excess demand: positive when the price is too low. */
  function Excess(orders: seq<Order>, price: real): int {
    DemandOf(orders, price) - SupplyOf(orders, price)
  }

  ghost predicate NonNegativeQuantities(orders: seq<Order>) {
    forall i :: 0 <= i < |orders| ==> 0 <= orders[i].quantity
  }

  /** The loop of `Demand`: one pass over the orders accumulating a total. */
  method Demand(orders: seq<Order>, price: real) returns (res: int)
    ensures res == DemandOf(orders, price)
  {
    res := 0;
    var i := 0;
    while i < |orders|
      invariant 0 <= i <= |orders|
      invariant res == DemandOf(orders[..i], price)
    {
      assert orders[..i + 1][..i] == orders[..i];
      if orders[i].orderType == Buy && price <= orders[i].limitPrice {
        res := res + orders[i].quantity;
      }
      i := i + 1;
    }
    assert orders[..i] == orders;
  }

  /** The loop of `Supply`. */
  method Supply(orders: seq<Order>, price: real) returns (res: int)
    ensures res == SupplyOf(orders, price)
  {
    res := 0;
    var i := 0;
    while i < |orders|
      invariant 0 <= i <= |orders|
      invariant res == SupplyOf(orders[..i], price)
    {
      assert orders[..i + 1][..i] == orders[..i];
      if orders[i].orderType == Sell && price >= orders[i].limitPrice {
        res := res + orders[i].quantity;
      }
      i := i + 1;
    }
    assert orders[..i] == orders;
  }

  /** With non-negative quantities, raising the price never raises demand
      (the buy test `price <= limit` only gets harder to pass). */
  lemma {:induction false} DemandNonIncreasing(orders: seq<Order>, p: real, q: real)
    requires NonNegativeQuantities(orders)
    requires p <= q
    ensures DemandOf(orders, q) <= DemandOf(orders, p)
  {
    if |orders| > 0 {
      var init := orders[..|orders| - 1];
      assert NonNegativeQuantities(init) by {
        forall i | 0 <= i < |init| ensures 0 <= init[i].quantity {
          assert init[i] == orders[i];
        }
      }
      DemandNonIncreasing(init, p, q);
      assert 0 <= orders[|orders| - 1].quantity;
    }
  }

  /** With non-negative quantities, raising the price never lowers supply
      (the sell test `price >= limit` only gets easier to pass). */
  lemma {:induction false} SupplyNonDecreasing(orders: seq<Order>, p: real, q: real)
    requires NonNegativeQuantities(orders)
    requires p <= q
    ensures SupplyOf(orders, p) <= SupplyOf(orders, q)
  {
    if |orders| > 0 {
      var init := orders[..|orders| - 1];
      assert NonNegativeQuantities(init) by {
        forall i | 0 <= i < |init| ensures 0 <= init[i].quantity {
          assert init[i] == orders[i];
        }
      }
      SupplyNonDecreasing(init, p, q);
      assert 0 <= orders[|orders| - 1].quantity;
    }
  }

  lemma ExcessNonIncreasing(orders: seq<Order>, p: real, q: real)
    requires NonNegativeQuantities(orders)
    requires p <= q
    ensures Excess(orders, q) <= Excess(orders, p)
  {
    DemandNonIncreasing(orders, p, q);
    SupplyNonDecreasing(orders, p, q);
  }

  /** Every buy limit lies below every sell limit: no price is acceptable to
      a buyer and a seller at once. */
  ghost predicate LimitsCrossed(orders: seq<Order>) {
    forall i, j ::
      0 <= i < |orders| && 0 <= j < |orders| && orders[i].orderType == Buy && orders[j].orderType == Sell
      ==> orders[i].limitPrice < orders[j].limitPrice
  }

  /** With crossed limits, at any price at most one side has a willing order,
      so demand or supply there is zero. */
  lemma CrossedLimitsOneSide(orders: seq<Order>, price: real)
    requires LimitsCrossed(orders)
    ensures DemandOf(orders, price) == 0 || SupplyOf(orders, price) == 0
  {
    if exists i :: 0 <= i < |orders| && orders[i].BuysAt(price) {
      var i :| 0 <= i < |orders| && orders[i].BuysAt(price);
      forall j | 0 <= j < |orders| ensures !orders[j].SellsAt(price) {
        if orders[j].orderType == Sell {
          assert orders[i].limitPrice < orders[j].limitPrice;
        }
      }
      NoSellerAccepts(orders, price);
    } else {
      NoBuyerAccepts(orders, price);
    }
  }

  /** Demand is zero when no buy order accepts the price. */
  lemma {:induction false} NoBuyerAccepts(orders: seq<Order>, price: real)
    requires forall i :: 0 <= i < |orders| ==> !orders[i].BuysAt(price)
    ensures DemandOf(orders, price) == 0
  {
    if |orders| > 0 {
      var init := orders[..|orders| - 1];
      assert forall i :: 0 <= i < |init| ==> init[i] == orders[i];
      NoBuyerAccepts(init, price);
    }
  }

  /** Supply is zero when no sell order accepts the price. */
  lemma {:induction false} NoSellerAccepts(orders: seq<Order>, price: real)
    requires forall i :: 0 <= i < |orders| ==> !orders[i].SellsAt(price)
    ensures SupplyOf(orders, price) == 0
  {
    if |orders| > 0 {
      var init := orders[..|orders| - 1];
      assert forall i :: 0 <= i < |init| ==> init[i] == orders[i];
      NoSellerAccepts(init, price);
    }
  }

  /** The iterations a call with budget `maxIter` performs. */
  function Depth(maxIter: int): nat {
    if maxIter <= 0 then 0 else maxIter
  }

  function Pow2(n: nat): (r: real)
    ensures 1.0 <= r
  {
    if n == 0 then 1.0 else 2.0 * Pow2(n - 1)
  }

  /** Half the width of the bracket the bisection ends with. */
  function HalfWidth(min: real, max: real, maxIter: int): real {
    (max - min) / Pow2(Depth(maxIter) + 1)
  }

  /** Bounded bisection over `[min, max]`: take the midpoint; when the budget
      is spent, return it; otherwise keep the upper half if demand exceeds
      supply there and the lower half if not. */
  function ClearingPrice(orders: seq<Order>, min: real, max: real, maxIter: int): (r: real)
    ensures min <= max ==> min <= r <= max
    ensures maxIter <= 0 ==> r == (max + min) / 2.0
    decreases Depth(maxIter)
  {
    var price := (max + min) / 2.0;
    if maxIter <= 0 then
      price
    else if DemandOf(orders, price) > SupplyOf(orders, price) then
      ClearingPrice(orders, price, max, maxIter - 1)
    else
      ClearingPrice(orders, min, price, maxIter - 1)
  }

  /** The result is the midpoint of a sub-bracket of `[min, max]` of width
      `(max - min) / 2^depth`, whose lower end is `min` or a price with excess
      demand and whose upper end is `max` or a price without. */
  lemma {:induction false} ClearingPriceBisects(orders: seq<Order>, min: real, max: real, maxIter: int)
    requires min <= max
    ensures var r, w := ClearingPrice(orders, min, max, maxIter), HalfWidth(min, max, maxIter);
      0.0 <= w && min <= r - w && r + w <= max &&
      (r - w == min || Excess(orders, r - w) > 0) &&
      (r + w == max || Excess(orders, r + w) <= 0)
    decreases Depth(maxIter)
  {
    if maxIter > 0 {
      var mid := (max + min) / 2.0;
      var r, w := ClearingPrice(orders, min, max, maxIter), HalfWidth(min, max, maxIter);
      HalfWidthHalves(min, max, maxIter);
      if DemandOf(orders, mid) > SupplyOf(orders, mid) {
        assert r == ClearingPrice(orders, mid, max, maxIter - 1);
        ClearingPriceBisects(orders, mid, max, maxIter - 1);
      } else {
        assert r == ClearingPrice(orders, min, mid, maxIter - 1);
        ClearingPriceBisects(orders, min, mid, maxIter - 1);
      }
    } else {
      assert Pow2(1) == 2.0;
    }
  }

  /** Either half of the bracket, with one iteration fewer, ends with the same
      half-width. */
  lemma HalfWidthHalves(min: real, max: real, maxIter: int)
    requires 0 < maxIter
    ensures var mid := (max + min) / 2.0;
      HalfWidth(mid, max, maxIter - 1) == HalfWidth(min, max, maxIter) &&
      HalfWidth(min, mid, maxIter - 1) == HalfWidth(min, max, maxIter)
  {
  }

  /** With non-negative quantities, every price at least `HalfWidth` below the
      result has excess demand and every price at least `HalfWidth` above it
      has none (unless that side of the bracket was never moved): the result
      lies within `HalfWidth` of where excess demand changes sign. */
  lemma ClearingPriceNearCrossing(orders: seq<Order>, min: real, max: real, maxIter: int)
    requires NonNegativeQuantities(orders)
    requires min <= max
    ensures var r, w := ClearingPrice(orders, min, max, maxIter), HalfWidth(min, max, maxIter);
      (min < r - w ==> forall p :: p <= r - w ==> Excess(orders, p) > 0) &&
      (r + w < max ==> forall p :: r + w <= p ==> Excess(orders, p) <= 0)
  {
    var r, w := ClearingPrice(orders, min, max, maxIter), HalfWidth(min, max, maxIter);
    ClearingPriceBisects(orders, min, max, maxIter);
    forall p | p <= r - w && min < r - w ensures Excess(orders, p) > 0 {
      ExcessNonIncreasing(orders, p, r - w);
    }
    forall p | r + w <= p && r + w < max ensures Excess(orders, p) <= 0 {
      ExcessNonIncreasing(orders, r + w, p);
    }
  }

  /** The bisection as a loop, computing demand and supply with the loops
      above. */
  method Bisect(orders: seq<Order>, min: real, max: real, maxIter: int) returns (price: real)
    ensures price == ClearingPrice(orders, min, max, maxIter)
  {
    var lo, hi, n := min, max, maxIter;
    price := (hi + lo) / 2.0;
    while n > 0
      invariant ClearingPrice(orders, lo, hi, n) == ClearingPrice(orders, min, max, maxIter)
      invariant price == (hi + lo) / 2.0
      decreases n
    {
      var demand := Demand(orders, price);
      var supply := Supply(orders, price);
      if demand > supply {
        lo := price;
      } else {
        hi := price;
      }
      n := n - 1;
      price := (hi + lo) / 2.0;
    }
  }
}
