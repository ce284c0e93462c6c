/** Agents and the orders they quote each step: the `OrderType` enum, the
    `Order` record and the `Agent` class with its `GetOrder` (Program.cs:125-161). */
module Orders {

  datatype OrderType = Buy | Sell

  /** One agent's trade intent for one step. `agent` is a non-owning
      reference to the agent that quoted it; settlement uses it to apply the
      trade. The record is immutable once built. */
  datatype Order = Order(agent: Agent, limitPrice: real, quantity: int, orderType: OrderType)
  {
    /** A buy order that accepts `price`: counted by demand, executed by settlement. */
    predicate BuysAt(price: real) {
      orderType == Buy && price <= limitPrice
    }

    /** A sell order that accepts `price`: counted by supply, executed by settlement. */
    predicate SellsAt(price: real) {
      orderType == Sell && price >= limitPrice
    }

    /** The order executes when the step clears at `price`. */
    predicate MarketableAt(price: real) {
      BuysAt(price) || SellsAt(price)
    }
  }

  /** The random draws one agent consumes in one step, in the order the agent
      takes them: the uniform `r` (used for a sell quantity), the uniform
      `side` compared with the buy propensity, and `z`, the standard normal
      deviate behind the Gaussian offset of the limit price. */
  datatype Draw = Draw(r: real, side: real, z: real)

  /** The two uniforms come from a single-precision draw in [0, 1). */
  predicate ValidDraw(d: Draw) {
    0.0 <= d.r < 1.0 && 0.0 <= d.side < 1.0
  }

  /** A normal deviate with mean `mu` and standard deviation `sigma`, given a
      standard normal deviate `z`. */
  function Gaussian(mu: real, sigma: real, z: real): real {
    mu + sigma * z
  }

  /** The `(int)` cast of a floating-point value: truncation toward zero. */
  function Truncate(x: real): (n: int)
    ensures 0.0 <= x ==> 0 <= n && n as real <= x < n as real + 1.0
    ensures x < 0.0 ==> n <= 0 && n as real - 1.0 < x <= n as real
  {
    if x >= 0.0 then x.Floor else -((-x).Floor)
  }

  class Agent {
    var cash: real
    var assets: int
    /** Buy propensity, fixed when the agent is created. */
    const p: real

    constructor (cash: real, assets: int, p: real)
      ensures this.cash == cash && this.assets == assets && this.p == p
    {
      this.cash := cash;
      this.assets := assets;
      this.p := p;
    }

    /** The agent's order for a step at market price `currPrice`. A buy is
        placed exactly when the side draw falls below the propensity; its limit
        is offset by a Gaussian with mean `avg`, and it asks for as many whole
        units as its cash buys at that limit. A sell offers the fraction `r` of
        the holdings, truncated, with a limit offset by a Gaussian with mean
        `-avg`. Reading the agent only, it changes nothing. */
    function GetOrder(avg: real, std: real, currPrice: real, d: Draw): (o: Order)
      reads this
      requires ValidDraw(d)
      requires d.side < p ==> currPrice + Gaussian(avg, std, d.z) != 0.0
      ensures o.agent == this
      ensures o.orderType == Buy <==> d.side < p
      ensures o.orderType == Buy ==> o.limitPrice == currPrice + Gaussian(avg, std, d.z)
      ensures o.orderType == Buy && 0.0 <= cash && 0.0 < o.limitPrice ==>
                0 <= o.quantity &&
                o.quantity as real * o.limitPrice <= cash < (o.quantity as real + 1.0) * o.limitPrice
      ensures o.orderType == Buy && 0.0 <= cash && o.limitPrice < 0.0 ==> o.quantity <= 0
      ensures o.orderType == Sell ==> o.limitPrice == currPrice + Gaussian(-avg, std, d.z)
      ensures o.orderType == Sell && 0 <= assets ==>
                0 <= o.quantity <= assets &&
                o.quantity as real <= assets as real * d.r < o.quantity as real + 1.0
    {
      if d.side < p then
        var limPrice := currPrice + Gaussian(avg, std, d.z);
        Order(this, limPrice, BuyQuantity(cash, limPrice), Buy)
      else
        Order(this, currPrice + Gaussian(-avg, std, d.z), SellQuantity(assets, d.r), Sell)
    }
  }

  /** The quantity a buy asks for, `(int)(cash / limit)`. At a positive
      limit it is the largest whole number of units the cash pays for; at a
      negative limit it is not positive. */
  function BuyQuantity(cash: real, limit: real): (q: int)
    requires limit != 0.0
    ensures 0.0 <= cash && 0.0 < limit ==> 0 <= q && q as real * limit <= cash < (q as real + 1.0) * limit
    ensures 0.0 <= cash && limit < 0.0 ==> q <= 0
  {
    var q := Truncate(cash / limit);
    if 0.0 <= cash && 0.0 < limit then
      QuotientBounds(cash, limit, q);
      q
    else if 0.0 <= cash && limit < 0.0 then
      assert cash / limit <= 0.0;
      q
    else
      q
  }

  lemma QuotientBounds(cash: real, limit: real, q: int)
    requires 0.0 <= cash && 0.0 < limit && q == Truncate(cash / limit)
    ensures q as real * limit <= cash < (q as real + 1.0) * limit
  {
    var x := cash / limit;
    DivisionCancels(cash, limit);
    ScaleLe(q as real, x, limit);
    ScaleStrict(x, q as real + 1.0, limit);
    assert x * limit == cash;
    assert cash < (q as real + 1.0) * limit;
  }

  lemma DivisionCancels(a: real, c: real)
    requires c != 0.0
    ensures (a / c) * c == a
  {}

  lemma ScaleLe(a: real, b: real, c: real)
    requires a <= b && 0.0 < c
    ensures a * c <= b * c
  {}

  lemma ScaleStrict(a: real, b: real, c: real)
    requires a < b && 0.0 < c
    ensures a * c < b * c
  {}

  /** The quantity a sell offers, `(int)(assets * r)` with `0 <= r < 1`:
      with non-negative holdings, the whole part of the fraction `r` of them,
      never more than the agent holds. */
  function SellQuantity(assets: int, r: real): (q: int)
    requires 0.0 <= r < 1.0
    ensures 0 <= assets ==> 0 <= q <= assets && q as real <= assets as real * r < q as real + 1.0
  {
    var y := assets as real * r;
    var q := Truncate(y);
    if 0 <= assets then
      FractionAtMost(assets as real, r, y);
      TruncateBelow(y, q, assets);
      q
    else
      q
  }

  lemma FractionAtMost(n: real, r: real, y: real)
    requires 0.0 <= n && 0.0 <= r < 1.0 && y == n * r
    ensures 0.0 <= y <= n
  {
    if n != 0.0 {
      ScaleLe(0.0, r, n);
      ScaleLe(r, 1.0, n);
    }
  }

  lemma TruncateBelow(y: real, q: int, n: int)
    requires 0.0 <= y <= n as real && q == Truncate(y)
    ensures 0 <= q <= n
  {}

}
