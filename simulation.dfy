/** The simulation: a fixed array of agents, the current price and the three
    per-step series, and the step that chains order generation, clearing and
    settlement (Program.cs:5-56). */
module Simulation {
  import opened Orders
  import opened Clearing
  import opened Settlement

  /** Every agent's starting cash and holdings, and the price they imply. */
  const InitialCash := 10000.0
  const InitialAssets := 100
  const InitialPrice := InitialCash / InitialAssets as real

  class Market {
    const agents: array<Agent>
    var price: real
    var prices: seq<real>
    var cashVolume: seq<real>
    var involvedAgentsCount: seq<int>

    /** Every agent appears once. */
    ghost predicate Valid()
      reads this, agents
    {
      forall i, j :: 0 <= i < j < agents.Length ==> agents[i] != agents[j]
    }

    ghost function Agents(): set<Agent>
      reads this, agents
    {
      set i | 0 <= i < agents.Length :: agents[i]
    }

    /** Creates one agent per propensity, each with the initial cash and
        holdings, and starts at the initial price with empty series. */
    constructor (propensities: seq<real>)
      ensures Valid() && fresh(agents) && agents.Length == |propensities|
      ensures forall i :: 0 <= i < agents.Length ==>
                fresh(agents[i]) && agents[i].cash == InitialCash &&
                agents[i].assets == InitialAssets && agents[i].p == propensities[i]
      ensures price == InitialPrice && prices == [] && cashVolume == [] && involvedAgentsCount == []
    {
      var created: seq<Agent> := [];
      while |created| < |propensities|
        invariant |created| <= |propensities|
        invariant forall i :: 0 <= i < |created| ==>
                    fresh(created[i]) && created[i].cash == InitialCash &&
                    created[i].assets == InitialAssets && created[i].p == propensities[i]
        invariant forall i, j :: 0 <= i < j < |created| ==> created[i] != created[j]
      {
        var agent := new Agent(InitialCash, InitialAssets, propensities[|created|]);
        created := created + [agent];
      }
      agents := new Agent[|created|](i requires 0 <= i < |created| => created[i]);
      price := InitialPrice;
      prices, cashVolume, involvedAgentsCount := [], [], [];
    }

    /** Every agent can quote at the current price with its draw: both
        uniforms in range, and no buy limit at exactly zero. */
    ghost predicate CanQuote(avg: real, std: real, draws: seq<Draw>)
      reads this, agents
    {
      |draws| == agents.Length &&
      forall i :: 0 <= i < agents.Length ==>
        ValidDraw(draws[i]) &&
        (draws[i].side < agents[i].p ==> price + Gaussian(avg, std, draws[i].z) != 0.0)
    }

    /** One order per agent, in array order, each quoted by that agent. */
    method GenerateOrders(avg: real, std: real, draws: seq<Draw>) returns (orders: seq<Order>)
      requires CanQuote(avg, std, draws)
      ensures |orders| == agents.Length
      ensures forall i :: 0 <= i < agents.Length ==>
                orders[i] == agents[i].GetOrder(avg, std, price, draws[i])
    {
      orders := [];
      var i := 0;
      while i < agents.Length
        invariant 0 <= i <= agents.Length
        invariant |orders| == i
        invariant forall j :: 0 <= j < i ==> orders[j] == agents[j].GetOrder(avg, std, price, draws[j])
      {
        orders := orders + [agents[i].GetOrder(avg, std, price, draws[i])];
        i := i + 1;
      }
    }

    /** One simulation step: every agent quotes, the price clears by bisection
        over `[0, 3 * price]`, the marketable orders settle, and each series
        grows by one record (the volume recorded is half the traded value). The
        bisection runs with its default budget, `MaxIter`. */
    method Step(avg: real, std: real, draws: seq<Draw>) returns (orders: seq<Order>)
      requires Valid() && CanQuote(avg, std, draws)
      modifies this, Agents()
      ensures Valid()
      ensures |orders| == agents.Length
      ensures forall i :: 0 <= i < agents.Length ==>
                orders[i] == old(agents[i].GetOrder(avg, std, price, draws[i]))
      ensures price == ClearingPrice(orders, 0.0, 3.0 * old(price), MaxIter)
      ensures 0.0 <= old(price) ==> 0.0 <= price <= 3.0 * old(price)
      ensures prices == old(prices) + [price]
      ensures cashVolume == old(cashVolume) + [TradedValue(orders, price) / 2.0]
      ensures involvedAgentsCount == old(involvedAgentsCount) + [MarketableCount(orders, price)]
      ensures forall i :: 0 <= i < agents.Length ==>
                agents[i].cash == CashAfter(old(agents[i].cash), orders[i], price) &&
                agents[i].assets == AssetsAfter(old(agents[i].assets), orders[i], price)
    {
      orders := StepWithBudget(avg, std, draws, MaxIter);
    }

    /** `Step` for any iteration budget of the bisection; `Step` runs it with
        `MaxIter`. */
    method StepWithBudget(avg: real, std: real, draws: seq<Draw>, maxIter: int) returns (orders: seq<Order>)
      requires Valid() && CanQuote(avg, std, draws)
      modifies this, Agents()
      ensures Valid()
      ensures |orders| == agents.Length
      ensures forall i :: 0 <= i < agents.Length ==>
                orders[i] == old(agents[i].GetOrder(avg, std, price, draws[i]))
      ensures price == ClearingPrice(orders, 0.0, 3.0 * old(price), maxIter)
      ensures 0.0 <= old(price) ==> 0.0 <= price <= 3.0 * old(price)
      ensures prices == old(prices) + [price]
      ensures cashVolume == old(cashVolume) + [TradedValue(orders, price) / 2.0]
      ensures involvedAgentsCount == old(involvedAgentsCount) + [MarketableCount(orders, price)]
      ensures forall i :: 0 <= i < agents.Length ==>
                agents[i].cash == CashAfter(old(agents[i].cash), orders[i], price) &&
                agents[i].assets == AssetsAfter(old(agents[i].assets), orders[i], price)
    {
      orders := GenerateOrders(avg, std, draws);
      var newPrice := Bisect(orders, 0.0, 3.0 * price, maxIter);
      var volume, involvedAgents := SettleAgents(orders, newPrice);
      Record(newPrice, volume, involvedAgents);
    }

    /** The end of a step: the new price becomes current, and one record is
        appended to each series, with half the traded volume. */
    method Record(newPrice: real, volume: real, involvedAgents: int)
      modifies this
      ensures price == newPrice
      ensures prices == old(prices) + [newPrice]
      ensures cashVolume == old(cashVolume) + [volume / 2.0]
      ensures involvedAgentsCount == old(involvedAgentsCount) + [involvedAgents]
    {
      price := newPrice;
      prices := prices + [price];
      cashVolume := cashVolume + [volume / 2.0];
      involvedAgentsCount := involvedAgentsCount + [involvedAgents];
    }

    /** Settlement of this step's orders, one per agent, seen agent by agent. */
    method SettleAgents(orders: seq<Order>, price: real) returns (volume: real, involvedAgents: nat)
      requires Valid() && |orders| == agents.Length
      requires forall i :: 0 <= i < |orders| ==> orders[i].agent == agents[i]
      modifies Agents()
      ensures volume == TradedValue(orders, price)
      ensures involvedAgents == MarketableCount(orders, price)
      ensures forall i :: 0 <= i < agents.Length ==>
                agents[i].cash == CashAfter(old(agents[i].cash), orders[i], price) &&
                agents[i].assets == AssetsAfter(old(agents[i].assets), orders[i], price)
    {
      assert DistinctAgents(orders);
      assert (set o | o in orders :: o.agent) <= Agents() by {
        forall o | o in orders ensures o.agent in Agents() {
          var k :| 0 <= k < |orders| && orders[k] == o;
          assert o.agent == agents[k];
        }
      }
      volume, involvedAgents := Settle(orders, price);
    }
  }

  /** The two-order market of a buy for 5 units limited at 100 and a sell for
      5 units limited at 90, cleared over `[0, 180]` (a previous price of 60)
      with any positive budget, such as `MaxIter`: the first midpoint, 90,
      balances demand and supply, so the bracket's upper end stays at 90 and
      the result ends strictly below it; only the buy executes. */
  lemma BoundaryTradeIsOneSided(buyer: Agent, seller: Agent, maxIter: int)
    requires 0 < maxIter
    ensures var orders := [Order(buyer, 100.0, 5, Buy), Order(seller, 90.0, 5, Sell)];
      var r := ClearingPrice(orders, 0.0, 180.0, maxIter);
      0.0 <= r < 90.0 && orders[0].MarketableAt(r) && !orders[1].MarketableAt(r) &&
      MarketableCount(orders, r) == 1 && TradedValue(orders, r) == 5.0 * r
  {
    var orders := [Order(buyer, 100.0, 5, Buy), Order(seller, 90.0, 5, Sell)];
    BoundaryMarket(orders, 90.0);
    var r := ClearingPrice(orders, 0.0, 180.0, maxIter);
    assert r == ClearingPrice(orders, 0.0, 90.0, maxIter - 1);
    BisectionStaysBelow(orders, 0.0, maxIter - 1);
    BoundaryMarket(orders, r);
  }

  /** The same market in the program's first step, cleared over `[0, 300]`
      (three times the initial price of 100) with `MaxIter` iterations: the
      last midpoint falls just above 90, so both orders execute: two
      participants, traded value `10 * price`. */
  lemma BoundaryTradeIsTwoSided(buyer: Agent, seller: Agent)
    ensures var orders := [Order(buyer, 100.0, 5, Buy), Order(seller, 90.0, 5, Sell)];
      var r := ClearingPrice(orders, 0.0, 3.0 * InitialPrice, MaxIter);
      90.0 < r <= 100.0 && orders[0].MarketableAt(r) && orders[1].MarketableAt(r) &&
      MarketableCount(orders, r) == 2 && TradedValue(orders, r) == 10.0 * r
  {
    var orders := [Order(buyer, 100.0, 5, Buy), Order(seller, 90.0, 5, Sell)];
    assert 3.0 * InitialPrice == 300.0;
    TwoOrderClearingPrice(orders, 0.0, 300.0, MaxIter);
    BoundaryPriceOverThreeHundred();
    var r := ClearingPrice(orders, 0.0, 300.0, MaxIter);
    BoundaryMarket(orders, r);
  }

  /** A market whose buy limit, 50, lies below its sell limit, 60, cleared
      in the program's first step over `[0, 300]` with `MaxIter` iterations:
      the bisection closes in on the buy limit from below and ends just under
      50, so the buy executes and the sell does not: one participant, traded
      value `5 * price`. */
  lemma CrossedTradeIsOneSided(buyer: Agent, seller: Agent)
    ensures var orders := [Order(buyer, 50.0, 5, Buy), Order(seller, 60.0, 5, Sell)];
      var r := ClearingPrice(orders, 0.0, 3.0 * InitialPrice, MaxIter);
      49.0 < r < 50.0 && orders[0].MarketableAt(r) && !orders[1].MarketableAt(r) &&
      MarketableCount(orders, r) == 1 && TradedValue(orders, r) == 5.0 * r
  {
    var orders := [Order(buyer, 50.0, 5, Buy), Order(seller, 60.0, 5, Sell)];
    assert 3.0 * InitialPrice == 300.0;
    TwoOrderClearingPrice(orders, 0.0, 300.0, MaxIter);
    CrossedPriceOverThreeHundred();
    var r := ClearingPrice(orders, 0.0, 300.0, MaxIter);
    BoundaryMarket(orders, r);
  }

  /** A market of one buy followed by one sell for the same positive
      quantity. */
  ghost predicate TwoOrderMarket(orders: seq<Order>) {
    |orders| == 2 && orders[0].orderType == Buy && orders[1].orderType == Sell &&
    orders[0].quantity == orders[1].quantity > 0
  }

  /** The bisection of such a market with the comparison worked out: demand
      exceeds supply at a midpoint exactly when the buy accepts it and the
      sell does not. */
  function TwoOrderPrice(buyLimit: real, sellLimit: real, lo: real, hi: real, n: int): real
    decreases Depth(n)
  {
    var mid := (hi + lo) / 2.0;
    if n <= 0 then mid
    else if mid <= buyLimit && mid < sellLimit then TwoOrderPrice(buyLimit, sellLimit, mid, hi, n - 1)
    else TwoOrderPrice(buyLimit, sellLimit, lo, mid, n - 1)
  }

  /** In a two-order market the bisection over any bracket and budget is
      `TwoOrderPrice` of the two limits. */
  lemma {:induction false} TwoOrderClearingPrice(orders: seq<Order>, lo: real, hi: real, n: int)
    requires TwoOrderMarket(orders)
    ensures ClearingPrice(orders, lo, hi, n) ==
            TwoOrderPrice(orders[0].limitPrice, orders[1].limitPrice, lo, hi, n)
    decreases Depth(n)
  {
    if n > 0 {
      var mid := (hi + lo) / 2.0;
      BoundaryMarket(orders, mid);
      if mid <= orders[0].limitPrice && mid < orders[1].limitPrice {
        TwoOrderClearingPrice(orders, mid, hi, n - 1);
      } else {
        TwoOrderClearingPrice(orders, lo, mid, n - 1);
      }
    }
  }

  /** The buy-100 / sell-90 bisection over `[0, 300]` with thirty iterations,
      one bisection step per line. The result, 48318382125 / 2^29, lies just
      above 90. */
  lemma BoundaryPriceOverThreeHundred()
    ensures TwoOrderPrice(100.0, 90.0, 0.0, 300.0, 30) == 90.00000008381903171539306640625
  {
    assert TwoOrderPrice(100.0, 90.0, 0.0, 300.0, 30) == TwoOrderPrice(100.0, 90.0, 0.0, 150.0, 29);
    assert TwoOrderPrice(100.0, 90.0, 0.0, 150.0, 29) == TwoOrderPrice(100.0, 90.0, 75.0, 150.0, 28);
    assert TwoOrderPrice(100.0, 90.0, 75.0, 150.0, 28) == TwoOrderPrice(100.0, 90.0, 75.0, 112.5, 27);
    assert TwoOrderPrice(100.0, 90.0, 75.0, 112.5, 27) == TwoOrderPrice(100.0, 90.0, 75.0, 93.75, 26);
    assert TwoOrderPrice(100.0, 90.0, 75.0, 93.75, 26) == TwoOrderPrice(100.0, 90.0, 84.375, 93.75, 25);
    assert TwoOrderPrice(100.0, 90.0, 84.375, 93.75, 25) == TwoOrderPrice(100.0, 90.0, 89.0625, 93.75, 24);
    assert TwoOrderPrice(100.0, 90.0, 89.0625, 93.75, 24) == TwoOrderPrice(100.0, 90.0, 89.0625, 91.40625, 23);
    assert TwoOrderPrice(100.0, 90.0, 89.0625, 91.40625, 23) == TwoOrderPrice(100.0, 90.0, 89.0625, 90.234375, 22);
    assert TwoOrderPrice(100.0, 90.0, 89.0625, 90.234375, 22) == TwoOrderPrice(100.0, 90.0, 89.6484375, 90.234375, 21);
    assert TwoOrderPrice(100.0, 90.0, 89.6484375, 90.234375, 21) == TwoOrderPrice(100.0, 90.0, 89.94140625, 90.234375, 20);
    assert TwoOrderPrice(100.0, 90.0, 89.94140625, 90.234375, 20) == TwoOrderPrice(100.0, 90.0, 89.94140625, 90.087890625, 19);
    assert TwoOrderPrice(100.0, 90.0, 89.94140625, 90.087890625, 19) == TwoOrderPrice(100.0, 90.0, 89.94140625, 90.0146484375, 18);
    assert TwoOrderPrice(100.0, 90.0, 89.94140625, 90.0146484375, 18) == TwoOrderPrice(100.0, 90.0, 89.97802734375, 90.0146484375, 17);
    assert TwoOrderPrice(100.0, 90.0, 89.97802734375, 90.0146484375, 17) == TwoOrderPrice(100.0, 90.0, 89.996337890625, 90.0146484375, 16);
    assert TwoOrderPrice(100.0, 90.0, 89.996337890625, 90.0146484375, 16) == TwoOrderPrice(100.0, 90.0, 89.996337890625, 90.0054931640625, 15);
    assert TwoOrderPrice(100.0, 90.0, 89.996337890625, 90.0054931640625, 15) == TwoOrderPrice(100.0, 90.0, 89.996337890625, 90.00091552734375, 14);
    assert TwoOrderPrice(100.0, 90.0, 89.996337890625, 90.00091552734375, 14) == TwoOrderPrice(100.0, 90.0, 89.998626708984375, 90.00091552734375, 13);
    assert TwoOrderPrice(100.0, 90.0, 89.998626708984375, 90.00091552734375, 13) == TwoOrderPrice(100.0, 90.0, 89.9997711181640625, 90.00091552734375, 12);
    assert TwoOrderPrice(100.0, 90.0, 89.9997711181640625, 90.00091552734375, 12) == TwoOrderPrice(100.0, 90.0, 89.9997711181640625, 90.00034332275390625, 11);
    assert TwoOrderPrice(100.0, 90.0, 89.9997711181640625, 90.00034332275390625, 11) == TwoOrderPrice(100.0, 90.0, 89.9997711181640625, 90.000057220458984375, 10);
    assert TwoOrderPrice(100.0, 90.0, 89.9997711181640625, 90.000057220458984375, 10) == TwoOrderPrice(100.0, 90.0, 89.9999141693115234375, 90.000057220458984375, 9);
    assert TwoOrderPrice(100.0, 90.0, 89.9999141693115234375, 90.000057220458984375, 9) == TwoOrderPrice(100.0, 90.0, 89.99998569488525390625, 90.000057220458984375, 8);
    assert TwoOrderPrice(100.0, 90.0, 89.99998569488525390625, 90.000057220458984375, 8) == TwoOrderPrice(100.0, 90.0, 89.99998569488525390625, 90.000021457672119140625, 7);
    assert TwoOrderPrice(100.0, 90.0, 89.99998569488525390625, 90.000021457672119140625, 7) == TwoOrderPrice(100.0, 90.0, 89.99998569488525390625, 90.0000035762786865234375, 6);
    assert TwoOrderPrice(100.0, 90.0, 89.99998569488525390625, 90.0000035762786865234375, 6) == TwoOrderPrice(100.0, 90.0, 89.99999463558197021484375, 90.0000035762786865234375, 5);
    assert TwoOrderPrice(100.0, 90.0, 89.99999463558197021484375, 90.0000035762786865234375, 5) == TwoOrderPrice(100.0, 90.0, 89.999999105930328369140625, 90.0000035762786865234375, 4);
    assert TwoOrderPrice(100.0, 90.0, 89.999999105930328369140625, 90.0000035762786865234375, 4) == TwoOrderPrice(100.0, 90.0, 89.999999105930328369140625, 90.0000013411045074462890625, 3);
    assert TwoOrderPrice(100.0, 90.0, 89.999999105930328369140625, 90.0000013411045074462890625, 3) == TwoOrderPrice(100.0, 90.0, 89.999999105930328369140625, 90.00000022351741790771484375, 2);
    assert TwoOrderPrice(100.0, 90.0, 89.999999105930328369140625, 90.00000022351741790771484375, 2) == TwoOrderPrice(100.0, 90.0, 89.999999664723873138427734375, 90.00000022351741790771484375, 1);
    assert TwoOrderPrice(100.0, 90.0, 89.999999664723873138427734375, 90.00000022351741790771484375, 1) == TwoOrderPrice(100.0, 90.0, 89.9999999441206455230712890625, 90.00000022351741790771484375, 0);
    assert TwoOrderPrice(100.0, 90.0, 89.9999999441206455230712890625, 90.00000022351741790771484375, 0) == 90.00000008381903171539306640625;
  }

  /** The buy-50 / sell-60 bisection over `[0, 300]` with thirty iterations.
      The result, 26843545575 / 2^29, lies just below 50. */
  lemma CrossedPriceOverThreeHundred()
    ensures TwoOrderPrice(50.0, 60.0, 0.0, 300.0, 30) == 49.99999995343387126922607421875
  {
    assert TwoOrderPrice(50.0, 60.0, 0.0, 300.0, 30) == TwoOrderPrice(50.0, 60.0, 0.0, 150.0, 29);
    assert TwoOrderPrice(50.0, 60.0, 0.0, 150.0, 29) == TwoOrderPrice(50.0, 60.0, 0.0, 75.0, 28);
    assert TwoOrderPrice(50.0, 60.0, 0.0, 75.0, 28) == TwoOrderPrice(50.0, 60.0, 37.5, 75.0, 27);
    assert TwoOrderPrice(50.0, 60.0, 37.5, 75.0, 27) == TwoOrderPrice(50.0, 60.0, 37.5, 56.25, 26);
    assert TwoOrderPrice(50.0, 60.0, 37.5, 56.25, 26) == TwoOrderPrice(50.0, 60.0, 46.875, 56.25, 25);
    assert TwoOrderPrice(50.0, 60.0, 46.875, 56.25, 25) == TwoOrderPrice(50.0, 60.0, 46.875, 51.5625, 24);
    assert TwoOrderPrice(50.0, 60.0, 46.875, 51.5625, 24) == TwoOrderPrice(50.0, 60.0, 49.21875, 51.5625, 23);
    assert TwoOrderPrice(50.0, 60.0, 49.21875, 51.5625, 23) == TwoOrderPrice(50.0, 60.0, 49.21875, 50.390625, 22);
    assert TwoOrderPrice(50.0, 60.0, 49.21875, 50.390625, 22) == TwoOrderPrice(50.0, 60.0, 49.8046875, 50.390625, 21);
    assert TwoOrderPrice(50.0, 60.0, 49.8046875, 50.390625, 21) == TwoOrderPrice(50.0, 60.0, 49.8046875, 50.09765625, 20);
    assert TwoOrderPrice(50.0, 60.0, 49.8046875, 50.09765625, 20) == TwoOrderPrice(50.0, 60.0, 49.951171875, 50.09765625, 19);
    assert TwoOrderPrice(50.0, 60.0, 49.951171875, 50.09765625, 19) == TwoOrderPrice(50.0, 60.0, 49.951171875, 50.0244140625, 18);
    assert TwoOrderPrice(50.0, 60.0, 49.951171875, 50.0244140625, 18) == TwoOrderPrice(50.0, 60.0, 49.98779296875, 50.0244140625, 17);
    assert TwoOrderPrice(50.0, 60.0, 49.98779296875, 50.0244140625, 17) == TwoOrderPrice(50.0, 60.0, 49.98779296875, 50.006103515625, 16);
    assert TwoOrderPrice(50.0, 60.0, 49.98779296875, 50.006103515625, 16) == TwoOrderPrice(50.0, 60.0, 49.9969482421875, 50.006103515625, 15);
    assert TwoOrderPrice(50.0, 60.0, 49.9969482421875, 50.006103515625, 15) == TwoOrderPrice(50.0, 60.0, 49.9969482421875, 50.00152587890625, 14);
    assert TwoOrderPrice(50.0, 60.0, 49.9969482421875, 50.00152587890625, 14) == TwoOrderPrice(50.0, 60.0, 49.999237060546875, 50.00152587890625, 13);
    assert TwoOrderPrice(50.0, 60.0, 49.999237060546875, 50.00152587890625, 13) == TwoOrderPrice(50.0, 60.0, 49.999237060546875, 50.0003814697265625, 12);
    assert TwoOrderPrice(50.0, 60.0, 49.999237060546875, 50.0003814697265625, 12) == TwoOrderPrice(50.0, 60.0, 49.99980926513671875, 50.0003814697265625, 11);
    assert TwoOrderPrice(50.0, 60.0, 49.99980926513671875, 50.0003814697265625, 11) == TwoOrderPrice(50.0, 60.0, 49.99980926513671875, 50.000095367431640625, 10);
    assert TwoOrderPrice(50.0, 60.0, 49.99980926513671875, 50.000095367431640625, 10) == TwoOrderPrice(50.0, 60.0, 49.9999523162841796875, 50.000095367431640625, 9);
    assert TwoOrderPrice(50.0, 60.0, 49.9999523162841796875, 50.000095367431640625, 9) == TwoOrderPrice(50.0, 60.0, 49.9999523162841796875, 50.00002384185791015625, 8);
    assert TwoOrderPrice(50.0, 60.0, 49.9999523162841796875, 50.00002384185791015625, 8) == TwoOrderPrice(50.0, 60.0, 49.999988079071044921875, 50.00002384185791015625, 7);
    assert TwoOrderPrice(50.0, 60.0, 49.999988079071044921875, 50.00002384185791015625, 7) == TwoOrderPrice(50.0, 60.0, 49.999988079071044921875, 50.0000059604644775390625, 6);
    assert TwoOrderPrice(50.0, 60.0, 49.999988079071044921875, 50.0000059604644775390625, 6) == TwoOrderPrice(50.0, 60.0, 49.99999701976776123046875, 50.0000059604644775390625, 5);
    assert TwoOrderPrice(50.0, 60.0, 49.99999701976776123046875, 50.0000059604644775390625, 5) == TwoOrderPrice(50.0, 60.0, 49.99999701976776123046875, 50.000001490116119384765625, 4);
    assert TwoOrderPrice(50.0, 60.0, 49.99999701976776123046875, 50.000001490116119384765625, 4) == TwoOrderPrice(50.0, 60.0, 49.9999992549419403076171875, 50.000001490116119384765625, 3);
    assert TwoOrderPrice(50.0, 60.0, 49.9999992549419403076171875, 50.000001490116119384765625, 3) == TwoOrderPrice(50.0, 60.0, 49.9999992549419403076171875, 50.00000037252902984619140625, 2);
    assert TwoOrderPrice(50.0, 60.0, 49.9999992549419403076171875, 50.00000037252902984619140625, 2) == TwoOrderPrice(50.0, 60.0, 49.999999813735485076904296875, 50.00000037252902984619140625, 1);
    assert TwoOrderPrice(50.0, 60.0, 49.999999813735485076904296875, 50.00000037252902984619140625, 1) == TwoOrderPrice(50.0, 60.0, 49.999999813735485076904296875, 50.0000000931322574615478515625, 0);
    assert TwoOrderPrice(50.0, 60.0, 49.999999813735485076904296875, 50.0000000931322574615478515625, 0) == 49.99999995343387126922607421875;
  }

  /** Demand, supply, participants and traded value of a two-order market, a
      buy followed by a sell. */
  lemma BoundaryMarket(orders: seq<Order>, p: real)
    requires |orders| == 2 && orders[0].orderType == Buy && orders[1].orderType == Sell
    ensures DemandOf(orders, p) == if orders[0].BuysAt(p) then orders[0].quantity else 0
    ensures SupplyOf(orders, p) == if orders[1].SellsAt(p) then orders[1].quantity else 0
    ensures MarketableCount(orders, p) == (if orders[0].BuysAt(p) then 1 else 0) + (if orders[1].SellsAt(p) then 1 else 0)
    ensures TradedValue(orders, p) ==
              (if orders[0].BuysAt(p) then p * orders[0].quantity as real else 0.0) +
              (if orders[1].SellsAt(p) then p * orders[1].quantity as real else 0.0)
  {
    var first := orders[..1];
    assert first[..0] == [] && first[0] == orders[0];
    assert DemandOf(first, p) == DemandOf([], p) + (if orders[0].BuysAt(p) then orders[0].quantity else 0);
    assert SupplyOf(first, p) == 0;
    assert DemandOf(orders, p) == DemandOf(first, p);
    assert SupplyOf(orders, p) == SupplyOf(first, p) + (if orders[1].SellsAt(p) then orders[1].quantity else 0);
    assert MarketableCount(first, p) == MarketableCount([], p) + (if orders[0].BuysAt(p) then 1 else 0);
    assert TradedValue(first, p) == TradedValue([], p) + (if orders[0].BuysAt(p) then p * orders[0].quantity as real else 0.0);
  }

  /** Below 90, only the buy of the buy-100 / sell-90 market is willing, so excess
      demand is positive and the bisection keeps moving its lower end up. */
  lemma {:induction false} BisectionStaysBelow(orders: seq<Order>, lo: real, n: int)
    requires TwoOrderMarket(orders) && orders[0].limitPrice == 100.0 && orders[1].limitPrice == 90.0
    requires 0.0 <= lo < 90.0
    ensures 0.0 <= ClearingPrice(orders, lo, 90.0, n) < 90.0
    decreases Depth(n)
  {
    if n > 0 {
      var mid := (90.0 + lo) / 2.0;
      BoundaryMarket(orders, mid);
      BisectionStaysBelow(orders, mid, n - 1);
    }
  }
}
