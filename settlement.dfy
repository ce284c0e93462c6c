/** Settlement: executing the orders that are marketable at the clearing
    price against the agents that placed them (Program.cs:35-47, 110-123). */
module Settlement {
  import opened Orders
  import opened Clearing

  /** An agent's cash after its order `o` settles at `price`. */
  function CashAfter(cash: real, o: Order, price: real): real {
    if o.BuysAt(price) then cash - price * o.quantity as real
    else if o.SellsAt(price) then cash + price * o.quantity as real
    else cash
  }

  /** An agent's holdings after its order `o` settles at `price`. */
  function AssetsAfter(assets: int, o: Order, price: real): int {
    if o.BuysAt(price) then assets + o.quantity
    else if o.SellsAt(price) then assets - o.quantity
    else assets
  }

  /** Settlement moves value between cash and holdings at the clearing price:
      an agent's wealth valued at that price is unchanged. */
  lemma SettlementPreservesWealth(cash: real, assets: int, o: Order, price: real)
    ensures CashAfter(cash, o, price) + price * AssetsAfter(assets, o, price) as real
            == cash + price * assets as real
  {
  }

  /** Number of orders marketable at `price`. */
  function MarketableCount(orders: seq<Order>, price: real): (n: nat)
    ensures n <= |orders|
  {
    if |orders| == 0 then 0
    else
      MarketableCount(orders[..|orders| - 1], price) + (if orders[|orders| - 1].MarketableAt(price) then 1 else 0)
  }

  /** Sum of `price * quantity` over the orders marketable at `price`. */
  function TradedValue(orders: seq<Order>, price: real): real
  {
    if |orders| == 0 then 0.0
    else
      var last := orders[|orders| - 1];
      TradedValue(orders[..|orders| - 1], price) + (if last.MarketableAt(price) then price * last.quantity as real else 0.0)
  }

  /** The traded value is the price times demand plus supply at that price:
      each marketable buy is counted by demand, each marketable sell by supply. */
  lemma {:induction false} TradedValueIsDemandPlusSupply(orders: seq<Order>, price: real)
    ensures TradedValue(orders, price) == price * (DemandOf(orders, price) + SupplyOf(orders, price)) as real
  {
    if |orders| > 0 {
      var init, last := orders[..|orders| - 1], orders[|orders| - 1];
      TradedValueIsDemandPlusSupply(init, price);
      var d, s := DemandOf(init, price), SupplyOf(init, price);
      var q := last.quantity;
      if last.BuysAt(price) {
        assert price * (d + q + s) as real == price * (d + s) as real + price * q as real;
      } else if last.SellsAt(price) {
        assert price * (d + s + q) as real == price * (d + s) as real + price * q as real;
      }
    }
  }

  /** Orders whose agents are pairwise distinct: one order per agent. */
  ghost predicate DistinctAgents(orders: seq<Order>) {
    forall i, j :: 0 <= i < j < |orders| ==> orders[i].agent != orders[j].agent
  }

  /** Applies one order to its agent at `price` and returns the traded value.
      Only the order's own agent changes. */
  method ExecOrder(order: Order, price: real) returns (value: real)
    modifies order.agent
    ensures value == price * order.quantity as real
    ensures order.orderType == Buy ==>
              order.agent.cash == old(order.agent.cash) - value &&
              order.agent.assets == old(order.agent.assets) + order.quantity
    ensures order.orderType == Sell ==>
              order.agent.cash == old(order.agent.cash) + value &&
              order.agent.assets == old(order.agent.assets) - order.quantity
    ensures order.agent.cash + price * order.agent.assets as real
            == old(order.agent.cash + price * order.agent.assets as real)
  {
    if order.orderType == Buy {
      order.agent.cash := order.agent.cash - price * order.quantity as real;
      order.agent.assets := order.agent.assets + order.quantity;
    } else {
      order.agent.cash := order.agent.cash + price * order.quantity as real;
      order.agent.assets := order.agent.assets - order.quantity;
    }
    value := price * order.quantity as real;
    SettlementPreservesWealth(old(order.agent.cash), old(order.agent.assets), order, price);
  }

  /** One iteration of the settlement loop: executes `order` when it is
      marketable at `price`, reporting the traded value and whether it took
      part. */
  method SettleOrder(order: Order, price: real) returns (value: real, involved: bool)
    modifies order.agent
    ensures involved == order.MarketableAt(price)
    ensures value == if involved then price * order.quantity as real else 0.0
    ensures order.agent.cash == CashAfter(old(order.agent.cash), order, price)
    ensures order.agent.assets == AssetsAfter(old(order.agent.assets), order, price)
  {
    value, involved := 0.0, false;
    if order.orderType == Buy && price <= order.limitPrice {
      value := ExecOrder(order, price);
      involved := true;
    } else if order.orderType == Sell && price >= order.limitPrice {
      value := ExecOrder(order, price);
      involved := true;
    }
  }

  /** The settlement loop: executes exactly the orders marketable at `price`,
      summing their traded value and counting them; every other agent keeps
      its cash and holdings. */
  method Settle(orders: seq<Order>, price: real) returns (volume: real, involvedAgents: nat)
    requires DistinctAgents(orders)
    modifies set o | o in orders :: o.agent
    ensures volume == TradedValue(orders, price)
    ensures involvedAgents == MarketableCount(orders, price)
    ensures forall i :: 0 <= i < |orders| ==>
              orders[i].agent.cash == CashAfter(old(orders[i].agent.cash), orders[i], price) &&
              orders[i].agent.assets == AssetsAfter(old(orders[i].agent.assets), orders[i], price)
  {
    volume, involvedAgents := 0.0, 0;
    var i := 0;
    while i < |orders|
      invariant 0 <= i <= |orders|
      invariant volume == TradedValue(orders[..i], price)
      invariant involvedAgents == MarketableCount(orders[..i], price)
      invariant forall j :: 0 <= j < i ==>
                  orders[j].agent.cash == CashAfter(old(orders[j].agent.cash), orders[j], price) &&
                  orders[j].agent.assets == AssetsAfter(old(orders[j].agent.assets), orders[j], price)
      invariant forall j :: i <= j < |orders| ==>
                  orders[j].agent.cash == old(orders[j].agent.cash) &&
                  orders[j].agent.assets == old(orders[j].agent.assets)
    {
      assert orders[..i + 1][..i] == orders[..i];
      var value, involved := SettleOrder(orders[i], price);
      volume := volume + value;
      if involved {
        involvedAgents := involvedAgents + 1;
      }
      i := i + 1;
    }
    assert orders[..i] == orders;
  }
}
