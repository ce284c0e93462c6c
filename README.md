# Market-clearing engine of a random agent-based market simulation

This project models the core of a single-file C# simulation of a stock
market. A fixed array of agents trades in a uniform-price batch auction, one
step at a time. In each step:

1. every agent turns its cash, its holdings, the current price and its random
   draws into exactly one buy or sell order;
2. a fixed-depth bisection over `[0, 3 * price]` picks the clearing price by
   comparing aggregate demand with aggregate supply;
3. every order that is marketable at that price is settled against its
   agent's cash and holdings;
4. the price, half the traded value, and the number of participating agents
   are appended to three series.

Prices and cash are `real` (standing in for `double`). Quantities and holdings
are unbounded `int`. The `(int)` cast is modelled as truncation toward zero.

Modules:

- `Orders` (orders.dfy): `OrderType`, the `Order` record, the random draws of
  one agent (`Draw`), the two quantity casts (`BuyQuantity`, `SellQuantity`),
  and the `Agent` class with `GetOrder`.
- `Clearing` (clearing.dfy): `DemandOf`/`SupplyOf`, which give filtered sums
  as functions, and `Demand`/`Supply`, the loops that compute them.
  `ClearingPrice` is the recursive bisection and `Bisect` its loop form. The
  monotonicity and bisection lemmas live here too.
- `Settlement` (settlement.dfy): `ExecOrder`, which mutates one agent, and
  `Settle`, the settlement loop over a step's orders. `TradedValue` and
  `MarketableCount` are what that loop sums and counts.
- `Simulation` (simulation.dfy): the configuration constants and the `Market`
  class. Its fields are the agents array, the current price and the three
  series; its methods are the constructor, `GenerateOrders`, `Step` (with
  `StepWithBudget`, the same step for any bisection budget), and the two
  parts of a step after clearing, `SettleAgents` and `Record`. The lemmas
  about a two-order market at the end of the module work the whole step out
  for one concrete market.

An order keeps a reference to its agent, as in the source. Settlement needs
the orders' agents to be pairwise distinct. The source gets this from
building one order per agent, and `Step` derives it from the class invariant
`Market.Valid()`.

## Model

| member | source | states |
|---|---|---|
| `Orders.Truncate` | Program.cs:151-156 | the `(int)` cast truncates toward zero: for `x >= 0` the result is the largest integer not above `x`; for `x < 0` it is the smallest integer not below `x` |
| `Orders.Agent.constructor` | Program.cs:142-143 | a new agent has the given cash, holdings and buy propensity |
| `Orders.Agent.GetOrder` | Program.cs:145-160 | the order references the calling agent; it is a buy exactly when the side draw is below the propensity; a buy's limit is the price plus a Gaussian of mean `avg`, a sell's the price plus a Gaussian of mean `-avg`; a buy at a positive limit with non-negative cash asks for the largest whole quantity the cash can pay for at that limit, and at a negative limit its quantity is not positive; a sell with non-negative holdings offers `trunc(assets * r)`, between 0 and the holdings; it reads the agent and changes nothing |
| `Orders.BuyQuantity` | Program.cs:151 | with non-negative cash, `trunc(cash / limit)` units cost at most `cash` at a positive limit and one more unit costs more; at a negative limit the quantity is `<= 0` |
| `Orders.SellQuantity` | Program.cs:156 | with `0 <= r < 1` and non-negative holdings, `trunc(assets * r)` lies in `[0, assets]` and is the whole part of `assets * r` |
| `Clearing.Demand` | Program.cs:92-99 | the loop returns the sum of the quantities of the buy orders with `price <= limit` (`DemandOf`) |
| `Clearing.Supply` | Program.cs:101-108 | the loop returns the sum of the quantities of the sell orders with `price >= limit` (`SupplyOf`) |
| `Clearing.DemandNonIncreasing` | Program.cs:96 | with non-negative quantities, demand at a higher price is at most demand at a lower price |
| `Clearing.SupplyNonDecreasing` | Program.cs:105 | with non-negative quantities, supply at a higher price is at least supply at a lower price |
| `Clearing.ExcessNonIncreasing` | Program.cs:86 | with non-negative quantities, demand minus supply (the quantity the bisection tests) never rises with the price |
| `Clearing.NoBuyerAccepts` | Program.cs:92-99 | demand is zero at a price no buy order accepts |
| `Clearing.NoSellerAccepts` | Program.cs:101-108 | supply is zero at a price no sell order accepts |
| `Clearing.CrossedLimitsOneSide` | Program.cs:92-108 | when every buy limit lies below every sell limit, demand or supply is zero at every price |
| `Clearing.ClearingPrice` | Program.cs:81-90 | for `min <= max` the result lies in `[min, max]`; with `maxIter <= 0` it is exactly `(max + min) / 2`; the recursion ends because every call lowers the budget |
| `Clearing.ClearingPriceBisects` | Program.cs:81-90 | the result is the midpoint of a sub-bracket of `[min, max]` of width `(max - min) / 2^depth`; the sub-bracket's lower end is `min` or a price where demand exceeds supply, and its upper end is `max` or a price where it does not |
| `Clearing.ClearingPriceNearCrossing` | Program.cs:81-90 | with non-negative quantities, every price at least half that width below the result has excess demand, and every price at least half that width above it has none, apart from bracket ends that never moved |
| `Clearing.Bisect` | Program.cs:81-90 | the loop form of the bisection, which calls the `Demand` and `Supply` loops, returns exactly `ClearingPrice` |
| `Settlement.SettlementPreservesWealth` | Program.cs:112-121 | settling one order at `price` leaves `cash + price * assets` unchanged |
| `Settlement.MarketableCount` | Program.cs:37-47 | the number of orders marketable at the price is at most the number of orders |
| `Settlement.TradedValueIsDemandPlusSupply` | Program.cs:35-47 | the summed traded value at the clearing price equals the price times (demand + supply) at that price |
| `Settlement.ExecOrder` | Program.cs:110-123 | a buy lowers the agent's cash by `price * quantity` and raises holdings by `quantity`; a sell does the reverse; returns `price * quantity`; changes no other object; keeps `cash + price * assets` |
| `Settlement.SettleOrder` | Program.cs:38-47 | one iteration of the settlement loop executes the order exactly when it is a buy with `price <= limit` or a sell with `price >= limit`, and reports its traded value (0 when not executed) and whether it took part |
| `Settlement.Settle` | Program.cs:35-47 | the loop executes exactly the marketable orders: `volume` is the sum of `price * quantity` over them, `involvedAgents` is their number, each agent's new cash and holdings are those of its own order's settlement, and agents whose order is not marketable are unchanged |
| `Simulation.Market.constructor` | Program.cs:17-29 | one fresh, distinct agent per propensity, each with the initial cash and holdings; the price starts at the initial price; the three series start empty |
| `Simulation.Market.GenerateOrders` | Program.cs:33 | one order per agent, in array order: order `i` is agent `i`'s `GetOrder` at the current price with draw `i` |
| `Simulation.Market.SettleAgents` | Program.cs:35-47 | settling the step's orders, with order `i` belonging to agent `i`, gives each agent exactly its own order's cash and holdings update |
| `Simulation.Market.Record` | Program.cs:53-55 | the new price becomes current, and `prices`, `cashVolume` and `involvedAgentsCount` grow by exactly the new price, half the traded volume and the participant count |
| `Simulation.Market.Step` | Program.cs:33-55 | one order per agent, quoted on the old state; the new price is `ClearingPrice(orders, 0, 3 * oldPrice, 30)`, and so lies in `[0, 3 * oldPrice]` when `oldPrice >= 0`; `prices`, `cashVolume` and `involvedAgentsCount` each grow by exactly one element: the new price, half the summed traded value, and the number of marketable orders; each agent is updated by its own order only |
| `Simulation.Market.StepWithBudget` | Program.cs:33-55 | the same step with the bisection budget `maxIter` as a parameter: the new price is `ClearingPrice(orders, 0, 3 * oldPrice, maxIter)`, with the same orders, series and agent updates |
| `Simulation.BoundaryMarket` | Program.cs:92-108 | for a buy followed by a sell, demand, supply, participant count and traded value are those of the single order on each side that accepts the price |
| `Simulation.BisectionStaysBelow` | Program.cs:81-90 | for a buy limited at 100 for 5 units and a sell limited at 90, bisection over `[lo, 90]` with `0 <= lo < 90` ends in `[0, 90)` |
| `Simulation.BoundaryTradeIsOneSided` | Program.cs:34-47 | the buy-100-for-5 / sell-90-for-5 market, cleared over `[0, 180]` (a previous price of 60) with any positive budget, ends strictly below 90, so only the buy executes: one participant, traded value `5 * price` |
| `Simulation.TwoOrderClearingPrice` | Program.cs:81-90 | in a market of one buy and one sell for the same positive quantity, the bisection over any bracket and budget equals `TwoOrderPrice`, the same bisection with the comparison worked out: it keeps the upper half exactly when the buy accepts the midpoint and the sell does not |
| `Simulation.BoundaryPriceOverThreeHundred` | Program.cs:81-90 | for the buy-100 / sell-90 limits, that bisection over `[0, 300]` with 30 iterations returns `48318382125 / 2^29`, about 90.00000008 |
| `Simulation.BoundaryTradeIsTwoSided` | Program.cs:34-47 | the same market cleared over `[0, 3 * InitialPrice] = [0, 300]` with 30 iterations ends in `(90, 100]`, so both orders execute: two participants, traded value `10 * price` |
| `Simulation.CrossedPriceOverThreeHundred` | Program.cs:81-90 | for the buy-50 / sell-60 limits, that bisection over `[0, 300]` with 30 iterations returns `26843545575 / 2^29`, about 49.99999995 |
| `Simulation.CrossedTradeIsOneSided` | Program.cs:34-47 | a buy at 50 for 5 and a sell at 60 for 5, cleared over `[0, 3 * InitialPrice] = [0, 300]` with 30 iterations, end in `(49, 50)`: the buy executes and the sell does not, one participant, traded value `5 * price` |

### Facts about the code worth knowing

- Quantities are not always non-negative. A buy's quantity is
  `(int)(Cash / limPrice)`, so a negative limit price with positive cash gives
  a negative quantity (`Orders.BuyQuantity` states only `quantity <= 0`
  there). The monotonicity lemmas therefore assume non-negative quantities.
- In a market of one buy at 100 for 5 and one sell at 90 for 5, whether the
  sell executes depends on which side of 90 the last midpoint of the
  bisection falls, and so on the bracket. With a previous price of 100 (the
  program's initial price) the bracket is `[0, 300]`, the result is about
  90.00000008, and both orders execute. Every bracket end is a multiple of
  `300 / 2^30` and every midpoint a multiple of `300 / 2^31`, all below 600,
  so double precision computes the same values
  (`Simulation.BoundaryTradeIsTwoSided`). With a previous price of 60 the
  bracket is `[0, 180]`: its first midpoint, 90, has equal demand and supply,
  so the bisection keeps the lower half, the upper end stays at 90, the
  result is below 90 and only the buy executes
  (`Simulation.BoundaryTradeIsOneSided`).
- Crossed limits do not mean no trade. When every buy limit lies below every
  sell limit, no price suits both sides, so demand or supply is zero wherever
  the bisection looks (`Clearing.CrossedLimitsOneSide`) and at most one side
  trades. Whether one side does trade depends on which side of its limit the
  last midpoint falls. For a buy at 50 for 5 and a sell at 60 for 5 in the
  program's first step, the bisection closes in on the buy limit from below,
  ends at about 49.99999995, and the buy executes: one participant and a
  traded value of `5 * price` (`Simulation.CrossedTradeIsOneSided`).

## Left out

- Charting, `Directory.CreateDirectory` and `SaveHtml` (Program.cs:58-79): I/O and rendering.
- Console progress output (Program.cs:48-52): it only observes the loop.
- `Ext.NextGaussian` (Program.cs:165-176): Box–Muller needs `Sqrt`, `Log` and `Sin` on floating point. A standard normal deviate `z` is an input instead, and only the final `mu + sigma * z` (`Orders.Gaussian`) is modelled.
- `System.Random` (`NextSingle`, `NextDouble`, the seed at Program.cs:18): a library generator. Each agent's draws for a step are an explicit `Draw(r, side, z)`. The two uniforms are required to lie in `[0, 1)`, and the propensities are given to the constructor.
- The outer loop that repeats the step `STEP_COUNT` times (Program.cs:31): `Step` models one iteration. A multi-step driver would need, for every step, the limit-price precondition below, and that precondition depends on the price of the step before.
- Orders.Agent.GetOrder: requires that a buy's limit price is not exactly zero, because the source divides by it (Program.cs:151) and leaves the result of the cast undefined.
- IEEE rounding, NaN and infinities, single-precision draws, and 32-bit overflow of the `int` sums and casts: `real` and unbounded `int` are used instead.
- The orders array (`ToArray()`, Program.cs:33) is a `seq<Order>`, because it is never updated after it is built.
- Market-wide conservation of cash and holdings between buyers and sellers: clearing does not make demand equal supply at the clearing price, so no such property holds. `Settlement.TradedValueIsDemandPlusSupply` states what the summed volume is instead.
- The agent count, `AVG`, `STD` and `STEP_COUNT` (Program.cs:6-8, 11) are not declared: the constructor takes the agent count from the number of propensities, `Step` takes the drift mean and deviation as parameters, and the step loop is left out. The initial cash, holdings and price (Program.cs:9-10, 12) are `Simulation` constants.
