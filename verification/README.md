# A verified model of the round engine

The program this project is about simulates a small manufacturing plant that four roles run together. Each round it
takes one match state, up to four role actions and a source of random rolls, and carries the plant through fixed
phases: procurement, supply receipt, release of inspection holds, customer returns, production, sales, the world
update of the scenario, and the end of the round. This project restates that engine, the demand hook of a scenario,
the match loop with its in-memory store, the routing and collection of submissions, and the scanner that recovers a
JSON object from a model's answer, and proves what they keep.

How it is laid out:

- `Domain`, `Seqs`: the records of a match, sums and filters.
- `Cash`, `Inventory`, `Labor`, `Quality`: the helpers of the engine, as functions with their laws, and the loops and
  in-place list updates that implement them.
- `Phases`: every phase as a function from one phase state to the next. `RoundPhase`: the object that carries a round,
  whose methods update their fields step by step; each method is proved to do exactly what the function says.
- `Actions`, `Resolver`: acceptance of actions, the whole round, and runs of rounds (`Play`).
- `Ledger`, `LedgerPhases`, `LedgerClosing`, `Frames`: double-entry bookkeeping. Every account has a stock, read from the
  plant and the statistics, and movements, read from the event log; each phase leaves their difference unchanged.
- `Accounting`, `CashRuns`, `Settlement`, `Returns`, `SupplyPipeline`, `SupplyFate`, `BacklogLife`, `Shipping`,
  `Production`, `WorkFlow`, `Payroll`, `Purchasing`, `ProductionCeiling`, `Costing`, `UnitCosts`, `Valuation`, `RoundEnd`:
  the results about rounds and runs. `Window`: the history limit decides nothing but the kept history.
- `OneMore`: what one more order, release or allocation does to the result of its phase.
- `Chapters`, `Offers`, `Reasons`, `Rolls`: the log of a round phase by phase, the reason of every event in it, and the rolls
  behind it.
- `Demand`, `Scenario`, `Catalogue`: the hooks of a scenario, that they satisfy what the results above ask of a
  configuration, and that the log of every match follows the catalogue.
- `MatchStore`, `Runner`, `Routing`, `Collection`, `JsonText`: the parts around the engine.

Conventions. Money, units, capacity and rounds are mathematical integers; division truncates toward zero as in Go.
Identifiers are integers, 0 standing for the empty string. Hooks are arbitrary functions, the random source is an
arbitrary sequence of rolls or none at all, and the sort of the backlog is an arbitrary function constrained by the
predicate that names what a result needs of it. An event carries the record it is about where the program carries a
payload copied from that record; events of work in progress carry their workstation.

A few assumptions recur. `ValidState` (stock keys unique, quantities and amounts positive, customer copies coherent,
customers distinct) is kept by every round, and holds at the start of every scenario whose plant is tidy. `SoundHooks`
says that the sort permutes and that the world update only adds logged demand; `Scenario.DemandHookIsOrderly` proves
the latter of the program's own hook. `OrderlyWorld` is the second half of it alone. `LogsDemandOnly` and `KeepsSentiment`
ask of the world update what `Catalogue.DemandHookOnlyBooks` proves of that hook as well.

Where the program and its documentation differ:

- `docs/simulation-invariants.md` (FB-2) says spending cannot exceed the debt ceiling. The engine checks the capacity
  line by line against a plant that is charged only after the last line, in procurement and in production alike.
  `Purchasing.TwoLinesBreakTheCeiling` and `ProductionCeiling.TwoAllocationsBreakTheCeiling` show the ceiling broken.
  `Purchasing.CeilingKeptExactlyWhen` and `ProductionCeiling.CeilingKeptExactlyWhen` give the exact condition, which can
  be checked before the phase: nothing to spend, or a budget whose cap is positive and fits the spend capacity.
  `Scenario.OwnHooksBreakTheCeiling` breaks it with the hooks of any scenario.
- A carrying-cost hook that reports a negative cost is subtracted from profit but never charged.
  `Accounting.ProfitExplainsNetWorth` states the exact condition under which profit and net worth agree,
  `Accounting.RefundBreaksProfit` a configuration and state in which they do not.
- A bill of material that lists a part twice passes the buildable limit and overdraws the stock
  (`Inventory.RepeatedLineOverdraws`); `Inventory.ConsumptionExactWhenCovered` is the exact condition.
- A submission can be overtaken by a later one of the same role when calls overlap
  (`Routing.OverlappingCallsOvertake`), and a role that already waits does not look at what was parked for it.
  `Routing.DeliveryOrderExactlyWhen` says of every run whether the order is kept: each delivery must take the oldest
  submission of its key that has left the queue; `Routing.DistinctDeliveriesExactlyWhen` says the same in terms of what
  is parked and in hand.
- An object that begins on the line of an opening fence, with no opening brace after it, is not recovered
  (`JsonText.FenceLineObjectLost`, `JsonText.RepeatedObjectReturned`).

## Model

| member | source | states |
|---|---|---|
| `Cash.StepIsNormalForm` | internal/engine/resolver.go:1695-1713 | From a position with no cash beside debt, one cash step ends in the only such position with the new net value |
| `Cash.Settle` | internal/engine/resolver.go:1354-1375 | The position after any list of receipts and payments depends on their sum alone |
| `Cash.OrderOfDeltasIsIrrelevant` | internal/engine/resolver.go:1354-1375 | Two lists of deltas that are permutations of each other lead to the same cash and debt |
| `Cash.ProjectPosition` | internal/engine/resolver.go:1681-1693 | The projection loops, with cash and debt as running variables, compute the fold over payables, then receivables |
| `Cash.ProjectionEqualsSettlement` | internal/projection/role_report.go:649-680 | Paying first and collecting afterwards, collecting first and paying afterwards, and the report's own projection all end in the normal form of net worth |
| `Cash.CapacityIsExact` | internal/engine/resolver.go:1666-1671 | From any position without cash beside debt and under any ceiling, spending leaves the debt within the ceiling if and only if it was within it before and the spend is at most the capacity measured before |
| `CashRuns.RoundKeepsNormal` | internal/engine/resolver.go:195-277 | No round ever leaves the plant with both cash and debt, or with either below zero |
| `CashRuns.PositionAfterRun` | internal/app/match_runner.go:66-124 | Cash and debt after any run are the normal form of the opening position plus all receipts less all disbursements in the metrics |
| `CashRuns.SettlementKeepsProjection` | internal/engine/resolver.go:1150-1229 | Collecting and paying what is due leaves the projected position of the plant unchanged |
| `CashRuns.ProjectionAfterRun` | internal/projection/role_report.go:649-680 | The position the finance report projects after any run is the normal form of opening net worth plus all profits since, corrected by carrying costs that were reported but not charged |
| `Inventory.StockList.AddInPlace` | internal/engine/resolver.go:1801-1824 | Adding to a stock list through the pointer equals the functional add: merge with a floor-averaged cost, or append |
| `Inventory.StockList.TakeInPlace` | internal/engine/resolver.go:1835-1849 | The filter loop that reuses the backing array equals update-and-filter on values, and returns the cost taken |
| `Inventory.TakeUnits` | internal/engine/resolver.go:1835-1849 | Taking an available quantity removes exactly that many units of the key and none of any other |
| `Inventory.TakeQty` | internal/engine/resolver.go:1764-1778 | Taking never goes below zero and leaves every other key alone |
| `Inventory.TakeShape` | internal/engine/resolver.go:1918-1929 | On a tidy list a take rewrites one line, or drops it when nothing is left, and keeps the order of the others |
| `Inventory.ComputeMaxBuildable` | internal/engine/resolver.go:1780-1799 | The loop with its unset marker computes the minimum over the lines of the bill |
| `Inventory.MaxBuildableIsLargest` | internal/engine/resolver.go:1780-1799 | A quantity is within the computed limit if and only if every line of the bill alone can be covered for it |
| `Inventory.ConsumeLeaves` | internal/engine/resolver.go:1756-1762 | Whatever the bill lists, the stock of each part afterwards is what was there less the whole requirement, cut off at zero |
| `Inventory.ConsumptionExactWhenCovered` | internal/engine/resolver.go:1756-1778 | Consumption equals bill times quantity if and only if the whole requirement was in stock |
| `Inventory.BuildableReleaseIsExact` | internal/engine/resolver.go:694-714 | A release up to the limit, from a bill of distinct parts, consumes exactly bill times quantity of every part |
| `Inventory.RepeatedLineOverdraws` | internal/engine/resolver.go:1780-1799 | A bill that lists one part twice passes the limit and overdraws the part |
| `Inventory.WeightedAverage` | internal/engine/resolver.go:2260-2265 | The floor-averaged unit cost lies between the two inputs and loses less than one money unit per unit |
| `Inventory.AddValue` | internal/engine/resolver.go:1722-1745 | An addition with positive costs never creates value, loses less than one money unit per unit on the line, and keeps every cost in the band |
| `Valuation.AddKeepsValueExactlyWhen` | internal/engine/resolver.go:1722-1745 | Where no cost is negative, an addition creates no value if and only if the key is new, or both unit costs are positive, or both are zero |
| `Inventory.MoveKeepsCost` | internal/engine/resolver.go:1835-1849 | Taking units and dividing their cost again gives back the unit cost with no rounding, so moving work keeps its cost |
| `Labor.StressedCapacity` | internal/engine/resolver.go:1952-1974 | Congestion only takes capacity away: what is left plus what is lost is the nominal capacity; the amount is in `OneMore.OneMoreAllocation` |
| `Labor.ProjectionMatchesConsumption` | internal/engine/resolver.go:1997-2037 | The overtime the scan projects is the overtime the booking consumes, and labour plus overtime make up the quantity |
| `Labor.BookingKeepsLedger` | internal/engine/resolver.go:1997-2005 | Booking what fits keeps used capacity equal to labour plus overtime, within base labour and nominal capacity, even when effective capacity is below what is already used |
| `Labor.ComputeAffordableAdvance` | internal/engine/resolver.go:2015-2030 | The scan loop returns the scan function |
| `Labor.ScanIsExact` | internal/engine/resolver.go:2015-2030 | A quantity up to the limit is accepted if and only if it and every smaller one can be paid for |
| `Labor.AcceptedIsPaidFor` | internal/engine/resolver.go:2015-2030 | What the scan accepts costs at most the amount it scanned with |
| `Labor.ScansCompose` | internal/engine/resolver.go:769-777 | Trimming to the budget and then to the spend capacity is one trim to the smaller of the two |
| `Labor.LargestExactlyWhen` | internal/engine/resolver.go:2015-2030 | The scan finds the largest affordable quantity for every limit and amount if and only if overtime is not subsidised beyond the unit cost, or none is requested, or base labour costs at most one |
| `Quality.ResolveFinishedQuality` | internal/engine/resolver.go:2298-2319 | The rolling loop, and the rate computation that replaces it without a random source, compute the split function: a unit is scrapped, reworked or held exactly when its own roll lies in the band of that rate; one roll per unit is used |
| `Quality.SplitFollowsRates` | internal/engine/resolver.go:2298-2319 | Scrap, rework and hold are the numbers of units whose own roll lies below the scrap rate, in the next band and in the band after it; without rolls they are the truncated percentages of what is left |
| `Quality.NormalizedRates` | internal/engine/resolver.go:2281-2296 | Normalizing clamps every rate to a percentage, cuts only the hold rate, by the excess over one hundred and at most to nothing, and makes delays non-negative |
| `Quality.SplitConserves` | internal/engine/resolver.go:2281-2319 | Scrap, rework, hold and good units are never negative and add up to the batch, for any rolls, any rates and no random source |
| `Quality.RatesMayExceedHundred` | internal/engine/resolver.go:2286-2288 | Normalized rates can still add up to more than one hundred |
| `Quality.ResolveReturnQuantity` | internal/engine/resolver.go:2321-2335 | The return loop counts the units whose own roll is below the return rate, or takes the rate's share without rolls; one roll per unit is used where it rolls at all |
| `Quality.ReturnsFollowRate` | internal/engine/resolver.go:2321-2335 | The units that come back are those whose own roll is below the return rate, or the truncated percentage without rolls; a rate of zero returns nothing |
| `Quality.ReturnsBounded` | internal/engine/resolver.go:2321-2335 | Between none and all of the shipped units come back |
| `Actions.Normalize` | internal/engine/resolver.go:1390-1430 | The acceptance loop and the loop over the canonical roles compute the canonical list or the refusal |
| `Actions.NormalizeIgnoresOrder` | internal/engine/resolver.go:1390-1430 | Two permutations of the same submissions are both refused, or give the same canonical list |
| `Actions.NormalizeIsCanonical` | internal/engine/resolver.go:1390-1430 | A list is accepted if and only if every action is legal and no role occurs twice; the result holds exactly those actions, ordered by role |
| `Resolver.ResolveRound` | internal/engine/resolver.go:195-277 | The round, run on the object that updates its fields phase by phase, returns exactly the function of state, actions and rolls |
| `RoundPhases.RoundPhase.ApplyCashDelta` | internal/engine/resolver.go:1354-1375 | The branching update of cash and debt is the projected cash delta |
| `RoundPhases.RoundPhase.ResolveProcurement` | internal/engine/resolver.go:323-434 | The order loop with its running spend, and the payable, turn the phase state into the specified one |
| `RoundPhases.RoundPhase.ReceiveSupply` | internal/engine/resolver.go:436-482 | Sorting lots into delayed, arriving and remaining ones, and storing the arrivals, gives the specified state; which lot is which is in `SupplyFate.FateOfSupply` |
| `RoundPhases.RoundPhase.ReleaseInspectionHolds` | internal/engine/resolver.go:484-504 | The loop that releases due holds and keeps the others gives the specified state |
| `RoundPhases.RoundPhase.ProcessCustomerReturns` | internal/engine/resolver.go:506-561 | Due returns become holds and replacement backlog, customers are synchronised once, as specified |
| `RoundPhases.RoundPhase.ResolveProduction` | internal/engine/resolver.go:658-859 | Releases, allocations with congestion, labour, budget and quality, and the final disbursement, give the specified state; where each unit goes is in `WorkFlow.WorkIsConserved` and `OneMore.OneMoreAllocationLog` |
| `RoundPhases.RoundPhase.ResolveSales` | internal/engine/resolver.go:861-921 | Shipping the sorted backlog and rewriting what remains gives the specified state; who gets what at which price is in `Shipping.SalesByKey` and `Offers.SoldAtLastOffer` |
| `RoundPhases.RoundPhase.AgeBacklog` | internal/engine/resolver.go:923-948 | Aging and expiring the backlog gives the specified state |
| `RoundPhases.RoundPhase.CollectReceivablesDue` | internal/engine/resolver.go:1150-1185 | The loop over receivables collects the due ones and keeps the others, in order |
| `RoundPhases.RoundPhase.PayPayablesDue` | internal/engine/resolver.go:1187-1229 | The loop over payables pays the due ones and keeps the others, in order |
| `RoundPhases.RoundPhase.ApplyLaborCosts` | internal/engine/resolver.go:1055-1096 | The loop over stations adds up labour, overtime and idle labour and schedules the payroll as specified; the amounts are in `Payroll.PayrollOfRound` |
| `RoundPhases.RoundPhase.FinalizeRound` | internal/engine/resolver.go:923-976 | The steps of the end of the round, in this order, give the specified state and metrics |
| `LedgerPhases.ProcurementBalances` | internal/engine/resolver.go:323-434 | Procurement leaves every account balanced: cost booked equals payable or cash, lots ordered equal lots in transit |
| `LedgerPhases.SupplyBalances` | internal/engine/resolver.go:436-482 | Receiving supply moves units from transit to stock and nothing else |
| `LedgerPhases.HoldsBalance` | internal/engine/resolver.go:484-504 | Releasing holds moves units to finished goods and nothing else |
| `LedgerPhases.ReturnsBalance` | internal/engine/resolver.go:506-561 | A returned unit enters a hold, opens replacement backlog, and leaves the pending returns |
| `LedgerPhases.CompleteMoves` | internal/engine/resolver.go:563-618 | A completed batch reappears in full as logged scrap, rework, hold and finished goods |
| `LedgerPhases.ProductionBalances` | internal/engine/resolver.go:658-859 | Production keeps every account balanced over any releases and allocations |
| `LedgerClosing.SalesBalance` | internal/engine/resolver.go:861-921 | Sales keep every account balanced: units out equal backlog served, revenue equals cash or receivable |
| `LedgerClosing.AgingBalances` | internal/engine/resolver.go:923-948 | Every unit of expired backlog is a logged lost sale |
| `LedgerClosing.CollectBalances` | internal/engine/resolver.go:1150-1185 | Collecting turns receivables into cash one for one |
| `LedgerClosing.PayBalances` | internal/engine/resolver.go:1187-1229 | Paying turns payables into cash out one for one |
| `LedgerClosing.LaborBalances` | internal/engine/resolver.go:1055-1096 | Payroll expense equals cash paid or payable scheduled |
| `LedgerClosing.OperatingGap` | internal/engine/resolver.go:1098-1148 | Carrying costs are charged in full, except that a negative total is reported and not paid out |
| `LedgerClosing.FallbackAgrees` | internal/engine/resolver.go:1654-1664 | With coherent customer lists the fallback of the effective backlog is the plant list |
| `LedgerClosing.FallbackInOrder` | internal/engine/resolver.go:1654-1664 | Where the plant has no list of its own, the lists of the customers serve, one after the other and each in its own order |
| `Accounting.RoundBalances` | internal/engine/resolver.go:195-277 | For every account: what a round held at the start, moved by the logged events, is what it holds at the end |
| `Accounting.ProfitExplainsNetWorth` | internal/engine/resolver.go:978-1053 | Net worth changes by the reported profit if and only if the reported carrying cost is not negative, otherwise by the profit plus what was not paid; valid states stay valid |
| `Accounting.RefundBreaksProfit` | internal/engine/resolver.go:1098-1148 | With a hook that pays for holding stock, in any configuration, a round in which nothing happens reports a profit that differs from the change of net worth |
| `Accounting.CashFlowExplainsCash` | internal/engine/resolver.go:1014-1037 | Ending cash less beginning cash is receipts less disbursements plus the change of debt |
| `Accounting.UnitsAreConserved` | internal/engine/resolver.go:195-277 | Work in progress, finished goods and holds of a product change by released plus returned less shipped less scrapped units of the log |
| `Accounting.PartsAreConserved` | internal/engine/resolver.go:195-277 | Parts on hand and in transit change by what was ordered less bill times released quantity |
| `Accounting.BacklogIsConserved` | internal/engine/resolver.go:195-277 | A customer's backlog for a product changes by replacements and new demand less shipments less lost sales |
| `Accounting.MetricsMatchLog` | internal/engine/resolver.go:978-1053 | Each unit counter of the metrics, the revenue and the cost of orders are the totals of the corresponding events |
| `WorkFlow.WorkIsConserved` | internal/engine/resolver.go:658-859 | In a round the units of a product at a workstation change by what the log says was released there and sent there, less what it says was sent on from there and scrapped, held or finished there |
| `WorkFlow.WorkOverRun` | internal/app/match_runner.go:66-124 | The same over any run |
| `WorkFlow.CapacityIsSpent` | internal/engine/resolver.go:779-857 | The capacity used at a workstation in a round is the units the log says it worked on, whatever became of them |
| `Reasons.ProductionExplained` | internal/engine/resolver.go:658-859 | Every event of the production phase has its reason: releases follow the action and the bill, units move on only to the station the route names, and batches at the end of a route are split by their own rolls |
| `Reasons.SalesExplained` | internal/engine/resolver.go:861-921 | Every event of the sales phase has its reason: each shipment is priced by the last offer, owed for at the customer's own payment delay, and promised back by its own rolls after the return delay |
| `Reasons.EveryEventHasItsReason` | internal/engine/resolver.go:195-277 | Every event of every round has its reason in the accepted actions, in the terms, bills, routes and profiles the hooks gave, in the rolls and in the events it belongs to; due, release and arrival rounds are the promised ones |
| `Reasons.EveryRunIsExplained` | internal/app/match_runner.go:66-124 | The same over any run |
| `Offers.SoldAtLastOffer` | internal/engine/resolver.go:861-896 | Goods are sold at the price of the last offer for them that names a positive one, and at one where there is none |
| `Chapters.RoundInChapters` | internal/engine/resolver.go:195-277 | The log of a round is, in this order, what its phases log, each only events of its own kinds; the world update comes after the sales, sees the accepted actions and is the last to use rolls |
| `Rolls.RollsOfRound` | internal/engine/resolver.go:195-277 | Every roll of a round is used once, in one order: one for each lot that could be late, then one for each unit inspected and each unit sold of a product that may come back, piece by piece as the log tells them; the world update goes on from the first roll left |
| `Payroll.PayrollOfRound` | internal/engine/resolver.go:1055-1096 | The plant owes wages for all labour its workstations employ, used or not, and overtime wages for the overtime worked; payroll is the sum, scheduled for its due round where it is not paid at once; idle plus used hours are the hours employed |
| `Payroll.RestOfRound` | internal/engine/resolver.go:1940-1950 | Each round starts afresh: a workstation that no allocation names ends it with its full capacity, no loss and nothing used |
| `RoundEnd.AgingOutcome` | internal/engine/resolver.go:923-945 | An entry is given up if and only if it has reached the expiry limit; all others stay, one round older, in their order; what is given up is logged and counted |
| `RoundEnd.SentimentOfRound` | internal/engine/resolver.go:506-561 | Over a round a customer's sentiment falls by one for every return received from it and every entry of it given up, and does not move otherwise |
| `RoundEnd.TargetsOfRound` | internal/engine/resolver.go:950-955 | The targets of the finance action are in force from the next round, its debt ceiling at once; without one both stay |
| `RoundEnd.CarryingCostsOfRound` | internal/engine/resolver.go:1098-1148 | The debt service is a tenth, rounded up, of the debt before it is charged; the holding cost is what the hook says of parts, work and finished goods on hand, or a tenth of their worth where there is no hook; both are charged, and nothing but cash and debt changes |
| `RoundEnd.RecordReports` | internal/engine/resolver.go:978-1053 | Expense and profit add up, the on-time rate is the share of what was asked for that the log shows shipped, lost capacity is that of the workstations, reliability the mean score |
| `RoundEnd.RecordCounts` | internal/engine/resolver.go:978-1053 | Inventory value, units on hand, on hold and open, and ending cash are totals over the lines of the state the round ends in |
| `RoundEnd.RecordNames` | internal/engine/resolver.go:195-277 | The record holds the round, the accepted actions in canonical order and the commentary made on them |
| `RoundEnd.RefusedExactlyWhen` | internal/engine/resolver.go:1390-1564 | Where the world update does not fail, a round is accepted if and only if the state names a match and a round, every action is for them, from a role of the match and with its own legal payload alone, and no role acts twice |
| `Accounting.ProfitExplainsRun` | internal/app/match_runner.go:66-124 | Over any run, however it ends, net worth changes by the sum of the profits, corrected for carrying cost not paid |
| `Accounting.ReportedProfitExplainsRun` | internal/app/match_runner.go:66-124 | With carrying costs that are not negative the reported profits alone add up to the change of net worth |
| `Settlement.RoundRolls` | internal/engine/resolver.go:1231-1341 | A round drops exactly the commitments that are due and adds only ones of its own that fall due later |
| `Settlement.RoundStaysOnSchedule` | internal/engine/resolver.go:1150-1229 | No receivable, payable, payroll, return or hold is ever overdue in a state between rounds |
| `Settlement.SettledWhenDue` | internal/engine/resolver.go:1150-1229 | A commitment of an earlier round is settled in its due round, as often as it is listed, and in no other round |
| `Settlement.SettledOnceOverRun` | internal/app/match_runner.go:66-124 | Over any run a commitment is listed and unsettled until its due round has been played, then gone and settled exactly as often as it was listed |
| `Settlement.ScheduledIsSettledOnce` | internal/engine/resolver.go:1150-1341 | Over any run, whenever a commitment was made: listed at the start plus scheduled in the run equals settled in the run plus still listed; it is settled in its due round alone and not listed after it |
| `Settlement.BucketsKeepOneLinePerKey` | internal/engine/resolver.go:1722-1898 | Over any run parts, work in progress, finished goods and holds list each key once; holds are merged per product, release round and reason |
| `Returns.ReceivedWhenDue` | internal/engine/resolver.go:506-530 | A pending return of an earlier round is received in its due round and in no other |
| `Returns.ReceivedOnceOverRun` | internal/engine/resolver.go:506-530 | Over any run a pending return is received exactly as often as it was pending, by the end of its due round and not before |
| `Returns.PromisedIsReceivedOnce` | internal/engine/resolver.go:506-656 | Over any run, whenever a return was promised: pending at the start plus promised in the run equals received in the run plus still pending; it is received in its due round alone |
| `Returns.HoldsReleasedWhenDue` | internal/engine/resolver.go:484-504 | The releases a round logs of a hold are exactly its occurrences in the opening state if this is its release round, and none otherwise |
| `Returns.RoundHolds` | internal/engine/resolver.go:484-504 | In a round the units on hold until any round change by what was placed less what was released, and none is released before or after its round |
| `Returns.HeldUnitsReleasedOnce` | internal/engine/resolver.go:1876-1898 | Over any run, per product and release round, merged or not: units held at the start plus units placed on hold equal units released plus units still held; they are released in that round alone, and none is left after it |
| `SupplyPipeline.RoundPipeline` | internal/engine/resolver.go:436-482 | Lots are undelayed before their promised round and late by exactly the supplier's late rounds afterwards, never twice; a supplier's placed less received orders follow its lots in transit, and scores stay within 0 and 100 |
| `SupplyPipeline.DeliveryInRound` | internal/engine/resolver.go:436-482 | For an order of an earlier round: what leaves transit in a round is what its log receives, nothing comes before the promised round, nothing is left after the last possible one |
| `SupplyPipeline.ReceivedInItsRound` | internal/engine/resolver.go:2086-2103 | An order is received in no round but its promised one and the one that is late by exactly the supplier's late rounds |
| `SupplyPipeline.DeliveredOnceOverRun` | internal/engine/resolver.go:436-482 | Over any run receipts and what is still in transit add up to what was in transit, and all of it has come by the last possible round |
| `SupplyPipeline.OrderedIsDeliveredOnce` | internal/engine/resolver.go:323-482 | Over any run, whenever an order was placed: in transit at the start plus placed in the run equals received in the run plus still in transit; it is received in its promised or its late round alone, and nothing is in transit after that |
| `SupplyFate.FateOfSupply` | internal/engine/resolver.go:436-482 | Which lots are received, delayed and kept, in which order and with which rolls, in closed form for any lots in transit |
| `SupplyFate.DueLotComes` | internal/engine/resolver.go:2086-2095 | A lot promised for this round and not delayed before comes without rolls or from a supplier that is unknown, never late or always on time; otherwise if and only if its own roll, the one after those of earlier lots that could be late, is below the on-time rate |
| `SupplyFate.SuppliersAfterSupply` | internal/engine/resolver.go:2056-2084 | Every supplier after the supply of a round: ten points down and one late for each delay, one more receipt for each lot that came, and two points up to the on-time rate if ever late |
| `SupplyFate.RoundFates` | internal/engine/resolver.go:436-482 | Over a round the lots in transit at its opening come, stay late or stay as they were by the same rule, and the lots ordered in the round follow them |
| `BacklogLife.RoundKeepsLife` | internal/engine/resolver.go:923-945 | After a round every entry is within the expiry limit, and the age of an entry opened since the start of the match is the number of rounds since then |
| `BacklogLife.BoundedLifeOverRun` | internal/engine/resolver.go:923-945 | Over any run an entry opened in round r is shipped or written off by the end of round r plus the limit |
| `BacklogLife.OnTimeRateInRange` | internal/engine/resolver.go:1014-1020 | The on-time rate is between 0 and 100 |
| `Shipping.ShipAllIsAllocation` | internal/engine/resolver.go:887-917 | The shipping loop gives each entry the minimum of its demand and what earlier entries left of its product |
| `Shipping.ShortEntryEndsProduct` | internal/engine/resolver.go:887-917 | An entry left short means that every later entry of its product ships nothing |
| `Shipping.WorkConserving` | internal/engine/resolver.go:887-917 | For each product the units shipped are the minimum of stock and total backlog |
| `Shipping.SharesOfBacklog` | internal/engine/resolver.go:861-921 | What an origin round, customer and product get is what stock is left after all older demand, up to their own demand |
| `Shipping.RevenueOfSales` | internal/engine/resolver.go:861-921 | The revenue the sales phase adds is the sum over products of price times the minimum of stock and backlog |
| `Shipping.SalesByKey` | internal/engine/resolver.go:861-921 | The sales phase takes off the backlog of an origin round, customer and product exactly the stock that older demand leaves, up to its own demand |
| `Shipping.SalesByProduct` | internal/engine/resolver.go:861-921 | Per product the sales phase takes off stock and backlog, and logs as shipped, the minimum of stock and backlog; nobody waits while there is stock |
| `Shipping.ShippedToCustomer` | internal/engine/resolver.go:887-917 | The shipments logged for a customer and product are the units taken off that customer's backlog |
| `Shipping.BacklogOrderIsIrrelevant` | internal/engine/resolver.go:861-921 | Two states with the same finished goods whose backlogs are permutations of each other earn the same revenue, ship the same units of every product, and leave the same units open per origin round, customer and product |
| `Production.AllocationsKeepBooks` | internal/engine/resolver.go:724-797 | Through any list of allocations each station's books close and its overtime used plus its remaining request equal what was requested; of stations that share an identifier only the first works |
| `Production.RequestsAddUp` | internal/engine/resolver.go:667-673 | The overtime request of a station is the sum of the positive lines for it |
| `Production.PlanIsLargest` | internal/engine/resolver.go:740-777 | An allocation is accepted up to a quantity if and only if that fits the request, capacity, work, labour, and it and all smaller ones fit both budget and spend capacity |
| `Production.AllocationsWithinCap` | internal/engine/resolver.go:724-797 | Over any list of allocations line spend plus overtime spend never exceeds the cap, whatever the costs are |
| `Production.ProductionWithinBudget` | internal/engine/resolver.go:658-859 | In every round station books close, overtime stays within the requests, and with a budget set production spend plus overtime pay stay within the budget plus a tenth |
| `OneMore.OneMoreOrder` | internal/engine/resolver.go:323-400 | One more order line adds at most one lot, of the largest quantity from the minimum order up to the request that the rest of the budget and the capacity of the plant buy |
| `OneMore.ProcurementIsCharged` | internal/engine/resolver.go:1272-1302 | What the order lines of a round cost is charged once: in cash where payables have no delay, otherwise as one payable due that delay later |
| `OneMore.OneMoreRelease` | internal/engine/resolver.go:674-722 | One more release starts the largest quantity up to the request that the remaining parts cover line by line: that much work comes to the first workstation, the bill leaves the parts, one event says so |
| `OneMore.OneMoreAllocation` | internal/engine/resolver.go:724-806 | One more allocation works on the largest quantity everything allows and every unit of which is paid for: labour first, then overtime; congestion costs the penalty for each unit beyond capacity and buffer; the quoted price is paid once per unit |
| `OneMore.OneMoreAllocationLog` | internal/engine/resolver.go:799-857 | What the log gains by one more allocation: its overtime, then its units going where the route says, inspected as stressed exactly when the station lost capacity and as worked in overtime exactly when it was |
| `OneMore.CapIsTenthMore` | internal/engine/resolver.go:1715-1720 | A target allows itself and a tenth more, and sets no cap where it is not positive |
| `Purchasing.AllowedIsLargest` | internal/engine/resolver.go:350-375 | An order line is granted the largest quantity from the minimum order up to the request that budget and capacity cover, or nothing |
| `Purchasing.PlaceOrdersSpend` | internal/engine/resolver.go:323-400 | A list of lines stays within the cap as a whole but within the capacity only line by line; the spend is the cost of the new lots |
| `Purchasing.CeilingAfterProcurement` | internal/engine/resolver.go:372-375 | After procurement the projected debt is within the ceiling if and only if it was before and the whole spend fits the capacity measured before |
| `Purchasing.CeilingIsKept` | internal/engine/resolver.go:327-375 | No capacity, a budget cap within the capacity, or at most one line keeps the ceiling whatever the terms |
| `Purchasing.TwoLinesBreakTheCeiling` | internal/engine/resolver.go:372-375 | In every state with positive capacity and no cap, or a cap above the capacity, two lines that each use the capacity break the ceiling |
| `Purchasing.CeilingKeptExactlyWhen` | internal/engine/resolver.go:323-375 | A plant within its ceiling stays within it for every order list and all supplier terms if and only if it has nothing to spend or a budget is set whose cap fits what it has to spend |
| `Purchasing.ProcurementWithinBudget` | internal/engine/resolver.go:323-434 | In every round with a procurement budget the spend over all lines is within the budget plus a tenth |
| `ProductionCeiling.CeilingAfterProduction` | internal/engine/resolver.go:776-797 | After production the debt is within the ceiling if and only if it was before and the whole production spend fits the capacity measured before |
| `ProductionCeiling.CeilingKeptByBudget` | internal/engine/resolver.go:740-797 | In any plant whose overtime costs are not negative, no capacity or a budget cap within the capacity keeps the ceiling through any production action |
| `ProductionCeiling.TwoAllocationsBreakTheCeiling` | internal/engine/resolver.go:740-797 | In every state with positive capacity, work for two units and no cap within the capacity, two allocations of one unit break the ceiling |
| `ProductionCeiling.ConstantCostBreaksTheCeiling` | internal/engine/resolver.go:740-797 | At one constant cost per unit, two allocations that fit the capacity one by one but not together break the ceiling at every station that can work on both, if no cap, or a cap that fits both, is set |
| `ProductionCeiling.CeilingKeptExactlyWhen` | internal/engine/resolver.go:658-797 | A plant that can work on two units keeps its ceiling for every action, bill, route and cost if and only if it has nothing to spend or a budget is set whose cap fits what it has to spend |
| `ProductionCeiling.MoneyIsSafeExactlyWhen` | internal/engine/resolver.go:658-797 | The same condition on cash, debt, ceiling and budget alone decides whether every plant with them keeps its ceiling |
| `Costing.RoundKeepsPartCosts` | internal/engine/resolver.go:1722-1745 | A round keeps the unit cost of every part and lot inside any band that holds the lot prices |
| `Costing.PartCostsOverRun` | internal/app/match_runner.go:66-124 | Over any run part costs stay inside the band of lot prices, however often averages are rounded down |
| `UnitCosts.MaterialCost` | internal/engine/resolver.go:1756-1778 | The material of a release costs between the bill's quantity at the ends of the band of part costs |
| `UnitCosts.RoundKeepsUnitCosts` | internal/engine/resolver.go:694-857 | Work, finished goods, holds and pending returns of a product stay in the cost band of its material through a round: the cost is carried from station to station, into stock, onto hold, into returns and back |
| `UnitCosts.UnitCostsOverRun` | internal/app/match_runner.go:66-124 | The same over any run |
| `UnitCosts.HoldsKeepTheirCost` | internal/engine/resolver.go:1876-1898 | A hold that is not due comes through a round at its own unit cost, whatever units join it |
| `Valuation.MetricsMatchState` | internal/engine/resolver.go:978-1053 | Inventory value, units on hand and on hold, backlog, cash and supplier reliability in the metrics of a round are those of the state it ends in |
| `Valuation.RoundCreatesNoValue` | internal/engine/resolver.go:195-277 | With bills that ask for something and positive costs, parts, work in progress and finished goods are after a round worth at most what they were, plus the arrivals and released holds it logs |
| `Valuation.RunCreatesNoValue` | internal/app/match_runner.go:66-124 | The same over any run: however often costs are averaged and divided, no value on hand appears from nothing |
| `Demand.CurrentOfferPrices` | internal/scenario/scenario.go:526-548 | The two loops compute the base prices overridden by positive offers of the sales role |
| `Demand.PriceOfProduct` | internal/scenario/scenario.go:526-548 | The price of a product is the last positive offer for it in the last sales action that has one, otherwise twice the base cost of its last catalogue entry, and absent for anything else |
| `Demand.RealizedDemand` | internal/scenario/scenario.go:550-554 | One unit for every full five points of the demand score, truncated, and none when the score is below five |
| `Demand.DemandAnswers` | internal/scenario/scenario.go:550-554 | The base demand counts three times for a customer in no better mood than one and once more for every point above, every money unit over the reference price costs the sensitivity, and every full five points are one unit |
| `Demand.DemandFollows` | internal/scenario/scenario.go:550-554 | Demand does not fall with better sentiment nor with a lower price |
| `Demand.World.ApplyDemand` | internal/scenario/scenario.go:473-524 | The hook, visiting each customer's products in whatever order, books the specified entries for some ordering of the price map |
| `Demand.World.AppendCustomerBacklog` | internal/scenario/scenario.go:556-564 | Only the first customer with the identifier gets the entry |
| `Demand.BookKeepsCoherence` | internal/scenario/scenario.go:498-505 | Writing an order into the plant and into its customer keeps every customer list the filter of the plant list |
| `Demand.DemandIsOrderly` | internal/scenario/scenario.go:473-524 | For every visiting order the hook only appends positive entries of this round, logs exactly their units, and keeps the lists coherent |
| `Demand.DemandOrderIsIrrelevant` | internal/scenario/scenario.go:487-490 | The new backlog as a multiset is the same for every order in which the map is visited |
| `Demand.DemandIsBooked` | internal/scenario/scenario.go:473-524 | A customer's new backlog for a product is exactly its realized demand at the price on offer |
| `Scenario.UnitCostForQuantity` | internal/scenario/scenario.go:386-397 | The loop over price breaks with its best-so-far minimum computes the price function |
| `Scenario.PriceIsBestBreak` | internal/scenario/scenario.go:386-397 | The price is that of the eligible break with the largest minimum, the last of equals, or the list price if none is eligible |
| `Scenario.DemandHookIsOrderly` | internal/scenario/scenario.go:204-297 | The options of every scenario have an orderly world update, valid limits and no negative carrying cost |
| `Catalogue.DemandHookOnlyBooks` | internal/scenario/scenario.go:473-524 | The demand hook of every scenario logs demand and nothing else and leaves every sentiment alone |
| `Catalogue.RouteIsCatalogue` | internal/scenario/scenario.go:244-258 | The route hook finishes exactly at the last station of a product's route and otherwise names the station after the first occurrence of the given one |
| `Catalogue.QualityIsCatalogue` | internal/scenario/scenario.go:266-289 | A stressed station adds ten points of scrap and rework, overtime ten points of holds, at the final inspection only |
| `Catalogue.CostIsCatalogue` | internal/scenario/scenario.go:259-265 | A unit of work costs what the last catalogue entry of its station says, at least one, and one without an entry |
| `Catalogue.LimitsOfOptions` | internal/engine/resolver.go:178-193 | Ten rounds of history and two rounds of waiting where a scenario sets no limit, and no negative delay |
| `Catalogue.StartFollowsScenario` | internal/scenario/scenario.go:173-202 | A match starts in round one with the given plant, targets and roles, workstations that have done nothing, customers as described, and suppliers whose score is their on-time rate |
| `Catalogue.EveryMatchFollowsCatalogue` | internal/scenario/scenario.go:204-297 | In every match of every scenario each event has its reason, lots are placed at catalogue terms, work is released by the product's bill, moves from each station of its route to the next and is finished, scrapped, held or reworked at the last one only |
| `Scenario.BillsAreSound` | internal/scenario/scenario.go:231-240 | Catalogue bills that list each part once make the bill hook sound |
| `Scenario.QuotesWithin` | internal/scenario/scenario.go:212-230 | A catalogue with list prices and breaks in a band quotes prices in that band |
| `Scenario.StartIsValid` | internal/scenario/scenario.go:173-202 | The initial state is valid: customer lists are the filters of the plant backlog, supplier scores are percentages |
| `Scenario.EveryMatchBalances` | internal/scenario/scenario.go:173-297 | Every match of a scenario: each state is valid, the backlog fallback never disagrees, net worth changes by the reported profits, and cash never stands beside debt |
| `Scenario.EveryMatchKeepsPartCosts` | internal/scenario/scenario.go:362-397 | In every match of a scenario with catalogue prices in a band, part costs stay in it |
| `Scenario.EveryMatchIsOnTime` | internal/scenario/scenario.go:173-297 | In every match whose opening plant has nothing overdue, nothing ever is overdue, every lot is on time or late by its supplier's late rounds, and no backlog entry outlives the expiry limit |
| `Scenario.EveryMatchSettles` | internal/scenario/scenario.go:173-297 | In every such match, commitments, returns, held units and orders have been settled, received, released and delivered as often as they came up, once their last round is played |
| `Scenario.EveryMatchKeepsOneLinePerKey` | internal/scenario/scenario.go:173-202 | In every match that starts with distinct holds, all four buckets keep one line per key |
| `Scenario.EveryMatchCreatesNoValue` | internal/scenario/scenario.go:173-240 | In every match whose catalogue bills ask for something, from a plant with positive costs, no value on hand appears from nothing |
| `Scenario.OwnHooksBreakTheCeiling` | internal/scenario/scenario.go:259-265 | The ceiling breaks under a scenario's own hooks: two allocations at its constant station cost that fit one by one but not together |
| `MatchStore.Store.constructor` | internal/adapters/persistence/memory/store.go:32-37 | A new store is empty, with a limit that is not positive replaced by ten |
| `MatchStore.Store.CreateMatch` | internal/adapters/persistence/memory/store.go:39-65 | Refuses an empty or known match id, otherwise stores the trimmed history as log with its derived copies |
| `MatchStore.Store.CommitRound` | internal/adapters/persistence/memory/store.go:79-118 | Refuses exactly in the listed cases and changes nothing then; otherwise extends the log and returns the state with the trimmed history |
| `MatchStore.CommitAcceptedExactlyWhen` | internal/adapters/persistence/memory/store.go:79-100 | A commit is accepted if and only if it carries the state of a match of the store and a positive round newer than its whole log; each error is named exactly when the earlier checks pass and its own fails |
| `MatchStore.Store.Round` | internal/adapters/persistence/memory/store.go:120-136 | Finds a round if and only if the log has it; in an increasing log it is the only one |
| `MatchStore.CreatedIsConsistent` | internal/adapters/persistence/memory/store.go:48-62 | A new match has history, events, commentary and snapshots in step with its log |
| `MatchStore.CommitKeepsConsistency` | internal/adapters/persistence/memory/store.go:94-117 | A commit adds its round to the log; the history is the tail of the log, events and commentary its flattening, round numbers strictly increase, one snapshot per round remains and those of other rounds stay |
| `MatchStore.SnapshotsStayUnique` | internal/adapters/persistence/memory/store.go:240-249 | Appending or replacing keeps one snapshot per round, keeps the others, and contains the new one |
| `MatchStore.AllEvents` | internal/adapters/persistence/memory/store.go:210-217 | The flattening loop concatenates the events of the rounds in order |
| `MatchStore.WindowsAgreeExactly` | internal/adapters/persistence/memory/store.go:251-257 | The resolver's window on the store's window is the store's window on its log, for every log, if and only if both limits are the same |
| `Runner.PreviousAcceptedActions` | internal/app/match_runner.go:187-196 | The loops compute the last accepted action of every role |
| `Runner.PreviousIsLast` | internal/app/match_runner.go:187-196 | The remembered action of a role is its last one in the last round it acted in, and there is none if it never acted |
| `Runner.Play` | internal/app/match_runner.go:27-128 | The match loop against the store gives the specified run, and leaves the store consistent, whatever fails |
| `Runner.RoundKeepsPlace` | internal/engine/resolver.go:268-271 | A round is recorded under its own number and leads to the next one of the same match, with the history extended and trimmed |
| `Runner.StoreIsTransparent` | internal/app/match_runner.go:66-124 | For any two history limits, playing against the store gives the same states and records as playing without one under the limit of the store, and no commit fails |
| `Window.OnlyHistoryDiffers` | internal/engine/resolver.go:195-277 | With another history limit every round is accepted or refused alike and comes out the same, but for the history it keeps |
| `Runner.StoredRunIsAccountedFor` | internal/app/match_runner.go:66-124 | Against a store of any limit, the corrected profits explain the net worth, commitments are settled in their round and orders delivered in one of their two |
| `Runner.LogOfRun` | internal/app/match_runner.go:88-123 | With any limits, a run that fails does so on a round the engine refuses, never on a commit; the log grows by exactly the records, round numbers increase, the history is its tail, and the previous actions are the last ones of the records |
| `Routing.LiveGameplayController.Publish` | cmd/herbiego/live_gameplay_controller.go:57-71 | Publishing replaces or appends the snapshot of its round, and does nothing once closed |
| `Routing.LiveGameplayController.TrySend` | cmd/herbiego/live_gameplay_controller.go:96-101 | A send succeeds if and only if the queue has room, and then appends |
| `Routing.LiveGameplayController.Submit` | cmd/herbiego/live_gameplay_controller.go:87-102 | A submission is refused once closed or when the queue is full, and otherwise appended |
| `Routing.AcceptedExactlyWhen` | cmd/herbiego/live_gameplay_controller.go:87-102 | A submission is accepted if and only if it is sent while the controller is open and the queue has room, and joins the end of the queue; a full queue refuses it |
| `Routing.ClosedForGood` | cmd/herbiego/live_gameplay_controller.go:73-85 | Once closed, over any steps, the controller stays closed, accepts nothing and only drains its queue |
| `Routing.GivesUpExactlyWhen` | cmd/herbiego/live_gameplay_controller.go:112-119 | A waiting call gives up if and only if it is cancelled or finds the queue closed and drained |
| `Routing.LiveGameplayController.TakePending` | cmd/herbiego/live_gameplay_controller.go:131-147 | The oldest parked submission for the key leaves the map, and the key with its last one |
| `Routing.LiveGameplayController.StorePending` | cmd/herbiego/live_gameplay_controller.go:149-153 | A parked submission is appended under its own key |
| `Routing.RoutingIsSafe` | cmd/herbiego/live_gameplay_controller.go:87-153 | Every step of every call keeps each accepted submission in exactly one place and each delivery for the role and round that asked |
| `Routing.EveryInterleavingIsSafe` | cmd/herbiego/live_gameplay_controller.go:87-153 | From the start, under every interleaving: accepted submissions are delivered, queued, in hand or parked, counted exactly; deliveries match; the queue stays within its capacity |
| `Routing.StepKeepsOrderExactlyWhen` | cmd/herbiego/live_gameplay_controller.go:104-153 | Any step of any call keeps the delivery order of a key if and only if it delivers the oldest submission of the key that has left the queue undelivered, or the one just received if there is none |
| `Routing.DeliveryOrderExactlyWhen` | cmd/herbiego/live_gameplay_controller.go:104-153 | Over any run with any number of overlapping calls, what was delivered for a key is at every moment a prefix of what was accepted for it if and only if every delivery of the run is in turn |
| `Routing.LineIsEmpty` | cmd/herbiego/live_gameplay_controller.go:104-153 | Nothing of a key waits to be delivered, apart from the queue, exactly when nothing is parked for it and no call holds anything of it |
| `Routing.DistinctTurn` | cmd/herbiego/live_gameplay_controller.go:109-127 | When accepted submissions of a key differ, receiving from the queue is in turn if and only if nothing of the key is parked or in hand |
| `Routing.TurnIsUnobstructed` | cmd/herbiego/live_gameplay_controller.go:104-153 | When they differ, a step is in turn if and only if a waiting call receives while nothing of the key is parked or in hand, and a starting call takes what nothing parked or in hand is older than |
| `Routing.DistinctDeliveriesExactlyWhen` | cmd/herbiego/live_gameplay_controller.go:104-153 | Over any run with distinct submissions of a key, they are delivered in the order of acceptance at every moment if and only if every receipt and every take is unobstructed in that sense |
| `Routing.ReceiveKeepsOrderExactlyWhen` | cmd/herbiego/live_gameplay_controller.go:109-127 | With parked submissions older than those in hand, a receiving call keeps the order if and only if both are empty or the oldest of them equals what it received |
| `Routing.TakeKeepsOrder` | cmd/herbiego/live_gameplay_controller.go:109-111 | A call that takes from the parked submissions always keeps the order, of the deliveries and of what is parked |
| `Routing.ParkKeepsOrderExactlyWhen` | cmd/herbiego/live_gameplay_controller.go:120-127 | Parking a submission keeps the parked ones in order if and only if nothing older of its key is in hand |
| `Routing.SeparateCallsKeepOrder` | cmd/herbiego/live_gameplay_controller.go:104-129 | The case of calls that never overlap: each role's submissions for a round are delivered in the order of acceptance |
| `Routing.OverlappingCallsOvertake` | cmd/herbiego/live_gameplay_controller.go:109-127 | With overlapping calls, at every capacity, a later submission can be delivered while an earlier one of the same role lies parked |
| `Routing.WaitingIgnoresParked` | cmd/herbiego/live_gameplay_controller.go:109-127 | A call that waits does not return until something new is submitted for its key, whatever is parked for it |
| `Collection.RoundFlowProgress.MarkProviderWaiting` | internal/app/round_collection.go:192-209 | Exactly the role itself, and only if it has a provider, is added to or taken from the roles waited for at a provider; a list without repetition stays so, the other lists are left alone |
| `Collection.RoundFlowProgress.MarkSubmitted` | internal/app/round_collection.go:211-222 | The role is submitted and in neither waiting list, every other role is where it was, and lists without repetition stay so |
| `Collection.RemoveRoleID` | internal/app/round_collection.go:230-234 | Deleting a role keeps the others in order |
| `Collection.CollectionTracks` | internal/app/round_collection.go:61-91 | Under every interleaving of the goroutines the flow and the slots say exactly what each goroutine has done |
| `Collection.EveryCollectionPartitions` | internal/app/round_collection.go:172-222 | At every moment submitted and waiting roles partition the roster, and providers are waited for only by waiting roles |
| `Collection.CompleteCollection` | internal/app/round_collection.go:83-96 | When all have submitted nobody is waited for and slot i holds role i's action for this match and round |
| `Collection.EverySlotIsAnswered` | internal/app/round_collection.go:76-132 | Under every interleaving what is in the slot of a role is an answer its own player gave, bound to match, round and role, with a generated name where it had none |
| `Collection.CollectedIsAccepted` | internal/app/round_collection.go:115-132 | A complete collection is accepted if and only if every payload is legal for its role, and any permutation of it resolves to the same round |
| `JsonText.ExtractJSONObject` | internal/app/ai_orchestrator.go:291-346 | Trimming, fence stripping and the scan compute the extraction function |
| `JsonText.ScanObject` | internal/app/ai_orchestrator.go:314-345 | The loop with depth, string and escape flags finds the shortest balanced text from the first brace |
| `JsonText.ValueNeutral` | internal/app/ai_orchestrator.go:319-343 | Every JSON value of RFC 8259 leaves the scanner, outside strings and unescaped, at the depth it had |
| `JsonText.PlainObjectRecovered` | internal/app/ai_orchestrator.go:291-346 | For every JSON object, every preamble without an opening brace that opens no fence, and any suffix, exactly the object is returned |
| `JsonText.FencedObjectRecovered` | internal/app/ai_orchestrator.go:297-306 | After an opening fence line the object is returned if and only if a fence follows it or none occurs before or within it, and otherwise the text is refused |
| `JsonText.FenceLineIsIgnored` | internal/app/ai_orchestrator.go:297-306 | Nothing on the line of an opening fence matters: what is returned is what the text after the first line break gives, and without a line break the answer is refused |
| `JsonText.FenceLineObjectLost` | internal/app/ai_orchestrator.go:297-306 | No object that begins on the fence line is returned when no opening brace follows it |
| `JsonText.RepeatedObjectReturned` | internal/app/ai_orchestrator.go:297-306 | That condition is needed: an object that is repeated after its fence line is returned |
| `JsonText.FenceLineInnerObject` | internal/app/ai_orchestrator.go:297-306 | If the first member of such an object is on a later line, is an object and has a key without an opening brace, exactly that inner object is returned, or the text is refused |
| `JsonText.FenceWithoutBody` | internal/app/ai_orchestrator.go:297-301 | A fence with no line after it is refused |
| `JsonText.OnlyBalancedText` | internal/app/ai_orchestrator.go:308-345 | What is returned is a part of the text that begins at the first brace and ends at the brace that balances it |

## Left out

- Event identifiers, summaries and payload maps, and events that only inform (rule adjustments, stressed stations, cash
  changes, sentiment): the log keeps the events that move units, money or commitments, and the one rule adjustment that
  says units came back for want of a route.
- Commentary text, timelines (`CanonicalTimeline`) and the round flow inside a match state: the flow is modelled where
  it is shared, in `Collection`.
- Deep cloning: values cannot be aliased here; the in-place stock lists are modelled on arrays.
- Action validation in the schema package and prompt rendering: the engine's own validators are part of acceptance.
- The retry loop of the AI orchestrator, tool calls, the OpenAI client, configuration, logging, contexts and timeouts.
- The SQLite store, which repeats the history logic of the memory store, and all of the terminal user interface.
- The generator of random rolls and the hash that picks a supplier's behaviour: any rolls and any behaviour are allowed.
- Channel closing races and wake-up of blocked roles: the program does not promise them; `Routing` models a send on a
  channel closed in between as a crashed call and proves safety only.
- Sentiment has no lower bound in the program either; what moves it is in `RoundEnd.SentimentOfRound`.
- Cost averaging of inspection holds: merged holds keep the old unit cost (`UnitCosts.HoldsKeepTheirCost`), so no
  averaging law holds for them, and `Valuation` counts a released hold as it is logged, not as it was placed.
- Text is a sequence of Unicode characters, so invalid UTF-8 in a model's answer is not represented.
- JsonText.ValueNeutral: numbers and literal names are any text without quotes, braces and backslashes, which contains
  those of RFC 8259.
- ProductionCeiling.CeilingKeptExactlyWhen: speaks of plants whose first station can work on two more units and whose
  overtime costs are not negative; `ProductionCeiling.MoneyIsSafeExactlyWhen` ranges over all plants of the latter kind.
