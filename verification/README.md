# Delivery simulation engine — a Dafny model

This project models the delivery-simulation engine of a small logistics
back end. A manager asks for a run with a driver count, an hour cap per
driver and a route start time. The engine does the following:

- it validates those parameters;
- it takes the first `numberOfDrivers` drivers of the roster;
- it lets each driver in turn take orders from the front of one shared
  first-in-first-out queue of all orders, until the driver's hours reach the
  cap, the next order would take them over it (that order goes back to the
  front of the queue), or the queue is empty;
- it applies the company rules to every delivered order: fatigue, late
  penalty, high-value bonus, fuel cost with the High-traffic surcharge, and
  profit;
- it reports total profit, efficiency score, on-time and late counts, total
  fuel cost and the number of orders left unassigned.

The model is a set of pure functions over immutable datatypes. Minutes,
hours, money and distance are Dafny `real`s, which are exact rationals. A
run is therefore deterministic by construction: the same inputs always give
the same outputs.

Modules, one per concern of `runSimulation`:

- `Models` (`models.dfy`): `Driver`, `Route`, `Order` and the `Traffic`
  enum. An order's route is an `Option<Route>` because the route reference
  may fail to resolve. A driver's past-week hours are a list of any length,
  because the server does not enforce seven entries.
- `Rules` (`rules.dfy`): the per-order rules and their constants.
  `Deliver` computes one `Delivery`: minutes, late flag, bonus, penalty,
  fuel cost and profit.
- `Ledger` (`ledger.dfy`): the fate of every order taken off the queue
  (`Dropped` or `Delivered`), and `Tally`, the running sums over such a
  ledger.
- `Allocation` (`allocation.dfy`): `Serve` is one driver's pass over the
  queue. `Allocate` runs all selected drivers in turn over the queue.
- `Simulation` (`simulation.dfy`): `Validate`, `EfficiencyScore`,
  `Summarise` and the entry point `RunSimulation`, with lemmas about runs.
- `SimulationLoop` (`loop.dfy`): the controller's nested loop written
  imperatively, with the mutable queue, `continue`, the put-back and
  `break`, and the four running totals. `DriverShift` is the inner loop
  over one driver and `Settle` the per-order arithmetic on the totals. It
  is proved to compute exactly the KPIs of the functional model.
- `Scenarios` (`scenarios.dfy`): worked runs with concrete numbers.
- `Wrappers` (`wrappers.dfy`): `Option` and `Result`.

Three points where the model follows the code rather than a plain reading
of the business rules:

- The efficiency score is 0 exactly when there are no on-time deliveries.
  That includes a run where every delivery was late, not only a run with no
  deliveries.
- The fatigue test looks at every entry of the past-week list, whatever its
  length, not at exactly seven values.
- "Not provided" at the first validation step follows the JavaScript
  falsiness test. An absent field, a zero number or an empty start-time
  string all count as missing. A negative number passes that test and is
  refused by the positivity test instead.

## Model

| member | source | states |
|---|---|---|
| Rules.AnyAbove | backend/controllers/simulationController.js:50 | the fatigue test is true exactly when some entry of the past-week list, of any length, is strictly above the limit |
| Rules.Deliver | backend/controllers/simulationController.js:63-89 | a delivery is late exactly when the driver is fatigued and the base time exceeds 100/3 minutes; the penalty is 50 exactly when late; the bonus is a tenth of the value exactly when on time and the value exceeds 1000; fuel is 5 per km, 7 per km on High traffic; profit is value + bonus − penalty − fuel |
| Rules.FatigueStretch | backend/controllers/simulationController.js:50-54 | a rested driver takes the base time unchanged; fatigue adds exactly 30% of the base time |
| Rules.LateExactly | backend/controllers/simulationController.js:63-65 | late exactly when fatigued on a route longer than 100/3 minutes; a rested driver is never late |
| Rules.FatigueMonotone | backend/controllers/simulationController.js:50-65 | on a route of non-negative base time, fatigue never shortens a delivery; a fatigued delivery is late exactly when the time fatigue adds exceeds the 10-minute grace |
| Rules.FuelByTraffic | backend/controllers/simulationController.js:81-85 | Low and Medium cost 5 per km, High costs 7 per km, so High costs strictly more for a positive distance; no cost is negative for a non-negative distance |
| Ledger.Tally | backend/controllers/simulationController.js:29-89 | the running totals as a fold over the ledger, starting from zero and adding each entry's contribution; `Ledger.TallyConcat` and `Ledger.TallyCountsEntries` state its properties, and `SimulationLoop.Simulate` proves the controller's running totals equal to it |
| Ledger.TallyConcat | backend/controllers/simulationController.js:88-89 | the running sums over a ledger split into two parts add up to the sums over the whole ledger |
| Ledger.TallyCountsEntries | backend/controllers/simulationController.js:42-74 | every order taken off the queue is counted exactly once, as on time, late or dropped |
| Allocation.Serve | backend/controllers/simulationController.js:41-61 | one driver's pass over the queue (drop, put back and stop, or deliver); its properties are stated by `Allocation.ServeSplitsQueue`, `Allocation.ServeHours`, `Allocation.ServeFaithful` and `Allocation.ServeStopsForCause` below, and `SimulationLoop.DriverShift` proves the controller's inner loop equal to it |
| Allocation.ServeSplitsQueue | backend/controllers/simulationController.js:41-61 | the orders a driver took off the queue, followed by the queue it left, are the starting queue; an order put back is at the front and unchanged |
| Allocation.ServeHours | backend/controllers/simulationController.js:41-61 | a driver's hours grow by exactly the times of its delivered orders (dropped orders cost nothing), and either do not grow or end within the cap |
| Allocation.ServeFaithful | backend/controllers/simulationController.js:43-89 | every ledger entry of a pass is a drop of an order with no route, or a delivery over the order's own route with the rule figures for that driver |
| Allocation.ServeStopsForCause | backend/controllers/simulationController.js:41-59 | when a pass leaves orders queued, the driver's hours have reached the cap or the head order, whose route resolved, would take them over it |
| Allocation.Allocate | backend/controllers/simulationController.js:34-39 | one shift per driver given, in the given order |
| Allocation.AllocateSplitsQueue | backend/controllers/simulationController.js:35-91 | all shifts' orders, followed by the leftover queue, are the original order list, so the leftover queue is a suffix of it |
| Allocation.AllocateShift | backend/controllers/simulationController.js:38-61 | each shift starts at zero hours, ends within a non-negative cap, records exactly its delivered times, and follows the rules for its own driver's fatigue |
| Simulation.Validate | backend/controllers/simulationController.js:14-26 | a run is accepted exactly when all three parameters are present, both numbers are positive and the roster is large enough; missing, non-positive and too-many-drivers are three distinct errors, each exactly characterised |
| Simulation.EfficiencyScore | backend/controllers/simulationController.js:94-95 | the score lies in [0, 100], is 0 exactly when no delivery was on time, is 100 exactly when there were deliveries and none was late, and otherwise is 100 times the on-time share |
| Simulation.Summarise | backend/controllers/simulationController.js:93-122 | the reported KPIs as sums over every shift's ledger and the leftover queue length; `SimulationLoop.Simulate` proves the controller's running totals equal to it, and `Simulation.Conservation` and `Simulation.EfficiencyScore` state its properties |
| Simulation.RunSimulation | backend/controllers/simulationController.js:11-34 | a run fails exactly when validation fails, with the validation error; an accepted run has one shift per requested driver, the first ones of the roster in roster order |
| Simulation.Conservation | backend/controllers/simulationController.js:35-122 | on-time + late + dropped + unassigned equals the number of orders, and the unassigned orders are the tail of the original list |
| Simulation.HoursWithinCap | backend/controllers/simulationController.js:38-61 | no driver's accumulated hours exceed the cap, and they equal the sum of that driver's delivered times |
| Simulation.EntriesFollowRules | backend/controllers/simulationController.js:43-89 | every entry of every shift is a drop exactly when its route is unresolved, otherwise a delivery with the rule figures for its driver; a rested driver's deliveries are never late |
| Simulation.NoEligibleOrders | backend/controllers/simulationController.js:41-95 | when no order has a resolvable route, all KPIs are zero and no order remains queued |
| Simulation.AllocateNoEligible | backend/controllers/simulationController.js:41-45 | with a positive cap, the first driver drops a queue of unresolved orders entirely, at zero profit, fuel and hours, and nothing is left queued for the rest |
| Simulation.DropsAll | backend/controllers/simulationController.js:45 | a driver with hours to spare drops unresolved orders one by one, at no cost in hours, profit or fuel |
| Simulation.NothingLeft | backend/controllers/simulationController.js:41 | drivers facing an empty queue record nothing |
| SimulationLoop.Settle | backend/controllers/simulationController.js:63-89 | the per-order arithmetic on the running totals (grace, penalty, bonus, fuel surcharge) adds exactly the contribution of the delivered entry that `Rules.Deliver` gives for the stretched minutes |
| SimulationLoop.DriverShift | backend/controllers/simulationController.js:39-90 | the imperative inner loop (shift, skip, put back and break, running totals) ends with the functional pass's hours and leftover queue, and its totals grow by exactly that pass's ledger |
| SimulationLoop.Simulate | backend/controllers/simulationController.js:29-122 | the imperative outer loop's running totals and leftover queue length are exactly the KPIs of the functional allocation |
| Scenarios.RestedDriverOnTime | backend/controllers/simulationController.js:38-95 | a rested driver with an 8-hour cap and a 1200-rupee order on a 60-minute, 10 km Low route: on time, bonus 120, fuel 50, profit 1270, efficiency 100, nothing unassigned |
| Scenarios.OneDriverOneOrder | backend/controllers/simulationController.js:38-95 | one driver and one order that fits: the KPIs are that single delivery's figures |
| Scenarios.FatiguedDriverLate | backend/controllers/simulationController.js:50-95 | the same order with a fatigued driver takes 78 minutes and is late: penalty 50, no bonus, profit 1100, efficiency 0 |
| Scenarios.NineHourDayFatigues | backend/controllers/simulationController.js:50 | one 9-hour day in the past week makes a driver fatigued |
| Scenarios.TooFewDrivers | backend/controllers/simulationController.js:24-26 | asking for two drivers from a roster of one is refused with the roster error carrying both numbers |
| Scenarios.PutBackLoneDriver | backend/controllers/simulationController.js:56-61 | when the second order does not fit, a lone driver delivers the first and puts the second back unchanged; one order stays unassigned |
| Scenarios.PutBackNextDriver | backend/controllers/simulationController.js:38-61 | with a second driver, the order put back by the first is the one the second delivers, and nothing remains |

## Left out

- Loading drivers and orders from the database, and populating routes, are not modelled. The engine receives the roster and the order list as parameters; an unresolved route reference is `None`.
- Saving the result record, its timestamp default, and the history query sorted by timestamp are not modelled. They are database I/O.
- The HTTP status codes and response bodies are not modelled, and neither is the catch-all server-error path.
- Rounding to two decimals in the response is not modelled. That is `toFixed(2)` on IEEE doubles; the model keeps exact values throughout.
- IEEE double arithmetic in `* 1.30`, `* 0.10` and `/ 60` is replaced by exact rational arithmetic. Rounding in doubles can flip the hour-cap test (simulationController.js:57) and the late test (simulationController.js:65), which changes which orders are delivered and so every KPI. Example: with an 8-hour cap and 10-minute routes, 47 double additions of 10/60 give 7.833333333333338, so the program puts the 48th order back, while the exact sum reaches 8 and the model delivers it. Likewise at a base time of 33.333333333333336 minutes the double late test is false where the exact one is true. The model's results are those of exact arithmetic.
- `numberOfDrivers` is modelled as an integer. JSON strings and fractional values are not modelled. The program coerces strings in comparisons, and `slice` truncates a fraction.
- NaN and non-numeric field values are not modelled.
- `routeStartTime` is checked only for presence, as in the source. Its value is never used and is not echoed into a result record here.
- `currentShiftHours` is carried in `Driver` but is never read, as in the source.
- The record-maintenance controllers for drivers, routes and orders, the routers, authentication (token signing, password hashing), the seed script and all front-end pages are not part of this model. They are storage plumbing, foreign cryptographic libraries, file I/O or user interface.
