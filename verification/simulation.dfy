/** The simulation entry point: validates the run parameters, allocates the
    first `numberOfDrivers` drivers over the order queue, and reports KPIs. */
module Simulation {
  import opened Wrappers
  import opened Models
  import opened Rules
  import opened Ledger
  import opened Allocation

  /** Run parameters as they arrive in the request body; `None` is an omitted
      field. `routeStartTime` is only checked for presence. */
  datatype Params = Params(
    numberOfDrivers: Option<int>,
    routeStartTime: Option<string>,
    maxHoursPerDriver: Option<real>)

  /** The three distinct reasons a run is refused. */
  datatype ValidationError =
    | MissingInput
    | NonPositiveInput
    | ExceedsAvailableDrivers(requested: int, available: nat)

  /** Parameters that passed validation. */
  datatype Settings = Settings(drivers: nat, maxHours: real)

  /** A parameter counts as not provided when it is absent or falsy: zero for
      the numbers, the empty string for the start time. */
  predicate Missing(p: Params) {
    || p.numberOfDrivers.None? || p.numberOfDrivers.value == 0
    || p.routeStartTime.None? || p.routeStartTime.value == ""
    || p.maxHoursPerDriver.None? || p.maxHoursPerDriver.value == 0.0
  }

  /** Checks the parameters against a roster of `available` drivers. A run is
      accepted exactly when every parameter is present, both numbers are
      positive and the roster is large enough; each refusal names one reason. */
  function Validate(p: Params, available: nat): (r: Result<Settings, ValidationError>)
    ensures r.Ok? <==>
      && p.numberOfDrivers.Some? && 0 < p.numberOfDrivers.value <= available
      && p.routeStartTime.Some? && p.routeStartTime.value != ""
      && p.maxHoursPerDriver.Some? && p.maxHoursPerDriver.value > 0.0
    ensures r.Ok? ==> r.value.drivers == p.numberOfDrivers.value && r.value.maxHours == p.maxHoursPerDriver.value
    ensures r == Err(MissingInput) <==> Missing(p)
    ensures r == Err(NonPositiveInput) <==>
      !Missing(p) && (p.numberOfDrivers.value < 0 || p.maxHoursPerDriver.value < 0.0)
    ensures r.Err? && r.error.ExceedsAvailableDrivers? <==>
      !Missing(p) && p.numberOfDrivers.value > 0 && p.maxHoursPerDriver.value > 0.0
      && p.numberOfDrivers.value > available
    ensures r.Err? && r.error.ExceedsAvailableDrivers? ==>
      r.error == ExceedsAvailableDrivers(p.numberOfDrivers.value, available)
  {
    if Missing(p) then Err(MissingInput)
    else
      var n := p.numberOfDrivers.value;
      var maxHours := p.maxHoursPerDriver.value;
      if n <= 0 || maxHours <= 0.0 then Err(NonPositiveInput)
      else if n > available then Err(ExceedsAvailableDrivers(n, available))
      else Ok(Settings(n, maxHours))
  }

  /** The share of deliveries made on time, as a percentage; zero when there
      were no deliveries at all. */
  function EfficiencyScore(onTime: nat, late: nat): (s: real)
    ensures 0.0 <= s <= 100.0
    ensures s == 0.0 <==> onTime == 0
    ensures s == 100.0 <==> onTime > 0 && late == 0
    ensures onTime + late > 0 ==> s * (onTime + late) as real == 100.0 * onTime as real
  {
    var total := onTime + late;
    if total > 0 then
      var share := onTime as real / total as real;
      assert share * total as real == onTime as real;
      share * 100.0
    else 0.0
  }

  /** The figures the run reports. */
  datatype Kpis = Kpis(
    totalProfit: real,
    efficiencyScore: real,
    onTimeDeliveries: nat,
    lateDeliveries: nat,
    totalDeliveries: nat,
    totalFuelCost: real,
    unassignedOrders: nat)

  /** A successful run: its KPIs and the allocation they summarise. */
  datatype Report = Report(kpis: Kpis, plan: Plan)

  /** The KPIs of an allocation: the sums over every shift's ledger and the
      length of the leftover queue. */
  function Summarise(plan: Plan): Kpis {
    var t := Tally(AllEntries(plan.shifts));
    Kpis(t.profit, EfficiencyScore(t.onTime, t.late), t.onTime, t.late,
         t.onTime + t.late, t.fuelCost, |plan.remaining|)
  }

  /** Runs the simulation: a refused run computes no allocation; an accepted
      one allocates the first `numberOfDrivers` drivers, in roster order. */
  function RunSimulation(p: Params, drivers: seq<Driver>, orders: seq<Order>): (r: Result<Report, ValidationError>)
    ensures r.Err? <==> Validate(p, |drivers|).Err?
    ensures r.Err? ==> r.error == Validate(p, |drivers|).error
    ensures r.Ok? ==>
      && |r.value.plan.shifts| == p.numberOfDrivers.value <= |drivers|
      && forall k :: 0 <= k < |r.value.plan.shifts| ==> r.value.plan.shifts[k].driver == drivers[k]
  {
    match Validate(p, |drivers|)
    case Err(e) => Err(e)
    case Ok(s) =>
      var plan := Allocate(drivers[..s.drivers], s.maxHours, orders);
      Ok(Report(Summarise(plan), plan))
  }

  /** Orders dropped for an unresolved route during a run. */
  function DroppedOrders(report: Report): nat {
    Tally(AllEntries(report.plan.shifts)).dropped
  }

  /** Every order ends in exactly one state: delivered on time, delivered
      late, dropped, or still queued; and the queue left is the tail of the
      original order list. */
  lemma Conservation(p: Params, drivers: seq<Driver>, orders: seq<Order>)
    requires RunSimulation(p, drivers, orders).Ok?
    ensures var report := RunSimulation(p, drivers, orders).value;
      && report.kpis.onTimeDeliveries + report.kpis.lateDeliveries
         + DroppedOrders(report) + report.kpis.unassignedOrders == |orders|
      && report.plan.remaining == orders[|orders| - report.kpis.unassignedOrders..]
  {
    var report := RunSimulation(p, drivers, orders).value;
    var s := Validate(p, |drivers|).value;
    AllocateSplitsQueue(drivers[..s.drivers], s.maxHours, orders);
    TallyCountsEntries(AllEntries(report.plan.shifts));
  }

  /** No driver's accumulated hours exceed the cap, and they are exactly the
      sum of that driver's delivered times. */
  lemma HoursWithinCap(p: Params, drivers: seq<Driver>, orders: seq<Order>)
    requires RunSimulation(p, drivers, orders).Ok?
    ensures var shifts := RunSimulation(p, drivers, orders).value.plan.shifts;
      forall k :: 0 <= k < |shifts| ==>
        shifts[k].hours <= p.maxHoursPerDriver.value && shifts[k].hours == Tally(shifts[k].entries).hours
  {
    var s := Validate(p, |drivers|).value;
    forall k | 0 <= k < s.drivers
      ensures var sh := Allocate(drivers[..s.drivers], s.maxHours, orders).shifts[k];
        sh.hours <= s.maxHours && sh.hours == Tally(sh.entries).hours
    {
      AllocateShift(drivers[..s.drivers], s.maxHours, orders, k);
    }
  }

  /** Every ledger entry of driver `k` follows the per-order rules for that
      driver: a drop only for an unresolved route, and a delivery with the
      figures the rules give; in particular a rested driver is never late. */
  lemma EntriesFollowRules(p: Params, drivers: seq<Driver>, orders: seq<Order>, k: nat, i: nat)
    requires RunSimulation(p, drivers, orders).Ok?
    requires k < |RunSimulation(p, drivers, orders).value.plan.shifts|
    requires i < |RunSimulation(p, drivers, orders).value.plan.shifts[k].entries|
    ensures var e := RunSimulation(p, drivers, orders).value.plan.shifts[k].entries[i];
      && (e.Dropped? <==> e.order.assignedRoute.None?)
      && (e.Delivered? ==> e.order.assignedRoute == Some(e.route)
                           && e.delivery == Deliver(e.order, e.route, IsFatigued(drivers[k])))
      && (e.Delivered? && !IsFatigued(drivers[k]) ==> !e.delivery.late)
  {
    var s := Validate(p, |drivers|).value;
    AllocateShift(drivers[..s.drivers], s.maxHours, orders, k);
    assert drivers[..s.drivers][k] == drivers[k];
  }

  /** When no order has a resolvable route, every figure of the run is zero
      and no order is left queued. */
  lemma NoEligibleOrders(p: Params, drivers: seq<Driver>, orders: seq<Order>)
    requires RunSimulation(p, drivers, orders).Ok?
    requires forall i :: 0 <= i < |orders| ==> orders[i].assignedRoute.None?
    ensures RunSimulation(p, drivers, orders).value.kpis == Kpis(0.0, 0.0, 0, 0, 0, 0.0, 0)
  {
    var s := Validate(p, |drivers|).value;
    AllocateNoEligible(drivers[..s.drivers], s.maxHours, orders);
  }

  /** Allocating at least one driver, with a positive cap, over a queue of
      unresolved orders drops every order and leaves nothing queued. */
  lemma AllocateNoEligible(drivers: seq<Driver>, maxHours: real, orders: seq<Order>)
    requires |drivers| > 0 && 0.0 < maxHours
    requires forall i :: 0 <= i < |orders| ==> orders[i].assignedRoute.None?
    ensures var plan := Allocate(drivers, maxHours, orders);
      && plan.remaining == []
      && Tally(plan.shifts[0].entries) == Totals(0.0, 0.0, 0, 0, |orders|, 0.0)
      && Tally(AllEntries(plan.shifts)) == Totals(0.0, 0.0, 0, 0, |orders|, 0.0)
  {
    var run := Serve(IsFatigued(drivers[0]), maxHours, 0.0, orders);
    DropsAll(IsFatigued(drivers[0]), maxHours, orders);
    var rest := Allocate(drivers[1..], maxHours, run.remaining);
    NothingLeft(drivers[1..], maxHours);
    var plan := Allocate(drivers, maxHours, orders);
    assert plan.shifts[0].entries == run.entries && plan.shifts[1..] == rest.shifts;
    assert AllEntries(plan.shifts) == run.entries + AllEntries(rest.shifts);
    TallyConcat(run.entries, AllEntries(rest.shifts));
  }

  /** A driver with hours to spare drops a queue of unresolved orders
      entirely, delivering nothing. */
  lemma {:induction false} DropsAll(fatigued: bool, maxHours: real, queue: seq<Order>)
    requires 0.0 < maxHours
    requires forall i :: 0 <= i < |queue| ==> queue[i].assignedRoute.None?
    ensures var r := Serve(fatigued, maxHours, 0.0, queue);
      r.remaining == [] && Tally(r.entries) == Totals(0.0, 0.0, 0, 0, |queue|, 0.0)
    decreases |queue|
  {
    if |queue| > 0 {
      var rest := Serve(fatigued, maxHours, 0.0, queue[1..]);
      DropsAll(fatigued, maxHours, queue[1..]);
      TallyCons(Dropped(queue[0]), rest.entries);
    }
  }

  /** Drivers facing an empty queue record nothing. */
  lemma {:induction false} NothingLeft(drivers: seq<Driver>, maxHours: real)
    ensures var p := Allocate(drivers, maxHours, []);
      p.remaining == [] && Tally(AllEntries(p.shifts)) == NoTotals
    decreases |drivers|
  {
    if |drivers| > 0 {
      NothingLeft(drivers[1..], maxHours);
    }
  }
}
