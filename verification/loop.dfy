/** The allocation written as the nested loops of the controller,
    keeping its running totals and its mutable queue with shift, unshift,
    continue and break, proved to compute what the functional model does. */
module SimulationLoop {
  import opened Models
  import opened Rules
  import opened Ledger
  import opened Allocation
  import opened Simulation

  /** The running totals agree with the tally of a ledger. */
  ghost predicate Agrees(ledger: seq<Entry>, profit: real, fuel: real, onTime: nat, late: nat) {
    var t := Tally(ledger);
    t.profit == profit && t.fuelCost == fuel && t.onTime == onTime && t.late == late
  }

  /** A pass that has already produced `done`, continued by the pass `rest`. */
  ghost function Resume(done: seq<Entry>, rest: ShiftRun): ShiftRun {
    ShiftRun(done + rest.entries, rest.hours, rest.remaining)
  }

  lemma ResumeCons(done: seq<Entry>, e: Entry, rest: ShiftRun)
    ensures Resume(done, ShiftRun([e] + rest.entries, rest.hours, rest.remaining)) == Resume(done + [e], rest)
  {
    assert done + ([e] + rest.entries) == (done + [e]) + rest.entries;
  }

  /** A plan whose first shifts are `done`, continued by the plan `rest`. */
  ghost function ResumePlan(done: seq<Shift>, rest: Plan): Plan {
    Plan(done + rest.shifts, rest.remaining)
  }

  lemma ResumePlanCons(done: seq<Shift>, s: Shift, rest: Plan)
    ensures ResumePlan(done, Plan([s] + rest.shifts, rest.remaining)) == ResumePlan(done + [s], rest)
  {
    assert done + ([s] + rest.shifts) == (done + [s]) + rest.shifts;
  }

  /** Adding an entry's contribution to totals that agree with a ledger
      gives totals that agree with the ledger extended by that entry. */
  lemma AgreesSnoc(ledger: seq<Entry>, e: Entry, profit: real, fuel: real, onTime: nat, late: nat)
    requires Agrees(ledger, profit, fuel, onTime, late)
    ensures var c := Contribution(e);
      Agrees(ledger + [e], profit + c.profit, fuel + c.fuelCost, onTime + c.onTime, late + c.late)
  {
    TallySnoc(ledger, e);
  }

  /** Two steps of a pass: once `whole` is `entries` followed by a run that
      starts with `e`, it is `entries + [e]` followed by the rest of that run,
      and totals agreeing with the ledger so far grow by `e`'s contribution. */
  lemma Advance(whole: ShiftRun, entries: seq<Entry>, e: Entry, rest: ShiftRun, prior: seq<Entry>,
                profit: real, fuel: real, onTime: nat, late: nat)
    requires whole == Resume(entries, ShiftRun([e] + rest.entries, rest.hours, rest.remaining))
    requires Agrees(prior + entries, profit, fuel, onTime, late)
    ensures whole == Resume(entries + [e], rest)
    ensures var c := Contribution(e);
      Agrees(prior + (entries + [e]), profit + c.profit, fuel + c.fuelCost, onTime + c.onTime, late + c.late)
  {
    ResumeCons(entries, e, rest);
    AgreesSnoc(prior + entries, e, profit, fuel, onTime, late);
    assert (prior + entries) + [e] == prior + (entries + [e]);
  }

  /** The controller's per-order arithmetic on the running totals: the
      10-minute grace, the 50-rupee penalty, the 10% bonus above 1000, and
      5 per km plus 2 per km in high traffic. Given the stretched minutes, it
      adds exactly the contribution of the delivered entry the rules give. */
  method Settle(order: Order, route: Route, actualDeliveryTimeMinutes: real, ghost fatigued: bool,
                profit0: real, fuel0: real, onTime0: nat, late0: nat)
    returns (totalProfit: real, totalFuelCost: real, onTimeDeliveries: nat, lateDeliveries: nat)
    requires actualDeliveryTimeMinutes == EffectiveMinutes(route, fatigued)
    ensures var c := Contribution(Delivered(order, route, Deliver(order, route, fatigued)));
      && totalProfit == profit0 + c.profit && totalFuelCost == fuel0 + c.fuelCost
      && onTimeDeliveries == onTime0 + c.onTime && lateDeliveries == late0 + c.late
  {
    totalProfit, totalFuelCost, onTimeDeliveries, lateDeliveries := profit0, fuel0, onTime0, late0;
    var isLate := actualDeliveryTimeMinutes > route.baseTimeInMinutes + 10.0;
    var orderBonus := 0.0;
    var orderPenalty := 0.0;
    if isLate {
      orderPenalty := 50.0;
      lateDeliveries := lateDeliveries + 1;
    } else {
      onTimeDeliveries := onTimeDeliveries + 1;
      if order.valueInRs > 1000.0 {
        orderBonus := order.valueInRs * 0.1;
      }
    }
    var fuelCost := route.distanceInKm * 5.0;
    if route.trafficLevel == High {
      fuelCost := fuelCost + route.distanceInKm * 2.0;
    }
    totalProfit := totalProfit + (order.valueInRs + orderBonus - orderPenalty - fuelCost);
    totalFuelCost := totalFuelCost + fuelCost;
  }

  /** One driver's inner loop: starting at zero hours, pops orders from the
      front of the queue, skips unresolved ones, puts back the order that
      does not fit and stops, and adds every delivery to the running totals.
      It ends with the functional pass's hours and leftover queue, and the
      totals grow by exactly that pass's ledger. */
  method DriverShift(driver: Driver, maxHours: real, queue0: seq<Order>, ghost prior: seq<Entry>,
                     profit0: real, fuel0: real, onTime0: nat, late0: nat)
    returns (queue: seq<Order>, driverCurrentHours: real, totalProfit: real, totalFuelCost: real,
             onTimeDeliveries: nat, lateDeliveries: nat)
    requires Agrees(prior, profit0, fuel0, onTime0, late0)
    ensures var r := Serve(IsFatigued(driver), maxHours, 0.0, queue0);
      && queue == r.remaining && driverCurrentHours == r.hours
      && Agrees(prior + r.entries, totalProfit, totalFuelCost, onTimeDeliveries, lateDeliveries)
  {
    totalProfit, totalFuelCost, onTimeDeliveries, lateDeliveries := profit0, fuel0, onTime0, late0;
    ghost var fatigue := IsFatigued(driver);
    ghost var entries: seq<Entry> := [];
    queue := queue0;
    driverCurrentHours := 0.0;
    assert prior + entries == prior;

    while driverCurrentHours < maxHours && |queue| > 0
      invariant Serve(fatigue, maxHours, 0.0, queue0) == Resume(entries, Serve(fatigue, maxHours, driverCurrentHours, queue))
      invariant Agrees(prior + entries, totalProfit, totalFuelCost, onTimeDeliveries, lateDeliveries)
      decreases |queue|
    {
      ghost var before, hours0 := queue, driverCurrentHours;
      var order := queue[0];
      queue := queue[1..];
      if order.assignedRoute.None? {
        ghost var e := Dropped(order);
        ServeDrops(fatigue, maxHours, hours0, before);
        Advance(Serve(fatigue, maxHours, 0.0, queue0), entries, e, Serve(fatigue, maxHours, driverCurrentHours, queue),
                prior, totalProfit, totalFuelCost, onTimeDeliveries, lateDeliveries);
        assert Contribution(e) == Totals(0.0, 0.0, 0, 0, 1, 0.0);
        entries := entries + [e];
        continue;
      }
      var route := order.assignedRoute.value;

      var isFatigued := AnyAbove(driver.past7DayWorkHours, 8.0);
      var actualDeliveryTimeMinutes := route.baseTimeInMinutes;
      if isFatigued {
        actualDeliveryTimeMinutes := actualDeliveryTimeMinutes * 1.3;
      }
      var deliveryTimeHours := actualDeliveryTimeMinutes / 60.0;
      assert isFatigued == fatigue && deliveryTimeHours == DeliveryHours(route, fatigue);
      if driverCurrentHours + deliveryTimeHours > maxHours {
        queue := [order] + queue;
        assert queue == before;
        assert Serve(fatigue, maxHours, driverCurrentHours, queue).entries == [];
        break;
      }
      driverCurrentHours := driverCurrentHours + deliveryTimeHours;

      ghost var e := Delivered(order, route, Deliver(order, route, fatigue));
      ServeDelivers(fatigue, maxHours, hours0, before);
      Advance(Serve(fatigue, maxHours, 0.0, queue0), entries, e, Serve(fatigue, maxHours, driverCurrentHours, queue),
              prior, totalProfit, totalFuelCost, onTimeDeliveries, lateDeliveries);
      totalProfit, totalFuelCost, onTimeDeliveries, lateDeliveries :=
        Settle(order, route, actualDeliveryTimeMinutes, fatigue, totalProfit, totalFuelCost, onTimeDeliveries, lateDeliveries);
      entries := entries + [e];
    }
    assert Serve(fatigue, maxHours, driverCurrentHours, queue).entries == [];
    assert entries + [] == entries;
  }

  /** Runs the first `numberOfDrivers` drivers over `orders` and returns the
      controller's running totals and the length of the leftover queue. They are
      the KPIs of the functional allocation, so the efficiency score computed
      from them is the reported one. */
  method Simulate(drivers: seq<Driver>, numberOfDrivers: nat, maxHours: real, orders: seq<Order>)
    returns (totalProfit: real, totalFuelCost: real, onTimeDeliveries: nat, lateDeliveries: nat,
             unassignedOrders: nat)
    requires numberOfDrivers <= |drivers|
    ensures var plan := Allocate(drivers[..numberOfDrivers], maxHours, orders);
      Summarise(plan) == Kpis(totalProfit, EfficiencyScore(onTimeDeliveries, lateDeliveries),
                              onTimeDeliveries, lateDeliveries, onTimeDeliveries + lateDeliveries,
                              totalFuelCost, unassignedOrders)
  {
    totalProfit := 0.0;
    totalFuelCost := 0.0;
    onTimeDeliveries := 0;
    lateDeliveries := 0;
    var selectedDrivers := drivers[..numberOfDrivers];
    var queue := orders;
    ghost var shifts: seq<Shift> := [];
    ghost var ledger: seq<Entry> := [];

    var k := 0;
    while k < |selectedDrivers|
      invariant 0 <= k <= |selectedDrivers|
      invariant Allocate(selectedDrivers, maxHours, orders)
             == ResumePlan(shifts, Allocate(selectedDrivers[k..], maxHours, queue))
      invariant AllEntries(shifts) == ledger
      invariant Agrees(ledger, totalProfit, totalFuelCost, onTimeDeliveries, lateDeliveries)
    {
      var driver := selectedDrivers[k];
      ghost var start := queue;
      var hours;
      queue, hours, totalProfit, totalFuelCost, onTimeDeliveries, lateDeliveries :=
        DriverShift(driver, maxHours, queue, ledger, totalProfit, totalFuelCost, onTimeDeliveries, lateDeliveries);
      ghost var run := Serve(IsFatigued(driver), maxHours, 0.0, start);
      ghost var later := Allocate(selectedDrivers[k + 1..], maxHours, queue);
      assert selectedDrivers[k..][0] == driver && selectedDrivers[k..][1..] == selectedDrivers[k + 1..];
      assert Allocate(selectedDrivers[k..], maxHours, start)
          == Plan([Shift(driver, run.entries, run.hours)] + later.shifts, later.remaining);
      ResumePlanCons(shifts, Shift(driver, run.entries, run.hours), later);

      AllEntriesSnoc(shifts, Shift(driver, run.entries, hours));
      shifts := shifts + [Shift(driver, run.entries, hours)];
      ledger := ledger + run.entries;
      k := k + 1;
    }
    assert selectedDrivers[k..] == [];
    assert shifts + [] == shifts;
    unassignedOrders := |queue|;
  }
}
