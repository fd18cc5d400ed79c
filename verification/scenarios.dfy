/** Concrete runs worked through by hand: one rested and one fatigued driver
    on the same order, a roster too small for the request, and an order that
    does not fit and is left for the next driver. */
module Scenarios {
  import opened Wrappers
  import opened Models
  import opened Rules
  import opened Ledger
  import opened Allocation
  import opened Simulation

  const Start: Option<string> := Some("09:00")
  const ShortLowRoute: Route := Route("R1", 10.0, Low, 60.0)
  const BigOrder: Order := Order("O1", 1200.0, Some(ShortLowRoute))

  /** A rested driver (no past-week day above 8 hours) delivers the
      1200-rupee order on time: bonus 120, fuel 50, profit 1270, efficiency
      100, nothing left over. */
  lemma RestedDriverOnTime(d: Driver)
    requires !IsFatigued(d)
    ensures var e := Delivered(BigOrder, ShortLowRoute, Delivery(60.0, false, 120.0, 0.0, 50.0, 1270.0));
      RunSimulation(Params(Some(1), Start, Some(8.0)), [d], [BigOrder])
      == Ok(Report(Kpis(1270.0, 100.0, 1, 0, 1, 50.0, 0), Plan([Shift(d, [e], 1.0)], [])))
  {
    var delivery := Delivery(60.0, false, 120.0, 0.0, 50.0, 1270.0);
    assert Deliver(BigOrder, ShortLowRoute, false) == delivery;
    OneDriverOneOrder(d, 8.0, Delivered(BigOrder, ShortLowRoute, delivery));
  }

  /** A single driver who delivers a single order with hours to spare: the
      KPIs are that one delivery's figures. */
  lemma OneDriverOneOrder(d: Driver, maxHours: real, e: Entry)
    requires e.Delivered? && e.order.assignedRoute == Some(e.route)
    requires e.delivery == Deliver(e.order, e.route, IsFatigued(d))
    requires DeliveryHours(e.route, IsFatigued(d)) <= maxHours
    requires 0.0 < maxHours
    ensures var h := DeliveryHours(e.route, IsFatigued(d));
      var onTime := if e.delivery.late then 0 else 1;
      RunSimulation(Params(Some(1), Start, Some(maxHours)), [d], [e.order])
      == Ok(Report(Kpis(e.delivery.profit, EfficiencyScore(onTime, 1 - onTime), onTime, 1 - onTime, 1,
                        e.delivery.fuelCost, 0),
                   Plan([Shift(d, [e], h)], [])))
  {
    var h := DeliveryHours(e.route, IsFatigued(d));
    assert [e.order][1..] == [];
    assert Serve(IsFatigued(d), maxHours, 0.0, [e.order]) == ShiftRun([e], h, []);
    assert [d][..1] == [d] && [d][1..] == [];
    assert Allocate([d], maxHours, [e.order]) == Plan([Shift(d, [e], h)], []);
    assert [Shift(d, [e], h)][1..] == [];
    assert AllEntries([Shift(d, [e], h)]) == [e];
    assert [e][1..] == [];
    assert Tally([e]) == Plus(Contribution(e), NoTotals);
  }

  /** The same order with a fatigued driver (some past-week day above 8
      hours, say 9) takes 78 minutes, more than the 70 allowed, so it is
      late: penalty 50, no bonus, profit 1100, efficiency 0. */
  lemma FatiguedDriverLate(d: Driver)
    requires IsFatigued(d)
    ensures var e := Delivered(BigOrder, ShortLowRoute, Delivery(78.0, true, 0.0, 50.0, 50.0, 1100.0));
      RunSimulation(Params(Some(1), Start, Some(8.0)), [d], [BigOrder])
      == Ok(Report(Kpis(1100.0, 0.0, 0, 1, 1, 50.0, 0), Plan([Shift(d, [e], 1.3)], [])))
  {
    var delivery := Delivery(78.0, true, 0.0, 50.0, 50.0, 1100.0);
    assert Deliver(BigOrder, ShortLowRoute, true) == delivery;
    OneDriverOneOrder(d, 8.0, Delivered(BigOrder, ShortLowRoute, delivery));
  }

  /** A past week with one 9-hour day is a fatigued one. */
  lemma NineHourDayFatigues(d: Driver)
    requires 9.0 in d.past7DayWorkHours
    ensures IsFatigued(d)
  {
    var i :| 0 <= i < |d.past7DayWorkHours| && d.past7DayWorkHours[i] == 9.0;
  }

  /** Asking for two drivers from a roster of one is refused with the roster
      reason, carrying both numbers. */
  lemma TooFewDrivers()
    ensures RunSimulation(Params(Some(2), Start, Some(8.0)), [Driver("Amit", 0.0, [])], [BigOrder])
         == Err(ExceedsAvailableDrivers(2, 1))
  {
  }

  /** A rested lone driver, a cap that fits the first order but not both:
      the first order is delivered on time, the second is put back unchanged
      and stays unassigned. */
  lemma PutBackLoneDriver(d: Driver, o1: Order, o2: Order, maxHours: real)
    requires !IsFatigued(d) && o1.assignedRoute.Some? && o2.assignedRoute.Some?
    requires 0.0 < maxHours
    requires DeliveryHours(o1.assignedRoute.value, false) <= maxHours
    requires DeliveryHours(o1.assignedRoute.value, false) + DeliveryHours(o2.assignedRoute.value, false) > maxHours
    ensures var r := RunSimulation(Params(Some(1), Start, Some(maxHours)), [d], [o1, o2]);
      && r.Ok? && r.value.kpis.onTimeDeliveries == 1 && r.value.kpis.lateDeliveries == 0
      && r.value.kpis.unassignedOrders == 1 && r.value.plan.remaining == [o2]
  {
    var orders := [o1, o2];
    var route := o1.assignedRoute.value;
    var h := DeliveryHours(route, false);
    var e1 := Delivered(o1, route, Deliver(o1, route, false));
    assert orders[0] == o1 && orders[1..] == [o2];
    assert Serve(false, maxHours, h, [o2]) == ShiftRun([], h, [o2]);
    assert Serve(false, maxHours, 0.0, orders) == ShiftRun([e1], h, [o2]);
    assert [d][..1] == [d] && [d][1..] == [];
    assert Allocate([], maxHours, [o2]) == Plan([], [o2]);
    var plan := Allocate([d], maxHours, orders);
    assert plan == Plan([Shift(d, [e1], h)], [o2]);
    assert [Shift(d, [e1], h)][1..] == [];
    assert AllEntries(plan.shifts) == [e1];
    assert [e1][1..] == [];
    assert Tally([e1]) == Plus(Contribution(e1), NoTotals);
  }

  /** The same orders with a second rested driver: the order the first driver
      put back is the one the second driver delivers, and nothing is left. */
  lemma PutBackNextDriver(a: Driver, b: Driver, o1: Order, o2: Order, maxHours: real)
    requires !IsFatigued(a) && !IsFatigued(b) && o1.assignedRoute.Some? && o2.assignedRoute.Some?
    requires 0.0 < maxHours
    requires DeliveryHours(o1.assignedRoute.value, false) <= maxHours
    requires DeliveryHours(o2.assignedRoute.value, false) <= maxHours
    requires DeliveryHours(o1.assignedRoute.value, false) + DeliveryHours(o2.assignedRoute.value, false) > maxHours
    ensures var r := RunSimulation(Params(Some(2), Start, Some(maxHours)), [a, b], [o1, o2]);
      && r.Ok? && r.value.kpis.onTimeDeliveries == 2 && r.value.kpis.unassignedOrders == 0
      && Orders(r.value.plan.shifts[1].entries) == [o2]
  {
    var orders := [o1, o2];
    var r1 := o1.assignedRoute.value;
    var r2 := o2.assignedRoute.value;
    var h1 := DeliveryHours(r1, false);
    var h2 := DeliveryHours(r2, false);
    var e1 := Delivered(o1, r1, Deliver(o1, r1, false));
    var e2 := Delivered(o2, r2, Deliver(o2, r2, false));
    assert orders[0] == o1 && orders[1..] == [o2] && [o2][1..] == [];
    assert Serve(false, maxHours, h1, [o2]) == ShiftRun([], h1, [o2]);
    assert Serve(false, maxHours, 0.0, orders) == ShiftRun([e1], h1, [o2]);
    assert Serve(false, maxHours, h2, []) == ShiftRun([], h2, []);
    assert Serve(false, maxHours, 0.0, [o2]) == ShiftRun([e2], h2, []);
    assert [a, b][..2] == [a, b] && [a, b][1..] == [b] && [b][1..] == [];
    var s1 := Shift(a, [e1], h1);
    var s2 := Shift(b, [e2], h2);
    assert Allocate([b], maxHours, [o2]) == Plan([s2], []);
    var plan := Allocate([a, b], maxHours, orders);
    assert plan == Plan([s1, s2], []);
    assert [s1, s2][1..] == [s2] && [s2][1..] == [];
    assert AllEntries([s2]) == [e2];
    assert AllEntries(plan.shifts) == [e1] + [e2];
    TallyConcat([e1], [e2]);
    assert [e1][1..] == [] && [e2][1..] == [];
    assert Tally([e1]) == Plus(Contribution(e1), NoTotals);
    assert Tally([e2]) == Plus(Contribution(e2), NoTotals);
    OrdersCons(e2, []);
  }
}
