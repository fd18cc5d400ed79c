/** The per-order company rules applied to each delivery: fatigue, lateness,
    late penalty, high-value bonus, fuel cost with the traffic surcharge, and
    the order's profit contribution. */
module Rules {
  import opened Models

  /** A past-week entry strictly above this many hours makes a driver fatigued. */
  const FatigueThresholdHours: real := 8.0
  /** A fatigued driver needs 30% more time for every route. */
  const FatigueFactor: real := 1.3
  /** A delivery is late when it takes more than this many minutes over the base time. */
  const LateGraceMinutes: real := 10.0
  const LatePenalty: real := 50.0
  /** Orders worth strictly more than this earn the on-time bonus. */
  const BonusThreshold: real := 1000.0
  const BonusRate: real := 0.1
  const FuelPerKm: real := 5.0
  /** Extra fuel cost per kilometre on a High-traffic route. */
  const HighTrafficSurchargePerKm: real := 2.0

  /** Whether some entry of `hours` is strictly above `limit`, scanning from
      the front as an array `some` does. */
  function AnyAbove(hours: seq<real>, limit: real): (r: bool)
    ensures r <==> exists i :: 0 <= i < |hours| && hours[i] > limit
  {
    if |hours| == 0 then false
    else if hours[0] > limit then true
    else
      var r := AnyAbove(hours[1..], limit);
      assert forall i :: 1 <= i < |hours| ==> hours[i] == hours[1..][i - 1];
      r
  }

  predicate IsFatigued(d: Driver) {
    AnyAbove(d.past7DayWorkHours, FatigueThresholdHours)
  }

  /** Minutes the delivery actually takes: the route's base time, stretched
      by the fatigue factor for a fatigued driver. */
  function EffectiveMinutes(route: Route, fatigued: bool): real {
    if fatigued then route.baseTimeInMinutes * FatigueFactor
    else route.baseTimeInMinutes
  }

  /** The effective time as a fraction of the driver's hour budget. */
  function DeliveryHours(route: Route, fatigued: bool): real {
    EffectiveMinutes(route, fatigued) / 60.0
  }

  predicate IsLate(route: Route, fatigued: bool) {
    EffectiveMinutes(route, fatigued) > route.baseTimeInMinutes + LateGraceMinutes
  }

  function Penalty(late: bool): real {
    if late then LatePenalty else 0.0
  }

  /** The high-value bonus: granted only to on-time orders above the threshold. */
  function Bonus(valueInRs: real, late: bool): real {
    if !late && valueInRs > BonusThreshold then valueInRs * BonusRate else 0.0
  }

  function FuelCost(route: Route): real {
    var base := route.distanceInKm * FuelPerKm;
    if route.trafficLevel == High then base + route.distanceInKm * HighTrafficSurchargePerKm
    else base
  }

  /** Everything the engine derives from delivering one order. */
  datatype Delivery = Delivery(
    minutes: real,
    late: bool,
    bonus: real,
    penalty: real,
    fuelCost: real,
    profit: real)

  /** Applies the rules to one order delivered over `route` by a driver whose
      fatigue flag is `fatigued`. The contract gives each figure in closed
      form, in terms of the inputs only. */
  function Deliver(order: Order, route: Route, fatigued: bool): (d: Delivery)
    ensures d.late <==> fatigued && route.baseTimeInMinutes > 100.0 / 3.0
    ensures d.penalty == (if d.late then 50.0 else 0.0)
    ensures d.bonus == (if !d.late && order.valueInRs > 1000.0 then order.valueInRs / 10.0 else 0.0)
    ensures d.fuelCost == route.distanceInKm * (if route.trafficLevel == High then 7.0 else 5.0)
    ensures d.profit == order.valueInRs + d.bonus - d.penalty - d.fuelCost
    ensures d.minutes == route.baseTimeInMinutes * (if fatigued then 1.3 else 1.0)
  {
    var late := IsLate(route, fatigued);
    var bonus := Bonus(order.valueInRs, late);
    var penalty := Penalty(late);
    var fuel := FuelCost(route);
    Delivery(EffectiveMinutes(route, fatigued), late, bonus, penalty, fuel,
             order.valueInRs + bonus - penalty - fuel)
  }

  /** Fatigue inflates the time by exactly 30% and otherwise leaves it alone. */
  lemma FatigueStretch(route: Route)
    ensures EffectiveMinutes(route, false) == route.baseTimeInMinutes
    ensures EffectiveMinutes(route, true) - route.baseTimeInMinutes == route.baseTimeInMinutes * 3.0 / 10.0
  {
  }

  /** Lateness happens exactly for a fatigued driver on a route whose base
      time exceeds 100/3 minutes, so a rested driver is never late. */
  lemma LateExactly(route: Route, fatigued: bool)
    ensures IsLate(route, fatigued) <==> fatigued && route.baseTimeInMinutes > 100.0 / 3.0
    ensures !IsLate(route, false)
  {
  }

  /** On a route of non-negative base time, marking the driver fatigued never
      shortens the delivery; and a fatigued delivery is late exactly when the
      time fatigue adds exceeds the 10-minute grace. */
  lemma FatigueMonotone(route: Route)
    requires route.baseTimeInMinutes >= 0.0
    ensures EffectiveMinutes(route, true) >= EffectiveMinutes(route, false)
    ensures IsLate(route, true) <==> EffectiveMinutes(route, true) - EffectiveMinutes(route, false) > LateGraceMinutes
  {
  }

  /** Fuel cost by traffic level: Low and Medium cost the same, High costs
      strictly more on a route of positive length, and no route of
      non-negative length costs less than nothing. */
  lemma FuelByTraffic(d: real, id: string, base: real)
    ensures FuelCost(Route(id, d, Low, base)) == FuelCost(Route(id, d, Medium, base)) == 5.0 * d
    ensures FuelCost(Route(id, d, High, base)) == 7.0 * d
    ensures d > 0.0 ==> FuelCost(Route(id, d, High, base)) > FuelCost(Route(id, d, Medium, base))
    ensures d >= 0.0 ==> FuelCost(Route(id, d, Low, base)) >= 0.0
  {
  }
}
