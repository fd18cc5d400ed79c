/** The three stored record shapes the simulation reads. Identity fields are
    kept as plain strings; database object ids play no part in the engine. */
module Models {
  import opened Wrappers

  /** Congestion level of a route; the schema admits exactly these three. */
  datatype Traffic = Low | Medium | High

  /** A driver. `past7DayWorkHours` has no fixed length: the schema defaults
      it to the empty list and nothing on the server enforces seven entries.
      `currentShiftHours` is stored but never consulted by the simulation. */
  datatype Driver = Driver(
    name: string,
    currentShiftHours: real,
    past7DayWorkHours: seq<real>)

  /** A delivery route. Distances are in kilometres, times in minutes. */
  datatype Route = Route(
    routeId: string,
    distanceInKm: real,
    trafficLevel: Traffic,
    baseTimeInMinutes: real)

  /** An order. `assignedRoute` is the route reference after population:
      `None` when it did not resolve to a stored route. */
  datatype Order = Order(
    orderId: string,
    valueInRs: real,
    assignedRoute: Option<Route>)
}
