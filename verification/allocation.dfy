/** The greedy allocation: drivers, in order, take orders from the front of
    one shared queue until their hours reach the cap, the next order would
    take them over it (that order goes back to the front), or the queue runs
    out. */
module Allocation {
  import opened Wrappers
  import opened Models
  import opened Rules
  import opened Ledger

  /** One driver's pass over the queue: the ledger of orders it took off the
      queue, the hours it ended with, and the queue it left behind. */
  datatype ShiftRun = ShiftRun(entries: seq<Entry>, hours: real, remaining: seq<Order>)

  /** One driver serving the queue with `hours` already worked. An order with
      no route is dropped at no cost in hours; an order that would take the
      driver over the cap stays at the front and ends the pass; any other
      order is delivered. */
  function Serve(fatigued: bool, maxHours: real, hours: real, queue: seq<Order>): ShiftRun
    decreases |queue|
  {
    if !(hours < maxHours) || |queue| == 0 then ShiftRun([], hours, queue)
    else
      var order := queue[0];
      match order.assignedRoute
      case None =>
        var rest := Serve(fatigued, maxHours, hours, queue[1..]);
        ShiftRun([Dropped(order)] + rest.entries, rest.hours, rest.remaining)
      case Some(route) =>
        var h := DeliveryHours(route, fatigued);
        if hours + h > maxHours then ShiftRun([], hours, queue)
        else
          var rest := Serve(fatigued, maxHours, hours + h, queue[1..]);
          ShiftRun([Delivered(order, route, Deliver(order, route, fatigued))] + rest.entries,
                   rest.hours, rest.remaining)
  }

  /** One step of a pass that meets an order without a route: it is dropped
      and the pass goes on at the same hours. */
  lemma ServeDrops(fatigued: bool, maxHours: real, hours: real, queue: seq<Order>)
    requires hours < maxHours && |queue| > 0 && queue[0].assignedRoute.None?
    ensures var rest := Serve(fatigued, maxHours, hours, queue[1..]);
      Serve(fatigued, maxHours, hours, queue) == ShiftRun([Dropped(queue[0])] + rest.entries, rest.hours, rest.remaining)
  {
  }

  /** One step of a pass that meets an order whose delivery fits under the
      cap: it is delivered and the pass goes on with the hours it took. */
  lemma ServeDelivers(fatigued: bool, maxHours: real, hours: real, queue: seq<Order>)
    requires hours < maxHours && |queue| > 0 && queue[0].assignedRoute.Some?
    requires hours + DeliveryHours(queue[0].assignedRoute.value, fatigued) <= maxHours
    ensures var route := queue[0].assignedRoute.value;
      var rest := Serve(fatigued, maxHours, hours + DeliveryHours(route, fatigued), queue[1..]);
      Serve(fatigued, maxHours, hours, queue)
        == ShiftRun([Delivered(queue[0], route, Deliver(queue[0], route, fatigued))] + rest.entries,
                    rest.hours, rest.remaining)
  {
  }

  /** The orders a pass took off the queue, followed by the queue it left,
      are the queue it started from: nothing is lost, duplicated or
      reordered, and an order put back is put back unchanged at the front. */
  lemma {:induction false} ServeSplitsQueue(fatigued: bool, maxHours: real, hours: real, queue: seq<Order>)
    ensures var r := Serve(fatigued, maxHours, hours, queue);
      Orders(r.entries) + r.remaining == queue
    decreases |queue|
  {
    var r := Serve(fatigued, maxHours, hours, queue);
    if hours < maxHours && |queue| > 0 {
      var rest := if queue[0].assignedRoute.None? then Serve(fatigued, maxHours, hours, queue[1..])
                  else Serve(fatigued, maxHours, hours + DeliveryHours(queue[0].assignedRoute.value, fatigued), queue[1..]);
      if r != ShiftRun([], hours, queue) {
        ServeSplitsQueue(fatigued, maxHours, if queue[0].assignedRoute.None? then hours
                         else hours + DeliveryHours(queue[0].assignedRoute.value, fatigued), queue[1..]);
        OrdersCons(r.entries[0], rest.entries);
        assert r.entries == [r.entries[0]] + rest.entries;
      }
    }
  }

  /** A pass adds to the driver's hours exactly the times of the orders it
      delivered (dropped orders cost nothing), and either adds nothing or
      ends within the cap. */
  lemma {:induction false} ServeHours(fatigued: bool, maxHours: real, hours: real, queue: seq<Order>)
    ensures var r := Serve(fatigued, maxHours, hours, queue);
      r.hours == hours + Tally(r.entries).hours && (r.hours == hours || r.hours <= maxHours)
    decreases |queue|
  {
    var r := Serve(fatigued, maxHours, hours, queue);
    if hours < maxHours && |queue| > 0 {
      var next := if queue[0].assignedRoute.None? then hours
                  else hours + DeliveryHours(queue[0].assignedRoute.value, fatigued);
      var rest := Serve(fatigued, maxHours, next, queue[1..]);
      if r != ShiftRun([], hours, queue) {
        ServeHours(fatigued, maxHours, next, queue[1..]);
        TallyCons(r.entries[0], rest.entries);
        assert r.entries == [r.entries[0]] + rest.entries;
      }
    }
  }

  /** Every entry of a pass follows the rules for that driver. */
  lemma {:induction false} ServeFaithful(fatigued: bool, maxHours: real, hours: real, queue: seq<Order>)
    ensures AllFaithful(Serve(fatigued, maxHours, hours, queue).entries, fatigued)
    decreases |queue|
  {
    var r := Serve(fatigued, maxHours, hours, queue);
    if hours < maxHours && |queue| > 0 {
      var next := if queue[0].assignedRoute.None? then hours
                  else hours + DeliveryHours(queue[0].assignedRoute.value, fatigued);
      var rest := Serve(fatigued, maxHours, next, queue[1..]);
      if r != ShiftRun([], hours, queue) {
        ServeFaithful(fatigued, maxHours, next, queue[1..]);
        FaithfulCons(r.entries[0], rest.entries, fatigued);
        assert r.entries == [r.entries[0]] + rest.entries;
      }
    }
  }

  /** Why a driver's pass ended with orders still queued: its hours reached the
      cap, or the head order, whose route resolved, would have taken it over. */
  predicate StoppedFor(fatigued: bool, maxHours: real, hours: real, remaining: seq<Order>) {
    || |remaining| == 0
    || hours >= maxHours
    || (remaining[0].assignedRoute.Some?
        && hours + DeliveryHours(remaining[0].assignedRoute.value, fatigued) > maxHours)
  }

  /** A pass never stops early: when it leaves orders queued, the driver's
      hours are exhausted or the very next order does not fit. */
  lemma {:induction false} ServeStopsForCause(fatigued: bool, maxHours: real, hours: real, queue: seq<Order>)
    ensures var r := Serve(fatigued, maxHours, hours, queue);
      StoppedFor(fatigued, maxHours, r.hours, r.remaining)
    decreases |queue|
  {
    if hours < maxHours && |queue| > 0 {
      var next := if queue[0].assignedRoute.None? then hours
                  else hours + DeliveryHours(queue[0].assignedRoute.value, fatigued);
      if next <= maxHours {
        ServeStopsForCause(fatigued, maxHours, next, queue[1..]);
      }
    }
  }

  /** A driver's completed pass, as the allocation reports it. */
  datatype Shift = Shift(driver: Driver, entries: seq<Entry>, hours: real)

  /** The outcome of allocating: one shift per selected driver, in order, and
      the orders still queued at the end. */
  datatype Plan = Plan(shifts: seq<Shift>, remaining: seq<Order>)

  /** The ledgers of all shifts, one after the other. */
  function AllEntries(shifts: seq<Shift>): seq<Entry> {
    if |shifts| == 0 then [] else shifts[0].entries + AllEntries(shifts[1..])
  }

  /** Runs every driver in turn over the shared queue, each starting at zero
      hours, each seeing the queue the previous one left. */
  function Allocate(drivers: seq<Driver>, maxHours: real, queue: seq<Order>): (p: Plan)
    ensures |p.shifts| == |drivers|
    ensures forall k :: 0 <= k < |drivers| ==> p.shifts[k].driver == drivers[k]
    decreases |drivers|
  {
    if |drivers| == 0 then Plan([], queue)
    else
      var run := Serve(IsFatigued(drivers[0]), maxHours, 0.0, queue);
      var rest := Allocate(drivers[1..], maxHours, run.remaining);
      Plan([Shift(drivers[0], run.entries, run.hours)] + rest.shifts, rest.remaining)
  }

  /** The ledgers of all shifts, followed by the leftover queue, give back
      the original queue: the leftover queue is a suffix of it. */
  lemma {:induction false} AllocateSplitsQueue(drivers: seq<Driver>, maxHours: real, queue: seq<Order>)
    ensures var p := Allocate(drivers, maxHours, queue);
      Orders(AllEntries(p.shifts)) + p.remaining == queue
    decreases |drivers|
  {
    if |drivers| > 0 {
      var p := Allocate(drivers, maxHours, queue);
      var run := Serve(IsFatigued(drivers[0]), maxHours, 0.0, queue);
      var rest := Allocate(drivers[1..], maxHours, run.remaining);
      ServeSplitsQueue(IsFatigued(drivers[0]), maxHours, 0.0, queue);
      AllocateSplitsQueue(drivers[1..], maxHours, run.remaining);
      assert p.shifts[1..] == rest.shifts;
      OrdersConcat(run.entries, AllEntries(rest.shifts));
    }
  }

  /** The shift of the `k`-th selected driver, begun at zero hours, records
      exactly its delivered times and, for a non-negative cap, stays within
      the cap; and every entry of it follows the rules for that driver's own
      fatigue. */
  lemma {:induction false} AllocateShift(drivers: seq<Driver>, maxHours: real, queue: seq<Order>, k: nat)
    requires k < |drivers|
    ensures var s := Allocate(drivers, maxHours, queue).shifts[k];
      && s.hours == Tally(s.entries).hours
      && (0.0 <= maxHours ==> s.hours <= maxHours)
      && AllFaithful(s.entries, IsFatigued(drivers[k]))
    decreases k
  {
    var run := Serve(IsFatigued(drivers[0]), maxHours, 0.0, queue);
    if k == 0 {
      ServeHours(IsFatigued(drivers[0]), maxHours, 0.0, queue);
      ServeFaithful(IsFatigued(drivers[0]), maxHours, 0.0, queue);
    } else {
      AllocateShift(drivers[1..], maxHours, run.remaining, k - 1);
      assert Allocate(drivers, maxHours, queue).shifts[k]
          == Allocate(drivers[1..], maxHours, run.remaining).shifts[k - 1];
      assert drivers[k] == drivers[1..][k - 1];
    }
  }

  lemma {:induction false} AllEntriesSnoc(shifts: seq<Shift>, s: Shift)
    ensures AllEntries(shifts + [s]) == AllEntries(shifts) + s.entries
  {
    if |shifts| == 0 {
      assert (shifts + [s])[1..] == [];
    } else {
      assert (shifts + [s])[1..] == shifts[1..] + [s];
      AllEntriesSnoc(shifts[1..], s);
    }
  }
}
