/** The record of what became of every order taken off the queue, and the
    running sums the engine keeps over it. */
module Ledger {
  import opened Wrappers
  import opened Models
  import opened Rules

  /** The fate of one order popped from the queue: dropped because its route
      did not resolve, or delivered over its route with the derived figures. */
  datatype Entry =
    | Dropped(order: Order)
    | Delivered(order: Order, route: Route, delivery: Delivery)

  /** Running sums over a ledger: the four the engine keeps, plus the count of
      dropped orders and the driver hours used, which it does not report. */
  datatype Totals = Totals(
    profit: real,
    fuelCost: real,
    onTime: nat,
    late: nat,
    dropped: nat,
    hours: real)

  const NoTotals: Totals := Totals(0.0, 0.0, 0, 0, 0, 0.0)

  /** What one entry adds to the sums. A dropped order adds nothing but its count. */
  function Contribution(e: Entry): Totals {
    match e
    case Dropped(_) => Totals(0.0, 0.0, 0, 0, 1, 0.0)
    case Delivered(_, _, d) =>
      Totals(d.profit, d.fuelCost, if d.late then 0 else 1, if d.late then 1 else 0, 0, d.minutes / 60.0)
  }

  function Plus(a: Totals, b: Totals): Totals {
    Totals(a.profit + b.profit, a.fuelCost + b.fuelCost, a.onTime + b.onTime,
           a.late + b.late, a.dropped + b.dropped, a.hours + b.hours)
  }

  function Tally(es: seq<Entry>): Totals {
    if |es| == 0 then NoTotals else Plus(Contribution(es[0]), Tally(es[1..]))
  }

  /** The orders of a ledger, in ledger order. */
  function Orders(es: seq<Entry>): (os: seq<Order>)
    ensures |os| == |es|
  {
    if |es| == 0 then [] else [es[0].order] + Orders(es[1..])
  }

  /** An entry agrees with the rules for a driver whose fatigue flag is
      `fatigued`: dropped exactly when the route is unresolved, and otherwise
      delivered over the order's own route with the figures the rules give. */
  predicate Faithful(e: Entry, fatigued: bool) {
    match e
    case Dropped(o) => o.assignedRoute.None?
    case Delivered(o, r, d) => o.assignedRoute == Some(r) && d == Deliver(o, r, fatigued)
  }

  /** Every entry of the ledger agrees with the rules for the same driver. */
  predicate AllFaithful(es: seq<Entry>, fatigued: bool) {
    forall i :: 0 <= i < |es| ==> Faithful(es[i], fatigued)
  }

  /** Putting one entry in front of a ledger adds its contribution. */
  lemma TallyCons(e: Entry, es: seq<Entry>)
    ensures Tally([e] + es) == Plus(Contribution(e), Tally(es))
  {
    assert ([e] + es)[0] == e && ([e] + es)[1..] == es;
  }

  lemma OrdersCons(e: Entry, es: seq<Entry>)
    ensures Orders([e] + es) == [e.order] + Orders(es)
  {
    assert ([e] + es)[0] == e && ([e] + es)[1..] == es;
  }

  lemma FaithfulCons(e: Entry, es: seq<Entry>, fatigued: bool)
    requires Faithful(e, fatigued) && AllFaithful(es, fatigued)
    ensures AllFaithful([e] + es, fatigued)
  {
    assert forall i :: 1 <= i < |[e] + es| ==> ([e] + es)[i] == es[i - 1];
  }

  /** Tallying is additive over concatenation, so running sums kept in any
      split of the ledger agree with the sum over the whole. */
  lemma {:induction false} TallyConcat(a: seq<Entry>, b: seq<Entry>)
    ensures Tally(a + b) == Plus(Tally(a), Tally(b))
  {
    if |a| == 0 {
      assert a + b == b;
    } else {
      assert (a + b)[0] == a[0];
      assert (a + b)[1..] == a[1..] + b;
      TallyConcat(a[1..], b);
      PlusAssoc(Contribution(a[0]), Tally(a[1..]), Tally(b));
    }
  }

  lemma PlusAssoc(x: Totals, y: Totals, z: Totals)
    ensures Plus(x, Plus(y, z)) == Plus(Plus(x, y), z)
  {
  }

  /** Appending one entry adds exactly that entry's contribution. */
  lemma TallySnoc(es: seq<Entry>, e: Entry)
    ensures Tally(es + [e]) == Plus(Tally(es), Contribution(e))
  {
    TallyConcat(es, [e]);
    assert [e][1..] == [];
    assert Tally([e]) == Plus(Contribution(e), NoTotals);
  }

  /** Every entry is counted exactly once: on time, late or dropped. */
  lemma {:induction false} TallyCountsEntries(es: seq<Entry>)
    ensures Tally(es).onTime + Tally(es).late + Tally(es).dropped == |es|
  {
    if |es| > 0 {
      TallyCountsEntries(es[1..]);
    }
  }

  lemma {:induction false} OrdersConcat(a: seq<Entry>, b: seq<Entry>)
    ensures Orders(a + b) == Orders(a) + Orders(b)
  {
    if |a| == 0 {
      assert a + b == b;
    } else {
      assert (a + b)[1..] == a[1..] + b;
      OrdersConcat(a[1..], b);
    }
  }
}
