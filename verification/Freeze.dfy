/**
 How final a paid or cancelled order is. A snapshot read while the order was pending can still overwrite it, so the
 record may change as often as such snapshots are in flight, and not once more.
 */
module Freeze {
  import opened Base
  import opened Uuids
  import opened OrderTypes
  import opened Inventory
  import opened Handler
  import opened Protocol
  import opened Invariant
  import opened Steps

  /** The calls that hold a snapshot of the order. */
  function InFlight(s: System, id: Uuid): set<CallId> {
    set c | c in s.calls && Holds(s.calls[c]) == Some(id)
  }

  predicate Terminal(s: System, id: Uuid) {
    id in s.orders && s.orders[id].status != PENDING_PAYMENT
  }

  /** How many of the steps from i to k change the record of an order. */
  ghost function Changes(ss: seq<System>, id: Uuid, i: nat, k: nat): nat
    requires i <= k < |ss|
    decreases k
  {
    if i == k then 0 else
      Changes(ss, id, i, k - 1)
      + if id in ss[k - 1].orders && id in ss[k].orders && ss[k - 1].orders[id] == ss[k].orders[id] then 0 else 1
  }

  /** A step finds no new holder for a terminal order, and only a holder's step can change its record. */
  lemma TerminalStep(env: Env, s: System, e: Event, id: Uuid)
    requires Sound(env) && Inv(env, s) && Enabled(s, e) && Terminal(s, id)
    ensures var t := Step(env, s, e);
      && Terminal(t, id) && InFlight(t, id) <= InFlight(s, id)
      && (t.orders[id] != s.orders[id] ==> e.c in InFlight(s, id) && e.c !in InFlight(t, id))
  {
    hide Step, Enabled, Inv, NewOrder, PaidOrder, CancelledOrder, Keeps, Lawful, Keyed;
    StepKeepsInv(env, s, e);
    KeepsTerminal(s.orders, Step(env, s, e).orders, id);
    StoredIsOk(env, s, id);
    if IsBegin(e) {
      BeginStep(env, s, e);
    } else if IsCharge(e) {
      ChargeStep(env, s, e);
    } else {
      StoreStep(env, s, e);
      NewIdsAreDrawn(env, s);
    }
  }

  lemma KeepsTerminal(a: Orders, b: Orders, id: Uuid)
    requires Keeps(a, b) && id in a && a[id].status != PENDING_PAYMENT
    ensures id in b && b[id].status != PENDING_PAYMENT
  {}

  /** Once an order is paid or cancelled, its record changes at most once for each snapshot still in flight. */
  lemma {:induction false} RewritesAreBounded(env: Env, ss: seq<System>, es: seq<Event>, i: nat, k: nat, id: Uuid)
    requires IsRun(env, ss, es) && i <= k <= |es| && Terminal(ss[i], id)
    ensures Terminal(ss[k], id)
    ensures Changes(ss, id, i, k) + |InFlight(ss[k], id)| <= |InFlight(ss[i], id)|
    ensures InFlight(ss[k], id) <= InFlight(ss[i], id)
    decreases k
  {
    hide Step, Inv, Enabled, Keyed, InFlight, Terminal;
    if i < k {
      RewritesAreBounded(env, ss, es, i, k - 1, id);
      ReachableIsOk(env, ss, es, k - 1);
      assert StepAt(env, ss, es, k - 1);
      TerminalStep(env, ss[k - 1], es[k - 1], id);
      SubsetSize(InFlight(ss[k], id), InFlight(ss[k - 1], id));
      SameInBoth(ss[k - 1], ss[k], id);
    }
  }

  lemma SameInBoth(s: System, t: System, id: Uuid)
    requires Terminal(s, id) && Terminal(t, id)
    ensures id in s.orders && id in t.orders
  {}

  lemma {:induction false} SubsetSize<T>(a: set<T>, b: set<T>)
    requires a <= b
    ensures |a| <= |b| && (|a| == |b| ==> a == b)
  {
    if x :| x in b && x !in a {
      assert a <= b - {x};
      SubsetSize(a, b - {x});
    } else {
      assert a == b;
    }
  }

  /** With no snapshot in flight, a paid or cancelled order never changes again. */
  lemma {:induction false} NothingInFlightFreezes(env: Env, ss: seq<System>, es: seq<Event>, i: nat, k: nat, id: Uuid)
    requires IsRun(env, ss, es) && i <= k <= |es| && Terminal(ss[i], id) && InFlight(ss[i], id) == {}
    ensures id in ss[k].orders && ss[k].orders[id] == ss[i].orders[id]
    decreases k
  {
    hide Step, Inv, Enabled, Keyed, InFlight;
    if i < k {
      NothingInFlightFreezes(env, ss, es, i, k - 1, id);
      RewritesAreBounded(env, ss, es, i, k - 1, id);
      ReachableIsOk(env, ss, es, k - 1);
      assert StepAt(env, ss, es, k - 1);
      TerminalStep(env, ss[k - 1], es[k - 1], id);
    }
  }
}
