/** Where orders come from: each stored order belongs to one accepted request, and stays what that request asked for. */
module Lifecycle {
  import opened Base
  import opened Uuids
  import opened OrderTypes
  import opened Inventory
  import opened Handler
  import opened Protocol
  import opened Invariant
  import opened Steps
  import opened Refinement

  /** The calls that were told that their order was created. */
  function Creators(s: System): set<CallId> {
    set c | c in s.calls && s.calls[c].Done? && s.calls[c].reply.Created?
  }

  // ---- Single steps ----

  /** A call that is about to store its order has just begun, or was about to before. */
  lemma CreatingStep(env: Env, s: System, e: Event, c: CallId)
    requires Sound(env) && Enabled(s, e)
    requires c in Step(env, s, e).calls && Step(env, s, e).calls[c].Creating?
    ensures var call := Step(env, s, e).calls[c];
      if e.c == c then e == CreateBegin(c, call.req, true, call.order.orderUUID, call.order.createdAt)
      else c in s.calls && s.calls[c] == call
  {
    hide Step, Enabled, Lawful, Keyed;
    if IsBegin(e) {
      BeginStep(env, s, e);
    } else if IsCharge(e) {
      ChargeStep(env, s, e);
    } else {
      StoreStep(env, s, e);
    }
  }

  /** A step stores a new order and reports it as created, or does neither. */
  lemma CreatorStep(env: Env, s: System, e: Event)
    requires Sound(env) && Inv(env, s) && Enabled(s, e)
    ensures var t := Step(env, s, e);
      if e.CreateCommit? then
        var o := s.calls[e.c].order;
        && o.orderUUID !in s.orders && t.orders == s.orders[o.orderUUID := o]
        && Creators(t) == Creators(s) + {e.c} && e.c !in Creators(s)
        && t.calls[e.c] == Done(Created(o.orderUUID, o.totalPrice))
      else t.orders.Keys == s.orders.Keys && Creators(t) == Creators(s)
  {
    hide Step, Enabled, Inv, Lawful, Keyed, PaidOrder, CancelledOrder;
    if IsBegin(e) {
      BeginStep(env, s, e);
    } else if IsCharge(e) {
      ChargeStep(env, s, e);
    } else {
      StoreStep(env, s, e);
      if e.CreateCommit? { CreatingIsNew(env, s, e.c); } else { HeldIsStored(env, s, e.c); }
    }
  }

  lemma CreatingIsNew(env: Env, s: System, c: CallId)
    requires Inv(env, s) && c in s.calls && s.calls[c].Creating?
    ensures s.calls[c].order.orderUUID !in s.orders
  {
    hide StoreOk, EntryOk, NewIdsDiffer, RecordOk, StartCreate;
    assert CallOk(env, s, c);
  }

  // ---- Runs ----

  lemma {:induction false} CreatingWasBegun(env: Env, ss: seq<System>, es: seq<Event>, k: nat, c: CallId) returns (b: nat)
    requires IsRun(env, ss, es) && k <= |es| && c in ss[k].calls && ss[k].calls[c].Creating?
    ensures var call := ss[k].calls[c];
      b < k && es[b] == CreateBegin(c, call.req, true, call.order.orderUUID, call.order.createdAt)
  {
    hide Step, Keyed, Enabled;
    assert k > 0 && StepAt(env, ss, es, k - 1);
    CreatingStep(env, ss[k - 1], es[k - 1], c);
    if es[k - 1].c == c {
      b := k - 1;
    } else {
      b := CreatingWasBegun(env, ss, es, k - 1, c);
    }
  }

  lemma NothingCreated()
    ensures Creators(Init()) == {} && Init().orders.Keys == {}
  {}

  /** In every reachable state there are as many orders as calls that were told of a creation. */
  lemma {:induction false} OrdersAreConserved(env: Env, ss: seq<System>, es: seq<Event>, k: nat)
    requires IsRun(env, ss, es) && k <= |es|
    ensures |ss[k].orders.Keys| == |Creators(ss[k])|
  {
    hide Step, Inv, Enabled, Keyed, Creators;
    if k == 0 {
      NothingCreated();
    } else {
      OrdersAreConserved(env, ss, es, k - 1);
      ReachableIsOk(env, ss, es, k - 1);
      assert StepAt(env, ss, es, k - 1);
      CreatorStep(env, ss[k - 1], es[k - 1]);
      if es[k - 1].CreateCommit? {
        CreatingStored(env, ss[k - 1], es[k - 1]);
        var id := ss[k - 1].calls[es[k - 1].c].order.orderUUID;
        assert ss[k].orders.Keys == ss[k - 1].orders.Keys + {id};
      }
    }
  }

  /**
   Every order in a reachable state goes back to the beginning of a create: the UUID is the one drawn there, the parts
   and the time are those of that request, the price is the one at which it was accepted, and its caller was told so.
   */
  lemma {:induction false} OrdersComeFromRequests(env: Env, ss: seq<System>, es: seq<Event>, k: nat, id: Uuid)
    returns (b: nat)
    requires IsRun(env, ss, es) && k <= |es| && id in ss[k].orders
    ensures b < k && es[b].CreateBegin? && es[b].newId == id
    ensures var o := ss[k].orders[id]; var e := es[b];
      && StartCreate(env, e.req, true) == Ok(o.totalPrice)
      && SameOrder(NewOrder(e.req, o.totalPrice, id, e.now), o)
      && e.c in ss[k].calls && ss[k].calls[e.c] == Done(Created(id, o.totalPrice))
  {
    hide Step, Inv, Enabled, Keyed, StartCreate, NewOrder, SameOrder, Keeps;
    assert k > 0 && StepAt(env, ss, es, k - 1);
    ReachableIsOk(env, ss, es, k - 1);
    CreatorStep(env, ss[k - 1], es[k - 1]);
    if id in ss[k - 1].orders {
      b := OrdersComeFromRequests(env, ss, es, k - 1, id);
      StepKeepsInv(env, ss[k - 1], es[k - 1]);
      KeptOrder(ss[k - 1].orders, ss[k].orders, id, NewOrder(es[b].req, ss[k - 1].orders[id].totalPrice, id, es[b].now));
      SettledStays(env, ss[k - 1], es[k - 1], es[b].c);
    } else {
      var c := es[k - 1].c;
      CreatingStored(env, ss[k - 1], es[k - 1]);
      CreatingIsAccepted(env, ss[k - 1], c);
      b := CreatingWasBegun(env, ss, es, k - 1, c);
      IsSameOrder(ss[k].orders[id]);
    }
  }

  lemma CreatingStored(env: Env, s: System, e: Event)
    requires Enabled(s, e) && e.CreateCommit?
    ensures e.c in s.calls && s.calls[e.c].Creating?
  {}

  lemma IsSameOrder(o: Order)
    ensures SameOrder(o, o)
  {}

  lemma KeptOrder(before: Orders, after: Orders, id: Uuid, first: Order)
    requires Keeps(before, after) && id in before && SameOrder(first, before[id])
    ensures id in after && SameOrder(first, after[id]) && after[id].totalPrice == before[id].totalPrice
  {}

  /** From its creation on, and whatever is paid or cancelled meanwhile, a get reports the order as it was asked for. */
  lemma ReportsAreWhatWasAsked(env: Env, ss: seq<System>, es: seq<Event>, k: nat, id: Uuid) returns (b: nat)
    requires IsRun(env, ss, es) && k <= |es| && HandleGet(ss[k].orders, id).Found?
    ensures b < k && es[b].CreateBegin? && es[b].newId == id
    ensures var dto := HandleGet(ss[k].orders, id).dto; var e := es[b];
      && dto.orderUUID == id && dto.createdAt == e.now
      && dto.hullUUID == e.req.hullUUID && dto.engineUUID == e.req.engineUUID
      && dto.shieldUUID.Get() == e.req.shieldUUID.Get() && dto.weaponUUID.Get() == e.req.weaponUUID.Get()
      && e.c in ss[k].calls && ReplyOf(ss[k].calls[e.c]) == Some(Created(id, dto.totalPrice))
  {
    hide Step, Inv, Enabled, Keyed, StartCreate, IsRun;
    b := OrdersComeFromRequests(env, ss, es, k, id);
  }

  /** An order is known if and only if some call was told that it was created. */
  lemma {:induction false} KnownExactlyWhenCreated(env: Env, ss: seq<System>, es: seq<Event>, k: nat, id: Uuid)
    requires IsRun(env, ss, es) && k <= |es|
    ensures id in ss[k].orders <==>
            exists c :: c in ss[k].calls && ss[k].calls[c].Done? && ss[k].calls[c].reply.Created?
                     && ss[k].calls[c].reply.orderUUID == id
  {
    hide Step, Inv, Enabled, Keyed, StartCreate, NewOrder, SameOrder;
    if id in ss[k].orders {
      var b := OrdersComeFromRequests(env, ss, es, k, id);
    }
    if c :| c in ss[k].calls && ss[k].calls[c].Done? && ss[k].calls[c].reply.Created? && ss[k].calls[c].reply.orderUUID == id {
      CreatedIsStored(env, ss, es, k, c);
    }
  }

  lemma {:induction false} CreatedIsStored(env: Env, ss: seq<System>, es: seq<Event>, k: nat, c: CallId)
    requires IsRun(env, ss, es) && k <= |es|
    requires c in ss[k].calls && ss[k].calls[c].Done? && ss[k].calls[c].reply.Created?
    ensures ss[k].calls[c].reply.orderUUID in ss[k].orders
  {
    hide Step, Inv, Enabled, Keyed;
    assert k > 0 && StepAt(env, ss, es, k - 1);
    ReachableIsOk(env, ss, es, k - 1);
    CreatorStep(env, ss[k - 1], es[k - 1]);
    if c in Creators(ss[k - 1]) {
      SettledStays(env, ss[k - 1], es[k - 1], c);
      CreatedIsStored(env, ss, es, k - 1, c);
    }
  }
}
