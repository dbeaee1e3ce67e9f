/**
 The order handler as an object over the shared store. `Read...` and `Write...` are the lock-bracketed blocks that
 the protocol interleaves; the operations run them one after the other.
 */
module Service {
  import opened Base
  import opened Uuids
  import opened OrderTypes
  import opened Inventory
  import opened Handler
  import Payment

  class OrderStore {
    var orders: Orders

    constructor ()
      ensures orders == map[]
    {
      orders := map[];
    }

    /** The write-locked block of create, pay and cancel: stores the whole record and nothing else. */
    method Put(id: Uuid, o: Order)
      modifies this
      ensures orders == old(orders)[id := o]
    {
      orders := orders[id := o];
    }
  }

  class OrderHandler {
    const store: OrderStore
    const inventory: InventoryServer
    const payment: Payment.PaymentServer

    constructor (store: OrderStore, inventory: InventoryServer, payment: Payment.PaymentServer)
      ensures this.store == store && this.inventory == inventory && this.payment == payment
    {
      this.store, this.inventory, this.payment := store, inventory, payment;
    }

    function Wiring(): Env {
      Env(inventory.text, inventory.parts)
    }

    // ---- Get ----

    method GetOrder(id: Uuid) returns (reply: Reply)
      ensures reply == HandleGet(store.orders, id)
    {
      if id !in store.orders {
        return OrderNotFound(Operation.GetOrder);
      }
      var order := store.orders[id];
      var shieldUUID, weaponUUID := OptNil(NIL, false, false), OptNil(NIL, false, false);
      var transactionUUID, paymentMethod := OptNil(NIL, false, false), OptNil(NO_METHOD, false, false);
      if order.shieldUUID.Some? {
        shieldUUID := NewOptNil(order.shieldUUID.value);
      }
      if order.weaponUUID.Some? {
        weaponUUID := NewOptNil(order.weaponUUID.value);
      }
      if order.transactionUUID.Some? {
        transactionUUID := NewOptNil(order.transactionUUID.value);
      }
      if order.paymentMethod.Some? {
        paymentMethod := NewOptNil(MethodOf(order.paymentMethod.value));
      }
      reply := Found(OrderDto(order.orderUUID, order.hullUUID, order.engineUUID, shieldUUID, weaponUUID,
                              order.totalPrice, transactionUUID, paymentMethod, order.status, order.createdAt));
    }

    // ---- Create ----

    function TextIfGiven(t: UuidText, v: OptNil<Uuid>): seq<string> {
      if v.isSet && !v.isNull then [t.format(v.value)] else []
    }

    /** The texts of the named parts: hull and engine, then those of the optional ones that are given. */
    method CollectUuids(req: CreateOrderRequest) returns (uuids: seq<string>)
      ensures uuids == [inventory.text.format(req.hullUUID), inventory.text.format(req.engineUUID)]
                       + TextIfGiven(inventory.text, req.shieldUUID) + TextIfGiven(inventory.text, req.weaponUUID)
      ensures uuids == Texts(inventory.text, Slots(req))
    {
      uuids := [inventory.text.format(req.hullUUID), inventory.text.format(req.engineUUID)];
      if req.shieldUUID.isSet && !req.shieldUUID.isNull {
        uuids := uuids + [inventory.text.format(req.shieldUUID.value)];
      }
      if req.weaponUUID.isSet && !req.weaponUUID.isNull {
        uuids := uuids + [inventory.text.format(req.weaponUUID.value)];
      }
    }

    /** Everything before the write: the call to the inventory, the stock checks and the price. */
    method ReadForCreate(req: CreateOrderRequest, reachable: bool) returns (r: Result<int64, Reply>)
      ensures r == StartCreate(Wiring(), req, reachable)
    {
      hide ListByUuids, Tally, PartsMap, Texts, Slots;
      var uuids := CollectUuids(req);
      if inventory.text.format(req.hullUUID) == "" || inventory.text.format(req.engineUUID) == "" {
        return Err(MissingPartUuid());
      }
      if !reachable {
        return Err(NoInventory());
      }
      AtLeastTwo(inventory.text, req);
      var resp := inventory.ListParts(PART_TYPE_UNSPECIFIED, uuids);
      if resp.Err? {
        return Err(NoInventory());
      }
      if |resp.value| != |uuids| {
        return Err(Shortage());
      }
      var partsMap := IndexParts(resp.value);
      var price := TotalPrice(partsMap, uuids);
      r := if price.None? then Err(Shortage()) else Ok(price.value);
    }

    method CreateOrder(req: CreateOrderRequest, reachable: bool, newId: Uuid, now: int) returns (reply: Reply)
      modifies store
      ensures (store.orders, reply) == HandleCreate(Wiring(), old(store.orders), req, reachable, newId, now)
    {
      hide StartCreate;
      var price := ReadForCreate(req, reachable);
      if price.Err? {
        return price.error;
      }
      var order := Order(newId, req.hullUUID, req.engineUUID, OptToPtr(req.shieldUUID), OptToPtr(req.weaponUUID),
                         price.value, None, None, PENDING_PAYMENT, now);
      store.Put(newId, order);
      reply := Created(newId, price.value);
    }

    // ---- Pay ----

    method ReadForPay(id: Uuid, pm: PaymentMethod) returns (s: Start)
      ensures s == StartPay(store.orders, id, pm)
    {
      if id !in store.orders {
        return Rejected(OrderNotFound(Operation.PayOrder));
      }
      var order := store.orders[id];
      if order.status != PENDING_PAYMENT {
        match order.status {
          case PAID =>
            return Rejected(Problem(Operation.PayOrder, Conflict, ErrorBody(409, "заказ уже оплачен или отменён")));
          case CANCELLED =>
            return Rejected(Problem(Operation.PayOrder, Conflict, ErrorBody(409, "заказ уже оплачен или отменён")));
          case _ =>
            return Rejected(Problem(Operation.PayOrder, Conflict, ErrorBody(404, "заказ не найден")));
        }
      }
      s := if ProtoOf(pm).None? then Rejected(Failed) else Ready(order);
    }

    /** The block after the payment call: overwrites the record with the paid snapshot. */
    method WritePaid(id: Uuid, snapshot: Order, proto: Payment.ProtoMethod, tx: Uuid)
      modifies store
      ensures store.orders == old(store.orders)[id := PaidOrder(snapshot, proto, tx)]
    {
      var order := snapshot.(status := PAID);
      order := order.(transactionUUID := Some(tx));
      order := order.(paymentMethod := Some(StoredMethod(proto)));
      store.Put(id, order);
    }

    method PayOrder(id: Uuid, pm: PaymentMethod, outcome: Outcome) returns (reply: Reply)
      requires Lawful(inventory.text) && payment.text == inventory.text
      modifies store, payment
      ensures (store.orders, reply) == HandlePay(Wiring(), old(store.orders), id, pm, outcome)
      ensures payment.issued ==
              old(payment.issued)
              + if StartPay(old(store.orders), id, pm).Ready? && Acted(outcome)
                then [Payment.Issuance(inventory.text.format(id), ProtoOf(pm).value, outcome.tx)] else []
    {
      hide StoredMethod;
      var s := ReadForPay(id, pm);
      if s.Rejected? {
        return s.reply;
      }
      var proto := ProtoOf(pm).value;
      ChargeIsAccepted(inventory.text, id, pm, if Acted(outcome) then outcome.tx else NIL);
      var resp := Ok("");
      if Acted(outcome) {
        resp := payment.PayOrder(inventory.text.format(id), proto, outcome.tx);
      }
      if !outcome.Answered? || resp.Err? {
        return PaymentError();
      }
      var tx := MustParse(inventory.text, resp.value);
      WritePaid(id, s.snapshot, proto, tx);
      reply := Paid(tx);
    }

    // ---- Cancel ----

    method ReadForCancel(id: Uuid) returns (s: Start)
      ensures s == StartCancel(store.orders, id)
    {
      if id !in store.orders {
        return Rejected(OrderNotFound(Operation.CancelOrder));
      }
      var order := store.orders[id];
      if order.status != PENDING_PAYMENT {
        match order.status {
          case PAID =>
            return Rejected(Problem(Operation.CancelOrder, Conflict,
                                    ErrorBody(409, "заказ уже оплачен и не может быть отменён")));
          case CANCELLED =>
            return Rejected(Problem(Operation.CancelOrder, Conflict, ErrorBody(409, "заказ уже отменен")));
          case _ =>
        }
      }
      s := Ready(order);
    }

    method CancelOrder(id: Uuid) returns (reply: Reply)
      modifies store
      ensures (store.orders, reply) == HandleCancel(old(store.orders), id)
    {
      var s := ReadForCancel(id);
      if s.Rejected? {
        return s.reply;
      }
      store.Put(id, s.snapshot.(status := CANCELLED));
      reply := Cancelled;
    }
  }

  lemma AtLeastTwo(t: UuidText, req: CreateOrderRequest)
    ensures Texts(t, Slots(req)) != []
  {
    assert |Slots(req)| >= 2;
  }

  /** Indexes an answer by UUID text; of several parts with one text the last stays. */
  method IndexParts(parts: seq<Part>) returns (partsMap: map<string, Part>)
    ensures partsMap == PartsMap(parts)
  {
    partsMap := map[];
    for i := 0 to |parts|
      invariant partsMap == PartsMap(parts[..i])
    {
      assert parts[..i + 1][..i] == parts[..i];
      partsMap := partsMap[parts[i].uuid := parts[i]];
    }
    assert parts[..|parts|] == parts;
  }

  /** Adds up the prices with machine addition, and gives up at the first id without a part or without stock. */
  method TotalPrice(partsMap: map<string, Part>, uuids: seq<string>) returns (price: Option<int64>)
    ensures price == Tally(partsMap, uuids)
  {
    var totalPrice: int64 := 0;
    for i := 0 to |uuids|
      invariant Tally(partsMap, uuids[..i]) == Some(totalPrice)
    {
      assert uuids[..i + 1][..i] == uuids[..i];
      if uuids[i] !in partsMap || partsMap[uuids[i]].stockQuantity <= 0 {
        TallyStops(partsMap, uuids, i + 1);
        return None;
      }
      totalPrice := AddInt64(totalPrice, partsMap[uuids[i]].price);
    }
    assert uuids[..|uuids|] == uuids;
    price := Some(totalPrice);
  }

  lemma {:induction false} TallyStops(partsMap: map<string, Part>, uuids: seq<string>, i: nat)
    requires i <= |uuids| && Tally(partsMap, uuids[..i]) == None
    ensures Tally(partsMap, uuids) == None
    decreases |uuids|
  {
    if i == |uuids| {
      assert uuids[..i] == uuids;
    } else {
      assert uuids[..|uuids| - 1][..i] == uuids[..i];
      TallyStops(partsMap, uuids[..|uuids| - 1], i);
    }
  }
}
