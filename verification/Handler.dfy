/**
 The order handler. Each operation is cut where it takes or releases the store's lock or calls a server: the
 `Start...` functions are what happens up to that point, the order-building functions are what is written
 afterwards. `Handle...` is a whole operation that nothing interleaves with, which is also one step of the
 atomic machine of module Refinement.
 */
module Handler {
  import opened Base
  import opened Uuids
  import opened OrderTypes
  import opened Inventory
  import Payment

  /** What the handler is wired to: the UUID library and the inventory server's catalogue. */
  datatype Env = Env(text: UuidText, parts: Catalogue)

  ghost predicate Sound(env: Env) {
    Lawful(env.text) && Keyed(env.text, env.parts)
  }

  function OrderNotFound(op: Operation): Reply {
    Problem(op, NotFoundKind, ErrorBody(404, "заказ не найден"))
  }

  // ---- Get ----

  function OptOf<T, U>(v: Option<T>, zero: U, f: T -> U): OptNil<U> {
    match v
    case None => OptNil(zero, false, false)
    case Some(x) => NewOptNil(f(x))
  }

  function DtoOf(o: Order): OrderDto {
    OrderDto(
      o.orderUUID, o.hullUUID, o.engineUUID,
      OptOf(o.shieldUUID, NIL, (u: Uuid) => u), OptOf(o.weaponUUID, NIL, (u: Uuid) => u),
      o.totalPrice,
      OptOf(o.transactionUUID, NIL, (u: Uuid) => u), OptOf(o.paymentMethod, NO_METHOD, MethodOf),
      o.status, o.createdAt)
  }

  function HandleGet(orders: Orders, id: Uuid): Reply {
    if id !in orders then OrderNotFound(GetOrder) else Found(DtoOf(orders[id]))
  }

  // ---- Create ----

  function OptToPtr(v: OptNil<Uuid>): Option<Uuid> {
    if v.isSet && !v.isNull then Some(v.value) else None
  }

  function OptSlot(v: Option<Uuid>): seq<Uuid> {
    match v case None => [] case Some(u) => [u]
  }

  /** The parts an order names: hull, engine, then shield and weapon where given. */
  function SlotsOf(hull: Uuid, engine: Uuid, shield: Option<Uuid>, weapon: Option<Uuid>): seq<Uuid> {
    [hull, engine] + OptSlot(shield) + OptSlot(weapon)
  }

  function Slots(req: CreateOrderRequest): seq<Uuid> {
    SlotsOf(req.hullUUID, req.engineUUID, OptToPtr(req.shieldUUID), OptToPtr(req.weaponUUID))
  }

  function Texts(t: UuidText, us: seq<Uuid>): (ss: seq<string>)
    ensures |ss| == |us| && forall i :: 0 <= i < |us| ==> ss[i] == t.format(us[i])
  {
    seq(|us|, i requires 0 <= i < |us| => t.format(us[i]))
  }

  function PartsMap(ps: seq<Part>): map<string, Part> {
    if ps == [] then map[] else PartsMap(ps[..|ps| - 1])[ps[|ps| - 1].uuid := ps[|ps| - 1]]
  }

  /** The price over all ids with machine addition, or none when an id has no part or no stock. */
  function Tally(found: map<string, Part>, ids: seq<string>): Option<int64> {
    if ids == [] then Some(0) else
      var id := ids[|ids| - 1];
      match Tally(found, ids[..|ids| - 1])
      case None => None
      case Some(price) =>
        if id !in found || found[id].stockQuantity <= 0 then None else Some(AddInt64(price, found[id].price))
  }

  function Shortage(): Reply {
    Problem(CreateOrder, Conflict, ErrorBody(409, "недостаточно деталей"))
  }

  function NoInventory(): Reply {
    Problem(CreateOrder, NotFoundKind, ErrorBody(404, "inventory сервис не доступен"))
  }

  function MissingPartUuid(): Reply {
    Problem(CreateOrder, BadRequest, ErrorBody(400, "в заказе нет hull_uuid или engine_uuid"))
  }

  /** The price of a request, or the reply that rejects it; `reachable` says whether the call went through. */
  function StartCreate(env: Env, req: CreateOrderRequest, reachable: bool): Result<int64, Reply> {
    var ids := Texts(env.text, Slots(req));
    if env.text.format(req.hullUUID) == "" || env.text.format(req.engineUUID) == "" then Err(MissingPartUuid())
    else if !reachable then Err(NoInventory()) else
      match ListByUuids(env.text, env.parts, ids)
      case Err(_) => Err(NoInventory())
      case Ok(found) =>
        if |found| != |ids| then Err(Shortage()) else
          match Tally(PartsMap(found), ids)
          case None => Err(Shortage())
          case Some(price) => Ok(price)
  }

  function NewOrder(req: CreateOrderRequest, price: int64, id: Uuid, now: int): Order {
    Order(id, req.hullUUID, req.engineUUID, OptToPtr(req.shieldUUID), OptToPtr(req.weaponUUID), price,
          None, None, PENDING_PAYMENT, now)
  }

  function HandleCreate(env: Env, orders: Orders, req: CreateOrderRequest, reachable: bool, newId: Uuid, now: int)
    : (Orders, Reply)
  {
    match StartCreate(env, req, reachable)
    case Err(reply) => (orders, reply)
    case Ok(price) => (orders[newId := NewOrder(req, price, newId, now)], Created(newId, price))
  }

  // ---- Pay ----

  datatype Start = Rejected(reply: Reply) | Ready(snapshot: Order)

  function ProtoOf(m: PaymentMethod): Option<Payment.ProtoMethod> {
    match m
    case CARD => Some(Payment.P_CARD)
    case SBP => Some(Payment.P_SBP)
    case CREDIT_CARD => Some(Payment.P_CREDIT_CARD)
    case INVESTOR_MONEY => Some(Payment.P_INVESTOR_MONEY)
    case OtherMethod(_) => None
  }

  /** The read-locked lookup and the checks before the payment call. */
  function StartPay(orders: Orders, id: Uuid, pm: PaymentMethod): Start {
    if id !in orders then Rejected(OrderNotFound(PayOrder)) else
      match orders[id].status
      case PAID => Rejected(Problem(PayOrder, Conflict, ErrorBody(409, "заказ уже оплачен или отменён")))
      case CANCELLED => Rejected(Problem(PayOrder, Conflict, ErrorBody(409, "заказ уже оплачен или отменён")))
      case OtherStatus(_) => Rejected(Problem(PayOrder, Conflict, ErrorBody(404, "заказ не найден")))
      case PENDING_PAYMENT => if ProtoOf(pm).None? then Rejected(Failed) else Ready(orders[id])
  }

  function PaymentError(): Reply {
    Problem(PayOrder, InternalServerError, ErrorBody(500, "ошибка оплаты"))
  }

  function MustParse(t: UuidText, s: string): Uuid
    requires t.parse(s).Some?  // the library panics otherwise
  {
    t.parse(s).value
  }

  /** What the handler asks the payment server for. */
  datatype Bill = Bill(orderUuid: string, pm: Payment.ProtoMethod)

  function BillFor(t: UuidText, id: Uuid, pm: Payment.ProtoMethod): Bill {
    Bill(t.format(id), pm)
  }

  /** The order that a server reads from a bill. */
  function BilledOrder(t: UuidText, bill: Bill): Uuid {
    if t.parse(bill.orderUuid).Some? then t.parse(bill.orderUuid).value else NIL
  }

  /** The payment call as the handler sees it when it is answered; the handler trusts the answer to parse. */
  function Charge(t: UuidText, id: Uuid, pm: Payment.ProtoMethod, newId: Uuid): Result<Uuid, RpcError>
    requires Lawful(t)
  {
    match Payment.Issue(t, BillFor(t, id, pm).orderUuid, BillFor(t, id, pm).pm, newId)
    case Err(e) => Err(e)
    case Ok(text) => Ok(MustParse(t, text))
  }

  /** Every charge the handler makes is accepted, and the transaction read back is the one issued. */
  lemma ChargeIsAccepted(t: UuidText, id: Uuid, pm: PaymentMethod, newId: Uuid)
    requires Lawful(t) && ProtoOf(pm).Some?
    ensures Charge(t, id, ProtoOf(pm).value, newId) == Ok(newId)
    ensures BilledOrder(t, BillFor(t, id, ProtoOf(pm).value)) == id
  {
    assert t.parse(t.format(id)) == Some(id) && t.parse(t.format(newId)) == Some(newId);
  }

  function TrimPrefix(s: string, prefix: string): string {
    if prefix <= s then s[|prefix|..] else s
  }

  function StoredMethod(m: Payment.ProtoMethod): string {
    TrimPrefix(Payment.ProtoName(m), "PAYMENT_METHOD_")
  }

  /** A method survives the trip through the payment enum, its name and the trimmed name. */
  lemma StoredMethodIsTheRequested(m: PaymentMethod)
    requires ProtoOf(m).Some?
    ensures StoredMethod(ProtoOf(m).value) == MethodText(m) && MethodOf(StoredMethod(ProtoOf(m).value)) == m
  {
    assert "PAYMENT_METHOD_CARD"[15..] == "CARD";
    assert "PAYMENT_METHOD_SBP"[15..] == "SBP";
    assert "PAYMENT_METHOD_CREDIT_CARD"[15..] == "CREDIT_CARD";
    assert "PAYMENT_METHOD_INVESTOR_MONEY"[15..] == "INVESTOR_MONEY";
    MethodTextRoundTrip(m);
  }

  lemma SpecifiedMethodIsKnown(m: Payment.ProtoMethod)
    requires m != Payment.UNSPECIFIED
    ensures !MethodOf(StoredMethod(m)).OtherMethod? && ProtoOf(MethodOf(StoredMethod(m))) == Some(m)
  {
    var pm := match m case P_CARD => CARD case P_SBP => SBP case P_CREDIT_CARD => CREDIT_CARD case _ => INVESTOR_MONEY;
    StoredMethodIsTheRequested(pm);
  }

  function PaidOrder(snapshot: Order, pm: Payment.ProtoMethod, tx: Uuid): Order {
    snapshot.(status := PAID, transactionUUID := Some(tx), paymentMethod := Some(StoredMethod(pm)))
  }

  /**
   How a payment call ends for the handler: answered, failed for good, acted on with the answer lost, or given up while
   the server may still act.
   */
  datatype Outcome = Answered(tx: Uuid) | Refused | ReplyLost(tx: Uuid) | TimedOut

  /** The server acts before the handler goes on. */
  predicate Acted(outcome: Outcome) {
    outcome.Answered? || outcome.ReplyLost?
  }

  function HandlePay(env: Env, orders: Orders, id: Uuid, pm: PaymentMethod, outcome: Outcome): (Orders, Reply)
    requires Lawful(env.text)
  {
    match StartPay(orders, id, pm)
    case Rejected(reply) => (orders, reply)
    case Ready(snapshot) =>
      var proto := ProtoOf(pm).value;
      if !outcome.Answered? then (orders, PaymentError()) else
        match Charge(env.text, id, proto, outcome.tx)
        case Err(_) => (orders, PaymentError())
        case Ok(tx) => (orders[id := PaidOrder(snapshot, proto, tx)], Paid(tx))
  }

  // ---- Cancel ----

  /** The checks of cancel; a status other than the three falls through them. */
  function StartCancel(orders: Orders, id: Uuid): Start {
    if id !in orders then Rejected(OrderNotFound(CancelOrder)) else
      match orders[id].status
      case PAID =>
        Rejected(Problem(CancelOrder, Conflict, ErrorBody(409, "заказ уже оплачен и не может быть отменён")))
      case CANCELLED => Rejected(Problem(CancelOrder, Conflict, ErrorBody(409, "заказ уже отменен")))
      case _ => Ready(orders[id])
  }

  function CancelledOrder(snapshot: Order): Order {
    snapshot.(status := CANCELLED)
  }

  function HandleCancel(orders: Orders, id: Uuid): (Orders, Reply) {
    match StartCancel(orders, id)
    case Rejected(reply) => (orders, reply)
    case Ready(snapshot) => (orders[id := CancelledOrder(snapshot)], Cancelled)
  }
}
