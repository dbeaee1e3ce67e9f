/**
 The order service as interleaved steps. Every lock-bracketed block and every remote call is one atomic step;
 between its steps a call holds only what its goroutine holds: the snapshot it read, the order it is about to
 store, the transaction it was given. Any number of calls is in flight, on the same or on different orders.
 A timeout or transport error of a call is a choice of the event; wall-clock time and drawn UUIDs are parameters.
 */
module Protocol {
  import opened Base
  import opened Uuids
  import opened OrderTypes
  import opened Inventory
  import opened Handler
  import Payment

  type CallId = nat

  datatype Call =
    | Creating(req: CreateOrderRequest, order: Order)                    // before the write
    | Paying(id: Uuid, pm: PaymentMethod, proto: Payment.ProtoMethod, snapshot: Order)  // before the payment call
    | Charged(id: Uuid, pm: PaymentMethod, proto: Payment.ProtoMethod, snapshot: Order, tx: Uuid)  // before the write
    | Cancelling(id: Uuid, snapshot: Order)                              // before the write
    | Done(reply: Reply)
    | PayDone(id: Uuid, tx: Uuid)
    | PayLost(id: Uuid, tx: Uuid)                                        // charged, but the answer was lost
    | PayAbandoned(id: Uuid, pm: PaymentMethod, proto: Payment.ProtoMethod)  // answered, the server may still act

  /** One transaction the payment server issued: for which order, how, and on behalf of which call. */
  datatype Entry = Entry(order: Uuid, pm: Payment.ProtoMethod, call: CallId)

  datatype System = System(
    orders: Orders, calls: map<CallId, Call>,
    drawn: set<Uuid>,           // every UUID drawn so far, for orders and transactions alike
    ledger: map<Uuid, Entry>)   // the transactions issued so far

  datatype Event =
    | CreateBegin(c: CallId, req: CreateOrderRequest, reachable: bool, newId: Uuid, now: int)
    | CreateCommit(c: CallId)
    | PayBegin(c: CallId, id: Uuid, pm: PaymentMethod)
    | PayCharge(c: CallId, outcome: Outcome)
    | PayActsLate(c: CallId, tx: Uuid)
    | PayCommit(c: CallId, id: Uuid)
    | CancelBegin(c: CallId, id: Uuid)
    | CancelCommit(c: CallId, id: Uuid)
    | GetCall(c: CallId, id: Uuid)

  function Init(): System {
    System(map[], map[], {}, map[])
  }

  predicate Enabled(s: System, e: Event) {
    match e
    case CreateBegin(c, _, _, newId, _) => c !in s.calls && newId !in s.drawn
    case CreateCommit(c) => c in s.calls && s.calls[c].Creating?
    case PayBegin(c, _, _) => c !in s.calls
    case PayCharge(c, outcome) => c in s.calls && s.calls[c].Paying? && (Acted(outcome) ==> outcome.tx !in s.drawn)
    case PayActsLate(c, tx) => c in s.calls && s.calls[c].PayAbandoned? && tx !in s.drawn
    case PayCommit(c, id) => c in s.calls && s.calls[c].Charged? && s.calls[c].id == id
    case CancelBegin(c, _) => c !in s.calls
    case CancelCommit(c, id) => c in s.calls && s.calls[c].Cancelling? && s.calls[c].id == id
    case GetCall(c, _) => c !in s.calls
  }

  function Step(env: Env, s: System, e: Event): System
    requires Lawful(env.text) && Enabled(s, e)
  {
    match e
    case CreateBegin(c, req, reachable, newId, now) => BeginCreate(env, s, c, req, reachable, newId, now)
    case CreateCommit(c) => CommitCreate(s, c)
    case PayBegin(c, id, pm) => Moved(s, c, PayEntry(s.orders, id, pm), {})
    case PayCharge(c, outcome) => ChargePay(env, s, c, outcome)
    case PayActsLate(c, tx) => ActLate(env, s, c, tx)
    case PayCommit(c, id) => CommitPay(s, c)
    case CancelBegin(c, id) => Moved(s, c, CancelEntry(s.orders, id), {})
    case CancelCommit(c, id) => CommitCancel(s, c)
    case GetCall(c, id) => Moved(s, c, Done(HandleGet(s.orders, id)), {})
  }

  /** A step that touches the moving call only, apart from the UUIDs it draws. */
  function Moved(s: System, c: CallId, next: Call, newly: set<Uuid>): System {
    s.(calls := s.calls[c := next], drawn := s.drawn + newly)
  }

  function BeginCreate(env: Env, s: System, c: CallId, req: CreateOrderRequest, reachable: bool, newId: Uuid, now: int)
    : System
  {
    match StartCreate(env, req, reachable)
    case Err(reply) => Moved(s, c, Done(reply), {})
    case Ok(price) => Moved(s, c, Creating(req, NewOrder(req, price, newId, now)), {newId})
  }

  /** The write-locked block: the whole record is stored, whatever is stored now. */
  function Written(s: System, c: CallId, id: Uuid, o: Order, next: Call): System {
    s.(orders := s.orders[id := o], calls := s.calls[c := next])
  }

  function CommitCreate(s: System, c: CallId): System
    requires c in s.calls && s.calls[c].Creating?
  {
    var o := s.calls[c].order;
    Written(s, c, o.orderUUID, o, Done(Created(o.orderUUID, o.totalPrice)))
  }

  function PayEntry(orders: Orders, id: Uuid, pm: PaymentMethod): Call {
    match StartPay(orders, id, pm)
    case Rejected(reply) => Done(reply)
    case Ready(snapshot) => Paying(id, pm, ProtoOf(pm).value, snapshot)
  }

  function CancelEntry(orders: Orders, id: Uuid): Call {
    match StartCancel(orders, id)
    case Rejected(reply) => Done(reply)
    case Ready(snapshot) => Cancelling(id, snapshot)
  }

  function Issued(s: System, c: CallId, tx: Uuid, entry: Entry, next: Call): System {
    s.(calls := s.calls[c := next], drawn := s.drawn + {tx}, ledger := s.ledger[tx := entry])
  }

  /** What the server notes about a transaction: the order and method of the bill that it read. */
  function EntryFor(env: Env, bill: Bill, c: CallId): Entry {
    Entry(BilledOrder(env.text, bill), bill.pm, c)
  }

  /** The payment call; the transaction is issued now, later, or not at all. */
  function ChargePay(env: Env, s: System, c: CallId, outcome: Outcome): System
    requires Lawful(env.text) && c in s.calls && s.calls[c].Paying?
  {
    var call := s.calls[c];
    var failed := Moved(s, c, Done(PaymentError()), {});
    if outcome.Refused? then failed
    else if outcome.TimedOut? then Moved(s, c, PayAbandoned(call.id, call.pm, call.proto), {}) else
      match Charge(env.text, call.id, call.proto, outcome.tx)
      case Err(_) => failed
      case Ok(tx) => Issued(s, c, tx, EntryFor(env, BillFor(env.text, call.id, call.proto), c), AfterCharge(call, outcome.Answered?, tx))
  }

  function AfterCharge(call: Call, answered: bool, tx: Uuid): Call
    requires call.Paying?
  {
    if answered then Charged(call.id, call.pm, call.proto, call.snapshot, tx) else PayLost(call.id, tx)
  }

  /** The server acts on a payment call that the handler has given up. */
  function ActLate(env: Env, s: System, c: CallId, tx: Uuid): System
    requires Lawful(env.text) && c in s.calls && s.calls[c].PayAbandoned?
  {
    var call := s.calls[c];
    match Charge(env.text, call.id, call.proto, tx)
    case Err(_) => s
    case Ok(tx) => Issued(s, c, tx, EntryFor(env, BillFor(env.text, call.id, call.proto), c), PayLost(call.id, tx))
  }

  function CommitPay(s: System, c: CallId): System
    requires c in s.calls && s.calls[c].Charged?
  {
    var call := s.calls[c];
    Written(s, c, call.id, PaidOrder(call.snapshot, call.proto, call.tx), PayDone(call.id, call.tx))
  }

  function CommitCancel(s: System, c: CallId): System
    requires c in s.calls && s.calls[c].Cancelling?
  {
    var call := s.calls[c];
    Written(s, c, call.id, CancelledOrder(call.snapshot), Done(Cancelled))
  }

  function ReplyOf(call: Call): Option<Reply> {
    match call
    case Done(reply) => Some(reply)
    case PayDone(_, tx) => Some(Paid(tx))
    case PayLost(_, _) => Some(PaymentError())
    case PayAbandoned(_, _, _) => Some(PaymentError())
    case _ => None
  }

  /** The order on which a call in flight holds a snapshot. */
  function Holds(call: Call): Option<Uuid> {
    if call.Paying? || call.Charged? || call.Cancelling? then Some(call.id) else None
  }

  /** The transaction that was issued on behalf of a call. */
  function IssuedTo(call: Call): Option<Uuid> {
    if call.Charged? || call.PayDone? || call.PayLost? then Some(call.tx) else None
  }

  // ---- Runs ----

  ghost predicate StepAt(env: Env, ss: seq<System>, es: seq<Event>, i: nat)
    requires Lawful(env.text)
  {
    i < |es| && i + 1 < |ss| && Enabled(ss[i], es[i]) && ss[i + 1] == Step(env, ss[i], es[i])
  }

  /** `ss` are the states that the events `es` lead through, from the empty store on. */
  ghost predicate IsRun(env: Env, ss: seq<System>, es: seq<Event>) {
    && Sound(env)
    && |ss| == |es| + 1 && ss[0] == Init()
    && forall i: nat :: i < |es| ==> StepAt(env, ss, es, i)
  }

  // ---- What every interleaving keeps ----

  function OrderSlots(o: Order): seq<Uuid> {
    SlotsOf(o.hullUUID, o.engineUUID, o.shieldUUID, o.weaponUUID)
  }

  function Prices(parts: Catalogue, us: seq<Uuid>): (ps: seq<int>)
    requires forall i :: 0 <= i < |us| ==> us[i] in parts
    ensures |ps| == |us| && forall i :: 0 <= i < |us| ==> ps[i] == parts[us[i]].price as int
  {
    seq(|us|, i requires 0 <= i < |us| => parts[us[i]].price as int)
  }

  ghost predicate InStock(parts: Catalogue, us: seq<Uuid>) {
    forall i :: 0 <= i < |us| ==> us[i] in parts && parts[us[i]].stockQuantity > 0
  }

  /** All slots were in stock, and the stored price is the sum of their prices, once per slot. */
  ghost predicate Priced(parts: Catalogue, us: seq<Uuid>, price: int64) {
    InStock(parts, us) && price == Wrap(Sum(Prices(parts, us)))
  }

  ghost predicate RecordOk(env: Env, id: Uuid, o: Order) {
    && o.orderUUID == id
    && !o.status.OtherStatus?
    && (o.status == PAID <==> o.transactionUUID.Some?)
    && (o.status == PAID <==> o.paymentMethod.Some?)
    && Priced(env.parts, OrderSlots(o), o.totalPrice)
  }

  /** A paid record's transaction was issued for that order, by the stored method. */
  ghost predicate Backed(s: System, o: Order) {
    o.transactionUUID.Some? ==>
      && o.transactionUUID.value in s.ledger
      && var entry := s.ledger[o.transactionUUID.value];
         entry.order == o.orderUUID && entry.pm != Payment.UNSPECIFIED
         && o.paymentMethod == Some(StoredMethod(entry.pm))
  }

  /** Everything that is settled when an order is created. */
  predicate SameOrder(a: Order, b: Order) {
    a.(status := b.status, transactionUUID := b.transactionUUID, paymentMethod := b.paymentMethod) == b
  }

  ghost predicate SnapshotOk(env: Env, s: System, id: Uuid, snapshot: Order) {
    && id in s.orders
    && RecordOk(env, id, snapshot) && snapshot.status == PENDING_PAYMENT
    && SameOrder(snapshot, s.orders[id])
  }

  ghost predicate CallOk(env: Env, s: System, c: CallId)
    requires c in s.calls
  {
    match s.calls[c]
    case Creating(req, o) =>
      && o.orderUUID in s.drawn && o.orderUUID !in s.orders
      && StartCreate(env, req, true) == Ok(o.totalPrice)
      && o == NewOrder(req, o.totalPrice, o.orderUUID, o.createdAt)
      && RecordOk(env, o.orderUUID, o)
    case Paying(id, pm, proto, snapshot) => ProtoOf(pm) == Some(proto) && SnapshotOk(env, s, id, snapshot)
    case Charged(id, pm, proto, snapshot, tx) =>
      && ProtoOf(pm) == Some(proto) && SnapshotOk(env, s, id, snapshot)
      && tx in s.ledger && s.ledger[tx] == Entry(id, proto, c)
    case Cancelling(id, snapshot) => SnapshotOk(env, s, id, snapshot)
    case Done(reply) => Coherent(reply) && (reply.Found? ==> ValidDto(reply.dto))
    case PayDone(id, tx) => id in s.orders && tx in s.ledger && s.ledger[tx].order == id && s.ledger[tx].call == c
    case PayLost(id, tx) => id in s.orders && tx in s.ledger && s.ledger[tx].order == id && s.ledger[tx].call == c
    case PayAbandoned(id, pm, proto) => ProtoOf(pm) == Some(proto) && id in s.orders
  }

  ghost predicate EntryOk(s: System, tx: Uuid)
    requires tx in s.ledger
  {
    && tx in s.drawn
    && s.ledger[tx].order in s.orders
    && s.ledger[tx].call in s.calls && IssuedTo(s.calls[s.ledger[tx].call]) == Some(tx)
  }

  ghost predicate StoreOk(env: Env, s: System) {
    forall id :: id in s.orders ==> id in s.drawn && RecordOk(env, id, s.orders[id]) && Backed(s, s.orders[id])
  }

  ghost predicate NewIdsDiffer(s: System) {
    forall c, d :: c in s.calls && d in s.calls && c != d && s.calls[c].Creating? && s.calls[d].Creating? ==>
                   s.calls[c].order.orderUUID != s.calls[d].order.orderUUID
  }

  ghost predicate Inv(env: Env, s: System) {
    && StoreOk(env, s)
    && (forall c :: c in s.calls ==> CallOk(env, s, c))
    && (forall tx :: tx in s.ledger ==> EntryOk(s, tx))
    && NewIdsDiffer(s)
  }

  /** What one step may do to the records: none disappears, none returns to pending, none changes its order data. */
  ghost predicate Keeps(before: Orders, after: Orders) {
    forall id :: id in before ==>
      && id in after && SameOrder(before[id], after[id])
      && (before[id].status != PENDING_PAYMENT ==> after[id].status != PENDING_PAYMENT)
  }
}
