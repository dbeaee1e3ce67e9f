/** The records, requests and replies of the order service. */
module OrderTypes {
  import opened Base
  import opened Uuids

  /** A JSON field that may be absent, null or a value; `value` can be hidden behind the two flags. */
  datatype OptNil<T> = OptNil(value: T, isSet: bool, isNull: bool) {
    function Get(): (r: Option<T>)
      ensures r == if isSet && !isNull then Some(value) else None
    {
      if isNull then None else if !isSet then None else Some(value)
    }
  }

  function NewOptNil<T>(v: T): OptNil<T> {
    OptNil(v, true, false)
  }

  // The status and the payment method are texts with named constants; any other text can occur on the wire.

  predicate IsStatusText(s: string) {
    s == "PENDING_PAYMENT" || s == "PAID" || s == "CANCELLED"
  }

  type UnknownStatus = s: string | !IsStatusText(s)

  datatype OrderStatus = PENDING_PAYMENT | PAID | CANCELLED | OtherStatus(text: UnknownStatus)

  function StatusText(s: OrderStatus): string {
    match s
    case PENDING_PAYMENT => "PENDING_PAYMENT"
    case PAID => "PAID"
    case CANCELLED => "CANCELLED"
    case OtherStatus(text) => text
  }

  function StatusOf(text: string): OrderStatus {
    if text == "PENDING_PAYMENT" then PENDING_PAYMENT
    else if text == "PAID" then PAID
    else if text == "CANCELLED" then CANCELLED
    else OtherStatus(text)
  }

  predicate IsMethodText(s: string) {
    s == "CARD" || s == "SBP" || s == "CREDIT_CARD" || s == "INVESTOR_MONEY"
  }

  type UnknownMethod = s: string | !IsMethodText(s)

  datatype PaymentMethod = CARD | SBP | CREDIT_CARD | INVESTOR_MONEY | OtherMethod(text: UnknownMethod)

  function MethodText(m: PaymentMethod): string {
    match m
    case CARD => "CARD"
    case SBP => "SBP"
    case CREDIT_CARD => "CREDIT_CARD"
    case INVESTOR_MONEY => "INVESTOR_MONEY"
    case OtherMethod(text) => text
  }

  function MethodOf(text: string): PaymentMethod {
    if text == "CARD" then CARD
    else if text == "SBP" then SBP
    else if text == "CREDIT_CARD" then CREDIT_CARD
    else if text == "INVESTOR_MONEY" then INVESTOR_MONEY
    else OtherMethod(text)
  }

  lemma StatusTextRoundTrip(s: OrderStatus)
    ensures StatusOf(StatusText(s)) == s
  {}

  lemma MethodTextRoundTrip(m: PaymentMethod)
    ensures MethodOf(MethodText(m)) == m
  {}

  // The zero values that an unset field holds.
  const NO_METHOD: PaymentMethod := MethodOf("")
  const NO_STATUS: OrderStatus := StatusOf("")

  datatype Order = Order(
    orderUUID: Uuid, hullUUID: Uuid, engineUUID: Uuid,
    shieldUUID: Option<Uuid>, weaponUUID: Option<Uuid>,
    totalPrice: int64,
    transactionUUID: Option<Uuid>, paymentMethod: Option<string>,
    status: OrderStatus, createdAt: int)

  type Orders = map<Uuid, Order>

  datatype OrderDto = OrderDto(
    orderUUID: Uuid, hullUUID: Uuid, engineUUID: Uuid,
    shieldUUID: OptNil<Uuid>, weaponUUID: OptNil<Uuid>,
    totalPrice: int64,
    transactionUUID: OptNil<Uuid>, paymentMethod: OptNil<PaymentMethod>,
    status: OrderStatus, createdAt: int)

  /** The checks of the generated validator: a present payment method and the status are among the known ones. */
  predicate ValidDto(dto: OrderDto) {
    (dto.paymentMethod.Get().Some? ==> !dto.paymentMethod.Get().value.OtherMethod?) && !dto.status.OtherStatus?
  }

  datatype CreateOrderRequest = CreateOrderRequest(
    hullUUID: Uuid, engineUUID: Uuid, shieldUUID: OptNil<Uuid>, weaponUUID: OptNil<Uuid>)

  datatype CreateOrderResponse = CreateOrderResponse(orderUUID: Uuid, totalPrice: int64)
  datatype PayOrderRequest = PayOrderRequest(paymentMethod: PaymentMethod)
  datatype PayOrderResponse = PayOrderResponse(transactionUUID: Uuid)
  datatype CancelOrderResponse = CancelOrderResponse

  datatype Operation = CreateOrder | GetOrder | PayOrder | CancelOrder

  /** The error variants of a response type; each operation has all of them, except that get has no conflict. */
  datatype ErrorKind = BadRequest | NotFoundKind | Conflict | InternalServerError

  datatype ErrorBody = ErrorBody(code: int, message: string)

  datatype Reply =
    | Created(orderUUID: Uuid, totalPrice: int64)
    | Found(dto: OrderDto)
    | Paid(transactionUUID: Uuid)
    | Cancelled
    | Problem(op: Operation, kind: ErrorKind, body: ErrorBody)
    | Failed  // the handler returned an error instead of a response

  function KindStatus(kind: ErrorKind): int {
    match kind
    case BadRequest => 400
    case NotFoundKind => 404
    case Conflict => 409
    case InternalServerError => 500
  }

  /** An error response whose type exists and whose body carries the HTTP status of its variant. */
  predicate Coherent(r: Reply) {
    r.Problem? ==> r.body.code == KindStatus(r.kind) && !(r.op.GetOrder? && r.kind.Conflict?)
  }
}
