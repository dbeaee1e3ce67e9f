/**
 Replies on the wire: the variants' HTTP statuses and bodies, the generated client's way back, and what that means
 for the replies of reachable states. Media types are taken as already parsed.
 */
module Wire {
  import opened Base
  import opened Uuids
  import opened OrderTypes
  import opened JsonObject
  import opened OrderJson
  import opened RequestJson
  import opened Inventory
  import opened Handler
  import opened Protocol
  import opened Invariant
  import opened Conservation

  const JSON: string := "application/json"

  /** A response; the body is the sequence of JSON objects in it. */
  datatype HttpResponse = HttpResponse(status: int, mediaType: string, body: seq<seq<Member>>)

  // ---- Server side ----

  /** The operation whose response type a reply belongs to. */
  function OpOf(r: Reply): Operation {
    match r
    case Created(_, _) => CreateOrder
    case Found(_) => GetOrder
    case Paid(_) => PayOrder
    case Cancelled => CancelOrder
    case Problem(op, _, _) => op
    case Failed => PayOrder
  }

  /** The variant's status and body; a reply that is no variant of its response type is not encoded. */
  function EncodeReply(l: Leaves, r: Reply): Option<HttpResponse> {
    match r
    case Created(id, price) => Some(HttpResponse(201, JSON, [EncodeOf(CreatedSchema(l), CreateOrderResponse(id, price), 2)]))
    case Found(dto) => Some(HttpResponse(200, JSON, [EncodeOf(DtoSchema(l), dto, 10)]))
    case Paid(tx) => Some(HttpResponse(200, JSON, [EncodeOf(PaidSchema(l), PayOrderResponse(tx), 1)]))
    case Cancelled => Some(HttpResponse(200, JSON, [EncodeOf(CancelSchema(), CancelOrderResponse, 0)]))
    case Problem(op, kind, body) =>
      if op.GetOrder? && kind.Conflict? then None
      else Some(HttpResponse(KindStatus(kind), JSON, [EncodeOf(ErrorSchema(), body, 2)]))
    case Failed => None
  }

  /** What the handler's caller writes to. */
  class ResponseWriter {
    var status: int
    var mediaType: string
    var body: seq<seq<Member>>

    constructor ()
      ensures status == 0 && mediaType == "" && body == []
    {
      status, mediaType, body := 0, "", [];
    }

    function Written(): HttpResponse
      reads this
    {
      HttpResponse(status, mediaType, body)
    }

    method WriteJson(code: int, encoded: seq<Member>)
      modifies this
      ensures Written() == HttpResponse(code, JSON, old(body) + [encoded])
    {
      mediaType := JSON;
      status := code;
      body := body + [encoded];
    }

    /** Writes the variant's status and body; a reply that is no variant of its type leaves the writer alone. */
    method WriteReply(l: Leaves, r: Reply) returns (ok: bool)
      modifies this
      ensures ok <==> EncodeReply(l, r).Some?
      ensures ok ==> var resp := EncodeReply(l, r).value; Written() == resp.(body := old(body) + resp.body)
      ensures !ok ==> Written() == old(Written())
    {
      hide EncodeOf;
      match r {
        case Created(id, price) => WriteJson(201, EncodeOf(CreatedSchema(l), CreateOrderResponse(id, price), 2));
        case Found(dto) =>
          var encoded := EncodeDto(l, dto);
          WriteJson(200, encoded);
        case Paid(tx) => WriteJson(200, EncodeOf(PaidSchema(l), PayOrderResponse(tx), 1));
        case Cancelled => WriteJson(200, EncodeOf(CancelSchema(), CancelOrderResponse, 0));
        case Problem(op, kind, error) =>
          var encoded := EncodeOf(ErrorSchema(), error, 2);
          match kind {
            case BadRequest => WriteJson(400, encoded);
            case NotFoundKind => WriteJson(404, encoded);
            case Conflict =>
              if op.GetOrder? { return false; }
              WriteJson(409, encoded);
            case InternalServerError => WriteJson(500, encoded);
          }
        case Failed => return false;
      }
      ok := true;
    }
  }

  // ---- Validation ----

  predicate ValidMethod(m: PaymentMethod) {
    match m
    case CARD => true
    case SBP => true
    case CREDIT_CARD => true
    case INVESTOR_MONEY => true
    case OtherMethod(_) => false
  }

  /** The fields that fail validation, in the order in which they are checked. */
  method ValidateDto(dto: OrderDto) returns (failures: seq<string>)
    ensures failures == [] <==> ValidDto(dto)
    ensures failures == (if dto.paymentMethod.Get().Some? && dto.paymentMethod.Get().value.OtherMethod?
                         then ["payment_method"] else [])
                        + if dto.status.OtherStatus? then ["status"] else []
  {
    failures := [];
    var pm := dto.paymentMethod.Get();
    if pm.Some? {
      if !ValidMethod(pm.value) {
        failures := failures + ["payment_method"];
      }
    }
    if dto.status.OtherStatus? {
      failures := failures + ["status"];
    }
  }

  // ---- Client side ----

  datatype ClientError = UnexpectedStatus | UnexpectedMediaType | BadBody | Invalid

  function KindOf(op: Operation, status: int): Option<ErrorKind> {
    if status == 400 then Some(BadRequest)
    else if status == 404 then Some(NotFoundKind)
    else if status == 409 && !op.GetOrder? then Some(Conflict)
    else if status == 500 then Some(InternalServerError)
    else None
  }

  function SuccessStatus(op: Operation): int {
    if op.CreateOrder? then 201 else 200
  }

  /** Reads one object and insists that nothing follows it. */
  function DecodeBody<T>(sc: Schema<T>, zero: T, body: seq<seq<Member>>): Result<T, ClientError> {
    if body == [] then Err(BadBody) else
      var r := DecodeOf(sc, zero, body[0]);
      if r.Err? || |body| > 1 then Err(BadBody) else Ok(r.value)
  }

  function DecodeReply(l: Leaves, op: Operation, resp: HttpResponse): Result<Reply, ClientError> {
    if resp.status == SuccessStatus(op) then
      if resp.mediaType != JSON then Err(UnexpectedMediaType) else DecodeSuccess(l, op, resp.body)
    else
      match KindOf(op, resp.status)
      case None => Err(UnexpectedStatus)
      case Some(kind) =>
        if resp.mediaType != JSON then Err(UnexpectedMediaType) else
          match DecodeBody(ErrorSchema(), ZERO_ERROR, resp.body)
          case Err(e) => Err(e)
          case Ok(b) => Ok(Problem(op, kind, b))
  }

  function DecodeSuccess(l: Leaves, op: Operation, body: seq<seq<Member>>): Result<Reply, ClientError> {
    match op
    case CreateOrder =>
      (match DecodeBody(CreatedSchema(l), ZERO_CREATED, body)
       case Err(e) => Err(e)
       case Ok(r) => Ok(Created(r.orderUUID, r.totalPrice)))
    case GetOrder =>
      (match DecodeBody(DtoSchema(l), ZERO_DTO, body)
       case Err(e) => Err(e)
       case Ok(dto) => if ValidDto(dto) then Ok(Found(dto)) else Err(Invalid))
    case PayOrder =>
      (match DecodeBody(PaidSchema(l), ZERO_PAID, body)
       case Err(e) => Err(e)
       case Ok(r) => Ok(Paid(r.transactionUUID)))
    case CancelOrder =>
      match DecodeBody(CancelSchema(), CancelOrderResponse, body)
      case Err(e) => Err(e)
      case Ok(_) => Ok(Cancelled)
  }

  method ReadBody<T>(sc: Schema<T>, zero: T, body: seq<seq<Member>>) returns (r: Result<T, ClientError>)
    ensures r == DecodeBody(sc, zero, body)
  {
    if |body| == 0 {
      return Err(BadBody);
    }
    var decoded := Decode(sc, zero, body[0]);
    if decoded.Err? || |body| > 1 {
      return Err(BadBody);
    }
    r := Ok(decoded.value);
  }

  /** Reads a response of the get operation: a switch over the status, then body, trailing data and validation. */
  method ReadGetResponse(l: Leaves, resp: HttpResponse) returns (r: Result<Reply, ClientError>)
    ensures r == DecodeReply(l, GetOrder, resp)
  {
    hide DecodeBody, DtoSchema, ErrorSchema;
    if resp.status !in {200, 400, 404, 500} {
      return Err(UnexpectedStatus);
    }
    if resp.mediaType != JSON {
      return Err(UnexpectedMediaType);
    }
    if resp.status == 200 {
      var dto := ReadBody(DtoSchema(l), ZERO_DTO, resp.body);
      if dto.Err? {
        return Err(dto.error);
      }
      var failures := ValidateDto(dto.value);
      return if |failures| > 0 then Err(Invalid) else Ok(Found(dto.value));
    }
    var kind := if resp.status == 400 then BadRequest else if resp.status == 404 then NotFoundKind else InternalServerError;
    var error := ReadBody(ErrorSchema(), ZERO_ERROR, resp.body);
    r := if error.Err? then Err(error.error) else Ok(Problem(GetOrder, kind, error.value));
  }

  // ---- What is sent and what is read, written out ----

  /** The status and media type of what is sent; get's conflict and a bare error are not sent. */
  lemma SentStatus(l: Leaves, r: Reply)
    ensures EncodeReply(l, r).None? <==> r.Failed? || (r.Problem? && r.op.GetOrder? && r.kind.Conflict?)
    ensures EncodeReply(l, r).Some? ==>
              var resp := EncodeReply(l, r).value;
              && resp.mediaType == "application/json" && |resp.body| == 1
              && resp.status == match r
                                case Created(_, _) => 201
                                case Problem(_, BadRequest, _) => 400
                                case Problem(_, NotFoundKind, _) => 404
                                case Problem(_, Conflict, _) => 409
                                case Problem(_, InternalServerError, _) => 500
                                case _ => 200
  {
    hide EncodeOf;
  }

  /** The body is one JSON object and nothing more, and decodes to the value. */
  predicate HoldsOne<T(==)>(sc: Schema<T>, zero: T, body: seq<seq<Member>>, value: T) {
    |body| == 1 && DecodeOf(sc, zero, body[0]) == Ok(value)
  }

  lemma BodyHoldsOne<T>(sc: Schema<T>, zero: T, body: seq<seq<Member>>)
    ensures forall value :: DecodeBody(sc, zero, body) == Ok(value) <==> HoldsOne(sc, zero, body, value)
    ensures DecodeBody(sc, zero, body).Err? ==> DecodeBody(sc, zero, body).error == BadBody
  {
    hide DecodeOf;
  }

  /** The error variant that a client reads from a status. */
  predicate IsErrorStatus(op: Operation, status: int, kind: ErrorKind) {
    match kind
    case BadRequest => status == 400
    case NotFoundKind => status == 404
    case Conflict => status == 409 && !op.GetOrder?
    case InternalServerError => status == 500
  }

  /** An error response is read exactly with the status of a variant, as JSON, and from one object that is an error. */
  lemma ErrorsAreReadExactly(l: Leaves, op: Operation, resp: HttpResponse)
    ensures forall op1, kind, b :: DecodeReply(l, op, resp) == Ok(Problem(op1, kind, b)) <==>
              op1 == op && IsErrorStatus(op, resp.status, kind) && resp.mediaType == "application/json"
              && HoldsOne(ErrorSchema(), ZERO_ERROR, resp.body, b)
  {
    hide DecodeBody, ErrorSchema, CreatedSchema, DtoSchema, PaidSchema, CancelSchema;
    BodyHoldsOne(ErrorSchema(), ZERO_ERROR, resp.body);
    hide HoldsOne;
  }

  /** A success is read exactly with the operation's status, as JSON, and from one object; an order only if it is valid. */
  lemma SuccessesAreReadExactly(l: Leaves, op: Operation, resp: HttpResponse)
    ensures forall id, price :: DecodeReply(l, op, resp) == Ok(Created(id, price)) <==>
              op.CreateOrder? && resp.status == 201 && resp.mediaType == "application/json"
              && HoldsOne(CreatedSchema(l), ZERO_CREATED, resp.body, CreateOrderResponse(id, price))
    ensures forall dto :: DecodeReply(l, op, resp) == Ok(Found(dto)) <==>
              op.GetOrder? && resp.status == 200 && resp.mediaType == "application/json"
              && HoldsOne(DtoSchema(l), ZERO_DTO, resp.body, dto) && ValidDto(dto)
    ensures forall tx :: DecodeReply(l, op, resp) == Ok(Paid(tx)) <==>
              op.PayOrder? && resp.status == 200 && resp.mediaType == "application/json"
              && HoldsOne(PaidSchema(l), ZERO_PAID, resp.body, PayOrderResponse(tx))
    ensures DecodeReply(l, op, resp) == Ok(Cancelled) <==>
              op.CancelOrder? && resp.status == 200 && resp.mediaType == "application/json"
              && HoldsOne(CancelSchema(), CancelOrderResponse, resp.body, CancelOrderResponse)
  {
    hide DecodeBody, ErrorSchema, CreatedSchema, DtoSchema, PaidSchema, CancelSchema, ValidDto;
    BodyHoldsOne(CreatedSchema(l), ZERO_CREATED, resp.body);
    BodyHoldsOne(DtoSchema(l), ZERO_DTO, resp.body);
    BodyHoldsOne(PaidSchema(l), ZERO_PAID, resp.body);
    BodyHoldsOne(CancelSchema(), CancelOrderResponse, resp.body);
    hide HoldsOne;
    var cancel := DecodeBody(CancelSchema(), CancelOrderResponse, resp.body);
    if cancel.Ok? { OneCancelResponse(cancel.value); }
  }

  lemma OneCancelResponse(r: CancelOrderResponse)
    ensures r == CancelOrderResponse
  {}

  /** What a client refuses a response for: its status, else its media type, else its body, else the order in it. */
  lemma RefusalsAreExact(l: Leaves, op: Operation, resp: HttpResponse)
    ensures DecodeReply(l, op, resp) == Err(UnexpectedStatus) <==>
            resp.status != (if op.CreateOrder? then 201 else 200) && forall kind :: !IsErrorStatus(op, resp.status, kind)
    ensures DecodeReply(l, op, resp) == Err(UnexpectedMediaType) <==>
            (resp.status == (if op.CreateOrder? then 201 else 200) || exists kind :: IsErrorStatus(op, resp.status, kind))
            && resp.mediaType != "application/json"
    ensures DecodeReply(l, op, resp) == Err(Invalid) <==>
            op.GetOrder? && resp.status == 200 && resp.mediaType == "application/json"
            && exists dto :: HoldsOne(DtoSchema(l), ZERO_DTO, resp.body, dto) && !ValidDto(dto)
  {
    hide DecodeBody, ErrorSchema, CreatedSchema, DtoSchema, PaidSchema, CancelSchema, ValidDto;
    BodyHoldsOne(ErrorSchema(), ZERO_ERROR, resp.body);
    BodyHoldsOne(CreatedSchema(l), ZERO_CREATED, resp.body);
    BodyHoldsOne(DtoSchema(l), ZERO_DTO, resp.body);
    BodyHoldsOne(PaidSchema(l), ZERO_PAID, resp.body);
    BodyHoldsOne(CancelSchema(), CancelOrderResponse, resp.body);
    hide HoldsOne;
    assert IsErrorStatus(op, 400, BadRequest) && IsErrorStatus(op, 404, NotFoundKind);
    assert IsErrorStatus(op, 500, InternalServerError) && (!op.GetOrder? ==> IsErrorStatus(op, 409, Conflict));
  }

  function NormReply(l: Leaves, r: Reply): Reply {
    if r.Found? then Found(NormDto(l, r.dto)) else r
  }

  lemma CancelRoundTrip()
    ensures DecodeOf(CancelSchema(), CancelOrderResponse, EncodeOf(CancelSchema(), CancelOrderResponse, 0)) == Ok(CancelOrderResponse)
  {}

  lemma NormKeepsValid(l: Leaves, dto: OrderDto)
    ensures ValidDto(NormDto(l, dto)) <==> ValidDto(dto)
  {}

  /** Error bodies that carry their status fit the wire's integers. */
  lemma CoherentFits(r: Reply)
    requires Coherent(r) && r.Problem?
    ensures FitsInt64(r.body.code) && KindOf(r.op, KindStatus(r.kind)) == Some(r.kind)
    ensures KindStatus(r.kind) != SuccessStatus(r.op)
  {}

  /**
   A coherent reply, with a valid order if it carries one, reaches the client as the same variant of the same response
   type, only its optional fields and time normalised.
   */
  lemma ReplyRoundTrip(l: Leaves, r: Reply)
    requires LeavesLawful(l) && Coherent(r) && !r.Failed? && (r.Found? ==> ValidDto(r.dto))
    ensures EncodeReply(l, r).Some? && DecodeReply(l, OpOf(r), EncodeReply(l, r).value) == Ok(NormReply(l, r))
  {
    hide LeavesLawful, DecodeOf, EncodeOf, NormDto, ValidDto, FitsInt64;
    hide DtoSchema, CreatedSchema, PaidSchema, CancelSchema, ErrorSchema;
    match r
    case Created(id, price) => CreatedRoundTrip(l, CreateOrderResponse(id, price));
    case Found(dto) =>
      DtoRoundTrip(l, dto);
      NormKeepsValid(l, dto);
    case Paid(tx) => PaidRoundTrip(l, PayOrderResponse(tx));
    case Cancelled => CancelRoundTrip();
    case Problem(op, kind, body) =>
      CoherentFits(r);
      ErrorRoundTrip(body);
  }

  // ---- Reachable states ----

  /**
   Every reply in a reachable state that is a response at all is encoded; an error response carries the status it is
   sent with, and the client gets the same variant back. So pay's conflict that claims 404 is never sent.
   */
  lemma ReachableRepliesAreFaithful(l: Leaves, env: Env, ss: seq<System>, es: seq<Event>, k: nat, c: CallId)
    requires LeavesLawful(l) && IsRun(env, ss, es) && k <= |es| && c in ss[k].calls && ReplyOf(ss[k].calls[c]).Some?
    ensures var r := ReplyOf(ss[k].calls[c]).value;
      !r.Failed? ==>
        && EncodeReply(l, r).Some?
        && (r.Problem? ==> EncodeReply(l, r).value.status == r.body.code)
        && DecodeReply(l, OpOf(r), EncodeReply(l, r).value) == Ok(NormReply(l, r))
  {
    hide Inv, LeavesLawful, Step, Enabled, Keyed, DecodeReply, NormReply, EncodeOf;
    ReachableIsOk(env, ss, es, k);
    FinishedIsCoherent(env, ss[k], c);
    var r := ReplyOf(ss[k].calls[c]).value;
    if !r.Failed? {
      ReplyRoundTrip(l, r);
    }
  }

  lemma FinishedIsCoherent(env: Env, s: System, c: CallId)
    requires Inv(env, s) && c in s.calls && ReplyOf(s.calls[c]).Some?
    ensures var r := ReplyOf(s.calls[c]).value; Coherent(r) && (r.Found? ==> ValidDto(r.dto))
  {
    hide StoreOk, EntryOk, NewIdsDiffer, ValidDto;
    assert CallOk(env, s, c);
  }

  /** A pay request that passes validation is never answered with a bare error instead of a response. */
  lemma ValidRequestsGetResponses(orders: Orders, id: Uuid, pm: PaymentMethod)
    ensures ValidMethod(pm) <==> ProtoOf(pm).Some?
    ensures ValidMethod(pm) ==> StartPay(orders, id, pm) != Rejected(Failed)
  {}

  /**
   In every reachable store, what a get reports passes validation and reaches the client as the same order, normalised;
   and a paid order's method is one that request validation accepts, the one its transaction was issued for.
   */
  lemma ReportedOrdersAreFaithful(l: Leaves, env: Env, ss: seq<System>, es: seq<Event>, k: nat, id: Uuid)
    requires LeavesLawful(l) && IsRun(env, ss, es) && k <= |es| && id in ss[k].orders
    ensures var reply := HandleGet(ss[k].orders, id);
      && reply.Found? && ValidDto(reply.dto)
      && DecodeReply(l, GetOrder, EncodeReply(l, reply).value) == Ok(Found(NormDto(l, reply.dto)))
    ensures var dto := HandleGet(ss[k].orders, id).dto;
      dto.status == PAID ==>
        && dto.paymentMethod.Get().Some? && dto.transactionUUID.Get().Some?
        && ValidMethod(dto.paymentMethod.Get().value)
        && dto.transactionUUID.Get().value in ss[k].ledger
        && ProtoOf(dto.paymentMethod.Get().value) == Some(ss[k].ledger[dto.transactionUUID.Get().value].pm)
  {
    hide LeavesLawful, Step, Enabled, Keyed, EncodeOf, DecodeOf, StoredMethod, MethodOf, NormDto, Priced;
    ReachableIsOk(env, ss, es, k);
    StoredDtoIsValid(env, ss[k], id);
    var reply := HandleGet(ss[k].orders, id);
    ReplyRoundTrip(l, reply);
    hide DecodeReply, EncodeReply;
    var o := ss[k].orders[id];
    assert RecordOk(env, id, o);
    if o.status == PAID {
      StoredPaymentsWereIssued(env, ss, es, k, id);
      SpecifiedMethodIsKnown(ss[k].ledger[o.transactionUUID.value].pm);
    }
  }
}
