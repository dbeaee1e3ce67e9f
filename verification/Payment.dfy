/** The payment server: stateless checks, then a freshly drawn transaction UUID. */
module Payment {
  import opened Base
  import opened Uuids

  datatype ProtoMethod = UNSPECIFIED | P_CARD | P_SBP | P_CREDIT_CARD | P_INVESTOR_MONEY

  function ProtoName(m: ProtoMethod): string {
    match m
    case UNSPECIFIED => "PAYMENT_METHOD_UNSPECIFIED"
    case P_CARD => "PAYMENT_METHOD_CARD"
    case P_SBP => "PAYMENT_METHOD_SBP"
    case P_CREDIT_CARD => "PAYMENT_METHOD_CREDIT_CARD"
    case P_INVESTOR_MONEY => "PAYMENT_METHOD_INVESTOR_MONEY"
  }

  /** The answer to a request, when the next UUID to be drawn is `newId`. */
  function Issue(t: UuidText, orderUuid: string, pm: ProtoMethod, newId: Uuid): Result<string, RpcError> {
    if orderUuid == "" then Err(InvalidArgument("order_uuid"))
    else if pm == UNSPECIFIED then Err(InvalidArgument("payment_method"))
    else if t.parse(orderUuid).None? then Err(InvalidArgument("order_uuid"))
    else Ok(t.format(newId))
  }

  /** A transaction as issued: the order as it was sent, the method, the transaction. */
  datatype Issuance = Issuance(orderUuid: string, pm: ProtoMethod, transaction: Uuid)

  /** The server keeps no state but its log, whose lines name the order as it was sent and the transaction. */
  class PaymentServer {
    const text: UuidText
    var log: seq<(string, Uuid)>
    ghost var issued: seq<Issuance>

    constructor (text: UuidText)
      ensures this.text == text && log == [] && issued == []
    {
      this.text, log, issued := text, [], [];
    }

    method PayOrder(orderUuid: string, pm: ProtoMethod, newId: Uuid) returns (r: Result<string, RpcError>)
      modifies this
      ensures r == Issue(text, orderUuid, pm, newId)
      ensures log == old(log) + if r.Ok? then [(orderUuid, newId)] else []
      ensures issued == old(issued) + if r.Ok? then [Issuance(orderUuid, pm, newId)] else []
    {
      if orderUuid == "" {
        return Err(InvalidArgument("order_uuid"));
      }
      if pm == UNSPECIFIED {
        return Err(InvalidArgument("payment_method"));
      }
      if text.parse(orderUuid).None? {
        return Err(InvalidArgument("order_uuid"));
      }
      log := log + [(orderUuid, newId)];
      issued := issued + [Issuance(orderUuid, pm, newId)];
      r := Ok(text.format(newId));
    }
  }

  /** The server issues a transaction exactly for a parseable order UUID and a specified method. */
  lemma IssuesExactlyWhen(t: UuidText, orderUuid: string, pm: ProtoMethod, newId: Uuid)
    requires Lawful(t)
    ensures Issue(t, orderUuid, pm, newId).Ok? <==>
            orderUuid != "" && pm != UNSPECIFIED && t.parse(orderUuid).Some?
    ensures Issue(t, orderUuid, pm, newId).Ok? ==>
            t.parse(Issue(t, orderUuid, pm, newId).value) == Some(newId)
    ensures Issue(t, orderUuid, pm, newId).Err? ==> Issue(t, orderUuid, pm, newId).error.InvalidArgument?
  {}
}
