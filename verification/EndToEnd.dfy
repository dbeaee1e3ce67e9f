/**
 The generated client and server around the handler: a request is printed, routed, read and validated, the handler
 answers, and the answer is printed and read. Seen from the client, all of it amounts to calling the handler.
 */
module EndToEnd {
  import opened Base
  import opened Uuids
  import opened OrderTypes
  import opened JsonObject
  import opened OrderJson
  import opened RequestJson
  import opened Inventory
  import opened Handler
  import opened Protocol
  import opened Creation
  import opened Invariant
  import opened Refinement
  import opened Router
  import opened ClientPath
  import opened Wire

  /** What client and server share: leaf codecs, path libraries, and a server prefix that is the client's base path. */
  datatype Site = Site(
    leaves: Leaves, escape: string -> string, unescape: string -> Option<string>, normalize: string -> Option<string>,
    prefix: string)

  ghost predicate SiteLawful(site: Site) {
    LeavesLawful(site.leaves) && PlainTextStays(site.escape, site.unescape)
  }

  datatype Request =
    | CreateRequest(create: CreateOrderRequest)
    | GetRequest(id: Uuid)
    | PayRequest(id: Uuid, pay: PayOrderRequest)
    | CancelRequest(id: Uuid)

  datatype HttpRequest = HttpRequest(
    verb: string, path: string, rawPath: string, mediaType: string, body: seq<seq<Member>>)

  /** The transport hands over no raw path, or one that normalises to the path or not at all. */
  predicate CarriedAsSent(site: Site, h: HttpRequest) {
    h.rawPath == "" || site.normalize(h.rawPath).None? || site.normalize(h.rawPath) == Some(h.path)
  }

  function OperationOf(r: Request): Operation {
    match r
    case CreateRequest(_) => CreateOrder
    case GetRequest(_) => GetOrder
    case PayRequest(_, _) => PayOrder
    case CancelRequest(_) => CancelOrder
  }

  function IdOf(r: Request): Uuid {
    if r.CreateRequest? then NIL else r.id
  }

  // ---- Client ----

  /** The request on its way; `raw` is the raw path that it arrives with. */
  function Send(site: Site, r: Request, raw: string): HttpRequest {
    var op := OperationOf(r);
    var path := site.prefix + TemplatePath(op, ArgOf(site.leaves.uuid, site.escape, op, IdOf(r)));
    match r
    case CreateRequest(create) => HttpRequest("POST", path, raw, JSON, [EncodeOf(CreateSchema(site.leaves), create, 4)])
    case GetRequest(_) => HttpRequest("GET", path, raw, "", [])
    case PayRequest(_, pay) => HttpRequest("POST", path, raw, JSON, [EncodeOf(PaySchema(), pay, 1)])
    case CancelRequest(_) => HttpRequest("POST", path, raw, "", [])
  }

  // ---- Server ----

  datatype Refused =
    | NotRouted
    | BadParam(reason: ParamError)
    | WrongMediaType
    | BodyRequired
    | BadRequestBody
    | InvalidRequest

  /** The request a server reads. */
  function Receive(site: Site, h: HttpRequest): Result<Request, Refused> {
    var (path, escaped) := Routed(h.path, h.rawPath, site.normalize);
    match Route(site.prefix, h.verb, path)
    case Dispatched(op, arg) =>
      if op.CreateOrder? then ReceiveCreate(site, h) else
        (match ParamOf(site.leaves.uuid, site.unescape, arg, escaped)
         case Err(reason) => Err(BadParam(reason))
         case Ok(id) =>
           match op
           case PayOrder => ReceivePay(h, id)
           case CancelOrder => Ok(CancelRequest(id))
           case _ => Ok(GetRequest(id)))
    case _ => Err(NotRouted)
  }

  function ReceiveCreate(site: Site, h: HttpRequest): Result<Request, Refused> {
    if h.mediaType != JSON then Err(WrongMediaType)
    else if h.body == [] then Err(BodyRequired) else
      match DecodeBody(CreateSchema(site.leaves), ZERO_CREATE_REQUEST, h.body)
      case Err(_) => Err(BadRequestBody)
      case Ok(create) => Ok(CreateRequest(create))
  }

  function ReceivePay(h: HttpRequest, id: Uuid): Result<Request, Refused> {
    if h.mediaType != JSON then Err(WrongMediaType)
    else if h.body == [] then Err(BodyRequired) else
      match DecodeBody(PaySchema(), ZERO_PAY, h.body)
      case Err(_) => Err(BadRequestBody)
      case Ok(pay) => if ValidMethod(pay.paymentMethod) then Ok(PayRequest(id, pay)) else Err(InvalidRequest)
  }

  /** The server's reading of a request: routing, then the parameter, then the body and its validation. */
  method ReadRequest(site: Site, h: HttpRequest) returns (r: Result<Request, Refused>)
    ensures r == Receive(site, h)
  {
    hide Route, Routed, ParamOf, DecodeBody, CreateSchema, PaySchema;
    var served, escaped := ServeHTTP(site.prefix, h.verb, h.path, h.rawPath, site.normalize);
    if !served.Dispatched? {
      return Err(NotRouted);
    }
    var id := NIL;
    if !served.op.CreateOrder? {
      var param := DecodeParam(site.leaves.uuid, site.unescape, served.arg, escaped);
      if param.Err? {
        return Err(BadParam(param.error));
      }
      id := param.value;
    }
    if served.op.CreateOrder? || served.op.PayOrder? {
      if h.mediaType != JSON {
        return Err(WrongMediaType);
      }
      if |h.body| == 0 {
        return Err(BodyRequired);
      }
    }
    match served.op {
      case CreateOrder =>
        var create := ReadBody(CreateSchema(site.leaves), ZERO_CREATE_REQUEST, h.body);
        r := if create.Err? then Err(BadRequestBody) else Ok(CreateRequest(create.value));
      case PayOrder =>
        var pay := ReadBody(PaySchema(), ZERO_PAY, h.body);
        if pay.Err? {
          return Err(BadRequestBody);
        }
        r := if ValidMethod(pay.value.paymentMethod) then Ok(PayRequest(id, pay.value)) else Err(InvalidRequest);
      case CancelOrder => r := Ok(CancelRequest(id));
      case GetOrder => r := Ok(GetRequest(id));
    }
  }

  // ---- What is read, written out ----

  /** The path that is matched: the normalised raw path where there is one, else the path. */
  predicate IsRouted(site: Site, h: HttpRequest, path: string, escaped: bool) {
    if h.rawPath != "" && site.normalize(h.rawPath).Some?
    then path == site.normalize(h.rawPath).value && (escaped <==> '%' in path)
    else path == h.path && !escaped
  }

  /** The request is one for the operation, by its path and verb, with arg where the template has a parameter. */
  predicate IsFor(site: Site, h: HttpRequest, path: string, op: Operation, arg: string) {
    Instantiates(site.prefix, path, op, arg) && h.verb == if op.GetOrder? then "GET" else "POST"
  }

  /** What is wrong with a parameter, if anything is. */
  predicate IsBadParam(site: Site, arg: string, escaped: bool, reason: ParamError) {
    var text := if escaped then site.unescape(arg) else Some(arg);
    match reason
    case BadEscape => text == None
    case FieldRequired => text == Some("")
    case BadUuid => text.Some? && text.value != "" && site.leaves.uuid.parse(text.value).None?
  }

  predicate IsParam(site: Site, arg: string, escaped: bool, id: Uuid) {
    var text := if escaped then site.unescape(arg) else Some(arg);
    text.Some? && text.value != "" && site.leaves.uuid.parse(text.value) == Some(id)
  }

  /** A parameter is read exactly if it is the text of a UUID, and refused for what is wrong with it. */
  lemma ParamIsExact(site: Site, arg: string, escaped: bool)
    ensures forall id :: ParamOf(site.leaves.uuid, site.unescape, arg, escaped) == Ok(id) <==> IsParam(site, arg, escaped, id)
    ensures forall reason ::
              ParamOf(site.leaves.uuid, site.unescape, arg, escaped) == Err(reason) <==> IsBadParam(site, arg, escaped, reason)
  {}

  /** A request is not routed exactly if it is for no operation. */
  lemma NotRoutedExactlyWhen(site: Site, h: HttpRequest, path: string, escaped: bool)
    requires IsRouted(site, h, path, escaped)
    ensures Receive(site, h) == Err(NotRouted) <==> forall op, arg :: !IsFor(site, h, path, op, arg)
  {
    hide Route, Instantiates, ParamOf, DecodeBody, ValidMethod;
    RouteMeetsTemplates(site.prefix, h.verb, path);
    var served := Route(site.prefix, h.verb, path);
    if served.Dispatched? {
      assert IsFor(site, h, path, served.op, served.arg);
    } else {
      assert forall op, arg :: IsFor(site, h, path, op, arg) ==> served == Dispatched(op, arg);
    }
  }

  lemma ReceiveRouted(site: Site, h: HttpRequest, path: string, escaped: bool, op: Operation, arg: string)
    requires IsRouted(site, h, path, escaped) && IsFor(site, h, path, op, arg)
    ensures Routed(h.path, h.rawPath, site.normalize) == (path, escaped)
    ensures Route(site.prefix, h.verb, path) == Dispatched(op, arg)
  {
    hide Route, Instantiates;
    RouteMeetsTemplates(site.prefix, h.verb, path);
  }

  /** A create is read exactly if its media type is JSON and its body is one object that decodes; else it is refused for what is wrong. */
  lemma CreateIsReadExactly(site: Site, h: HttpRequest, path: string, escaped: bool)
    requires IsRouted(site, h, path, escaped) && IsFor(site, h, path, Operation.CreateOrder, "")
    ensures Receive(site, h) == Err(WrongMediaType) <==> h.mediaType != "application/json"
    ensures Receive(site, h) == Err(BodyRequired) <==> h.mediaType == "application/json" && h.body == []
    ensures Receive(site, h) == Err(BadRequestBody) <==>
            h.mediaType == "application/json" && h.body != []
            && forall v :: !HoldsOne(CreateSchema(site.leaves), ZERO_CREATE_REQUEST, h.body, v)
    ensures forall r :: Receive(site, h) == Ok(r) <==>
              r.CreateRequest? && h.mediaType == "application/json"
              && HoldsOne(CreateSchema(site.leaves), ZERO_CREATE_REQUEST, h.body, r.create)
  {
    hide Route, DecodeBody, IsFor, CreateSchema;
    ReceiveRouted(site, h, path, escaped, Operation.CreateOrder, "");
    BodyHoldsOne(CreateSchema(site.leaves), ZERO_CREATE_REQUEST, h.body);
    hide HoldsOne, Routed;
  }

  /** A get or cancel is read exactly if its parameter is the text of a UUID; else it is refused for what is wrong with it. */
  lemma PlainIsReadExactly(site: Site, h: HttpRequest, path: string, escaped: bool, op: Operation, arg: string)
    requires IsRouted(site, h, path, escaped) && IsFor(site, h, path, op, arg) && (op.GetOrder? || op.CancelOrder?)
    ensures forall r :: Receive(site, h) == Ok(r) <==>
              r == (if op.GetOrder? then GetRequest(IdOf(r)) else CancelRequest(IdOf(r))) && IsParam(site, arg, escaped, IdOf(r))
    ensures forall e :: Receive(site, h) == Err(e) <==> e.BadParam? && IsBadParam(site, arg, escaped, e.reason)
  {
    hide Route, ParamOf, IsFor;
    ReceiveRouted(site, h, path, escaped, op, arg);
    ParamIsExact(site, arg, escaped);
    hide IsParam, IsBadParam, Routed;
  }

  /**
   A pay is read exactly if its parameter is the text of a UUID, its media type is JSON and its body is one object that
   decodes to a known method; else it is refused for the first of these that fails.
   */
  lemma PayIsReadExactly(site: Site, h: HttpRequest, path: string, escaped: bool, arg: string)
    requires IsRouted(site, h, path, escaped) && IsFor(site, h, path, Operation.PayOrder, arg)
    ensures forall reason :: Receive(site, h) == Err(BadParam(reason)) <==> IsBadParam(site, arg, escaped, reason)
    ensures (exists id :: IsParam(site, arg, escaped, id)) ==>
              && (Receive(site, h) == Err(WrongMediaType) <==> h.mediaType != "application/json")
              && (Receive(site, h) == Err(BodyRequired) <==> h.mediaType == "application/json" && h.body == [])
              && (Receive(site, h) == Err(BadRequestBody) <==>
                    h.mediaType == "application/json" && h.body != []
                    && forall v :: !HoldsOne(PaySchema(), ZERO_PAY, h.body, v))
              && (Receive(site, h) == Err(InvalidRequest) <==>
                    h.mediaType == "application/json"
                    && exists v :: HoldsOne(PaySchema(), ZERO_PAY, h.body, v) && v.paymentMethod.OtherMethod?)
    ensures forall r :: Receive(site, h) == Ok(r) <==>
              r.PayRequest? && IsParam(site, arg, escaped, r.id) && h.mediaType == "application/json"
              && HoldsOne(PaySchema(), ZERO_PAY, h.body, r.pay) && !r.pay.paymentMethod.OtherMethod?
  {
    hide Route, ParamOf, DecodeBody, IsFor, PaySchema;
    ReceiveRouted(site, h, path, escaped, Operation.PayOrder, arg);
    ParamIsExact(site, arg, escaped);
    BodyHoldsOne(PaySchema(), ZERO_PAY, h.body);
    hide HoldsOne, IsParam, IsBadParam, Routed;
  }

  function NormRequest(r: Request): Request {
    if r.CreateRequest? then CreateRequest(NormCreate(r.create)) else r
  }

  predicate ValidRequest(r: Request) {
    r.PayRequest? ==> ValidMethod(r.pay.paymentMethod)
  }

  /** Every request arrives as it was sent, normalised, unless it is a payment with an unknown method. */
  lemma RequestsArriveIntact(site: Site, r: Request, raw: string)
    requires SiteLawful(site) && CarriedAsSent(site, Send(site, r, raw))
    ensures Receive(site, Send(site, r, raw)) ==
            if ValidRequest(r) then Ok(NormRequest(r)) else Err(InvalidRequest)
  {
    hide Route, ParamOf, ArgOf, TemplatePath, LeavesLawful, PlainTextStays, DecodeOf, EncodeOf, NormCreate;
    hide CreateSchema, PaySchema, ValidMethod, Lawful;
    LeavesHaveLawfulText(site.leaves);
    var h := Send(site, r, raw);
    ClientPathRoundTrip(site.leaves.uuid, site.escape, site.unescape, site.prefix, OperationOf(r), IdOf(r),
                        Routed(h.path, raw, site.normalize).1);
    match r
    case CreateRequest(create) => CreateRoundTrip(site.leaves, create);
    case PayRequest(_, pay) => PayRoundTrip(pay);
    case _ =>
  }

  lemma LeavesHaveLawfulText(l: Leaves)
    requires LeavesLawful(l)
    ensures Lawful(l.uuid)
  {}

  // ---- The handler in between ----

  /** What a call meets on its way: whether the inventory answers, what is drawn, the time, how the payment call ends. */
  datatype Chance = Chance(reachable: bool, newId: Uuid, now: int, outcome: Outcome)

  function OpFor(c: CallId, r: Request, chance: Chance): Op {
    match r
    case CreateRequest(create) => OpCreate(c, create, chance.reachable, chance.newId, chance.now)
    case GetRequest(id) => OpGet(c, id)
    case PayRequest(id, pay) => OpPay(c, id, pay.paymentMethod, chance.outcome)
    case CancelRequest(id) => OpCancel(c, id)
  }

  lemma NormalisedIsSlotted(create: CreateOrderRequest)
    ensures var n := NormCreate(create);
      && Slots(n) == Slots(create) && n.hullUUID == create.hullUUID && n.engineUUID == create.engineUUID
      && forall price, id, now :: NewOrder(n, price, id, now) == NewOrder(create, price, id, now)
  {
    var n := NormCreate(create);
    assert OptToPtr(n.shieldUUID) == OptToPtr(create.shieldUUID);
    assert OptToPtr(n.weaponUUID) == OptToPtr(create.weaponUUID);
  }

  lemma NormalisedStartsAlike(env: Env, create: CreateOrderRequest, reachable: bool)
    ensures StartCreate(env, NormCreate(create), reachable) == StartCreate(env, create, reachable)
  {
    NormalisedIsSlotted(create);
    hide ListByUuids, Tally, PartsMap, Texts, NormCreate, Slots, NewOrder;
  }

  /** The handler cannot tell a create request from its normal form. */
  lemma NormalisedMeansTheSame(env: Env, orders: Orders, c: CallId, r: Request, chance: Chance)
    requires Lawful(env.text)
    ensures Handle(env, orders, OpFor(c, NormRequest(r), chance)) == Handle(env, orders, OpFor(c, r, chance))
  {
    hide StartCreate, NormCreate, NewOrder, Lawful;
    if r.CreateRequest? {
      NormalisedIsSlotted(r.create);
      NormalisedStartsAlike(env, r.create, chance.reachable);
    }
  }

  /** A response of the operation's type, with the status of its variant, and a valid order if it carries one. */
  ghost predicate Proper(reply: Reply, op: Operation) {
    Coherent(reply) && !reply.Failed? && OpOf(reply) == op && (reply.Found? ==> ValidDto(reply.dto))
  }

  lemma CreateAnswers(env: Env, orders: Orders, create: CreateOrderRequest, reachable: bool, newId: Uuid, now: int)
    requires Sound(env)
    ensures Proper(HandleCreate(env, orders, create, reachable, newId, now).1, CreateOrder)
  {
    hide StartCreate, Sound, NewOrder;
    CreateFollowsSlots(env, create);
  }

  lemma PayAnswers(env: Env, orders: Orders, id: Uuid, pm: PaymentMethod, outcome: Outcome)
    requires Lawful(env.text) && ValidMethod(pm) && (id in orders ==> !orders[id].status.OtherStatus?)
    ensures Proper(HandlePay(env, orders, id, pm, outcome).1, PayOrder)
  {
    hide Lawful, Charge, PaidOrder;
  }

  /** Over a store in order, a valid request is always answered with a response that its type has. */
  lemma AnswersAreCoherent(env: Env, s: System, c: CallId, r: Request, chance: Chance)
    requires Sound(env) && StoreOk(env, s) && ValidRequest(r)
    ensures Proper(Handle(env, s.orders, OpFor(c, r, chance)).1, OperationOf(r))
  {
    hide StoreOk, Lawful, Keyed, HandlePay, HandleCreate, DtoOf, ValidDto;
    match r
    case CreateRequest(create) => CreateAnswers(env, s.orders, create, chance.reachable, chance.newId, chance.now);
    case GetRequest(id) => if id in s.orders { StoredDtoIsValid(env, s, id); }
    case PayRequest(id, pay) =>
      if id in s.orders { StatusIsKnown(env, s, id); }
      PayAnswers(env, s.orders, id, pay.paymentMethod, chance.outcome);
    case CancelRequest(id) => if id in s.orders { StatusIsKnown(env, s, id); }
  }

  lemma StatusIsKnown(env: Env, s: System, id: Uuid)
    requires StoreOk(env, s) && id in s.orders
    ensures !s.orders[id].status.OtherStatus?
  {
    hide Priced, Backed;
  }

  // ---- The whole way ----

  /** One remote call: the store afterwards, and what the client is told, or none if the server refuses the request. */
  function Exchange(site: Site, env: Env, orders: Orders, c: CallId, r: Request, chance: Chance, raw: string)
    : Option<(Orders, Result<Reply, ClientError>)>
    requires Lawful(env.text)
  {
    match Receive(site, Send(site, r, raw))
    case Err(_) => None
    case Ok(read) =>
      var done := Handle(env, orders, OpFor(c, read, chance));
      match EncodeReply(site.leaves, done.1)
      case None => None
      case Some(resp) => Some((done.0, DecodeReply(site.leaves, OperationOf(r), resp)))
  }

  /**
   In every reachable state, for every valid request and whatever it meets, the remote call changes the store as the
   handler does on the request that was meant, and tells the client the handler's answer, normalised.
   */
  lemma RemoteCallsAreTransparent(site: Site, env: Env, ss: seq<System>, es: seq<Event>, k: nat,
                                  c: CallId, r: Request, chance: Chance, raw: string)
    requires SiteLawful(site) && CarriedAsSent(site, Send(site, r, raw)) && IsRun(env, ss, es) && k <= |es| && ValidRequest(r)
    ensures var done := Handle(env, ss[k].orders, OpFor(c, r, chance));
            Exchange(site, env, ss[k].orders, c, r, chance, raw) ==
            Some((done.0, Ok(NormReply(site.leaves, done.1))))
  {
    hide Handle, Send, Receive, EncodeReply, DecodeReply, LeavesLawful, PlainTextStays, Step, Enabled, Keyed, Lawful;
    hide CallOk, EntryOk, NewIdsDiffer, StoreOk, OpFor, NormReply, NormRequest, ValidRequest;
    ReachableIsOk(env, ss, es, k);
    RequestsArriveIntact(site, r, raw);
    NormalisedMeansTheSame(env, ss[k].orders, c, r, chance);
    AnswersAreCoherent(env, ss[k], c, r, chance);
    ReplyRoundTrip(site.leaves, Handle(env, ss[k].orders, OpFor(c, r, chance)).1);
  }

  /** A payment with an unknown method never reaches the handler. */
  lemma UnknownMethodsAreRefused(site: Site, env: Env, orders: Orders, c: CallId, r: Request, chance: Chance, raw: string)
    requires SiteLawful(site) && CarriedAsSent(site, Send(site, r, raw)) && Lawful(env.text) && !ValidRequest(r)
    ensures Exchange(site, env, orders, c, r, chance, raw) == None
  {
    hide Send, Receive, LeavesLawful, PlainTextStays, Lawful, ValidRequest;
    RequestsArriveIntact(site, r, raw);
  }

  // ---- The same among interleaved calls ----

  /** The first step of the call that serves a request. */
  function BeginEvent(c: CallId, r: Request, chance: Chance): Event {
    match r
    case CreateRequest(create) => CreateBegin(c, create, chance.reachable, chance.newId, chance.now)
    case GetRequest(id) => GetCall(c, id)
    case PayRequest(id, pay) => PayBegin(c, id, pay.paymentMethod)
    case CancelRequest(id) => CancelBegin(c, id)
  }

  /** The call is on its way to a response of the operation, or has one. */
  predicate Serves(call: Call, op: Operation) {
    match call
    case Creating(_, _) => op.CreateOrder?
    case Cancelling(_, _) => op.CancelOrder?
    case Done(reply) => !reply.Failed? && OpOf(reply) == op
    case _ => op.PayOrder?
  }

  lemma BeginsServing(env: Env, s: System, c: CallId, r: Request, chance: Chance)
    requires Sound(env) && Inv(env, s) && ValidRequest(r) && Enabled(s, BeginEvent(c, r, chance))
    ensures var t := Step(env, s, BeginEvent(c, r, chance)); c in t.calls && Serves(t.calls[c], OperationOf(r))
  {
    hide Inv, Lawful, Keyed, StartCreate, NewOrder, DtoOf, Charge;
    match r
    case CreateRequest(create) => CreateFollowsSlots(env, create);
    case _ =>
  }

  lemma KeepsServing(env: Env, s: System, e: Event, c: CallId, op: Operation)
    requires Sound(env) && Enabled(s, e) && c in s.calls && Serves(s.calls[c], op)
    ensures c in Step(env, s, e).calls && Serves(Step(env, s, e).calls[c], op)
  {
    hide Lawful, Keyed, StartCreate, StartPay, StartCancel, HandleGet, NewOrder, Charge, ProtoOf, PaidOrder, CancelledOrder;
  }

  lemma {:induction false} ServesToTheEnd(env: Env, ss: seq<System>, es: seq<Event>, b: nat, k: nat, r: Request, chance: Chance)
    requires IsRun(env, ss, es) && b < k <= |es| && ValidRequest(r) && es[b] == BeginEvent(es[b].c, r, chance)
    ensures es[b].c in ss[k].calls && Serves(ss[k].calls[es[b].c], OperationOf(r))
    decreases k
  {
    hide Step, Inv, Lawful, Keyed, Enabled, Serves, ValidRequest;
    assert StepAt(env, ss, es, k - 1);
    if b == k - 1 {
      ReachableIsOk(env, ss, es, b);
      BeginsServing(env, ss[b], es[b].c, r, chance);
    } else {
      ServesToTheEnd(env, ss, es, b, k - 1, r, chance);
      KeepsServing(env, ss[k - 1], es[k - 1], es[b].c, OperationOf(r));
    }
  }

  /** Two calls that differ in the form of a create request at most. */
  predicate SameCall(a: Call, b: Call) {
    a == b || (a.Creating? && b.Creating? && a.order == b.order)
  }

  /** Two states that differ in the form of a create request at most. */
  ghost predicate SameSystem(n: System, t: System) {
    && n.orders == t.orders && n.drawn == t.drawn && n.ledger == t.ledger
    && n.calls.Keys == t.calls.Keys && forall d :: d in t.calls ==> SameCall(n.calls[d], t.calls[d])
  }

  lemma CreateBeginsAlike(env: Env, s: System, c: CallId, create: CreateOrderRequest, chance: Chance)
    ensures SameSystem(BeginCreate(env, s, c, NormCreate(create), chance.reachable, chance.newId, chance.now),
                       BeginCreate(env, s, c, create, chance.reachable, chance.newId, chance.now))
  {
    hide StartCreate, NormCreate, NewOrder;
    NormalisedIsSlotted(create);
    NormalisedStartsAlike(env, create, chance.reachable);
  }

  /** Beginning a call on the normal form of a request is beginning it on the request. */
  lemma BeginsAlike(env: Env, s: System, c: CallId, r: Request, chance: Chance)
    requires Sound(env) && Enabled(s, BeginEvent(c, r, chance))
    ensures Enabled(s, BeginEvent(c, NormRequest(r), chance))
    ensures SameSystem(Step(env, s, BeginEvent(c, NormRequest(r), chance)), Step(env, s, BeginEvent(c, r, chance)))
  {
    hide BeginCreate, PayEntry, CancelEntry, HandleGet, NormCreate, Lawful, Keyed;
    if r.CreateRequest? {
      CreateBeginsAlike(env, s, c, r.create, chance);
    }
  }

  /**
   In every run, whatever is interleaved: a call begun on the request that the server read for a valid request is, from
   then on, serving the operation that was meant, and when it has its reply the client is told that reply, normalised.
   */
  lemma InterleavedCallsAreTransparent(site: Site, env: Env, ss: seq<System>, es: seq<Event>, b: nat, k: nat,
                                       r: Request, read: Request, chance: Chance, raw: string)
    requires SiteLawful(site) && CarriedAsSent(site, Send(site, r, raw)) && IsRun(env, ss, es) && b < k <= |es|
    requires Receive(site, Send(site, r, raw)) == Ok(read) && es[b] == BeginEvent(es[b].c, read, chance)
    ensures read == NormRequest(r) && es[b].c in ss[k].calls
    ensures ReplyOf(ss[k].calls[es[b].c]).Some? ==>
              var reply := ReplyOf(ss[k].calls[es[b].c]).value;
              && OpOf(reply) == OperationOf(r) && EncodeReply(site.leaves, reply).Some?
              && DecodeReply(site.leaves, OperationOf(r), EncodeReply(site.leaves, reply).value) ==
                 Ok(NormReply(site.leaves, reply))
  {
    hide Send, Receive, EncodeReply, DecodeReply, LeavesLawful, PlainTextStays, Step, Enabled, Keyed, Lawful, Inv;
    hide NormReply, NormCreate;
    RequestsArriveIntact(site, r, raw);
    ServesToTheEnd(env, ss, es, b, k, read, chance);
    ReachableIsOk(env, ss, es, k);
    var c := es[b].c;
    if ReplyOf(ss[k].calls[c]).Some? {
      FinishedIsCoherent(env, ss[k], c);
      ReplyRoundTrip(site.leaves, ReplyOf(ss[k].calls[c]).value);
    }
  }
}
