/** The remaining schemas: requests, small responses and the error body. */
module RequestJson {
  import opened Base
  import opened Uuids
  import opened OrderTypes
  import opened RequiredFields
  import opened JsonObject
  import opened OrderJson

  lemma SmallMasks(f: nat)
    ensures Required([0x03], f) <==> f < 2
    ensures Required([0x01], f) <==> f < 1
  {
    if f < 8 {
      assert f / 8 == 0 && f % 8 == f;
    }
  }

  lemma PairIsWellFormed<T>(sc: Schema<T>)
    requires |sc.names| == 2 && |sc.names[0]| != |sc.names[1]| && sc.masks == [0x03]
    ensures WellFormed(sc)
  {
    hide Required;
    forall f: nat ensures Required(sc.masks, f) ==> f < 2 { SmallMasks(f); }
  }

  // ---- CreateOrderRequest ----

  const CREATE_REQUEST_NAMES: seq<string> := ["hull_uuid", "engine_uuid", "shield_uuid", "weapon_uuid"]

  const ZERO_CREATE_REQUEST: CreateOrderRequest :=
    CreateOrderRequest(NIL, NIL, OptNil(NIL, false, false), OptNil(NIL, false, false))

  function CreateDecodes(l: Leaves, i: nat, v: Scalar): bool {
    if i < 2 then IsUuid(l, v) else i < 4 && (v.Null? || IsUuid(l, v))
  }

  function CreatePut(l: Leaves, t: CreateOrderRequest, i: nat, v: Scalar): CreateOrderRequest {
    match i
    case 0 => t.(hullUUID := UuidOf(l, v))
    case 1 => t.(engineUUID := UuidOf(l, v))
    case 2 => t.(shieldUUID := OptUuidOf(l, v))
    case 3 => t.(weaponUUID := OptUuidOf(l, v))
    case _ => t
  }

  function CreateGet(l: Leaves, t: CreateOrderRequest, i: nat): Option<Scalar> {
    match i
    case 0 => Some(PrintUuid(l, t.hullUUID))
    case 1 => Some(PrintUuid(l, t.engineUUID))
    case 2 => PrintOptUuid(l, t.shieldUUID)
    case 3 => PrintOptUuid(l, t.weaponUUID)
    case _ => None
  }

  function CreateSchema(l: Leaves): Schema<CreateOrderRequest> {
    Schema(CREATE_REQUEST_NAMES, [0x03],
           (i: nat, v) => CreateDecodes(l, i, v), (t, i: nat, v) => CreatePut(l, t, i, v), (t, i: nat) => CreateGet(l, t, i))
  }

  function NormCreate(t: CreateOrderRequest): CreateOrderRequest {
    t.(shieldUUID := NormOpt(t.shieldUUID, NIL), weaponUUID := NormOpt(t.weaponUUID, NIL))
  }

  method EncodeCreate(l: Leaves, t: CreateOrderRequest) returns (e: seq<Member>)
    ensures e == EncodeOf(CreateSchema(l), t, 4)
  {
    hide PrintUuid;
    ghost var sc := CreateSchema(l);
    e := [Member("hull_uuid", PrintUuid(l, t.hullUUID))];
    assert e == EncodeOf(sc, t, 1);
    e := e + [Member("engine_uuid", PrintUuid(l, t.engineUUID))];
    assert e == EncodeOf(sc, t, 2);
    if t.shieldUUID.isSet {
      e := e + [Member("shield_uuid", EncodeOptUuid(l, t.shieldUUID))];
    }
    assert e == EncodeOf(sc, t, 3);
    if t.weaponUUID.isSet {
      e := e + [Member("weapon_uuid", EncodeOptUuid(l, t.weaponUUID))];
    }
  }

  lemma CreateSchemaIsWellFormed(l: Leaves)
    ensures WellFormed(CreateSchema(l))
  {
    var n := CREATE_REQUEST_NAMES;
    assert n[0][0] == 'h' && n[1][0] == 'e' && n[2][0] == 's' && n[3][0] == 'w';
    hide Required;
    forall f: nat { SmallMasks(f); }
  }

  lemma CreateFieldsAreIndependent(l: Leaves)
    ensures Independent(CreateSchema(l))
  {
    hide UuidOf, OptUuidOf;
    var sc := CreateSchema(l);
    forall t, i: nat, v, w ensures Overwrites(sc, t, i, v, w) {}
    forall t, i: nat, v, j: nat, w | i != j ensures Commutes(sc, t, i, v, j, w) {}
  }

  /** A create request decodes if and only if its known members do and hull and engine occur, to the last values. */
  lemma CreateDecodesToLastValues(l: Leaves, members: seq<Member>)
    ensures DecodeOf(CreateSchema(l), ZERO_CREATE_REQUEST, members).Ok? <==>
            AllDecode(CreateSchema(l), members) && Occurs(members, "hull_uuid") && Occurs(members, "engine_uuid")
    ensures DecodeOf(CreateSchema(l), ZERO_CREATE_REQUEST, members).Ok? ==>
            DecodeOf(CreateSchema(l), ZERO_CREATE_REQUEST, members) ==
            Ok(CreateOrderRequest(
                 FieldOf(members, "hull_uuid", NIL, (v: Scalar) => UuidOf(l, v)),
                 FieldOf(members, "engine_uuid", NIL, (v: Scalar) => UuidOf(l, v)),
                 FieldOf(members, "shield_uuid", OptNil(NIL, false, false), (v: Scalar) => OptUuidOf(l, v)),
                 FieldOf(members, "weapon_uuid", OptNil(NIL, false, false), (v: Scalar) => OptUuidOf(l, v))))
  {
    hide DecodeOf, AllDecode, Independent, WellFormed, Occurs, Required, UuidOf, OptUuidOf, Last;
    var sc := CreateSchema(l);
    CreateSchemaIsWellFormed(l);
    CreateFieldsAreIndependent(l);
    DecodesExactlyWhen(sc, ZERO_CREATE_REQUEST, members);
    var n := CREATE_REQUEST_NAMES;
    assert n[0] == "hull_uuid" && n[1] == "engine_uuid" && n[2] == "shield_uuid" && n[3] == "weapon_uuid";
    assert RequiredOccur(sc, members) <==> Occurs(members, n[0]) && Occurs(members, n[1]) by {
      forall f: nat { SmallMasks(f); }
      assert Required(sc.masks, 0) && Required(sc.masks, 1);
    }
    if DecodeOf(sc, ZERO_CREATE_REQUEST, members).Ok? {
      DecodeYieldsLast(sc, ZERO_CREATE_REQUEST, members);
      assert FromLast(sc, ZERO_CREATE_REQUEST, members, 1) == ZERO_CREATE_REQUEST.(
               hullUUID := FieldOf(members, "hull_uuid", NIL, (v: Scalar) => UuidOf(l, v)));
      assert FromLast(sc, ZERO_CREATE_REQUEST, members, 3) == FromLast(sc, ZERO_CREATE_REQUEST, members, 1).(
               engineUUID := FieldOf(members, "engine_uuid", NIL, (v: Scalar) => UuidOf(l, v)),
               shieldUUID := FieldOf(members, "shield_uuid", OptNil(NIL, false, false), (v: Scalar) => OptUuidOf(l, v)));
    }
  }

  /** Normalising a create request changes nothing of it but what unset and null fields hide. */
  lemma NormKeepsTheRequest(t: CreateOrderRequest)
    ensures var n := NormCreate(t);
      && n.hullUUID == t.hullUUID && n.engineUUID == t.engineUUID
      && SameForm(n.shieldUUID, t.shieldUUID) && SameForm(n.weaponUUID, t.weaponUUID)
  {}

  lemma CreateLeavesSurvive(l: Leaves, t: CreateOrderRequest)
    requires LeavesLawful(l)
    ensures forall i: nat :: i < 4 && CreateGet(l, t, i).Some? ==> CreateDecodes(l, i, CreateGet(l, t, i).value)
    ensures forall u: Uuid :: UuidOf(l, PrintUuid(l, u)) == u
    ensures forall o :: (PrintOptUuid(l, o).None? <==> !o.isSet)
                     && (PrintOptUuid(l, o).Some? ==> OptUuidOf(l, PrintOptUuid(l, o).value) == NormOpt(o, NIL))
  {
    hide LeavesLawful, UuidOf, OptUuidOf, PrintUuid, PrintOptUuid, IsUuid, NormOpt;
    forall u { UuidSurvives(l, u); }
    forall o { OptUuidSurvives(l, o); }
  }

  lemma CreateRereadIsNorm(l: Leaves, t: CreateOrderRequest)
    requires LeavesLawful(l)
    ensures Reread(CreateSchema(l), ZERO_CREATE_REQUEST, t, 4) == NormCreate(t)
  {
    CreateLeavesSurvive(l, t);
    hide LeavesLawful, UuidOf, OptUuidOf, PrintUuid, PrintOptUuid, CreateDecodes, NormOpt;
    assert Reread(CreateSchema(l), ZERO_CREATE_REQUEST, t, 2) ==
           ZERO_CREATE_REQUEST.(hullUUID := t.hullUUID, engineUUID := t.engineUUID);
  }

  /** For every create request, decoding what was encoded gives it back with its optional fields normalised. */
  lemma CreateRoundTrip(l: Leaves, t: CreateOrderRequest)
    requires LeavesLawful(l)
    ensures DecodeOf(CreateSchema(l), ZERO_CREATE_REQUEST, EncodeOf(CreateSchema(l), t, 4)) == Ok(NormCreate(t))
    ensures NormCreate(NormCreate(t)) == NormCreate(t)
  {
    hide DecodeOf, EncodeOf, Reread, WellFormed, LeavesLawful, Required, PrintUuid, PrintOptUuid;
    CreateSchemaIsWellFormed(l);
    CreateLeavesSurvive(l, t);
    hide CreateDecodes;
    forall f: nat { SmallMasks(f); }
    RoundTrip(CreateSchema(l), ZERO_CREATE_REQUEST, t);
    CreateRereadIsNorm(l, t);
  }

  // ---- Error ----

  const ZERO_ERROR: ErrorBody := ErrorBody(0, "")

  function ErrorDecodes(i: nat, v: Scalar): bool {
    if i == 0 then IsInt64(v) else i == 1 && v.Text?
  }

  function ErrorPut(t: ErrorBody, i: nat, v: Scalar): ErrorBody {
    if i == 0 then t.(code := Int64Of(v) as int) else if i == 1 then t.(message := StringOf(v)) else t
  }

  function ErrorGet(t: ErrorBody, i: nat): Option<Scalar> {
    if i == 0 then Some(Number(t.code)) else if i == 1 then Some(Text(t.message)) else None
  }

  function ErrorSchema(): Schema<ErrorBody> {
    Schema(["code", "message"], [0x03],
           (i: nat, v) => ErrorDecodes(i, v), (t, i: nat, v) => ErrorPut(t, i, v), (t, i: nat) => ErrorGet(t, i))
  }

  lemma ErrorRoundTrip(t: ErrorBody)
    requires FitsInt64(t.code)
    ensures DecodeOf(ErrorSchema(), ZERO_ERROR, EncodeOf(ErrorSchema(), t, 2)) == Ok(t)
  {
    hide DecodeOf, EncodeOf, Required, WellFormed, Reread;
    PairIsWellFormed(ErrorSchema());
    forall f: nat { SmallMasks(f); }
    RoundTrip(ErrorSchema(), ZERO_ERROR, t);
    ErrorReread(t);
  }

  lemma ErrorReread(t: ErrorBody)
    requires FitsInt64(t.code)
    ensures Reread(ErrorSchema(), ZERO_ERROR, t, 2) == t
  {
    assert Reread(ErrorSchema(), ZERO_ERROR, t, 1) == ErrorBody(t.code, "");
  }

  // ---- CreateOrderResponse, PayOrderRequest, PayOrderResponse, CancelOrderResponse ----

  const ZERO_CREATED: CreateOrderResponse := CreateOrderResponse(NIL, 0)

  function CreatedDecodes(l: Leaves, i: nat, v: Scalar): bool {
    if i == 0 then IsUuid(l, v) else i == 1 && IsInt64(v)
  }

  function CreatedPut(l: Leaves, t: CreateOrderResponse, i: nat, v: Scalar): CreateOrderResponse {
    if i == 0 then t.(orderUUID := UuidOf(l, v)) else if i == 1 then t.(totalPrice := Int64Of(v)) else t
  }

  function CreatedGet(l: Leaves, t: CreateOrderResponse, i: nat): Option<Scalar> {
    if i == 0 then Some(PrintUuid(l, t.orderUUID))
    else if i == 1 then Some(Number(t.totalPrice as int)) else None
  }

  function CreatedSchema(l: Leaves): Schema<CreateOrderResponse> {
    Schema(["order_uuid", "total_price"], [0x03],
           (i: nat, v) => CreatedDecodes(l, i, v), (t, i: nat, v) => CreatedPut(l, t, i, v),
           (t, i: nat) => CreatedGet(l, t, i))
  }

  lemma CreatedRoundTrip(l: Leaves, t: CreateOrderResponse)
    requires LeavesLawful(l)
    ensures DecodeOf(CreatedSchema(l), ZERO_CREATED, EncodeOf(CreatedSchema(l), t, 2)) == Ok(t)
  {
    hide DecodeOf, EncodeOf, Required, WellFormed, LeavesLawful, UuidOf, PrintUuid, IsUuid, Reread;
    PairIsWellFormed(CreatedSchema(l));
    UuidSurvives(l, t.orderUUID);
    forall f: nat { SmallMasks(f); }
    RoundTrip(CreatedSchema(l), ZERO_CREATED, t);
    CreatedReread(l, t);
  }

  lemma CreatedReread(l: Leaves, t: CreateOrderResponse)
    requires LeavesLawful(l)
    ensures Reread(CreatedSchema(l), ZERO_CREATED, t, 2) == t
  {
    UuidSurvives(l, t.orderUUID);
    hide LeavesLawful, UuidOf, PrintUuid, IsUuid;
    assert Reread(CreatedSchema(l), ZERO_CREATED, t, 1) == CreateOrderResponse(t.orderUUID, 0);
  }

  const ZERO_PAY: PayOrderRequest := PayOrderRequest(NO_METHOD)

  function PaySchema(): Schema<PayOrderRequest> {
    Schema(["payment_method"], [0x01],
           (i: nat, v: Scalar) => i == 0 && v.Text?,
           (t: PayOrderRequest, i: nat, v) => if i == 0 then PayOrderRequest(MethodOf(StringOf(v))) else t,
           (t: PayOrderRequest, i: nat) => if i == 0 then Some(Text(MethodText(t.paymentMethod))) else None)
  }

  lemma PayRoundTrip(t: PayOrderRequest)
    ensures DecodeOf(PaySchema(), ZERO_PAY, EncodeOf(PaySchema(), t, 1)) == Ok(t)
  {
    MethodTextRoundTrip(t.paymentMethod);
    hide DecodeOf, EncodeOf, Required, MethodOf, MethodText;
    forall f: nat { SmallMasks(f); }
    RoundTrip(PaySchema(), ZERO_PAY, t);
  }

  const ZERO_PAID: PayOrderResponse := PayOrderResponse(NIL)

  function PaidSchema(l: Leaves): Schema<PayOrderResponse> {
    Schema(["transaction_uuid"], [0x01],
           (i: nat, v) => i == 0 && IsUuid(l, v),
           (t: PayOrderResponse, i: nat, v) => if i == 0 then PayOrderResponse(UuidOf(l, v)) else t,
           (t: PayOrderResponse, i: nat) => if i == 0 then Some(PrintUuid(l, t.transactionUUID)) else None)
  }

  lemma PaidRoundTrip(l: Leaves, t: PayOrderResponse)
    requires LeavesLawful(l)
    ensures DecodeOf(PaidSchema(l), ZERO_PAID, EncodeOf(PaidSchema(l), t, 1)) == Ok(t)
  {
    UuidSurvives(l, t.transactionUUID);
    hide DecodeOf, EncodeOf, Required, LeavesLawful, UuidOf, PrintUuid, IsUuid;
    forall f: nat { SmallMasks(f); }
    RoundTrip(PaidSchema(l), ZERO_PAID, t);
  }

  function CancelSchema(): Schema<CancelOrderResponse> {
    Schema([], [], (i: nat, v) => false, (t, i: nat, v) => t, (t, i: nat) => None)
  }

  // ---- The wire's names and values, written out ----

  lemma FirstOfTwo(a: string, b: string)
    requires |a| != |b|
    ensures forall key :: IndexOf([a, b], key) == if key == a then Some(0) else if key == b then Some(1) else None
    ensures forall key :: IndexOf([a], key) == if key == a then Some(0) else None
  {
    assert [a, b][..1] == [a] && [a][..0] == [];
  }

  /** The members of a create request: texts of UUIDs, the last two also null. */
  lemma CreateMembersDecodeExactlyWhen(l: Leaves, v: Scalar)
    ensures forall key :: key in {"hull_uuid", "engine_uuid"} ==>
              (MemberDecodes(CreateSchema(l), Member(key, v)) <==> v.Text? && l.uuid.parse(v.s).Some?)
    ensures forall key :: key in {"shield_uuid", "weapon_uuid"} ==>
              (MemberDecodes(CreateSchema(l), Member(key, v)) <==> v.Null? || (v.Text? && l.uuid.parse(v.s).Some?))
    ensures forall key :: key !in CREATE_REQUEST_NAMES ==> MemberDecodes(CreateSchema(l), Member(key, v))
  {
    CreateSchemaIsWellFormed(l);
    hide Distinct, Required;
    forall key, i: nat { IndexIsExact(CREATE_REQUEST_NAMES, key, i); }
    hide IndexOf;
    var n := CREATE_REQUEST_NAMES;
    assert n[0] == "hull_uuid" && n[1] == "engine_uuid" && n[2] == "shield_uuid" && n[3] == "weapon_uuid";
  }

  /** An error on the wire. */
  lemma ErrorOnTheWire(t: ErrorBody, v: Scalar, members: seq<Member>)
    ensures EncodeOf(ErrorSchema(), t, 2) == [Member("code", Number(t.code)), Member("message", Text(t.message))]
    ensures MemberDecodes(ErrorSchema(), Member("code", v)) <==>
            v.Number? && -0x8000_0000_0000_0000 <= v.n < 0x8000_0000_0000_0000
    ensures MemberDecodes(ErrorSchema(), Member("message", v)) <==> v.Text?
    ensures DecodeOf(ErrorSchema(), ZERO_ERROR, members).Ok? <==>
            AllDecode(ErrorSchema(), members) && Occurs(members, "code") && Occurs(members, "message")
  {
    var sc := ErrorSchema();
    EncodeOfTwo(sc, t);
    FirstOfTwo("code", "message");
    PairNeedsBoth(sc, ZERO_ERROR, members);
    hide EncodeOf, DecodeOf, AllDecode, Occurs;
  }

  /** The answer to a create on the wire. */
  lemma CreatedOnTheWire(l: Leaves, t: CreateOrderResponse, v: Scalar, members: seq<Member>)
    ensures EncodeOf(CreatedSchema(l), t, 2) ==
            [Member("order_uuid", Text(l.uuid.format(t.orderUUID))), Member("total_price", Number(t.totalPrice as int))]
    ensures MemberDecodes(CreatedSchema(l), Member("order_uuid", v)) <==> v.Text? && l.uuid.parse(v.s).Some?
    ensures MemberDecodes(CreatedSchema(l), Member("total_price", v)) <==>
            v.Number? && -0x8000_0000_0000_0000 <= v.n < 0x8000_0000_0000_0000
    ensures DecodeOf(CreatedSchema(l), ZERO_CREATED, members).Ok? <==>
            AllDecode(CreatedSchema(l), members) && Occurs(members, "order_uuid") && Occurs(members, "total_price")
  {
    var sc := CreatedSchema(l);
    EncodeOfTwo(sc, t);
    FirstOfTwo("order_uuid", "total_price");
    PairNeedsBoth(sc, ZERO_CREATED, members);
    hide EncodeOf, DecodeOf, AllDecode, Occurs;
  }

  lemma EncodeOfTwo<T>(sc: Schema<T>, t: T)
    requires |sc.names| == 2 && sc.get(t, 0).Some? && sc.get(t, 1).Some?
    ensures EncodeOf(sc, t, 2) == [Member(sc.names[0], sc.get(t, 0).value), Member(sc.names[1], sc.get(t, 1).value)]
  {
    assert EncodeOf(sc, t, 1) == [Member(sc.names[0], sc.get(t, 0).value)];
  }

  lemma PairNeedsBoth<T>(sc: Schema<T>, zero: T, members: seq<Member>)
    requires |sc.names| == 2 && |sc.names[0]| != |sc.names[1]| && sc.masks == [0x03]
    ensures DecodeOf(sc, zero, members).Ok? <==>
            AllDecode(sc, members) && Occurs(members, sc.names[0]) && Occurs(members, sc.names[1])
  {
    PairIsWellFormed(sc);
    hide Required, DecodeOf, AllDecode, Occurs, WellFormed;
    forall f: nat { SmallMasks(f); }
    DecodesExactlyWhen(sc, zero, members);
    assert Required(sc.masks, 0) && Required(sc.masks, 1);
  }

  lemma OneNeedsIt<T>(sc: Schema<T>, zero: T, members: seq<Member>)
    requires |sc.names| == 1 && sc.masks == [0x01]
    ensures DecodeOf(sc, zero, members).Ok? <==> AllDecode(sc, members) && Occurs(members, sc.names[0])
  {
    hide Required, DecodeOf, AllDecode, Occurs;
    forall f: nat { SmallMasks(f); }
    DecodesExactlyWhen(sc, zero, members);
    assert Required(sc.masks, 0);
  }

  /** A pay request on the wire; any text is read, a known method or not. */
  lemma PayOnTheWire(t: PayOrderRequest, v: Scalar, members: seq<Member>)
    ensures EncodeOf(PaySchema(), t, 1) == [Member("payment_method", Text(MethodText(t.paymentMethod)))]
    ensures MemberDecodes(PaySchema(), Member("payment_method", v)) <==> v.Text?
    ensures DecodeOf(PaySchema(), ZERO_PAY, members).Ok? <==> AllDecode(PaySchema(), members) && Occurs(members, "payment_method")
  {
    FirstOfTwo("payment_method", "");
    OneNeedsIt(PaySchema(), ZERO_PAY, members);
    hide DecodeOf, AllDecode, Occurs, MethodText, MethodOf;
  }

  /** The answer to a pay on the wire. */
  lemma PaidOnTheWire(l: Leaves, t: PayOrderResponse, v: Scalar, members: seq<Member>)
    ensures EncodeOf(PaidSchema(l), t, 1) == [Member("transaction_uuid", Text(l.uuid.format(t.transactionUUID)))]
    ensures MemberDecodes(PaidSchema(l), Member("transaction_uuid", v)) <==> v.Text? && l.uuid.parse(v.s).Some?
    ensures DecodeOf(PaidSchema(l), ZERO_PAID, members).Ok? <==>
            AllDecode(PaidSchema(l), members) && Occurs(members, "transaction_uuid")
  {
    FirstOfTwo("transaction_uuid", "");
    OneNeedsIt(PaidSchema(l), ZERO_PAID, members);
    hide DecodeOf, AllDecode, Occurs;
  }
}
