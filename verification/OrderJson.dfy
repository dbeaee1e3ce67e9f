/** The schemas of the order API, and what printing and reading back preserves. */
module OrderJson {
  import opened Base
  import opened Uuids
  import opened OrderTypes
  import opened RequiredFields
  import opened JsonObject

  /** How the date-time library prints and reads an instant; `norm` is what survives, for it may drop precision. */
  datatype TimeText = TimeText(format: int -> string, parse: string -> Option<int>, norm: int -> int)

  datatype Leaves = Leaves(uuid: UuidText, time: TimeText)

  ghost predicate LeavesLawful(l: Leaves) {
    Lawful(l.uuid) && forall x :: TimeSurvives(l.time, x)
  }

  /** An instant is read back as its normal form, which prints the same. */
  predicate TimeSurvives(t: TimeText, x: int) {
    t.parse(t.format(x)) == Some(t.norm(x)) && t.format(t.norm(x)) == t.format(x)
  }

  lemma NormOfNorm(l: Leaves, x: int)
    requires LeavesLawful(l)
    ensures l.time.norm(l.time.norm(x)) == l.time.norm(x)
  {
    assert TimeSurvives(l.time, x) && TimeSurvives(l.time, l.time.norm(x));
  }

  // ---- Leaves ----

  predicate IsUuid(l: Leaves, v: Scalar) {
    v.Text? && l.uuid.parse(v.s).Some?
  }

  function UuidOf(l: Leaves, v: Scalar): Uuid {
    if IsUuid(l, v) then l.uuid.parse(v.s).value else NIL
  }

  predicate IsTime(l: Leaves, v: Scalar) {
    v.Text? && l.time.parse(v.s).Some?
  }

  function TimeOf(l: Leaves, v: Scalar): int {
    if IsTime(l, v) then l.time.parse(v.s).value else 0
  }

  predicate IsInt64(v: Scalar) {
    v.Number? && FitsInt64(v.n)
  }

  function Int64Of(v: Scalar): int64 {
    if IsInt64(v) then v.n as int64 else 0
  }

  function StringOf(v: Scalar): string {
    if v.Text? then v.s else ""
  }

  function OptUuidOf(l: Leaves, v: Scalar): OptNil<Uuid> {
    if v.Null? then OptNil(NIL, true, true) else OptNil(UuidOf(l, v), true, false)
  }

  function OptMethodOf(v: Scalar): OptNil<PaymentMethod> {
    if v.Null? then OptNil(NO_METHOD, true, true) else OptNil(MethodOf(StringOf(v)), true, false)
  }

  function PrintUuid(l: Leaves, u: Uuid): Scalar {
    Text(l.uuid.format(u))
  }

  /** An unset field is not printed, a null one as null, whatever value they hide. */
  function PrintOpt<T>(o: OptNil<T>, print_: T -> Scalar): Option<Scalar> {
    if !o.isSet then None else if o.isNull then Some(Null) else Some(print_(o.value))
  }

  function PrintOptUuid(l: Leaves, o: OptNil<Uuid>): Option<Scalar> {
    PrintOpt(o, (u: Uuid) => PrintUuid(l, u))
  }

  function PrintOptMethod(o: OptNil<PaymentMethod>): Option<Scalar> {
    PrintOpt(o, (m: PaymentMethod) => Text(MethodText(m)))
  }

  /** What the wire keeps of an optional field: the flags' meaning, and the value only where it counts. */
  function NormOpt<T>(o: OptNil<T>, zero: T): OptNil<T> {
    if !o.isSet then OptNil(zero, false, false) else if o.isNull then OptNil(zero, true, true) else o
  }

  // ---- OrderDto ----

  const ORDER_DTO_NAMES: seq<string> := [
    "order_uuid", "hull_uuid", "engine_uuid", "shield_uuid", "weapon_uuid",
    "total_price", "transaction_uuid", "payment_method", "status", "created_at"]

  const ZERO_DTO: OrderDto := OrderDto(
    NIL, NIL, NIL, OptNil(NIL, false, false), OptNil(NIL, false, false), 0,
    OptNil(NIL, false, false), OptNil(NO_METHOD, false, false), NO_STATUS, 0)

  function DtoDecodes(l: Leaves, i: nat, v: Scalar): bool {
    match i
    case 0 => IsUuid(l, v)
    case 1 => IsUuid(l, v)
    case 2 => IsUuid(l, v)
    case 3 => v.Null? || IsUuid(l, v)
    case 4 => v.Null? || IsUuid(l, v)
    case 5 => IsInt64(v)
    case 6 => v.Null? || IsUuid(l, v)
    case 7 => v.Null? || v.Text?
    case 8 => v.Text?
    case 9 => IsTime(l, v)
    case _ => false
  }

  function DtoPut(l: Leaves, t: OrderDto, i: nat, v: Scalar): OrderDto {
    match i
    case 0 => t.(orderUUID := UuidOf(l, v))
    case 1 => t.(hullUUID := UuidOf(l, v))
    case 2 => t.(engineUUID := UuidOf(l, v))
    case 3 => t.(shieldUUID := OptUuidOf(l, v))
    case 4 => t.(weaponUUID := OptUuidOf(l, v))
    case 5 => t.(totalPrice := Int64Of(v))
    case 6 => t.(transactionUUID := OptUuidOf(l, v))
    case 7 => t.(paymentMethod := OptMethodOf(v))
    case 8 => t.(status := StatusOf(StringOf(v)))
    case 9 => t.(createdAt := TimeOf(l, v))
    case _ => t
  }

  function DtoGet(l: Leaves, t: OrderDto, i: nat): Option<Scalar> {
    match i
    case 0 => Some(PrintUuid(l, t.orderUUID))
    case 1 => Some(PrintUuid(l, t.hullUUID))
    case 2 => Some(PrintUuid(l, t.engineUUID))
    case 3 => PrintOptUuid(l, t.shieldUUID)
    case 4 => PrintOptUuid(l, t.weaponUUID)
    case 5 => Some(Number(t.totalPrice as int))
    case 6 => PrintOptUuid(l, t.transactionUUID)
    case 7 => PrintOptMethod(t.paymentMethod)
    case 8 => Some(Text(StatusText(t.status)))
    case 9 => Some(Text(l.time.format(t.createdAt)))
    case _ => None
  }

  function DtoSchema(l: Leaves): Schema<OrderDto> {
    Schema(ORDER_DTO_NAMES, [0x27, 0x03],
           (i: nat, v) => DtoDecodes(l, i, v), (t, i: nat, v) => DtoPut(l, t, i, v), (t, i: nat) => DtoGet(l, t, i))
  }

  function NormDto(l: Leaves, t: OrderDto): OrderDto {
    t.(shieldUUID := NormOpt(t.shieldUUID, NIL), weaponUUID := NormOpt(t.weaponUUID, NIL),
       transactionUUID := NormOpt(t.transactionUUID, NIL), paymentMethod := NormOpt(t.paymentMethod, NO_METHOD),
       createdAt := l.time.norm(t.createdAt))
  }

  /** The printer: appends one field after the other, the optional ones only when they are set. */
  method EncodeDto(l: Leaves, t: OrderDto) returns (e: seq<Member>)
    ensures e == EncodeOf(DtoSchema(l), t, 10)
  {
    hide PrintUuid, StatusText, MethodText;
    ghost var sc := DtoSchema(l);
    e := [Member("order_uuid", PrintUuid(l, t.orderUUID))];
    assert e == EncodeOf(sc, t, 1);
    e := e + [Member("hull_uuid", PrintUuid(l, t.hullUUID))];
    assert e == EncodeOf(sc, t, 2);
    e := e + [Member("engine_uuid", PrintUuid(l, t.engineUUID))];
    assert e == EncodeOf(sc, t, 3);
    if t.shieldUUID.isSet {
      e := e + [Member("shield_uuid", EncodeOptUuid(l, t.shieldUUID))];
    }
    assert e == EncodeOf(sc, t, 4);
    if t.weaponUUID.isSet {
      e := e + [Member("weapon_uuid", EncodeOptUuid(l, t.weaponUUID))];
    }
    assert e == EncodeOf(sc, t, 5);
    e := e + [Member("total_price", Number(t.totalPrice as int))];
    assert e == EncodeOf(sc, t, 6);
    if t.transactionUUID.isSet {
      e := e + [Member("transaction_uuid", EncodeOptUuid(l, t.transactionUUID))];
    }
    assert e == EncodeOf(sc, t, 7);
    if t.paymentMethod.isSet {
      e := e + [Member("payment_method", if t.paymentMethod.isNull then Null else Text(MethodText(t.paymentMethod.value)))];
    }
    assert e == EncodeOf(sc, t, 8);
    e := e + [Member("status", Text(StatusText(t.status)))];
    assert e == EncodeOf(sc, t, 9);
    e := e + [Member("created_at", Text(l.time.format(t.createdAt)))];
  }

  /** The value printed for an optional UUID that is set. */
  function EncodeOptUuid(l: Leaves, o: OptNil<Uuid>): Scalar
    requires o.isSet
  {
    if o.isNull then Null else PrintUuid(l, o.value)
  }

  lemma DtoMasks(f: nat)
    ensures Required([0x27, 0x03], f) <==> f in [0, 1, 2, 5, 8, 9]
  {
    if f < 16 {
      assert f / 8 == (if f < 8 then 0 else 1) && f % 8 == (if f < 8 then f else f - 8);
    }
  }

  /** Length and first letter tell the ten names apart. */
  lemma DtoNamesDiffer()
    ensures Distinct(ORDER_DTO_NAMES)
  {
    var n := ORDER_DTO_NAMES;
    assert n[0][0] == 'o' && n[1][0] == 'h' && n[2][0] == 'e' && n[3][0] == 's' && n[4][0] == 'w';
    assert n[5][0] == 't' && n[6][0] == 't' && n[7][0] == 'p' && n[8][0] == 's' && n[9][0] == 'c';
    assert |n[3]| == 11 && |n[8]| == 6 && |n[5]| == 11 && |n[6]| == 16;
  }

  lemma DtoSchemaIsWellFormed(l: Leaves)
    ensures WellFormed(DtoSchema(l))
  {
    DtoNamesDiffer();
    hide Required, Distinct;
    forall f: nat ensures Required(DtoSchema(l).masks, f) ==> f < 10 {
      DtoMasks(f);
    }
  }

  lemma DtoFieldsAreIndependent(l: Leaves)
    ensures Independent(DtoSchema(l))
  {
    hide UuidOf, OptUuidOf, Int64Of, OptMethodOf, StatusOf, StringOf, TimeOf;
    var sc := DtoSchema(l);
    forall t, i: nat, v, w ensures Overwrites(sc, t, i, v, w) {}
    forall t, i: nat, v, j: nat, w | i != j ensures Commutes(sc, t, i, v, j, w) {}
  }

  /** A field as the last value of its key gives it, or its zero value when the key does not occur. */
  function FieldOf<T>(members: seq<Member>, key: string, zero: T, read: Scalar -> T): T {
    match Last(members, key) case None => zero case Some(v) => read(v)
  }

  function LastDto(l: Leaves, members: seq<Member>): OrderDto {
    var uuid := (v: Scalar) => UuidOf(l, v);
    var optUuid := (v: Scalar) => OptUuidOf(l, v);
    OrderDto(
      FieldOf(members, "order_uuid", NIL, uuid),
      FieldOf(members, "hull_uuid", NIL, uuid),
      FieldOf(members, "engine_uuid", NIL, uuid),
      FieldOf(members, "shield_uuid", OptNil(NIL, false, false), optUuid),
      FieldOf(members, "weapon_uuid", OptNil(NIL, false, false), optUuid),
      FieldOf(members, "total_price", 0 as int64, Int64Of),
      FieldOf(members, "transaction_uuid", OptNil(NIL, false, false), optUuid),
      FieldOf(members, "payment_method", OptNil(NO_METHOD, false, false), OptMethodOf),
      FieldOf(members, "status", NO_STATUS, v => StatusOf(StringOf(v))),
      FieldOf(members, "created_at", 0, (v: Scalar) => TimeOf(l, v)))
  }

  lemma LastDtoByFields(l: Leaves, members: seq<Member>)
    ensures FromLast(DtoSchema(l), ZERO_DTO, members, 10) == LastDto(l, members)
  {
    hide UuidOf, OptUuidOf, Int64Of, OptMethodOf, StatusOf, StringOf, TimeOf, Last;
    var sc := DtoSchema(l);
    var t0 := FromLast(sc, ZERO_DTO, members, 0);
    var t3 := FromLast(sc, ZERO_DTO, members, 3);
    assert FromLast(sc, ZERO_DTO, members, 2) ==
           t0.(orderUUID := LastDto(l, members).orderUUID, hullUUID := LastDto(l, members).hullUUID);
    assert FromLast(sc, ZERO_DTO, members, 4) ==
           FromLast(sc, ZERO_DTO, members, 2).(engineUUID := LastDto(l, members).engineUUID,
                                               shieldUUID := LastDto(l, members).shieldUUID);
    assert FromLast(sc, ZERO_DTO, members, 6) ==
           FromLast(sc, ZERO_DTO, members, 4).(weaponUUID := LastDto(l, members).weaponUUID,
                                               totalPrice := LastDto(l, members).totalPrice);
    assert FromLast(sc, ZERO_DTO, members, 8) ==
           FromLast(sc, ZERO_DTO, members, 6).(transactionUUID := LastDto(l, members).transactionUUID,
                                               paymentMethod := LastDto(l, members).paymentMethod);
  }

  /** An OrderDto decodes if and only if all known members decode and the required six occur, to their last values. */
  lemma DtoDecodesToLastValues(l: Leaves, members: seq<Member>)
    ensures DecodeOf(DtoSchema(l), ZERO_DTO, members).Ok? <==>
            AllDecode(DtoSchema(l), members)
            && Occurs(members, "order_uuid") && Occurs(members, "hull_uuid") && Occurs(members, "engine_uuid")
            && Occurs(members, "total_price") && Occurs(members, "status") && Occurs(members, "created_at")
    ensures DecodeOf(DtoSchema(l), ZERO_DTO, members).Ok? ==>
            DecodeOf(DtoSchema(l), ZERO_DTO, members) == Ok(LastDto(l, members))
  {
    hide DecodeOf, AllDecode, Independent, WellFormed, Occurs, Required;
    DtoSchemaIsWellFormed(l);
    DtoFieldsAreIndependent(l);
    DecodesExactlyWhen(DtoSchema(l), ZERO_DTO, members);
    assert RequiredOccur(DtoSchema(l), members) <==> forall f: nat :: f in [0, 1, 2, 5, 8, 9] ==> Occurs(members, ORDER_DTO_NAMES[f]) by {
      forall f: nat { DtoMasks(f); }
    }
    var n := ORDER_DTO_NAMES;
    assert n[0] == "order_uuid" && n[1] == "hull_uuid" && n[2] == "engine_uuid";
    assert n[5] == "total_price" && n[8] == "status" && n[9] == "created_at";
    if DecodeOf(DtoSchema(l), ZERO_DTO, members).Ok? {
      DecodeYieldsLast(DtoSchema(l), ZERO_DTO, members);
      LastDtoByFields(l, members);
    }
  }

  lemma DtoRereadIsNorm(l: Leaves, t: OrderDto)
    requires LeavesLawful(l)
    ensures Reread(DtoSchema(l), ZERO_DTO, t, 10) == NormDto(l, t)
  {
    DtoLeavesSurvive(l, t);
    hide LeavesLawful, UuidOf, OptUuidOf, Int64Of, OptMethodOf, StatusOf, StringOf, TimeOf, IsUuid;
    hide PrintOptUuid, PrintOptMethod, PrintUuid, StatusText;
    var sc := DtoSchema(l);
    var r0 := Reread(sc, ZERO_DTO, t, 0);
    var r2 := Reread(sc, ZERO_DTO, t, 2);
    assert r2 == r0.(orderUUID := t.orderUUID, hullUUID := t.hullUUID);
    var r4 := Reread(sc, ZERO_DTO, t, 4);
    assert r4 == r2.(engineUUID := t.engineUUID, shieldUUID := NormOpt(t.shieldUUID, NIL));
    var r6 := Reread(sc, ZERO_DTO, t, 6);
    assert r6 == r4.(weaponUUID := NormOpt(t.weaponUUID, NIL), totalPrice := t.totalPrice);
    var r8 := Reread(sc, ZERO_DTO, t, 8);
    assert r8 == r6.(transactionUUID := NormOpt(t.transactionUUID, NIL),
                     paymentMethod := NormOpt(t.paymentMethod, NO_METHOD));
  }

  lemma DtoLeavesSurvive(l: Leaves, t: OrderDto)
    requires LeavesLawful(l)
    ensures forall i: nat :: i < 10 && DtoGet(l, t, i).Some? ==> DtoDecodes(l, i, DtoGet(l, t, i).value)
    ensures forall u: Uuid :: UuidOf(l, PrintUuid(l, u)) == u
    ensures forall o :: (PrintOptUuid(l, o).None? <==> !o.isSet)
                     && (PrintOptUuid(l, o).Some? ==> OptUuidOf(l, PrintOptUuid(l, o).value) == NormOpt(o, NIL))
    ensures forall o :: (PrintOptMethod(o).None? <==> !o.isSet)
                     && (PrintOptMethod(o).Some? ==> OptMethodOf(PrintOptMethod(o).value) == NormOpt(o, NO_METHOD))
    ensures StatusOf(StringOf(Text(StatusText(t.status)))) == t.status
    ensures TimeOf(l, Text(l.time.format(t.createdAt))) == l.time.norm(t.createdAt)
    ensures Int64Of(Number(t.totalPrice as int)) == t.totalPrice
  {
    StatusTextRoundTrip(t.status);
    assert TimeSurvives(l.time, t.createdAt);
    hide StatusOf, StatusText, MethodOf, MethodText, LeavesLawful;
    forall u { UuidSurvives(l, u); }
    forall o { OptUuidSurvives(l, o); }
    forall o { OptMethodSurvives(o); }
    hide PrintUuid, PrintOptUuid, PrintOptMethod, IsUuid, UuidOf, OptUuidOf, OptMethodOf, NormOpt;
  }

  /** For every OrderDto, decoding what was encoded succeeds and gives it back, optional fields and time normalised. */
  lemma DtoRoundTrip(l: Leaves, t: OrderDto)
    requires LeavesLawful(l)
    ensures DecodeOf(DtoSchema(l), ZERO_DTO, EncodeOf(DtoSchema(l), t, 10)) == Ok(NormDto(l, t))
  {
    hide DecodeOf, EncodeOf, Reread, WellFormed, LeavesLawful, NormDto;
    DtoSchemaIsWellFormed(l);
    DtoLeavesSurvive(l, t);
    hide DtoDecodes;
    forall f: nat | Required(DtoSchema(l).masks, f) ensures DtoGet(l, t, f).Some? {
      DtoMasks(f);
    }
    hide DtoGet, Required;
    RoundTrip(DtoSchema(l), ZERO_DTO, t);
    DtoRereadIsNorm(l, t);
  }

  /** The same of three: absent, null, or the same value. */
  predicate SameForm<T(==)>(a: OptNil<T>, b: OptNil<T>) {
    a.isSet == b.isSet && (a.isSet ==> a.isNull == b.isNull && (!a.isNull ==> a.value == b.value))
  }

  /** A null on the wire is read as null. */
  lemma NullIsReadAsNull(l: Leaves)
    ensures OptUuidOf(l, Null).isSet && OptUuidOf(l, Null).isNull && OptMethodOf(Null).isSet && OptMethodOf(Null).isNull
  {}

  /** Normalising an order changes nothing of it but its time and what unset and null fields hide. */
  lemma NormKeepsTheOrder(l: Leaves, t: OrderDto)
    ensures var n := NormDto(l, t);
      && n.orderUUID == t.orderUUID && n.hullUUID == t.hullUUID && n.engineUUID == t.engineUUID
      && SameForm(n.shieldUUID, t.shieldUUID) && SameForm(n.weaponUUID, t.weaponUUID)
      && n.totalPrice == t.totalPrice && n.status == t.status
      && SameForm(n.transactionUUID, t.transactionUUID) && SameForm(n.paymentMethod, t.paymentMethod)
      && n.createdAt == l.time.norm(t.createdAt)
  {}

  /** Normalising once is enough: a second trip changes nothing. */
  lemma NormDtoIsIdempotent(l: Leaves, t: OrderDto)
    requires LeavesLawful(l)
    ensures NormDto(l, NormDto(l, t)) == NormDto(l, t)
  {
    NormOfNorm(l, t.createdAt);
  }

  lemma OptUuidSurvives(l: Leaves, o: OptNil<Uuid>)
    requires LeavesLawful(l)
    ensures PrintOptUuid(l, o).None? <==> !o.isSet
    ensures PrintOptUuid(l, o).Some? ==>
              var v := PrintOptUuid(l, o).value; (v.Null? || IsUuid(l, v)) && OptUuidOf(l, v) == NormOpt(o, NIL)
  {
    assert l.uuid.parse(l.uuid.format(o.value)) == Some(o.value);
  }

  lemma OptMethodSurvives(o: OptNil<PaymentMethod>)
    ensures PrintOptMethod(o).None? <==> !o.isSet
    ensures PrintOptMethod(o).Some? ==>
              var v := PrintOptMethod(o).value; (v.Null? || v.Text?) && OptMethodOf(v) == NormOpt(o, NO_METHOD)
  {
    MethodTextRoundTrip(o.value);
  }

  lemma UuidSurvives(l: Leaves, u: Uuid)
    requires LeavesLawful(l)
    ensures IsUuid(l, PrintUuid(l, u)) && UuidOf(l, PrintUuid(l, u)) == u
  {
    assert l.uuid.parse(l.uuid.format(u)) == Some(u);
  }

  // ---- The wire's names and values, written out ----

  /** Which value a member of an order may have: unknown members any, the others one of their type, or null if optional. */
  lemma DtoMembersDecodeExactlyWhen(l: Leaves, v: Scalar)
    ensures forall key :: key in {"order_uuid", "hull_uuid", "engine_uuid"} ==>
              (MemberDecodes(DtoSchema(l), Member(key, v)) <==> v.Text? && l.uuid.parse(v.s).Some?)
    ensures forall key :: key in {"shield_uuid", "weapon_uuid", "transaction_uuid"} ==>
              (MemberDecodes(DtoSchema(l), Member(key, v)) <==> v.Null? || (v.Text? && l.uuid.parse(v.s).Some?))
    ensures MemberDecodes(DtoSchema(l), Member("total_price", v)) <==>
            v.Number? && -0x8000_0000_0000_0000 <= v.n < 0x8000_0000_0000_0000
    ensures MemberDecodes(DtoSchema(l), Member("payment_method", v)) <==> v.Null? || v.Text?
    ensures MemberDecodes(DtoSchema(l), Member("status", v)) <==> v.Text?
    ensures MemberDecodes(DtoSchema(l), Member("created_at", v)) <==> v.Text? && l.time.parse(v.s).Some?
    ensures forall key :: key !in ORDER_DTO_NAMES ==> MemberDecodes(DtoSchema(l), Member(key, v))
  {
    DtoDecodesByField(l, v);
    hide Distinct, IndexOf, MemberDecodes, DtoDecodes, IsUuid, IsInt64, IsTime, DtoSchema;
    forall i: nat | i < 10 { DtoMemberDecodes(l, i, v); }
    forall key | key !in ORDER_DTO_NAMES { DtoUnknownDecodes(l, key, v); }
    var n := ORDER_DTO_NAMES;
    assert n[0] == "order_uuid" && n[1] == "hull_uuid" && n[2] == "engine_uuid" && n[3] == "shield_uuid";
    assert n[4] == "weapon_uuid" && n[5] == "total_price" && n[6] == "transaction_uuid" && n[7] == "payment_method";
    assert n[8] == "status" && n[9] == "created_at";
  }

  lemma DtoDecodesByField(l: Leaves, v: Scalar)
    ensures forall i :: i in {0, 1, 2} ==> (DtoDecodes(l, i, v) <==> v.Text? && l.uuid.parse(v.s).Some?)
    ensures forall i :: i in {3, 4, 6} ==> (DtoDecodes(l, i, v) <==> v.Null? || (v.Text? && l.uuid.parse(v.s).Some?))
    ensures DtoDecodes(l, 5, v) <==> v.Number? && -0x8000_0000_0000_0000 <= v.n < 0x8000_0000_0000_0000
    ensures (DtoDecodes(l, 7, v) <==> v.Null? || v.Text?) && (DtoDecodes(l, 8, v) <==> v.Text?)
    ensures DtoDecodes(l, 9, v) <==> v.Text? && l.time.parse(v.s).Some?
  {}

  lemma DtoMemberDecodes(l: Leaves, i: nat, v: Scalar)
    requires i < 10
    ensures MemberDecodes(DtoSchema(l), Member(ORDER_DTO_NAMES[i], v)) <==> DtoDecodes(l, i, v)
  {
    DtoNamesDiffer();
    hide Distinct, DtoDecodes;
    IndexIsExact(ORDER_DTO_NAMES, ORDER_DTO_NAMES[i], i);
    hide IndexOf;
  }

  lemma DtoUnknownDecodes(l: Leaves, key: string, v: Scalar)
    requires key !in ORDER_DTO_NAMES
    ensures MemberDecodes(DtoSchema(l), Member(key, v))
  {}

  /** The member of an order that a key names is printed from the field of that name, and once. */
  lemma DtoPrints(l: Leaves, t: OrderDto, i: nat, v: Scalar)
    requires i < 10
    ensures Member(ORDER_DTO_NAMES[i], v) in EncodeOf(DtoSchema(l), t, 10) <==> DtoGet(l, t, i) == Some(v)
  {
    PrintedIsExact(DtoSchema(l), t, 10, Member(ORDER_DTO_NAMES[i], v));
    DtoNamesDiffer();
    hide DtoGet, EncodeOf;
  }

  /** How the status and the payment method of an order appear on the wire. */
  lemma StatusOnTheWire(l: Leaves, t: OrderDto)
    ensures var e := EncodeOf(DtoSchema(l), t, 10);
      && (t.status == PENDING_PAYMENT <==> Member("status", Text("PENDING_PAYMENT")) in e)
      && (t.status == PAID <==> Member("status", Text("PAID")) in e)
      && (t.status == CANCELLED <==> Member("status", Text("CANCELLED")) in e)
      && (t.paymentMethod.Get() == Some(CARD) <==> Member("payment_method", Text("CARD")) in e)
      && (t.paymentMethod.Get() == Some(SBP) <==> Member("payment_method", Text("SBP")) in e)
      && (t.paymentMethod.Get() == Some(CREDIT_CARD) <==> Member("payment_method", Text("CREDIT_CARD")) in e)
      && (t.paymentMethod.Get() == Some(INVESTOR_MONEY) <==> Member("payment_method", Text("INVESTOR_MONEY")) in e)
      && (t.paymentMethod.isSet && t.paymentMethod.isNull <==> Member("payment_method", Null) in e)
  {
    hide EncodeOf, DtoSchema, DtoGet, PrintOptMethod, StatusText, MethodText;
    forall v { DtoPrints(l, t, 8, v); }
    forall v { DtoPrints(l, t, 7, v); }
    assert ORDER_DTO_NAMES[8] == "status" && ORDER_DTO_NAMES[7] == "payment_method";
    StatusAndMethodFields(l, t);
    StatusNames(t.status);
    MethodNames(t.paymentMethod);
  }

  lemma StatusAndMethodFields(l: Leaves, t: OrderDto)
    ensures DtoGet(l, t, 8) == Some(Text(StatusText(t.status))) && DtoGet(l, t, 7) == PrintOptMethod(t.paymentMethod)
  {}

  lemma StatusNames(s: OrderStatus)
    ensures (StatusText(s) == "PENDING_PAYMENT" <==> s == PENDING_PAYMENT)
            && (StatusText(s) == "PAID" <==> s == PAID) && (StatusText(s) == "CANCELLED" <==> s == CANCELLED)
  {
    StatusTextRoundTrip(s);
  }

  lemma MethodNames(o: OptNil<PaymentMethod>)
    ensures var p := PrintOptMethod(o);
      && (p == Some(Text("CARD")) <==> o.Get() == Some(CARD)) && (p == Some(Text("SBP")) <==> o.Get() == Some(SBP))
      && (p == Some(Text("CREDIT_CARD")) <==> o.Get() == Some(CREDIT_CARD))
      && (p == Some(Text("INVESTOR_MONEY")) <==> o.Get() == Some(INVESTOR_MONEY))
      && (p == Some(Null) <==> o.isSet && o.isNull)
  {
    MethodTextRoundTrip(o.value);
  }
}
