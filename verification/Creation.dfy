/** Create composed with the inventory server: which requests are accepted, and at what price. */
module Creation {
  import opened Base
  import opened Uuids
  import opened OrderTypes
  import opened Inventory
  import opened Handler
  import opened Protocol

  ghost predicate AllKnown(parts: Catalogue, us: seq<Uuid>) {
    forall i :: 0 <= i < |us| ==> us[i] in parts
  }

  lemma {:induction false} PartsMapHolds(ps: seq<Part>)
    ensures forall i :: 0 <= i < |ps| ==> ps[i].uuid in PartsMap(ps)
    ensures forall k :: k in PartsMap(ps) ==> exists i :: 0 <= i < |ps| && ps[i].uuid == k && PartsMap(ps)[k] == ps[i]
  {
    if ps != [] {
      var n := |ps| - 1;
      var first := ps[..n];
      PartsMapHolds(first);
      forall i | 0 <= i < |ps| ensures ps[i].uuid in PartsMap(ps) {
        assert i < n ==> first[i] == ps[i];
      }
      forall k | k in PartsMap(ps)
        ensures exists i :: 0 <= i < |ps| && ps[i].uuid == k && PartsMap(ps)[k] == ps[i]
      {
        if k == ps[n].uuid {
          assert PartsMap(ps)[k] == ps[n];
        } else {
          assert k in PartsMap(first);
          var i :| 0 <= i < |first| && first[i].uuid == k && PartsMap(first)[k] == first[i];
          assert ps[i] == first[i];
        }
      }
    }
  }

  /** With the map that leads each id to its part, the tally is the wrapped exact sum unless a stock is empty. */
  lemma {:induction false} TallyIsTheSum(env: Env, us: seq<Uuid>, found: map<string, Part>)
    requires AllKnown(env.parts, us)
    requires forall i :: 0 <= i < |us| ==>
               env.text.format(us[i]) in found && found[env.text.format(us[i])] == env.parts[us[i]]
    ensures Tally(found, Texts(env.text, us)) ==
            if InStock(env.parts, us) then Some(Wrap(Sum(Prices(env.parts, us)))) else None
  {
    if us != [] {
      var n := |us| - 1;
      var ids, prices := Texts(env.text, us), Prices(env.parts, us);
      TallyIsTheSum(env, us[..n], found);
      assert Texts(env.text, us[..n]) == ids[..n];
      assert Prices(env.parts, us[..n]) == prices[..n];
      assert InStock(env.parts, us) <==> InStock(env.parts, us[..n]) && env.parts[us[n]].stockQuantity > 0;
      WrapAbsorbs(Sum(prices[..n]), prices[n]);
    }
  }

  lemma LookupOfText(env: Env, us: seq<Uuid>, i: nat)
    requires Sound(env) && i < |us|
    ensures var id := Texts(env.text, us)[i];
      Lookup(env.text, env.parts, id) == if us[i] in env.parts then Ok(env.parts[us[i]]) else Err(NotFound(id))
  {
    assert env.text.parse(env.text.format(us[i])) == Some(us[i]);
  }

  /** When every slot is known, the listing has one part per slot and the map leads every id to its part. */
  lemma ListingOfKnown(env: Env, us: seq<Uuid>) returns (found: seq<Part>)
    requires Sound(env) && AllKnown(env.parts, us)
    ensures ListByUuids(env.text, env.parts, Texts(env.text, us)) == Ok(found) && |found| == |us|
    ensures forall i :: 0 <= i < |us| ==>
              env.text.format(us[i]) in PartsMap(found) && PartsMap(found)[env.text.format(us[i])] == env.parts[us[i]]
  {
    found := seq(|us|, i requires 0 <= i < |us| => env.parts[us[i]]);
    forall i | 0 <= i < |us| ensures Lookup(env.text, env.parts, Texts(env.text, us)[i]) == Ok(found[i]) {
      LookupOfText(env, us, i);
    }
    FoundByLookup(env.text, env.parts, Texts(env.text, us), found);
    PartsMapHolds(found);
    forall i | 0 <= i < |us|
      ensures env.text.format(us[i]) in PartsMap(found)
              && PartsMap(found)[env.text.format(us[i])] == env.parts[us[i]]
    {
      var k := env.text.format(us[i]);
      assert found[i].uuid == k;
      var j :| 0 <= j < |found| && found[j].uuid == k && PartsMap(found)[k] == found[j];
      assert found[j] == env.parts[us[j]];
      FormatIsInjective(env.text, us[i], us[j]);
    }
  }

  /**
   A request that reaches the inventory is rejected as not found if and only if some slot is not in the catalogue,
   else as a conflict if and only if some slot has no stock, and else accepted at the wrapped sum of the prices.
   So of the three ways to a conflict in the code only an empty stock is ever taken.
   */
  lemma CreateFollowsSlots(env: Env, req: CreateOrderRequest)
    requires Sound(env)
    ensures StartCreate(env, req, false) == Err(NoInventory())
    ensures StartCreate(env, req, true) ==
            if !AllKnown(env.parts, Slots(req)) then Err(NoInventory())
            else if !InStock(env.parts, Slots(req)) then Err(Shortage())
            else Ok(Wrap(Sum(Prices(env.parts, Slots(req)))))
  {
    var us := Slots(req);
    assert env.text.format(req.hullUUID) != "" && env.text.format(req.engineUUID) != "";
    if AllKnown(env.parts, us) {
      var found := ListingOfKnown(env, us);
      TallyIsTheSum(env, us, PartsMap(found));
    } else {
      var i :| 0 <= i < |us| && us[i] !in env.parts;
      LookupOfText(env, us, i);
      match ListByUuids(env.text, env.parts, Texts(env.text, us)) {
        case Ok(found) =>
          FoundByLookup(env.text, env.parts, Texts(env.text, us), found);
          assert false;
        case Err(_) =>
      }
    }
  }

  /** The two conflict branches for an answer of the wrong length and for an id missing from it are never taken. */
  lemma AnswersAreComplete(env: Env, req: CreateOrderRequest, found: seq<Part>)
    requires Sound(env)
    requires ListByUuids(env.text, env.parts, Texts(env.text, Slots(req))) == Ok(found)
    ensures |found| == |Texts(env.text, Slots(req))|
    ensures forall id :: id in Texts(env.text, Slots(req)) ==> id in PartsMap(found)
  {
    var us := Slots(req);
    FoundByLookup(env.text, env.parts, Texts(env.text, us), found);
    forall i | 0 <= i < |us| ensures us[i] in env.parts {
      LookupOfText(env, us, i);
    }
    var same := ListingOfKnown(env, us);
  }

  /** An accepted request becomes a pending record in good order. */
  lemma AcceptedIsPriced(env: Env, req: CreateOrderRequest, reachable: bool, newId: Uuid, now: int)
    requires Sound(env) && StartCreate(env, req, reachable).Ok?
    ensures reachable
    ensures RecordOk(env, newId, NewOrder(req, StartCreate(env, req, reachable).value, newId, now))
  {
    CreateFollowsSlots(env, req);
  }

  /** At most four slots at a quarter of the int64 range each cannot wrap around. */
  lemma PriceIsExact(parts: Catalogue, us: seq<Uuid>, price: int64)
    requires Priced(parts, us, price) && |us| <= 4
    requires forall i :: 0 <= i < |us| ==> 0 <= parts[us[i]].price as int <= (TWO_63 - 1) / 4
    ensures price as int == Sum(Prices(parts, us))
  {
    SumBounds(Prices(parts, us), (TWO_63 - 1) / 4);
    WrapOfFitting(Sum(Prices(parts, us)));
  }

  // ---- The same for each named part, written out ----

  /** The price of an optional part, if it is given and in the catalogue. */
  function PriceOf(parts: Catalogue, u: Option<Uuid>): int {
    if u.Some? && u.value in parts then parts[u.value].price as int else 0
  }

  /** The part is one of the four that are named. */
  predicate Named(hull: Uuid, engine: Uuid, shield: Option<Uuid>, weapon: Option<Uuid>, u: Uuid) {
    u == hull || u == engine || shield == Some(u) || weapon == Some(u)
  }

  lemma {:induction false} SumOfSum(a: seq<int>, b: seq<int>)
    ensures Sum(a + b) == Sum(a) + Sum(b)
  {
    if b == [] {
      assert a + b == a;
    } else {
      SumOfSum(a, b[..|b| - 1]);
      assert (a + b)[..|a + b| - 1] == a + b[..|b| - 1];
    }
  }

  lemma SumOfFew(x: int, y: int)
    ensures Sum([]) == 0 && Sum([x]) == x && Sum([x, y]) == x + y
  {
    assert [x, y][..1] == [x] && [x][..0] == [];
    assert Sum([x]) == x;
  }

  lemma PricesOfSum(parts: Catalogue, a: seq<Uuid>, b: seq<Uuid>)
    requires AllKnown(parts, a) && AllKnown(parts, b)
    ensures AllKnown(parts, a + b) && Prices(parts, a + b) == Prices(parts, a) + Prices(parts, b)
  {}

  lemma PriceOfSlot(parts: Catalogue, u: Option<Uuid>)
    requires AllKnown(parts, OptSlot(u))
    ensures Sum(Prices(parts, OptSlot(u))) == PriceOf(parts, u)
  {
    match u {
      case None => SumOfFew(0, 0);
      case Some(v) =>
        assert OptSlot(u)[0] == v;
        SumOfFew(parts[v].price as int, 0);
        assert Prices(parts, OptSlot(u)) == [parts[v].price as int];
    }
  }

  /** The slots are the named parts, and their prices add up one by one. */
  lemma SlotsAreTheNamed(parts: Catalogue, hull: Uuid, engine: Uuid, shield: Option<Uuid>, weapon: Option<Uuid>)
    ensures var us := SlotsOf(hull, engine, shield, weapon);
      && (AllKnown(parts, us) <==> forall u :: Named(hull, engine, shield, weapon, u) ==> u in parts)
      && (InStock(parts, us) <==>
            forall u :: Named(hull, engine, shield, weapon, u) ==> u in parts && parts[u].stockQuantity > 0)
      && (AllKnown(parts, us) ==>
            hull in parts && engine in parts
            && Sum(Prices(parts, us)) ==
               parts[hull].price as int + parts[engine].price as int + PriceOf(parts, shield) + PriceOf(parts, weapon))
  {
    var us := SlotsOf(hull, engine, shield, weapon);
    SlotsHold(hull, engine, shield, weapon);
    if AllKnown(parts, us) {
      SumOfSlots(parts, hull, engine, shield, weapon);
    }
    hide SlotsOf;
    assert forall u :: u in us <==> exists i :: 0 <= i < |us| && us[i] == u;
  }

  lemma SlotsHold(hull: Uuid, engine: Uuid, shield: Option<Uuid>, weapon: Option<Uuid>)
    ensures forall u :: u in SlotsOf(hull, engine, shield, weapon) <==> Named(hull, engine, shield, weapon, u)
  {
    var us := SlotsOf(hull, engine, shield, weapon);
    forall u ensures u in us <==> Named(hull, engine, shield, weapon, u) {
      assert u in us <==> u in [hull, engine] || u in OptSlot(shield) || u in OptSlot(weapon);
    }
  }

  /** Known slots: the pair, then each optional one. */
  lemma KnownSlots(parts: Catalogue, hull: Uuid, engine: Uuid, shield: Option<Uuid>, weapon: Option<Uuid>)
    requires AllKnown(parts, SlotsOf(hull, engine, shield, weapon))
    ensures AllKnown(parts, [hull, engine]) && AllKnown(parts, OptSlot(shield)) && AllKnown(parts, OptSlot(weapon))
    ensures SlotsOf(hull, engine, shield, weapon) == [hull, engine] + OptSlot(shield) + OptSlot(weapon)
  {
    var us := SlotsOf(hull, engine, shield, weapon);
    assert us[0] == hull && us[1] == engine;
    assert forall i :: 0 <= i < |OptSlot(shield)| ==> OptSlot(shield)[i] == us[2 + i];
    assert forall i :: 0 <= i < |OptSlot(weapon)| ==> OptSlot(weapon)[i] == us[2 + |OptSlot(shield)| + i];
  }

  lemma SumOfPair(parts: Catalogue, a: Uuid, b: Uuid)
    requires AllKnown(parts, [a, b])
    ensures a in parts && b in parts && Sum(Prices(parts, [a, b])) == parts[a].price as int + parts[b].price as int
  {
    assert [a, b][0] == a && [a, b][1] == b;
    assert Prices(parts, [a, b]) == [parts[a].price as int, parts[b].price as int];
    SumOfFew(parts[a].price as int, parts[b].price as int);
  }

  lemma SumOfPrices(parts: Catalogue, a: seq<Uuid>, b: seq<Uuid>)
    requires AllKnown(parts, a) && AllKnown(parts, b)
    ensures AllKnown(parts, a + b) && Sum(Prices(parts, a + b)) == Sum(Prices(parts, a)) + Sum(Prices(parts, b))
  {
    PricesOfSum(parts, a, b);
    hide Prices, Sum, AllKnown;
    SumOfSum(Prices(parts, a), Prices(parts, b));
  }

  lemma SumOfSlots(parts: Catalogue, hull: Uuid, engine: Uuid, shield: Option<Uuid>, weapon: Option<Uuid>)
    requires AllKnown(parts, SlotsOf(hull, engine, shield, weapon))
    ensures hull in parts && engine in parts
    ensures Sum(Prices(parts, SlotsOf(hull, engine, shield, weapon))) ==
            parts[hull].price as int + parts[engine].price as int + PriceOf(parts, shield) + PriceOf(parts, weapon)
  {
    KnownSlots(parts, hull, engine, shield, weapon);
    SumOfPair(parts, hull, engine);
    hide Sum, Prices, SlotsOf, OptSlot, PriceOf;
    SumOfPrices(parts, [hull, engine], OptSlot(shield));
    SumOfPrices(parts, [hull, engine] + OptSlot(shield), OptSlot(weapon));
    PriceOfSlot(parts, shield);
    PriceOfSlot(parts, weapon);
  }

  /** The part is the hull or the engine of a request, or its shield or weapon where that is set and not null. */
  predicate Asked(req: CreateOrderRequest, u: Uuid) {
    || u == req.hullUUID || u == req.engineUUID
    || (req.shieldUUID.isSet && !req.shieldUUID.isNull && u == req.shieldUUID.value)
    || (req.weaponUUID.isSet && !req.weaponUUID.isNull && u == req.weaponUUID.value)
  }

  /**
   Create, decided by the named parts: 404 if the inventory cannot be reached or some part is not in the catalogue,
   else 409 if some part has no stock, else the wrapped sum of the prices of hull, engine, and shield and weapon where
   given.
   */
  lemma CreateIsDecidedBy(env: Env, req: CreateOrderRequest, reachable: bool)
    requires Sound(env)
    ensures !reachable || (exists u :: Asked(req, u) && u !in env.parts) <==>
            StartCreate(env, req, reachable) ==
            Err(Problem(Operation.CreateOrder, NotFoundKind, ErrorBody(404, "inventory сервис не доступен")))
    ensures reachable && (forall u :: Asked(req, u) ==> u in env.parts)
            && (exists u :: Asked(req, u) && u in env.parts && env.parts[u].stockQuantity <= 0) <==>
            StartCreate(env, req, reachable) ==
            Err(Problem(Operation.CreateOrder, Conflict, ErrorBody(409, "недостаточно деталей")))
    ensures reachable && (forall u :: Asked(req, u) ==> u in env.parts && env.parts[u].stockQuantity > 0) <==>
            StartCreate(env, req, reachable).Ok?
    ensures StartCreate(env, req, reachable).Ok? ==>
              && req.hullUUID in env.parts && req.engineUUID in env.parts
              && StartCreate(env, req, reachable).value ==
                 Wrap(env.parts[req.hullUUID].price as int + env.parts[req.engineUUID].price as int
                      + PriceOf(env.parts, req.shieldUUID.Get()) + PriceOf(env.parts, req.weaponUUID.Get()))
  {
    CreateFollowsSlots(env, req);
    SlotsAreTheNamed(env.parts, req.hullUUID, req.engineUUID, OptToPtr(req.shieldUUID), OptToPtr(req.weaponUUID));
    assert forall u :: Asked(req, u) <==>
      Named(req.hullUUID, req.engineUUID, OptToPtr(req.shieldUUID), OptToPtr(req.weaponUUID), u);
    hide StartCreate, InStock, AllKnown, Prices, Sum, SlotsOf, Named, Asked, Wrap;
  }

  /** With a text library that prints a part as the empty text, which no lawful one does, the request is a bad one. */
  lemma EmptyTextIsBadRequest(env: Env, req: CreateOrderRequest, reachable: bool)
    requires env.text.format(req.hullUUID) == "" || env.text.format(req.engineUUID) == ""
    ensures StartCreate(env, req, reachable) ==
            Err(Problem(Operation.CreateOrder, BadRequest, ErrorBody(400, "в заказе нет hull_uuid или engine_uuid")))
  {}

  /** A whole create: what is rejected leaves the store, and what is accepted adds one pending order and reports it. */
  lemma CreateIsAnswered(env: Env, orders: Orders, req: CreateOrderRequest, reachable: bool, newId: Uuid, now: int)
    ensures var (after, reply) := HandleCreate(env, orders, req, reachable, newId, now);
      match StartCreate(env, req, reachable)
      case Err(e) => after == orders && reply == e
      case Ok(price) =>
        && reply == Created(newId, price)
        && after == orders[newId := Order(newId, req.hullUUID, req.engineUUID, req.shieldUUID.Get(), req.weaponUUID.Get(),
                                          price, None, None, PENDING_PAYMENT, now)]
  {
    hide StartCreate;
  }
}
