/** What every interleaving keeps, races included. */
module Invariant {
  import opened Base
  import opened Uuids
  import opened OrderTypes
  import opened Inventory
  import opened Handler
  import opened Protocol
  import opened Creation
  import Payment

  lemma InitOk(env: Env)
    ensures Inv(env, Init())
  {}

  lemma KeepsIsReflexive(a: Orders)
    ensures Keeps(a, a)
  {}

  lemma WrittenRecordIsOk(env: Env, id: Uuid, snapshot: Order, proto: Payment.ProtoMethod, tx: Uuid)
    requires RecordOk(env, id, snapshot) && snapshot.status == PENDING_PAYMENT
    ensures RecordOk(env, id, PaidOrder(snapshot, proto, tx))
    ensures RecordOk(env, id, CancelledOrder(snapshot))
    ensures SameOrder(snapshot, PaidOrder(snapshot, proto, tx)) && SameOrder(snapshot, CancelledOrder(snapshot))
  {
    hide Priced;
  }

  /** Between two states: only the call c differs, and what was drawn and issued stays so. */
  ghost predicate Frame(s: System, t: System, c: CallId) {
    && t.calls.Keys == s.calls.Keys + {c}
    && (forall d :: d in s.calls && d != c ==> t.calls[d] == s.calls[d])
    && s.drawn <= t.drawn
    && (forall tx :: tx in s.ledger ==> tx in t.ledger && t.ledger[tx] == s.ledger[tx])
    && Keeps(s.orders, t.orders)
  }

  lemma SnapshotStaysOk(env: Env, s: System, t: System, id: Uuid, snapshot: Order)
    requires SnapshotOk(env, s, id, snapshot) && Keeps(s.orders, t.orders)
    ensures SnapshotOk(env, t, id, snapshot)
  {
    hide RecordOk;
  }

  /** Calls that do not take the step stay in order. */
  lemma OtherStaysOk(env: Env, s: System, t: System, c: CallId, d: CallId)
    requires d in s.calls && d != c && CallOk(env, s, d) && Frame(s, t, c)
    requires s.calls[d].Creating? ==> s.calls[d].order.orderUUID !in t.orders
    ensures d in t.calls && CallOk(env, t, d)
  {
    hide StartCreate, RecordOk, NewOrder, SnapshotOk, Coherent, ProtoOf;
    var call := s.calls[d];
    if call.Paying? || call.Charged? || call.Cancelling? {
      SnapshotStaysOk(env, s, t, call.id, call.snapshot);
    }
  }

  lemma OthersStayOk(env: Env, s: System, t: System, c: CallId)
    requires Inv(env, s) && Frame(s, t, c)
    requires forall d :: d in s.calls && d != c && s.calls[d].Creating? ==> s.calls[d].order.orderUUID !in t.orders
    ensures forall d :: d in t.calls && d != c ==> CallOk(env, t, d)
  {
    forall d | d in t.calls && d != c ensures CallOk(env, t, d) {
      assert CallOk(env, s, d);
      OtherStaysOk(env, s, t, c, d);
    }
    hide CallOk, Frame, StoreOk, EntryOk, NewIdsDiffer;
  }

  lemma NewIdsAreDrawn(env: Env, s: System)
    requires Inv(env, s)
    ensures forall d :: d in s.calls && s.calls[d].Creating? ==>
              s.calls[d].order.orderUUID in s.drawn && s.calls[d].order.orderUUID !in s.orders
  {
    hide StoreOk, EntryOk, NewIdsDiffer, StartCreate, RecordOk, NewOrder, SnapshotOk, Coherent, ProtoOf;
    forall d | d in s.calls && s.calls[d].Creating?
      ensures s.calls[d].order.orderUUID in s.drawn && s.calls[d].order.orderUUID !in s.orders
    {
      assert CallOk(env, s, d);
    }
  }

  lemma EntriesStayOk(s: System, t: System, c: CallId)
    requires Frame(s, t, c) && (c in s.calls ==> c in t.calls && IssuedTo(t.calls[c]) == IssuedTo(s.calls[c]))
    requires forall tx :: tx in s.ledger ==> EntryOk(s, tx)
    ensures forall tx :: tx in s.ledger ==> tx in t.ledger && EntryOk(t, tx)
  {
    hide SameOrder;
    forall tx | tx in s.ledger ensures tx in t.ledger && EntryOk(t, tx) {
      assert EntryOk(s, tx);
    }
  }

  lemma MoveFrame(s: System, c: CallId, next: Call, newly: set<Uuid>)
    ensures Frame(s, Moved(s, c, next, newly), c)
  {}

  /** A step that only changes the state of one call, and perhaps draws the UUID of a new order. */
  lemma MoveKeepsInv(env: Env, s: System, c: CallId, next: Call, newly: set<Uuid>)
    requires Inv(env, s) && CallOk(env, Moved(s, c, next, newly), c)
    requires c in s.calls ==> IssuedTo(s.calls[c]) == None
    requires IssuedTo(next) == None
    requires next.Creating? ==> next.order.orderUUID !in s.drawn
    ensures Inv(env, Moved(s, c, next, newly)) && Keeps(s.orders, Moved(s, c, next, newly).orders)
  {
    hide RecordOk, CallOk, EntryOk;
    var t := Moved(s, c, next, newly);
    MoveFrame(s, c, next, newly);
    NewIdsAreDrawn(env, s);
    OthersStayOk(env, s, t, c);
    EntriesStayOk(s, t, c);
    hide Frame;
  }

  lemma WriteFrame(s: System, c: CallId, id: Uuid, o: Order, next: Call)
    requires id in s.orders ==> SameOrder(s.orders[id], o) && o.status != PENDING_PAYMENT
    ensures Frame(s, Written(s, c, id, o, next), c)
  {}

  /** A step that stores a record and finishes the call that stored it. */
  lemma WriteKeepsInv(env: Env, s: System, c: CallId, id: Uuid, o: Order, next: Call)
    requires Inv(env, s) && c in s.calls
    requires id in s.drawn && RecordOk(env, id, o) && Backed(s, o)
    requires id in s.orders ==> SameOrder(s.orders[id], o) && o.status != PENDING_PAYMENT
    requires id in s.orders || (s.calls[c].Creating? && s.calls[c].order.orderUUID == id)
    requires CallOk(env, Written(s, c, id, o, next), c)
    requires !next.Creating? && IssuedTo(next) == IssuedTo(s.calls[c])
    ensures Inv(env, Written(s, c, id, o, next)) && Keeps(s.orders, Written(s, c, id, o, next).orders)
  {
    hide RecordOk, CallOk, EntryOk;
    var t := Written(s, c, id, o, next);
    WriteFrame(s, c, id, o, next);
    NewIdsAreDrawn(env, s);
    OthersStayOk(env, s, t, c);
    EntriesStayOk(s, t, c);
    hide Frame, Keeps, SameOrder;
  }

  /** A create is rejected with a response that its type has. */
  lemma RejectedIsProblem(env: Env, req: CreateOrderRequest, reachable: bool)
    requires Sound(env) && StartCreate(env, req, reachable).Err?
    ensures var reply := StartCreate(env, req, reachable).error; Coherent(reply) && !reply.Found?
  {
    CreateFollowsSlots(env, req);
    hide StartCreate, Sound;
  }

  lemma NotStored(env: Env, s: System, id: Uuid)
    requires Inv(env, s) && id !in s.drawn
    ensures id !in s.orders
  {
    hide CallOk, EntryOk, NewIdsDiffer, RecordOk, Backed;
  }

  lemma AcceptedCallIsOk(env: Env, s: System, c: CallId, req: CreateOrderRequest, price: int64, newId: Uuid, now: int)
    requires StartCreate(env, req, true) == Ok(price) && newId !in s.orders
    requires RecordOk(env, newId, NewOrder(req, price, newId, now))
    ensures CallOk(env, Moved(s, c, Creating(req, NewOrder(req, price, newId, now)), {newId}), c)
  {
    hide StartCreate, RecordOk;
  }

  lemma CreatingIsOk(env: Env, s: System, c: CallId, req: CreateOrderRequest, reachable: bool, newId: Uuid, now: int)
    requires Sound(env) && Inv(env, s) && c !in s.calls && newId !in s.drawn
    ensures CallOk(env, BeginCreate(env, s, c, req, reachable, newId, now), c)
  {
    hide StartCreate, Sound, RecordOk, Inv, Coherent, NewOrder, ValidDto;
    match StartCreate(env, req, reachable)
    case Err(_) => RejectedIsProblem(env, req, reachable);
    case Ok(price) =>
      NotStored(env, s, newId);
      AcceptedIsPriced(env, req, reachable, newId, now);
      AcceptedCallIsOk(env, s, c, req, price, newId, now);
  }

  lemma BeginCreateKeepsInv(env: Env, s: System, c: CallId, req: CreateOrderRequest, reachable: bool, newId: Uuid, now: int)
    requires Sound(env) && Inv(env, s) && c !in s.calls && newId !in s.drawn
    ensures Inv(env, BeginCreate(env, s, c, req, reachable, newId, now))
    ensures Keeps(s.orders, BeginCreate(env, s, c, req, reachable, newId, now).orders)
  {
    hide StartCreate, Sound, CallOk, Inv, Keeps;
    CreatingIsOk(env, s, c, req, reachable, newId, now);
    match StartCreate(env, req, reachable)
    case Err(reply) => MoveKeepsInv(env, s, c, Done(reply), {});
    case Ok(price) => MoveKeepsInv(env, s, c, Creating(req, NewOrder(req, price, newId, now)), {newId});
  }

  /** A pending record may be read as a snapshot. */
  lemma ReadIsOk(env: Env, s: System, id: Uuid)
    requires Inv(env, s) && id in s.orders && s.orders[id].status == PENDING_PAYMENT
    ensures SnapshotOk(env, s, id, s.orders[id])
  {
    StoredIsOk(env, s, id);
    hide Inv, RecordOk;
  }

  lemma PayingIsOk(env: Env, s: System, c: CallId, id: Uuid, pm: PaymentMethod)
    requires Inv(env, s)
    ensures CallOk(env, Moved(s, c, PayEntry(s.orders, id, pm), {}), c)
    ensures PayEntry(s.orders, id, pm).Paying? || PayEntry(s.orders, id, pm).Done?
  {
    hide Inv, RecordOk, ProtoOf;
    if id in s.orders {
      StoredIsOk(env, s, id);
      if s.orders[id].status == PENDING_PAYMENT { ReadIsOk(env, s, id); }
    }
  }

  lemma CancellingIsOk(env: Env, s: System, c: CallId, id: Uuid)
    requires Inv(env, s)
    ensures CallOk(env, Moved(s, c, CancelEntry(s.orders, id), {}), c)
    ensures CancelEntry(s.orders, id).Cancelling? || CancelEntry(s.orders, id).Done?
  {
    hide Inv, RecordOk;
    if id in s.orders {
      StoredIsOk(env, s, id);
      if s.orders[id].status == PENDING_PAYMENT { ReadIsOk(env, s, id); }
    }
  }

  /** What a get reports of a stored order passes validation. */
  lemma StoredDtoIsValid(env: Env, s: System, id: Uuid)
    requires StoreOk(env, s) && id in s.orders
    ensures ValidDto(DtoOf(s.orders[id]))
  {
    hide Priced, MethodOf, StoredMethod, ProtoOf;
    var o := s.orders[id];
    assert RecordOk(env, id, o) && Backed(s, o);
    if o.paymentMethod.Some? {
      SpecifiedMethodIsKnown(s.ledger[o.transactionUUID.value].pm);
    }
  }

  lemma GotIsOk(env: Env, s: System, c: CallId, id: Uuid)
    requires Inv(env, s)
    ensures CallOk(env, Moved(s, c, Done(HandleGet(s.orders, id)), {}), c)
  {
    hide DtoOf, ValidDto, StoreOk, EntryOk, NewIdsDiffer;
    if id in s.orders { StoredDtoIsValid(env, s, id); }
  }

  /** What the checks of pay and cancel need to know about a stored record. */
  lemma StoredIsOk(env: Env, s: System, id: Uuid)
    requires Inv(env, s) && id in s.orders
    ensures id in s.drawn && RecordOk(env, id, s.orders[id]) && !s.orders[id].status.OtherStatus?
  {
    hide Priced;
  }

  /** A charge that reaches the server issues the transaction. */
  lemma ChargeIssues(env: Env, s: System, c: CallId, outcome: Outcome)
    requires Lawful(env.text) && c in s.calls && s.calls[c].Paying? && ProtoOf(s.calls[c].pm) == Some(s.calls[c].proto)
    requires Acted(outcome)
    ensures ChargePay(env, s, c, outcome) ==
            Issued(s, c, outcome.tx, Entry(s.calls[c].id, s.calls[c].proto, c),
                   AfterCharge(s.calls[c], outcome.Answered?, outcome.tx))
  {
    ChargeIsAccepted(env.text, s.calls[c].id, s.calls[c].pm, outcome.tx);
    hide Charge, Lawful, ProtoOf;
  }

  /** The server acts on a call that is about to be charged or was given up. */
  predicate MayFollow(call: Call, tx: Uuid, next: Call) {
    || (call.Paying? && next == AfterCharge(call, true, tx))
    || ((call.Paying? || call.PayAbandoned?) && next == PayLost(call.id, tx))
  }

  lemma IssueKeepsInv(env: Env, s: System, c: CallId, tx: Uuid, next: Call)
    requires Inv(env, s) && c in s.calls && MayFollow(s.calls[c], tx, next) && tx !in s.drawn
    ensures Inv(env, Issued(s, c, tx, Entry(s.calls[c].id, s.calls[c].proto, c), next))
  {
    hide RecordOk, CallOk, EntryOk, SameOrder, Keeps;
    var t := Issued(s, c, tx, Entry(s.calls[c].id, s.calls[c].proto, c), next);
    IssuedIsOk(env, s, c, tx, next);
    NewIdsAreDrawn(env, s);
    NotYetIssued(env, s, tx);
    IssueFrame(s, c, tx, Entry(s.calls[c].id, s.calls[c].proto, c), next);
    StoreStaysOk(env, s, t, c);
    OthersStayOk(env, s, t, c);
    IssueKeepsEntries(env, s, c, tx, next);
    hide RecordOk, CallOk, EntryOk, Frame, SameOrder, StoreOk;
  }

  lemma NotYetIssued(env: Env, s: System, tx: Uuid)
    requires Inv(env, s) && tx !in s.drawn
    ensures tx !in s.ledger
  {
    hide StoreOk, CallOk, NewIdsDiffer;
    assert tx in s.ledger ==> EntryOk(s, tx);
  }

  lemma StoreStaysOk(env: Env, s: System, t: System, c: CallId)
    requires StoreOk(env, s) && Frame(s, t, c) && t.orders == s.orders
    ensures StoreOk(env, t)
  {
    hide RecordOk, SameOrder;
  }

  lemma IssueFrame(s: System, c: CallId, tx: Uuid, entry: Entry, next: Call)
    requires tx !in s.ledger
    ensures Frame(s, Issued(s, c, tx, entry, next), c)
  {}

  lemma IssuedIsOk(env: Env, s: System, c: CallId, tx: Uuid, next: Call)
    requires Inv(env, s) && c in s.calls && MayFollow(s.calls[c], tx, next)
    ensures CallOk(env, Issued(s, c, tx, Entry(s.calls[c].id, s.calls[c].proto, c), next), c)
    ensures s.calls[c].id in s.orders
  {
    hide StoreOk, EntryOk, NewIdsDiffer, RecordOk, SameOrder, ProtoOf, StartCreate;
    assert CallOk(env, s, c);
  }

  lemma IssueKeepsEntries(env: Env, s: System, c: CallId, tx: Uuid, next: Call)
    requires Inv(env, s) && c in s.calls && MayFollow(s.calls[c], tx, next) && tx !in s.drawn && s.calls[c].id in s.orders
    ensures var t := Issued(s, c, tx, Entry(s.calls[c].id, s.calls[c].proto, c), next);
            forall x :: x in t.ledger ==> EntryOk(t, x)
  {
    hide StoreOk, CallOk, NewIdsDiffer;
    var t := Issued(s, c, tx, Entry(s.calls[c].id, s.calls[c].proto, c), next);
    NotYetIssued(env, s, tx);
    forall x | x in t.ledger ensures EntryOk(t, x) {
      if x != tx { assert EntryOk(s, x); }
    }
  }

  lemma ChargeKeepsInv(env: Env, s: System, c: CallId, outcome: Outcome)
    requires Sound(env) && Inv(env, s) && Enabled(s, PayCharge(c, outcome))
    ensures Inv(env, ChargePay(env, s, c, outcome)) && Keeps(s.orders, ChargePay(env, s, c, outcome).orders)
  {
    hide Charge, Lawful, Keyed, Inv, Keeps, CallOk;
    PayingFacts(env, s, c);
    match outcome
    case Refused =>
      DoneIsOk(env, s, c);
      MoveKeepsInv(env, s, c, Done(PaymentError()), {});
    case TimedOut =>
      AbandonedIsOk(env, s, c);
      MoveKeepsInv(env, s, c, PayAbandoned(s.calls[c].id, s.calls[c].pm, s.calls[c].proto), {});
    case _ => ActKeepsInv(env, s, c, outcome);
  }

  lemma ActKeepsInv(env: Env, s: System, c: CallId, outcome: Outcome)
    requires Sound(env) && Inv(env, s) && Enabled(s, PayCharge(c, outcome)) && Acted(outcome)
    ensures Inv(env, ChargePay(env, s, c, outcome)) && Keeps(s.orders, ChargePay(env, s, c, outcome).orders)
  {
    hide Lawful, Keyed, Inv, Keeps, ChargePay;
    PayingFacts(env, s, c);
    ChargeIssues(env, s, c, outcome);
    KeepsIsReflexive(s.orders);
    IssueKeepsInv(env, s, c, outcome.tx, AfterCharge(s.calls[c], outcome.Answered?, outcome.tx));
  }

  lemma DoneIsOk(env: Env, s: System, c: CallId)
    ensures CallOk(env, Moved(s, c, Done(PaymentError()), {}), c)
  {}

  lemma PayingFacts(env: Env, s: System, c: CallId)
    requires Inv(env, s) && c in s.calls && s.calls[c].Paying?
    ensures CallOk(env, s, c) && ProtoOf(s.calls[c].pm) == Some(s.calls[c].proto)
  {
    hide StoreOk, EntryOk, NewIdsDiffer, SnapshotOk, ProtoOf;
    assert CallOk(env, s, c);
  }

  /** What a call knows that is about to write a payment. */
  lemma ChargedFacts(env: Env, s: System, c: CallId)
    requires Inv(env, s) && c in s.calls && s.calls[c].Charged?
    ensures var call := s.calls[c];
      && ProtoOf(call.pm) == Some(call.proto) && call.proto != Payment.UNSPECIFIED
      && SnapshotOk(env, s, call.id, call.snapshot)
      && call.tx in s.ledger && s.ledger[call.tx] == Entry(call.id, call.proto, c)
  {
    hide StoreOk, EntryOk, NewIdsDiffer, SnapshotOk, ProtoOf;
    assert CallOk(env, s, c);
    ProtoIsSpecified(s.calls[c].pm);
  }

  lemma ProtoIsSpecified(pm: PaymentMethod)
    ensures ProtoOf(pm) != Some(Payment.UNSPECIFIED)
  {}

  /** A snapshot is a pending copy of a record that is still stored. */
  lemma SnapshotFacts(env: Env, s: System, id: Uuid, snapshot: Order)
    requires SnapshotOk(env, s, id, snapshot)
    ensures id in s.orders && SameOrder(snapshot, s.orders[id])
    ensures RecordOk(env, id, snapshot) && snapshot.status == PENDING_PAYMENT
    ensures snapshot.orderUUID == id && snapshot.transactionUUID == None && snapshot.paymentMethod == None
  {
    hide Priced;
  }

  lemma AbandonedIsOk(env: Env, s: System, c: CallId)
    requires c in s.calls && s.calls[c].Paying? && CallOk(env, s, c)
    ensures var call := s.calls[c]; CallOk(env, Moved(s, c, PayAbandoned(call.id, call.pm, call.proto), {}), c)
  {
    hide RecordOk, SameOrder, ProtoOf;
  }

  /** A late act issues the transaction too. */
  lemma LateActIssues(env: Env, s: System, c: CallId, tx: Uuid)
    requires Lawful(env.text) && Inv(env, s) && c in s.calls && s.calls[c].PayAbandoned?
    ensures ActLate(env, s, c, tx) == Issued(s, c, tx, Entry(s.calls[c].id, s.calls[c].proto, c), PayLost(s.calls[c].id, tx))
  {
    hide Charge, Lawful, ProtoOf, StoreOk, EntryOk, NewIdsDiffer, RecordOk;
    assert CallOk(env, s, c);
    ChargeIsAccepted(env.text, s.calls[c].id, s.calls[c].pm, tx);
  }

  lemma LateActKeepsInv(env: Env, s: System, c: CallId, tx: Uuid)
    requires Sound(env) && Inv(env, s) && Enabled(s, PayActsLate(c, tx))
    ensures Inv(env, ActLate(env, s, c, tx)) && Keeps(s.orders, ActLate(env, s, c, tx).orders)
  {
    hide Inv, Lawful, Keyed, Keeps, ActLate;
    LateActIssues(env, s, c, tx);
    KeepsIsReflexive(s.orders);
    IssueKeepsInv(env, s, c, tx, PayLost(s.calls[c].id, tx));
  }

  lemma CommitCreateKeepsInv(env: Env, s: System, c: CallId)
    requires Inv(env, s) && c in s.calls && s.calls[c].Creating?
    ensures Inv(env, CommitCreate(s, c)) && Keeps(s.orders, CommitCreate(s, c).orders)
  {
    hide StoreOk, EntryOk, NewIdsDiffer, StartCreate, RecordOk, Keeps;
    assert CallOk(env, s, c);
    hide Inv;
    var o := s.calls[c].order;
    WriteKeepsInv(env, s, c, o.orderUUID, o, Done(Created(o.orderUUID, o.totalPrice)));
  }

  lemma SameAfterWrite(stored: Order, snapshot: Order, proto: Payment.ProtoMethod, tx: Uuid)
    requires SameOrder(snapshot, stored)
    ensures SameOrder(stored, PaidOrder(snapshot, proto, tx)) && SameOrder(stored, CancelledOrder(snapshot))
  {}

  lemma PaidIsBacked(env: Env, s: System, c: CallId)
    requires Inv(env, s) && c in s.calls && s.calls[c].Charged?
    ensures Backed(s, PaidOrder(s.calls[c].snapshot, s.calls[c].proto, s.calls[c].tx))
    ensures s.calls[c].id in s.orders && SnapshotOk(env, s, s.calls[c].id, s.calls[c].snapshot)
  {
    hide Inv, StoredMethod, SameOrder, RecordOk, SnapshotOk, ProtoOf;
    ChargedFacts(env, s, c);
    SnapshotFacts(env, s, s.calls[c].id, s.calls[c].snapshot);
  }

  lemma PayDoneIsOk(env: Env, s: System, c: CallId)
    requires Inv(env, s) && c in s.calls && s.calls[c].Charged?
    ensures CallOk(env, CommitPay(s, c), c)
  {
    hide Inv, SnapshotOk, ProtoOf, PaidOrder;
    ChargedFacts(env, s, c);
  }

  lemma CommitPayKeepsInv(env: Env, s: System, c: CallId)
    requires Inv(env, s) && c in s.calls && s.calls[c].Charged?
    ensures Inv(env, CommitPay(s, c)) && Keeps(s.orders, CommitPay(s, c).orders)
  {
    hide Inv, Keeps, CallOk, SameOrder, RecordOk, Backed, SnapshotOk, StoredMethod;
    var call := s.calls[c];
    PaidIsBacked(env, s, c);
    PayDoneIsOk(env, s, c);
    SnapshotFacts(env, s, call.id, call.snapshot);
    WrittenRecordIsOk(env, call.id, call.snapshot, call.proto, call.tx);
    SameAfterWrite(s.orders[call.id], call.snapshot, call.proto, call.tx);
    StoredIsOk(env, s, call.id);
    WriteKeepsInv(env, s, c, call.id, PaidOrder(call.snapshot, call.proto, call.tx), PayDone(call.id, call.tx));
  }

  lemma CancellingFacts(env: Env, s: System, c: CallId)
    requires Inv(env, s) && c in s.calls && s.calls[c].Cancelling?
    ensures SnapshotOk(env, s, s.calls[c].id, s.calls[c].snapshot)
  {
    hide StoreOk, EntryOk, NewIdsDiffer, SnapshotOk;
    assert CallOk(env, s, c);
  }

  lemma CancelDoneIsOk(env: Env, s: System, c: CallId)
    requires c in s.calls && s.calls[c].Cancelling?
    ensures CallOk(env, CommitCancel(s, c), c)
  {}

  lemma CommitCancelKeepsInv(env: Env, s: System, c: CallId)
    requires Inv(env, s) && c in s.calls && s.calls[c].Cancelling?
    ensures Inv(env, CommitCancel(s, c)) && Keeps(s.orders, CommitCancel(s, c).orders)
  {
    hide Inv, Keeps, CallOk, SameOrder, RecordOk, SnapshotOk;
    var call := s.calls[c];
    CancellingFacts(env, s, c);
    CancelDoneIsOk(env, s, c);
    SnapshotFacts(env, s, call.id, call.snapshot);
    WrittenRecordIsOk(env, call.id, call.snapshot, Payment.UNSPECIFIED, NIL);
    SameAfterWrite(s.orders[call.id], call.snapshot, Payment.UNSPECIFIED, NIL);
    StoredIsOk(env, s, call.id);
    WriteKeepsInv(env, s, c, call.id, CancelledOrder(call.snapshot), Done(Cancelled));
  }

  lemma StepKeepsInv(env: Env, s: System, e: Event)
    requires Sound(env) && Inv(env, s) && Enabled(s, e)
    ensures Inv(env, Step(env, s, e)) && Keeps(s.orders, Step(env, s, e).orders)
  {
    hide Inv, Sound, Lawful, ActLate, CommitCreate, CommitPay, CommitCancel, PayEntry, CancelEntry, StartCreate, Charge, Keeps, HandleGet;
    match e
    case CreateBegin(c, req, reachable, newId, now) => BeginCreateKeepsInv(env, s, c, req, reachable, newId, now);
    case CreateCommit(c) => CommitCreateKeepsInv(env, s, c);
    case PayBegin(c, id, pm) =>
      PayingIsOk(env, s, c, id, pm);
      MoveKeepsInv(env, s, c, PayEntry(s.orders, id, pm), {});
    case PayCharge(c, outcome) => ChargeKeepsInv(env, s, c, outcome);
    case PayActsLate(c, tx) => LateActKeepsInv(env, s, c, tx);
    case PayCommit(c, id) => CommitPayKeepsInv(env, s, c);
    case CancelBegin(c, id) =>
      CancellingIsOk(env, s, c, id);
      MoveKeepsInv(env, s, c, CancelEntry(s.orders, id), {});
    case CancelCommit(c, id) => CommitCancelKeepsInv(env, s, c);
    case GetCall(c, id) =>
      GotIsOk(env, s, c, id);
      MoveKeepsInv(env, s, c, Done(HandleGet(s.orders, id)), {});
  }

  /** Every reachable state is in order: records, snapshots in flight, ledger and replies. */
  lemma {:induction false} ReachableIsOk(env: Env, ss: seq<System>, es: seq<Event>, k: nat)
    requires IsRun(env, ss, es) && k <= |es|
    ensures Inv(env, ss[k])
  {
    hide Step, Inv, Enabled, Keyed, Keeps;
    if k == 0 {
      InitOk(env);
    } else {
      ReachableIsOk(env, ss, es, k - 1);
      assert StepAt(env, ss, es, k - 1);
      StepKeepsInv(env, ss[k - 1], es[k - 1]);
    }
  }

  /** Between any two points of a run no order disappears, changes its order data or returns to pending. */
  lemma {:induction false} RecordsAreKept(env: Env, ss: seq<System>, es: seq<Event>, i: nat, k: nat)
    requires IsRun(env, ss, es) && i <= k <= |es|
    ensures Keeps(ss[i].orders, ss[k].orders)
    decreases k
  {
    hide Step, Inv, Enabled, Keyed, Keeps;
    if i < k {
      RecordsAreKept(env, ss, es, i, k - 1);
      ReachableIsOk(env, ss, es, k - 1);
      assert StepAt(env, ss, es, k - 1);
      StepKeepsInv(env, ss[k - 1], es[k - 1]);
      KeepsIsTransitive(ss[i].orders, ss[k - 1].orders, ss[k].orders);
    } else {
      KeepsIsReflexive(ss[i].orders);
    }
  }

  lemma KeepsIsTransitive(a: Orders, b: Orders, c: Orders)
    requires Keeps(a, b) && Keeps(b, c)
    ensures Keeps(a, c)
  {}

  /** The reported price is that of the slots. */
  lemma ReportedPriceBySlots(env: Env, ss: seq<System>, es: seq<Event>, k: nat, id: Uuid)
    requires IsRun(env, ss, es) && k <= |es| && id in ss[k].orders
    ensures HandleGet(ss[k].orders, id).Found?
    ensures var dto := HandleGet(ss[k].orders, id).dto;
      var us := SlotsOf(dto.hullUUID, dto.engineUUID, dto.shieldUUID.Get(), dto.weaponUUID.Get());
      && InStock(env.parts, us) && dto.totalPrice == Wrap(Sum(Prices(env.parts, us)))
      && (dto.totalPrice as int == Sum(Prices(env.parts, us)) <==> FitsInt64(Sum(Prices(env.parts, us))))
  {
    hide Step, Enabled, Keyed, Lawful, Inv;
    ReachableIsOk(env, ss, es, k);
    StoredIsOk(env, ss[k], id);
    var o := ss[k].orders[id];
    var dto := HandleGet(ss[k].orders, id).dto;
    assert dto.shieldUUID.Get() == o.shieldUUID && dto.weaponUUID.Get() == o.weaponUUID;
    if FitsInt64(Sum(Prices(env.parts, OrderSlots(o)))) {
      WrapOfFitting(Sum(Prices(env.parts, OrderSlots(o))));
    }
  }

  /**
   In every reachable state: each reported part is in the catalogue and was in stock, and the reported price is the sum
   of the prices of hull, engine, and shield and weapon where reported, up to a multiple of 2^64; it is that sum itself if
   and only if the sum is an int64.
   */
  lemma ReportedPriceWrapsOrIsExact(env: Env, ss: seq<System>, es: seq<Event>, k: nat, id: Uuid)
    requires IsRun(env, ss, es) && k <= |es| && id in ss[k].orders
    ensures HandleGet(ss[k].orders, id).Found?
    ensures var dto := HandleGet(ss[k].orders, id).dto;
      && dto.hullUUID in env.parts && dto.engineUUID in env.parts
      && (forall u :: u == dto.hullUUID || u == dto.engineUUID
                      || (dto.shieldUUID.isSet && !dto.shieldUUID.isNull && u == dto.shieldUUID.value)
                      || (dto.weaponUUID.isSet && !dto.weaponUUID.isNull && u == dto.weaponUUID.value) ==>
                        u in env.parts && env.parts[u].stockQuantity > 0)
      && var sum := env.parts[dto.hullUUID].price as int + env.parts[dto.engineUUID].price as int
                    + PriceOf(env.parts, dto.shieldUUID.Get()) + PriceOf(env.parts, dto.weaponUUID.Get());
      && (sum - dto.totalPrice as int) % 0x1_0000_0000_0000_0000 == 0
      && (dto.totalPrice as int == sum <==> -0x8000_0000_0000_0000 <= sum < 0x8000_0000_0000_0000)
  {
    hide Step, Enabled, Keyed, Lawful, Inv, DtoOf;
    ReportedPriceBySlots(env, ss, es, k, id);
    var dto := HandleGet(ss[k].orders, id).dto;
    var shield, weapon := dto.shieldUUID.Get(), dto.weaponUUID.Get();
    SlotsAreTheNamed(env.parts, dto.hullUUID, dto.engineUUID, shield, weapon);
    WrapIsCongruent(Sum(Prices(env.parts, SlotsOf(dto.hullUUID, dto.engineUUID, shield, weapon))), dto.totalPrice);
    hide Prices, Sum, SlotsOf, Wrap;
  }

  /** In every reachable state the reported price is exact when no catalogue price is above a quarter of the range. */
  lemma ReportedPriceIsExact(env: Env, ss: seq<System>, es: seq<Event>, k: nat, id: Uuid)
    requires IsRun(env, ss, es) && k <= |es| && id in ss[k].orders
    requires forall p :: p in env.parts ==> 0 <= env.parts[p].price as int <= 0x7fff_ffff_ffff_ffff / 4
    ensures HandleGet(ss[k].orders, id).Found?
    ensures var dto := HandleGet(ss[k].orders, id).dto;
      && dto.hullUUID in env.parts && dto.engineUUID in env.parts
      && dto.totalPrice as int ==
         env.parts[dto.hullUUID].price as int + env.parts[dto.engineUUID].price as int
         + PriceOf(env.parts, dto.shieldUUID.Get()) + PriceOf(env.parts, dto.weaponUUID.Get())
  {
    hide Step, Enabled, Keyed, Lawful, Inv, DtoOf;
    ReportedPriceWrapsOrIsExact(env, ss, es, k, id);
  }
}
