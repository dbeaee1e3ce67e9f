/** Runs in which writes overlap, for every request that can be accepted. */
module Race {
  import opened Base
  import opened Uuids
  import opened OrderTypes
  import opened Inventory
  import opened Handler
  import opened Protocol
  import opened Creation
  import opened Invariant
  import opened Steps
  import opened Refinement
  import opened Conservation
  import opened Finality
  import opened Linearisability
  import Payment

  /** A pay and a cancel that both read the pending order before either writes it. */
  function PayAndCancel(req: CreateOrderRequest, id: Uuid, tx: Uuid, now: int): seq<Event> {
    [CreateBegin(0, req, true, id, now), CreateCommit(0), PayBegin(1, id, CARD), CancelBegin(2, id),
     PayCharge(1, Answered(tx)), PayCommit(1, id), CancelCommit(2, id)]
  }

  /** Two payments that both read the pending order before either writes it. */
  function PayTwice(req: CreateOrderRequest, id: Uuid, tx1: Uuid, tx2: Uuid, now: int): seq<Event> {
    [CreateBegin(0, req, true, id, now), CreateCommit(0), PayBegin(1, id, CARD), PayBegin(2, id, SBP),
     PayCharge(1, Answered(tx1)), PayCharge(2, Answered(tx2)), PayCommit(1, id), PayCommit(2, id)]
  }

  /** The same two calls, with the cancellation written first. */
  function CancelThenPay(req: CreateOrderRequest, id: Uuid, tx: Uuid, now: int): seq<Event> {
    [CreateBegin(0, req, true, id, now), CreateCommit(0), PayBegin(1, id, CARD), CancelBegin(2, id),
     CancelCommit(2, id), PayCharge(1, Answered(tx)), PayCommit(1, id)]
  }

  /** After create, the order is pending and both calls hold it. */
  lemma CreatedState(env: Env, req: CreateOrderRequest, id: Uuid, now: int) returns (s1: System, s2: System, o: Order)
    requires Sound(env) && StartCreate(env, req, true).Ok?
    ensures Enabled(Init(), CreateBegin(0, req, true, id, now))
    ensures s1 == Step(env, Init(), CreateBegin(0, req, true, id, now)) && Enabled(s1, CreateCommit(0))
    ensures s2 == Step(env, s1, CreateCommit(0))
    ensures o == NewOrder(req, StartCreate(env, req, true).value, id, now)
    ensures o.status == PENDING_PAYMENT && o.transactionUUID == None
    ensures s2 == System(map[id := o], map[0 := Done(Created(id, o.totalPrice))], {id}, map[])
  {
    hide StartCreate, Lawful, Keyed;
    s1 := Step(env, Init(), CreateBegin(0, req, true, id, now));
    s2 := Step(env, s1, CreateCommit(0));
    o := NewOrder(req, StartCreate(env, req, true).value, id, now);
  }

  // ---- Single steps ----

  lemma PayReads(env: Env, s: System, c: CallId, id: Uuid, pm: PaymentMethod)
    requires Sound(env) && c !in s.calls && IsPending(s, id) && ProtoOf(pm).Some?
    ensures Enabled(s, PayBegin(c, id, pm))
    ensures Step(env, s, PayBegin(c, id, pm)) ==
            s.(calls := s.calls[c := Paying(id, pm, ProtoOf(pm).value, s.orders[id])])
  {
    hide Lawful, Keyed, ProtoOf;
    assert s.drawn + {} == s.drawn;
  }

  lemma CancelReads(env: Env, s: System, c: CallId, id: Uuid)
    requires Sound(env) && c !in s.calls && IsPending(s, id)
    ensures Enabled(s, CancelBegin(c, id))
    ensures Step(env, s, CancelBegin(c, id)) == s.(calls := s.calls[c := Cancelling(id, s.orders[id])])
  {
    hide Lawful, Keyed;
    assert s.drawn + {} == s.drawn;
  }

  lemma PayCharges(env: Env, s: System, c: CallId, tx: Uuid)
    requires Sound(env) && tx !in s.drawn
    requires c in s.calls && s.calls[c].Paying? && ProtoOf(s.calls[c].pm) == Some(s.calls[c].proto)
    ensures Enabled(s, PayCharge(c, Answered(tx)))
    ensures var call := s.calls[c];
            Step(env, s, PayCharge(c, Answered(tx))) ==
            Issued(s, c, tx, Entry(call.id, call.proto, c), Charged(call.id, call.pm, call.proto, call.snapshot, tx))
  {
    hide Lawful, Keyed, ProtoOf, Charge;
    ChargeIssues(env, s, c, Answered(tx));
  }

  lemma PayWrites(env: Env, s: System, c: CallId)
    requires Sound(env) && c in s.calls && s.calls[c].Charged?
    ensures Enabled(s, PayCommit(c, s.calls[c].id)) && Step(env, s, PayCommit(c, s.calls[c].id)) == CommitPay(s, c)
  {}

  lemma CancelWrites(env: Env, s: System, c: CallId)
    requires Sound(env) && c in s.calls && s.calls[c].Cancelling?
    ensures Enabled(s, CancelCommit(c, s.calls[c].id))
    ensures Step(env, s, CancelCommit(c, s.calls[c].id)) == CommitCancel(s, c)
  {}

  // ---- The two races ----

  /**
   For every request that can be accepted there is a run in which the order is paid, then overwritten as cancelled,
   and both callers are told that they succeeded, although a transaction was issued.
   */
  lemma PaidCanBeOverwritten(env: Env, req: CreateOrderRequest, id: Uuid, tx: Uuid, now: int) returns (ss: seq<System>)
    requires Sound(env) && StartCreate(env, req, true).Ok? && tx != id
    ensures IsRun(env, ss, PayAndCancel(req, id, tx, now)) && Overlap(PayAndCancel(req, id, tx, now), 3, 5, 6)
    ensures IsPaid(ss[6], id) && ss[7].orders.Keys == {id} && ss[7].orders[id].status == CANCELLED
    ensures ss[7].orders[id].transactionUUID == None && IssuedFor(ss[7], id) == {tx}
    ensures 1 in ss[7].calls && 2 in ss[7].calls
    ensures ss[7].calls[1] == PayDone(id, tx) && ss[7].calls[2] == Done(Cancelled)
  {
    hide StartCreate, Lawful, Keyed, StoredMethod, Step, Enabled;
    var es := PayAndCancel(req, id, tx, now);
    var s1, s2, o := CreatedState(env, req, id, now);
    PayReads(env, s2, 1, id, CARD);
    var s3 := Step(env, s2, es[2]);
    CancelReads(env, s3, 2, id);
    var s4 := Step(env, s3, es[3]);
    PayCharges(env, s4, 1, tx);
    var s5 := Step(env, s4, es[4]);
    PayWrites(env, s5, 1);
    var s6 := Step(env, s5, es[5]);
    CancelWrites(env, s6, 2);
    var s7 := Step(env, s6, es[6]);
    assert s7.orders == map[id := CancelledOrder(o)] && s7.ledger == map[tx := Entry(id, Payment.P_CARD, 1)];
    ss := [Init(), s1, s2, s3, s4, s5, s6, s7];
    forall i: nat | i < |es| ensures StepAt(env, ss, es, i) {
      assert i == 0 || i == 1 || i == 2 || i == 3 || i == 4 || i == 5 || i == 6;
    }
  }

  /** Likewise there is a run in which the order is cancelled and its client told so, and is then charged and paid. */
  lemma CancelledCanBePaid(env: Env, req: CreateOrderRequest, id: Uuid, tx: Uuid, now: int) returns (ss: seq<System>)
    requires Sound(env) && StartCreate(env, req, true).Ok? && tx != id
    ensures IsRun(env, ss, CancelThenPay(req, id, tx, now)) && Overlap(CancelThenPay(req, id, tx, now), 2, 4, 6)
    ensures IsCancelled(ss[5], id) && IsPaid(ss[7], id) && IssuedFor(ss[5], id) == {} && IssuedFor(ss[7], id) == {tx}
    ensures 1 in ss[7].calls && 2 in ss[5].calls && 2 in ss[7].calls
    ensures ss[5].calls[2] == ss[7].calls[2] == Done(Cancelled) && ss[7].calls[1] == PayDone(id, tx)
  {
    hide StartCreate, Lawful, Keyed, StoredMethod, Step, Enabled;
    var es := CancelThenPay(req, id, tx, now);
    var s1, s2, o := CreatedState(env, req, id, now);
    PayReads(env, s2, 1, id, CARD);
    var s3 := Step(env, s2, es[2]);
    CancelReads(env, s3, 2, id);
    var s4 := Step(env, s3, es[3]);
    CancelWrites(env, s4, 2);
    var s5 := Step(env, s4, es[4]);
    PayCharges(env, s5, 1, tx);
    var s6 := Step(env, s5, es[5]);
    PayWrites(env, s6, 1);
    var s7 := Step(env, s6, es[6]);
    assert s5.orders == map[id := CancelledOrder(o)] && s5.ledger == map[];
    assert s7.orders == map[id := PaidOrder(o, Payment.P_CARD, tx)] && s7.ledger == map[tx := Entry(id, Payment.P_CARD, 1)];
    ss := [Init(), s1, s2, s3, s4, s5, s6, s7];
    forall i: nat | i < |es| ensures StepAt(env, ss, es, i) {
      assert i == 0 || i == 1 || i == 2 || i == 3 || i == 4 || i == 5 || i == 6;
    }
  }

  /** Likewise there is a run in which two payments of one order both succeed and two transactions are issued. */
  lemma OrderCanBePaidTwice(env: Env, req: CreateOrderRequest, id: Uuid, tx1: Uuid, tx2: Uuid, now: int)
    returns (ss: seq<System>)
    requires Sound(env) && StartCreate(env, req, true).Ok? && tx1 != id && tx2 != id && tx1 != tx2
    ensures IsRun(env, ss, PayTwice(req, id, tx1, tx2, now))
    ensures 1 in ss[8].calls && 2 in ss[8].calls
    ensures ss[8].calls[1] == PayDone(id, tx1) && ss[8].calls[2] == PayDone(id, tx2)
    ensures IssuedFor(ss[8], id) == {tx1, tx2}
    ensures id in ss[8].orders && ss[8].orders[id].transactionUUID == Some(tx2)
  {
    hide StartCreate, Lawful, Keyed, StoredMethod, Step, Enabled;
    var es := PayTwice(req, id, tx1, tx2, now);
    var s1, s2, o := CreatedState(env, req, id, now);
    PayReads(env, s2, 1, id, CARD);
    var s3 := Step(env, s2, es[2]);
    PayReads(env, s3, 2, id, SBP);
    var s4 := Step(env, s3, es[3]);
    PayCharges(env, s4, 1, tx1);
    var s5 := Step(env, s4, es[4]);
    PayCharges(env, s5, 2, tx2);
    var s6 := Step(env, s5, es[5]);
    PayWrites(env, s6, 1);
    var s7 := Step(env, s6, es[6]);
    PayWrites(env, s7, 2);
    var s8 := Step(env, s7, es[7]);
    assert s8.orders == map[id := PaidOrder(o, Payment.P_SBP, tx2)];
    assert s8.ledger == map[tx1 := Entry(id, Payment.P_CARD, 1), tx2 := Entry(id, Payment.P_SBP, 2)];
    ss := [Init(), s1, s2, s3, s4, s5, s6, s7, s8];
    forall i: nat | i < |es| ensures StepAt(env, ss, es, i) {
      assert i == 0 || i == 1 || i == 2 || i == 3 || i == 4 || i == 5 || i == 6 || i == 7;
    }
  }

  // ---- What whole operations would keep ----

  /** Every payment that was reported is still what the store shows. */
  ghost predicate PaymentsShow(a: Atomic) {
    forall c :: c in a.replies && a.replies[c].Paid? ==>
                  exists id :: id in a.orders && a.orders[id].status == PAID
                            && a.orders[id].transactionUUID == Some(a.replies[c].transactionUUID)
  }

  lemma PerformKeepsPayments(env: Env, a: Atomic, op: Op)
    requires Lawful(env.text) && PaymentsShow(a) && (op.OpCreate? ==> op.newId !in a.orders)
    ensures PaymentsShow(Perform(env, a, op))
  {
    hide StartCreate, Lawful, Charge, StoredMethod, NewOrder, DtoOf, ProtoOf;
    var b := Perform(env, a, op);
    if op.OpCreate? { CreateRejectsWithProblem(env, op.req, op.reachable); }
    forall c | c in b.replies && b.replies[c].Paid?
      ensures exists id :: id in b.orders && b.orders[id].status == PAID
                        && b.orders[id].transactionUUID == Some(b.replies[c].transactionUUID)
    {
      if c == op.c {
        assert op.OpPay? && op.id in b.orders && b.orders[op.id].status == PAID;
      } else {
        var id :| id in a.orders && a.orders[id].status == PAID
               && a.orders[id].transactionUUID == Some(a.replies[c].transactionUUID);
        assert id in b.orders && b.orders[id] == a.orders[id];
      }
    }
  }

  lemma {:induction false} AtomicRunsKeepPayments(env: Env, a: Atomic, ops: seq<Op>)
    requires Lawful(env.text) && PaymentsShow(a) && DrawsFresh(env, a, ops)
    ensures PaymentsShow(PerformAll(env, a, ops))
    decreases |ops|
  {
    hide Perform, PaymentsShow, Lawful;
    if ops != [] {
      PerformKeepsPayments(env, a, ops[0]);
      AtomicRunsKeepPayments(env, Perform(env, a, ops[0]), ops[1..]);
    }
  }

  /** The pay and cancel race is a run that no whole operations, in any order, explain. */
  lemma NoAtomicOrderExplainsTheRace(env: Env, req: CreateOrderRequest, id: Uuid, tx: Uuid, now: int)
    returns (ss: seq<System>)
    requires Sound(env) && StartCreate(env, req, true).Ok? && tx != id
    ensures IsRun(env, ss, PayAndCancel(req, id, tx, now))
    ensures forall ops :: !Explains(env, ops, Observed(ss[7]))
  {
    hide StartCreate, Keyed, Lawful, Step, Explains, IsPaid, IssuedFor;
    ss := PaidCanBeOverwritten(env, req, id, tx, now);
    var es := PayAndCancel(req, id, tx, now);
    assert Overlap(es, 3, 5, 6) && |es| == 7;
    hide PayAndCancel, Overlap;
    ExplainedExactlyWhenNothingOverlaps(env, ss, es);
  }

  /** There are catalogues from which a request can be accepted. */
  lemma SomeRequestIsAccepted() returns (env: Env, req: CreateOrderRequest)
    ensures Sound(env) && StartCreate(env, req, true).Ok?
  {
    CanonicalTextIsLawful();
    var text := UuidText(CanonicalFormat, CanonicalParse);
    hide CanonicalFormat, CanonicalParse, Lawful, StartCreate;
    env := Env(text, map[1 := Part(text.format(1), "", "", 1, 1, 1, 0)]);
    req := CreateOrderRequest(1, 1, OptNil(NIL, false, false), OptNil(NIL, false, false));
    CreateFollowsSlots(env, req);
    assert Slots(req) == [1, 1];
  }

  /** A part of price 2^62 named twice: the sum is no int64, and a get reports the least one. */
  lemma PriceCanWrap(id: Uuid, now: int) returns (env: Env, req: CreateOrderRequest, ss: seq<System>)
    ensures IsRun(env, ss, [CreateBegin(0, req, true, id, now), CreateCommit(0)])
    ensures id in ss[2].orders && (forall i :: 0 <= i < |OrderSlots(ss[2].orders[id])| ==> OrderSlots(ss[2].orders[id])[i] in env.parts)
    ensures !FitsInt64(Sum(Prices(env.parts, OrderSlots(ss[2].orders[id]))))
    ensures HandleGet(ss[2].orders, id).Found? && HandleGet(ss[2].orders, id).dto.totalPrice as int == -TWO_63
  {
    CanonicalTextIsLawful();
    var text := UuidText(CanonicalFormat, CanonicalParse);
    hide CanonicalFormat, CanonicalParse, Lawful, StartCreate, Step, Enabled;
    env := Env(text, map[1 := Part(text.format(1), "", "", 0x4000_0000_0000_0000, 1, 1, 0)]);
    req := CreateOrderRequest(1, 1, OptNil(NIL, false, false), OptNil(NIL, false, false));
    CreateFollowsSlots(env, req);
    assert Slots(req) == [1, 1];
    var s1, s2, o := CreatedState(env, req, id, now);
    ss := [Init(), s1, s2];
    var es := [CreateBegin(0, req, true, id, now), CreateCommit(0)];
    forall i: nat | i < |es| ensures StepAt(env, ss, es, i) {
      assert i == 0 || i == 1;
    }
    var part: Uuid := 1;
    assert OrderSlots(o) == [part, part];
    assert Prices(env.parts, [part, part]) == [0x4000_0000_0000_0000, 0x4000_0000_0000_0000];
    SumOfTwo(0x4000_0000_0000_0000, 0x4000_0000_0000_0000);
  }

  lemma SumOfTwo(a: int, b: int)
    ensures Sum([a, b]) == a + b
  {
    assert [a, b][..1] == [a] && [a][..0] == [];
    assert Sum([a]) == a;
  }
}
