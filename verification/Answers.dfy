/**
 What pay, cancel and get answer, decided by what is stored and, over whole runs, by what was written last.
 */
module Answers {
  import opened Base
  import opened Uuids
  import opened OrderTypes
  import opened Inventory
  import opened Handler
  import opened Protocol
  import opened Invariant
  import opened Steps
  import opened Freeze
  import opened Refinement
  import opened Conservation
  import opened Finality

  // ---- Whole operations ----

  predicate StoredAs(orders: Orders, id: Uuid, status: OrderStatus) {
    id in orders && orders[id].status == status
  }

  /**
   Pay: 404 without an order; 409 for a paid or cancelled one; a conflict that claims 404 for any other status but
   pending; no response for an unknown method; 500 if the payment call is not answered; and else the transaction, with
   which the order is stored as paid. Nothing else changes the store.
   */
  lemma PayIsDecidedBy(env: Env, orders: Orders, id: Uuid, pm: PaymentMethod, outcome: Outcome)
    requires Lawful(env.text)
    ensures var (after, reply) := HandlePay(env, orders, id, pm, outcome);
      && (id !in orders <==> reply == Problem(Operation.PayOrder, NotFoundKind, ErrorBody(404, "заказ не найден")))
      && (StoredAs(orders, id, PAID) || StoredAs(orders, id, CANCELLED) <==>
            reply == Problem(Operation.PayOrder, Conflict, ErrorBody(409, "заказ уже оплачен или отменён")))
      && (id in orders && orders[id].status.OtherStatus? <==>
            reply == Problem(Operation.PayOrder, Conflict, ErrorBody(404, "заказ не найден")))
      && (StoredAs(orders, id, PENDING_PAYMENT) && pm.OtherMethod? <==> reply == Failed)
      && (StoredAs(orders, id, PENDING_PAYMENT) && !pm.OtherMethod? && !outcome.Answered? <==>
            reply == Problem(Operation.PayOrder, InternalServerError, ErrorBody(500, "ошибка оплаты")))
      && (StoredAs(orders, id, PENDING_PAYMENT) && !pm.OtherMethod? && outcome.Answered? <==> reply.Paid?)
      && (reply.Paid? ==>
            && reply == Paid(outcome.tx)
            && after == orders[id := orders[id].(status := PAID, transactionUUID := Some(outcome.tx),
                                                 paymentMethod := Some(MethodText(pm)))])
      && (!reply.Paid? ==> after == orders)
  {
    hide Lawful, Charge, StoredMethod, MethodText;
    if !pm.OtherMethod? {
      KnownMethod(pm);
      StoredMethodIsTheRequested(pm);
      if outcome.Answered? { ChargeIsAccepted(env.text, id, pm, outcome.tx); }
    }
  }

  lemma KnownMethod(pm: PaymentMethod)
    ensures ProtoOf(pm).Some? <==> !pm.OtherMethod?
  {}

  /** Cancel: 404 without an order, 409 for a paid or a cancelled one; any other is stored as cancelled. */
  lemma CancelIsDecidedBy(orders: Orders, id: Uuid)
    ensures var (after, reply) := HandleCancel(orders, id);
      && (id !in orders <==> reply == Problem(Operation.CancelOrder, NotFoundKind, ErrorBody(404, "заказ не найден")))
      && (StoredAs(orders, id, PAID) <==>
            reply == Problem(Operation.CancelOrder, Conflict,
                             ErrorBody(409, "заказ уже оплачен и не может быть отменён")))
      && (StoredAs(orders, id, CANCELLED) <==>
            reply == Problem(Operation.CancelOrder, Conflict, ErrorBody(409, "заказ уже отменен")))
      && (StoredAs(orders, id, PENDING_PAYMENT) || (id in orders && orders[id].status.OtherStatus?) <==>
            reply == Cancelled)
      && (reply == Cancelled ==> after == orders[id := orders[id].(status := CANCELLED)])
      && (reply != Cancelled ==> after == orders)
  {
    MessagesDiffer();
  }

  lemma MessagesDiffer()
    ensures "заказ уже оплачен и не может быть отменён" != "заказ уже отменен"
  {
    assert |"заказ уже оплачен и не может быть отменён"| > |"заказ уже отменен"|;
  }

  // ---- The same among interleaved calls: the answer is decided when the call reads ----

  /** A pay that begins is rejected by the same rules, and else goes on to charge with what it read. */
  lemma PayBeginIsDecidedBy(env: Env, s: System, c: CallId, id: Uuid, pm: PaymentMethod)
    requires Sound(env) && Enabled(s, PayBegin(c, id, pm))
    ensures var t := Step(env, s, PayBegin(c, id, pm));
      && c in t.calls
      && var done := HandlePay(env, s.orders, id, pm, Refused).1;
      if StoredAs(s.orders, id, PENDING_PAYMENT) && !pm.OtherMethod? then
        t.calls[c].Paying? && t.calls[c].id == id && t.calls[c].pm == pm && t.calls[c].snapshot == s.orders[id]
      else t.calls[c] == Done(done)
  {
    hide Sound, Lawful;
    KnownMethod(pm);
  }

  lemma CancelBeginIsDecidedBy(env: Env, s: System, c: CallId, id: Uuid)
    requires Sound(env) && Enabled(s, CancelBegin(c, id))
    ensures var t := Step(env, s, CancelBegin(c, id));
      && c in t.calls
      && if HandleCancel(s.orders, id).1 == Cancelled then t.calls[c] == Cancelling(id, s.orders[id])
         else t.calls[c] == Done(HandleCancel(s.orders, id).1)
  {
    hide Sound, Lawful;
  }

  // ---- What get reports ----

  predicate WritesOrder(e: Event, id: Uuid) {
    (e.PayCommit? || e.CancelCommit?) && e.id == id
  }

  /** Event j is the last before state k that pays or cancels the order. */
  ghost predicate LastWrite(es: seq<Event>, j: nat, k: nat, id: Uuid) {
    j < k <= |es| && WritesOrder(es[j], id) && forall w :: j < w < k ==> !WritesOrder(es[w], id)
  }

  /** The report shows no payment. */
  predicate ShowsNoPayment(dto: OrderDto) {
    !dto.transactionUUID.isSet && !dto.paymentMethod.isSet
  }

  predicate ShowsPayment(dto: OrderDto, tx: Uuid, pm: PaymentMethod) {
    && dto.transactionUUID.isSet && !dto.transactionUUID.isNull && dto.transactionUUID.value == tx
    && dto.paymentMethod.isSet && !dto.paymentMethod.isNull && dto.paymentMethod.value == pm
  }

  lemma ReportOfRecord(env: Env, s: System, id: Uuid)
    requires Inv(env, s) && id in s.orders
    ensures var r := HandleGet(s.orders, id); var o := s.orders[id];
      && r.Found? && r.dto.orderUUID == id && r.dto.status == o.status && !o.status.OtherStatus?
      && (o.status != PAID ==> ShowsNoPayment(r.dto))
      && (o.status == PAID ==>
            o.transactionUUID.Some? && o.paymentMethod.Some?
            && ShowsPayment(r.dto, o.transactionUUID.value, MethodOf(o.paymentMethod.value)))
  {
    hide Inv, MethodOf, Priced;
    StoredIsOk(env, s, id);
  }

  /** A call that pays was asked to, with the method it goes on with. */
  lemma {:induction false} PayWasAsked(env: Env, ss: seq<System>, es: seq<Event>, k: nat, c: CallId) returns (b: nat)
    requires IsRun(env, ss, es) && k <= |es| && c in ss[k].calls && (ss[k].calls[c].Paying? || ss[k].calls[c].Charged?)
    ensures b < k && es[b] == PayBegin(c, ss[k].calls[c].id, ss[k].calls[c].pm)
  {
    hide Step, Keyed, Enabled;
    assert k > 0 && StepAt(env, ss, es, k - 1);
    PayingStep(env, ss[k - 1], es[k - 1], c);
    if es[k - 1].c == c && IsBegin(es[k - 1]) {
      b := k - 1;
    } else {
      b := PayWasAsked(env, ss, es, k - 1, c);
    }
  }

  lemma PayingStep(env: Env, s: System, e: Event, c: CallId)
    requires Sound(env) && Enabled(s, e)
    requires c in Step(env, s, e).calls && (Step(env, s, e).calls[c].Paying? || Step(env, s, e).calls[c].Charged?)
    ensures var call := Step(env, s, e).calls[c];
      if e.c == c && IsBegin(e) then e == PayBegin(c, call.id, call.pm)
      else c in s.calls && (s.calls[c].Paying? || s.calls[c].Charged?) && s.calls[c].id == call.id && s.calls[c].pm == call.pm
  {
    hide Step, Enabled, Lawful, Keyed;
    if IsBegin(e) {
      BeginStep(env, s, e);
    } else if IsCharge(e) {
      ChargeStep(env, s, e);
    } else {
      StoreStep(env, s, e);
    }
  }

  /** What a payment's write stores: the call's transaction and the method the call was asked for. */
  lemma PaymentStores(env: Env, ss: seq<System>, es: seq<Event>, j: nat) returns (b: nat, pm: PaymentMethod)
    requires IsRun(env, ss, es) && j < |es| && es[j].PayCommit?
    ensures b < j && es[b] == PayBegin(es[j].c, es[j].id, pm)
    ensures es[j].id in ss[j + 1].orders
    ensures ss[j + 1].orders[es[j].id].paymentMethod.Some? && MethodOf(ss[j + 1].orders[es[j].id].paymentMethod.value) == pm
  {
    hide Step, Enabled, Keyed, Lawful, MethodOf, StoredMethod, Inv;
    assert StepAt(env, ss, es, j);
    StoreStep(env, ss[j], es[j]);
    var call := ss[j].calls[es[j].c];
    b := PayWasAsked(env, ss, es, j, es[j].c);
    pm := call.pm;
    ReachableIsOk(env, ss, es, j);
    ChargedProto(env, ss[j], es[j].c);
    StoredMethodIsTheRequested(pm);
  }

  /** An order without writes is as it was created, and one with a write is as the last of them left it. */
  lemma LastWriteDecides(env: Env, ss: seq<System>, es: seq<Event>, k: nat, id: Uuid) returns (j: nat)
    requires IsRun(env, ss, es) && k <= |es| && id in ss[k].orders
    ensures !Terminal(ss[k], id) ==> forall w: nat :: w < k ==> !WritesOrder(es[w], id)
    ensures Terminal(ss[k], id) ==>
              LastWrite(es, j, k, id) && id in ss[j + 1].orders && ss[j + 1].orders[id] == ss[k].orders[id]
              && ss[k].orders[id].status == if es[j].PayCommit? then PAID else CANCELLED
  {
    hide Step, Inv, Enabled, Keyed;
    j := 0;
    if Terminal(ss[k], id) {
      j := WasFinalised(env, ss, es, k, id);
    } else {
      forall w: nat | w < k ensures !WritesOrder(es[w], id) {
        if WritesOrder(es[w], id) {
          AfterWrite(env, ss, es, w);
          TerminalInside(env, ss, es, w + 1, k, id);
          assert false;
        }
      }
    }
  }

  lemma OneLastWrite(es: seq<Event>, i: nat, j: nat, k: nat, id: Uuid)
    requires LastWrite(es, i, k, id) && LastWrite(es, j, k, id)
    ensures i == j
  {}

  /**
   In every reachable state an unknown order is answered with 404, and a known one is reported as pending, without a
   payment, iff no payment or cancellation of it was written; as cancelled, without one, iff the last write was a
   cancellation; and as paid iff the last write was a payment.
   */
  lemma GetTellsTheLastWrite(env: Env, ss: seq<System>, es: seq<Event>, k: nat, id: Uuid)
    requires IsRun(env, ss, es) && k <= |es|
    ensures id !in ss[k].orders <==>
            HandleGet(ss[k].orders, id) == Problem(Operation.GetOrder, NotFoundKind, ErrorBody(404, "заказ не найден"))
    ensures id in ss[k].orders ==>
              && HandleGet(ss[k].orders, id).Found?
              && var dto := HandleGet(ss[k].orders, id).dto;
              && (dto.status == PENDING_PAYMENT && ShowsNoPayment(dto) <==> forall w: nat :: w < k ==> !WritesOrder(es[w], id))
              && (dto.status == CANCELLED && ShowsNoPayment(dto) <==> exists j: nat :: LastWrite(es, j, k, id) && es[j].CancelCommit?)
              && (dto.status == PAID && dto.transactionUUID.isSet && dto.paymentMethod.isSet <==>
                    exists j: nat :: LastWrite(es, j, k, id) && es[j].PayCommit?)
  {
    hide Step, Inv, Enabled, Keyed;
    if id in ss[k].orders {
      ReachableIsOk(env, ss, es, k);
      ReportOfRecord(env, ss[k], id);
      var j := LastWriteDecides(env, ss, es, k, id);
      hide HandleGet;
      if Terminal(ss[k], id) {
        forall i: nat | LastWrite(es, i, k, id) ensures i == j {
          OneLastWrite(es, i, j, k, id);
        }
      }
    }
  }

  /** What a get reports of a paid order: the transaction that the last writer was told, and the method it was asked for. */
  lemma PaidReportIsTheLastPayment(env: Env, ss: seq<System>, es: seq<Event>, j: nat, k: nat, id: Uuid)
    returns (b: nat, tx: Uuid, pm: PaymentMethod)
    requires IsRun(env, ss, es) && LastWrite(es, j, k, id) && es[j].PayCommit?
    ensures b < j && es[b] == PayBegin(es[j].c, id, pm)
    ensures es[j].c in ss[k].calls && ReplyOf(ss[k].calls[es[j].c]) == Some(Paid(tx))
    ensures tx in ss[k].ledger && ss[k].ledger[tx].order == id && ss[k].ledger[tx].call == es[j].c
    ensures HandleGet(ss[k].orders, id).Found? && HandleGet(ss[k].orders, id).dto.status == PAID
    ensures ShowsPayment(HandleGet(ss[k].orders, id).dto, tx, pm)
  {
    hide Step, Inv, Enabled, Keyed, MethodOf;
    tx := PaidByCall(env, ss, es, j, k);
    b, pm := PaymentStores(env, ss, es, j);
    AfterWrite(env, ss, es, j);
    TerminalInside(env, ss, es, j + 1, k, id);
    var last := LastWriteDecides(env, ss, es, k, id);
    OneLastWrite(es, j, last, k, id);
    ReachableIsOk(env, ss, es, k);
    ReportOfRecord(env, ss[k], id);
    EntryOfCall(env, ss[k], es[j].c);
  }

  /** A get among interleaved calls is answered from the store at its one step. */
  lemma GetIsAnsweredAtOnce(env: Env, s: System, c: CallId, id: Uuid)
    requires Sound(env) && Enabled(s, GetCall(c, id))
    ensures var t := Step(env, s, GetCall(c, id));
            t.orders == s.orders && c in t.calls && ReplyOf(t.calls[c]) == Some(HandleGet(s.orders, id))
  {
    hide HandleGet;
  }
}
