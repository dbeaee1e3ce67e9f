/** What the steps do that store no order: they move one call on, and nothing else but what they draw and issue. */
module Steps {
  import opened Uuids
  import opened OrderTypes
  import opened Inventory
  import opened Handler
  import opened Protocol

  predicate IsBegin(e: Event) {
    e.CreateBegin? || e.PayBegin? || e.CancelBegin? || e.GetCall?
  }

  predicate IsCharge(e: Event) {
    e.PayCharge? || e.PayActsLate?
  }

  predicate IsPending(s: System, id: Uuid) {
    id in s.orders && s.orders[id].status == PENDING_PAYMENT
  }

  /** How a call starts: with a snapshot of a stored order, with the order it will store, or with its reply. */
  predicate StartsAs(s: System, e: Event, next: Call) {
    match next
    case Creating(req, o) => e == CreateBegin(e.c, req, true, o.orderUUID, o.createdAt)
    case Paying(id, pm, _, snapshot) => e == PayBegin(e.c, id, pm) && IsPending(s, id) && snapshot == s.orders[id]
    case Cancelling(id, snapshot) =>
      e == CancelBegin(e.c, id) && id in s.orders && snapshot == s.orders[id]
      && (IsPending(s, id) || snapshot.status.OtherStatus?)
    case Done(reply) => reply.Problem? || reply.Failed? || (reply.Found? && e.GetCall?)
    case _ => false
  }

  lemma CreateRejectsWithProblem(env: Env, req: CreateOrderRequest, reachable: bool)
    ensures StartCreate(env, req, reachable).Err? ==> StartCreate(env, req, reachable).error.Problem?
    ensures StartCreate(env, req, reachable).Ok? ==> reachable
  {
    hide ListByUuids, Tally, PartsMap, Texts;
  }

  lemma BeginStep(env: Env, s: System, e: Event)
    requires Sound(env) && Enabled(s, e) && IsBegin(e)
    ensures var t := Step(env, s, e);
      && t.orders == s.orders && t.ledger == s.ledger && e.c !in s.calls && e.c in t.calls
      && t.calls == s.calls[e.c := t.calls[e.c]] && StartsAs(s, e, t.calls[e.c])
  {
    hide Sound, Lawful, StartCreate, DtoOf;
    if e.CreateBegin? { CreateRejectsWithProblem(env, e.req, e.reachable); }
  }

  /** How a payment call goes on once the server has acted or the handler has given up. */
  predicate GoesOnAs(call: Call, next: Call) {
    match next
    case Charged(id, pm, proto, snapshot, _) => call == Paying(id, pm, proto, snapshot)
    case PayLost(id, _) => (call.Paying? || call.PayAbandoned?) && call.id == id
    case PayAbandoned(id, pm, proto) => (call.Paying? || call.PayAbandoned?) && call.id == id
    case Done(reply) => call.Paying? && reply == PaymentError()
    case _ => false
  }

  lemma ChargeStep(env: Env, s: System, e: Event)
    requires Sound(env) && Enabled(s, e) && IsCharge(e)
    ensures var t := Step(env, s, e);
      && t.orders == s.orders && e.c in s.calls && e.c in t.calls
      && t.calls == s.calls[e.c := t.calls[e.c]] && GoesOnAs(s.calls[e.c], t.calls[e.c])
    ensures if e.PayCharge? then s.calls[e.c].Paying? else s.calls[e.c].PayAbandoned?
  {
    hide Lawful, Keyed, ChargePay, ActLate;
    if e.PayCharge? { ChargeMoves(env, s, e.c, e.outcome); } else { ActMoves(env, s, e.c, e.tx); }
  }

  lemma ChargeMoves(env: Env, s: System, c: CallId, outcome: Outcome)
    requires Lawful(env.text) && c in s.calls && s.calls[c].Paying?
    ensures var t := ChargePay(env, s, c, outcome);
      && t.orders == s.orders && c in t.calls && t.calls == s.calls[c := t.calls[c]]
      && GoesOnAs(s.calls[c], t.calls[c])
  {
    hide Lawful, Charge;
  }

  lemma ActMoves(env: Env, s: System, c: CallId, tx: Uuid)
    requires Lawful(env.text) && c in s.calls && s.calls[c].PayAbandoned?
    ensures var t := ActLate(env, s, c, tx);
      && t.orders == s.orders && c in t.calls && t.calls == s.calls[c := t.calls[c]]
      && GoesOnAs(s.calls[c], t.calls[c])
  {
    hide Lawful, Charge;
  }

  /** Every other event stores an order on behalf of the call that it finishes. */
  lemma StoreStep(env: Env, s: System, e: Event)
    requires Sound(env) && Enabled(s, e) && !IsBegin(e) && !IsCharge(e)
    ensures e.c in s.calls
    ensures if e.CreateCommit? then s.calls[e.c].Creating? && Step(env, s, e) == CommitCreate(s, e.c)
            else if e.PayCommit? then s.calls[e.c].Charged? && s.calls[e.c].id == e.id && Step(env, s, e) == CommitPay(s, e.c)
            else e.CancelCommit? && s.calls[e.c].Cancelling? && s.calls[e.c].id == e.id && Step(env, s, e) == CommitCancel(s, e.c)
  {}
}
