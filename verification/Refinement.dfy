/**
 Interleaved runs against the atomic machine, whose steps are whole operations. Successful creates, payments and
 cancellations take effect at their write, rejections and reads at the read, and so do payments that go on to fail.
 */
module Refinement {
  import opened Base
  import opened Uuids
  import opened OrderTypes
  import opened Inventory
  import opened Handler
  import opened Protocol
  import opened Invariant
  import opened Steps

  /** The atomic machine: the store, and the reply each call was given. */
  datatype Atomic = Atomic(orders: Orders, replies: map<CallId, Reply>)

  datatype Op =
    | OpCreate(c: CallId, req: CreateOrderRequest, reachable: bool, newId: Uuid, now: int)
    | OpPay(c: CallId, id: Uuid, pm: PaymentMethod, outcome: Outcome)
    | OpCancel(c: CallId, id: Uuid)
    | OpGet(c: CallId, id: Uuid)

  function Handle(env: Env, orders: Orders, op: Op): (Orders, Reply)
    requires Lawful(env.text)
  {
    match op
    case OpCreate(_, req, reachable, newId, now) => HandleCreate(env, orders, req, reachable, newId, now)
    case OpPay(_, id, pm, outcome) => HandlePay(env, orders, id, pm, outcome)
    case OpCancel(_, id) => HandleCancel(orders, id)
    case OpGet(_, id) => (orders, HandleGet(orders, id))
  }

  function Perform(env: Env, a: Atomic, op: Op): Atomic
    requires Lawful(env.text)
  {
    var done := Handle(env, a.orders, op);
    Atomic(done.0, a.replies[op.c := done.1])
  }

  function PerformAll(env: Env, a: Atomic, ops: seq<Op>): Atomic
    requires Lawful(env.text)
    decreases |ops|
  {
    if ops == [] then a else PerformAll(env, Perform(env, a, ops[0]), ops[1..])
  }

  // ---- Linearisation ----

  ghost predicate FailsLater(es: seq<Event>, c: CallId, k: nat) {
    exists j :: k <= j < |es| && es[j].PayCharge? && es[j].c == c && !es[j].outcome.Answered?
  }

  /** The operation that takes effect at event k, if one does. */
  ghost function OpAt(env: Env, s: System, es: seq<Event>, k: nat): Option<Op>
    requires k < |es| && Enabled(s, es[k])
  {
    match es[k]
    case CreateBegin(c, req, reachable, newId, now) =>
      if StartCreate(env, req, reachable).Err? then Some(OpCreate(c, req, reachable, newId, now)) else None
    case CreateCommit(c) =>
      var o := s.calls[c].order;
      Some(OpCreate(c, s.calls[c].req, true, o.orderUUID, o.createdAt))
    case PayBegin(c, id, pm) =>
      if StartPay(s.orders, id, pm).Rejected? || FailsLater(es, c, k + 1) then Some(OpPay(c, id, pm, Refused)) else None
    case PayCharge(_, _) => None
    case PayActsLate(_, _) => None
    case PayCommit(c, id) => Some(OpPay(c, id, s.calls[c].pm, Answered(s.calls[c].tx)))
    case CancelBegin(c, id) => if StartCancel(s.orders, id).Rejected? then Some(OpCancel(c, id)) else None
    case CancelCommit(c, id) => Some(OpCancel(c, id))
    case GetCall(c, id) => Some(OpGet(c, id))
  }

  /** The operations of a run in the order in which they take effect, from event k on. */
  ghost function Linearised(env: Env, ss: seq<System>, es: seq<Event>, k: nat): seq<Op>
    requires IsRun(env, ss, es) && k <= |es|
    decreases |es| - k
  {
    if k == |es| then [] else
      assert StepAt(env, ss, es, k);
      match OpAt(env, ss[k], es, k)
      case None => Linearised(env, ss, es, k + 1)
      case Some(op) => [op] + Linearised(env, ss, es, k + 1)
  }

  /** What clients can see of a state: the store, and the replies given so far. */
  function Observed(s: System): Atomic {
    Atomic(s.orders, map c | c in s.calls && ReplyOf(s.calls[c]).Some? :: ReplyOf(s.calls[c]).value)
  }

  predicate IsWrite(e: Event) {
    e.PayCommit? || e.CancelCommit?
  }

  /** Between the read at i and the write at k of one call, another call writes the same order. */
  predicate Overlap(es: seq<Event>, i: nat, j: nat, k: nat) {
    && i < j < k < |es|
    && (es[i].PayBegin? || es[i].CancelBegin?) && IsWrite(es[j]) && IsWrite(es[k])
    && es[i].c == es[k].c && es[j].c != es[k].c && es[j].id == es[k].id
  }

  ghost predicate NonOverlapping(es: seq<Event>) {
    forall i: nat, j: nat, k: nat :: !Overlap(es, i, j, k)
  }

  // ---- A write finds its order pending exactly when nothing overlaps ----

  /** The order a pay or cancel is about to write is still pending. */
  predicate Current(s: System, e: Event) {
    IsWrite(e) ==> e.id in s.orders && s.orders[e.id].status == PENDING_PAYMENT
  }

  /** What a single step does to the holders of snapshots and to pending orders. */
  lemma StepEffects(env: Env, s: System, e: Event, c: CallId, id: Uuid)
    requires Sound(env) && Inv(env, s) && Enabled(s, e)
    ensures var t := Step(env, s, e);
      && (c in t.calls && Holds(t.calls[c]) == Some(id) ==>
            || (c in s.calls && c != e.c && Holds(s.calls[c]) == Some(id))
            || (c in s.calls && c == e.c && e.PayCharge? && Holds(s.calls[c]) == Some(id))
            || (c == e.c && (e.PayBegin? || e.CancelBegin?) && IsPending(s, id) && IsPending(t, id)))
      && (IsPending(s, id) && !IsPending(t, id) ==> IsWrite(e) && e.id == id)
      && (IsWrite(e) && e.id == id ==> id in s.orders && id in t.orders && !IsPending(t, id))
  {
    hide Step, Enabled, Inv, NewOrder, PaidOrder, CancelledOrder, Lawful, Keyed;
    if IsBegin(e) {
      BeginStep(env, s, e);
      if id in s.orders { StoredIsOk(env, s, id); }
    } else if IsCharge(e) {
      ChargeStep(env, s, e);
    } else {
      StoreStep(env, s, e);
      StoredFinally(s.calls[e.c]);
      if e.CreateCommit? { NewIdsAreDrawn(env, s); } else { HeldIsStored(env, s, e.c); }
    }
  }

  /** What a pay or cancel writes is not pending. */
  lemma StoredFinally(call: Call)
    ensures call.Charged? ==> PaidOrder(call.snapshot, call.proto, call.tx).status == PAID
    ensures call.Cancelling? ==> CancelledOrder(call.snapshot).status == CANCELLED
  {}

  lemma HeldIsStored(env: Env, s: System, c: CallId)
    requires Inv(env, s) && c in s.calls && Holds(s.calls[c]).Some?
    ensures s.calls[c].id in s.orders && SnapshotOk(env, s, s.calls[c].id, s.calls[c].snapshot)
  {
    hide StoreOk, EntryOk, NewIdsDiffer, SnapshotOk;
    assert CallOk(env, s, c);
    hide CallOk;
    assert SnapshotOk(env, s, s.calls[c].id, s.calls[c].snapshot);
    SnapshotIsStored(env, s, s.calls[c].id, s.calls[c].snapshot);
  }

  lemma SnapshotIsStored(env: Env, s: System, id: Uuid, snapshot: Order)
    requires SnapshotOk(env, s, id, snapshot)
    ensures id in s.orders
  {}

  /** A call that holds a snapshot read it earlier; the order was pending then, and only others can have written it. */
  lemma {:induction false} WasRead(env: Env, ss: seq<System>, es: seq<Event>, k: nat, c: CallId, id: Uuid) returns (i: nat)
    requires IsRun(env, ss, es) && k <= |es| && c in ss[k].calls && Holds(ss[k].calls[c]) == Some(id)
    ensures i < k && (es[i].PayBegin? || es[i].CancelBegin?) && es[i].c == c
    ensures IsPending(ss[i + 1], id)
    ensures forall j :: i < j < k && IsWrite(es[j]) ==> es[j].c != c
    decreases k
  {
    hide Step, Inv, Keyed, IsPending;
    assert k > 0;
    ReachableIsOk(env, ss, es, k - 1);
    assert StepAt(env, ss, es, k - 1);
    StepEffects(env, ss[k - 1], es[k - 1], c, id);
    if c == es[k - 1].c && !es[k - 1].PayCharge? {
      i := k - 1;
    } else {
      i := WasRead(env, ss, es, k - 1, c, id);
    }
  }

  /** An order that stops being pending was written on the way. */
  lemma {:induction false} WasWritten(env: Env, ss: seq<System>, es: seq<Event>, i: nat, k: nat, id: Uuid) returns (j: nat)
    requires IsRun(env, ss, es) && i <= k <= |es| && IsPending(ss[i], id) && !IsPending(ss[k], id)
    ensures i <= j < k && IsWrite(es[j]) && es[j].id == id
    decreases k
  {
    hide Step, Inv, Keyed, IsPending;
    assert i < k;
    if IsPending(ss[k - 1], id) {
      ReachableIsOk(env, ss, es, k - 1);
      assert StepAt(env, ss, es, k - 1);
      StepEffects(env, ss[k - 1], es[k - 1], 0, id);
      j := k - 1;
    } else {
      j := WasWritten(env, ss, es, i, k - 1, id);
    }
  }

  /** A write is a call's last step: it had read the order and did not write before. */
  lemma WriteWasRead(env: Env, ss: seq<System>, es: seq<Event>, k: nat) returns (i: nat)
    requires IsRun(env, ss, es) && k < |es| && IsWrite(es[k])
    ensures i < k && (es[i].PayBegin? || es[i].CancelBegin?) && es[i].c == es[k].c && IsPending(ss[i + 1], es[k].id)
    ensures forall j :: i < j < k && IsWrite(es[j]) ==> es[j].c != es[k].c
  {
    hide Step, Keyed, IsPending;
    assert StepAt(env, ss, es, k);
    i := WasRead(env, ss, es, k, es[k].c, es[k].id);
  }

  /** Whoever writes an order after another has written it had read it before. */
  lemma TwoWritesOverlap(env: Env, ss: seq<System>, es: seq<Event>, j: nat, k: nat) returns (i: nat)
    requires IsRun(env, ss, es) && j < k < |es| && IsWrite(es[j]) && IsWrite(es[k]) && es[j].id == es[k].id
    ensures Overlap(es, i, j, k)
  {
    hide Step, Inv, Keyed, Enabled;
    i := WriteWasRead(env, ss, es, k);
    if j <= i {
      ReachableIsOk(env, ss, es, j);
      assert StepAt(env, ss, es, j);
      StepEffects(env, ss[j], es[j], 0, es[j].id);
      RecordsAreKept(env, ss, es, j + 1, i + 1);
    }
  }

  lemma OverlapIsStale(env: Env, ss: seq<System>, es: seq<Event>, i: nat, j: nat, k: nat)
    requires IsRun(env, ss, es) && Overlap(es, i, j, k)
    ensures !Current(ss[k], es[k])
  {
    hide Step, Inv, Keyed;
    ReachableIsOk(env, ss, es, j);
    assert StepAt(env, ss, es, j);
    StepEffects(env, ss[j], es[j], 0, es[j].id);
    RecordsAreKept(env, ss, es, j + 1, k);
  }

  lemma StaleIsOverlap(env: Env, ss: seq<System>, es: seq<Event>, k: nat) returns (i: nat, j: nat)
    requires IsRun(env, ss, es) && k < |es| && !Current(ss[k], es[k])
    ensures Overlap(es, i, j, k)
  {
    hide Step, Inv, Keyed;
    assert StepAt(env, ss, es, k);
    i := WriteWasRead(env, ss, es, k);
    j := WasWritten(env, ss, es, i + 1, k, es[k].id);
  }

  lemma NonOverlappingMeansCurrent(env: Env, ss: seq<System>, es: seq<Event>)
    requires IsRun(env, ss, es)
    ensures NonOverlapping(es) <==> forall k: nat :: k < |es| ==> Current(ss[k], es[k])
  {
    hide StepAt, Current, Overlap;
    if k: nat :| k < |es| && !Current(ss[k], es[k]) {
      var i, j := StaleIsOverlap(env, ss, es, k);
    }
    if i: nat, j: nat, k: nat :| Overlap(es, i, j, k) {
      OverlapIsStale(env, ss, es, i, j, k);
      OverlapInRange(es, i, j, k);
    }
  }

  lemma OverlapInRange(es: seq<Event>, i: nat, j: nat, k: nat)
    requires Overlap(es, i, j, k)
    ensures k < |es|
  {}

  // ---- Simulation ----

  /** A call has its reply in the atomic machine once it is replied to, or once it is bound to fail. */
  ghost predicate Replied(s: System, es: seq<Event>, k: nat, c: CallId) {
    c in s.calls && (ReplyOf(s.calls[c]).Some? || (s.calls[c].Paying? && FailsLater(es, c, k)))
  }

  function ReplyOrError(call: Call): Reply {
    if ReplyOf(call).Some? then ReplyOf(call).value else PaymentError()
  }

  /** The atomic state that the interleaved state s stands for, when the events from k on are still to come. */
  ghost function Abs(s: System, es: seq<Event>, k: nat): Atomic {
    Atomic(s.orders, map c | c in s.calls && Replied(s, es, k, c) :: ReplyOrError(s.calls[c]))
  }

  ghost function AfterOp(env: Env, a: Atomic, op: Option<Op>): Atomic
    requires Lawful(env.text)
  {
    match op case None => a case Some(o) => Perform(env, a, o)
  }

  lemma NotCharging(env: Env, s: System, e: Event, c: CallId)
    requires Lawful(env.text) && Enabled(s, e) && c in s.calls && !s.calls[c].Paying?
    ensures !(e.PayCharge? && e.c == c) && c in Step(env, s, e).calls && !Step(env, s, e).calls[c].Paying?
  {
    hide Lawful, StartCreate, StartPay, StartCancel, Charge, HandleGet, PaidOrder, CancelledOrder, NewOrder;
  }

  /** Once a call is not about to charge, it never charges again. */
  lemma {:induction false} NoLaterCharge(env: Env, ss: seq<System>, es: seq<Event>, c: CallId, k: nat, j: nat)
    requires IsRun(env, ss, es) && k <= j < |es| && c in ss[k].calls && !ss[k].calls[c].Paying?
    ensures c in ss[j].calls && !ss[j].calls[c].Paying?
    ensures !(es[j].PayCharge? && es[j].c == c)
    decreases j
  {
    hide Step, Keyed, Enabled;
    assert StepAt(env, ss, es, j);
    if k < j {
      NoLaterCharge(env, ss, es, c, k, j - 1);
      assert StepAt(env, ss, es, j - 1);
      NotCharging(env, ss[j - 1], es[j - 1], c);
    }
    NotCharging(env, ss[j], es[j], c);
  }

  lemma NeverFailsLater(env: Env, ss: seq<System>, es: seq<Event>, c: CallId, k: nat)
    requires IsRun(env, ss, es) && k <= |es| && c in ss[k].calls && !ss[k].calls[c].Paying?
    ensures !FailsLater(es, c, k)
  {
    hide IsRun;
    if FailsLater(es, c, k) {
      var j :| k <= j < |es| && es[j].PayCharge? && es[j].c == c && !es[j].outcome.Answered?;
      NoLaterCharge(env, ss, es, c, k, j);
    }
  }

  /** The snapshot written by a current write is the stored record itself. */
  lemma CurrentSnapshot(env: Env, s: System, e: Event)
    requires Inv(env, s) && Enabled(s, e) && IsWrite(e) && Current(s, e)
    ensures s.orders[e.id] == s.calls[e.c].snapshot
  {
    hide Inv, RecordOk, SnapshotOk;
    HeldIsStored(env, s, e.c);
    SnapshotFacts(env, s, e.id, s.calls[e.c].snapshot);
    StoredFacts(env, s, e.id);
  }

  /** A pending record shows no payment. */
  lemma StoredFacts(env: Env, s: System, id: Uuid)
    requires Inv(env, s) && IsPending(s, id)
    ensures s.orders[id].transactionUUID == None && s.orders[id].paymentMethod == None
  {
    StoredIsOk(env, s, id);
    hide Inv, Priced;
  }

  /** The order of a create about to write is the one the request is accepted as. */
  lemma CreatingIsAccepted(env: Env, s: System, c: CallId)
    requires Inv(env, s) && c in s.calls && s.calls[c].Creating?
    ensures var o := s.calls[c].order;
            StartCreate(env, s.calls[c].req, true) == Ok(o.totalPrice)
            && o == NewOrder(s.calls[c].req, o.totalPrice, o.orderUUID, o.createdAt)
  {
    hide StoreOk, EntryOk, NewIdsDiffer, StartCreate, NewOrder, RecordOk;
    assert CallOk(env, s, c);
  }

  lemma ChargedProto(env: Env, s: System, c: CallId)
    requires Inv(env, s) && c in s.calls && (s.calls[c].Paying? || s.calls[c].Charged?)
    ensures ProtoOf(s.calls[c].pm) == Some(s.calls[c].proto)
  {
    hide StoreOk, EntryOk, NewIdsDiffer, ProtoOf, SnapshotOk;
    assert CallOk(env, s, c);
  }

  /** An operation does to the store what the step did, and gives the reply that the call now has. */
  ghost predicate Matches(env: Env, s: System, t: System, op: Op)
    requires Lawful(env.text)
  {
    op.c in t.calls && Handle(env, s.orders, op) == (t.orders, ReplyOrError(t.calls[op.c]))
  }

  lemma CreateMatches(env: Env, s: System, e: Event)
    requires Sound(env) && Inv(env, s) && Enabled(s, e) && e.CreateCommit?
    ensures var o := s.calls[e.c].order;
            Matches(env, s, Step(env, s, e), OpCreate(e.c, s.calls[e.c].req, true, o.orderUUID, o.createdAt))
  {
    hide Inv, StartCreate, Keyed, Lawful, NewOrder;
    CreatingIsAccepted(env, s, e.c);
  }

  lemma PayMatches(env: Env, s: System, e: Event)
    requires Sound(env) && Inv(env, s) && Enabled(s, e) && Current(s, e) && e.PayCommit?
    ensures Matches(env, s, Step(env, s, e), OpPay(e.c, e.id, s.calls[e.c].pm, Answered(s.calls[e.c].tx)))
  {
    hide Inv, Keyed, Lawful, Charge, PaidOrder, ProtoOf;
    var call := s.calls[e.c];
    CurrentSnapshot(env, s, e);
    ChargedProto(env, s, e.c);
    ChargeIsAccepted(env.text, e.id, call.pm, call.tx);
  }

  lemma CancelMatches(env: Env, s: System, e: Event)
    requires Sound(env) && Inv(env, s) && Enabled(s, e) && Current(s, e) && e.CancelCommit?
    ensures Matches(env, s, Step(env, s, e), OpCancel(e.c, e.id))
  {
    hide Inv, Keyed, Lawful, CancelledOrder;
    CurrentSnapshot(env, s, e);
  }

  /** At a begin an operation takes effect for a rejection, a read, or a payment that is going to fail. */
  lemma BeginMatches(env: Env, s: System, es: seq<Event>, k: nat)
    requires Sound(env) && k < |es| && Enabled(s, es[k]) && IsBegin(es[k])
    ensures var op := OpAt(env, s, es, k);
      op.Some? ==> op.value.c == es[k].c && Matches(env, s, Step(env, s, es[k]), op.value)
  {
    hide StartCreate, Keyed, Lawful, DtoOf, FailsLater, Charge;
  }

  /** What the operation at a current event does to the store is what the event does, and it gives the call's reply. */
  lemma OpMatchesEvent(env: Env, s: System, es: seq<Event>, k: nat)
    requires Sound(env) && Inv(env, s) && k < |es| && Enabled(s, es[k]) && Current(s, es[k])
    ensures var t := Step(env, s, es[k]);
      match OpAt(env, s, es, k)
      case None => t.orders == s.orders
      case Some(op) => op.c == es[k].c && Matches(env, s, t, op)
  {
    hide Step, Inv, StartCreate, StartPay, StartCancel, Keyed, Lawful, FailsLater, Matches, Current;
    if IsBegin(es[k]) {
      BeginStep(env, s, es[k]);
      BeginMatches(env, s, es, k);
    } else if IsCharge(es[k]) {
      ChargeStep(env, s, es[k]);
    } else if es[k].CreateCommit? {
      CreateMatches(env, s, es[k]);
    } else if es[k].PayCommit? {
      PayMatches(env, s, es[k]);
    } else {
      CancelMatches(env, s, es[k]);
    }
  }

  /** A step leaves every other call alone. */
  lemma StepFrame(env: Env, s: System, e: Event, d: CallId)
    requires Lawful(env.text) && Enabled(s, e) && d != e.c
    ensures var t := Step(env, s, e); (d in t.calls <==> d in s.calls) && (d in s.calls ==> t.calls[d] == s.calls[d])
  {
    hide StartCreate, StartPay, StartCancel, Charge, HandleGet, Lawful, PaidOrder, CancelledOrder, NewOrder;
  }

  /** Whether another call fails later does not depend on the event of this one. */
  lemma FailsLaterFrame(es: seq<Event>, d: CallId, k: nat)
    requires k < |es| && !(es[k].PayCharge? && es[k].c == d && !es[k].outcome.Answered?)
    ensures FailsLater(es, d, k) <==> FailsLater(es, d, k + 1)
  {}

  /** A charge fails now or the call goes on without failing later. */
  lemma ChargeReplies(env: Env, ss: seq<System>, es: seq<Event>, k: nat)
    requires IsRun(env, ss, es) && k < |es| && StepAt(env, ss, es, k) && es[k].PayCharge?
    ensures var c := es[k].c;
      && c in ss[k + 1].calls && (Replied(ss[k], es, k, c) <==> Replied(ss[k + 1], es, k + 1, c))
      && (Replied(ss[k], es, k, c) ==> ReplyOrError(ss[k].calls[c]) == ReplyOrError(ss[k + 1].calls[c]))
  {
    hide Inv, Keyed, Charge, ProtoOf, Lawful;
    var c := es[k].c;
    ReachableIsOk(env, ss, es, k);
    ChargedProto(env, ss[k], c);
    if Acted(es[k].outcome) { ChargeIssues(env, ss[k], c, es[k].outcome); }
    ChargeOutcome(env, ss[k], c, es[k].outcome);
    hide ChargePay;
    NeverFailsLater(env, ss, es, c, k + 1);
    if es[k].outcome.Answered? { FailsLaterFrame(es, c, k); }
  }

  lemma ChargeOutcome(env: Env, s: System, c: CallId, outcome: Outcome)
    requires Lawful(env.text) && c in s.calls && s.calls[c].Paying? && ProtoOf(s.calls[c].pm) == Some(s.calls[c].proto)
    ensures var t := ChargePay(env, s, c, outcome);
      c in t.calls && !t.calls[c].Paying?
      && ReplyOf(t.calls[c]) == if outcome.Answered? then None else Some(PaymentError())
  {
    hide Charge, Lawful, ProtoOf;
    if Acted(outcome) { ChargeIssues(env, s, c, outcome); }
  }

  /** At the other events a call gets its reply exactly when an operation takes effect for it. */
  lemma OwnReply(env: Env, ss: seq<System>, es: seq<Event>, k: nat)
    requires IsRun(env, ss, es) && k < |es| && StepAt(env, ss, es, k) && !es[k].PayCharge?
    ensures var c := es[k].c; var op := OpAt(env, ss[k], es, k);
      && (op.Some? ==> Replied(ss[k + 1], es, k + 1, c))
      && (op.None? ==> (Replied(ss[k], es, k, c) <==> Replied(ss[k + 1], es, k + 1, c)))
      && (op.None? && Replied(ss[k], es, k, c) ==>
            c in ss[k + 1].calls && ReplyOrError(ss[k].calls[c]) == ReplyOrError(ss[k + 1].calls[c]))
  {
    hide Inv, Keyed, Lawful, StartCreate, Charge, HandleGet, NewOrder, PaidOrder, CancelledOrder, FailsLater;
    FailsLaterFrame(es, es[k].c, k);
  }

  /** Which replies the atomic machine has gained after event k: the one of its operation, and no other. */
  lemma RepliedAfter(env: Env, ss: seq<System>, es: seq<Event>, k: nat, d: CallId)
    requires IsRun(env, ss, es) && k < |es| && StepAt(env, ss, es, k)
    ensures d != es[k].c ==> (Replied(ss[k], es, k, d) <==> Replied(ss[k + 1], es, k + 1, d))
    ensures d != es[k].c && d in ss[k].calls ==> d in ss[k + 1].calls && ss[k + 1].calls[d] == ss[k].calls[d]
    ensures d == es[k].c && OpAt(env, ss[k], es, k).Some? ==> Replied(ss[k + 1], es, k + 1, d)
    ensures d == es[k].c && OpAt(env, ss[k], es, k).None? ==>
              (Replied(ss[k], es, k, d) <==> Replied(ss[k + 1], es, k + 1, d))
    ensures d == es[k].c && OpAt(env, ss[k], es, k).None? && Replied(ss[k], es, k, d) ==>
              ReplyOrError(ss[k].calls[d]) == ReplyOrError(ss[k + 1].calls[d])
  {
    hide Step, Keyed, FailsLater, ReplyOrError;
    if d != es[k].c {
      StepFrame(env, ss[k], es[k], d);
      FailsLaterFrame(es, d, k);
    } else if es[k].PayCharge? {
      ChargeReplies(env, ss, es, k);
    } else {
      OwnReply(env, ss, es, k);
    }
  }

  lemma Simulates(env: Env, ss: seq<System>, es: seq<Event>, k: nat)
    requires IsRun(env, ss, es) && k < |es| && StepAt(env, ss, es, k) && Current(ss[k], es[k])
    ensures AfterOp(env, Abs(ss[k], es, k), OpAt(env, ss[k], es, k)) == Abs(ss[k + 1], es, k + 1)
  {
    hide Inv, Keyed, Step, OpAt, Replied, Handle, ReplyOrError, Current;
    ReachableIsOk(env, ss, es, k);
    OpMatchesEvent(env, ss[k], es, k);
    var before := AfterOp(env, Abs(ss[k], es, k), OpAt(env, ss[k], es, k));
    var after := Abs(ss[k + 1], es, k + 1);
    forall d
      ensures d in before.replies <==> d in after.replies
      ensures d in before.replies && d in after.replies ==> before.replies[d] == after.replies[d]
    {
      RepliedAfter(env, ss, es, k, d);
      RepliedIsCall(ss[k], es, k, d);
      RepliedIsCall(ss[k + 1], es, k + 1, d);
    }
    assert before.replies == after.replies;
  }

  lemma RepliedIsCall(s: System, es: seq<Event>, k: nat, c: CallId)
    ensures Replied(s, es, k, c) ==> c in s.calls
  {}

  // ---- The theorem ----

  predicate Settled(s: System, c: CallId) {
    c in s.calls && ReplyOf(s.calls[c]).Some?
  }

  /** A call that has its reply keeps it; only the server of a given-up payment may still take a step for it. */
  lemma SettledStays(env: Env, s: System, e: Event, c: CallId)
    requires Lawful(env.text) && Enabled(s, e) && Settled(s, c)
    ensures var t := Step(env, s, e);
      && Settled(t, c) && ReplyOf(t.calls[c]) == ReplyOf(s.calls[c])
      && (e.c == c ==> e.PayActsLate?)
      && (!s.calls[c].PayAbandoned? ==> e.c != c && t.calls[c] == s.calls[c])
  {
    hide StartCreate, StartPay, StartCancel, Charge, HandleGet, Lawful;
  }

  lemma LinearisedStep(env: Env, ss: seq<System>, es: seq<Event>, k: nat, a: Atomic)
    requires IsRun(env, ss, es) && k < |es| && StepAt(env, ss, es, k)
    ensures PerformAll(env, a, Linearised(env, ss, es, k)) ==
            PerformAll(env, AfterOp(env, a, OpAt(env, ss[k], es, k)), Linearised(env, ss, es, k + 1))
  {
    hide Step, OpAt, Perform, Keyed;
    var rest := Linearised(env, ss, es, k + 1);
    match OpAt(env, ss[k], es, k)
    case None =>
    case Some(op) =>
      assert ([op] + rest)[0] == op && ([op] + rest)[1..] == rest;
  }

  lemma {:induction false} CurrentRunsRefine(env: Env, ss: seq<System>, es: seq<Event>, k: nat)
    requires IsRun(env, ss, es) && k <= |es|
    requires forall j: nat :: k <= j < |es| ==> Current(ss[j], es[j])
    ensures PerformAll(env, Abs(ss[k], es, k), Linearised(env, ss, es, k)) == Abs(ss[|es|], es, |es|)
    decreases |es| - k
  {
    hide Step, OpAt, AfterOp, Abs, Current, Keyed;
    if k < |es| {
      assert StepAt(env, ss, es, k);
      Simulates(env, ss, es, k);
      LinearisedStep(env, ss, es, k, Abs(ss[k], es, k));
      CurrentRunsRefine(env, ss, es, k + 1);
    }
  }

  /** A wrong reply, once given by the atomic machine, is never taken back. */
  lemma {:induction false} WrongReplyStays(env: Env, ss: seq<System>, es: seq<Event>, k: nat, a: Atomic, c: CallId)
    requires IsRun(env, ss, es) && k <= |es| && Settled(ss[k], c)
    requires c in a.replies && a.replies[c] != ReplyOrError(ss[k].calls[c])
    ensures PerformAll(env, a, Linearised(env, ss, es, k)) != Abs(ss[|es|], es, |es|)
    decreases |es| - k
  {
    hide Step, OpAt, Keyed, Handle;
    if k < |es| {
      assert StepAt(env, ss, es, k);
      SettledStays(env, ss[k], es[k], c);
      OpIsOfItsCall(env, ss[k], es, k);
      LinearisedStep(env, ss, es, k, a);
      WrongReplyStays(env, ss, es, k + 1, AfterOp(env, a, OpAt(env, ss[k], es, k)), c);
    }
  }

  lemma OpIsOfItsCall(env: Env, s: System, es: seq<Event>, k: nat)
    requires k < |es| && Enabled(s, es[k])
    ensures OpAt(env, s, es, k).Some? ==> OpAt(env, s, es, k).value.c == es[k].c && !es[k].PayActsLate?
  {
    hide StartCreate, StartPay, StartCancel, FailsLater;
  }

  /** At a write that is not current the atomic machine rejects what the run reports as done. */
  lemma StaleWriteIsRejected(env: Env, s: System, es: seq<Event>, k: nat)
    requires Sound(env) && Inv(env, s) && k < |es| && Enabled(s, es[k]) && !Current(s, es[k])
    ensures OpAt(env, s, es, k).Some?
    ensures var t := Step(env, s, es[k]); var c := es[k].c;
      && Settled(t, c)
      && Handle(env, s.orders, OpAt(env, s, es, k).value).1 != ReplyOrError(t.calls[c])
      && OpAt(env, s, es, k).value.c == c
  {
    hide Inv, StartCreate, RecordOk, Keyed, Lawful, Charge;
    HeldIsStored(env, s, es[k].c);
    StoredIsOk(env, s, es[k].id);
  }

  lemma {:induction false} StaleRunsDiverge(env: Env, ss: seq<System>, es: seq<Event>, k: nat, j: nat)
    requires IsRun(env, ss, es) && k <= j < |es| && !Current(ss[j], es[j])
    ensures PerformAll(env, Abs(ss[k], es, k), Linearised(env, ss, es, k)) != Abs(ss[|es|], es, |es|)
    decreases j - k
  {
    hide Step, OpAt, Current, Keyed, Handle, Replied, Settled, ReplyOrError;
    assert StepAt(env, ss, es, k);
    LinearisedStep(env, ss, es, k, Abs(ss[k], es, k));
    if Current(ss[k], es[k]) {
      hide Abs, AfterOp;
      Simulates(env, ss, es, k);
      StaleRunsDiverge(env, ss, es, k + 1, j);
    } else {
      ReachableIsOk(env, ss, es, k);
      StaleWriteIsRejected(env, ss[k], es, k);
      WrongReplyStays(env, ss, es, k + 1, AfterOp(env, Abs(ss[k], es, k), OpAt(env, ss[k], es, k)), es[k].c);
    }
  }

  lemma AbsAtTheEnd(s: System, es: seq<Event>)
    ensures Abs(s, es, |es|) == Observed(s)
  {
    assert forall c :: !FailsLater(es, c, |es|);
  }

  /**
   A run shows clients exactly what the atomic machine shows them on the linearised operations, store and every
   reply, if and only if no write to an order falls between another call's read of it and that call's write.
   */
  lemma RefinesExactlyWhenNothingOverlaps(env: Env, ss: seq<System>, es: seq<Event>)
    requires IsRun(env, ss, es)
    ensures PerformAll(env, Atomic(map[], map[]), Linearised(env, ss, es, 0)) == Observed(ss[|es|])
            <==> NonOverlapping(es)
  {
    hide Step, Keyed, Linearised, PerformAll, NonOverlapping, Current, Observed;
    NonOverlappingMeansCurrent(env, ss, es);
    AbsAtTheEnd(ss[|es|], es);
    assert Abs(ss[0], es, 0) == Atomic(map[], map[]);
    if j: nat :| j < |es| && !Current(ss[j], es[j]) {
      StaleRunsDiverge(env, ss, es, 0, j);
    } else {
      CurrentRunsRefine(env, ss, es, 0);
    }
  }
}
