/**
 Whether any order of whole operations, not only the one of module Refinement, explains what the clients of a run see.
 The argument counts: in the atomic machine every success of a payment or cancellation needs an order of its own that is
 final, and in a run an overlapping write succeeds without making one.
 */
module Linearisability {
  import opened Uuids
  import opened OrderTypes
  import opened Inventory
  import opened Handler
  import opened Protocol
  import opened Invariant
  import opened Steps
  import opened Freeze
  import opened Refinement
  import opened Lifecycle

  /** The operations draw UUIDs that no stored order has. */
  predicate DrawsFresh(env: Env, a: Atomic, ops: seq<Op>)
    requires Lawful(env.text)
    decreases |ops|
  {
    ops == [] ||
    ((ops[0].OpCreate? ==> ops[0].newId !in a.orders) && DrawsFresh(env, Perform(env, a, ops[0]), ops[1..]))
  }

  function Empty(): Atomic {
    Atomic(map[], map[])
  }

  /** Whole operations, in some order and with some outcomes, that show what a state shows. */
  ghost predicate Explains(env: Env, ops: seq<Op>, seen: Atomic)
    requires Lawful(env.text)
  {
    DrawsFresh(env, Empty(), ops) && PerformAll(env, Empty(), ops) == seen
  }

  // ---- Counting successes against final orders ----

  predicate IsSuccess(reply: Reply) {
    reply.Paid? || reply.Cancelled?
  }

  /** The calls that were told of a payment or cancellation. */
  function Finishers(a: Atomic): set<CallId> {
    set c | c in a.replies && IsSuccess(a.replies[c])
  }

  function FinalOrders(orders: Orders): set<Uuid> {
    set id | id in orders && orders[id].status != PENDING_PAYMENT
  }

  predicate KnownStatuses(orders: Orders) {
    forall id :: id in orders ==> !orders[id].status.OtherStatus?
  }

  lemma SizeOfSubset<T>(a: set<T>, b: set<T>, x: T)
    requires a <= b + {x}
    ensures x in a && x !in b ==> |a| <= |b| + 1
    ensures x !in a || x in b ==> |a| <= |b|
  {
    SubsetSize(a, b + {x});
    if x in b {
      assert b + {x} == b;
    } else if x !in a {
      SubsetSize(a, b);
    }
  }

  /** Each operation makes at most as many successes as final orders. */
  lemma FinisherOfOp(env: Env, a: Atomic, op: Op)
    requires Lawful(env.text) && KnownStatuses(a.orders) && (op.OpCreate? ==> op.newId !in a.orders)
    ensures var done := Handle(env, a.orders, op);
      && KnownStatuses(done.0)
      && (if IsSuccess(done.1) then
            (op.OpPay? || op.OpCancel?) && op.id !in FinalOrders(a.orders)
            && FinalOrders(done.0) == FinalOrders(a.orders) + {op.id}
          else FinalOrders(done.0) == FinalOrders(a.orders))
  {
    hide StartCreate, Lawful, Charge, StoredMethod, DtoOf, ProtoOf;
    if op.OpCreate? { CreateRejectsWithProblem(env, op.req, op.reachable); }
  }

  ghost predicate Balanced(a: Atomic) {
    KnownStatuses(a.orders) && |Finishers(a)| <= |FinalOrders(a.orders)|
  }

  lemma PerformKeepsBalance(env: Env, a: Atomic, op: Op)
    requires Lawful(env.text) && Balanced(a) && (op.OpCreate? ==> op.newId !in a.orders)
    ensures Balanced(Perform(env, a, op))
  {
    hide Lawful, Handle, KnownStatuses;
    FinisherOfOp(env, a, op);
    var b := Perform(env, a, op);
    assert Finishers(b) <= Finishers(a) + {op.c};
    SizeOfSubset(Finishers(b), Finishers(a), op.c);
    assert op.c in Finishers(b) ==> IsSuccess(b.replies[op.c]);
    hide Finishers, FinalOrders;
  }

  lemma {:induction false} OperationsKeepBalance(env: Env, a: Atomic, ops: seq<Op>)
    requires Lawful(env.text) && Balanced(a) && DrawsFresh(env, a, ops)
    ensures Balanced(PerformAll(env, a, ops))
    decreases |ops|
  {
    hide Perform, Balanced, Lawful;
    if ops != [] {
      PerformKeepsBalance(env, a, ops[0]);
      OperationsKeepBalance(env, Perform(env, a, ops[0]), ops[1..]);
    }
  }

  // ---- In a run each overlapping write makes a success too many ----

  function Told(s: System): set<CallId> {
    set c | c in s.calls && ReplyOf(s.calls[c]).Some? && IsSuccess(ReplyOf(s.calls[c]).value)
  }

  lemma ToldAreFinishers(s: System)
    ensures Finishers(Observed(s)) == Told(s)
  {}

  lemma WriteTells(env: Env, s: System, e: Event)
    requires Sound(env) && Inv(env, s) && Enabled(s, e) && IsWrite(e)
    ensures var t := Step(env, s, e);
      && Told(t) == Told(s) + {e.c} && e.c !in Told(s)
      && FinalOrders(t.orders) == FinalOrders(s.orders) + {e.id}
      && (Current(s, e) <==> e.id !in FinalOrders(s.orders))
  {
    hide Step, Enabled, Inv, PaidOrder, CancelledOrder, Lawful, Keyed;
    StoreStep(env, s, e);
    StoredFinally(s.calls[e.c]);
    HeldIsStored(env, s, e.c);
  }

  lemma OthersTellNothing(env: Env, s: System, e: Event)
    requires Sound(env) && Inv(env, s) && Enabled(s, e) && !IsWrite(e)
    ensures var t := Step(env, s, e); Told(t) == Told(s) && FinalOrders(t.orders) == FinalOrders(s.orders)
  {
    hide Step, Enabled, Inv, StartCreate, NewOrder, Lawful, Keyed;
    if IsBegin(e) {
      BeginStep(env, s, e);
    } else if IsCharge(e) {
      ChargeStep(env, s, e);
    } else {
      StoreStep(env, s, e);
      CreatingIsAccepted(env, s, e.c);
      CreatingIsNew(env, s, e.c);
      NewOrderIsPending();
    }
  }

  /** A write makes a success, and a final order exactly if it is current; no other step makes either. */
  lemma ToldStep(env: Env, s: System, e: Event)
    requires Sound(env) && Inv(env, s) && Enabled(s, e)
    ensures var t := Step(env, s, e);
      && |Told(t)| == |Told(s)| + (if IsWrite(e) then 1 else 0)
      && |FinalOrders(t.orders)| == |FinalOrders(s.orders)| + (if IsWrite(e) && Current(s, e) then 1 else 0)
  {
    hide Step, Inv, Enabled, Lawful, Keyed, Current, Told, FinalOrders;
    if IsWrite(e) {
      WriteTells(env, s, e);
      if e.id in FinalOrders(s.orders) {
        assert FinalOrders(s.orders) + {e.id} == FinalOrders(s.orders);
      }
    } else {
      OthersTellNothing(env, s, e);
    }
  }

  lemma NewOrderIsPending()
    ensures forall req, price, id, now :: NewOrder(req, price, id, now).status == PENDING_PAYMENT
  {}

  /** How many of the first k events are writes that are not current. */
  ghost function StaleWrites(ss: seq<System>, es: seq<Event>, k: nat): nat
    requires k <= |es| < |ss|
  {
    if k == 0 then 0 else StaleWrites(ss, es, k - 1) + if Current(ss[k - 1], es[k - 1]) then 0 else 1
  }

  /** In every reachable state the successes exceed the final orders by the number of stale writes so far. */
  lemma {:induction false} StaleWritesTip(env: Env, ss: seq<System>, es: seq<Event>, k: nat)
    requires IsRun(env, ss, es) && k <= |es|
    ensures |Told(ss[k])| == |FinalOrders(ss[k].orders)| + StaleWrites(ss, es, k)
    ensures StaleWrites(ss, es, k) > 0 <==> exists j: nat :: j < k && !Current(ss[j], es[j])
  {
    hide Step, Inv, Enabled, Keyed, Current, FinalOrders, Told;
    if k == 0 {
      NothingTold();
    } else {
      StaleWritesTip(env, ss, es, k - 1);
      ReachableIsOk(env, ss, es, k - 1);
      assert StepAt(env, ss, es, k - 1);
      ToldStep(env, ss[k - 1], es[k - 1]);
      OnlyWritesAreStale(ss[k - 1], es[k - 1]);
    }
  }

  lemma NothingTold()
    ensures FinalOrders(Init().orders) == {} && Told(Init()) == {}
  {}

  lemma OnlyWritesAreStale(s: System, e: Event)
    ensures !Current(s, e) ==> IsWrite(e)
  {}

  // ---- The linearised operations draw new UUIDs ----

  lemma OpAtDrawsFresh(env: Env, s: System, es: seq<Event>, k: nat)
    requires Sound(env) && Inv(env, s) && k < |es| && Enabled(s, es[k])
    ensures var op := OpAt(env, s, es, k); op.Some? && op.value.OpCreate? ==> op.value.newId !in s.orders
  {
    hide StartCreate, StartPay, StartCancel, FailsLater, Lawful, Keyed, RecordOk, CallOk, EntryOk, NewIdsDiffer;
    if es[k].CreateCommit? { CreatingIsNew(env, s, es[k].c); }
  }

  lemma {:induction false} LinearisedDrawsFresh(env: Env, ss: seq<System>, es: seq<Event>, k: nat)
    requires IsRun(env, ss, es) && k <= |es|
    requires forall j: nat :: k <= j < |es| ==> Current(ss[j], es[j])
    ensures DrawsFresh(env, Abs(ss[k], es, k), Linearised(env, ss, es, k))
    decreases |es| - k
  {
    hide Step, OpAt, Current, Keyed, Inv, Replied, Handle;
    if k < |es| {
      assert StepAt(env, ss, es, k);
      ReachableIsOk(env, ss, es, k);
      OpAtDrawsFresh(env, ss[k], es, k);
      Simulates(env, ss, es, k);
      LinearisedDrawsFresh(env, ss, es, k + 1);
      var rest := Linearised(env, ss, es, k + 1);
      match OpAt(env, ss[k], es, k)
      case None =>
      case Some(op) => assert ([op] + rest)[0] == op && ([op] + rest)[1..] == rest;
    }
  }

  // ---- The theorem ----

  lemma OverlapIsNotExplained(env: Env, ss: seq<System>, es: seq<Event>, ops: seq<Op>)
    requires IsRun(env, ss, es) && !NonOverlapping(es)
    ensures !Explains(env, ops, Observed(ss[|es|]))
  {
    hide Step, Keyed, NonOverlapping, Current, PerformAll, DrawsFresh, FinalOrders, Told, Finishers;
    if Explains(env, ops, Observed(ss[|es|])) {
      NonOverlappingMeansCurrent(env, ss, es);
      StaleWritesTip(env, ss, es, |es|);
      NothingYet();
      OperationsKeepBalance(env, Empty(), ops);
      ToldAreFinishers(ss[|es|]);
    }
  }

  lemma NothingYet()
    ensures Balanced(Empty())
  {}

  lemma NonOverlappingIsExplained(env: Env, ss: seq<System>, es: seq<Event>)
    requires IsRun(env, ss, es) && NonOverlapping(es)
    ensures Explains(env, Linearised(env, ss, es, 0), Observed(ss[|es|]))
  {
    hide Step, Keyed, NonOverlapping, Current, PerformAll, DrawsFresh, Linearised, Observed;
    NonOverlappingMeansCurrent(env, ss, es);
    RefinesExactlyWhenNothingOverlaps(env, ss, es);
    LinearisedDrawsFresh(env, ss, es, 0);
    assert Abs(ss[0], es, 0) == Empty();
  }

  /**
   Some sequence of whole operations, of any calls in any order with any outcomes, shows clients what a run shows them,
   store and every reply, if and only if no write to an order falls between another call's read and write of it.
   */
  lemma ExplainedExactlyWhenNothingOverlaps(env: Env, ss: seq<System>, es: seq<Event>)
    requires IsRun(env, ss, es)
    ensures (exists ops :: Explains(env, ops, Observed(ss[|es|]))) <==> NonOverlapping(es)
  {
    hide Step, Keyed, NonOverlapping, Linearised, Observed, Explains;
    if NonOverlapping(es) {
      NonOverlappingIsExplained(env, ss, es);
    } else {
      forall ops ensures !Explains(env, ops, Observed(ss[|es|])) {
        OverlapIsNotExplained(env, ss, es, ops);
      }
    }
  }

  // ---- Real time, and once each ----

  /** The calls of a state stay, and the one that takes the step is among them. */
  lemma CallsStay(env: Env, s: System, e: Event, c: CallId)
    requires Sound(env) && Enabled(s, e) && (c in s.calls || c == e.c)
    ensures c in Step(env, s, e).calls
  {
    hide Step, Enabled, Lawful, Keyed, PaidOrder, CancelledOrder, StartsAs, GoesOnAs;
    if IsBegin(e) {
      BeginStep(env, s, e);
    } else if IsCharge(e) {
      ChargeStep(env, s, e);
    } else {
      StoreStep(env, s, e);
    }
  }

  /** The operations that take effect before event k are an initial part, of calls that have begun by then. */
  lemma {:induction false} EarlierOperations(env: Env, ss: seq<System>, es: seq<Event>, k: nat) returns (n: nat)
    requires IsRun(env, ss, es) && k <= |es|
    ensures var ops := Linearised(env, ss, es, 0);
      n <= |ops| && ops[n..] == Linearised(env, ss, es, k) && forall i :: 0 <= i < n ==> ops[i].c in ss[k].calls
  {
    hide Step, OpAt, Keyed;
    var ops := Linearised(env, ss, es, 0);
    if k == 0 {
      n := 0;
    } else {
      var m := EarlierOperations(env, ss, es, k - 1);
      assert StepAt(env, ss, es, k - 1);
      forall c | c in ss[k - 1].calls || c == es[k - 1].c ensures c in ss[k].calls {
        CallsStay(env, ss[k - 1], es[k - 1], c);
      }
      OpIsOfItsCall(env, ss[k - 1], es, k - 1);
      match OpAt(env, ss[k - 1], es, k - 1)
      case None => n := m;
      case Some(op) =>
        n := m + 1;
        assert ops[m..] == [op] + Linearised(env, ss, es, k);
        assert ops[m] == ops[m..][0] && ops[n..] == ops[m..][1..];
    }
  }

  /** Once a call has its reply, no operation takes effect for it any more. */
  lemma {:induction false} NothingAfterReply(env: Env, ss: seq<System>, es: seq<Event>, k: nat, c: CallId)
    requires IsRun(env, ss, es) && k <= |es| && Settled(ss[k], c)
    ensures forall i :: 0 <= i < |Linearised(env, ss, es, k)| ==> Linearised(env, ss, es, k)[i].c != c
    decreases |es| - k
  {
    hide Step, OpAt, Keyed, Settled;
    if k < |es| {
      assert StepAt(env, ss, es, k);
      SettledStays(env, ss[k], es[k], c);
      OpIsOfItsCall(env, ss[k], es, k);
      NothingAfterReply(env, ss, es, k + 1, c);
    }
  }

  /** A call that has its reply before another begins takes effect before it. */
  lemma RealTimeOrderIsKept(env: Env, ss: seq<System>, es: seq<Event>, k: nat, i: nat, j: nat)
    requires IsRun(env, ss, es) && k <= |es|
    requires i < |Linearised(env, ss, es, 0)| && j < |Linearised(env, ss, es, 0)|
    requires Settled(ss[k], Linearised(env, ss, es, 0)[i].c) && Linearised(env, ss, es, 0)[j].c !in ss[k].calls
    ensures i < j
  {
    hide Step, OpAt, Keyed, Settled, Linearised;
    var ops := Linearised(env, ss, es, 0);
    var n := EarlierOperations(env, ss, es, k);
    NothingAfterReply(env, ss, es, k, ops[i].c);
  }

  function OperationsOf(ops: seq<Op>, c: CallId): nat {
    if ops == [] then 0 else (if ops[0].c == c then 1 else 0) + OperationsOf(ops[1..], c)
  }

  lemma OneMoreOperation(op: Op, ops: seq<Op>, c: CallId)
    ensures OperationsOf([op] + ops, c) == (if op.c == c then 1 else 0) + OperationsOf(ops, c)
  {
    assert ([op] + ops)[1..] == ops;
  }

  /** No operation takes effect for a call that the atomic machine has replied to. */
  lemma NotRepliedYet(env: Env, s: System, es: seq<Event>, k: nat)
    requires k < |es| && Enabled(s, es[k]) && OpAt(env, s, es, k).Some?
    ensures !Replied(s, es, k, es[k].c)
  {
    hide StartCreate, StartPay, StartCancel, FailsLater;
  }

  lemma {:induction false} OperationsFrom(env: Env, ss: seq<System>, es: seq<Event>, k: nat, c: CallId)
    requires IsRun(env, ss, es) && k <= |es|
    ensures OperationsOf(Linearised(env, ss, es, k), c) + (if Replied(ss[k], es, k, c) then 1 else 0) ==
            if Replied(ss[|es|], es, |es|, c) then 1 else 0
    decreases |es| - k
  {
    hide Step, OpAt, Keyed, Replied, OperationsOf;
    if k == |es| {
      NoOperations(c);
    } else {
      assert StepAt(env, ss, es, k);
      OperationsFrom(env, ss, es, k + 1, c);
      RepliedAfter(env, ss, es, k, c);
      OpIsOfItsCall(env, ss[k], es, k);
      match OpAt(env, ss[k], es, k)
      case None =>
      case Some(op) =>
        NotRepliedYet(env, ss[k], es, k);
        OneMoreOperation(op, Linearised(env, ss, es, k + 1), c);
    }
  }

  lemma NoOperations(c: CallId)
    ensures OperationsOf([], c) == 0
  {}

  /** Of the linearised operations exactly one is of each call that has its reply, and none of any other call. */
  lemma EachReplyTakesEffectOnce(env: Env, ss: seq<System>, es: seq<Event>, c: CallId)
    requires IsRun(env, ss, es)
    ensures OperationsOf(Linearised(env, ss, es, 0), c) == if Settled(ss[|es|], c) then 1 else 0
  {
    hide Step, Keyed, Linearised, OperationsOf;
    OperationsFrom(env, ss, es, 0, c);
    assert !FailsLater(es, c, |es|);
  }
}
