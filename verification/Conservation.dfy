/** Transactions issued by the payment server against what the order service reports and stores. */
module Conservation {
  import opened Base
  import opened Uuids
  import opened OrderTypes
  import opened Inventory
  import opened Handler
  import opened Protocol
  import opened Invariant
  import opened Steps
  import opened Freeze
  import opened Refinement
  import Payment

  /** The transactions issued for an order. */
  function IssuedFor(s: System, id: Uuid): set<Uuid> {
    set tx | tx in s.ledger && s.ledger[tx].order == id
  }

  /** The calls whose payment of the order succeeded, by the reply they gave. */
  function Successes(s: System, id: Uuid): set<CallId> {
    set c | c in s.calls && s.calls[c].PayDone? && s.calls[c].id == id
  }

  /** The calls that were charged for the order and have not written it yet. */
  function Unwritten(s: System, id: Uuid): set<CallId> {
    set c | c in s.calls && s.calls[c].Charged? && s.calls[c].id == id
  }

  /** The calls that were charged for the order and reported an error because the answer was lost. */
  function LostReplies(s: System, id: Uuid): set<CallId> {
    set c | c in s.calls && s.calls[c].PayLost? && s.calls[c].id == id
  }

  lemma {:induction false} EqualSizes(s: System, txs: set<Uuid>, cs: set<CallId>)
    requires forall tx :: tx in txs ==>
               tx in s.ledger && s.ledger[tx].call in cs
               && s.ledger[tx].call in s.calls && IssuedTo(s.calls[s.ledger[tx].call]) == Some(tx)
    requires forall c :: c in cs ==>
               c in s.calls && IssuedTo(s.calls[c]).Some? && IssuedTo(s.calls[c]).value in txs
               && IssuedTo(s.calls[c]).value in s.ledger && s.ledger[IssuedTo(s.calls[c]).value].call == c
    ensures |txs| == |cs|
  {
    if tx :| tx in txs {
      EqualSizes(s, txs - {tx}, cs - {s.ledger[tx].call});
    } else {
      assert cs == {};
    }
  }

  lemma EntryOfCall(env: Env, s: System, c: CallId)
    requires Inv(env, s) && c in s.calls && IssuedTo(s.calls[c]).Some?
    ensures var tx := IssuedTo(s.calls[c]).value;
            tx in s.ledger && s.ledger[tx].call == c && s.ledger[tx].order == s.calls[c].id && s.calls[c].id in s.orders
  {
    hide StoreOk, EntryOk, NewIdsDiffer, RecordOk, SameOrder, ProtoOf;
    assert CallOk(env, s, c);
  }

  lemma CallOfEntry(env: Env, s: System, tx: Uuid)
    requires Inv(env, s) && tx in s.ledger
    ensures s.ledger[tx].call in s.calls && IssuedTo(s.calls[s.ledger[tx].call]) == Some(tx)
  {
    hide StoreOk, CallOk, NewIdsDiffer;
    assert EntryOk(s, tx);
  }

  /**
   In every reachable state, and for each order: the transactions issued are as many as the successful payment
   replies, the calls between payment and write, and the lost answers together.
   */
  lemma PaymentsAreConserved(env: Env, ss: seq<System>, es: seq<Event>, k: nat, id: Uuid)
    requires IsRun(env, ss, es) && k <= |es|
    ensures var s := ss[k];
            |IssuedFor(s, id)| == |Successes(s, id)| + |Unwritten(s, id)| + |LostReplies(s, id)|
  {
    hide Inv, Step, Enabled, Keyed;
    ReachableIsOk(env, ss, es, k);
    var s := ss[k];
    var cs := Successes(s, id) + Unwritten(s, id) + LostReplies(s, id);
    forall c | c in cs
      ensures IssuedTo(s.calls[c]).Some? && IssuedTo(s.calls[c]).value in IssuedFor(s, id)
              && s.ledger[IssuedTo(s.calls[c]).value].call == c
    {
      EntryOfCall(env, s, c);
    }
    forall tx | tx in IssuedFor(s, id)
      ensures s.ledger[tx].call in cs && IssuedTo(s.calls[s.ledger[tx].call]) == Some(tx)
    {
      CallOfEntry(env, s, tx);
      EntryOfCall(env, s, s.ledger[tx].call);
    }
    EqualSizes(s, IssuedFor(s, id), cs);
    assert |cs| == |Successes(s, id)| + |Unwritten(s, id)| + |LostReplies(s, id)| by {
      assert Successes(s, id) !! Unwritten(s, id) && (Successes(s, id) + Unwritten(s, id)) !! LostReplies(s, id);
    }
  }

  /** Whatever payment a record shows was issued for that order, by that method. */
  lemma StoredPaymentsWereIssued(env: Env, ss: seq<System>, es: seq<Event>, k: nat, id: Uuid)
    requires IsRun(env, ss, es) && k <= |es| && id in ss[k].orders && ss[k].orders[id].transactionUUID.Some?
    ensures var tx := ss[k].orders[id].transactionUUID.value;
      && tx in ss[k].ledger && ss[k].ledger[tx].order == id && ss[k].ledger[tx].pm != Payment.UNSPECIFIED
      && ss[k].orders[id].paymentMethod == Some(StoredMethod(ss[k].ledger[tx].pm))
  {
    hide Step, Enabled, Keyed, StoredMethod, Priced, CallOk, EntryOk, NewIdsDiffer;
    ReachableIsOk(env, ss, es, k);
    assert RecordOk(env, id, ss[k].orders[id]) && Backed(ss[k], ss[k].orders[id]);
  }

  predicate IsPaid(s: System, id: Uuid) {
    id in s.orders && s.orders[id].status == PAID
  }

  /** Only a payment's write adds a success, and only the writes of an order decide whether it is paid. */
  lemma SuccessStep(env: Env, s: System, e: Event, id: Uuid)
    requires Sound(env) && Inv(env, s) && Enabled(s, e)
    ensures var t := Step(env, s, e);
      if IsWrite(e) && e.id == id then
        if e.PayCommit? then Successes(t, id) == Successes(s, id) + {e.c} && e.c !in Successes(s, id) && IsPaid(t, id)
        else Successes(t, id) == Successes(s, id) && !IsPaid(t, id)
      else Successes(t, id) == Successes(s, id) && IsPaid(t, id) == IsPaid(s, id)
  {
    hide Step, Enabled, Inv, StartCreate, PaidOrder, CancelledOrder, Lawful, Keyed;
    if IsBegin(e) {
      BeginStep(env, s, e);
    } else if IsCharge(e) {
      ChargeStep(env, s, e);
    } else {
      StoreStep(env, s, e);
      StoredFinally(s.calls[e.c]);
      if e.CreateCommit? { CreatingIsAccepted(env, s, e.c); NewIdsAreDrawn(env, s); }
    }
  }

  lemma {:induction false} SuccessWasWritten(env: Env, ss: seq<System>, es: seq<Event>, k: nat, c: CallId, id: Uuid)
    returns (j: nat)
    requires IsRun(env, ss, es) && k <= |es| && c in Successes(ss[k], id)
    ensures j < k && es[j] == PayCommit(c, id)
  {
    hide Step, Inv, Enabled, Keyed, IsPaid;
    assert k > 0 && StepAt(env, ss, es, k - 1);
    ReachableIsOk(env, ss, es, k - 1);
    SuccessStep(env, ss[k - 1], es[k - 1], id);
    if c in Successes(ss[k - 1], id) {
      j := SuccessWasWritten(env, ss, es, k - 1, c, id);
    } else {
      j := k - 1;
    }
  }

  lemma {:induction false} WrittenIsSuccess(env: Env, ss: seq<System>, es: seq<Event>, j: nat, k: nat, id: Uuid)
    requires IsRun(env, ss, es) && j < k <= |es| && es[j].PayCommit? && es[j].id == id
    ensures es[j].c in Successes(ss[k], id)
    decreases k
  {
    hide Step, Inv, Enabled, Keyed, IsPaid, Successes;
    ReachableIsOk(env, ss, es, k - 1);
    assert StepAt(env, ss, es, k - 1);
    SuccessStep(env, ss[k - 1], es[k - 1], id);
    if j < k - 1 {
      WrittenIsSuccess(env, ss, es, j, k - 1, id);
    }
  }

  /** Before state k, a call writes an order that another call has paid since it was read. */
  ghost predicate PaymentOverwritten(es: seq<Event>, id: Uuid, k: nat) {
    exists i: nat, j: nat, m: nat :: m < k && Overlap(es, i, j, m) && es[j].PayCommit? && es[m].id == id
  }

  /** At a write of the order the answer depends on whether there was a payment before. */
  lemma SuccessesAtWrite(env: Env, ss: seq<System>, es: seq<Event>, k: nat, id: Uuid)
    requires IsRun(env, ss, es) && k < |es| && IsWrite(es[k]) && es[k].id == id
    ensures |Successes(ss[k + 1], id)| == (if IsPaid(ss[k + 1], id) then 1 else 0) <==> !PaymentOverwritten(es, id, k + 1)
  {
    hide Step, Inv, Enabled, Keyed, IsPaid, Successes;
    ReachableIsOk(env, ss, es, k);
    assert StepAt(env, ss, es, k);
    SuccessStep(env, ss[k], es[k], id);
    if j: nat :| j < k && es[j].PayCommit? && es[j].id == id {
      WrittenIsSuccess(env, ss, es, j, k, id);
      var i := TwoWritesOverlap(env, ss, es, j, k);
    } else {
      if c :| c in Successes(ss[k], id) {
        var j := SuccessWasWritten(env, ss, es, k, c, id);
      }
      assert Successes(ss[k], id) == {};
    }
  }

  /**
   In every reachable state, and for each order: it has one successful payment reply if it is paid and none otherwise,
   if and only if no payment of it was overwritten by a call that had read it before.
   */
  lemma {:induction false} SuccessesMatchStatus(env: Env, ss: seq<System>, es: seq<Event>, k: nat, id: Uuid)
    requires IsRun(env, ss, es) && k <= |es|
    ensures |Successes(ss[k], id)| == (if IsPaid(ss[k], id) then 1 else 0) <==> !PaymentOverwritten(es, id, k)
  {
    hide Step, Inv, Enabled, Keyed, PaymentOverwritten, Successes, IsPaid;
    if k == 0 {
      NothingPaid(es, id);
    } else {
      assert StepAt(env, ss, es, k - 1);
      if IsWrite(es[k - 1]) && es[k - 1].id == id {
        SuccessesAtWrite(env, ss, es, k - 1, id);
      } else {
        SuccessesMatchStatus(env, ss, es, k - 1, id);
        ReachableIsOk(env, ss, es, k - 1);
        SuccessStep(env, ss[k - 1], es[k - 1], id);
        NotOverwrittenHere(es, id, k - 1);
      }
    }
  }

  lemma NothingPaid(es: seq<Event>, id: Uuid)
    ensures Successes(Init(), id) == {} && !IsPaid(Init(), id) && !PaymentOverwritten(es, id, 0)
  {}

  lemma NotOverwrittenHere(es: seq<Event>, id: Uuid, k: nat)
    requires k < |es| && !(IsWrite(es[k]) && es[k].id == id)
    ensures PaymentOverwritten(es, id, k + 1) <==> PaymentOverwritten(es, id, k)
  {}

  lemma UnwrittenIsInFlight(s: System, id: Uuid)
    ensures Unwritten(s, id) <= InFlight(s, id)
  {}

  /**
   An order on which no call is in flight and for which no answer was lost has one transaction if it is paid and none
   otherwise, if and only if no payment of it was overwritten.
   */
  lemma OneTransactionPerPaidOrder(env: Env, ss: seq<System>, es: seq<Event>, k: nat, id: Uuid)
    requires IsRun(env, ss, es) && k <= |es|
    requires LostReplies(ss[k], id) == {} && InFlight(ss[k], id) == {}
    ensures |IssuedFor(ss[k], id)| == (if IsPaid(ss[k], id) then 1 else 0) <==> !PaymentOverwritten(es, id, k)
  {
    hide Step, Enabled, Keyed, PaymentOverwritten, IssuedFor, Successes, LostReplies;
    PaymentsAreConserved(env, ss, es, k, id);
    SuccessesMatchStatus(env, ss, es, k, id);
    UnwrittenIsInFlight(ss[k], id);
  }
}
