/**
 Exactly when an order is paid twice, when a paid order is cancelled, when a cancelled one is paid, and when a final
 record changes: each happens to an order if and only if writes of that order, of those kinds, overlap.
 */
module Finality {
  import opened Base
  import opened Uuids
  import opened OrderTypes
  import opened Inventory
  import opened Handler
  import opened Protocol
  import opened Invariant
  import opened Steps
  import opened Freeze
  import opened Refinement
  import opened Conservation

  predicate IsCancelled(s: System, id: Uuid) {
    id in s.orders && s.orders[id].status == CANCELLED
  }

  /** Before state k, a payment of an order is overwritten by a payment whose call had read the order before. */
  ghost predicate PaymentsOverlap(es: seq<Event>, id: Uuid, k: nat) {
    exists i: nat, j: nat, m: nat ::
      m < k && Overlap(es, i, j, m) && es[j].PayCommit? && es[m].PayCommit? && es[m].id == id
  }

  /** Likewise a payment by a cancellation. */
  ghost predicate CancelOverPay(es: seq<Event>, id: Uuid, k: nat) {
    exists i: nat, j: nat, m: nat ::
      m < k && Overlap(es, i, j, m) && es[j].PayCommit? && es[m].CancelCommit? && es[m].id == id
  }

  /** Likewise a cancellation by a payment. */
  ghost predicate PayOverCancel(es: seq<Event>, id: Uuid, k: nat) {
    exists i: nat, j: nat, m: nat ::
      m < k && Overlap(es, i, j, m) && es[j].CancelCommit? && es[m].PayCommit? && es[m].id == id
  }

  // ---- Paid twice ----

  /** Two payments of one order succeed if and only if one of them is written between the other's read and write. */
  lemma PaidTwiceExactlyWhen(env: Env, ss: seq<System>, es: seq<Event>, k: nat, id: Uuid)
    requires IsRun(env, ss, es) && k <= |es|
    ensures (exists c, d :: c != d && c in Successes(ss[k], id) && d in Successes(ss[k], id))
            <==> PaymentsOverlap(es, id, k)
  {
    hide Step, Enabled, Keyed, Successes;
    if c, d :| c != d && c in Successes(ss[k], id) && d in Successes(ss[k], id) {
      var j := SuccessWasWritten(env, ss, es, k, c, id);
      var m := SuccessWasWritten(env, ss, es, k, d, id);
      if j < m {
        var i := TwoWritesOverlap(env, ss, es, j, m);
      } else {
        var i := TwoWritesOverlap(env, ss, es, m, j);
      }
    }
    if i: nat, j: nat, m: nat :|
        m < k && Overlap(es, i, j, m) && es[j].PayCommit? && es[m].PayCommit? && es[m].id == id {
      WrittenIsSuccess(env, ss, es, j, k, id);
      WrittenIsSuccess(env, ss, es, m, k, id);
    }
  }

  // ---- What the last write of an order leaves ----

  /** A step decides the status of a written order, and leaves final records of other orders alone. */
  lemma FinalStep(env: Env, s: System, e: Event, id: Uuid)
    requires Sound(env) && Inv(env, s) && Enabled(s, e)
    ensures var t := Step(env, s, e);
      if IsWrite(e) && e.id == id then
        && Terminal(t, id) && (e.PayCommit? ==> IsPaid(t, id)) && (e.CancelCommit? ==> IsCancelled(t, id))
      else
        (Terminal(t, id) <==> Terminal(s, id)) && (Terminal(s, id) ==> t.orders[id] == s.orders[id])
  {
    hide Step, Enabled, Inv, StartCreate, PaidOrder, CancelledOrder, Lawful, Keyed;
    if IsBegin(e) {
      BeginStep(env, s, e);
    } else if IsCharge(e) {
      ChargeStep(env, s, e);
    } else {
      StoreStep(env, s, e);
      StoredFinally(s.calls[e.c]);
      if e.CreateCommit? { CreatingIsAccepted(env, s, e.c); NewIdsAreDrawn(env, s); }
    }
  }

  /** A final record was left by the last write of its order. */
  lemma {:induction false} WasFinalised(env: Env, ss: seq<System>, es: seq<Event>, k: nat, id: Uuid) returns (j: nat)
    requires IsRun(env, ss, es) && k <= |es| && Terminal(ss[k], id)
    ensures j < k && IsWrite(es[j]) && es[j].id == id
    ensures Terminal(ss[j + 1], id) && ss[j + 1].orders[id] == ss[k].orders[id]
    ensures if es[j].PayCommit? then IsPaid(ss[k], id) else IsCancelled(ss[k], id)
    ensures forall w :: j < w < k && IsWrite(es[w]) ==> es[w].id != id
  {
    hide Step, Inv, Enabled, Keyed;
    assert k > 0 && StepAt(env, ss, es, k - 1);
    ReachableIsOk(env, ss, es, k - 1);
    FinalStep(env, ss[k - 1], es[k - 1], id);
    if IsWrite(es[k - 1]) && es[k - 1].id == id {
      j := k - 1;
    } else {
      j := WasFinalised(env, ss, es, k - 1, id);
    }
  }

  lemma AfterWrite(env: Env, ss: seq<System>, es: seq<Event>, j: nat)
    requires IsRun(env, ss, es) && j < |es| && IsWrite(es[j])
    ensures Terminal(ss[j + 1], es[j].id)
    ensures if es[j].PayCommit? then IsPaid(ss[j + 1], es[j].id) else IsCancelled(ss[j + 1], es[j].id)
  {
    hide Step, Inv, Enabled, Keyed;
    ReachableIsOk(env, ss, es, j);
    assert StepAt(env, ss, es, j);
    FinalStep(env, ss[j], es[j], es[j].id);
  }

  /** A final record that is another one later changed in a step on the way. */
  lemma {:induction false} ChangesOnTheWay(env: Env, ss: seq<System>, es: seq<Event>, i: nat, k: nat, id: Uuid)
    returns (m: nat)
    requires IsRun(env, ss, es) && i <= k <= |es| && Terminal(ss[i], id)
    requires id in ss[k].orders && ss[k].orders[id] != ss[i].orders[id]
    ensures i <= m < k && Terminal(ss[m], id) && Terminal(ss[m + 1], id)
    ensures ss[m].orders[id] == ss[i].orders[id] && ss[m + 1].orders[id] != ss[m].orders[id]
    decreases k
  {
    hide Step, Inv, Enabled, Keyed, InFlight, Terminal;
    TerminalInside(env, ss, es, i, k - 1, id);
    TerminalInside(env, ss, es, i, k, id);
    if ss[k - 1].orders[id] == ss[i].orders[id] {
      m := k - 1;
    } else {
      m := ChangesOnTheWay(env, ss, es, i, k - 1, id);
    }
  }

  lemma TerminalInside(env: Env, ss: seq<System>, es: seq<Event>, i: nat, k: nat, id: Uuid)
    requires IsRun(env, ss, es) && i <= k <= |es| && Terminal(ss[i], id)
    ensures Terminal(ss[k], id) && id in ss[k].orders && id in ss[i].orders
  {
    hide Step, Keyed, Enabled;
    RecordsAreKept(env, ss, es, i, k);
  }

  /** A change of a final record is a write over the write that left it, so the two overlap. */
  lemma ChangeIsOverlap(env: Env, ss: seq<System>, es: seq<Event>, m: nat, id: Uuid) returns (i: nat, j: nat)
    requires IsRun(env, ss, es) && m < |es| && Terminal(ss[m], id) && Terminal(ss[m + 1], id)
    requires ss[m + 1].orders[id] != ss[m].orders[id]
    ensures Overlap(es, i, j, m) && es[m].id == id
    ensures if es[j].PayCommit? then IsPaid(ss[m], id) else IsCancelled(ss[m], id)
    ensures if es[m].PayCommit? then IsPaid(ss[m + 1], id) else IsCancelled(ss[m + 1], id)
  {
    hide Step, Inv, Enabled, Keyed;
    ReachableIsOk(env, ss, es, m);
    assert StepAt(env, ss, es, m);
    FinalStep(env, ss[m], es[m], id);
    j := WasFinalised(env, ss, es, m, id);
    i := TwoWritesOverlap(env, ss, es, j, m);
  }

  // ---- Paid, then cancelled, and the other way round ----

  /** A paid order stops being paid if and only if a cancellation overwrites a payment made since it read the order. */
  lemma PaidIsCancelledExactlyWhen(env: Env, ss: seq<System>, es: seq<Event>, k: nat, id: Uuid)
    requires IsRun(env, ss, es) && k <= |es|
    ensures (exists m: nat :: m < k && IsPaid(ss[m], id) && !IsPaid(ss[m + 1], id)) <==> CancelOverPay(es, id, k)
  {
    hide Step, Inv, Enabled, Keyed;
    if m: nat :| m < k && IsPaid(ss[m], id) && !IsPaid(ss[m + 1], id) {
      TerminalInside(env, ss, es, m, m + 1, id);
      var i, j := ChangeIsOverlap(env, ss, es, m, id);
    }
    if i: nat, j: nat, m: nat :|
        m < k && Overlap(es, i, j, m) && es[j].PayCommit? && es[m].CancelCommit? && es[m].id == id {
      AfterWrite(env, ss, es, j);
      AfterWrite(env, ss, es, m);
      var n := StopsOnTheWay(ss, id, j + 1, m + 1);
    }
  }

  /** Somewhere between a state in which the order is paid and one in which it is not, it stops being paid. */
  lemma {:induction false} StopsOnTheWay(ss: seq<System>, id: Uuid, i: nat, k: nat) returns (m: nat)
    requires i <= k < |ss| && IsPaid(ss[i], id) && !IsPaid(ss[k], id)
    ensures i <= m < k && IsPaid(ss[m], id) && !IsPaid(ss[m + 1], id)
    decreases k
  {
    assert i < k;
    if IsPaid(ss[k - 1], id) {
      m := k - 1;
    } else {
      m := StopsOnTheWay(ss, id, i, k - 1);
    }
  }

  /** A cancelled order is paid if and only if a payment overwrites a cancellation made since it read the order. */
  lemma CancelledIsPaidExactlyWhen(env: Env, ss: seq<System>, es: seq<Event>, k: nat, id: Uuid)
    requires IsRun(env, ss, es) && k <= |es|
    ensures (exists m: nat, n: nat :: m < n <= k && IsCancelled(ss[m], id) && IsPaid(ss[n], id))
            <==> PayOverCancel(es, id, k)
  {
    hide Step, Inv, Enabled, Keyed;
    if m: nat, n: nat :| m < n <= k && IsCancelled(ss[m], id) && IsPaid(ss[n], id) {
      var i, j, w := PaidAfterCancelled(env, ss, es, m, n, id);
    }
    if i: nat, j: nat, m: nat :|
        m < k && Overlap(es, i, j, m) && es[j].CancelCommit? && es[m].PayCommit? && es[m].id == id {
      AfterWrite(env, ss, es, j);
      AfterWrite(env, ss, es, m);
    }
  }

  lemma PaidAfterCancelled(env: Env, ss: seq<System>, es: seq<Event>, m: nat, n: nat, id: Uuid)
    returns (i: nat, j: nat, w: nat)
    requires IsRun(env, ss, es) && m < n <= |es| && IsCancelled(ss[m], id) && IsPaid(ss[n], id)
    ensures w < n && Overlap(es, i, j, w) && es[j].CancelCommit? && es[w].PayCommit? && es[w].id == id
  {
    hide Step, Inv, Enabled, Keyed;
    j := WasFinalised(env, ss, es, m, id);
    w := WasFinalised(env, ss, es, n, id);
    assert j < w;
    i := TwoWritesOverlap(env, ss, es, j, w);
  }

  // ---- Any change of a final record ----

  /** A payment's transaction stays with the call that made it. */
  lemma {:induction false} PaidByCall(env: Env, ss: seq<System>, es: seq<Event>, j: nat, k: nat) returns (tx: Uuid)
    requires IsRun(env, ss, es) && j < k <= |es| && es[j].PayCommit?
    ensures es[j].id in ss[j + 1].orders && ss[j + 1].orders[es[j].id].transactionUUID == Some(tx)
    ensures es[j].c in ss[k].calls && ss[k].calls[es[j].c] == PayDone(es[j].id, tx)
    decreases k
  {
    hide Step, Enabled, Keyed, Lawful, StoredMethod;
    assert StepAt(env, ss, es, k - 1);
    if j == k - 1 {
      StoreStep(env, ss[j], es[j]);
      tx := ss[j].calls[es[j].c].tx;
    } else {
      tx := PaidByCall(env, ss, es, j, k - 1);
      SettledStays(env, ss[k - 1], es[k - 1], es[j].c);
    }
  }

  /** Two payments leave different records: no transaction is issued twice. */
  lemma PaymentsDiffer(env: Env, ss: seq<System>, es: seq<Event>, j: nat, m: nat, id: Uuid)
    requires IsRun(env, ss, es) && j < m < |es| && es[j].PayCommit? && es[m].PayCommit?
    requires es[j].id == id && es[m].id == id && es[j].c != es[m].c
    ensures id in ss[j + 1].orders && id in ss[m + 1].orders && ss[j + 1].orders[id] != ss[m + 1].orders[id]
  {
    hide Step, Inv, Keyed, Enabled;
    var tx1 := PaidByCall(env, ss, es, j, m + 1);
    var tx2 := PaidByCall(env, ss, es, m, m + 1);
    ReachableIsOk(env, ss, es, m + 1);
    EntryOfCall(env, ss[m + 1], es[j].c);
    EntryOfCall(env, ss[m + 1], es[m].c);
  }

  /** Cancelling a cancelled order stores what is stored. */
  lemma CancelledAgain(env: Env, ss: seq<System>, es: seq<Event>, m: nat, id: Uuid)
    requires IsRun(env, ss, es) && m < |es| && IsCancelled(ss[m], id) && IsCancelled(ss[m + 1], id)
    ensures ss[m + 1].orders[id] == ss[m].orders[id]
  {
    hide Step, Inv, Keyed, Enabled, Priced;
    RecordsAreKept(env, ss, es, m, m + 1);
    ReachableIsOk(env, ss, es, m);
    ReachableIsOk(env, ss, es, m + 1);
    StoredIsOk(env, ss[m], id);
    StoredIsOk(env, ss[m + 1], id);
  }

  /** The record of a paid or cancelled order changes if and only if a payment overwrites or is overwritten. */
  lemma FinalRecordChangesExactlyWhen(env: Env, ss: seq<System>, es: seq<Event>, k: nat, id: Uuid)
    requires IsRun(env, ss, es) && k <= |es|
    ensures (exists m: nat :: m < k && Terminal(ss[m], id) && (id !in ss[m + 1].orders || ss[m + 1].orders[id] != ss[m].orders[id]))
            <==> PaymentsOverlap(es, id, k) || CancelOverPay(es, id, k) || PayOverCancel(es, id, k)
  {
    hide Step, Inv, Enabled, Keyed;
    if m: nat :| m < k && Terminal(ss[m], id) && (id !in ss[m + 1].orders || ss[m + 1].orders[id] != ss[m].orders[id]) {
      TerminalInside(env, ss, es, m, m + 1, id);
      var i, j := ChangeIsOverlap(env, ss, es, m, id);
      if es[j].CancelCommit? && es[m].CancelCommit? {
        CancelledAgain(env, ss, es, m, id);
      }
    }
    if i: nat, j: nat, m: nat :|
        m < k && Overlap(es, i, j, m) && es[m].id == id && (es[j].PayCommit? || es[m].PayCommit?) {
      OverwriteChanges(env, ss, es, i, j, m, id);
    }
  }

  lemma OverwriteChanges(env: Env, ss: seq<System>, es: seq<Event>, i: nat, j: nat, m: nat, id: Uuid)
    requires IsRun(env, ss, es) && Overlap(es, i, j, m) && es[m].id == id && (es[j].PayCommit? || es[m].PayCommit?)
    ensures exists n: nat :: n <= m && Terminal(ss[n], id)
              && (id !in ss[n + 1].orders || ss[n + 1].orders[id] != ss[n].orders[id])
  {
    hide Step, Inv, Enabled, Keyed;
    AfterWrite(env, ss, es, j);
    AfterWrite(env, ss, es, m);
    if es[j].PayCommit? && es[m].PayCommit? {
      PaymentsDiffer(env, ss, es, j, m, id);
    }
    var n := ChangesOnTheWay(env, ss, es, j + 1, m + 1, id);
  }
}
