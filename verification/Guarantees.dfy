// What the settlement protocol guarantees over all its runs.

module Guarantees {
  import opened Common
  import opened Domain
  import opened Settlement
  import F = Fingerprint

  // ---------- The tables only grow ----------

  lemma StepGrows(s: State, a: Action)
    requires Inv(s) && Enabled(s, a)
    ensures Grows(s.t, Apply(s, a).t)
  {
    if a.Step? && a.outcome == Ok {
      var proc := s.procs[a.p];
      if proc.InFlight? {
        ExecuteGrows(s.t, proc.statement);
      } else {
        TablesAfterOK(s.t, s.requests, proc, a.uuid);
      }
    }
  }

  lemma {:induction false} RunGrows(s: State, run: seq<Action>)
    requires Inv(s) && Legal(s, run)
    ensures Grows(s.t, Final(s, run).t)
    decreases |run|
  {
    if run != [] {
      StepGrows(s, run[0]);
      StepKeepsInv(s, run[0]);
      RunGrows(Apply(s, run[0]), run[1..]);
    }
  }

  // ---------- Idempotent creation ----------

  function OrderOf(result: CreateResult): Option<Order> {
    match result
    case Returned(o) => Some(o)
    case PaymentUnavailable(o) => Some(o)
    case _ => None
  }

  // There is at most one order for an idempotency key.
  lemma OneOrderPerKey(s: State, a: string, b: string)
    requires Reachable(s) && a in s.t.orders && b in s.t.orders
    requires s.t.orders[a].idempotencyKey == s.t.orders[b].idempotencyKey
    ensures a == b
  {
    ReachableInv(s);
  }

  // However two Create calls with the same key overlap, crash or lose answers: the orders they return
  // are the same order, which is the one the caller asked for; at most one of them reports that it
  // created it; and success is never reported for an order that is still pending.
  lemma CreateIsIdempotent(s: State, p: nat, q: nat)
    requires Reachable(s) && p in s.procs && q in s.procs && s.procs[p].CreateDone? && s.procs[q].CreateDone?
    requires s.procs[p].input.idempotencyKey == s.procs[q].input.idempotencyKey
    ensures var rp, rq := s.procs[p].result, s.procs[q].result;
            && (p != q ==> !(s.procs[p].created && s.procs[q].created))
            && (rp.Returned? ==> rp.order.status != Pending)
            && (OrderOf(rp).Some? && OrderOf(rq).Some? ==> OrderOf(rp).value.id == OrderOf(rq).value.id)
            && (OrderOf(rp).Some? ==>
                  var o, input := OrderOf(rp).value, s.procs[p].input;
                  o.id in s.t.orders && o.customerID == input.customerID && o.itemName == input.itemName && o.amount == input.amount)
  {
    ReachableInv(s);
    assert s.procs[p].created ==> CreatorOf(s.procs[p]) == Some(s.procs[p].input.idempotencyKey);
    assert s.procs[q].created ==> CreatorOf(s.procs[q]) == Some(s.procs[q].input.idempotencyKey);
    if OrderOf(s.procs[p].result).Some? {
      var o, input := OrderOf(s.procs[p].result).value, s.procs[p].input;
      var stored := s.t.orders[o.id];
      F.PreHashFaithful(stored.customerID, stored.itemName, stored.amount, input.customerID, input.itemName, input.amount);
    }
  }

  // ---------- One payment decision ----------

  // Every stored payment, also one whose event nobody could publish, is authorized, with a
  // transaction id, exactly when its amount is within the limit.
  lemma StoredPaymentIsDecided(s: State, id: string)
    requires Reachable(s) && id in s.t.payments
    ensures var payment := s.t.payments[id];
            && payment.orderID == id && payment.amount > 0
            && (payment.status == Authorized <==> payment.amount <= 100000)
            && (payment.status == Authorized <==> payment.transactionID != "")
  {
    ReachableInv(s);
  }

  // However they end, at most one of the Authorize calls for an order reports that it created the
  // payment, and only if the payment is stored.
  lemma OneCallCreatesPayment(s: State, p: nat, q: nat)
    requires Reachable(s) && p in s.procs && q in s.procs
    requires s.procs[p].AuthorizeDone? && s.procs[q].AuthorizeDone?
    requires s.procs[p].request.orderID == s.procs[q].request.orderID
    ensures s.procs[p].created ==> s.procs[p].request.orderID in s.t.payments && (p != q ==> !s.procs[q].created)
  {
    ReachableInv(s);
    assert s.procs[p].created ==> PayerOf(s.procs[p]) == Some(s.procs[p].request.orderID);
    assert s.procs[q].created ==> PayerOf(s.procs[q]) == Some(s.procs[q].request.orderID);
  }

  // All successful Authorize calls for an order report the stored payment, at most one of them as
  // created; it is authorized, with a transaction id, exactly when its amount is within the limit.
  lemma OnePaymentDecision(s: State, p: nat, q: nat)
    requires Reachable(s) && p in s.procs && q in s.procs
    requires s.procs[p].AuthorizeDone? && s.procs[q].AuthorizeDone?
    requires s.procs[p].request.orderID == s.procs[q].request.orderID
    requires s.procs[p].authorizeResult.Granted? && s.procs[q].authorizeResult.Granted?
    ensures var payment := s.procs[p].authorizeResult.payment;
            && payment == s.procs[q].authorizeResult.payment
            && payment.orderID in s.t.payments && payment == s.t.payments[payment.orderID]
            && payment.orderID == s.procs[p].request.orderID
            && (payment.status == Authorized <==> payment.amount <= 100000)
            && (payment.status == Authorized <==> payment.transactionID != "")
            && (p != q ==> !(s.procs[p].created && s.procs[q].created))
  {
    ReachableInv(s);
    assert s.procs[p].created ==> PayerOf(s.procs[p]) == Some(s.procs[p].request.orderID);
    assert s.procs[q].created ==> PayerOf(s.procs[q]) == Some(s.procs[q].request.orderID);
  }

  // A payment row is never changed or removed.
  lemma PaymentsAreWriteOnce(s: State, run: seq<Action>, id: string)
    requires Reachable(s) && Legal(s, run) && id in s.t.payments
    ensures id in Final(s, run).t.payments && Final(s, run).t.payments[id] == s.t.payments[id]
  {
    ReachableInv(s);
    RunGrows(s, run);
  }

  // ---------- Outcomes of an order ----------

  // Even with racing Creates and Cancels, no order is Paid at one time and Failed at another, and
  // its identity, customer, item, amount and key never change.
  lemma NeverPaidAndFailed(s: State, run: seq<Action>, id: string)
    requires Reachable(s) && Legal(s, run) && id in s.t.orders
    ensures var f := Final(s, run);
            && id in f.t.orders && SameRequest(s.t.orders[id], f.t.orders[id])
            && !(s.t.orders[id].status == Paid && f.t.orders[id].status == Failed)
            && !(s.t.orders[id].status == Failed && f.t.orders[id].status == Paid)
  {
    ReachableInv(s);
    RunGrows(s, run);
    RunKeepsInv(s, run);
  }

  // A Paid order has a stored authorized payment and shows its transaction id; no order shows any
  // other transaction id.
  lemma PaidMeansAuthorized(s: State, id: string)
    requires Reachable(s) && id in s.t.orders
    ensures var o := s.t.orders[id];
            && (o.status == Paid ==> id in s.t.payments && s.t.payments[id].status == Authorized && o.paymentTransactionID != "")
            && (o.status == Failed ==> id in s.t.payments && s.t.payments[id].status == Declined && o.paymentTransactionID == "")
            && (o.paymentTransactionID != "" ==>
                  id in s.t.payments && o.paymentTransactionID == s.t.payments[id].transactionID)
  {
    ReachableInv(s);
  }

  // Publish before outcome: an order is Paid or Failed only after its payment.completed event is in
  // the stream, and all events for it carry the message id, amount and status of the stored payment.
  lemma PublishedBeforeOutcome(s: State, id: string)
    requires Reachable(s) && id in s.t.orders
    ensures s.t.orders[id].status == Paid || s.t.orders[id].status == Failed ==> EventStored(s.t, id)
    ensures forall e :: e in s.t.events && e.orderID == id ==>
              id in s.t.payments && e.messageID == "payment.completed:" + id
              && e.amount == s.t.payments[id].amount && e.status == if e.amount <= 100000 then "Authorized" else "Declined"
  {
    ReachableInv(s);
    assert OrderOK(s.t, s.t.orders[id]);
    if Announced(s.t, id) {
      UuidIsAnnounced(s.t, id);
    }
  }

  // ---------- Terminal statuses ----------

  // A Create that has seen the order pending and not finished with it.
  predicate Creating(proc: Proc, id: string) {
    match proc
    case Call(_, o, _) => o.id == id
    case Await(_, o, _) => o.id == id
    case Mark(_, o, _, _, _) => o.id == id
    case InFlight(MarkOrder(i, _, _)) => i == id
    case _ => false
  }

  // A Cancel that has seen the order pending and not finished with it.
  predicate Cancelling(proc: Proc, id: string) {
    match proc
    case CancelUpdate(i) => i == id
    case InFlight(CancelOrder(i)) => i == id
    case _ => false
  }

  predicate Overlap(s: State, id: string) {
    exists p, q :: p in s.procs && q in s.procs && Creating(s.procs[p], id) && Cancelling(s.procs[q], id)
  }

  // In no state of the run does a Cancel of the order overlap a Create of it.
  ghost predicate NoOverlap(s: State, run: seq<Action>, id: string)
    requires Legal(s, run)
    decreases |run|
  {
    !Overlap(s, id) && (run != [] ==> NoOverlap(Apply(s, run[0]), run[1..], id))
  }

  // What a call in progress knows about the order it has read.
  predicate Informed(t: Tables, proc: Proc, id: string) {
    && (Creating(proc, id) ==> id in t.orders && t.orders[id].status != Cancelled)
    && (Cancelling(proc, id) ==> id in t.orders && (t.orders[id].status == Pending || t.orders[id].status == Cancelled))
  }

  predicate ReadsHold(s: State, id: string) {
    forall p :: p in s.procs ==> Informed(s.t, s.procs[p], id)
  }

  // A terminal row stays as it is.
  predicate Absorbs(t: Tables, t': Tables, id: string) {
    id in t.orders && t.orders[id].status != Pending ==> id in t'.orders && t'.orders[id] == t.orders[id]
  }

  // Carrying out a statement of a Create or a Cancel that has read the order correctly.
  lemma WriteAbsorbs(t: Tables, proc: Proc, id: string)
    requires Writes(proc).Some? && StatementOK(t, Writes(proc).value) && Informed(t, proc, id)
    requires id in t.orders ==> t.orders[id].id == id && OrderOK(t, t.orders[id])
    ensures Absorbs(t, Execute(t, Writes(proc).value), id)
  {
  }

  // The other calls still know the order's status after the write.
  lemma WriteKeepsOthers(t: Tables, proc: Proc, other: Proc, id: string)
    requires Writes(proc).Some? && StatementOK(t, Writes(proc).value) && Informed(t, proc, id) && Informed(t, other, id)
    requires !(Creating(proc, id) && Cancelling(other, id)) && !(Creating(other, id) && Cancelling(proc, id))
    ensures Informed(Execute(t, Writes(proc).value), other, id)
  {
  }

  // An order that has just been found pending or inserted.
  lemma FirstReadIsInformed(t: Tables, requests: set<AuthorizeInput>, proc: Proc, uuid: string, id: string)
    requires TablesOK(t) && ProcOK(t, requests, proc) && (proc.Lookup? || proc.Insert? || proc.Reload?)
    ensures Informed(TablesAfter(t, proc, uuid), AfterOk(t, proc, uuid), id)
  {
    if proc.Insert? {
      FirstInsertIsInformed(t, requests, proc, uuid, id);
    } else {
      assert TablesAfter(t, proc, uuid).orders == t.orders;
    }
  }

  lemma FirstInsertIsInformed(t: Tables, requests: set<AuthorizeInput>, proc: Proc, uuid: string, id: string)
    requires ProcOK(t, requests, proc) && proc.Insert?
    ensures Informed(TablesAfter(t, proc, uuid), AfterOk(t, proc, uuid), id)
  {
  }

  lemma NextIsInformed(t: Tables, requests: set<AuthorizeInput>, proc: Proc, uuid: string, id: string)
    requires TablesOK(t) && ProcOK(t, requests, proc) && Informed(t, proc, id) && !proc.InFlight? && !proc.Await?
    ensures Informed(TablesAfter(t, proc, uuid), AfterOk(t, proc, uuid), id)
  {
    if proc.Lookup? || proc.Insert? || proc.Reload? {
      FirstReadIsInformed(t, requests, proc, uuid, id);
    } else if proc.Call? || proc.CancelLoad? {
      assert TablesAfter(t, proc, uuid).orders == t.orders;
    } else {
      assert !Creating(AfterOk(t, proc, uuid), id) && !Cancelling(AfterOk(t, proc, uuid), id);
    }
  }

  lemma FailedIsInformed(t: Tables, proc: Proc, id: string)
    requires Informed(t, proc, id)
    ensures Informed(t, AfterError(proc), id)
    ensures Writes(proc).Some? ==> Informed(t, InFlight(Writes(proc).value), id)
  {
  }

  lemma FailedStepAbsorbs(s: State, a: Action, id: string)
    requires Enabled(s, a) && ReadsHold(s, id) && a.Step? && a.outcome != Ok
    ensures Apply(s, a).t == s.t && ReadsHold(Apply(s, a), id)
  {
    FailedIsInformed(s.t, s.procs[a.p], id);
  }

  lemma MessageStepAbsorbs(s: State, a: Action, id: string)
    requires Enabled(s, a) && ReadsHold(s, id) && !a.Step?
    ensures Apply(s, a).t.orders == s.t.orders && ReadsHold(Apply(s, a), id)
  {
    match a
    case Receive(p, _) => assert Creating(s.procs[p], id) <==> s.procs[p].order.id == id;
    case _ =>
  }

  lemma StepAbsorbs(s: State, a: Action, id: string)
    requires Inv(s) && Enabled(s, a) && ReadsHold(s, id) && !Overlap(s, id)
    ensures Absorbs(s.t, Apply(s, a).t, id) && ReadsHold(Apply(s, a), id)
  {
    if !a.Step? {
      MessageStepAbsorbs(s, a, id);
    } else if a.outcome != Ok {
      FailedStepAbsorbs(s, a, id);
    } else {
      OkStepAbsorbs(s, a.p, a.uuid, id);
    }
  }

  lemma OkStepAbsorbs(s: State, p: nat, uuid: string, id: string)
    requires Inv(s) && Enabled(s, Step(p, Ok, uuid)) && ReadsHold(s, id) && !Overlap(s, id)
    ensures Absorbs(s.t, Apply(s, Step(p, Ok, uuid)).t, id) && ReadsHold(Apply(s, Step(p, Ok, uuid)), id)
  {
    var proc := s.procs[p];
    var s' := Apply(s, Step(p, Ok, uuid));
    TablesAbsorb(s, p, uuid, id);
    forall q | q in s'.procs ensures Informed(s'.t, s'.procs[q], id) {
      if q != p {
        OthersStayInformed(s, p, uuid, q, id);
      } else {
        NextIsInformed(s.t, s.requests, proc, uuid, id);
      }
    }
  }

  lemma TablesAbsorb(s: State, p: nat, uuid: string, id: string)
    requires Inv(s) && ReadsHold(s, id) && p in s.procs
    ensures Absorbs(s.t, TablesAfter(s.t, s.procs[p], uuid), id)
  {
    if Writes(s.procs[p]).Some? {
      assert ProcOK(s.t, s.requests, s.procs[p]);
      WriteAbsorbs(s.t, s.procs[p], id);
    }
  }

  lemma OthersStayInformed(s: State, p: nat, uuid: string, q: nat, id: string)
    requires Inv(s) && ReadsHold(s, id) && !Overlap(s, id) && p in s.procs && q in s.procs && p != q
    ensures Informed(TablesAfter(s.t, s.procs[p], uuid), s.procs[q], id)
  {
    if Writes(s.procs[p]).Some? {
      assert ProcOK(s.t, s.requests, s.procs[p]);
      WriteKeepsOthers(s.t, s.procs[p], s.procs[q], id);
    }
  }

  lemma {:induction false} RunAbsorbs(s: State, run: seq<Action>, id: string)
    requires Inv(s) && Legal(s, run) && ReadsHold(s, id) && NoOverlap(s, run, id)
    ensures ReadsHold(Final(s, run), id) && Absorbs(s.t, Final(s, run).t, id)
    decreases |run|
  {
    if run != [] {
      StepAbsorbs(s, run[0], id);
      StepKeepsInv(s, run[0]);
      RunAbsorbs(Apply(s, run[0]), run[1..], id);
    }
  }

  // While no Cancel overlaps a Create of the same order, an order that is Paid, Failed or Cancelled
  // keeps that row for ever, whatever retries and orphaned payment calls are still running.
  lemma TerminalStatusIsFinal(before: seq<Action>, run: seq<Action>, id: string)
    requires Legal(Initial(), before) && NoOverlap(Initial(), before, id)
    requires Legal(Final(Initial(), before), run) && NoOverlap(Final(Initial(), before), run, id)
    ensures var s, f := Final(Initial(), before), Final(Final(Initial(), before), run);
            id in s.t.orders && s.t.orders[id].status != Pending ==>
              id in f.t.orders && f.t.orders[id] == s.t.orders[id]
  {
    RunKeepsInv(Initial(), before);
    RunAbsorbs(Initial(), before, id);
    RunAbsorbs(Final(Initial(), before), run, id);
  }
}
