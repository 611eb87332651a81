// What comes out of a call when nothing fails: from every reachable state, whatever else is in
// progress, a Create, a Cancel or an Authorize that is left alone does its work.

module Outcomes {
  import opened Common
  import opened Domain
  import opened Settlement
  import opened Guarantees
  import opened Overwrites
  import F = Fingerprint

  // Call p makes its next step, and it succeeds.
  lemma Advance(s0: State, s: State, p: nat, uuid: string) returns (s': State)
    requires Later(s0, s) && Inv(s) && p in s.procs && FreshUuid(s.t, uuid)
    requires !Finished(s.procs[p]) && !s.procs[p].Await? && !s.procs[p].InFlight?
    ensures Later(s0, s') && Inv(s')
    ensures s'.t == TablesAfter(s.t, s.procs[p], uuid)
    ensures p in s'.procs && s'.procs[p] == AfterOk(s.t, s.procs[p], uuid)
  {
    s' := Apply(s, Step(p, Ok, uuid));
    LaterStep(s0, s, Step(p, Ok, uuid));
    StepKeepsInv(s, Step(p, Ok, uuid));
  }

  // ---------- Create ----------

  // What a Create is left with for order id: the paid or failed row, as the stored payment says.
  predicate Resolved(t: Tables, id: string, o: Order) {
    && id in t.orders && t.orders[id] == o && id in t.payments
    && o.status == (if t.payments[id].amount <= 100000 then Paid else Failed)
    && o.paymentTransactionID == t.payments[id].transactionID
  }

  lemma AwaitAnswer(s0: State, s: State, p: nat) returns (s': State)
    requires Later(s0, s) && Inv(s) && p in s.procs && s.procs[p].Await?
    ensures Later(s0, s') && Inv(s') && p in s'.procs && PaidFor(s.t, s'.t, s.procs[p].order.id, s.procs[p].order.amount)
    ensures var a, pay := s.procs[p], s'.t.payments[s.procs[p].order.id];
            s'.procs[p] == Mark(a.input, a.order, a.created, if pay.amount <= 100000 then Paid else Failed, pay.transactionID)
  {
    var s1 := RequestIsAnswered(s0, s, p);
    var reply :| reply in s1.replies && reply.Processed? && reply.orderID == s.procs[p].order.id;
    AnswerSays(s1, reply);
    s' := Apply(s1, Receive(p, reply));
    LaterStep(s0, s1, Receive(p, reply));
    StepKeepsInv(s1, Receive(p, reply));
  }

  lemma AnswerSays(s: State, reply: Reply)
    requires Inv(s) && reply in s.replies && reply.Processed?
    ensures reply.orderID in s.t.payments
    ensures var pay := s.t.payments[reply.orderID];
            && (reply.status == Authorized <==> pay.amount <= 100000)
            && reply.transactionID == pay.transactionID
            && (pay.amount > 100000 ==> pay.transactionID == "")
  {
    assert ReplyOK(s.t, reply);
  }

  lemma MarkResolves(s0: State, s: State, p: nat) returns (s': State)
    requires Later(s0, s) && Inv(s) && p in s.procs && s.procs[p].Mark? && s.procs[p].order.id in s.t.orders
    ensures Later(s0, s') && Inv(s') && s'.t.payments == s.t.payments
    ensures var m := s.procs[p];
            var o := s.t.orders[m.order.id].(status := m.status, paymentTransactionID := m.transactionID);
            && p in s'.procs && s'.procs[p] == CreateDone(m.input, m.created, Returned(o))
            && m.order.id in s'.t.orders && s'.t.orders[m.order.id] == o
  {
    var uuid := NewUuid(s.t);
    MarkWrites(s.t, s.procs[p], uuid);
    s' := Advance(s0, s, p, uuid);
  }

  lemma MarkWrites(t: Tables, m: Proc, uuid: string)
    requires m.Mark? && m.order.id in t.orders
    ensures var o := t.orders[m.order.id].(status := m.status, paymentTransactionID := m.transactionID);
            && AfterOk(t, m, uuid) == CreateDone(m.input, m.created, Returned(o))
            && TablesAfter(t, m, uuid).orders == t.orders[m.order.id := o] && TablesAfter(t, m, uuid).payments == t.payments
  {
    assert Writes(m) == Some(MarkOrder(m.order.id, m.status, m.transactionID));
  }

  // A Create that has its pending order ends with that order, paid or failed as its payment says.
  lemma CallResolves(s0: State, s: State, p: nat) returns (s': State, o: Order)
    requires Later(s0, s) && Inv(s) && p in s.procs && s.procs[p].Call?
    ensures Later(s0, s') && Inv(s') && p in s'.procs
    ensures var c := s.procs[p];
            && s'.procs[p] == CreateDone(c.input, c.created, Returned(o)) && c.order.id in s.t.orders
            && SameRequest(s.t.orders[c.order.id], o) && Resolved(s'.t, c.order.id, o)
            && (c.order.id !in s.t.payments ==> s'.t.payments[c.order.id].amount == c.order.amount)
  {
    var c := s.procs[p];
    CallHasOrder(s, p);
    var uuid := NewUuid(s.t);
    var s1 := Advance(s0, s, p, uuid);
    var s2 := AwaitAnswer(s0, s1, p);
    s' := MarkResolves(s0, s2, p);
    o := s'.t.orders[c.order.id];
  }

  lemma CallHasOrder(s: State, p: nat)
    requires Inv(s) && p in s.procs && s.procs[p].Call?
    ensures s.procs[p].order.id in s.t.orders && s.procs[p].order.id != "" && s.procs[p].order.amount > 0
  {
    assert ProcOK(s.t, s.requests, s.procs[p]);
  }

  // A new uuid that no payment has as its order either.
  lemma NewOrderID(t: Tables) returns (uuid: string)
    ensures FreshUuid(t, uuid) && uuid !in t.payments
  {
    uuid := LongerThanAll(t.uuids + t.payments.Keys);
  }

  // From every reachable state, a Create under a new key can end with a new order for what the caller
  // asked, created by this call: stored as Paid with a transaction id if the amount is at most the
  // limit, and as Failed without one if it is more.
  lemma NewCreateSucceeds(s: State, p: nat, input: CreateOrderInput) returns (f: State, o: Order)
    requires Reachable(s) && p in s.procs && s.procs[p] == Lookup(input) && input.idempotencyKey !in s.t.byKey
    requires input.amount > 0 && '\0' !in input.customerID && '\0' !in input.itemName
    ensures Later(s, f) && p in f.procs && f.procs[p] == CreateDone(input, true, Returned(o))
    ensures o.id in f.t.orders && f.t.orders[o.id] == o && o.id !in s.t.orders
    ensures o.customerID == input.customerID && o.itemName == input.itemName && o.amount == input.amount
    ensures o.idempotencyKey == input.idempotencyKey
    ensures o.status == (if input.amount <= 100000 then Paid else Failed)
    ensures o.paymentTransactionID != "" <==> input.amount <= 100000
  {
    ReachableInv(s);
    NothingIsLater(s);
    var id := NewOrderID(s.t);
    var s1 := Advance(s, s, p, id);
    var s2 := InsertNew(s, s1, p, s.t, id);
    f, o := CallResolves(s, s2, p);
    assert Decided(f.t.payments[id]);
  }

  lemma InsertNew(s0: State, s: State, p: nat, before: Tables, id: string) returns (s': State)
    requires Later(s0, s) && Inv(s) && p in s.procs && s.procs[p].Insert? && TablesOK(before) && id !in before.uuids
    requires s.t == before.(uuids := before.uuids + {id})
    requires var i := s.procs[p]; i.order == NewOrder(i.input, id) && i.input.idempotencyKey !in before.byKey && Storable(i.order)
    ensures Later(s0, s') && Inv(s') && p in s'.procs && s'.procs[p] == Call(s.procs[p].input, s.procs[p].order, true)
    ensures id !in before.orders && s'.t.orders == s.t.orders[id := s.procs[p].order] && s'.t.payments == s.t.payments
  {
    assert id in before.orders ==> OrderOK(before, before.orders[id]);
    var uuid := NewUuid(s.t);
    s' := Advance(s0, s, p, uuid);
  }

  // What a Create finds under its key decides how it goes on: an order for something else is a
  // conflict, a finished order is returned as it is, a pending one goes on to the payment call.
  lemma RetryFindsOrder(s: State, p: nat, uuid: string)
    requires Reachable(s) && p in s.procs && (s.procs[p].Lookup? || s.procs[p].Reload?) && FreshUuid(s.t, uuid)
    requires s.procs[p].input.idempotencyKey in s.t.byKey
    ensures s.t.byKey[s.procs[p].input.idempotencyKey] in s.t.orders
    ensures var input := s.procs[p].input;
            var o := s.t.orders[s.t.byKey[input.idempotencyKey]];
            var same := o.customerID == input.customerID && o.itemName == input.itemName && o.amount == input.amount;
            var next := Apply(s, Step(p, Ok, uuid)).procs[p];
            && o.idempotencyKey == input.idempotencyKey
            && (next == CreateDone(input, false, KeyConflict) <==> !same)
            && (next == CreateDone(input, false, Returned(o)) <==> same && o.status != Pending)
            && (next == Call(input, o, false) <==> same && o.status == Pending)
  {
    ReachableInv(s);
    var input := s.procs[p].input;
    var o := s.t.orders[s.t.byKey[input.idempotencyKey]];
    assert OrderOK(s.t, o);
    if o.requestFingerprint == RequestFingerprint(input) {
      F.PreHashFaithful(o.customerID, o.itemName, o.amount, input.customerID, input.itemName, input.amount);
    }
  }

  // From every reachable state, the retry of a Create whose order is still pending can end with that
  // order, not reported as created, and paid or failed.
  lemma RetryResolvesPending(s: State, p: nat) returns (f: State, o: Order)
    requires Reachable(s) && p in s.procs && (s.procs[p].Lookup? || s.procs[p].Reload?)
    requires s.procs[p].input.idempotencyKey in s.t.byKey && s.t.byKey[s.procs[p].input.idempotencyKey] in s.t.orders
    requires var input := s.procs[p].input;
             var old_ := s.t.orders[s.t.byKey[input.idempotencyKey]];
             old_.customerID == input.customerID && old_.itemName == input.itemName && old_.amount == input.amount
             && old_.status == Pending
    ensures Later(s, f) && p in f.procs && f.procs[p] == CreateDone(s.procs[p].input, false, Returned(o))
    ensures o.id == s.t.byKey[s.procs[p].input.idempotencyKey] && o.id in f.t.orders && f.t.orders[o.id] == o
    ensures o.status == Paid || o.status == Failed
  {
    ReachableInv(s);
    NothingIsLater(s);
    var uuid := NewUuid(s.t);
    RetryFindsOrder(s, p, uuid);
    var s1 := Advance(s, s, p, uuid);
    f, o := CallResolves(s, s1, p);
  }

  // ---------- A payment call that fails ----------

  // The codes that leave the caller with ErrPaymentUnavailable and its order as it is; every other one
  // is an error.
  lemma FailureKeepsOrder(s: State, p: nat, code: Code)
    requires Reachable(s) && p in s.procs && s.procs[p].Await?
    ensures Enabled(s, CallFails(p, code))
    ensures var f, a := Apply(s, CallFails(p, code)), s.procs[p];
            && f.t == s.t && p in f.procs && a.order.id in s.t.orders && SameRequest(a.order, s.t.orders[a.order.id])
            && f.procs[p] == CreateDone(a.input, a.created,
                 if code == Unavailable || code == DeadlineExceeded || code == Canceled
                 then PaymentUnavailable(a.order) else CreateError)
  {
    ReachableInv(s);
    assert ProcOK(s.t, s.requests, s.procs[p]);
  }

  // A refusal of ProcessPayment is treated like a failed call with its code.
  lemma RefusalIsFailure(s: State, p: nat, code: Code)
    requires Reachable(s) && p in s.procs && s.procs[p].Await? && Refused(s.procs[p].order.id, code) in s.replies
    ensures var a := Receive(p, Refused(s.procs[p].order.id, code));
            Enabled(s, a) && Apply(s, a).procs == Apply(s, CallFails(p, code)).procs && Apply(s, a).t == s.t
  {
  }

  // A failed publish is answered with Unavailable, so the waiting Create keeps its order for a retry;
  // the payment stays stored.
  lemma FailedPublishKeepsOrder(s: State, r: nat, p: nat, uuid: string)
    requires Reachable(s) && r in s.procs && s.procs[r].Publish? && FreshUuid(s.t, uuid)
    requires p in s.procs && s.procs[p].Await? && s.procs[p].order.id == s.procs[r].request.orderID
    ensures Enabled(s, Step(r, Err, uuid))
    ensures var s1 := Apply(s, Step(r, Err, uuid));
            var answer := Receive(p, Refused(s.procs[p].order.id, Unavailable));
            && s1.t == s.t && s.procs[r].request.orderID in s.t.payments
            && s1.procs[r] == AuthorizeDone(s.procs[r].request, s.procs[r].created, PublishFailed)
            && Enabled(s1, answer)
            && Apply(s1, answer).t == s.t
            && Apply(s1, answer).procs[p] == CreateDone(s.procs[p].input, s.procs[p].created, PaymentUnavailable(s.procs[p].order))
  {
    ReachableInv(s);
    assert ProcOK(s.t, s.requests, s.procs[r]);
    PublishErr(s, r, uuid);
    var s1 := Apply(s, Step(r, Err, uuid));
    UnavailableAnswer(s1, p);
  }

  lemma PublishErr(s: State, r: nat, uuid: string)
    requires r in s.procs && s.procs[r].Publish? && FreshUuid(s.t, uuid)
    ensures Enabled(s, Step(r, Err, uuid))
    ensures var f, request := Apply(s, Step(r, Err, uuid)), s.procs[r].request;
            && f.t == s.t && f.procs == s.procs[r := AuthorizeDone(request, s.procs[r].created, PublishFailed)]
            && Refused(request.orderID, Unavailable) in f.replies
  {
  }

  lemma UnavailableAnswer(s: State, p: nat)
    requires p in s.procs && s.procs[p].Await? && Refused(s.procs[p].order.id, Unavailable) in s.replies
    ensures var answer := Receive(p, Refused(s.procs[p].order.id, Unavailable));
            && Enabled(s, answer) && Apply(s, answer).t == s.t
            && Apply(s, answer).procs[p] == CreateDone(s.procs[p].input, s.procs[p].created, PaymentUnavailable(s.procs[p].order))
  {
  }

  // ProcessPayment refuses a blank order id and an amount that is not positive, before it does anything.
  lemma InvalidRequestIsRefused(s: State, r: nat, uuid: string)
    requires r in s.procs && s.procs[r].Process? && FreshUuid(s.t, uuid)
    ensures Enabled(s, Step(r, Ok, uuid))
    ensures var f, request := Apply(s, Step(r, Ok, uuid)), s.procs[r].request;
            if Blank(request.orderID) || request.amount <= 0
            then Refused(request.orderID, InvalidArgument) in f.replies && f.t == s.t && Finished(f.procs[r])
            else f.replies == s.replies && f.procs[r] == Authorize(request)
  {
  }

  // ---------- Cancel ----------

  // What a Cancel finds decides its answer, and a pending order it can cancel.
  lemma CancelFindsOrder(s: State, p: nat, uuid: string)
    requires Reachable(s) && p in s.procs && s.procs[p].CancelLoad? && FreshUuid(s.t, uuid)
    ensures var id := s.procs[p].id;
            var next := Apply(s, Step(p, Ok, uuid)).procs[p];
            && (next == CancelDone(id, OrderNotFound) <==> id !in s.t.orders)
            && (next == CancelDone(id, StateConflict) <==> id in s.t.orders && s.t.orders[id].status != Pending)
            && (next == CancelUpdate(id) <==> id in s.t.orders && s.t.orders[id].status == Pending)
  {
  }

  lemma CancelSucceeds(s: State, p: nat) returns (f: State)
    requires Reachable(s) && p in s.procs && s.procs[p].CancelLoad?
    requires s.procs[p].id in s.t.orders && s.t.orders[s.procs[p].id].status == Pending
    ensures var id := s.procs[p].id;
            && Later(s, f) && p in f.procs && id in f.t.orders
            && f.procs[p] == CancelDone(id, CancelReturned(f.t.orders[id]))
            && f.t.orders[id] == s.t.orders[id].(status := Cancelled)
            && f.t.orders.Keys == s.t.orders.Keys
            && forall o :: o in s.t.orders && o != id ==> f.t.orders[o] == s.t.orders[o]
  {
    var s1 := CancelReads(s, p);
    var uuid := NewUuid(s1.t);
    CancelWrites(s1.t, s.procs[p].id, uuid);
    f := Advance(s, s1, p, uuid);
    OneRowChanged(s.t.orders, f.t.orders, s.procs[p].id);
  }

  lemma CancelReads(s: State, p: nat) returns (s': State)
    requires Reachable(s) && p in s.procs && s.procs[p].CancelLoad?
    requires s.procs[p].id in s.t.orders && s.t.orders[s.procs[p].id].status == Pending
    ensures Later(s, s') && Inv(s') && s'.t.orders == s.t.orders && p in s'.procs && s'.procs[p] == CancelUpdate(s.procs[p].id)
  {
    ReachableInv(s);
    NothingIsLater(s);
    var uuid := NewUuid(s.t);
    s' := Advance(s, s, p, uuid);
  }

  lemma OneRowChanged(orders: map<string, Order>, orders': map<string, Order>, id: string)
    requires id in orders && id in orders' && orders' == orders[id := orders'[id]]
    ensures orders'.Keys == orders.Keys && forall o :: o in orders && o != id ==> orders'[o] == orders[o]
  {
  }

  lemma CancelWrites(t: Tables, id: string, uuid: string)
    requires id in t.orders
    ensures var o := t.orders[id].(status := Cancelled);
            && AfterOk(t, CancelUpdate(id), uuid) == CancelDone(id, CancelReturned(o))
            && TablesAfter(t, CancelUpdate(id), uuid).orders == t.orders[id := o]
  {
    assert Writes(CancelUpdate(id)) == Some(CancelOrder(id));
  }

  // ---------- Authorize ----------

  // From every reachable state, an Authorize of a positive amount can end with the payment of the
  // order: the stored one, or one that it makes and reports as created, authorized up to the limit;
  // and its event tells the order, amount, status and the caller's email.
  lemma AuthorizeSucceeds(s: State, p: nat, request: AuthorizeInput) returns (f: State, pay: Payment)
    requires Reachable(s) && p in s.procs && s.procs[p] == Authorize(request) && request.amount > 0
    ensures Later(s, f) && p in f.procs
    ensures f.procs[p] == AuthorizeDone(request, request.orderID !in s.t.payments, Granted(pay))
    ensures f.t.payments == if request.orderID in s.t.payments then s.t.payments else s.t.payments[request.orderID := pay]
    ensures request.orderID in f.t.payments && f.t.payments[request.orderID] == pay && pay.orderID == request.orderID
    ensures request.orderID !in s.t.payments ==>
              pay.amount == request.amount && pay.status == if request.amount <= 100000 then Authorized else Declined
    ensures PaymentCompleted("payment.completed:" + request.orderID, request.orderID, pay.amount, request.customerEmail,
                             if pay.amount <= 100000 then "Authorized" else "Declined") in f.t.events
  {
    ReachableInv(s);
    NothingIsLater(s);
    var uuid := NewUuid(s.t);
    var s1 := Advance(s, s, p, uuid);
    if request.orderID in s.t.payments {
      f, pay := PublishSucceeds(s, s1, p);
    } else {
      var s2 := InsertSucceeds(s, s1, p);
      f, pay := PublishSucceeds(s, s2, p);
    }
  }

  lemma InsertSucceeds(s0: State, s: State, p: nat) returns (s': State)
    requires Later(s0, s) && Inv(s) && p in s.procs && s.procs[p].InsertPay?
    requires s.procs[p].request.orderID !in s.t.payments && s.procs[p].request.amount > 0
    ensures Later(s0, s') && Inv(s') && p in s'.procs
    ensures var i := s.procs[p];
            && i.payment.orderID == i.request.orderID && i.payment.amount == i.request.amount && Decided(i.payment)
            && s'.procs[p] == Publish(i.request, i.payment, true) && s'.t.payments == s.t.payments[i.request.orderID := i.payment]
  {
    assert ProcOK(s.t, s.requests, s.procs[p]);
    var uuid := NewUuid(s.t);
    s' := Advance(s0, s, p, uuid);
  }

  lemma PublishSucceeds(s0: State, s: State, p: nat) returns (s': State, pay: Payment)
    requires Later(s0, s) && Inv(s) && p in s.procs && s.procs[p].Publish?
    ensures Later(s0, s') && Inv(s') && p in s'.procs
    ensures var i := s.procs[p];
            && s'.procs[p] == AuthorizeDone(i.request, i.created, Granted(pay)) && s'.t.payments == s.t.payments
            && i.payment == pay && i.request.orderID in s.t.payments && pay == s.t.payments[i.request.orderID]
            && OwnEvent(pay, i.request.customerEmail) in s'.t.events
            && pay.orderID == i.request.orderID
  {
    assert ProcOK(s.t, s.requests, s.procs[p]);
    var uuid := NewUuid(s.t);
    PublishStores(s.t, s.procs[p], uuid);
    s' := Advance(s0, s, p, uuid);
    pay := s.procs[p].payment;
  }

  // The event of a payment, spelled out.
  function OwnEvent(pay: Payment, email: string): PaymentCompleted {
    PaymentCompleted("payment.completed:" + pay.orderID, pay.orderID, pay.amount, email,
                     if pay.amount <= 100000 then "Authorized" else "Declined")
  }

  lemma PublishStores(t: Tables, proc: Proc, uuid: string)
    requires proc.Publish? && Decided(proc.payment)
    ensures OwnEvent(proc.payment, proc.request.customerEmail) in TablesAfter(t, proc, uuid).events
    ensures TablesAfter(t, proc, uuid).payments == t.payments
  {
    assert CompletedEvent(proc.payment, proc.request.customerEmail) == OwnEvent(proc.payment, proc.request.customerEmail);
    assert Writes(proc) == Some(StoreEvent(CompletedEvent(proc.payment, proc.request.customerEmail)));
  }

  // Every publish that the broker stores leaves the event of the payment with the caller's email.
  lemma StoredPublishLeavesEvent(s: State, p: nat, uuid: string)
    requires Reachable(s) && p in s.procs && s.procs[p].Publish? && FreshUuid(s.t, uuid)
    ensures var f, request := Apply(s, Step(p, Ok, uuid)), s.procs[p].request;
            && f.procs[p] == AuthorizeDone(request, s.procs[p].created, Granted(s.procs[p].payment))
            && request.orderID in s.t.payments
            && exists e :: e in f.t.events && e.messageID == "payment.completed:" + request.orderID
                 && e.orderID == request.orderID && e.customerEmail == request.customerEmail
                 && e.amount == s.t.payments[request.orderID].amount
                 && e.status == if e.amount <= 100000 then "Authorized" else "Declined"
  {
    ReachableInv(s);
    assert ProcOK(s.t, s.requests, s.procs[p]);
    PublishStores(s.t, s.procs[p], uuid);
    assert OwnEvent(s.procs[p].payment, s.procs[p].request.customerEmail) in Apply(s, Step(p, Ok, uuid)).t.events;
  }

  // ---------- Failed statements ----------

  // A statement that fails without having been carried out changes no table, and the call reports an
  // error; only the insert of a payment is followed by a second look at the table, because its answer
  // may have got lost.
  lemma FailedStatementIsReported(s: State, p: nat, uuid: string)
    requires Enabled(s, Step(p, Err, uuid)) && !s.procs[p].InFlight?
    ensures Apply(s, Step(p, Err, uuid)).t == s.t
    ensures var proc, next := s.procs[p], Apply(s, Step(p, Err, uuid)).procs[p];
            && (proc.Lookup? || proc.Insert? || proc.Reload? ==> next == CreateDone(proc.input, false, CreateError))
            && (proc.Mark? ==> next == CreateDone(proc.input, proc.created, CreateError))
            && (proc.CancelLoad? || proc.CancelUpdate? ==> next == CancelDone(proc.id, CancelError))
            && (proc.Authorize? || proc.ReloadPay? ==> next == AuthorizeDone(proc.request, false, AuthorizeError))
            && (proc.Publish? ==> next == AuthorizeDone(proc.request, proc.created, PublishFailed))
            && (proc.InsertPay? ==> next == ReloadPay(proc.request))
  {
  }

  // A Create that loses the race for its key looks again, and what it finds decides, as for a retry.
  lemma LoserLooksAgain(s: State, p: nat, uuid: string)
    requires Reachable(s) && p in s.procs && s.procs[p].Insert? && s.procs[p].order.idempotencyKey in s.t.byKey
    requires FreshUuid(s.t, uuid)
    ensures Enabled(s, Step(p, Ok, uuid))
    ensures var f := Apply(s, Step(p, Ok, uuid));
            f.procs[p] == Reload(s.procs[p].input) && f.t.orders == s.t.orders && f.t.byKey == s.t.byKey
            && s.procs[p].input.idempotencyKey in f.t.byKey
  {
    ReachableInv(s);
    assert ProcOK(s.t, s.requests, s.procs[p]);
  }

  // An Authorize whose insert was carried out although it saw an error can still end with the payment,
  // which it does not report as created.
  lemma LostInsertIsFoundAgain(s: State, p: nat) returns (f: State, pay: Payment)
    requires Reachable(s) && p in s.procs && s.procs[p].InsertPay?
    requires s.procs[p].request.orderID !in s.t.payments && s.procs[p].request.amount > 0
    ensures Later(s, f) && p in f.procs && f.procs[p] == AuthorizeDone(s.procs[p].request, false, Granted(pay))
    ensures pay == s.procs[p].payment && f.t.payments == s.t.payments[s.procs[p].request.orderID := pay]
  {
    ReachableInv(s);
    NothingIsLater(s);
    var i := s.procs[p];
    var q := GreaterThanAll(s.procs.Keys);
    var s1 := LoseInsert(s, p, q);
    var s2 := CarryOutInsert(s, s1, p, q, i.payment);
    var s3 := ReloadSucceeds(s, s2, p);
    f, pay := PublishSucceeds(s, s3, p);
  }

  lemma ReloadSucceeds(s0: State, s: State, p: nat) returns (s': State)
    requires Later(s0, s) && Inv(s) && p in s.procs && s.procs[p].ReloadPay? && s.procs[p].request.orderID in s.t.payments
    ensures Later(s0, s') && Inv(s') && p in s'.procs && s'.t.payments == s.t.payments
    ensures s'.procs[p] == Publish(s.procs[p].request, s.t.payments[s.procs[p].request.orderID], false)
  {
    var uuid := NewUuid(s.t);
    s' := Advance(s0, s, p, uuid);
  }

  lemma LoseInsert(s: State, p: nat, q: nat) returns (s': State)
    requires Inv(s) && p in s.procs && q !in s.procs && s.procs[p].InsertPay?
    ensures Later(s, s') && Inv(s') && s'.t == s.t && p in s'.procs && q in s'.procs && q != p
    ensures s'.procs[p] == ReloadPay(s.procs[p].request) && s'.procs[q] == InFlight(InsertPayment(s.procs[p].payment))
    ensures s.procs[p].payment.orderID == s.procs[p].request.orderID && s.procs[p].payment.amount == s.procs[p].request.amount
  {
    assert ProcOK(s.t, s.requests, s.procs[p]);
    NothingIsLater(s);
    var uuid := NewUuid(s.t);
    s' := Apply(s, Step(p, Lost(q), uuid));
    LaterStep(s, s, Step(p, Lost(q), uuid));
    StepKeepsInv(s, Step(p, Lost(q), uuid));
  }

  lemma CarryOutInsert(s0: State, s: State, p: nat, q: nat, pay: Payment) returns (s': State)
    requires Later(s0, s) && Inv(s) && p in s.procs && q in s.procs && p != q && s.procs[q] == InFlight(InsertPayment(pay))
    requires pay.orderID !in s.t.payments && pay.amount > 0
    ensures Later(s0, s') && Inv(s') && p in s'.procs && s'.procs[p] == s.procs[p]
    ensures s'.t.payments == s.t.payments[pay.orderID := pay]
  {
    var uuid := NewUuid(s.t);
    s' := Apply(s, Step(q, Ok, uuid));
    LaterStep(s0, s, Step(q, Ok, uuid));
    StepKeepsInv(s, Step(q, Ok, uuid));
  }
}
