// When the order updates of a Create and a Cancel meet: from every state in which the two overlap,
// some way of going on overwrites the Cancelled order.

module Overwrites {
  import opened Common
  import opened Domain
  import opened Settlement
  import opened Guarantees

  // A run leads from s to s'.
  ghost predicate Later(s: State, s': State) {
    exists run :: Legal(s, run) && Final(s, run) == s'
  }

  lemma NothingIsLater(s: State)
    ensures Later(s, s)
  {
    assert Legal(s, []) && Final(s, []) == s;
  }

  lemma LaterStep(s: State, s': State, a: Action)
    requires Later(s, s') && Enabled(s', a)
    ensures Later(s, Apply(s', a))
  {
    var run :| Legal(s, run) && Final(s, run) == s';
    RunThenStep(s, run, a);
  }

  lemma {:induction false} LongerThanAll(texts: set<string>) returns (u: string)
    ensures IsUuid(u) && forall v :: v in texts ==> |v| < |u|
    decreases |texts|
  {
    if texts == {} {
      u := "a";
    } else {
      var t :| t in texts;
      var shorter := LongerThanAll(texts - {t});
      u := shorter + t + "a";
      LongerUuid(shorter + t);
    }
  }

  lemma NewUuid(t: Tables) returns (uuid: string)
    ensures FreshUuid(t, uuid)
  {
    uuid := LongerThanAll(t.uuids);
  }

  lemma {:induction false} GreaterThanAll(numbers: set<nat>) returns (r: nat)
    ensures forall p :: p in numbers ==> p < r
    decreases |numbers|
  {
    if numbers == {} {
      r := 0;
    } else {
      var n :| n in numbers;
      var m := GreaterThanAll(numbers - {n});
      r := m + n + 1;
      forall p | p in numbers ensures p < r {
        assert p == n || p in numbers - {n};
      }
    }
  }

  predicate SameRows(t: Tables, t': Tables) {
    t'.orders == t.orders && t'.byKey == t.byKey && t'.payments == t.payments
  }

  // A step that writes no row.
  lemma KeepsRows(t: Tables, proc: Proc, uuid: string)
    requires proc.Process? || proc.Authorize? || proc.Publish?
    ensures SameRows(t, TablesAfter(t, proc, uuid))
  {
    if proc.Publish? {
      assert Writes(proc).Some? && Writes(proc).value.StoreEvent?;
    }
  }

  // Call r makes its next step, and it succeeds; call p waits.
  lemma Succeed(s0: State, s: State, r: nat, p: nat) returns (s': State, uuid: string)
    requires Later(s0, s) && Inv(s) && p in s.procs && r in s.procs && r != p
    requires !Finished(s.procs[r]) && !s.procs[r].Await? && !s.procs[r].InFlight?
    ensures Later(s0, s') && Inv(s') && FreshUuid(s.t, uuid)
    ensures s'.t == TablesAfter(s.t, s.procs[r], uuid)
    ensures p in s'.procs && s'.procs[p] == s.procs[p]
    ensures r in s'.procs && s'.procs[r] == AfterOk(s.t, s.procs[r], uuid)
    ensures ReplyOf(s'.procs[r]).Some? ==> ReplyOf(s'.procs[r]).value in s'.replies
  {
    uuid := NewUuid(s.t);
    s' := Apply(s, Step(r, Ok, uuid));
    LaterStep(s0, s, Step(r, Ok, uuid));
    StepKeepsInv(s, Step(r, Ok, uuid));
  }

  predicate HasAnswer(s: State, orderID: string) {
    exists reply :: reply in s.replies && reply.Processed? && reply.orderID == orderID
  }

  // The tables after a payment call that was left alone.
  predicate PaidFor(t: Tables, t': Tables, orderID: string, amount: int) {
    && t'.orders == t.orders && t'.byKey == t.byKey
    && orderID in t'.payments
    && (if orderID in t.payments then t'.payments == t.payments else t'.payments[orderID].amount == amount)
  }

  // A payment call that is left alone ends with an answer.
  lemma PublishAnswers(s0: State, s: State, r: nat, p: nat) returns (s': State)
    requires Later(s0, s) && Inv(s) && p in s.procs && r in s.procs && r != p && s.procs[r].Publish?
    ensures Later(s0, s') && Inv(s') && p in s'.procs && s'.procs[p] == s.procs[p]
    ensures HasAnswer(s', s.procs[r].request.orderID)
    ensures SameRows(s.t, s'.t)
    ensures s.procs[r].request.orderID in s.t.payments
  {
    var payment, uuid := s.procs[r].payment, "";
    PublishesOwnPayment(s, r);
    s', uuid := Succeed(s0, s, r, p);
    KeepsRows(s.t, s.procs[r], uuid);
    assert Processed(payment.orderID, payment.status, payment.transactionID) in s'.replies;
  }

  lemma PublishesOwnPayment(s: State, r: nat)
    requires Inv(s) && r in s.procs && s.procs[r].Publish?
    ensures s.procs[r].payment.orderID == s.procs[r].request.orderID && s.procs[r].request.orderID in s.t.payments
  {
    assert ProcOK(s.t, s.requests, s.procs[r]);
  }

  lemma FindPayment(s0: State, s: State, r: nat, p: nat) returns (s': State)
    requires Later(s0, s) && Inv(s) && p in s.procs && r in s.procs && r != p && s.procs[r].Authorize?
    ensures Later(s0, s') && Inv(s') && p in s'.procs && s'.procs[p] == s.procs[p]
    ensures r in s'.procs && (s'.procs[r].InsertPay? || s'.procs[r].Publish?) && s'.procs[r].request == s.procs[r].request
    ensures s'.procs[r].InsertPay? ==> s.procs[r].request.orderID !in s'.t.payments
    ensures SameRows(s.t, s'.t)
  {
    var uuid;
    s', uuid := Succeed(s0, s, r, p);
    KeepsRows(s.t, s.procs[r], uuid);
    AuthorizeFinds(s.t, s.procs[r].request, uuid);
  }

  lemma AuthorizeFinds(t: Tables, request: AuthorizeInput, uuid: string)
    ensures var next := AfterOk(t, Authorize(request), uuid);
            && (next.InsertPay? || next.Publish?) && next.request == request
            && (next.InsertPay? ==> request.orderID !in TablesAfter(t, Authorize(request), uuid).payments)
  {
  }

  lemma AuthorizeAnswers(s0: State, s: State, r: nat, p: nat) returns (s': State)
    requires Later(s0, s) && Inv(s) && p in s.procs && r in s.procs && r != p
    requires s.procs[r].Authorize? && s.procs[r].request.amount > 0
    ensures Later(s0, s') && Inv(s') && p in s'.procs && s'.procs[p] == s.procs[p]
    ensures HasAnswer(s', s.procs[r].request.orderID)
    ensures PaidFor(s.t, s'.t, s.procs[r].request.orderID, s.procs[r].request.amount)
  {
    var s1 := FindPayment(s0, s, r, p);
    if s1.procs[r].InsertPay? {
      s' := InsertAnswers(s0, s1, r, p);
    } else {
      s' := PublishAnswers(s0, s1, r, p);
    }
  }

  lemma InsertAnswers(s0: State, s: State, r: nat, p: nat) returns (s': State)
    requires Later(s0, s) && Inv(s) && p in s.procs && r in s.procs && r != p
    requires s.procs[r].InsertPay? && s.procs[r].request.orderID !in s.t.payments && s.procs[r].request.amount > 0
    ensures Later(s0, s') && Inv(s') && p in s'.procs && s'.procs[p] == s.procs[p]
    ensures HasAnswer(s', s.procs[r].request.orderID)
    ensures PaidFor(s.t, s'.t, s.procs[r].request.orderID, s.procs[r].request.amount)
  {
    assert ProcOK(s.t, s.requests, s.procs[r]);
    var s1, uuid := Succeed(s0, s, r, p);
    s' := PublishAnswers(s0, s1, r, p);
  }

  // The payment service can always be asked again (the client retries), and then it answers.
  lemma RequestIsAnswered(s0: State, s: State, p: nat) returns (s': State)
    requires Later(s0, s) && Inv(s) && p in s.procs && s.procs[p].Await?
    ensures Later(s0, s') && Inv(s') && p in s'.procs && s'.procs[p] == s.procs[p]
    ensures HasAnswer(s', s.procs[p].order.id)
    ensures PaidFor(s.t, s'.t, s.procs[p].order.id, s.procs[p].order.amount)
  {
    var o := s.procs[p].order;
    assert ProcOK(s.t, s.requests, s.procs[p]);
    assert OrderOK(s.t, s.t.orders[o.id]);
    UuidIsNotBlank(o.id);
    var request := AuthorizeInput(o.id, o.amount, o.customerID);
    s' := RequestAgain(s0, s, p, request);
  }

  lemma RequestAgain(s0: State, s: State, p: nat, request: AuthorizeInput) returns (s': State)
    requires Later(s0, s) && Inv(s) && p in s.procs
    requires request in s.requests && !Blank(request.orderID) && request.amount > 0
    ensures Later(s0, s') && Inv(s') && p in s'.procs && s'.procs[p] == s.procs[p]
    ensures HasAnswer(s', request.orderID)
    ensures PaidFor(s.t, s'.t, request.orderID, request.amount)
  {
    var r := GreaterThanAll(s.procs.Keys);
    var s1 := StartProcess(s0, s, r, request);
    var s2 := ProcessGoesOn(s0, s1, r, p);
    s' := AuthorizeAnswers(s0, s2, r, p);
  }

  lemma ProcessGoesOn(s0: State, s: State, r: nat, p: nat) returns (s': State)
    requires Later(s0, s) && Inv(s) && p in s.procs && r in s.procs && r != p && s.procs[r].Process?
    requires !Blank(s.procs[r].request.orderID) && s.procs[r].request.amount > 0
    ensures Later(s0, s') && Inv(s') && p in s'.procs && s'.procs[p] == s.procs[p]
    ensures r in s'.procs && s'.procs[r] == Authorize(s.procs[r].request)
    ensures SameRows(s.t, s'.t)
  {
    var uuid;
    s', uuid := Succeed(s0, s, r, p);
    KeepsRows(s.t, s.procs[r], uuid);
    ProcessCalls(s.t, s.procs[r].request, uuid);
  }

  lemma ProcessCalls(t: Tables, request: AuthorizeInput, uuid: string)
    requires !Blank(request.orderID) && request.amount > 0
    ensures AfterOk(t, Process(request), uuid) == Authorize(request)
  {
  }

  lemma StartProcess(s0: State, s: State, r: nat, request: AuthorizeInput) returns (s': State)
    requires Later(s0, s) && Inv(s) && r !in s.procs && request in s.requests
    ensures Later(s0, s') && Inv(s') && s'.procs == s.procs[r := Process(request)] && s'.t == s.t
  {
    s' := Apply(s, Start(r, Process(request)));
    LaterStep(s0, s, Start(r, Process(request)));
    StepKeepsInv(s, Start(r, Process(request)));
  }

  lemma CallGoesOn(s0: State, s: State, p: nat) returns (s': State)
    requires Later(s0, s) && Inv(s) && p in s.procs && s.procs[p].Call?
    ensures Later(s0, s') && Inv(s') && p in s'.procs && s'.procs[p].Await? && s'.procs[p].order == s.procs[p].order
  {
    assert ProcOK(s.t, s.requests, s.procs[p]);
    var uuid := NewUuid(s.t);
    s' := Apply(s, Step(p, Ok, uuid));
    LaterStep(s0, s, Step(p, Ok, uuid));
    StepKeepsInv(s, Step(p, Ok, uuid));
  }

  lemma AwaitGoesOn(s0: State, s: State, p: nat) returns (s': State)
    requires Later(s0, s) && Inv(s) && p in s.procs && s.procs[p].Await?
    ensures Later(s0, s') && Inv(s') && p in s'.procs && s'.procs[p].Mark? && s'.procs[p].order == s.procs[p].order
  {
    var s1 := RequestIsAnswered(s0, s, p);
    var reply :| reply in s1.replies && reply.Processed? && reply.orderID == s.procs[p].order.id;
    s' := Apply(s1, Receive(p, reply));
    LaterStep(s0, s1, Receive(p, reply));
    StepKeepsInv(s1, Receive(p, reply));
  }

  // A Create that has seen the order pending can always go on to write Paid or Failed.
  lemma CreateGoesOn(s0: State, s: State, p: nat, id: string) returns (s': State)
    requires Later(s0, s) && Inv(s) && p in s.procs && Creating(s.procs[p], id)
    ensures Later(s0, s') && Inv(s') && p in s'.procs && Creating(s'.procs[p], id)
    ensures s'.procs[p].Mark? || s'.procs[p].InFlight?
  {
    match s.procs[p]
    case Call(_, _, _) =>
      var s1 := CallGoesOn(s0, s, p);
      s' := AwaitGoesOn(s0, s1, p);
    case Await(_, _, _) => s' := AwaitGoesOn(s0, s, p);
    case _ => s' := s;
  }

  // What the update statement of a call leaves in the row.
  lemma UpdateWrites(t: Tables, requests: set<AuthorizeInput>, proc: Proc, id: string)
    requires TablesOK(t) && ProcOK(t, requests, proc) && !proc.Call? && !proc.Await?
    requires Creating(proc, id) || Cancelling(proc, id)
    ensures Writes(proc).Some? && var t' := Execute(t, Writes(proc).value);
            id in t'.orders
            && (Creating(proc, id) ==> t'.orders[id].status == Paid || t'.orders[id].status == Failed)
            && (Cancelling(proc, id) ==> t'.orders[id].status == Cancelled)
  {
  }

  // Carrying it out.
  lemma CarryOut(s0: State, s: State, p: nat, id: string) returns (s': State)
    requires Later(s0, s) && Inv(s) && p in s.procs && !s.procs[p].Call? && !s.procs[p].Await?
    requires Creating(s.procs[p], id) || Cancelling(s.procs[p], id)
    ensures Later(s0, s') && Inv(s') && Writes(s.procs[p]).Some?
    ensures s'.t.orders == Execute(s.t, Writes(s.procs[p]).value).orders
    ensures forall q :: q in s.procs && q != p ==> q in s'.procs && s'.procs[q] == s.procs[q]
  {
    var uuid := NewUuid(s.t);
    WriteStep(s, p, uuid);
    s' := Apply(s, Step(p, Ok, uuid));
    LaterStep(s0, s, Step(p, Ok, uuid));
    StepKeepsInv(s, Step(p, Ok, uuid));
  }

  lemma WriteStep(s: State, p: nat, uuid: string)
    requires p in s.procs && Writes(s.procs[p]).Some? && FreshUuid(s.t, uuid)
    ensures Enabled(s, Step(p, Ok, uuid))
    ensures var s' := Apply(s, Step(p, Ok, uuid));
            && s'.t.orders == Execute(s.t, Writes(s.procs[p]).value).orders
            && forall q :: q in s.procs && q != p ==> q in s'.procs && s'.procs[q] == s.procs[q]
  {
  }

  // The condition of TerminalStatusIsFinal cannot be weakened: from every reachable state in which a
  // Cancel of an order overlaps a Create of it, the order can go on to be Cancelled and then, by the
  // unconditional update, Paid or Failed.
  lemma OverlapOverwritesTerminal(s: State, id: string) returns (c: State, f: State)
    requires Reachable(s) && Overlap(s, id)
    ensures Later(s, c) && id in c.t.orders && c.t.orders[id].status == Cancelled
    ensures Later(c, f) && id in f.t.orders && (f.t.orders[id].status == Paid || f.t.orders[id].status == Failed)
  {
    ReachableInv(s);
    var p, q :| p in s.procs && q in s.procs && Creating(s.procs[p], id) && Cancelling(s.procs[q], id);
    NothingIsLater(s);
    UpdateWrites(s.t, s.requests, s.procs[q], id);
    c := CarryOut(s, s, q, id);
    NothingIsLater(c);
    var s1 := CreateGoesOn(c, c, p, id);
    UpdateWrites(s1.t, s1.requests, s1.procs[p], id);
    f := CarryOut(c, s1, p, id);
  }
}
