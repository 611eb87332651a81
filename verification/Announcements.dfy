// When a successful Authorize has left no event: the broker took the event for a dead letter that has
// the same id.

module Announcements {
  import opened Common
  import opened Domain
  import opened Settlement
  import opened Guarantees
  import opened Overwrites

  predicate GrantedTo(proc: Proc, orderID: string) {
    proc.AuthorizeDone? && proc.request.orderID == orderID && proc.authorizeResult.Granted?
  }

  // The call ends with success in this step, and there is no event of its order afterwards.
  ghost predicate Swallows(s: State, p: nat, outcome: Outcome, uuid: string, orderID: string) {
    && Enabled(s, Step(p, outcome, uuid))
    && var s' := Apply(s, Step(p, outcome, uuid));
       p in s'.procs && GrantedTo(s'.procs[p], orderID) && !EventStored(s'.t, orderID)
  }

  // A publish can be acknowledged without an event exactly if a dead letter has the event's id and the
  // event was not there before.
  lemma SwallowedIffDeadLetter(s: State, p: nat, uuid: string)
    requires Reachable(s) && p in s.procs && s.procs[p].Publish? && FreshUuid(s.t, uuid)
    ensures var o := s.procs[p].request.orderID;
            (exists outcome :: Swallows(s, p, outcome, uuid, o)) <==>
            MessageID(o) in s.t.deadLetters && !EventStored(s.t, o)
  {
    ReachableInv(s);
    assert ProcOK(s.t, s.requests, s.procs[p]);
    var o := s.procs[p].request.orderID;
    if MessageID(o) in s.t.deadLetters && !EventStored(s.t, o) {
      assert Swallows(s, p, Duplicate, uuid, o);
    }
    forall outcome | Swallows(s, p, outcome, uuid, o) ensures MessageID(o) in s.t.deadLetters && !EventStored(s.t, o) {
      OnlyDuplicatesSwallow(s, p, outcome, uuid);
    }
  }

  lemma OnlyDuplicatesSwallow(s: State, p: nat, outcome: Outcome, uuid: string)
    requires Inv(s) && p in s.procs && s.procs[p].Publish? && Swallows(s, p, outcome, uuid, s.procs[p].request.orderID)
    ensures var o := s.procs[p].request.orderID; MessageID(o) in s.t.deadLetters && !EventStored(s.t, o)
  {
    assert ProcOK(s.t, s.requests, s.procs[p]);
    assert CompletedEvent(s.procs[p].payment, s.procs[p].request.customerEmail) in TablesAfter(s.t, s.procs[p], uuid).events;
    if outcome == Duplicate {
      DuplicateIsAnnounced(s.t, s.procs[p].request.orderID);
    }
  }

  // Only orders whose id ends in ":dlq" are concerned: for all others, a success means an event.
  lemma GrantedIsAnnounced(s: State, p: nat, orderID: string)
    requires Reachable(s) && p in s.procs && GrantedTo(s.procs[p], orderID)
    ensures EventStored(s.t, orderID) || (MessageID(orderID) in s.t.deadLetters && EndsInDlq(orderID))
  {
    ReachableInv(s);
    if !EndsInDlq(orderID) {
      UuidIsAnnounced(s.t, orderID);
    }
  }

  // And it happens: from every reachable state with an event of an order o and no payment of the
  // order o + ":dlq", an authorization of the latter can succeed without an event.
  lemma ShadowedPublishIsSwallowed(s: State, event: PaymentCompleted, amount: int) returns (f: State, r: nat)
    requires Reachable(s) && event in s.t.events && event.orderID + ":dlq" !in s.t.payments && amount > 0
    ensures Later(s, f) && r in f.procs && GrantedTo(f.procs[r], event.orderID + ":dlq")
    ensures !EventStored(f.t, event.orderID + ":dlq")
  {
    var o := event.orderID + ":dlq";
    ReachableInv(s);
    NothingIsLater(s);
    LaterStep(s, s, DeadLetter(event));
    StepKeepsInv(s, DeadLetter(event));
    var s1 := Apply(s, DeadLetter(event));
    DlqIDIsMessageID(event.orderID);
    var request := AuthorizeInput(o, amount, "");
    r := GreaterThanAll(s1.procs.Keys);
    LaterStep(s, s1, Start(r, Authorize(request)));
    StepKeepsInv(s1, Start(r, Authorize(request)));
    f := PublishSwallowed(s, Apply(s1, Start(r, Authorize(request))), r);
  }

  lemma PublishSwallowed(s0: State, s: State, r: nat) returns (f: State)
    requires Later(s0, s) && Inv(s) && r in s.procs && s.procs[r].Authorize? && s.procs[r].request.amount > 0
    requires var o := s.procs[r].request.orderID; o !in s.t.payments && MessageID(o) in s.t.deadLetters
    ensures var o := s.procs[r].request.orderID;
            Later(s0, f) && r in f.procs && GrantedTo(f.procs[r], o) && !EventStored(f.t, o)
  {
    NoPaymentNoEvent(s, s.procs[r].request.orderID);
    var s1 := NextStep(s0, s, r);
    var s2 := NextStep(s0, s1, r);
    f := PublishDuplicate(s0, s2, r);
  }

  lemma NoPaymentNoEvent(s: State, orderID: string)
    requires Inv(s) && orderID !in s.t.payments
    ensures !EventStored(s.t, orderID)
  {
  }

  lemma PublishDuplicate(s0: State, s: State, r: nat) returns (f: State)
    requires Later(s0, s) && r in s.procs && s.procs[r].Publish?
    requires s.procs[r].payment.orderID == s.procs[r].request.orderID
    requires MessageID(s.procs[r].payment.orderID) in s.t.deadLetters
    ensures Later(s0, f) && r in f.procs && GrantedTo(f.procs[r], s.procs[r].request.orderID) && f.t.events == s.t.events
  {
    var uuid := NewUuid(s.t);
    LaterStep(s0, s, Step(r, Duplicate, uuid));
    f := Apply(s, Step(r, Duplicate, uuid));
  }

  // Call r looks for the payment, or inserts it.
  lemma NextStep(s0: State, s: State, r: nat) returns (s': State)
    requires Later(s0, s) && Inv(s) && r in s.procs && (s.procs[r].Authorize? || s.procs[r].InsertPay?)
    requires s.procs[r].request.amount > 0
    requires s.procs[r].request.orderID !in s.t.payments
    ensures Later(s0, s') && Inv(s') && r in s'.procs
    ensures s'.t.events == s.t.events && s'.t.deadLetters == s.t.deadLetters
    ensures if s.procs[r].Authorize? then s'.procs[r].InsertPay? && s'.t.payments == s.t.payments else s'.procs[r].Publish?
    ensures s'.procs[r].request == s.procs[r].request
    ensures s'.procs[r].payment.orderID == s.procs[r].request.orderID
  {
    assert ProcOK(s.t, s.requests, s.procs[r]);
    var uuid := NewUuid(s.t);
    LaterStep(s0, s, Step(r, Ok, uuid));
    StepKeepsInv(s, Step(r, Ok, uuid));
    s' := Apply(s, Step(r, Ok, uuid));
  }
}
