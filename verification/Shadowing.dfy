// Events and dead letters share one stream and so one duplicate window, in which the dead letter of
// order o has the id of the event of order o + ":dlq". When each of them hides the other.

module Shadowing {
  import opened Common
  import opened Domain
  import opened Delivery

  // ---------- Exactly when a publish is dropped ----------

  // The event is in the stream under this id.
  ghost predicate EventStored(s: State, header: string) {
    exists i :: 0 <= i < |s.stream| && s.stream[i].Completed? && s.stream[i].header == header
  }

  // An acknowledged publish of an event has left one with its id in the stream, unless the duplicate
  // window took it for a dead letter with the same id.
  lemma StoreEvents(s: State, header: string, payload: Payload)
    requires Inv(s)
    ensures EventStored(Store(s, Completed(header, payload)), header) <==> header !in s.window || EventStored(s, header)
    ensures !EventStored(Store(s, Completed(header, payload)), header) ==>
              exists i :: 0 <= i < |s.stream| && s.stream[i].DeadLetter? && DlqID(s.stream[i].event.messageID) == header
  {
    var s' := Store(s, Completed(header, payload));
    if header !in s.window {
      assert s'.stream[|s.stream|] == Completed(header, payload);
    } else {
      var i :| 0 <= i < |s.stream| && Header(s.stream[i]) == header;
    }
  }

  // Whenever a dead letter is about to be published whose id the window holds for something else, the
  // publish and the ack that follow leave an acknowledged message without any record.
  lemma ShadowedDeadLetterIsLost(s: State, p: nat)
    requires Reachable(s) && p in s.handlers && s.handlers[p].DeadLettering?
    requires var m := s.handlers[p].m;
             m < |s.stream| == |s.progress| && !Recorded(s, m) && (s.progress[m].InFlight? || s.progress[m].Waiting?)
    requires DlqID(s.handlers[p].event.messageID) in s.window
    ensures Enabled(s, Step(p, Ok)) && Enabled(Apply(s, Step(p, Ok)), Step(p, Ok))
    ensures var f := Apply(Apply(s, Step(p, Ok)), Step(p, Ok));
            Reachable(f) && f.stream == s.stream && f.processed == s.processed
            && f.progress[s.handlers[p].m].Acked? && !Recorded(f, s.handlers[p].m) && Shadowed(f, s.handlers[p].m)
  {
    var m, n := s.handlers[p].m, s.handlers[p].n;
    DropsDeadLetter(s, p);
    var s1 := Become(s, p, Acking(m, n));
    Reach(s, Step(p, Ok), s1);
    Reach(s1, Step(p, Ok), Apply(s1, Step(p, Ok)));
  }

  lemma DropsDeadLetter(s: State, p: nat)
    requires Reachable(s) && p in s.handlers && s.handlers[p].DeadLettering?
    requires s.handlers[p].m < |s.stream| == |s.progress| && !Recorded(s, s.handlers[p].m)
    requires DlqID(s.handlers[p].event.messageID) in s.window
    ensures Enabled(s, Step(p, Ok)) && Apply(s, Step(p, Ok)) == Become(s, p, Acking(s.handlers[p].m, s.handlers[p].n))
    ensures Shadowed(s, s.handlers[p].m)
  {
    ReachableInv(s);
    assert HandlerOK(s, s.handlers[p]);
    StoreDeadLetters(s, s.handlers[p].event);
  }

  // ---------- Both happen ----------

  // What the payment service publishes for an authorized payment of 1 for the order.
  function EventFor(orderID: string): PaymentCompleted {
    CompletedEvent(Payment(orderID, 1, Authorized, "tx"), "c")
  }

  lemma Start()
    ensures Reachable(Initial(1))
  {
    assert Legal(Initial(1), []) && Final(Initial(1), []) == Initial(1);
  }

  // The stream holds the event of order o.
  function One(o: string, progress: Progress, handlers: map<nat, Handler>): State {
    var b := EventFor(o);
    State(1, [Completed(b.messageID, Event(b))], {b.messageID}, [progress], handlers, {}, [], {})
  }

  // The event has been dead-lettered and is acknowledged.
  function OneDeadLettered(o: string, progress: Progress, handlers: map<nat, Handler>): State {
    var b := EventFor(o);
    State(1, [Completed(b.messageID, Event(b)), DeadLetter(Completion(0, b))], {b.messageID, DlqID(b.messageID)},
          [progress, Waiting(0)], handlers, {}, [], {})
  }

  lemma OnePublished(o: string)
    ensures Reachable(One(o, Waiting(0), map[]))
  {
    var b := EventFor(o);
    Start();
    Reach(Initial(1), Publish(b.messageID, Event(b)), One(o, Waiting(0), map[]));
  }

  lemma OneDelivered(o: string)
    ensures Reachable(One(o, InFlight(1, 0), map[0 := Handling(0, 1)]))
  {
    OnePublished(o);
    var s := One(o, InFlight(1, 0), map[0 := Handling(0, 1)]);
    assert Apply(One(o, Waiting(0), map[]), Deliver(0, 0)) == s;
    Reach(One(o, Waiting(0), map[]), Deliver(0, 0), s);
  }

  // A handler whose statement failed, or whose message does not decode.
  lemma HandlingFails(s: State, p: nat, m: nat, n: nat, e: PaymentCompleted)
    requires Reachable(s) && p in s.handlers && s.handlers[p] == Handling(m, n)
    requires m < |s.stream| == |s.progress| && Contents(s, m) == e
    ensures Reachable(Become(s, p, Failing(m, n, e)))
  {
    assert StepHandler(s, p, Err) == Become(s, p, Failing(m, n, e));
    Reach(s, Step(p, Err), Become(s, p, Failing(m, n, e)));
  }

  lemma OneFailing(o: string)
    ensures Reachable(One(o, InFlight(1, 0), map[0 := Failing(0, 1, EventFor(o))]))
  {
    OneDelivered(o);
    var s := One(o, InFlight(1, 0), map[0 := Handling(0, 1)]);
    HandlingFails(s, 0, 0, 1, EventFor(o));
    assert Become(s, 0, Failing(0, 1, EventFor(o))) == One(o, InFlight(1, 0), map[0 := Failing(0, 1, EventFor(o))]);
  }

  lemma OneIsDeadLettered(o: string)
    ensures Reachable(OneDeadLettered(o, Acked(1), map[]))
  {
    var b := EventFor(o);
    OneFailing(o);
    var s2 := One(o, InFlight(1, 0), map[0 := Failing(0, 1, b)]);
    var s3 := One(o, InFlight(1, 0), map[0 := DeadLettering(0, 1, Completion(0, b))]);
    assert StepHandler(s2, 0, Ok) == s3;
    Reach(s2, Step(0, Ok), s3);
    OneAcks(o, s3);
  }

  lemma OneAcks(o: string, s: State)
    requires s == One(o, InFlight(1, 0), map[0 := DeadLettering(0, 1, Completion(0, EventFor(o)))]) && Reachable(s)
    ensures Reachable(OneDeadLettered(o, Acked(1), map[]))
  {
    var b := EventFor(o);
    var s4 := OneDeadLettered(o, InFlight(1, 0), map[0 := Acking(0, 1)]);
    assert Header(DeadLetter(Completion(0, b))) == DlqID(b.messageID) != b.messageID;
    assert StepHandler(s, 0, Ok) == s4;
    Reach(s, Step(0, Ok), s4);
    var s5 := OneDeadLettered(o, Acked(1), map[]);
    assert StepHandler(s4, 0, Ok) == s5;
    Reach(s4, Step(0, Ok), s5);
  }

  // For every order o: after its event was dead-lettered, the event of the order o + ":dlq" is
  // acknowledged as a duplicate within the window and never stored.
  lemma ShadowedEventIsLost(o: string) returns (s: State)
    ensures Reachable(s) && FromPayments(s)
    ensures var e := EventFor(o + ":dlq");
            && Enabled(s, Publish(e.messageID, Event(e))) && Apply(s, Publish(e.messageID, Event(e))) == s
            && !EventStored(s, e.messageID) && !InStream(s.stream, e)
  {
    s := OneDeadLettered(o, Acked(1), map[]);
    OneIsDeadLettered(o);
    DlqIDIsMessageID(o);
  }

  // The stream holds the events of the orders o + ":dlq" and o.
  function Two(o: string, progress: seq<Progress>, handlers: map<nat, Handler>, processed: set<string>,
               sent: seq<PaymentCompleted>): State {
    var a, b := EventFor(o + ":dlq"), EventFor(o);
    State(1, [Completed(a.messageID, Event(a)), Completed(b.messageID, Event(b))], {a.messageID, b.messageID},
          progress, handlers, processed, sent, {})
  }

  // After the first one was handled.
  function FirstDone(o: string, progress: Progress, handlers: map<nat, Handler>): State {
    var a := EventFor(o + ":dlq");
    Two(o, [Acked(1), progress], handlers, {a.messageID}, [a])
  }

  lemma TwoPublished(o: string)
    ensures Reachable(Two(o, [Waiting(0), Waiting(0)], map[], {}, []))
  {
    var a, b := EventFor(o + ":dlq"), EventFor(o);
    var s1 := State(1, [Completed(a.messageID, Event(a))], {a.messageID}, [Waiting(0)], map[], {}, [], {});
    Start();
    Reach(Initial(1), Publish(a.messageID, Event(a)), s1);
    assert |a.messageID| > |b.messageID|;
    Reach(s1, Publish(b.messageID, Event(b)), Two(o, [Waiting(0), Waiting(0)], map[], {}, []));
  }

  lemma NotBlank(text: string, i: nat)
    requires i < |text| && !IsSpace(text[i])
    ensures !Blank(text)
  {
    assert text[i] in text;
  }

  lemma FirstDelivered(o: string)
    ensures Reachable(Two(o, [InFlight(1, 0), Waiting(0)], map[0 := Handling(0, 1)], {}, []))
  {
    var s0 := Two(o, [Waiting(0), Waiting(0)], map[], {}, []);
    var s1 := Two(o, [InFlight(1, 0), Waiting(0)], map[0 := Handling(0, 1)], {}, []);
    TwoPublished(o);
    assert Apply(s0, Deliver(0, 0)) == s1;
    Reach(s0, Deliver(0, 0), s1);
  }

  lemma SuffixedIsNotBlank(o: string)
    ensures !Blank(o + ":dlq") && !Blank(MessageID(o + ":dlq"))
  {
    NotBlank(o + ":dlq", |o|);
    NotBlank(MessageID(o + ":dlq"), 0);
  }

  lemma FirstHandled(o: string)
    ensures Reachable(Two(o, [InFlight(1, 0), Waiting(0)], map[0 := Notifying(0, 1, EventFor(o + ":dlq"))],
                          {MessageID(o + ":dlq")}, []))
  {
    var a := EventFor(o + ":dlq");
    var s1 := Two(o, [InFlight(1, 0), Waiting(0)], map[0 := Handling(0, 1)], {}, []);
    FirstDelivered(o);
    SuffixedIsNotBlank(o);
    FirstIsMarked(o);
    HandlingMarks(s1, 0, 0, 1, a);
  }

  lemma FirstIsMarked(o: string)
    ensures var a := EventFor(o + ":dlq");
            var s := Two(o, [InFlight(1, 0), Waiting(0)], map[0 := Handling(0, 1)], {}, []);
            Become(s, 0, Notifying(0, 1, a)).(processed := s.processed + {a.messageID})
            == Two(o, [InFlight(1, 0), Waiting(0)], map[0 := Notifying(0, 1, a)], {a.messageID}, [])
  {
  }

  // A handler whose message is new.
  lemma HandlingMarks(s: State, p: nat, m: nat, n: nat, e: PaymentCompleted)
    requires Reachable(s) && p in s.handlers && s.handlers[p] == Handling(m, n)
    requires m < |s.stream| == |s.progress| && s.stream[m] == Completed(e.messageID, Event(e))
    requires !Blank(e.messageID) && !Blank(e.orderID) && e.messageID !in s.processed
    ensures Reachable(Become(s, p, Notifying(m, n, e)).(processed := s.processed + {e.messageID}))
  {
    var s' := Become(s, p, Notifying(m, n, e)).(processed := s.processed + {e.messageID});
    assert Decoded(s, m) == Some(e);
    assert StepHandler(s, p, Ok) == s';
    Reach(s, Step(p, Ok), s');
  }

  lemma FirstFinished(o: string)
    ensures Reachable(FirstDone(o, Waiting(0), map[]))
  {
    var a := EventFor(o + ":dlq");
    var s2 := Two(o, [InFlight(1, 0), Waiting(0)], map[0 := Notifying(0, 1, a)], {a.messageID}, []);
    var s3 := Two(o, [InFlight(1, 0), Waiting(0)], map[0 := Acking(0, 1)], {a.messageID}, [a]);
    FirstHandled(o);
    assert StepHandler(s2, 0, Ok) == s3;
    Reach(s2, Step(0, Ok), s3);
    var s4 := FirstDone(o, Waiting(0), map[]);
    assert StepHandler(s3, 0, Ok) == s4;
    Reach(s3, Step(0, Ok), s4);
  }

  lemma SecondFails(o: string)
    ensures Reachable(FirstDone(o, InFlight(1, 0), map[0 := Failing(1, 1, EventFor(o))]))
  {
    SecondDelivered(o);
    var s := FirstDone(o, InFlight(1, 0), map[0 := Handling(1, 1)]);
    HandlingFails(s, 0, 1, 1, EventFor(o));
    assert Become(s, 0, Failing(1, 1, EventFor(o))) == FirstDone(o, InFlight(1, 0), map[0 := Failing(1, 1, EventFor(o))]);
  }

  lemma SecondDelivered(o: string)
    ensures Reachable(FirstDone(o, InFlight(1, 0), map[0 := Handling(1, 1)]))
  {
    FirstFinished(o);
    var s := FirstDone(o, InFlight(1, 0), map[0 := Handling(1, 1)]);
    assert Apply(FirstDone(o, Waiting(0), map[]), Deliver(1, 0)) == s;
    Reach(FirstDone(o, Waiting(0), map[]), Deliver(1, 0), s);
  }

  lemma SecondIsDeadLettering(o: string)
    ensures Reachable(FirstDone(o, InFlight(1, 0), map[0 := DeadLettering(1, 1, Completion(1, EventFor(o)))]))
  {
    SecondFails(o);
    var s1 := FirstDone(o, InFlight(1, 0), map[0 := Failing(1, 1, EventFor(o))]);
    var s2 := FirstDone(o, InFlight(1, 0), map[0 := DeadLettering(1, 1, Completion(1, EventFor(o)))]);
    assert StepHandler(s1, 0, Ok) == s2;
    Reach(s1, Step(0, Ok), s2);
  }

  // For every order o: if the event of the order o + ":dlq" is within the window, was delivered and
  // was handled, the dead letter of order o can get dropped as its duplicate, and the message of order
  // o is acknowledged with no record anywhere.
  lemma ShadowedMessageIsLost(o: string) returns (s: State)
    ensures Reachable(s) && FromPayments(s) && |s.stream| == |s.progress| == 2
    ensures s.stream[1] == Completed(MessageID(o), Event(EventFor(o)))
    ensures s.progress[1].Acked? && MessageID(o) !in s.processed && !DeadLettered(s, MessageID(o)) && !Recorded(s, 1)
    ensures Shadowed(s, 1)
  {
    var s1 := FirstDone(o, InFlight(1, 0), map[0 := DeadLettering(1, 1, Completion(1, EventFor(o)))]);
    SecondIsDeadLettering(o);
    DlqIDIsMessageID(o);
    assert |MessageID(o + ":dlq")| > |MessageID(o)|;
    assert Completion(1, EventFor(o)).messageID == MessageID(o);
    ShadowedDeadLetterIsLost(s1, 0);
    s := Apply(Apply(s1, Step(0, Ok)), Step(0, Ok));
  }
}
