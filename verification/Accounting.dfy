// What a dead letter tells, and what comes out of a delivery when nothing fails.

module Accounting {
  import opened Common
  import opened Domain
  import opened Delivery
  import F = Fingerprint

  // ---------- What a dead letter tells ----------

  // The dead letter of entry m: its own event, with the stream sequence for a missing message id and
  // "unknown" for a missing order id.
  ghost predicate TellsOf(stream: seq<Entry>, m: nat, letter: PaymentCompleted) {
    && m < |stream| && stream[m].Completed?
    && var e := match stream[m].payload case Event(event) => event case Malformed(partial) => partial;
       && letter.messageID == (if e.messageID != "" then e.messageID else "invalid:" + F.FormatNat(m + 1))
       && letter.orderID == (if e.orderID != "" then e.orderID else "unknown")
       && letter.amount == e.amount && letter.customerEmail == e.customerEmail && letter.status == e.status
  }

  ghost predicate Explained(stream: seq<Entry>, letter: PaymentCompleted) {
    exists m: nat :: TellsOf(stream, m, letter)
  }

  // All dead letters, stored or about to be.
  ghost predicate LettersOK(s: State) {
    && (forall i :: 0 <= i < |s.stream| && s.stream[i].DeadLetter? ==> Explained(s.stream, s.stream[i].event))
    && (forall p :: p in s.handlers && s.handlers[p].DeadLettering? ==> Explained(s.stream, s.handlers[p].event))
    && (forall p :: p in s.handlers && s.handlers[p].FloatingStore? ==>
          s.handlers[p].entry.DeadLetter? && Explained(s.stream, s.handlers[p].entry.event))
  }

  lemma ExplainedLater(stream: seq<Entry>, longer: seq<Entry>, letter: PaymentCompleted)
    requires stream <= longer && Explained(stream, letter)
    ensures Explained(longer, letter)
  {
    var m: nat :| TellsOf(stream, m, letter);
    assert TellsOf(longer, m, letter);
  }

  // A letter in the stream after the step was there before, or a handler held it.
  lemma StoredLetter(s: State, a: Action, i: nat)
    requires Enabled(s, a) && i < |Apply(s, a).stream| && Apply(s, a).stream[i].DeadLetter?
    ensures var letter := Apply(s, a).stream[i].event;
            || (i < |s.stream| && s.stream[i] == DeadLetter(letter))
            || (a.Step? && s.handlers[a.p].DeadLettering? && s.handlers[a.p].event == letter)
            || (a.Step? && s.handlers[a.p] == FloatingStore(DeadLetter(letter)))
  {
  }

  lemma HeldLetter(s: State, a: Action, p: nat)
    requires Enabled(s, a) && p in Apply(s, a).handlers
    ensures var h := Apply(s, a).handlers[p];
            (h.DeadLettering? || h.FloatingStore?) && !(p in s.handlers && s.handlers[p] == h) ==>
              a.Step? && (if h.DeadLettering? then s.handlers[a.p].Failing? && h == DeadLettering(s.handlers[a.p].m, s.handlers[a.p].n, Completion(s.handlers[a.p].m, s.handlers[a.p].event))
                          else s.handlers[a.p].DeadLettering? && h.entry == DeadLetter(s.handlers[a.p].event))
  {
  }

  lemma CompletionTells(s: State, m: nat)
    requires m < |s.stream| && s.stream[m].Completed?
    ensures TellsOf(s.stream, m, Completion(m, Contents(s, m)))
  {
  }

  lemma LettersStep(s: State, a: Action)
    requires Inv(s) && LettersOK(s) && Enabled(s, a)
    ensures LettersOK(Apply(s, a))
  {
    var s' := Apply(s, a);
    StepKeepsStream(s, a);
    forall i | 0 <= i < |s'.stream| && s'.stream[i].DeadLetter? ensures Explained(s'.stream, s'.stream[i].event) {
      StoredLetter(s, a, i);
      ExplainedLater(s.stream, s'.stream, s'.stream[i].event);
    }
    forall p | p in s'.handlers
      ensures s'.handlers[p].DeadLettering? ==> Explained(s'.stream, s'.handlers[p].event)
      ensures s'.handlers[p].FloatingStore? ==> s'.handlers[p].entry.DeadLetter? && Explained(s'.stream, s'.handlers[p].entry.event)
    {
      HandlerLetter(s, a, p);
    }
  }

  lemma HandlerLetter(s: State, a: Action, p: nat)
    requires Inv(s) && LettersOK(s) && Enabled(s, a) && s.stream <= Apply(s, a).stream && p in Apply(s, a).handlers
    ensures var s' := Apply(s, a);
            && (s'.handlers[p].DeadLettering? ==> Explained(s'.stream, s'.handlers[p].event))
            && (s'.handlers[p].FloatingStore? ==> s'.handlers[p].entry.DeadLetter? && Explained(s'.stream, s'.handlers[p].entry.event))
  {
    var s' := Apply(s, a);
    var h := s'.handlers[p];
    HeldLetter(s, a, p);
    if a.Step? && s.handlers[a.p].Failing? {
      assert HandlerOK(s, s.handlers[a.p]);
      CompletionTells(s, s.handlers[a.p].m);
    }
    if h.DeadLettering? {
      ExplainedLater(s.stream, s'.stream, h.event);
    } else if h.FloatingStore? {
      ExplainedLater(s.stream, s'.stream, h.entry.event);
    }
  }

  lemma {:induction false} LettersRun(s: State, run: seq<Action>)
    requires Inv(s) && LettersOK(s) && Legal(s, run)
    ensures LettersOK(Final(s, run))
    decreases |run|
  {
    if run != [] {
      LettersStep(s, run[0]);
      StepKeepsInv(s, run[0]);
      LettersRun(Apply(s, run[0]), run[1..]);
    }
  }

  // Every dead letter in the stream tells of a message in it.
  lemma DeadLettersTellOfMessages(s: State, i: nat)
    requires Reachable(s) && i < |s.stream| && s.stream[i].DeadLetter?
    ensures exists m: nat :: TellsOf(s.stream, m, s.stream[i].event)
  {
    var max, run :| Legal(Initial(max), run) && Final(Initial(max), run) == s;
    LettersRun(Initial(max), run);
  }

  // ---------- What is notified ----------

  predicate Valid(e: PaymentCompleted) {
    !Blank(e.messageID) && !Blank(e.orderID)
  }

  predicate NotifiesValid(s: State) {
    && (forall i :: 0 <= i < |s.sent| ==> Valid(s.sent[i]))
    && (forall p :: p in s.handlers && s.handlers[p].Notifying? ==> Valid(s.handlers[p].event))
  }

  lemma NotifiesValidStep(s: State, a: Action)
    requires NotifiesValid(s) && Enabled(s, a)
    ensures NotifiesValid(Apply(s, a))
  {
    if a.Step? {
      NotifiesValidHandler(s, a.p, a.outcome);
    }
  }

  lemma NotifiesValidHandler(s: State, p: nat, outcome: Outcome)
    requires NotifiesValid(s) && Enabled(s, Step(p, outcome))
    ensures NotifiesValid(StepHandler(s, p, outcome))
  {
    match s.handlers[p]
    case Handling(_, _) =>
    case Notifying(_, _, _) =>
    case _ =>
  }

  lemma {:induction false} NotifiesValidRun(s: State, run: seq<Action>)
    requires NotifiesValid(s) && Legal(s, run)
    ensures NotifiesValid(Final(s, run))
    decreases |run|
  {
    if run != [] {
      NotifiesValidStep(s, run[0]);
      NotifiesValidRun(Apply(s, run[0]), run[1..]);
    }
  }

  // Every notification is for an event of the stream that has a message id and an order id.
  lemma NotifiedEventsAreValid(s: State, i: nat)
    requires Reachable(s) && i < |s.sent|
    ensures !Blank(s.sent[i].messageID) && !Blank(s.sent[i].orderID)
    ensures exists m :: 0 <= m < |s.stream| && s.stream[m].Completed? && s.stream[m].payload == Event(s.sent[i])
  {
    var max, run :| Legal(Initial(max), run) && Final(Initial(max), run) == s;
    NotifiesValidRun(Initial(max), run);
    RunSendsFromStream(Initial(max), run);
    assert InStream(s.stream, s.sent[i]);
  }

  // ---------- What a delivery comes to ----------

  // A publish that the window does not hold back is appended as it is and waits for its first
  // delivery; one that it does changes nothing.
  lemma PublishAppends(s: State, header: string, payload: Payload)
    ensures var f := Apply(s, Publish(header, payload));
            if header in s.window then f == s
            else && f.stream == s.stream + [Completed(header, payload)] && f.progress == s.progress + [Waiting(0)]
                 && f.window == s.window + {header} && f.handlers == s.handlers && f.processed == s.processed && f.sent == s.sent
  {
  }

  // A new message that is handled without a failure is recorded, notified once, and acknowledged.
  lemma NewMessageIsNotified(s: State, p: nat)
    requires Reachable(s) && p in s.handlers && s.handlers[p].Handling?
    requires var m := s.handlers[p].m;
             && m < |s.stream| && s.stream[m].Completed? && s.stream[m].payload.Event?
             && !Blank(s.stream[m].payload.event.messageID) && !Blank(s.stream[m].payload.event.orderID)
             && s.stream[m].payload.event.messageID !in s.processed
             && m < |s.progress| && s.progress[m].InFlight?
    ensures var m, e := s.handlers[p].m, s.stream[s.handlers[p].m].payload.event;
            var run := [Step(p, Ok), Step(p, Ok), Step(p, Ok)];
            && Legal(s, run)
            && var f := Final(s, run);
               && f.sent == s.sent + [e] && f.processed == s.processed + {e.messageID}
               && f.progress == s.progress[m := Acked(s.progress[m].count)] && f.stream == s.stream
  {
    var m, n := s.handlers[p].m, s.handlers[p].n;
    var e := s.stream[m].payload.event;
    var s1 := Become(s, p, Notifying(m, n, e)).(processed := s.processed + {e.messageID});
    assert Decoded(s, m) == Some(e);
    assert Apply(s, Step(p, Ok)) == s1;
    var s2 := Become(s1, p, Acking(m, n)).(sent := s.sent + [e]);
    assert Apply(s1, Step(p, Ok)) == s2;
    ThreeSteps(s, Step(p, Ok), Step(p, Ok), Step(p, Ok));
  }

  // A message that was processed before is acknowledged without a second notification.
  lemma KnownMessageIsSkipped(s: State, p: nat)
    requires Reachable(s) && p in s.handlers && s.handlers[p].Handling?
    requires var m := s.handlers[p].m;
             && m < |s.stream| && s.stream[m].Completed? && s.stream[m].payload.Event?
             && !Blank(s.stream[m].payload.event.messageID) && !Blank(s.stream[m].payload.event.orderID)
             && s.stream[m].payload.event.messageID in s.processed
             && m < |s.progress| && s.progress[m].InFlight?
    ensures Enabled(s, Step(p, Ok)) && Enabled(Apply(s, Step(p, Ok)), Step(p, Ok))
    ensures var m, f := s.handlers[p].m, Apply(Apply(s, Step(p, Ok)), Step(p, Ok));
            f.sent == s.sent && f.processed == s.processed && f.progress == s.progress[m := Acked(s.progress[m].count)]
  {
    var m := s.handlers[p].m;
    assert Decoded(s, m) == Some(s.stream[m].payload.event);
  }

  lemma ThreeSteps(s: State, a: Action, b: Action, c: Action)
    requires Enabled(s, a) && Enabled(Apply(s, a), b) && Enabled(Apply(Apply(s, a), b), c)
    ensures Legal(s, [a, b, c]) && Final(s, [a, b, c]) == Apply(Apply(Apply(s, a), b), c)
  {
    RunFirst(Apply(Apply(s, a), b), c, []);
    RunFirst(Apply(s, a), b, [c]);
    RunFirst(s, a, [b, c]);
    assert [a] + [b, c] == [a, b, c] && [b] + [c] == [b, c] && [c] + [] == [c];
  }

  lemma RunFirst(s: State, a: Action, run: seq<Action>)
    requires Enabled(s, a) && Legal(Apply(s, a), run)
    ensures Legal(s, [a] + run) && Final(s, [a] + run) == Final(Apply(s, a), run)
  {
    assert ([a] + run)[1..] == run;
  }

  // A failure before the last delivery gives the message back for another one.
  lemma EarlyFailureIsRetried(s: State, p: nat)
    requires Reachable(s) && p in s.handlers && s.handlers[p].Failing? && s.handlers[p].n < s.maxDeliver
    requires s.handlers[p].m < |s.progress| && s.progress[s.handlers[p].m].InFlight?
             && s.progress[s.handlers[p].m].count == s.handlers[p].n
    ensures Enabled(s, Step(p, Ok)) && Enabled(Apply(s, Step(p, Ok)), Step(p, Ok))
    ensures var m, f := s.handlers[p].m, Apply(Apply(s, Step(p, Ok)), Step(p, Ok));
            f.progress == s.progress[m := Waiting(s.handlers[p].n)] && f.stream == s.stream && f.sent == s.sent && p !in f.handlers
  {
    ReachableInv(s);
    assert HandlerOK(s, s.handlers[p]);
  }

  // The last failure moves the message to the dead letters and acknowledges it.
  lemma LastFailureIsDeadLettered(s: State, p: nat)
    requires Reachable(s) && p in s.handlers && s.handlers[p].Failing? && s.handlers[p].n >= s.maxDeliver
    requires s.handlers[p].m < |s.progress| && s.progress[s.handlers[p].m].InFlight?
    requires DlqID(Completion(s.handlers[p].m, s.handlers[p].event).messageID) !in s.window
    ensures var run := [Step(p, Ok), Step(p, Ok), Step(p, Ok)];
            && Legal(s, run)
            && var f, m := Final(s, run), s.handlers[p].m;
               && |f.stream| == |s.stream| + 1 && f.stream[..|s.stream|] == s.stream && f.stream[|s.stream|].DeadLetter?
               && TellsOf(s.stream, m, f.stream[|s.stream|].event)
               && m < |f.progress| && f.progress[m].Acked? && f.sent == s.sent
  {
    ReachableInv(s);
    assert HandlerOK(s, s.handlers[p]);
    var m, n := s.handlers[p].m, s.handlers[p].n;
    var letter := Completion(m, s.handlers[p].event);
    CompletionTells(s, m);
    var s1 := Become(s, p, DeadLettering(m, n, letter));
    assert Apply(s, Step(p, Ok)) == s1;
    LastLetterIsStored(s1, p, letter);
    ThreeSteps(s, Step(p, Ok), Step(p, Ok), Step(p, Ok));
  }

  lemma LastLetterIsStored(s: State, p: nat, letter: PaymentCompleted)
    requires p in s.handlers && s.handlers[p].DeadLettering? && s.handlers[p].event == letter
    requires s.handlers[p].m < |s.stream| == |s.progress| && s.progress[s.handlers[p].m].InFlight?
    requires DlqID(letter.messageID) !in s.window
    ensures Enabled(s, Step(p, Ok)) && Enabled(Apply(s, Step(p, Ok)), Step(p, Ok))
    ensures var f := Apply(Apply(s, Step(p, Ok)), Step(p, Ok));
            && f.stream == s.stream + [DeadLetter(letter)] && f.sent == s.sent
            && s.handlers[p].m < |f.progress| && f.progress[s.handlers[p].m].Acked?
  {
    var s1 := Become(Store(s, DeadLetter(letter)), p, Acking(s.handlers[p].m, s.handlers[p].n));
    assert Apply(s, Step(p, Ok)) == s1;
  }

  // Over every run of a consumer, a message is delivered at most as often as configured, and three
  // times if that is not positive.
  lemma DeliveriesAreConfigured(maxDeliver: int, run: seq<Action>, before: seq<Action>, m: nat)
    requires Legal(Initial(maxDeliver), before) && Legal(Final(Initial(maxDeliver), before), run)
    requires m < |Final(Initial(maxDeliver), before).progress|
    ensures Deliveries(run, m) <= if maxDeliver > 0 then maxDeliver else 3
  {
    RunKeepsInv(Initial(maxDeliver), before);
    DeliveriesAreBounded(Final(Initial(maxDeliver), before), run, m);
    SameLimit(Initial(maxDeliver), before);
    SameLimit(Final(Initial(maxDeliver), before), run);
  }

  lemma {:induction false} SameLimit(s: State, run: seq<Action>)
    requires Legal(s, run)
    ensures Final(s, run).maxDeliver == s.maxDeliver
    decreases |run|
  {
    if run != [] {
      SameLimit(Apply(s, run[0]), run[1..]);
    }
  }
}
