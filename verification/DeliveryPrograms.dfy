// The notification consumer as programs: handling and failing a message, statement by statement,
// with publishers, JetStream and other handlers running in between. Every statement is a step of
// the delivery protocol.

module DeliveryPrograms {
  import opened Domain
  import F = Fingerprint
  import opened Delivery

  // Everything but the steps of handler p, which only p makes.
  predicate OfOthers(a: Action, p: nat) {
    match a
    case Step(q, _) => q != p
    case Crash(q) => q != p
    case _ => true
  }

  // Handler p still is where it was.
  predicate Kept(p: nat, s: State, s': State) {
    p in s.handlers ==> p in s'.handlers && s'.handlers[p] == s.handlers[p]
  }

  lemma OthersKeep(s: State, a: Action, p: nat)
    requires Enabled(s, a) && OfOthers(a, p) && Inv(s)
    ensures Kept(p, s, Apply(s, a))
  {
    if a.Step? {
      OtherHandlerKeeps(s, a.p, a.outcome, p);
    }
  }

  lemma OtherHandlerKeeps(s: State, q: nat, outcome: Outcome, p: nat)
    requires Enabled(s, Step(q, outcome)) && q != p
    ensures Kept(p, s, StepHandler(s, q, outcome))
  {
    match s.handlers[q]
    case Handling(_, _) =>
    case _ =>
  }

  // The entry was acknowledged, or a fault of its last delivery is on record.
  predicate Settled(s: State, m: nat) {
    m < |s.progress| && (s.progress[m].Acked? || m in s.faults)
  }

  // A run leads from s to s'.
  ghost predicate Later(s: State, s': State) {
    exists run :: Legal(s, run) && Final(s, run) == s'
  }

  lemma LaterStep(s: State, s': State, a: Action)
    requires Later(s, s') && Enabled(s', a)
    ensures Later(s, Apply(s', a))
  {
    var run :| Legal(s, run) && Final(s, run) == s';
    RunThenStep(s, run, a);
  }

  lemma {:induction false} RunThenRun(s: State, run: seq<Action>, more: seq<Action>)
    requires Legal(s, run) && Legal(Final(s, run), more)
    ensures Legal(s, run + more) && Final(s, run + more) == Final(Final(s, run), more)
    decreases |run|
  {
    if run == [] {
      assert run + more == more;
    } else {
      RunThenRun(Apply(s, run[0]), run[1..], more);
      assert (run + more)[1..] == run[1..] + more;
    }
  }

  lemma LaterTransitive(s: State, s': State, s'': State)
    requires Later(s, s') && Later(s', s'')
    ensures Later(s, s'')
  {
    var run :| Legal(s, run) && Final(s, run) == s';
    var more :| Legal(s', more) && Final(s', more) == s'';
    RunThenRun(s, run, more);
  }

  lemma NothingIsLater(s: State)
    ensures Later(s, s)
  {
    assert Legal(s, []) && Final(s, []) == s;
  }

  lemma StepGrows(s: State, a: Action)
    requires Inv(s) && Enabled(s, a)
    ensures Extends(s, Apply(s, a))
    ensures forall m :: Settled(s, m) ==> Settled(Apply(s, a), m)
  {
    match a
    case Step(p, outcome) => HandlerStepGrows(s, p, outcome);
    case _ =>
  }

  lemma HandlerStepGrows(s: State, p: nat, outcome: Outcome)
    requires Inv(s) && Enabled(s, Step(p, outcome))
    ensures Extends(s, StepHandler(s, p, outcome))
    ensures forall m :: Settled(s, m) ==> Settled(StepHandler(s, p, outcome), m)
  {
    match s.handlers[p]
    case DeadLettering(_, _, _) => StoreStepGrows(s, p, outcome);
    case FloatingStore(_) => StoreStepGrows(s, p, outcome);
    case Acking(_, _) => AckStepGrows(s, p, outcome);
    case Naking(_, _) => AckStepGrows(s, p, outcome);
    case _ => MarkStepGrows(s, p, outcome);
  }

  lemma StoreStepGrows(s: State, p: nat, outcome: Outcome)
    requires Inv(s) && Enabled(s, Step(p, outcome)) && (s.handlers[p].DeadLettering? || s.handlers[p].FloatingStore?)
    ensures Extends(s, StepHandler(s, p, outcome))
    ensures forall m :: Settled(s, m) ==> Settled(StepHandler(s, p, outcome), m)
  {
  }

  lemma AckStepGrows(s: State, p: nat, outcome: Outcome)
    requires |s.stream| == |s.progress| && Enabled(s, Step(p, outcome)) && (s.handlers[p].Acking? || s.handlers[p].Naking?)
    ensures Extends(s, StepHandler(s, p, outcome))
    ensures forall m :: Settled(s, m) ==> Settled(StepHandler(s, p, outcome), m)
  {
  }

  lemma MarkStepGrows(s: State, p: nat, outcome: Outcome)
    requires |s.stream| == |s.progress| && Enabled(s, Step(p, outcome))
    requires var h := s.handlers[p]; h.Handling? || h.Notifying? || h.Failing? || h.FloatingMark?
    ensures Extends(s, StepHandler(s, p, outcome))
    ensures forall m :: Settled(s, m) ==> Settled(StepHandler(s, p, outcome), m)
  {
  }

  // Nothing recorded gets lost.
  lemma {:induction false} RunGrows(s: State, run: seq<Action>)
    requires Inv(s) && Legal(s, run)
    ensures Extends(s, Final(s, run)) && forall m :: Settled(s, m) ==> Settled(Final(s, run), m)
    decreases |run|
  {
    if run != [] {
      StepKeepsInv(s, run[0]);
      StepGrows(s, run[0]);
      RunGrows(Apply(s, run[0]), run[1..]);
    }
  }

  lemma LaterGrows(s: State, s': State)
    requires Reachable(s) && Later(s, s')
    ensures Extends(s, s') && forall m :: Settled(s, m) ==> Settled(s', m)
  {
    ReachableInv(s);
    var run :| Legal(s, run) && Final(s, run) == s';
    RunGrows(s, run);
  }

  class World {
    var s: State

    ghost predicate Valid()
      reads this
    {
      Reachable(s)
    }

    // Handler p is at h.
    ghost predicate At(p: nat, h: Handler)
      reads this
    {
      Valid() && p in s.handlers && s.handlers[p] == h
    }

    constructor (maxDeliver: int)
      ensures Valid() && s == Initial(maxDeliver)
    {
      s := Initial(maxDeliver);
      new;
      assert Legal(Initial(maxDeliver), []) && Final(Initial(maxDeliver), []) == s;
    }

    method Take(a: Action)
      requires Valid() && Enabled(s, a)
      modifies this
      ensures Valid() && s == Apply(old(s), a) && Later(old(s), s)
    {
      Reach(s, a, Apply(s, a));
      NothingIsLater(s);
      LaterStep(s, s, a);
      s := Apply(s, a);
    }

    method OneOther(p: nat)
      requires Valid()
      modifies this
      ensures Valid() && Later(old(s), s) && Kept(p, old(s), s)
    {
      var a: Action := *;
      if OfOthers(a, p) && Enabled(s, a) {
        ReachableInv(s);
        OthersKeep(s, a, p);
        Take(a);
      } else {
        NothingIsLater(s);
      }
    }

    method OthersMayRun(p: nat)
      requires Valid()
      modifies this
      ensures Valid() && Later(old(s), s) && Kept(p, old(s), s)
    {
      var steps: nat := *;
      NothingIsLater(s);
      while steps > 0
        invariant Valid() && Later(old(s), s) && Kept(p, old(s), s)
      {
        ghost var before := s;
        OneOther(p);
        LaterTransitive(old(s), before, s);
        steps := steps - 1;
      }
    }

    // One statement of handler p; t is the state it sees.
    method Statement(p: nat) returns (outcome: Outcome, t: State)
      requires Valid() && p in s.handlers
      modifies this
      ensures Reachable(t) && Later(old(s), t) && Kept(p, old(s), t) && Enabled(t, Step(p, outcome))
      ensures Valid() && Later(old(s), s) && s == Apply(t, Step(p, outcome))
    {
      OthersMayRun(p);
      t := s;
      outcome := *;
      if !Enabled(s, Step(p, outcome)) {
        outcome := Ok;
        HandlerIsEnabled(s, p);
      }
      Take(Step(p, outcome));
      LaterTransitive(old(s), t, s);
    }
  }

  lemma HandlerIsEnabled(s: State, p: nat)
    requires Reachable(s) && p in s.handlers
    ensures Enabled(s, Step(p, Ok))
  {
    ReachableInv(s);
    assert HandlerOK(s, s.handlers[p]);
  }

  // ---------- handleMessage ----------

  lemma LastStepSettles(s: State, p: nat, m: nat, n: nat, outcome: Outcome)
    requires Reachable(s) && Enabled(s, Step(p, outcome)) && (s.handlers[p] == Acking(m, n) || s.handlers[p] == Naking(m, n))
    ensures p !in Apply(s, Step(p, outcome)).handlers
    ensures n >= s.maxDeliver ==> Settled(Apply(s, Step(p, outcome)), m)
  {
    ReachableInv(s);
    assert HandlerOK(s, s.handlers[p]);
  }

  // Ack and NakWithDelay. After the last delivery the message is acknowledged or a fault is on record.
  method AckOrNak(w: World, p: nat, m: nat, n: nat)
    requires w.At(p, Acking(m, n)) || w.At(p, Naking(m, n))
    modifies w
    ensures w.Valid() && p !in w.s.handlers && Later(old(w.s), w.s)
    ensures n >= w.s.maxDeliver ==> Settled(w.s, m)
  {
    var outcome, t := w.Statement(p);
    LastStepSettles(t, p, m, n, outcome);
    LaterGrows(t, w.s) by {
      NothingIsLater(t);
      LaterStep(t, t, Step(p, outcome));
    }
  }

  lemma EntryStays(s: State, s': State, m: nat)
    requires Reachable(s) && Later(s, s') && m < |s.stream|
    ensures m < |s'.stream| && s'.stream[m] == s.stream[m]
  {
    LaterGrows(s, s');
  }

  ghost predicate Holds(s: State, m: nat, payload: Payload) {
    m < |s.stream| && s.stream[m].Completed? && s.stream[m].payload == payload
  }

  // A decoded message: validated, recorded in processed_messages, and notified if it is new there.
  method HandlePaymentCompleted(w: World, p: nat, m: nat, n: nat, event: PaymentCompleted) returns (err: bool)
    requires w.At(p, Handling(m, n)) && Holds(w.s, m, Event(event))
    modifies w
    ensures w.At(p, if err then Failing(m, n, event) else Acking(m, n)) && Later(old(w.s), w.s)
    ensures !err ==> event.messageID in w.s.processed
  {
    ghost var before := w.s;
    if Blank(event.messageID) || Blank(event.orderID) {
      HandlerIsEnabled(w.s, p);
      w.Take(Step(p, Ok));
      return true;
    }
    var outcome, t := w.Statement(p);
    EntryStays(before, t, m);
    ghost var after := w.s;
    if outcome != Ok {
      return true;
    }
    if event.messageID in t.processed {
      return false;
    }
    Notify(w, p, m, n, event);
    LaterTransitive(before, after, w.s);
    err := false;
  }

  method Notify(w: World, p: nat, m: nat, n: nat, event: PaymentCompleted)
    requires w.At(p, Notifying(m, n, event))
    modifies w
    ensures w.At(p, Acking(m, n)) && Later(old(w.s), w.s)
    ensures event.messageID in w.s.processed && w.s.sent != [] && w.s.sent[|w.s.sent| - 1] == event
  {
    var outcome, t := w.Statement(p);
    ReachableInv(t);
    assert HandlerOK(t, t.handlers[p]);
  }

  method HandleFailure(w: World, p: nat, m: nat, n: nat, event: PaymentCompleted)
    requires w.At(p, Failing(m, n, event))
    modifies w
    ensures w.Valid() && p !in w.s.handlers && Later(old(w.s), w.s)
    ensures n >= w.s.maxDeliver ==> Settled(w.s, m)
  {
    ghost var before := w.s;
    var outcome, t := w.Statement(p);
    ghost var after := w.s;
    if outcome == Err || n < t.maxDeliver {
      AckOrNak(w, p, m, n);
    } else {
      var completed := event;
      if completed.messageID == "" {
        completed := completed.(messageID := "invalid:" + F.FormatNat(m + 1));
      }
      if completed.orderID == "" {
        completed := completed.(orderID := "unknown");
      }
      MoveToDeadLetters(w, p, m, n, completed);
    }
    LaterTransitive(before, after, w.s);
  }

  method MoveToDeadLetters(w: World, p: nat, m: nat, n: nat, event: PaymentCompleted)
    requires w.At(p, DeadLettering(m, n, event))
    modifies w
    ensures w.Valid() && p !in w.s.handlers && Later(old(w.s), w.s)
    ensures n >= w.s.maxDeliver ==> Settled(w.s, m)
  {
    ghost var before := w.s;
    var outcome, t := w.Statement(p);
    ghost var after := w.s;
    AckOrNak(w, p, m, n);
    LaterTransitive(before, after, w.s);
  }

  // What a delivery comes to. After the last one the message is acknowledged or a fault of that
  // delivery is on record; an acknowledged one is in processed_messages or among the dead letters,
  // unless an event has the id of its dead letter.
  method HandleMessage(w: World, p: nat, m: nat, n: nat)
    requires w.At(p, Handling(m, n))
    modifies w
    ensures w.Valid() && p !in w.s.handlers && Later(old(w.s), w.s)
    ensures n >= w.s.maxDeliver ==> Settled(w.s, m)
    ensures m < |w.s.stream| == |w.s.progress|
    ensures w.s.progress[m].Acked? ==> Recorded(w.s, m) || Shadowed(w.s, m)
  {
    HandlerHasEntry(w.s, p);
    ghost var before := w.s;
    match w.s.stream[m].payload {
      case Malformed(partial) =>
        w.Take(Step(p, Ok));
        ghost var after := w.s;
        HandleFailure(w, p, m, n, partial);
        LaterTransitive(before, after, w.s);
      case Event(event) =>
        var err := HandlePaymentCompleted(w, p, m, n, event);
        ghost var after := w.s;
        if err {
          HandleFailure(w, p, m, n, event);
        } else {
          AckOrNak(w, p, m, n);
        }
        LaterTransitive(before, after, w.s);
    }
    EntryStays(before, w.s, m);
    ReachableInv(w.s);
  }

  lemma HandlerHasEntry(s: State, p: nat)
    requires Reachable(s) && p in s.handlers && !Floating(s.handlers[p])
    ensures s.handlers[p].m < |s.stream| == |s.progress| && s.stream[s.handlers[p].m].Completed?
  {
    ReachableInv(s);
    assert HandlerOK(s, s.handlers[p]);
  }

  // The fetch loop. Every message that this run was given for the last time ends up settled.
  method Run(w: World) returns (last: set<nat>)
    requires w.Valid()
    modifies w
    ensures w.Valid() && Later(old(w.s), w.s)
    ensures forall m :: m in last ==> Settled(w.s, m)
  {
    last := {};
    NothingIsLater(w.s);
    var rounds: nat := *;
    while rounds > 0
      invariant w.Valid() && Later(old(w.s), w.s)
      invariant forall m :: m in last ==> Settled(w.s, m)
    {
      ghost var before := w.s;
      last := FetchOne(w, last);
      LaterTransitive(old(w.s), before, w.s);
      rounds := rounds - 1;
    }
  }

  // One round: a message is delivered and handled, or the fetch timed out.
  method FetchOne(w: World, known: set<nat>) returns (last: set<nat>)
    requires w.Valid() && forall m :: m in known ==> Settled(w.s, m)
    modifies w
    ensures w.Valid() && Later(old(w.s), w.s)
    ensures known <= last && forall m :: m in last ==> Settled(w.s, m)
  {
    last := known;
    ghost var before := w.s;
    var m: nat, p: nat := *, *;
    w.OthersMayRun(p);
    if Enabled(w.s, Deliver(m, p)) {
      var n := w.s.progress[m].count + 1;
      ghost var fetched := w.s;
      w.Take(Deliver(m, p));
      LaterTransitive(before, fetched, w.s);
      ghost var delivered := w.s;
      HandleMessage(w, p, m, n);
      LaterTransitive(before, delivered, w.s);
      if n >= w.s.maxDeliver {
        last := last + {m};
      }
    }
    LaterGrows(before, w.s);
  }
}
