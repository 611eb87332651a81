// Delivery of payment.completed: the PAYMENTS stream with its duplicate window, the durable
// consumer with MaxDeliver, the notification handler with its processed_messages table, and the
// dead-letter subject. One step is one database statement, publish, ack, nak or delivery; handlers
// may overlap (a message is redelivered while an older handler is slow) and may crash.

module Delivery {
  import opened Common
  import opened Domain
  import F = Fingerprint

  // What is in a message: an event, or bytes that do not decode (partial is what the decoder had
  // filled in when it gave up).
  datatype Payload = Event(event: PaymentCompleted) | Malformed(partial: PaymentCompleted)

  // Both subjects live in one stream and share its sequence numbers and duplicate window.
  datatype Entry = Completed(header: string, payload: Payload) | DeadLetter(event: PaymentCompleted)

  // Nats-Msg-Id
  function Header(entry: Entry): string {
    match entry
    case Completed(header, _) => header
    case DeadLetter(event) => DlqID(event.messageID)
  }

  // The consumer's state of an entry; count is the number of deliveries so far.
  datatype Progress =
    | Waiting(count: nat)
    | InFlight(count: nat, handler: nat)
    | Acked(count: nat)
    | Exhausted(count: nat)

  // Program points of handleMessage and handleFailure; n is NumDelivered of the handled delivery.
  // Floating: a statement or publish whose caller has given up on it.
  datatype Handler =
    | Handling(m: nat, n: nat)
    | Notifying(m: nat, n: nat, event: PaymentCompleted)
    | Acking(m: nat, n: nat)
    | Failing(m: nat, n: nat, event: PaymentCompleted)
    | DeadLettering(m: nat, n: nat, event: PaymentCompleted)
    | Naking(m: nat, n: nat)
    | FloatingMark(messageID: string)
    | FloatingStore(entry: Entry)

  // faults: the entries whose final delivery met a fault (see Apply), a history variable.
  datatype State = State(maxDeliver: nat, stream: seq<Entry>, window: set<string>, progress: seq<Progress>,
                         handlers: map<nat, Handler>, processed: set<string>, sent: seq<PaymentCompleted>,
                         faults: set<nat>)

  datatype Outcome = Ok | Err | Lost(q: nat)

  datatype Action =
    | Publish(header: string, payload: Payload)
    | ForgetHeader(header: string)
    | Deliver(m: nat, p: nat)
    | Expire(m: nat)
    | Step(p: nat, outcome: Outcome)
    | Crash(p: nat)

  // NewPaymentCompletedConsumer replaces a non-positive MaxDeliver.
  function Initial(maxDeliver: int): State {
    State(if maxDeliver <= 0 then 3 else maxDeliver, [], {}, [], map[], {}, [], {})
  }

  // A publish whose id is still in the duplicate window is acknowledged but not stored.
  function Store(s: State, entry: Entry): State {
    if Header(entry) in s.window then s
    else s.(stream := s.stream + [entry], window := s.window + {Header(entry)}, progress := s.progress + [Waiting(0)])
  }

  // What handleFailure fills in before it dead-letters; m + 1 is the stream sequence.
  function Completion(m: nat, event: PaymentCompleted): PaymentCompleted {
    event.(messageID := if event.messageID == "" then "invalid:" + F.FormatNat(m + 1) else event.messageID,
           orderID := if event.orderID == "" then "unknown" else event.orderID)
  }

  // The message goes back to the consumer, or is given up after its last delivery.
  function Requeue(s: State, m: nat): State
    requires m < |s.progress|
  {
    var count := s.progress[m].count;
    s.(progress := s.progress[m := if count < s.maxDeliver then Waiting(count) else Exhausted(count)])
  }

  function Fault(s: State, m: nat, n: nat): State {
    if n >= s.maxDeliver then s.(faults := s.faults + {m}) else s
  }

  function Become(s: State, p: nat, h: Handler): State {
    s.(handlers := s.handlers[p := h])
  }

  function End(s: State, p: nat): State {
    s.(handlers := s.handlers - {p})
  }

  predicate Floating(h: Handler) {
    h.FloatingMark? || h.FloatingStore?
  }

  predicate Enabled(s: State, a: Action) {
    match a
    case Publish(_, _) => true
    case ForgetHeader(_) => true
    case Deliver(m, p) =>
      // FilterSubject, MaxDeliver, MaxAckPending: 1; first deliveries go in order (DeliverAllPolicy)
      && m < |s.stream| && m < |s.progress| && s.stream[m].Completed?
      && s.progress[m].Waiting? && s.progress[m].count < s.maxDeliver
      && p !in s.handlers
      && (forall i :: 0 <= i < |s.progress| ==> !s.progress[i].InFlight?)
      && (s.progress[m].count == 0 ==>
            forall i :: 0 <= i < m && s.stream[i].Completed? ==> s.progress[i].count > 0)
    case Expire(m) => m < |s.progress| && s.progress[m].InFlight?
    case Step(p, outcome) =>
      && p in s.handlers
      && (!Floating(s.handlers[p]) ==> s.handlers[p].m < |s.stream| && s.handlers[p].m < |s.progress|)
      && (outcome.Lost? ==>
            && outcome.q !in s.handlers
            && (s.handlers[p].DeadLettering? || (s.handlers[p].Handling? && Decoded(s, s.handlers[p].m).Some?)))
    case Crash(p) => p in s.handlers
  }

  // The event that reaches MarkProcessed: decoded, with a message id and an order id.
  function Decoded(s: State, m: nat): Option<PaymentCompleted>
    requires m < |s.stream|
  {
    match s.stream[m]
    case Completed(_, Event(e)) => if Blank(e.messageID) || Blank(e.orderID) then None else Some(e)
    case _ => None
  }

  // The event that handleFailure gets.
  function Contents(s: State, m: nat): PaymentCompleted
    requires m < |s.stream|
  {
    match s.stream[m]
    case Completed(_, Event(e)) => e
    case Completed(_, Malformed(partial)) => partial
    case DeadLetter(e) => e
  }

  function StepHandler(s: State, p: nat, outcome: Outcome): State
    requires Enabled(s, Step(p, outcome))
  {
    match s.handlers[p]
    case Handling(m, n) =>
      var e := Decoded(s, m);
      if e.None? then Become(s, p, Failing(m, n, Contents(s, m)))
      else (match outcome
            case Err => Become(s, p, Failing(m, n, e.value))
            case Lost(q) => Become(Become(s, p, Failing(m, n, e.value)), q, FloatingMark(e.value.messageID))
            case Ok =>
              if e.value.messageID in s.processed then Become(s, p, Acking(m, n))
              else Become(s, p, Notifying(m, n, e.value)).(processed := s.processed + {e.value.messageID}))
    case Notifying(m, n, e) => Become(s, p, Acking(m, n)).(sent := s.sent + [e])
    case Acking(m, n) =>
      if outcome == Ok && (s.progress[m].Waiting? || s.progress[m].InFlight?)
      then End(s, p).(progress := s.progress[m := Acked(s.progress[m].count)])
      else Fault(End(s, p), m, n)
    case Failing(m, n, e) =>
      if outcome == Err then Fault(Become(s, p, Naking(m, n)), m, n)
      else if n < s.maxDeliver then Become(s, p, Naking(m, n))
      else Become(s, p, DeadLettering(m, n, Completion(m, e)))
    case DeadLettering(m, n, e) =>
      (match outcome
       case Ok => Become(Store(s, DeadLetter(e)), p, Acking(m, n))
       case Err => Fault(Become(s, p, Naking(m, n)), m, n)
       case Lost(q) => Fault(Become(Become(s, p, Naking(m, n)), q, FloatingStore(DeadLetter(e))), m, n))
    case Naking(m, n) =>
      // A nak counts only for the delivery that is out.
      if outcome == Ok && s.progress[m].InFlight? && s.progress[m].count == n then Requeue(End(s, p), m) else End(s, p)
    case FloatingMark(messageID) => End(s, p).(processed := s.processed + {messageID})
    case FloatingStore(entry) => End(Store(s, entry), p)
  }

  function Apply(s: State, a: Action): State
    requires Enabled(s, a)
  {
    match a
    case Publish(header, payload) => Store(s, Completed(header, payload))
    case ForgetHeader(header) => s.(window := s.window - {header})
    case Deliver(m, p) =>
      var n := s.progress[m].count + 1;
      Become(s, p, Handling(m, n)).(progress := s.progress[m := InFlight(n, p)])
    case Expire(m) =>
      // AckWait ran out. It is a fault of the delivery if its handler is still at work.
      var late := s.progress[m].handler in s.handlers;
      Requeue(if late then Fault(s, m, s.progress[m].count) else s, m)
    case Step(p, outcome) => StepHandler(s, p, outcome)
    case Crash(p) =>
      var h := s.handlers[p];
      if Floating(h) then End(s, p) else Fault(End(s, p), h.m, h.n)
  }

  // ---------- Runs ----------

  ghost predicate Legal(s: State, run: seq<Action>)
    decreases |run|
  {
    run == [] || (Enabled(s, run[0]) && Legal(Apply(s, run[0]), run[1..]))
  }

  ghost function Final(s: State, run: seq<Action>): State
    requires Legal(s, run)
    decreases |run|
  {
    if run == [] then s else Final(Apply(s, run[0]), run[1..])
  }

  ghost predicate Reachable(s: State) {
    exists maxDeliver, run :: Legal(Initial(maxDeliver), run) && Final(Initial(maxDeliver), run) == s
  }

  // ---------- The invariant ----------

  // A dead letter with this message id is in the stream.
  ghost predicate DeadLettered(s: State, messageID: string) {
    exists i :: 0 <= i < |s.stream| && s.stream[i].DeadLetter? && s.stream[i].event.messageID == messageID
  }

  // The message of the entry is recorded as processed or as dead-lettered.
  ghost predicate Recorded(s: State, m: nat)
    requires m < |s.stream|
  {
    || (Decoded(s, m).Some? && Decoded(s, m).value.messageID in s.processed)
    || DeadLettered(s, Completion(m, Contents(s, m)).messageID)
  }

  // An event was published with the id that the dead letter of this entry would have.
  ghost predicate Shadowed(s: State, m: nat)
    requires m < |s.stream|
  {
    exists i :: 0 <= i < |s.stream| && s.stream[i].Completed?
                && s.stream[i].header == DlqID(Completion(m, Contents(s, m)).messageID)
  }

  ghost predicate Accounted(s: State, m: nat)
    requires m < |s.stream|
  {
    Recorded(s, m) || Shadowed(s, m)
  }

  ghost predicate WindowOK(s: State) {
    forall w :: w in s.window ==> exists i :: 0 <= i < |s.stream| && Header(s.stream[i]) == w
  }

  ghost predicate HandlerOK(s: State, h: Handler) {
    && (!Floating(h) ==>
          h.m < |s.stream| == |s.progress| && s.stream[h.m].Completed? && 1 <= h.n <= s.progress[h.m].count)
    && match h
       case Notifying(m, _, e) => Decoded(s, m) == Some(e) && e.messageID in s.processed
       case Failing(m, _, e) => e == Contents(s, m)
       case DeadLettering(m, n, e) => e == Completion(m, Contents(s, m)) && n >= s.maxDeliver
       case Naking(m, n) => n >= s.maxDeliver ==> m in s.faults
       case Acking(m, _) => Accounted(s, m)
       case FloatingStore(entry) => entry.DeadLetter?
       case _ => true
  }

  // One delivery is watched over: by its handler, or by a recorded fault.
  predicate ProgressOK(maxDeliver: nat, faults: set<nat>, handlers: map<nat, Handler>, m: nat, progress: Progress) {
    match progress
    case Waiting(count) => count < maxDeliver
    case InFlight(count, p) =>
      && 1 <= count <= maxDeliver
      && (count == maxDeliver ==>
            m in faults || (p in handlers && !Floating(handlers[p]) && handlers[p].m == m && handlers[p].n == count))
    case Acked(count) => count <= maxDeliver
    case Exhausted(count) => count == maxDeliver && m in faults
  }

  predicate NotifyOnce(s: State) {
    && (forall i :: 0 <= i < |s.sent| ==> s.sent[i].messageID in s.processed)
    && (forall i, j :: 0 <= i < j < |s.sent| ==> s.sent[i].messageID != s.sent[j].messageID)
    && (forall p, i :: p in s.handlers && s.handlers[p].Notifying? && 0 <= i < |s.sent| ==>
          s.sent[i].messageID != s.handlers[p].event.messageID)
    && (forall p, q :: p in s.handlers && q in s.handlers && p != q && s.handlers[p].Notifying? && s.handlers[q].Notifying? ==>
          s.handlers[p].event.messageID != s.handlers[q].event.messageID)
  }

  ghost predicate Inv(s: State) {
    && s.maxDeliver > 0 && |s.progress| == |s.stream|
    && WindowOK(s)
    && (forall p :: p in s.handlers ==> HandlerOK(s, s.handlers[p]))
    && (forall m :: 0 <= m < |s.progress| ==> ProgressOK(s.maxDeliver, s.faults, s.handlers, m, s.progress[m]))
    && (forall m :: 0 <= m < |s.progress| && s.progress[m].Acked? ==> Accounted(s, m))
    && NotifyOnce(s)
  }

  // What never shrinks.
  ghost predicate Extends(s: State, s': State) {
    && s'.maxDeliver == s.maxDeliver
    && |s.stream| == |s.progress| <= |s'.stream| == |s'.progress|
    && (forall i :: 0 <= i < |s.stream| ==> s'.stream[i] == s.stream[i])
    && (forall i :: 0 <= i < |s.progress| ==> s.progress[i].count <= s'.progress[i].count)
    && s.processed <= s'.processed
    && s.faults <= s'.faults
  }

  lemma AccountedGrows(s: State, s': State, m: nat)
    requires Extends(s, s') && m < |s.stream| && Accounted(s, m)
    ensures Accounted(s', m)
  {
    var id := Completion(m, Contents(s, m)).messageID;
    if DeadLettered(s, id) {
      var i :| 0 <= i < |s.stream| && s.stream[i].DeadLetter? && s.stream[i].event.messageID == id;
      assert s'.stream[i] == s.stream[i];
    }
    if Shadowed(s, m) {
      var i :| 0 <= i < |s.stream| && s.stream[i].Completed? && s.stream[i].header == DlqID(id);
      assert s'.stream[i] == s.stream[i];
    }
  }

  lemma HandlerGrows(s: State, s': State, h: Handler)
    requires Extends(s, s') && HandlerOK(s, h)
    ensures HandlerOK(s', h)
  {
    if h.Acking? {
      AccountedGrows(s, s', h.m);
    }
  }

  // Extending the state keeps what is known about its handlers and its acked entries.
  lemma ExtendKeepsOld(s: State, s': State)
    requires Inv(s) && Extends(s, s')
    ensures forall p :: p in s.handlers ==> HandlerOK(s', s.handlers[p])
    ensures forall m :: 0 <= m < |s.progress| && s.progress[m].Acked? ==> Accounted(s', m)
  {
    forall p | p in s.handlers ensures HandlerOK(s', s.handlers[p]) {
      HandlerGrows(s, s', s.handlers[p]);
    }
    forall m | 0 <= m < |s.progress| && s.progress[m].Acked? ensures Accounted(s', m) {
      AccountedGrows(s, s', m);
    }
  }

  lemma StoreKeepsInv(s: State, entry: Entry)
    requires Inv(s)
    ensures Inv(Store(s, entry)) && Extends(s, Store(s, entry))
  {
    var s' := Store(s, entry);
    ExtendKeepsOld(s, s');
    forall w | w in s'.window ensures exists i :: 0 <= i < |s'.stream| && Header(s'.stream[i]) == w {
      if w in s.window {
        var i :| 0 <= i < |s.stream| && Header(s.stream[i]) == w;
        assert s'.stream[i] == s.stream[i];
      } else {
        assert s'.stream[|s.stream|] == entry;
      }
    }
  }

  lemma MarkKeepsInv(s: State, messageID: string)
    requires Inv(s)
    ensures Inv(s.(processed := s.processed + {messageID})) && Extends(s, s.(processed := s.processed + {messageID}))
  {
    ExtendKeepsOld(s, s.(processed := s.processed + {messageID}));
  }

  lemma FaultKeepsInv(s: State, m: nat, n: nat)
    requires Inv(s)
    ensures Inv(Fault(s, m, n)) && Extends(s, Fault(s, m, n))
  {
    ExtendKeepsOld(s, Fault(s, m, n));
  }

  // A new program point of a handler, or a new floating statement.
  lemma BecomeKeepsInv(s: State, p: nat, h: Handler)
    requires Inv(s) && HandlerOK(s, h)
    requires p in s.handlers ==> !Floating(s.handlers[p]) && !Floating(h) && h.m == s.handlers[p].m && h.n == s.handlers[p].n
    requires h.Notifying? ==>
               && (forall i :: 0 <= i < |s.sent| ==> s.sent[i].messageID != h.event.messageID)
               && (forall q :: q in s.handlers && q != p && s.handlers[q].Notifying? ==>
                     s.handlers[q].event.messageID != h.event.messageID)
    ensures Inv(Become(s, p, h))
  {
    ExtendKeepsOld(s, Become(s, p, h));
    HandlerGrows(s, Become(s, p, h), h);
  }

  // A handler that is through with its delivery, or whose failure is recorded.
  lemma EndKeepsInv(s: State, p: nat)
    requires Inv(s) && p in s.handlers
    requires var h := s.handlers[p];
             Floating(h) || h.n < s.maxDeliver || h.m in s.faults || !s.progress[h.m].InFlight?
    ensures Inv(End(s, p))
  {
    ExtendKeepsOld(s, End(s, p));
  }

  lemma RequeueKeepsInv(s: State, m: nat)
    requires Inv(s) && m < |s.progress| && s.progress[m].InFlight?
    requires s.progress[m].count == s.maxDeliver ==> m in s.faults
    ensures Inv(Requeue(s, m))
  {
    ExtendKeepsOld(s, Requeue(s, m));
  }

  lemma ForgetKeepsInv(s: State, header: string)
    requires Inv(s)
    ensures Inv(s.(window := s.window - {header}))
  {
    ExtendKeepsOld(s, s.(window := s.window - {header}));
  }

  lemma DeliverKeepsInv(s: State, m: nat, p: nat)
    requires Inv(s) && Enabled(s, Deliver(m, p))
    ensures Inv(Apply(s, Deliver(m, p)))
  {
    ExtendKeepsOld(s, Apply(s, Deliver(m, p)));
  }

  lemma ExpireKeepsInv(s: State, m: nat)
    requires Inv(s) && Enabled(s, Expire(m))
    ensures Inv(Apply(s, Expire(m)))
  {
    FaultKeepsInv(s, m, s.progress[m].count);
    var s1 := if s.progress[m].handler in s.handlers then Fault(s, m, s.progress[m].count) else s;
    RequeueKeepsInv(s1, m);
  }

  lemma CrashKeepsInv(s: State, p: nat)
    requires Inv(s) && Enabled(s, Crash(p))
    ensures Inv(Apply(s, Crash(p)))
  {
    var h := s.handlers[p];
    if Floating(h) {
      EndKeepsInv(s, p);
    } else {
      FaultKeepsInv(s, h.m, h.n);
      EndKeepsInv(Fault(s, h.m, h.n), p);
    }
  }

  lemma HandlingKeepsInv(s: State, p: nat, outcome: Outcome)
    requires Inv(s) && Enabled(s, Step(p, outcome)) && s.handlers[p].Handling?
    ensures Inv(Apply(s, Step(p, outcome)))
  {
    var Handling(m, n) := s.handlers[p];
    var e := Decoded(s, m);
    if e.None? || outcome != Ok {
      BecomeKeepsInv(s, p, Failing(m, n, Contents(s, m)));
      if e.Some? && outcome.Lost? {
        BecomeKeepsInv(Become(s, p, Failing(m, n, Contents(s, m))), outcome.q, FloatingMark(e.value.messageID));
      }
    } else if e.value.messageID in s.processed {
      BecomeKeepsInv(s, p, Acking(m, n));
    } else {
      MarkKeepsInv(s, e.value.messageID);
      BecomeKeepsInv(s.(processed := s.processed + {e.value.messageID}), p, Notifying(m, n, e.value));
    }
  }

  lemma NotifyingKeepsInv(s: State, p: nat, outcome: Outcome)
    requires Inv(s) && Enabled(s, Step(p, outcome)) && s.handlers[p].Notifying?
    ensures Inv(Apply(s, Step(p, outcome)))
  {
    var Notifying(m, n, e) := s.handlers[p];
    BecomeKeepsInv(s, p, Acking(m, n));
    ExtendKeepsOld(Become(s, p, Acking(m, n)), Apply(s, Step(p, outcome)));
  }

  lemma AckKeepsInv(s: State, m: nat)
    requires Inv(s) && m < |s.progress| && Accounted(s, m) && (s.progress[m].Waiting? || s.progress[m].InFlight?)
    ensures Inv(s.(progress := s.progress[m := Acked(s.progress[m].count)]))
  {
    ExtendKeepsOld(s, s.(progress := s.progress[m := Acked(s.progress[m].count)]));
  }

  lemma AckingKeepsInv(s: State, p: nat, outcome: Outcome)
    requires Inv(s) && Enabled(s, Step(p, outcome)) && s.handlers[p].Acking?
    ensures Inv(Apply(s, Step(p, outcome)))
  {
    var Acking(m, n) := s.handlers[p];
    if outcome == Ok && (s.progress[m].Waiting? || s.progress[m].InFlight?) {
      AckKeepsInv(s, m);
      EndKeepsInv(s.(progress := s.progress[m := Acked(s.progress[m].count)]), p);
    } else {
      FaultKeepsInv(s, m, n);
      EndKeepsInv(Fault(s, m, n), p);
    }
  }

  lemma FailingKeepsInv(s: State, p: nat, outcome: Outcome)
    requires Inv(s) && Enabled(s, Step(p, outcome)) && s.handlers[p].Failing?
    ensures Inv(Apply(s, Step(p, outcome)))
  {
    var Failing(m, n, e) := s.handlers[p];
    if outcome == Err {
      FaultKeepsInv(s, m, n);
      BecomeKeepsInv(Fault(s, m, n), p, Naking(m, n));
    } else if n < s.maxDeliver {
      BecomeKeepsInv(s, p, Naking(m, n));
    } else {
      BecomeKeepsInv(s, p, DeadLettering(m, n, Completion(m, e)));
    }
  }

  // The suffix of dead-letter ids does not make two of them equal.
  lemma DlqIDInjective(a: string, b: string)
    requires DlqID(a) == DlqID(b)
    ensures a == b
  {
    assert DlqID(a)[..|a|] == a && DlqID(b)[..|b|] == b;
  }

  // An acknowledged dead-letter publish has left a dead letter in the stream, unless the duplicate
  // window took it for an event with the same id.
  lemma StoreDeadLetters(s: State, e: PaymentCompleted)
    requires Inv(s)
    ensures DeadLettered(Store(s, DeadLetter(e)), e.messageID) <==>
              DlqID(e.messageID) !in s.window || DeadLettered(s, e.messageID)
    ensures !DeadLettered(Store(s, DeadLetter(e)), e.messageID) ==>
              exists i :: 0 <= i < |s.stream| && s.stream[i].Completed? && s.stream[i].header == DlqID(e.messageID)
  {
    var s' := Store(s, DeadLetter(e));
    if DlqID(e.messageID) !in s.window {
      assert s'.stream[|s.stream|] == DeadLetter(e);
    } else {
      var i :| 0 <= i < |s.stream| && Header(s.stream[i]) == DlqID(e.messageID);
      if s.stream[i].DeadLetter? {
        DlqIDInjective(s.stream[i].event.messageID, e.messageID);
      }
    }
  }

  lemma DeadLetteringKeepsInv(s: State, p: nat, outcome: Outcome)
    requires Inv(s) && Enabled(s, Step(p, outcome)) && s.handlers[p].DeadLettering?
    ensures Inv(Apply(s, Step(p, outcome)))
  {
    if outcome == Ok {
      DeadLetterStoredKeepsInv(s, p);
    } else {
      DeadLetterFailedKeepsInv(s, p, outcome);
    }
  }

  lemma DeadLetterStoredKeepsInv(s: State, p: nat)
    requires Inv(s) && Enabled(s, Step(p, Ok)) && s.handlers[p].DeadLettering?
    ensures Inv(Apply(s, Step(p, Ok)))
  {
    var DeadLettering(m, n, e) := s.handlers[p];
    var s' := Store(s, DeadLetter(e));
    StoreKeepsInv(s, DeadLetter(e));
    assert HandlerOK(s, s.handlers[p]);
    DeadLetterAccounts(s, m);
    BecomeKeepsInv(s', p, Acking(m, n));
  }

  lemma DeadLetterAccounts(s: State, m: nat)
    requires Inv(s) && m < |s.stream|
    ensures Accounted(Store(s, DeadLetter(Completion(m, Contents(s, m)))), m)
  {
    var e := Completion(m, Contents(s, m));
    var s' := Store(s, DeadLetter(e));
    StoreDeadLetters(s, e);
    assert Contents(s', m) == Contents(s, m);
    if !Recorded(s', m) {
      var i :| 0 <= i < |s.stream| && s.stream[i].Completed? && s.stream[i].header == DlqID(e.messageID);
      assert s'.stream[i] == s.stream[i];
    }
  }

  lemma DeadLetterFailedKeepsInv(s: State, p: nat, outcome: Outcome)
    requires Inv(s) && Enabled(s, Step(p, outcome)) && s.handlers[p].DeadLettering? && outcome != Ok
    ensures Inv(Apply(s, Step(p, outcome)))
  {
    var DeadLettering(m, n, e) := s.handlers[p];
    var s1 := Fault(s, m, n);
    FaultKeepsInv(s, m, n);
    BecomeKeepsInv(s1, p, Naking(m, n));
    if outcome.Lost? {
      BecomeKeepsInv(Become(s1, p, Naking(m, n)), outcome.q, FloatingStore(DeadLetter(e)));
    }
  }

  lemma NakingKeepsInv(s: State, p: nat, outcome: Outcome)
    requires Inv(s) && Enabled(s, Step(p, outcome)) && s.handlers[p].Naking?
    ensures Inv(Apply(s, Step(p, outcome)))
  {
    EndKeepsInv(s, p);
    var Naking(m, n) := s.handlers[p];
    if outcome == Ok && s.progress[m].InFlight? && s.progress[m].count == n {
      RequeueKeepsInv(End(s, p), m);
    }
  }

  lemma FloatingKeepsInv(s: State, p: nat, outcome: Outcome)
    requires Inv(s) && Enabled(s, Step(p, outcome)) && Floating(s.handlers[p])
    ensures Inv(Apply(s, Step(p, outcome)))
  {
    match s.handlers[p]
    case FloatingMark(id) =>
      MarkKeepsInv(s, id);
      EndKeepsInv(s.(processed := s.processed + {id}), p);
    case FloatingStore(entry) =>
      StoreKeepsInv(s, entry);
      EndKeepsInv(Store(s, entry), p);
    case _ =>
  }

  lemma StepKeepsInv(s: State, a: Action)
    requires Inv(s) && Enabled(s, a)
    ensures Inv(Apply(s, a))
  {
    match a
    case Publish(header, payload) => StoreKeepsInv(s, Completed(header, payload));
    case ForgetHeader(header) => ForgetKeepsInv(s, header);
    case Deliver(m, p) => DeliverKeepsInv(s, m, p);
    case Expire(m) => ExpireKeepsInv(s, m);
    case Crash(p) => CrashKeepsInv(s, p);
    case Step(p, outcome) =>
      match s.handlers[p]
      case Handling(_, _) => HandlingKeepsInv(s, p, outcome);
      case Notifying(_, _, _) => NotifyingKeepsInv(s, p, outcome);
      case Acking(_, _) => AckingKeepsInv(s, p, outcome);
      case Failing(_, _, _) => FailingKeepsInv(s, p, outcome);
      case DeadLettering(_, _, _) => DeadLetteringKeepsInv(s, p, outcome);
      case Naking(_, _) => NakingKeepsInv(s, p, outcome);
      case _ => FloatingKeepsInv(s, p, outcome);
  }

  lemma {:induction false} RunKeepsInv(s: State, run: seq<Action>)
    requires Inv(s) && Legal(s, run)
    ensures Inv(Final(s, run))
    decreases |run|
  {
    if run != [] {
      StepKeepsInv(s, run[0]);
      RunKeepsInv(Apply(s, run[0]), run[1..]);
    }
  }

  lemma ReachableInv(s: State)
    requires Reachable(s)
    ensures Inv(s)
  {
    var max, run :| Legal(Initial(max), run) && Final(Initial(max), run) == s;
    RunKeepsInv(Initial(max), run);
  }

  // ---------- Guarantees ----------

  // Every event in the stream was made by the payment service.
  predicate FromPayments(s: State) {
    forall i :: 0 <= i < |s.stream| && s.stream[i].Completed? && s.stream[i].payload.Event? ==>
      s.stream[i].payload.event.messageID == MessageID(s.stream[i].payload.event.orderID)
  }

  predicate InStream(stream: seq<Entry>, e: PaymentCompleted) {
    exists m :: 0 <= m < |stream| && stream[m].Completed? && stream[m].payload == Event(e)
  }

  // Everything that was notified came out of the stream.
  predicate SentFromStream(s: State) {
    forall i :: 0 <= i < |s.sent| ==> InStream(s.stream, s.sent[i])
  }

  lemma StepKeepsStream(s: State, a: Action)
    requires Enabled(s, a)
    ensures s.stream <= Apply(s, a).stream
  {
  }

  lemma LongerStream(stream: seq<Entry>, longer: seq<Entry>, e: PaymentCompleted)
    requires stream <= longer && InStream(stream, e)
    ensures InStream(longer, e)
  {
    var m :| 0 <= m < |stream| && stream[m].Completed? && stream[m].payload == Event(e);
    assert longer[m] == stream[m];
  }

  lemma StepSendsFromStream(s: State, a: Action)
    requires Inv(s) && Enabled(s, a) && SentFromStream(s)
    ensures SentFromStream(Apply(s, a))
  {
    StepKeepsStream(s, a);
    forall e | InStream(s.stream, e) ensures InStream(Apply(s, a).stream, e) {
      LongerStream(s.stream, Apply(s, a).stream, e);
    }
    if a.Step? && s.handlers[a.p].Notifying? {
      assert HandlerOK(s, s.handlers[a.p]);
      assert s.stream[s.handlers[a.p].m].payload == Event(s.handlers[a.p].event);
    }
  }

  lemma {:induction false} RunSendsFromStream(s: State, run: seq<Action>)
    requires Inv(s) && Legal(s, run) && SentFromStream(s)
    ensures SentFromStream(Final(s, run))
    decreases |run|
  {
    if run != [] {
      StepSendsFromStream(s, run[0]);
      StepKeepsInv(s, run[0]);
      RunSendsFromStream(Apply(s, run[0]), run[1..]);
    }
  }

  // At most one "notification sent" per message, and per order if the events come from the payment
  // service: through republishing after the duplicate window, redelivery, overlapping handlers,
  // ambiguous database answers and crashes.
  lemma NotifiedAtMostOnce(s: State, i: nat, j: nat)
    requires Reachable(s) && i < |s.sent| && j < |s.sent| && i != j
    ensures s.sent[i].messageID != s.sent[j].messageID
    ensures FromPayments(s) ==> s.sent[i].orderID != s.sent[j].orderID
  {
    var max, run :| Legal(Initial(max), run) && Final(Initial(max), run) == s;
    RunKeepsInv(Initial(max), run);
    RunSendsFromStream(Initial(max), run);
    assert s.sent[i].messageID != s.sent[j].messageID;
    var m :| 0 <= m < |s.stream| && s.stream[m].Completed? && s.stream[m].payload == Event(s.sent[i]);
    var k :| 0 <= k < |s.stream| && s.stream[k].Completed? && s.stream[k].payload == Event(s.sent[j]);
  }

  // An acknowledged message is recorded as processed or dead-lettered, unless an event was published
  // under the very id that its own dead letter would have.
  lemma AckedIsRecorded(s: State, m: nat)
    requires Reachable(s) && m < |s.stream| && m < |s.progress| && s.progress[m].Acked?
    ensures Recorded(s, m) || Shadowed(s, m)
  {
    ReachableInv(s);
  }

  // A given-up message has had all its deliveries, and the last one met a fault: no metadata, a
  // failed dead-letter publish, a failed ack, a crash, or a handler slower than the ack wait.
  lemma ExhaustedHasFault(s: State, m: nat)
    requires Reachable(s) && m < |s.progress|
    ensures s.progress[m].count <= s.maxDeliver
    ensures s.progress[m].Exhausted? ==> s.progress[m].count == s.maxDeliver && m in s.faults
  {
    ReachableInv(s);
    assert ProgressOK(s.maxDeliver, s.faults, s.handlers, m, s.progress[m]);
  }

  function Deliveries(run: seq<Action>, m: nat): nat {
    if run == [] then 0 else (if run[0].Deliver? && run[0].m == m then 1 else 0) + Deliveries(run[1..], m)
  }

  predicate Over(progress: Progress) {
    progress.Acked? || progress.Exhausted?
  }

  lemma StepCountsDeliveries(s: State, a: Action, m: nat)
    requires Inv(s) && Enabled(s, a) && m < |s.progress|
    ensures var s' := Apply(s, a);
            && m < |s'.progress| && s'.maxDeliver == s.maxDeliver
            && s'.progress[m].count == s.progress[m].count + Deliveries([a], m)
            && (Over(s.progress[m]) ==> s'.progress[m] == s.progress[m])
  {
    assert [a][1..] == [];
    if a.Step? {
      HandlerCountsNothing(s, a.p, a.outcome, m);
    }
  }

  lemma HandlerCountsNothing(s: State, p: nat, outcome: Outcome, m: nat)
    requires Enabled(s, Step(p, outcome)) && m < |s.progress|
    ensures var s' := StepHandler(s, p, outcome);
            && m < |s'.progress| && s'.maxDeliver == s.maxDeliver
            && s'.progress[m].count == s.progress[m].count
            && (Over(s.progress[m]) ==> s'.progress[m] == s.progress[m])
  {
    match s.handlers[p]
    case Handling(_, _) =>
    case Acking(_, _) =>
    case _ =>
  }

  // Handling stops: from any reachable state a message is delivered at most as often as MaxDeliver
  // leaves over, and an acknowledged or given-up message is never delivered again.
  lemma {:induction false} DeliveriesAreBounded(s: State, run: seq<Action>, m: nat)
    requires Inv(s) && Legal(s, run) && m < |s.progress|
    ensures var f := Final(s, run);
            && m < |f.progress|
            && s.progress[m].count + Deliveries(run, m) == f.progress[m].count <= s.maxDeliver
            && (Over(s.progress[m]) ==> f.progress[m] == s.progress[m])
    decreases |run|
  {
    if run == [] {
      assert ProgressOK(s.maxDeliver, s.faults, s.handlers, m, s.progress[m]);
    } else {
      StepCountsDeliveries(s, run[0], m);
      assert [run[0]][1..] == [];
      StepKeepsInv(s, run[0]);
      DeliveriesAreBounded(Apply(s, run[0]), run[1..], m);
    }
  }

  lemma {:induction false} RunThenStep(s: State, run: seq<Action>, a: Action)
    requires Legal(s, run) && Enabled(Final(s, run), a)
    ensures Legal(s, run + [a]) && Final(s, run + [a]) == Apply(Final(s, run), a)
    decreases |run|
  {
    if run != [] {
      RunThenStep(Apply(s, run[0]), run[1..], a);
      assert (run + [a])[1..] == run[1..] + [a];
    }
  }

  lemma Reach(s: State, a: Action, s': State)
    requires Reachable(s) && Enabled(s, a) && s' == Apply(s, a)
    ensures Reachable(s')
  {
    var max, run :| Legal(Initial(max), run) && Final(Initial(max), run) == s;
    RunThenStep(Initial(max), run, a);
  }
}
