// Orders and payments as a step-level transition system. Any number of Create, Cancel and
// Authorize calls overlap; one step is one SQL statement, one RPC message or one publish. Any call
// may crash between two steps, and the answer to a statement may get lost while the statement is
// still under way.

module Settlement {
  import opened Common
  import opened Domain
  import F = Fingerprint

  const LIMIT := 100000

  // ---------- Tables ----------

  // byKey is the unique index on idempotency_key; events is what the PAYMENTS stream holds for
  // payment.completed, deadLetters the ids of the dead letters in the same stream; uuids are the
  // identifiers generated so far.
  datatype Tables = Tables(orders: map<string, Order>, byKey: map<string, string>, payments: map<string, Payment>,
                           events: set<PaymentCompleted>, deadLetters: set<string>, uuids: set<string>)

  datatype Statement =
    | InsertOrder(order: Order)
    | MarkOrder(id: string, status: Status, transactionID: string)
    | CancelOrder(id: string)
    | InsertPayment(payment: Payment)
    | StoreEvent(event: PaymentCompleted)

  // The CHECK constraint, and that a text value cannot hold a NUL.
  predicate Storable(o: Order) {
    o.amount > 0 && F.NulFree(o.customerID) && F.NulFree(o.itemName)
  }

  // A statement that violates a constraint or finds no row changes nothing.
  function Execute(t: Tables, stmt: Statement): Tables {
    match stmt
    case InsertOrder(o) =>
      if o.idempotencyKey in t.byKey || o.id in t.orders || !Storable(o) then t
      else t.(orders := t.orders[o.id := o], byKey := t.byKey[o.idempotencyKey := o.id])
    case MarkOrder(id, status, transactionID) =>
      if id !in t.orders then t
      else t.(orders := t.orders[id := t.orders[id].(status := status, paymentTransactionID := transactionID)])
    case CancelOrder(id) =>
      if id !in t.orders then t
      else t.(orders := t.orders[id := t.orders[id].(status := Cancelled)])
    case InsertPayment(p) =>
      if p.orderID in t.payments || p.amount <= 0 then t
      else t.(payments := t.payments[p.orderID := p])
    case StoreEvent(e) => t.(events := t.events + {e})
  }

  // ---------- Calls ----------

  // gRPC status codes of a failed ProcessPayment.
  datatype Code = Unavailable | DeadlineExceeded | Canceled | InvalidArgument | NotFound | Internal

  predicate IsUnavailable(code: Code) {
    code == Canceled || code == DeadlineExceeded || code == Unavailable
  }

  datatype Reply =
    | Processed(orderID: string, status: PaymentStatus, transactionID: string)
    | Refused(orderID: string, code: Code)

  datatype CreateResult = Returned(order: Order) | PaymentUnavailable(order: Order) | KeyConflict | CreateError
  datatype CancelResult = CancelReturned(order: Order) | OrderNotFound | StateConflict | CancelError
  datatype AuthorizeResult = Granted(payment: Payment) | PublishFailed | AuthorizeError

  // Program points of the calls. created is the flag the call will report.
  datatype Proc =
    | Lookup(input: CreateOrderInput)
    | Insert(input: CreateOrderInput, order: Order)
    | Reload(input: CreateOrderInput)
    | Call(input: CreateOrderInput, order: Order, created: bool)
    | Await(input: CreateOrderInput, order: Order, created: bool)
    | Mark(input: CreateOrderInput, order: Order, created: bool, status: Status, transactionID: string)
    | CreateDone(input: CreateOrderInput, created: bool, result: CreateResult)
    | CancelLoad(id: string)
    | CancelUpdate(id: string)
    | CancelDone(id: string, cancelResult: CancelResult)
    | Process(request: AuthorizeInput)
    | Authorize(request: AuthorizeInput)
    | InsertPay(request: AuthorizeInput, payment: Payment)
    | ReloadPay(request: AuthorizeInput)
    | Publish(request: AuthorizeInput, payment: Payment, created: bool)
    | AuthorizeDone(request: AuthorizeInput, created: bool, authorizeResult: AuthorizeResult)
    | InFlight(statement: Statement)

  // requests: what the order service has sent to ProcessPayment; replies: what was answered;
  // direct: some payment was requested by somebody else than the order service.
  datatype State = State(t: Tables, procs: map<nat, Proc>, requests: set<AuthorizeInput>, replies: set<Reply>, direct: bool)

  // How one step goes. Lost(q): the caller sees an error, its statement goes on as process q.
  // Duplicate: the broker has seen the message id before, of an event or of a dead letter, and stores
  // nothing.
  datatype Outcome = Ok | Err | Lost(q: nat) | Duplicate

  datatype Action =
    | Start(p: nat, proc: Proc)
    | Step(p: nat, outcome: Outcome, uuid: string)
    | Receive(p: nat, reply: Reply)
    | CallFails(p: nat, code: Code)
    | Crash(p: nat)
    | DeadLetter(event: PaymentCompleted)

  function Initial(): State {
    State(Tables(map[], map[], map[], {}, {}, {}), map[], {}, {}, false)
  }

  function NewOrder(input: CreateOrderInput, id: string): Order {
    Order(id, input.customerID, input.itemName, input.amount, Pending, input.idempotencyKey,
          RequestFingerprint(input), "")
  }

  // The hash is represented by the string that is hashed.
  function RequestFingerprint(input: CreateOrderInput): string {
    F.PreHash(input.customerID, input.itemName, input.amount)
  }

  function Decide(request: AuthorizeInput, uuid: string): Payment {
    if request.amount > LIMIT then Payment(request.orderID, request.amount, Declined, "")
    else Payment(request.orderID, request.amount, Authorized, uuid)
  }

  // GetByIdempotencyKey
  function FindByKey(t: Tables, key: string): Option<Order> {
    if key in t.byKey && t.byKey[key] in t.orders then Some(t.orders[t.byKey[key]]) else None
  }

  // What Create does with an order it found under its key.
  function Resume(input: CreateOrderInput, existing: Order): Proc {
    if existing.requestFingerprint != RequestFingerprint(input) then CreateDone(input, false, KeyConflict)
    else if existing.status != Pending then CreateDone(input, false, Returned(existing))
    else Call(input, existing, false)
  }

  predicate Finished(proc: Proc) {
    proc.CreateDone? || proc.CancelDone? || proc.AuthorizeDone?
  }

  // The statement that the next step of a process executes, if it writes.
  function Writes(proc: Proc): Option<Statement> {
    match proc
    case Insert(_, o) => Some(InsertOrder(o))
    case Mark(_, o, _, status, tx) => Some(MarkOrder(o.id, status, tx))
    case CancelUpdate(id) => Some(CancelOrder(id))
    case InsertPay(_, payment) => Some(InsertPayment(payment))
    case Publish(request, payment, _) => Some(StoreEvent(CompletedEvent(payment, request.customerEmail)))
    case InFlight(stmt) => Some(stmt)
    case _ => None
  }

  // Where a process goes on after its read, write or publish failed.
  function AfterError(proc: Proc): Proc {
    match proc
    case Lookup(input) => CreateDone(input, false, CreateError)
    case Insert(input, _) => CreateDone(input, false, CreateError)
    case Reload(input) => CreateDone(input, false, CreateError)
    case Mark(input, _, created, _, _) => CreateDone(input, created, CreateError)
    case CancelLoad(id) => CancelDone(id, CancelError)
    case CancelUpdate(id) => CancelDone(id, CancelError)
    case Authorize(request) => AuthorizeDone(request, false, AuthorizeError)
    case InsertPay(request, _) => ReloadPay(request)
    case ReloadPay(request) => AuthorizeDone(request, false, AuthorizeError)
    case Publish(request, _, created) => AuthorizeDone(request, created, PublishFailed)
    case _ => proc
  }

  // Where it goes on after success; t are the tables before the step.
  function AfterOk(t: Tables, proc: Proc, uuid: string): Proc
  {
    match proc
    case Lookup(input) =>
      var existing := FindByKey(t, input.idempotencyKey);
      if existing.Some? then Resume(input, existing.value) else Insert(input, NewOrder(input, uuid))
    case Insert(input, o) =>
      if o.idempotencyKey in t.byKey || o.id in t.orders then Reload(input)
      else if !Storable(o) then CreateDone(input, false, CreateError)
      else Call(input, o, true)
    case Reload(input) =>
      var existing := FindByKey(t, input.idempotencyKey);
      if existing.Some? then Resume(input, existing.value) else CreateDone(input, false, CreateError)
    case Call(input, o, created) =>
      if o.id == "" || o.amount <= 0 then CreateDone(input, created, CreateError)
      else Await(input, o, created)
    case Mark(input, o, created, status, tx) =>
      if o.id in t.orders
      then CreateDone(input, created, Returned(t.orders[o.id].(status := status, paymentTransactionID := tx)))
      else CreateDone(input, created, CreateError)
    case CancelLoad(id) =>
      if id !in t.orders then CancelDone(id, OrderNotFound)
      else if t.orders[id].status != Pending then CancelDone(id, StateConflict)
      else CancelUpdate(id)
    case CancelUpdate(id) =>
      if id in t.orders then CancelDone(id, CancelReturned(t.orders[id].(status := Cancelled)))
      else CancelDone(id, CancelError)
    case Process(request) =>
      if Blank(request.orderID) || request.amount <= 0 then AuthorizeDone(request, false, AuthorizeError)
      else Authorize(request)
    case Authorize(request) =>
      if request.orderID in t.payments then Publish(request, t.payments[request.orderID], false)
      else InsertPay(request, Decide(request, uuid))
    case InsertPay(request, payment) =>
      if payment.orderID in t.payments || payment.amount <= 0 then ReloadPay(request)
      else Publish(request, payment, true)
    case ReloadPay(request) =>
      if request.orderID in t.payments then Publish(request, t.payments[request.orderID], false)
      else AuthorizeDone(request, false, AuthorizeError)
    case Publish(request, payment, created) => AuthorizeDone(request, created, Granted(payment))
    case _ => proc
  }

  // What ProcessPayment answers when its call to Authorize has ended (mapPayment, mapError).
  function ReplyOf(proc: Proc): Option<Reply> {
    match proc
    case AuthorizeDone(_, _, Granted(payment)) => Some(Processed(payment.orderID, payment.status, payment.transactionID))
    case AuthorizeDone(request, _, PublishFailed) => Some(Refused(request.orderID, Unavailable))
    case AuthorizeDone(request, _, AuthorizeError) =>
      Some(Refused(request.orderID, if Blank(request.orderID) || request.amount <= 0 then InvalidArgument else Internal))
    case _ => None
  }

  // Records the new program point and the reply, if the call has ended with one.
  function GoOn(s: State, p: nat, proc: Proc): State {
    s.(procs := s.procs[p := proc],
       replies := s.replies + (if ReplyOf(proc).Some? then {ReplyOf(proc).value} else {}))
  }

  predicate FreshUuid(t: Tables, uuid: string) {
    IsUuid(uuid) && uuid !in t.uuids
  }

  // What the duplicate window can hold: the ids of everything in the stream, events or dead letters.
  predicate InWindow(t: Tables, messageID: string) {
    messageID in t.deadLetters || exists e :: e in t.events && e.messageID == messageID
  }

  predicate Enabled(s: State, a: Action) {
    match a
    case Start(p, proc) =>
      && p !in s.procs
      && (proc.Lookup? || proc.CancelLoad? || (proc.Process? && proc.request in s.requests) || proc.Authorize?)
    case Step(p, outcome, uuid) =>
      && p in s.procs && !Finished(s.procs[p]) && !s.procs[p].Await?
      && FreshUuid(s.t, uuid)
      && (outcome.Lost? ==> Writes(s.procs[p]).Some? && !s.procs[p].InFlight? && outcome.q !in s.procs)
      && (outcome == Duplicate ==>
            s.procs[p].Publish? && InWindow(s.t, MessageID(s.procs[p].payment.orderID)))
      && (outcome == Err ==> !s.procs[p].Call? && !s.procs[p].Process?)
    case Receive(p, reply) =>
      p in s.procs && s.procs[p].Await? && reply in s.replies && reply.orderID == s.procs[p].order.id
    case CallFails(p, _) => p in s.procs && s.procs[p].Await?
    case Crash(p) => p in s.procs && !Finished(s.procs[p])
    case DeadLetter(event) => event in s.t.events
  }

  predicate Indexed(t: Tables) {
    && (forall k :: k in t.byKey ==> t.byKey[k] in t.orders && t.orders[t.byKey[k]].idempotencyKey == k)
    && (forall id :: id in t.orders ==>
          t.orders[id].idempotencyKey in t.byKey && t.byKey[t.orders[id].idempotencyKey] == id)
  }

  // The tables and requests after a successful step.
  function TablesAfter(t: Tables, proc: Proc, uuid: string): Tables {
    var t' := if Writes(proc).Some? then Execute(t, Writes(proc).value) else t;
    t'.(uuids := t'.uuids + if proc.Lookup? || proc.Authorize? then {uuid} else {})
  }

  function RequestsAfter(requests: set<AuthorizeInput>, proc: Proc): set<AuthorizeInput> {
    requests + if proc.Call? then {AuthorizeInput(proc.order.id, proc.order.amount, proc.order.customerID)} else {}
  }

  function StepProc(s: State, p: nat, outcome: Outcome, uuid: string): State
    requires Enabled(s, Step(p, outcome, uuid))
  {
    var proc := s.procs[p];
    match outcome
    case Err => GoOn(s, p, AfterError(proc))
    case Lost(q) => GoOn(GoOn(s, p, AfterError(proc)), q, InFlight(Writes(proc).value))
    case Duplicate => GoOn(s, p, AfterOk(s.t, proc, uuid))
    case Ok =>
      if proc.InFlight? then s.(t := Execute(s.t, proc.statement), procs := s.procs - {p})
      else GoOn(s.(t := TablesAfter(s.t, proc, uuid), requests := RequestsAfter(s.requests, proc)), p, AfterOk(s.t, proc, uuid))
  }

  function Apply(s: State, a: Action): State
    requires Enabled(s, a)
  {
    match a
    case Start(p, proc) => s.(procs := s.procs[p := proc], direct := s.direct || proc.Authorize?)
    case Step(p, outcome, uuid) => StepProc(s, p, outcome, uuid)
    case Receive(p, reply) =>
      GoOn(s, p, Answered(s.procs[p], reply))
    case CallFails(p, code) =>
      var Await(input, o, created) := s.procs[p];
      GoOn(s, p, CreateDone(input, created, CallFailure(o, code)))
    case Crash(p) => s.(procs := s.procs - {p})
    case DeadLetter(event) => s.(t := s.t.(deadLetters := s.t.deadLetters + {DlqID(event.messageID)}))
  }

  // What a call does with the answer of ProcessPayment.
  function Answered(proc: Proc, reply: Reply): Proc
    requires proc.Await?
  {
    var Await(input, o, created) := proc;
    match reply
    case Processed(_, Authorized, tx) => Mark(input, o, created, Paid, tx)
    case Processed(_, Declined, _) => Mark(input, o, created, Failed, "")
    case Refused(_, code) => CreateDone(input, created, CallFailure(o, code))
  }

  function CallFailure(o: Order, code: Code): CreateResult {
    if IsUnavailable(code) then PaymentUnavailable(o) else CreateError
  }

  // ---------- Runs ----------

  ghost predicate Legal(s: State, run: seq<Action>)
    decreases |run|
  {
    run == [] || (Enabled(s, run[0]) && Legal(Apply(s, run[0]), run[1..]))
  }

  ghost function Final(s: State, run: seq<Action>): State
    requires Legal(s, run)
    decreases |run|
  {
    if run == [] then s else Final(Apply(s, run[0]), run[1..])
  }

  ghost predicate Reachable(s: State) {
    exists run :: Legal(Initial(), run) && Final(Initial(), run) == s
  }

  lemma {:induction false} RunThenStep(s: State, run: seq<Action>, a: Action)
    requires Legal(s, run) && Enabled(Final(s, run), a)
    ensures Legal(s, run + [a]) && Final(s, run + [a]) == Apply(Final(s, run), a)
    decreases |run|
  {
    if run != [] {
      RunThenStep(Apply(s, run[0]), run[1..], a);
      assert (run + [a])[1..] == run[1..] + [a];
    }
  }

  lemma ReachStep(s: State, a: Action)
    requires Reachable(s) && Enabled(s, a)
    ensures Reachable(Apply(s, a))
  {
    var run :| Legal(Initial(), run) && Final(Initial(), run) == s;
    RunThenStep(Initial(), run, a);
  }

  // ---------- The invariant: tables ----------

  ghost predicate EventStored(t: Tables, orderID: string) {
    exists e :: e in t.events && e.orderID == orderID
  }

  // The payment decision for an order is stored and its event is in the stream, or a dead letter has
  // the event's id.
  ghost predicate Announced(t: Tables, orderID: string) {
    orderID in t.payments && (EventStored(t, orderID) || MessageID(orderID) in t.deadLetters)
  }

  // The id of a dead letter is the id of the event of some order whose id ends in ":dlq".
  ghost predicate DeadLetterOK(id: string) {
    exists orderID :: id == MessageID(orderID + ":dlq")
  }

  lemma UuidIsAnnounced(t: Tables, orderID: string)
    requires TablesOK(t) && Announced(t, orderID) && !EndsInDlq(orderID)
    ensures EventStored(t, orderID)
  {
    if MessageID(orderID) in t.deadLetters {
      var o :| MessageID(orderID) == MessageID(o + ":dlq");
      MessageIDInjective(orderID, o + ":dlq");
      DlqEnds(o);
    }
  }

  // What the status and transaction id of an order say about its payment.
  ghost predicate Settled(t: Tables, id: string, status: Status, transactionID: string) {
    match status
    case Pending => transactionID == ""
    case Paid =>
      Announced(t, id) && t.payments[id].status == Authorized && transactionID == t.payments[id].transactionID
    case Failed => Announced(t, id) && t.payments[id].status == Declined && transactionID == ""
    case Cancelled =>
      transactionID == "" ||
      (Announced(t, id) && t.payments[id].status == Authorized && transactionID == t.payments[id].transactionID)
  }

  ghost predicate OrderOK(t: Tables, o: Order) {
    && Storable(o)
    && o.id in t.uuids && IsUuid(o.id)
    && o.requestFingerprint == F.PreHash(o.customerID, o.itemName, o.amount)
    && Settled(t, o.id, o.status, o.paymentTransactionID)
  }

  predicate Decided(p: Payment) {
    && (p.status == Authorized <==> p.amount <= LIMIT)
    && (p.status == Authorized <==> p.transactionID != "")
  }

  predicate EventOK(t: Tables, e: PaymentCompleted) {
    e.orderID in t.payments && e == CompletedEvent(t.payments[e.orderID], e.customerEmail)
  }

  ghost predicate TablesOK(t: Tables) {
    && Indexed(t)
    && (forall id :: id in t.orders ==> t.orders[id].id == id && OrderOK(t, t.orders[id]))
    && (forall id :: id in t.payments ==>
          t.payments[id].orderID == id && Decided(t.payments[id]) && t.payments[id].amount > 0)
    && (forall e :: e in t.events ==> EventOK(t, e))
    && (forall id :: id in t.deadLetters ==> DeadLetterOK(id))
  }

  // ---------- The invariant: calls ----------

  predicate SameRequest(a: Order, b: Order) {
    b == a.(status := b.status, paymentTransactionID := b.paymentTransactionID)
  }

  // The order is stored, with these data, and belongs to the request.
  predicate Found(t: Tables, input: CreateOrderInput, o: Order) {
    && o.id in t.orders && SameRequest(o, t.orders[o.id])
    && o.idempotencyKey == input.idempotencyKey
    && o.requestFingerprint == RequestFingerprint(input)
  }

  ghost predicate StatementOK(t: Tables, stmt: Statement) {
    match stmt
    case InsertOrder(o) =>
      o.id in t.uuids && IsUuid(o.id) && o.status == Pending && o.paymentTransactionID == ""
      && o.requestFingerprint == F.PreHash(o.customerID, o.itemName, o.amount)
    case MarkOrder(id, status, tx) => id in t.orders && (status == Paid || status == Failed) && Settled(t, id, status, tx)
    case CancelOrder(id) => id in t.orders
    case InsertPayment(p) => Decided(p)
    case StoreEvent(e) => EventOK(t, e)
  }

  ghost predicate ProcOK(t: Tables, requests: set<AuthorizeInput>, proc: Proc) {
    && (Writes(proc).Some? ==> StatementOK(t, Writes(proc).value))
    && match proc
       case Insert(input, o) => o == NewOrder(input, o.id)
       case Call(input, o, created) => Found(t, input, o) && o.amount > 0 && IsUuid(o.id)
       case Await(input, o, created) =>
         Found(t, input, o) && AuthorizeInput(o.id, o.amount, o.customerID) in requests
       case Mark(input, o, created, status, tx) => Found(t, input, o)
       case CreateDone(input, created, result) =>
         && (created ==> input.idempotencyKey in t.byKey)
         && (result.Returned? ==>
               Found(t, input, result.order) && result.order.status != Pending
               && Settled(t, result.order.id, result.order.status, result.order.paymentTransactionID))
         && (result.PaymentUnavailable? ==> Found(t, input, result.order))
       case InsertPay(request, p) => p.orderID == request.orderID && p.amount == request.amount
       case Publish(request, p, created) => request.orderID in t.payments && p == t.payments[request.orderID]
       case AuthorizeDone(request, created, result) =>
         && (created ==> request.orderID in t.payments)
         && (result.Granted? ==> Announced(t, request.orderID) && result.payment == t.payments[request.orderID])
       case _ => true
  }

  ghost predicate ReplyOK(t: Tables, reply: Reply) {
    reply.Processed? ==>
      Announced(t, reply.orderID)
      && reply.status == t.payments[reply.orderID].status
      && reply.transactionID == t.payments[reply.orderID].transactionID
  }

  // The key (order id) of which a call will report that it created the order (payment).
  function CreatorOf(proc: Proc): Option<string> {
    match proc
    case Call(input, _, true) => Some(input.idempotencyKey)
    case Await(input, _, true) => Some(input.idempotencyKey)
    case Mark(input, _, true, _, _) => Some(input.idempotencyKey)
    case CreateDone(input, true, _) => Some(input.idempotencyKey)
    case _ => None
  }

  function PayerOf(proc: Proc): Option<string> {
    match proc
    case Publish(request, _, true) => Some(request.orderID)
    case AuthorizeDone(request, true, _) => Some(request.orderID)
    case _ => None
  }

  predicate OneCreator(procs: map<nat, Proc>) {
    forall p, q :: p in procs && q in procs && p != q && CreatorOf(procs[p]).Some? ==>
      CreatorOf(procs[p]) != CreatorOf(procs[q])
  }

  predicate OnePayer(procs: map<nat, Proc>) {
    forall p, q :: p in procs && q in procs && p != q && PayerOf(procs[p]).Some? ==>
      PayerOf(procs[p]) != PayerOf(procs[q])
  }

  ghost predicate Inv(s: State) {
    && TablesOK(s.t)
    && (forall p :: p in s.procs ==> ProcOK(s.t, s.requests, s.procs[p]))
    && (forall r :: r in s.replies ==> ReplyOK(s.t, r))
    && OneCreator(s.procs)
    && OnePayer(s.procs)
  }

  // ---------- What every step keeps of the tables ----------

  // No row is deleted, a payment is never changed, an order only in its status and transaction id.
  predicate Grows(t: Tables, t': Tables) {
    && (forall id :: id in t.orders ==> id in t'.orders && SameRequest(t.orders[id], t'.orders[id]))
    && (forall k :: k in t.byKey ==> k in t'.byKey && t'.byKey[k] == t.byKey[k])
    && (forall id :: id in t.payments ==> id in t'.payments && t'.payments[id] == t.payments[id])
    && t.events <= t'.events && t.deadLetters <= t'.deadLetters
    && t.uuids <= t'.uuids
  }

  lemma ExecuteGrows(t: Tables, stmt: Statement)
    requires TablesOK(t) && StatementOK(t, stmt)
    ensures Grows(t, Execute(t, stmt))
  {
    OrdersGrow(t, stmt);
  }

  lemma OrdersGrow(t: Tables, stmt: Statement)
    ensures var t' := Execute(t, stmt);
            && (forall id :: id in t.orders ==> id in t'.orders && SameRequest(t.orders[id], t'.orders[id]))
            && (forall k :: k in t.byKey ==> k in t'.byKey && t'.byKey[k] == t.byKey[k])
  {
  }

  lemma SettledGrows(t: Tables, t': Tables, id: string, status: Status, tx: string)
    requires Grows(t, t') && Settled(t, id, status, tx)
    ensures Settled(t', id, status, tx)
  {
  }

  lemma ProcGrows(t: Tables, t': Tables, requests: set<AuthorizeInput>, requests': set<AuthorizeInput>, proc: Proc)
    requires Grows(t, t') && requests <= requests' && ProcOK(t, requests, proc)
    ensures ProcOK(t', requests', proc)
  {
  }

  lemma ExecuteKeepsOrder(t: Tables, stmt: Statement, id: string)
    requires TablesOK(t) && StatementOK(t, stmt) && id in Execute(t, stmt).orders
    ensures var t' := Execute(t, stmt); t'.orders[id].id == id && OrderOK(t', t'.orders[id])
  {
    var t' := Execute(t, stmt);
    if id in t.orders && t'.orders[id] == t.orders[id] {
      ExecuteGrows(t, stmt);
      OrderGrows(t, t', t.orders[id]);
    } else if id in t.orders {
      UpdatedOrderOK(t, stmt, id);
    }
  }

  lemma OrderGrows(t: Tables, t': Tables, o: Order)
    requires Grows(t, t') && OrderOK(t, o)
    ensures OrderOK(t', o)
  {
    SettledGrows(t, t', o.id, o.status, o.paymentTransactionID);
  }

  lemma UpdatedOrderOK(t: Tables, stmt: Statement, id: string)
    requires StatementOK(t, stmt) && (stmt.MarkOrder? || stmt.CancelOrder?) && stmt.id == id
    requires id in t.orders && t.orders[id].id == id && OrderOK(t, t.orders[id])
    ensures var t' := Execute(t, stmt); t'.orders[id].id == id && OrderOK(t', t'.orders[id])
  {
    var t' := Execute(t, stmt);
    assert t'.payments == t.payments && t'.events == t.events && t'.deadLetters == t.deadLetters && t'.uuids == t.uuids;
  }

  lemma ExecuteKeepsTables(t: Tables, stmt: Statement)
    requires TablesOK(t) && StatementOK(t, stmt)
    ensures TablesOK(Execute(t, stmt))
  {
    var t' := Execute(t, stmt);
    forall id | id in t'.orders ensures t'.orders[id].id == id && OrderOK(t', t'.orders[id]) {
      ExecuteKeepsOrder(t, stmt, id);
    }
    ExecuteKeepsIndex(t, stmt);
    ExecuteKeepsPayments(t, stmt);
  }

  lemma ExecuteKeepsIndex(t: Tables, stmt: Statement)
    requires TablesOK(t) && StatementOK(t, stmt)
    ensures Indexed(Execute(t, stmt))
  {
    if stmt.InsertOrder? {
      InsertKeepsIndex(t, stmt.order);
    } else {
      UpdateKeepsIndex(t, stmt);
    }
  }

  lemma UpdateKeepsIndex(t: Tables, stmt: Statement)
    requires Indexed(t) && !stmt.InsertOrder?
    ensures Indexed(Execute(t, stmt))
  {
    OrdersGrow(t, stmt);
    assert Execute(t, stmt).orders.Keys == t.orders.Keys && Execute(t, stmt).byKey == t.byKey;
  }

  lemma InsertKeepsIndex(t: Tables, o: Order)
    requires Indexed(t)
    ensures Indexed(Execute(t, InsertOrder(o)))
  {
  }

  lemma ExecuteKeepsPayments(t: Tables, stmt: Statement)
    requires TablesOK(t) && StatementOK(t, stmt)
    ensures var t' := Execute(t, stmt);
            && (forall id :: id in t'.payments ==>
                  t'.payments[id].orderID == id && Decided(t'.payments[id]) && t'.payments[id].amount > 0)
            && (forall e :: e in t'.events ==> EventOK(t', e))
  {
  }

  // ---------- Every step keeps the invariant ----------

  lemma GoOnKeepsInv(s: State, p: nat, proc: Proc)
    requires Inv(s) && ProcOK(s.t, s.requests, proc)
    requires CreatorOf(proc).Some? ==> forall q :: q in s.procs && q != p ==> CreatorOf(s.procs[q]) != CreatorOf(proc)
    requires PayerOf(proc).Some? ==> forall q :: q in s.procs && q != p ==> PayerOf(s.procs[q]) != PayerOf(proc)
    ensures Inv(GoOn(s, p, proc))
  {
    GoOnKeepsCreators(s.procs, p, proc);
  }

  lemma GoOnKeepsCreators(procs: map<nat, Proc>, p: nat, proc: Proc)
    requires OneCreator(procs) && OnePayer(procs)
    requires CreatorOf(proc).Some? ==> forall q :: q in procs && q != p ==> CreatorOf(procs[q]) != CreatorOf(proc)
    requires PayerOf(proc).Some? ==> forall q :: q in procs && q != p ==> PayerOf(procs[q]) != PayerOf(proc)
    ensures OneCreator(procs[p := proc]) && OnePayer(procs[p := proc])
  {
  }

  lemma GrowKeepsInv(s: State, t': Tables, requests': set<AuthorizeInput>)
    requires Inv(s) && TablesOK(t') && Grows(s.t, t') && s.requests <= requests'
    ensures Inv(s.(t := t', requests := requests'))
  {
    forall p | p in s.procs ensures ProcOK(t', requests', s.procs[p]) {
      ProcGrows(s.t, t', s.requests, requests', s.procs[p]);
    }
  }

  lemma UuidKeepsTables(t: Tables, uuids: set<string>)
    requires TablesOK(t)
    ensures TablesOK(t.(uuids := t.uuids + uuids)) && Grows(t, t.(uuids := t.uuids + uuids))
  {
    var t' := t.(uuids := t.uuids + uuids);
    forall id | id in t.orders ensures OrderOK(t', t.orders[id]) {
      SettledGrows(t, t', id, t.orders[id].status, t.orders[id].paymentTransactionID);
    }
  }

  lemma RemoveKeepsInv(s: State, p: nat)
    requires Inv(s)
    ensures Inv(s.(procs := s.procs - {p}))
  {
  }

  // A call that will report created has its row in the table.
  lemma CreatorsAreStored(s: State, q: nat)
    requires Inv(s) && q in s.procs
    ensures CreatorOf(s.procs[q]).Some? ==> CreatorOf(s.procs[q]).value in s.t.byKey
    ensures PayerOf(s.procs[q]).Some? ==> PayerOf(s.procs[q]).value in s.t.payments
  {
  }

  lemma TablesAfterOK(t: Tables, requests: set<AuthorizeInput>, proc: Proc, uuid: string)
    requires TablesOK(t) && ProcOK(t, requests, proc)
    ensures TablesOK(TablesAfter(t, proc, uuid)) && Grows(t, TablesAfter(t, proc, uuid))
  {
    if Writes(proc).Some? {
      ExecuteGrows(t, Writes(proc).value);
      ExecuteKeepsTables(t, Writes(proc).value);
      UuidKeepsTables(Execute(t, Writes(proc).value), {});
    }
    UuidKeepsTables(t, {uuid});
    UuidKeepsTables(t, {});
  }

  lemma AfterErrorOK(t: Tables, requests: set<AuthorizeInput>, proc: Proc)
    requires TablesOK(t) && ProcOK(t, requests, proc)
    ensures ProcOK(t, requests, AfterError(proc))
    ensures CreatorOf(AfterError(proc)).Some? ==> CreatorOf(AfterError(proc)) == CreatorOf(proc)
    ensures PayerOf(AfterError(proc)).Some? ==> PayerOf(AfterError(proc)) == PayerOf(proc)
  {
  }

  lemma ReadOK(t: Tables, requests: set<AuthorizeInput>, proc: Proc, uuid: string)
    requires TablesOK(t) && ProcOK(t, requests, proc) && FreshUuid(t, uuid) && Writes(proc).None?
    ensures ProcOK(TablesAfter(t, proc, uuid), RequestsAfter(requests, proc), AfterOk(t, proc, uuid))
  {
    if proc.Lookup? || proc.Reload? {
      LookupOK(t, requests, proc, uuid);
    } else if proc.Call? {
      CallOK(t, requests, proc, uuid);
    } else {
      PaymentReadOK(t, requests, proc, uuid);
    }
  }

  lemma CallOK(t: Tables, requests: set<AuthorizeInput>, proc: Proc, uuid: string)
    requires ProcOK(t, requests, proc) && proc.Call?
    ensures ProcOK(TablesAfter(t, proc, uuid), RequestsAfter(requests, proc), AfterOk(t, proc, uuid))
  {
  }

  lemma PaymentReadOK(t: Tables, requests: set<AuthorizeInput>, proc: Proc, uuid: string)
    requires TablesOK(t) && ProcOK(t, requests, proc) && FreshUuid(t, uuid) && Writes(proc).None?
    requires !proc.Lookup? && !proc.Reload? && !proc.Call?
    ensures ProcOK(TablesAfter(t, proc, uuid), RequestsAfter(requests, proc), AfterOk(t, proc, uuid))
  {
    NextReadOK(t, requests, proc, uuid);
    TablesAfterOK(t, requests, proc, uuid);
    ProcGrows(t, TablesAfter(t, proc, uuid), requests, requests, AfterOk(t, proc, uuid));
  }

  lemma NextReadOK(t: Tables, requests: set<AuthorizeInput>, proc: Proc, uuid: string)
    requires TablesOK(t) && FreshUuid(t, uuid) && Writes(proc).None? && ProcOK(t, requests, proc)
    requires !proc.Lookup? && !proc.Reload? && !proc.Call?
    ensures ProcOK(t, requests, AfterOk(t, proc, uuid))
  {
  }

  lemma LookupOK(t: Tables, requests: set<AuthorizeInput>, proc: Proc, uuid: string)
    requires TablesOK(t) && FreshUuid(t, uuid) && (proc.Lookup? || proc.Reload?)
    ensures ProcOK(TablesAfter(t, proc, uuid), requests, AfterOk(t, proc, uuid))
  {
    if FindByKey(t, proc.input.idempotencyKey).Some? {
      FoundOK(t, requests, proc, uuid);
      UuidKeepsTables(t, {uuid});
      UuidKeepsTables(t, {});
      ProcGrows(t, TablesAfter(t, proc, uuid), requests, requests, AfterOk(t, proc, uuid));
    }
  }

  lemma FoundOK(t: Tables, requests: set<AuthorizeInput>, proc: Proc, uuid: string)
    requires TablesOK(t) && (proc.Lookup? || proc.Reload?) && FindByKey(t, proc.input.idempotencyKey).Some?
    ensures ProcOK(t, requests, AfterOk(t, proc, uuid))
  {
    var o := FindByKey(t, proc.input.idempotencyKey).value;
    assert OrderOK(t, o);
  }

  lemma InsertOK(t: Tables, requests: set<AuthorizeInput>, proc: Proc, uuid: string)
    requires TablesOK(t) && ProcOK(t, requests, proc) && proc.Insert?
    ensures ProcOK(TablesAfter(t, proc, uuid), requests, AfterOk(t, proc, uuid))
  {
    TablesAfterOK(t, requests, proc, uuid);
  }

  lemma MarkOK(t: Tables, requests: set<AuthorizeInput>, proc: Proc, uuid: string)
    requires TablesOK(t) && ProcOK(t, requests, proc) && proc.Mark?
    ensures ProcOK(TablesAfter(t, proc, uuid), requests, AfterOk(t, proc, uuid))
  {
    var t' := TablesAfter(t, proc, uuid);
    TablesAfterOK(t, requests, proc, uuid);
    SettledGrows(t, t', proc.order.id, proc.status, proc.transactionID);
  }

  lemma PaymentStepOK(t: Tables, requests: set<AuthorizeInput>, proc: Proc, uuid: string)
    requires TablesOK(t) && ProcOK(t, requests, proc) && (proc.InsertPay? || proc.CancelUpdate?)
    ensures ProcOK(TablesAfter(t, proc, uuid), requests, AfterOk(t, proc, uuid))
  {
    if proc.InsertPay? {
      InsertPayOK(t, requests, proc, uuid);
    }
  }

  lemma InsertPayOK(t: Tables, requests: set<AuthorizeInput>, proc: Proc, uuid: string)
    requires TablesOK(t) && ProcOK(t, requests, proc) && proc.InsertPay?
    ensures ProcOK(TablesAfter(t, proc, uuid), requests, AfterOk(t, proc, uuid))
  {
    var t' := TablesAfter(t, proc, uuid);
    assert proc.payment.orderID !in t.payments && proc.payment.amount > 0 ==> t'.payments[proc.payment.orderID] == proc.payment;
  }

  lemma PublishOK(t: Tables, requests: set<AuthorizeInput>, proc: Proc, uuid: string)
    requires TablesOK(t) && ProcOK(t, requests, proc) && proc.Publish?
    ensures ProcOK(TablesAfter(t, proc, uuid), requests, AfterOk(t, proc, uuid))
  {
    var t' := TablesAfter(t, proc, uuid);
    assert t'.payments == t.payments;
    assert CompletedEvent(proc.payment, proc.request.customerEmail) in t'.events;
  }

  lemma WriteOK(t: Tables, requests: set<AuthorizeInput>, proc: Proc, uuid: string)
    requires TablesOK(t) && ProcOK(t, requests, proc) && Writes(proc).Some? && !proc.InFlight?
    ensures ProcOK(TablesAfter(t, proc, uuid), requests, AfterOk(t, proc, uuid))
  {
    match proc
    case Insert(_, _) => InsertOK(t, requests, proc, uuid);
    case Mark(_, _, _, _, _) => MarkOK(t, requests, proc, uuid);
    case Publish(_, _, _) => PublishOK(t, requests, proc, uuid);
    case _ => PaymentStepOK(t, requests, proc, uuid);
  }

  // A step makes a call the creator of a row only if the row was not there before.
  lemma StepMakesNewCreator(t: Tables, requests: set<AuthorizeInput>, proc: Proc, uuid: string)
    requires ProcOK(t, requests, proc)
    ensures var next := CreatorOf(AfterOk(t, proc, uuid)); next.Some? ==> next == CreatorOf(proc) || next.value !in t.byKey
  {
    if proc.Insert? {
      assert proc.order == NewOrder(proc.input, proc.order.id);
    }
  }

  lemma StepMakesNewPayer(t: Tables, requests: set<AuthorizeInput>, proc: Proc, uuid: string)
    requires ProcOK(t, requests, proc)
    ensures var next := PayerOf(AfterOk(t, proc, uuid)); next.Some? ==> next == PayerOf(proc) || next.value !in t.payments
  {
  }

  lemma NoOtherCreator(s: State, p: nat, uuid: string, q: nat)
    requires Inv(s) && p in s.procs && q in s.procs && q != p
    ensures var next := AfterOk(s.t, s.procs[p], uuid);
            && (CreatorOf(next).Some? ==> CreatorOf(s.procs[q]) != CreatorOf(next))
            && (PayerOf(next).Some? ==> PayerOf(s.procs[q]) != PayerOf(next))
  {
    StepMakesNewCreator(s.t, s.requests, s.procs[p], uuid);
    StepMakesNewPayer(s.t, s.requests, s.procs[p], uuid);
    CreatorsAreStored(s, q);
  }

  lemma StepOkKeepsInv(s: State, p: nat, uuid: string)
    requires Inv(s) && Enabled(s, Step(p, Ok, uuid)) && !s.procs[p].InFlight?
    ensures Inv(Apply(s, Step(p, Ok, uuid)))
  {
    var proc := s.procs[p];
    var s1 := s.(t := TablesAfter(s.t, proc, uuid), requests := RequestsAfter(s.requests, proc));
    var next := AfterOk(s.t, proc, uuid);
    assert Inv(s1) by {
      TablesAfterOK(s.t, s.requests, proc, uuid);
      GrowKeepsInv(s, s1.t, s1.requests);
    }
    assert ProcOK(s1.t, s1.requests, next) by {
      if Writes(proc).None? { ReadOK(s.t, s.requests, proc, uuid); } else { WriteOK(s.t, s.requests, proc, uuid); }
    }
    assert Inv(GoOn(s1, p, next)) by {
      forall q | q in s.procs && q != p
        ensures CreatorOf(next).Some? ==> CreatorOf(s.procs[q]) != CreatorOf(next)
        ensures PayerOf(next).Some? ==> PayerOf(s.procs[q]) != PayerOf(next)
      {
        NoOtherCreator(s, p, uuid, q);
      }
      GoOnKeepsInv(s1, p, next);
    }
  }

  lemma StepErrKeepsInv(s: State, p: nat, uuid: string)
    requires Inv(s) && Enabled(s, Step(p, Err, uuid))
    ensures Inv(Apply(s, Step(p, Err, uuid)))
  {
    AfterErrorOK(s.t, s.requests, s.procs[p]);
    GoOnKeepsInv(s, p, AfterError(s.procs[p]));
  }

  lemma StepLostKeepsInv(s: State, p: nat, q: nat, uuid: string)
    requires Inv(s) && Enabled(s, Step(p, Lost(q), uuid))
    ensures Inv(Apply(s, Step(p, Lost(q), uuid)))
  {
    AfterErrorOK(s.t, s.requests, s.procs[p]);
    GoOnKeepsInv(s, p, AfterError(s.procs[p]));
    GoOnKeepsInv(GoOn(s, p, AfterError(s.procs[p])), q, InFlight(Writes(s.procs[p]).value));
  }

  lemma StepDuplicateKeepsInv(s: State, p: nat, uuid: string)
    requires Inv(s) && Enabled(s, Step(p, Duplicate, uuid))
    ensures Inv(Apply(s, Step(p, Duplicate, uuid)))
  {
    var Publish(request, payment, created) := s.procs[p];
    assert Announced(s.t, request.orderID) by {
      DuplicateIsAnnounced(s.t, payment.orderID);
    }
    GoOnKeepsInv(s, p, AuthorizeDone(request, created, Granted(payment)));
  }

  lemma DuplicateIsAnnounced(t: Tables, orderID: string)
    requires TablesOK(t) && orderID in t.payments && InWindow(t, MessageID(orderID))
    ensures Announced(t, orderID)
  {
    if MessageID(orderID) !in t.deadLetters {
      var e :| e in t.events && e.messageID == MessageID(orderID);
      MessageIDInjective(e.orderID, orderID);
    }
  }

  lemma DeadLetterKeepsInv(s: State, event: PaymentCompleted)
    requires Inv(s) && Enabled(s, DeadLetter(event))
    ensures Inv(Apply(s, DeadLetter(event)))
  {
    DeadLetterKeepsTables(s.t, event);
    GrowKeepsInv(s, Apply(s, DeadLetter(event)).t, s.requests);
  }

  lemma DeadLetterKeepsTables(t: Tables, event: PaymentCompleted)
    requires TablesOK(t) && event in t.events
    ensures var t' := t.(deadLetters := t.deadLetters + {DlqID(event.messageID)}); TablesOK(t') && Grows(t, t')
  {
    var t' := t.(deadLetters := t.deadLetters + {DlqID(event.messageID)});
    DlqIDIsMessageID(event.orderID);
    forall id | id in t'.orders ensures OrderOK(t', t'.orders[id]) {
      OrderGrows(t, t', t.orders[id]);
    }
  }

  lemma StatementKeepsInv(s: State, p: nat, uuid: string)
    requires Inv(s) && Enabled(s, Step(p, Ok, uuid)) && s.procs[p].InFlight?
    ensures Inv(Apply(s, Step(p, Ok, uuid)))
  {
    var stmt := s.procs[p].statement;
    ExecuteGrows(s.t, stmt);
    ExecuteKeepsTables(s.t, stmt);
    GrowKeepsInv(s, Execute(s.t, stmt), s.requests);
    RemoveKeepsInv(s.(t := Execute(s.t, stmt)), p);
  }

  lemma ReceiveKeepsInv(s: State, p: nat, reply: Reply)
    requires Inv(s) && Enabled(s, Receive(p, reply))
    ensures Inv(Apply(s, Receive(p, reply)))
  {
    assert ReplyOK(s.t, reply);
    AnswerOK(s.t, s.requests, s.procs[p], reply);
    GoOnKeepsInv(s, p, Answered(s.procs[p], reply));
  }

  lemma AnswerOK(t: Tables, requests: set<AuthorizeInput>, proc: Proc, reply: Reply)
    requires TablesOK(t) && ProcOK(t, requests, proc) && ReplyOK(t, reply) && proc.Await? && reply.orderID == proc.order.id
    ensures ProcOK(t, requests, Answered(proc, reply))
    ensures CreatorOf(Answered(proc, reply)) == CreatorOf(proc) && PayerOf(Answered(proc, reply)).None?
  {
  }

  lemma CallFailsKeepsInv(s: State, p: nat, code: Code)
    requires Inv(s) && Enabled(s, CallFails(p, code))
    ensures Inv(Apply(s, CallFails(p, code)))
  {
    var Await(input, o, created) := s.procs[p];
    assert created ==> CreatorOf(s.procs[p]) == Some(input.idempotencyKey);
    GoOnKeepsInv(s, p, CreateDone(input, created, CallFailure(o, code)));
  }

  lemma StartKeepsInv(s: State, p: nat, proc: Proc)
    requires Inv(s) && Enabled(s, Start(p, proc))
    ensures Inv(Apply(s, Start(p, proc)))
  {
    GoOnKeepsInv(s, p, proc);
    assert Apply(s, Start(p, proc)).(direct := s.direct) == GoOn(s, p, proc);
  }

  lemma StepKeepsInv(s: State, a: Action)
    requires Inv(s) && Enabled(s, a)
    ensures Inv(Apply(s, a))
  {
    match a
    case Start(p, proc) => StartKeepsInv(s, p, proc);
    case Step(p, Ok, uuid) => if s.procs[p].InFlight? { StatementKeepsInv(s, p, uuid); } else { StepOkKeepsInv(s, p, uuid); }
    case Step(p, Err, uuid) => StepErrKeepsInv(s, p, uuid);
    case Step(p, Lost(q), uuid) => StepLostKeepsInv(s, p, q, uuid);
    case Step(p, Duplicate, uuid) => StepDuplicateKeepsInv(s, p, uuid);
    case Receive(p, reply) => ReceiveKeepsInv(s, p, reply);
    case CallFails(p, code) => CallFailsKeepsInv(s, p, code);
    case Crash(p) => RemoveKeepsInv(s, p);
    case DeadLetter(event) => DeadLetterKeepsInv(s, event);
  }

  lemma {:induction false} RunKeepsInv(s: State, run: seq<Action>)
    requires Inv(s) && Legal(s, run)
    ensures Inv(Final(s, run))
    decreases |run|
  {
    if run != [] {
      StepKeepsInv(s, run[0]);
      RunKeepsInv(Apply(s, run[0]), run[1..]);
    }
  }

  lemma ReachableInv(s: State)
    requires Reachable(s)
    ensures Inv(s)
  {
    var run :| Legal(Initial(), run) && Final(Initial(), run) == s;
    RunKeepsInv(Initial(), run);
  }
}
