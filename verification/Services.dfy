// The order and payment services as programs: the calls of the settlement protocol written the way
// the services run them, one statement after the other, with all other calls running in between.
// A call is process p of the protocol; every statement is a step of p, so what the program returns
// is what the protocol's p ends with.

module Services {
  import opened Common
  import opened Domain
  import opened Settlement
  import opened Guarantees
  import opened Answers

  // Everything but the steps of call p, which only p makes.
  predicate OfOthers(a: Action, p: nat) {
    match a
    case Start(q, _) => q != p
    case Step(q, _, _) => q != p
    case Receive(q, _) => q != p
    case CallFails(q, _) => q != p
    case Crash(q) => q != p
    case DeadLetter(_) => true
  }

  // Everything the calls share: the databases, the messages and the calls in progress.
  class World {
    var s: State

    ghost predicate Valid()
      reads this
    {
      Reachable(s)
    }

    constructor ()
      ensures Valid() && s == Initial()
    {
      s := Initial();
      new;
      assert Legal(Initial(), []) && Final(Initial(), []) == s;
    }

    // Other calls make any number of steps.
    method OthersMayRun(p: nat)
      requires Valid() && p in s.procs
      modifies this
      ensures Valid() && p in s.procs && s.procs[p] == old(s.procs[p]) && Grows(old(s.t), s.t)
    {
      var steps: nat := *;
      while steps > 0
        invariant Valid() && p in s.procs && s.procs[p] == old(s.procs[p]) && Grows(old(s.t), s.t)
      {
        OneOther(p);
        steps := steps - 1;
      }
    }

    method OneOther(p: nat)
      requires Valid() && p in s.procs
      modifies this
      ensures Valid() && p in s.procs && s.procs[p] == old(s.procs[p]) && Grows(old(s.t), s.t)
    {
      var a: Action := *;
      if OfOthers(a, p) && Enabled(s, a) {
        Take(a);
      }
    }

    method Take(a: Action)
      requires Valid() && Enabled(s, a)
      modifies this
      ensures Valid() && s == Apply(old(s), a) && Grows(old(s.t), s.t)
    {
      ReachStep(s, a);
      ReachableInv(s);
      StepGrows(s, a);
      s := Apply(s, a);
    }

    // uuid.NewString()
    method NewUuid() returns (uuid: string)
      ensures FreshUuid(s.t, uuid)
    {
      // any text that is new will do
      uuid := "a";
      var todo := s.t.uuids;
      while todo != {}
        invariant IsUuid(uuid) && forall u :: u in s.t.uuids && u !in todo ==> |u| < |uuid|
      {
        var u :| u in todo;
        todo := todo - {u};
        while |uuid| <= |u|
          invariant IsUuid(uuid) && forall v :: v in s.t.uuids && v !in todo && v != u ==> |v| < |uuid|
          decreases |u| - |uuid|
        {
          LongerUuid(uuid);
          uuid := uuid + "a";
        }
      }
    }

    predicate AtStatement(p: nat)
      reads this
    {
      p in s.procs && !Finished(s.procs[p]) && !s.procs[p].Await? && !s.procs[p].InFlight?
    }

    method Succeed(p: nat, uuid: string)
      requires Valid() && AtStatement(p) && FreshUuid(s.t, uuid)
      modifies this
      ensures Valid() && p in s.procs && Grows(old(s.t), s.t)
      ensures s.procs[p] == AfterOk(old(s.t), old(s.procs[p]), uuid)
    {
      Take(Step(p, Ok, uuid));
    }

    method Fail(p: nat, uuid: string)
      requires Valid() && AtStatement(p) && FreshUuid(s.t, uuid) && !s.procs[p].Call? && !s.procs[p].Process?
      modifies this
      ensures Valid() && p in s.procs && Grows(old(s.t), s.t)
      ensures s.procs[p] == AfterError(old(s.procs[p]))
    {
      var q := *;
      if Writes(s.procs[p]).Some? && q !in s.procs {
        Take(Step(p, Lost(q), uuid));
      } else {
        Take(Step(p, Err, uuid));
      }
    }

    // One statement of p: it succeeds, fails, or its answer gets lost. t are the tables it saw.
    method Statement(p: nat) returns (err: bool, t: Tables, uuid: string)
      requires Valid() && AtStatement(p)
      modifies this
      ensures Valid() && p in s.procs && Grows(old(s.t), t) && Grows(t, s.t)
      ensures s.procs[p] == if err then AfterError(old(s.procs[p])) else AfterOk(t, old(s.procs[p]), uuid)
      ensures err ==> !old(s.procs[p]).Call? && !old(s.procs[p]).Process?
    {
      OthersMayRun(p);
      uuid := NewUuid();
      t := s.t;
      err := *;
      if err && !s.procs[p].Call? && !s.procs[p].Process? {
        Fail(p, uuid);
      } else {
        err := false;
        Succeed(p, uuid);
      }
      OthersMayRun(p);
    }

    // The publish of p: it fails, its answer gets lost, or it succeeds, and then it is stored or taken
    // for a duplicate.
    method PublishStatement(p: nat) returns (err: bool, ghost stored: bool)
      requires Valid() && AtStatement(p) && s.procs[p].Publish?
      modifies this
      ensures Valid() && p in s.procs
      ensures s.procs[p] == if err then AfterError(old(s.procs[p])) else AuthorizeDone(old(s.procs[p].request), old(s.procs[p].created), Granted(old(s.procs[p].payment)))
      ensures stored ==> CompletedEvent(old(s.procs[p].payment), old(s.procs[p].request.customerEmail)) in s.t.events
      ensures !err && !stored ==> InWindow(s.t, MessageID(old(s.procs[p].payment.orderID)))
    {
      OthersMayRun(p);
      var uuid := NewUuid();
      var duplicate: bool := *;
      err, stored := *, false;
      if err {
        Fail(p, uuid);
      } else if duplicate && InWindow(s.t, MessageID(s.procs[p].payment.orderID)) {
        Take(Step(p, Duplicate, uuid));
      } else {
        PublishStored(p, uuid);
        stored := true;
      }
      OthersMayRun(p);
    }

    method PublishStored(p: nat, uuid: string)
      requires Valid() && AtStatement(p) && s.procs[p].Publish? && FreshUuid(s.t, uuid)
      modifies this
      ensures Valid() && p in s.procs
      ensures s.procs[p] == AuthorizeDone(old(s.procs[p].request), old(s.procs[p].created), Granted(old(s.procs[p].payment)))
      ensures CompletedEvent(old(s.procs[p].payment), old(s.procs[p].request.customerEmail)) in s.t.events
    {
      ghost var stmt := Writes(s.procs[p]);
      assert stmt == Some(StoreEvent(CompletedEvent(s.procs[p].payment, s.procs[p].request.customerEmail)));
      Take(Step(p, Ok, uuid));
    }

    // The answer to ProcessPayment, or the failure of the call.
    method AwaitReply(p: nat) returns (reply: Option<Reply>, code: Code)
      requires Valid() && p in s.procs && s.procs[p].Await?
      modifies this
      ensures Valid() && p in s.procs && Grows(old(s.t), s.t)
      ensures var Await(input, o, created) := old(s.procs[p]);
              s.procs[p] == match reply
                            case Some(Processed(_, Authorized, tx)) => Mark(input, o, created, Paid, tx)
                            case Some(Processed(_, Declined, _)) => Mark(input, o, created, Failed, "")
                            case Some(Refused(_, c)) => CreateDone(input, created, CallFailure(o, c))
                            case None => CreateDone(input, created, CallFailure(o, code))
    {
      OthersMayRun(p);
      reply, code := None, DeadlineExceeded;
      var choice: Reply := *;
      if choice in s.replies && choice.orderID == s.procs[p].order.id {
        reply := Some(choice);
        Take(Receive(p, choice));
      } else {
        code := *;
        Take(CallFails(p, code));
      }
      OthersMayRun(p);
    }
  }

  // The errors that a caller of the order service can tell apart.
  datatype OrderError = NoError | ErrIdempotencyConflict | ErrPaymentUnavailable | ErrNotFound | ErrConflict | OtherError

  // What process p of the protocol ends with when Create returns this.
  function CreateResultOf(order: Option<Order>, err: OrderError): CreateResult {
    match (order, err)
    case (Some(o), NoError) => Returned(o)
    case (Some(o), ErrPaymentUnavailable) => PaymentUnavailable(o)
    case (_, ErrIdempotencyConflict) => KeyConflict
    case _ => CreateError
  }

  // Create. Success means an order with the caller's own data that is not pending, nor stored as
  // pending; a conflict means that the order under the key is for something else.
  method Create(w: World, p: nat, input: CreateOrderInput) returns (order: Option<Order>, created: bool, err: OrderError)
    requires w.Valid() && p !in w.s.procs
    modifies w
    ensures w.Valid() && p in w.s.procs
    ensures w.s.procs[p] == CreateDone(input, created, CreateResultOf(order, err))
    ensures err == NoError ==> order.Some? && order.value.status != Pending
    ensures err == ErrPaymentUnavailable ==> order.Some?
    ensures err == NoError ==> order.value.id in w.s.t.orders && w.s.t.orders[order.value.id].status != Pending
    ensures err == ErrIdempotencyConflict ==>
              && order.None? && input.idempotencyKey in w.s.t.byKey && w.s.t.byKey[input.idempotencyKey] in w.s.t.orders
              && var o := w.s.t.orders[w.s.t.byKey[input.idempotencyKey]];
                 o.customerID != input.customerID || o.itemName != input.itemName || o.amount != input.amount
    ensures order.Some? ==>
              var o := order.value;
              o.id in w.s.t.orders && o.customerID == input.customerID && o.itemName == input.itemName && o.amount == input.amount
  {
    w.Take(Start(p, Lookup(input)));
    order, created, err := CreateBody(w, p, input);
    CreateIsIdempotent(w.s, p, p);
    CreateAnswerIsTrue(w.s, p);
  }

  lemma CreateAnswerIsTrue(s: State, p: nat)
    requires Reachable(s) && p in s.procs && s.procs[p].CreateDone?
    ensures var input, result := s.procs[p].input, s.procs[p].result;
            && (result.Returned? ==> result.order.id in s.t.orders && s.t.orders[result.order.id].status != Pending)
            && (result == KeyConflict ==>
                  && input.idempotencyKey in s.t.byKey && s.t.byKey[input.idempotencyKey] in s.t.orders
                  && var o := s.t.orders[s.t.byKey[input.idempotencyKey]];
                     o.customerID != input.customerID || o.itemName != input.itemName || o.amount != input.amount)
  {
    if s.procs[p].result == KeyConflict {
      ConflictMeansOtherRequest(s, p);
    }
    if s.procs[p].result.Returned? {
      ReturnedIsSettled(s, p, []);
    }
  }

  method CreateBody(w: World, p: nat, input: CreateOrderInput) returns (order: Option<Order>, created: bool, err: OrderError)
    requires w.Valid() && p in w.s.procs && w.s.procs[p] == Lookup(input)
    modifies w
    ensures w.Valid() && p in w.s.procs
    ensures w.s.procs[p] == CreateDone(input, created, CreateResultOf(order, err))
    ensures order.Some? <==> err == NoError || err == ErrPaymentUnavailable
  {
    var fingerprint := RequestFingerprint(input);
    var failed, t, uuid := w.Statement(p);
    if failed {
      return None, false, OtherError;
    }
    var existing := FindByKey(t, input.idempotencyKey);
    if existing.Some? {
      if existing.value.requestFingerprint != fingerprint {
        return None, false, ErrIdempotencyConflict;
      }
      order, err := ResumeExistingOrder(w, p, input, existing.value);
      return order, false, err;
    }
    var newOrder := NewOrder(input, uuid);
    failed, t, uuid := w.Statement(p);
    if failed || (!DuplicateOrder(t, newOrder) && !Storable(newOrder)) {
      return None, false, OtherError;
    }
    if DuplicateOrder(t, newOrder) {
      order, err := ReloadDuplicate(w, p, input);
      return order, false, err;
    }
    order, err := ReconcilePayment(w, p, input, newOrder, true);
    return order, true, err;
  }

  // Somebody else has inserted an order under the key.
  method ReloadDuplicate(w: World, p: nat, input: CreateOrderInput) returns (order: Option<Order>, err: OrderError)
    requires w.Valid() && p in w.s.procs && w.s.procs[p] == Reload(input)
    modifies w
    ensures w.Valid() && p in w.s.procs
    ensures w.s.procs[p] == CreateDone(input, false, CreateResultOf(order, err))
    ensures order.Some? <==> err == NoError || err == ErrPaymentUnavailable
  {
    var failed, t, uuid := w.Statement(p);
    var reloaded := FindByKey(t, input.idempotencyKey);
    if failed || reloaded.None? {
      return None, OtherError;
    }
    if reloaded.value.requestFingerprint != RequestFingerprint(input) {
      return None, ErrIdempotencyConflict;
    }
    order, err := ResumeExistingOrder(w, p, input, reloaded.value);
  }

  // The unique violation 23505 of the insert.
  predicate DuplicateOrder(t: Tables, o: Order) {
    o.idempotencyKey in t.byKey || o.id in t.orders
  }

  method ResumeExistingOrder(w: World, p: nat, input: CreateOrderInput, existing: Order)
    returns (order: Option<Order>, err: OrderError)
    requires w.Valid() && p in w.s.procs && existing.requestFingerprint == RequestFingerprint(input)
    requires w.s.procs[p] == Resume(input, existing)
    modifies w
    ensures w.Valid() && p in w.s.procs
    ensures w.s.procs[p] == CreateDone(input, false, CreateResultOf(order, err))
    ensures order.Some? <==> err == NoError || err == ErrPaymentUnavailable
  {
    if existing.status != Pending {
      return Some(existing), NoError;
    }
    order, err := ReconcilePayment(w, p, input, existing, false);
  }

  method ReconcilePayment(w: World, p: nat, input: CreateOrderInput, o: Order, created: bool)
    returns (order: Option<Order>, err: OrderError)
    requires w.Valid() && p in w.s.procs && w.s.procs[p] == Call(input, o, created)
    modifies w
    ensures w.Valid() && p in w.s.procs
    ensures w.s.procs[p] == CreateDone(input, created, CreateResultOf(order, err))
    ensures order.Some? <==> err == NoError || err == ErrPaymentUnavailable
  {
    // The payment client's own checks, then the call.
    var failed, t, uuid := w.Statement(p);
    if o.id == "" || o.amount <= 0 {
      return None, OtherError;
    }
    var reply, code := w.AwaitReply(p);
    if reply.None? || reply.value.Refused? {
      var c := if reply.None? then code else reply.value.code;
      if IsUnavailable(c) {
        return Some(o), ErrPaymentUnavailable;
      }
      return None, OtherError;
    }
    match reply.value.status {
      case Authorized =>
        order, err := UpdatePaymentStatus(w, p, input, o, created, Paid, reply.value.transactionID);
      case Declined =>
        order, err := UpdatePaymentStatus(w, p, input, o, created, Failed, "");
    }
  }

  method UpdatePaymentStatus(w: World, p: nat, input: CreateOrderInput, o: Order, created: bool, status: Status, tx: string)
    returns (order: Option<Order>, err: OrderError)
    requires w.Valid() && p in w.s.procs && w.s.procs[p] == Mark(input, o, created, status, tx)
    modifies w
    ensures w.Valid() && p in w.s.procs
    ensures w.s.procs[p] == CreateDone(input, created, CreateResultOf(order, err))
    ensures order.Some? <==> err == NoError || err == ErrPaymentUnavailable
  {
    var failed, t, uuid := w.Statement(p);
    if failed || o.id !in t.orders {
      return None, OtherError;
    }
    return Some(t.orders[o.id].(status := status, paymentTransactionID := tx)), NoError;
  }

  function CancelResultOf(order: Option<Order>, err: OrderError): CancelResult {
    match (order, err)
    case (Some(o), NoError) => CancelReturned(o)
    case (_, ErrNotFound) => OrderNotFound
    case (_, ErrConflict) => StateConflict
    case _ => CancelError
  }

  method CancelOrder(w: World, p: nat, id: string) returns (order: Option<Order>, err: OrderError)
    requires w.Valid() && p !in w.s.procs
    modifies w
    ensures w.Valid() && p in w.s.procs && w.s.procs[p] == CancelDone(id, CancelResultOf(order, err))
    ensures err == NoError ==> order.Some? && order.value.id == id && order.value.status == Cancelled
    ensures err == NoError || err == ErrConflict ==> id in w.s.t.orders && w.s.t.orders[id].status != Pending
    ensures err == ErrNotFound ==> id !in old(w.s.t.orders)
  {
    w.Take(Start(p, CancelLoad(id)));
    order, err := CancelBody(w, p, id);
    CancelAnswerIsTrue(w.s, p, []);
  }

  method CancelBody(w: World, p: nat, id: string) returns (order: Option<Order>, err: OrderError)
    requires w.Valid() && p in w.s.procs && w.s.procs[p] == CancelLoad(id)
    modifies w
    ensures w.Valid() && p in w.s.procs && w.s.procs[p] == CancelDone(id, CancelResultOf(order, err))
    ensures err == NoError ==> order.Some? && order.value.status == Cancelled
    ensures err == ErrNotFound ==> id !in old(w.s.t.orders)
  {
    var failed, t, uuid := w.Statement(p);
    if failed {
      return None, OtherError;
    }
    if id !in t.orders {
      return None, ErrNotFound;
    }
    if t.orders[id].status != Pending {
      return None, ErrConflict;
    }
    order, err := UpdateToCancelled(w, p, id);
  }

  method UpdateToCancelled(w: World, p: nat, id: string) returns (order: Option<Order>, err: OrderError)
    requires w.Valid() && p in w.s.procs && w.s.procs[p] == CancelUpdate(id)
    modifies w
    ensures w.Valid() && p in w.s.procs && w.s.procs[p] == CancelDone(id, CancelResultOf(order, err))
    ensures err == NoError ==> order.Some? && order.value.status == Cancelled
    ensures err != ErrNotFound
  {
    var failed, t, uuid := w.Statement(p);
    if failed || id !in t.orders {
      return None, OtherError;
    }
    return Some(t.orders[id].(status := Cancelled)), NoError;
  }

  datatype PaymentError = NoPaymentError | ErrEventPublishFailed | OtherPaymentError

  function AuthorizeResultOf(payment: Option<Payment>, err: PaymentError): AuthorizeResult {
    match (payment, err)
    case (Some(x), NoPaymentError) => Granted(x)
    case (_, ErrEventPublishFailed) => PublishFailed
    case _ => AuthorizeError
  }

  // Authorize. Success means that the returned payment is the stored one, decided by its amount, and
  // that its event is in the stream, unless a dead letter has the id of the event.
  method AuthorizePayment(w: World, p: nat, request: AuthorizeInput)
    returns (payment: Option<Payment>, created: bool, err: PaymentError, ghost stored: bool)
    requires w.Valid() && p !in w.s.procs
    modifies w
    ensures w.Valid() && p in w.s.procs
    ensures w.s.procs[p] == AuthorizeDone(request, created, AuthorizeResultOf(payment, err))
    ensures err == NoPaymentError ==>
              payment.Some? && request.orderID in w.s.t.payments && payment.value == w.s.t.payments[request.orderID]
              && (payment.value.status == Authorized <==> payment.value.amount <= 100000)
              && (EventStored(w.s.t, request.orderID) || MessageID(request.orderID) in w.s.t.deadLetters)
    ensures err == NoPaymentError && !EndsInDlq(request.orderID) ==> EventStored(w.s.t, request.orderID)
    ensures err == NoPaymentError && created ==> payment.value.amount == request.amount
    // The event that this call has stored, and all events of the order.
    ensures err == NoPaymentError && stored ==>
              exists e :: e in w.s.t.events && e.orderID == request.orderID && e.customerEmail == request.customerEmail
    ensures forall e :: e in w.s.t.events && e.orderID == request.orderID ==>
              && e.messageID == "payment.completed:" + request.orderID
              && request.orderID in w.s.t.payments && e.amount == w.s.t.payments[request.orderID].amount
              && e.status == if e.amount <= 100000 then "Authorized" else "Declined"
    ensures err == NoPaymentError && !stored ==> InWindow(w.s.t, "payment.completed:" + request.orderID)
  {
    w.Take(Start(p, Authorize(request)));
    payment, created, err, stored := AuthorizeBody(w, p, request);
    if err == NoPaymentError {
      AuthorizeAnswerIsTrue(w.s, p);
    }
    OrderEventsTell(w.s, request.orderID);
  }

  lemma AuthorizeAnswerIsTrue(s: State, p: nat)
    requires Reachable(s) && p in s.procs && s.procs[p].AuthorizeDone? && s.procs[p].authorizeResult.Granted?
    ensures var a, id := s.procs[p], s.procs[p].request.orderID;
            && id in s.t.payments && a.authorizeResult.payment == s.t.payments[id]
            && (s.t.payments[id].status == Authorized <==> s.t.payments[id].amount <= 100000)
            && (EventStored(s.t, id) || MessageID(id) in s.t.deadLetters)
            && (!EndsInDlq(id) ==> EventStored(s.t, id))
            && (a.created ==> s.t.payments[id].amount == a.request.amount)
  {
    ReachableJustified(s);
    assert ProcOK(s.t, s.requests, s.procs[p]) && Justified(s.t, s.procs[p]);
    if !EndsInDlq(s.procs[p].request.orderID) {
      UuidIsAnnounced(s.t, s.procs[p].request.orderID);
    }
  }

  lemma OrderEventsTell(s: State, id: string)
    requires Reachable(s)
    ensures forall e :: e in s.t.events && e.orderID == id ==>
              && e.messageID == "payment.completed:" + id && id in s.t.payments && e.amount == s.t.payments[id].amount
              && e.status == if e.amount <= 100000 then "Authorized" else "Declined"
  {
    ReachableInv(s);
  }

  ghost predicate StoredOwnEvent(t: Tables, request: AuthorizeInput) {
    exists e :: e in t.events && e.orderID == request.orderID && e.customerEmail == request.customerEmail
  }

  method AuthorizeBody(w: World, p: nat, request: AuthorizeInput)
    returns (payment: Option<Payment>, created: bool, err: PaymentError, ghost stored: bool)
    requires w.Valid() && p in w.s.procs && w.s.procs[p] == Authorize(request)
    modifies w
    ensures w.Valid() && p in w.s.procs
    ensures w.s.procs[p] == AuthorizeDone(request, created, AuthorizeResultOf(payment, err))
    ensures payment.Some? <==> err == NoPaymentError
    ensures err == NoPaymentError && stored ==> StoredOwnEvent(w.s.t, request)
    ensures err == NoPaymentError && !stored ==> InWindow(w.s.t, MessageID(request.orderID))
  {
    var failed, t, uuid := w.Statement(p);
    if failed {
      return None, false, OtherPaymentError, false;
    }
    if request.orderID in t.payments {
      payment, err, stored := PublishPaymentCompleted(w, p, request, t.payments[request.orderID], false);
      return payment, false, err, stored;
    }
    var decided: Payment;
    if request.amount > LIMIT {
      decided := Payment(request.orderID, request.amount, Declined, "");
    } else {
      decided := Payment(request.orderID, request.amount, Authorized, uuid);
    }
    payment, created, err, stored := InsertPayment(w, p, request, decided);
  }

  // The insert of a decided payment and, when it fails, the second look at the table.
  method InsertPayment(w: World, p: nat, request: AuthorizeInput, decided: Payment)
    returns (payment: Option<Payment>, created: bool, err: PaymentError, ghost stored: bool)
    requires w.Valid() && p in w.s.procs && w.s.procs[p] == InsertPay(request, decided)
    modifies w
    ensures w.Valid() && p in w.s.procs
    ensures w.s.procs[p] == AuthorizeDone(request, created, AuthorizeResultOf(payment, err))
    ensures payment.Some? <==> err == NoPaymentError
    ensures err == NoPaymentError && stored ==> StoredOwnEvent(w.s.t, request)
    ensures err == NoPaymentError && !stored ==> InWindow(w.s.t, MessageID(request.orderID))
  {
    var failed, t, uuid := w.Statement(p);
    if !failed && decided.orderID !in t.payments && decided.amount > 0 {
      payment, err, stored := PublishPaymentCompleted(w, p, request, decided, true);
      return payment, true, err, stored;
    }
    payment, err, stored := ReloadPayment(w, p, request);
    created := false;
  }

  method ReloadPayment(w: World, p: nat, request: AuthorizeInput) returns (payment: Option<Payment>, err: PaymentError, ghost stored: bool)
    requires w.Valid() && p in w.s.procs && w.s.procs[p] == ReloadPay(request)
    modifies w
    ensures w.Valid() && p in w.s.procs
    ensures w.s.procs[p] == AuthorizeDone(request, false, AuthorizeResultOf(payment, err))
    ensures payment.Some? <==> err == NoPaymentError
    ensures err == NoPaymentError && stored ==> StoredOwnEvent(w.s.t, request)
    ensures err == NoPaymentError && !stored ==> InWindow(w.s.t, MessageID(request.orderID))
  {
    var failed, t, uuid := w.Statement(p);
    if failed || request.orderID !in t.payments {
      return None, OtherPaymentError, false;
    }
    payment, err, stored := PublishPaymentCompleted(w, p, request, t.payments[request.orderID], false);
  }

  method PublishPaymentCompleted(w: World, p: nat, request: AuthorizeInput, x: Payment, created: bool)
    returns (payment: Option<Payment>, err: PaymentError, ghost stored: bool)
    requires w.Valid() && p in w.s.procs && w.s.procs[p] == Publish(request, x, created)
    modifies w
    ensures w.Valid() && p in w.s.procs
    ensures w.s.procs[p] == AuthorizeDone(request, created, AuthorizeResultOf(payment, err))
    ensures payment.Some? <==> err == NoPaymentError
    ensures err == NoPaymentError && stored ==> StoredOwnEvent(w.s.t, request)
    ensures err == NoPaymentError && !stored ==> InWindow(w.s.t, MessageID(request.orderID))
  {
    OwnOrder(w.s, p);
    var failed;
    failed, stored := w.PublishStatement(p);
    if failed {
      return None, ErrEventPublishFailed, false;
    }
    return Some(x), NoPaymentError, stored;
  }

  lemma OwnOrder(s: State, p: nat)
    requires Reachable(s) && p in s.procs && s.procs[p].Publish?
    ensures s.procs[p].payment.orderID == s.procs[p].request.orderID
  {
    ReachableInv(s);
    assert ProcOK(s.t, s.requests, s.procs[p]);
  }
}
