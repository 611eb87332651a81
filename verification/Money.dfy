// Revenue of the order service against the payments of the payment service.

module Money {
  import opened Common
  import opened Domain
  import opened Settlement
  import opened Guarantees

  // ---------- Sums ----------

  ghost function Total(m: map<string, int>): int
    decreases |m|
  {
    if m == map[] then 0 else
      var k :| k in m;
      m[k] + Total(m - {k})
  }

  lemma RemoveOne(m: map<string, int>, k: string)
    requires k in m
    ensures |m - {k}| == |m| - 1
  {
    assert (m - {k}).Keys == m.Keys - {k};
  }

  lemma {:induction false} TotalSplit(m: map<string, int>, k: string)
    requires k in m
    ensures Total(m) == m[k] + Total(m - {k})
    decreases |m|
  {
    var j :| j in m && Total(m) == m[j] + Total(m - {j});
    if j != k {
      TotalSplit(m - {j}, k);
      TotalSplit(m - {k}, j);
      assert m - {j} - {k} == m - {k} - {j};
    }
  }

  lemma SumWithout(a: map<string, int>, b: map<string, int>, k: string)
    requires k !in b
    ensures (a + b) - {k} == (a - {k}) + b
  {
  }

  lemma {:induction false} TotalDisjoint(a: map<string, int>, b: map<string, int>)
    requires a.Keys !! b.Keys
    ensures Total(a + b) == Total(a) + Total(b)
    decreases |a|
  {
    if a == map[] {
      assert a + b == b;
    } else {
      var k :| k in a;
      var sum, rest := a + b, a - {k};
      RemoveOne(a, k);
      TotalDisjoint(rest, b);
      TotalSplit(a, k);
      assert k in sum && sum[k] == a[k];
      TotalSplit(sum, k);
      SumWithout(a, b, k);
    }
  }

  lemma TimesOneMore(x: int, n: nat)
    ensures x * (n + 1) == x * n + x
  {
  }

  lemma {:induction false} TotalBound(m: map<string, int>, bound: int)
    requires forall k :: k in m ==> m[k] <= bound
    ensures Total(m) <= bound * |m|
    decreases |m|
  {
    if m != map[] {
      var k :| k in m;
      RemoveOne(m, k);
      TotalSplit(m, k);
      TotalBound(m - {k}, bound);
      TimesOneMore(bound, |m - {k}|);
    }
  }

  // ---------- Revenue ----------

  // The rows that GetRevenueByCustomerID sums and counts.
  function PaidAmounts(orders: map<string, Order>, customerID: string): map<string, int> {
    map id | id in orders && orders[id].customerID == customerID && orders[id].status == Paid :: orders[id].amount
  }

  ghost function TotalAmount(orders: map<string, Order>, customerID: string): int {
    Total(PaidAmounts(orders, customerID))
  }

  ghost function OrdersCount(orders: map<string, Order>, customerID: string): nat {
    |PaidAmounts(orders, customerID)|
  }

  // TotalAmount summed over several customers.
  ghost function Revenue(orders: map<string, Order>, customers: set<string>): int
    decreases |customers|
  {
    if customers == {} then 0 else
      var c :| c in customers;
      TotalAmount(orders, c) + Revenue(orders, customers - {c})
  }

  function PaidOf(orders: map<string, Order>, customers: set<string>): map<string, int> {
    map id | id in orders && orders[id].customerID in customers && orders[id].status == Paid :: orders[id].amount
  }

  lemma {:induction false} RevenueIsPaidTotal(orders: map<string, Order>, customers: set<string>)
    ensures Revenue(orders, customers) == Total(PaidOf(orders, customers))
    decreases |customers|
  {
    if customers == {} {
      assert PaidOf(orders, customers) == map[];
    } else {
      var c :| c in customers && Revenue(orders, customers) == TotalAmount(orders, c) + Revenue(orders, customers - {c});
      var one, others := PaidAmounts(orders, c), PaidOf(orders, customers - {c});
      RevenueIsPaidTotal(orders, customers - {c});
      TotalDisjoint(one, others);
      assert one + others == PaidOf(orders, customers);
      assert TotalAmount(orders, c) == Total(one);
    }
  }

  function AuthorizedAmounts(t: Tables): map<string, int> {
    map id | id in t.payments && t.payments[id].status == Authorized :: t.payments[id].amount
  }

  function Customers(orders: map<string, Order>): set<string> {
    set id | id in orders :: orders[id].customerID
  }

  // Authorized payments whose order is not (or not any more) Paid.
  function UnsettledAmounts(t: Tables): map<string, int> {
    map id | id in t.payments && t.payments[id].status == Authorized
             && !(id in t.orders && t.orders[id].status == Paid) :: t.payments[id].amount
  }

  // ---------- Payments that come from orders ----------

  predicate Genuine(t: Tables, request: AuthorizeInput) {
    && request.orderID in t.orders && request.amount == t.orders[request.orderID].amount
    && request.customerEmail == t.orders[request.orderID].customerID
  }

  predicate PaymentGenuine(t: Tables, p: Payment) {
    p.orderID in t.orders && p.amount == t.orders[p.orderID].amount
  }

  predicate ProcGenuine(t: Tables, proc: Proc) {
    match proc
    case Process(r) => Genuine(t, r)
    case Authorize(r) => Genuine(t, r)
    case InsertPay(r, p) => Genuine(t, r) && PaymentGenuine(t, p)
    case ReloadPay(r) => Genuine(t, r)
    case Publish(r, _, _) => Genuine(t, r)
    case InFlight(InsertPayment(p)) => PaymentGenuine(t, p)
    case _ => true
  }

  predicate AllGenuine(s: State) {
    && (forall r :: r in s.requests ==> Genuine(s.t, r))
    && (forall p :: p in s.procs ==> ProcGenuine(s.t, s.procs[p]))
    && (forall id :: id in s.t.payments ==> PaymentGenuine(s.t, s.t.payments[id]))
  }

  lemma GenuineGrows(t: Tables, t': Tables, proc: Proc)
    requires Grows(t, t') && ProcGenuine(t, proc)
    ensures ProcGenuine(t', proc)
  {
  }

  lemma NextIsGenuine(s: State, p: nat, uuid: string)
    requires p in s.procs && ProcOK(s.t, s.requests, s.procs[p]) && AllGenuine(s) && !s.procs[p].InFlight?
    ensures ProcGenuine(s.t, AfterOk(s.t, s.procs[p], uuid))
  {
    assert ProcGenuine(s.t, s.procs[p]);
  }

  lemma RequestsStayGenuine(s: State, p: nat)
    requires p in s.procs && ProcOK(s.t, s.requests, s.procs[p]) && AllGenuine(s)
    ensures forall r :: r in RequestsAfter(s.requests, s.procs[p]) ==> Genuine(s.t, r)
  {
  }

  // Only a genuine payment is inserted.
  lemma PaymentsStayGenuine(s: State, p: nat)
    requires Inv(s) && AllGenuine(s) && p in s.procs && Writes(s.procs[p]).Some?
    ensures var t' := Execute(s.t, Writes(s.procs[p]).value);
            forall id :: id in t'.payments ==> PaymentGenuine(t', t'.payments[id])
  {
    assert ProcGenuine(s.t, s.procs[p]);
    ExecuteGrows(s.t, Writes(s.procs[p]).value);
  }

  lemma OkStepKeepsGenuine(s: State, p: nat, uuid: string)
    requires Inv(s) && Enabled(s, Step(p, Ok, uuid)) && AllGenuine(s)
    ensures AllGenuine(Apply(s, Step(p, Ok, uuid)))
  {
    ProcsStayGenuine(s, p, uuid);
    StoredStayGenuine(s, p, uuid);
    AskedStayGenuine(s, p, uuid);
  }

  lemma StoredStayGenuine(s: State, p: nat, uuid: string)
    requires Inv(s) && Enabled(s, Step(p, Ok, uuid)) && AllGenuine(s)
    ensures var t' := Apply(s, Step(p, Ok, uuid)).t; forall id :: id in t'.payments ==> PaymentGenuine(t', t'.payments[id])
  {
    if Writes(s.procs[p]).Some? {
      PaymentsStayGenuine(s, p);
    }
  }

  lemma AskedStayGenuine(s: State, p: nat, uuid: string)
    requires Inv(s) && Enabled(s, Step(p, Ok, uuid)) && AllGenuine(s)
    ensures var s' := Apply(s, Step(p, Ok, uuid)); forall r :: r in s'.requests ==> Genuine(s'.t, r)
  {
    StepGrows(s, Step(p, Ok, uuid));
    RequestsStayGenuine(s, p);
  }

  lemma ProcsStayGenuine(s: State, p: nat, uuid: string)
    requires Inv(s) && Enabled(s, Step(p, Ok, uuid)) && AllGenuine(s)
    ensures var s' := Apply(s, Step(p, Ok, uuid)); forall q :: q in s'.procs ==> ProcGenuine(s'.t, s'.procs[q])
  {
    var s' := Apply(s, Step(p, Ok, uuid));
    StepGrows(s, Step(p, Ok, uuid));
    forall q | q in s'.procs ensures ProcGenuine(s'.t, s'.procs[q]) {
      if q != p {
        GenuineGrows(s.t, s'.t, s.procs[q]);
      } else {
        OwnStaysGenuine(s, p, uuid);
      }
    }
  }

  lemma OwnStaysGenuine(s: State, p: nat, uuid: string)
    requires Inv(s) && Enabled(s, Step(p, Ok, uuid)) && AllGenuine(s) && !s.procs[p].InFlight?
    ensures var t' := Apply(s, Step(p, Ok, uuid)).t; ProcGenuine(t', AfterOk(s.t, s.procs[p], uuid))
  {
    StepGrows(s, Step(p, Ok, uuid));
    NextIsGenuine(s, p, uuid);
    GenuineGrows(s.t, Apply(s, Step(p, Ok, uuid)).t, AfterOk(s.t, s.procs[p], uuid));
  }

  lemma StepKeepsGenuine(s: State, a: Action)
    requires Inv(s) && Enabled(s, a) && !Apply(s, a).direct && AllGenuine(s)
    ensures AllGenuine(Apply(s, a))
  {
    if a.Step? && a.outcome == Ok {
      OkStepKeepsGenuine(s, a.p, a.uuid);
    } else if a.Step? {
      FailedStepKeepsGenuine(s, a);
    } else {
      MessageKeepsGenuine(s, a);
    }
  }

  lemma FailedStepKeepsGenuine(s: State, a: Action)
    requires Enabled(s, a) && AllGenuine(s) && a.Step? && a.outcome != Ok
    ensures AllGenuine(Apply(s, a))
  {
    assert ProcGenuine(s.t, s.procs[a.p]);
  }

  lemma MessageKeepsGenuine(s: State, a: Action)
    requires Enabled(s, a) && !Apply(s, a).direct && AllGenuine(s) && !a.Step?
    ensures AllGenuine(Apply(s, a))
  {
  }

  lemma {:induction false} RunKeepsGenuine(s: State, run: seq<Action>)
    requires Inv(s) && Legal(s, run) && (!s.direct ==> AllGenuine(s))
    ensures !Final(s, run).direct ==> AllGenuine(Final(s, run))
    decreases |run|
  {
    if run != [] {
      var s' := Apply(s, run[0]);
      assert s.direct ==> s'.direct;
      if !s'.direct {
        StepKeepsGenuine(s, run[0]);
      }
      StepKeepsInv(s, run[0]);
      RunKeepsGenuine(s', run[1..]);
    }
  }

  // As long as payments are requested by the order service only: every payment has its order's amount;
  // what was authorized is the revenue of all customers plus the authorized payments of orders that
  // are not Paid; and no customer's revenue exceeds the limit per order.
  lemma MoneyIsConserved(s: State, customerID: string)
    requires Reachable(s) && !s.direct
    ensures forall id :: id in s.t.payments ==>
              id in s.t.orders && s.t.payments[id].amount == s.t.orders[id].amount
    ensures Total(AuthorizedAmounts(s.t)) ==
            Revenue(s.t.orders, Customers(s.t.orders)) + Total(UnsettledAmounts(s.t))
    ensures OrdersCount(s.t.orders, customerID)
            == |set id | id in s.t.orders && s.t.orders[id].customerID == customerID && s.t.orders[id].status == Paid|
    ensures OrdersCount(s.t.orders, customerID) <= TotalAmount(s.t.orders, customerID)
            <= 100000 * OrdersCount(s.t.orders, customerID)
  {
    assert Inv(s) && AllGenuine(s) by {
      var run :| Legal(Initial(), run) && Final(Initial(), run) == s;
      RunKeepsInv(Initial(), run);
      RunKeepsGenuine(Initial(), run);
    }
    PaidIsAuthorized(s);
    var paid := PaidOf(s.t.orders, Customers(s.t.orders));
    RevenueIsPaidTotal(s.t.orders, Customers(s.t.orders));
    TotalDisjoint(paid, UnsettledAmounts(s.t));
    TotalBound(PaidAmounts(s.t.orders, customerID), 100000);
    AmountsArePositive(s, customerID);
    PaidKeys(s.t.orders, customerID);
  }

  lemma PaidKeys(orders: map<string, Order>, customerID: string)
    ensures |PaidAmounts(orders, customerID)|
            == |set id | id in orders && orders[id].customerID == customerID && orders[id].status == Paid|
  {
    assert PaidAmounts(orders, customerID).Keys
        == set id | id in orders && orders[id].customerID == customerID && orders[id].status == Paid;
  }

  lemma AmountsArePositive(s: State, customerID: string)
    requires Inv(s)
    ensures TotalAmount(s.t.orders, customerID) >= OrdersCount(s.t.orders, customerID)
  {
    forall id | id in s.t.orders ensures s.t.orders[id].amount > 0 {
      assert OrderOK(s.t, s.t.orders[id]);
    }
    TotalAtLeastCount(PaidAmounts(s.t.orders, customerID));
  }

  lemma {:induction false} TotalAtLeastCount(m: map<string, int>)
    requires forall k :: k in m ==> m[k] > 0
    ensures Total(m) >= |m|
    decreases |m|
  {
    if m != map[] {
      var k :| k in m;
      RemoveOne(m, k);
      TotalSplit(m, k);
      TotalAtLeastCount(m - {k});
    }
  }

  lemma PaidIsSettled(s: State, id: string)
    requires Inv(s) && AllGenuine(s) && id in s.t.orders && s.t.orders[id].status == Paid
    ensures id in s.t.payments && s.t.payments[id].status == Authorized
    ensures s.t.payments[id].amount == s.t.orders[id].amount && s.t.orders[id].amount <= 100000
  {
    assert OrderOK(s.t, s.t.orders[id]);
  }

  lemma PaidIsAuthorized(s: State)
    requires Inv(s) && AllGenuine(s)
    ensures var paid := PaidOf(s.t.orders, Customers(s.t.orders));
            paid.Keys !! UnsettledAmounts(s.t).Keys && AuthorizedAmounts(s.t) == paid + UnsettledAmounts(s.t)
    ensures forall id :: id in s.t.orders && s.t.orders[id].status == Paid ==> s.t.orders[id].amount <= 100000
  {
    var paid := PaidOf(s.t.orders, Customers(s.t.orders));
    forall id | id in s.t.orders && s.t.orders[id].status == Paid
      ensures id in s.t.payments && s.t.payments[id].status == Authorized
      ensures s.t.payments[id].amount == s.t.orders[id].amount && s.t.orders[id].amount <= 100000
    {
      PaidIsSettled(s, id);
    }
    SplitsAuthorized(s.t);
  }

  lemma SplitsAuthorized(t: Tables)
    requires forall id :: id in t.orders && t.orders[id].status == Paid ==>
               id in t.payments && t.payments[id].status == Authorized && t.payments[id].amount == t.orders[id].amount
    ensures var paid := PaidOf(t.orders, Customers(t.orders));
            paid.Keys !! UnsettledAmounts(t).Keys && AuthorizedAmounts(t) == paid + UnsettledAmounts(t)
  {
  }

  // ---------- Whom the events name ----------

  predicate NamesCustomer(t: Tables, e: PaymentCompleted) {
    e.orderID in t.orders && e.customerEmail == t.orders[e.orderID].customerID
  }

  predicate EventsNameCustomers(s: State) {
    && (forall e :: e in s.t.events ==> NamesCustomer(s.t, e))
    && (forall p :: p in s.procs && s.procs[p].InFlight? && s.procs[p].statement.StoreEvent? ==>
          NamesCustomer(s.t, s.procs[p].statement.event))
  }

  // An event after the step was there before, or was in flight, or is that of a publish.
  lemma NewEvent(s: State, a: Action, e: PaymentCompleted)
    requires Enabled(s, a) && e in Apply(s, a).t.events
    ensures e in s.t.events || (a.Step? && Writes(s.procs[a.p]) == Some(StoreEvent(e)))
  {
  }

  lemma NewInFlight(s: State, a: Action, p: nat, e: PaymentCompleted)
    requires Enabled(s, a) && p in Apply(s, a).procs && Apply(s, a).procs[p] == InFlight(StoreEvent(e))
    ensures (p in s.procs && s.procs[p] == InFlight(StoreEvent(e))) || (a.Step? && Writes(s.procs[a.p]) == Some(StoreEvent(e)))
  {
  }

  lemma WrittenNamesCustomer(s: State, p: nat, e: PaymentCompleted)
    requires Inv(s) && AllGenuine(s) && EventsNameCustomers(s) && p in s.procs && Writes(s.procs[p]) == Some(StoreEvent(e))
    ensures NamesCustomer(s.t, e)
  {
    assert ProcOK(s.t, s.requests, s.procs[p]) && ProcGenuine(s.t, s.procs[p]);
  }

  lemma StepNamesCustomers(s: State, a: Action)
    requires Inv(s) && AllGenuine(s) && EventsNameCustomers(s) && Enabled(s, a)
    ensures EventsNameCustomers(Apply(s, a))
  {
    StepGrows(s, a);
    forall e | e in Apply(s, a).t.events ensures NamesCustomer(Apply(s, a).t, e) {
      NewEvent(s, a, e);
      if e !in s.t.events {
        WrittenNamesCustomer(s, a.p, e);
      }
    }
    forall p | p in Apply(s, a).procs && Apply(s, a).procs[p].InFlight? && Apply(s, a).procs[p].statement.StoreEvent?
      ensures NamesCustomer(Apply(s, a).t, Apply(s, a).procs[p].statement.event)
    {
      var e := Apply(s, a).procs[p].statement.event;
      NewInFlight(s, a, p, e);
      if !(p in s.procs && s.procs[p] == InFlight(StoreEvent(e))) {
        WrittenNamesCustomer(s, a.p, e);
      }
    }
  }

  lemma {:induction false} RunNamesCustomers(s: State, run: seq<Action>)
    requires Inv(s) && Legal(s, run) && !Final(s, run).direct && AllGenuine(s) && EventsNameCustomers(s)
    ensures EventsNameCustomers(Final(s, run))
    decreases |run|
  {
    if run != [] {
      StaysDirect(Apply(s, run[0]), run[1..]);
      StepKeepsGenuine(s, run[0]);
      StepNamesCustomers(s, run[0]);
      StepKeepsInv(s, run[0]);
      RunNamesCustomers(Apply(s, run[0]), run[1..]);
    }
  }

  lemma {:induction false} StaysDirect(s: State, run: seq<Action>)
    requires Legal(s, run)
    ensures s.direct ==> Final(s, run).direct
    decreases |run|
  {
    if run != [] {
      StaysDirect(Apply(s, run[0]), run[1..]);
    }
  }

  // As long as payments are requested by the order service only, every event of an order names the
  // order's customer and has its amount.
  lemma EventsTellTheOrder(s: State, e: PaymentCompleted)
    requires Reachable(s) && !s.direct && e in s.t.events
    ensures e.orderID in s.t.orders
    ensures e.customerEmail == s.t.orders[e.orderID].customerID && e.amount == s.t.orders[e.orderID].amount
  {
    var run :| Legal(Initial(), run) && Final(Initial(), run) == s;
    RunKeepsInv(Initial(), run);
    RunKeepsGenuine(Initial(), run);
    RunNamesCustomers(Initial(), run);
    assert EventOK(s.t, e);
  }
}
