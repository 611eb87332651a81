// Transaction ids: no two orders share one, in their payments or in what they show.

module Transactions {
  import opened Common
  import opened Domain
  import opened Settlement
  import opened Guarantees

  // A payment that a call is about to insert, or whose insert is still under way.
  function ProposalOf(proc: Proc): Option<Payment> {
    match proc
    case InsertPay(_, x) => Some(x)
    case InFlight(InsertPayment(x)) => Some(x)
    case _ => None
  }

  ghost predicate Known(s: State, x: Payment) {
    (x.orderID in s.t.payments && s.t.payments[x.orderID] == x)
    || exists p :: p in s.procs && ProposalOf(s.procs[p]) == Some(x)
  }

  ghost predicate Distinct(s: State) {
    && (forall x :: Known(s, x) && x.transactionID != "" ==> x.transactionID in s.t.uuids)
    && (forall x, y :: Known(s, x) && Known(s, y) && x.transactionID != "" && x.transactionID == y.transactionID ==>
          x.orderID == y.orderID)
  }

  // The payment that a step decides on, if any.
  function NewlyDecided(s: State, a: Action): Option<Payment>
    requires Enabled(s, a)
  {
    match a
    case Step(p, Ok, uuid) =>
      if s.procs[p].Authorize? && s.procs[p].request.orderID !in s.t.payments then Some(Decide(s.procs[p].request, uuid)) else None
    case _ => None
  }

  lemma ProposalStep(s: State, a: Action, p: nat)
    requires Enabled(s, a) && p in Apply(s, a).procs && ProposalOf(Apply(s, a).procs[p]).Some?
    ensures var x := ProposalOf(Apply(s, a).procs[p]);
            || x == NewlyDecided(s, a)
            || (p in s.procs && ProposalOf(s.procs[p]) == x)
            || (a.Step? && a.p in s.procs && ProposalOf(s.procs[a.p]) == x)
  {
  }

  lemma StoredStep(s: State, a: Action, id: string)
    requires Enabled(s, a) && id in Apply(s, a).t.payments
    ensures var x := Apply(s, a).t.payments[id];
            || (id in s.t.payments && s.t.payments[id] == x)
            || (a.Step? && a.p in s.procs && ProposalOf(s.procs[a.p]) == Some(x))
  {
  }

  lemma KnownStep(s: State, a: Action, x: Payment)
    requires Enabled(s, a) && Known(Apply(s, a), x)
    ensures Known(s, x) || NewlyDecided(s, a) == Some(x)
  {
    var s' := Apply(s, a);
    if x.orderID in s'.t.payments && s'.t.payments[x.orderID] == x {
      StoredStep(s, a, x.orderID);
    } else {
      var p :| p in s'.procs && ProposalOf(s'.procs[p]) == Some(x);
      ProposalStep(s, a, p);
    }
  }

  lemma DistinctStep(s: State, a: Action)
    requires Inv(s) && Enabled(s, a) && Distinct(s)
    ensures Distinct(Apply(s, a))
  {
    StepGrows(s, a);
    if NewlyDecided(s, a).Some? {
      NewIsFresh(s, a);
    }
    forall x | Known(Apply(s, a), x) ensures Known(s, x) || NewlyDecided(s, a) == Some(x) {
      KnownStep(s, a, x);
    }
  }

  lemma NewIsFresh(s: State, a: Action)
    requires Enabled(s, a) && NewlyDecided(s, a).Some?
    ensures var x := NewlyDecided(s, a).value;
            x.transactionID != "" ==> x.transactionID !in s.t.uuids && x.transactionID in Apply(s, a).t.uuids
  {
  }

  lemma {:induction false} RunKeepsDistinct(s: State, run: seq<Action>)
    requires Inv(s) && Legal(s, run) && Distinct(s)
    ensures Distinct(Final(s, run))
    decreases |run|
  {
    if run != [] {
      DistinctStep(s, run[0]);
      StepKeepsInv(s, run[0]);
      RunKeepsDistinct(Apply(s, run[0]), run[1..]);
    }
  }

  // No transaction id belongs to two orders.
  lemma TransactionsAreDistinct(s: State, a: string, b: string)
    requires Reachable(s) && a in s.t.payments && b in s.t.payments && a != b
    ensures s.t.payments[a].transactionID == s.t.payments[b].transactionID ==>
              s.t.payments[a].amount > 100000 && s.t.payments[b].amount > 100000
    ensures a in s.t.orders && b in s.t.orders && s.t.orders[a].paymentTransactionID != "" ==>
              s.t.orders[a].paymentTransactionID != s.t.orders[b].paymentTransactionID
  {
    var run :| Legal(Initial(), run) && Final(Initial(), run) == s;
    RunKeepsInv(Initial(), run);
    RunKeepsDistinct(Initial(), run);
    assert Known(s, s.t.payments[a]) && Known(s, s.t.payments[b]);
    if a in s.t.orders && b in s.t.orders {
      PaidMeansAuthorized(s, a);
      PaidMeansAuthorized(s, b);
    }
  }
}
