// What the answers of the order and payment services mean: an error or a flag that a caller sees is
// justified by what is stored.

module Answers {
  import opened Common
  import opened Domain
  import opened Settlement
  import opened Guarantees
  import F = Fingerprint

  // ---------- An order that has left Pending never returns to it ----------

  predicate Settles(t: Tables, t': Tables) {
    Grows(t, t') && forall id :: id in t.orders && t.orders[id].status != Pending ==> t'.orders[id].status != Pending
  }

  lemma ExecuteSettles(t: Tables, stmt: Statement, id: string)
    requires stmt.MarkOrder? ==> stmt.status != Pending
    requires id in t.orders && t.orders[id].status != Pending
    requires stmt.InsertOrder? ==> stmt.order.id != id
    ensures var t' := Execute(t, stmt); id in t'.orders && t'.orders[id].status != Pending
  {
  }

  // An insert of an order that is there is refused.
  lemma RefusedInsert(t: Tables, o: Order)
    requires o.id in t.orders
    ensures Execute(t, InsertOrder(o)) == t
  {
  }

  lemma StatementSettles(t: Tables, stmt: Statement)
    requires stmt.MarkOrder? ==> stmt.status != Pending
    ensures forall id :: id in t.orders && t.orders[id].status != Pending ==>
              id in Execute(t, stmt).orders && Execute(t, stmt).orders[id].status != Pending
  {
    forall id | id in t.orders && t.orders[id].status != Pending
      ensures id in Execute(t, stmt).orders && Execute(t, stmt).orders[id].status != Pending
    {
      if stmt.InsertOrder? && stmt.order.id == id {
        RefusedInsert(t, stmt.order);
      } else {
        ExecuteSettles(t, stmt, id);
      }
    }
  }

  lemma StepSettles(s: State, a: Action)
    requires Inv(s) && Enabled(s, a)
    ensures Settles(s.t, Apply(s, a).t)
  {
    StepGrows(s, a);
    if a.Step? && a.outcome == Ok {
      assert ProcOK(s.t, s.requests, s.procs[a.p]);
      StepOkSettles(s, a.p, a.uuid);
    }
  }

  lemma StepOkSettles(s: State, p: nat, uuid: string)
    requires Enabled(s, Step(p, Ok, uuid))
    requires Writes(s.procs[p]).Some? ==> StatementOK(s.t, Writes(s.procs[p]).value)
    ensures var t' := Apply(s, Step(p, Ok, uuid)).t;
            forall id :: id in s.t.orders && s.t.orders[id].status != Pending ==> id in t'.orders && t'.orders[id].status != Pending
  {
    if Writes(s.procs[p]).Some? {
      StatementSettles(s.t, Writes(s.procs[p]).value);
    }
  }

  // ---------- Answers are justified ----------

  // A statement about the stored rows that stays true once it is.
  ghost predicate Justified(t: Tables, proc: Proc) {
    match proc
    case CreateDone(input, _, KeyConflict) =>
      FindByKey(t, input.idempotencyKey).Some?
      && FindByKey(t, input.idempotencyKey).value.requestFingerprint != RequestFingerprint(input)
    case CreateDone(_, _, Returned(o)) => o.id in t.orders && t.orders[o.id].status != Pending
    case CancelUpdate(id) => id in t.orders
    case CancelDone(id, StateConflict) => id in t.orders && t.orders[id].status != Pending
    case CancelDone(id, CancelReturned(o)) =>
      o.id == id && o.status == Cancelled && id in t.orders && t.orders[id].status != Pending && SameRequest(o, t.orders[id])
    case Publish(request, p, true) => p.amount == request.amount
    case AuthorizeDone(request, true, _) => request.orderID in t.payments && t.payments[request.orderID].amount == request.amount
    case _ => true
  }

  ghost predicate AllJustified(s: State) {
    forall p :: p in s.procs ==> Justified(s.t, s.procs[p])
  }

  lemma JustifiedStays(t: Tables, t': Tables, proc: Proc)
    requires TablesOK(t) && Settles(t, t') && Justified(t, proc)
    ensures Justified(t', proc)
  {
  }

  lemma FoundIsJustified(t: Tables, proc: Proc, uuid: string)
    requires TablesOK(t) && (proc.Lookup? || proc.Reload?)
    ensures Justified(t, AfterOk(t, proc, uuid))
  {
  }

  lemma MarkIsJustified(t: Tables, requests: set<AuthorizeInput>, proc: Proc, uuid: string)
    requires TablesOK(t) && ProcOK(t, requests, proc) && proc.Mark?
    ensures Justified(TablesAfter(t, proc, uuid), AfterOk(t, proc, uuid))
  {
  }

  lemma CancelIsJustified(t: Tables, proc: Proc, uuid: string)
    requires TablesOK(t) && Justified(t, proc) && (proc.CancelLoad? || proc.CancelUpdate?)
    ensures Justified(TablesAfter(t, proc, uuid), AfterOk(t, proc, uuid))
  {
  }

  lemma PaymentIsJustified(t: Tables, requests: set<AuthorizeInput>, proc: Proc, uuid: string)
    requires TablesOK(t) && ProcOK(t, requests, proc) && Justified(t, proc)
    requires proc.Process? || proc.Authorize? || proc.InsertPay? || proc.ReloadPay? || proc.Publish?
    ensures Justified(TablesAfter(t, proc, uuid), AfterOk(t, proc, uuid))
  {
  }

  lemma NextIsJustified(t: Tables, requests: set<AuthorizeInput>, proc: Proc, uuid: string)
    requires TablesOK(t) && ProcOK(t, requests, proc) && Justified(t, proc) && !proc.InFlight?
    ensures Justified(TablesAfter(t, proc, uuid), AfterOk(t, proc, uuid))
  {
    if Finished(proc) || proc.Await? || proc.Insert? || proc.Call? {
      StaysPut(t, proc, uuid);
    } else if proc.Lookup? || proc.Reload? {
      FoundLater(t, proc, uuid);
    } else if proc.Mark? {
      MarkIsJustified(t, requests, proc, uuid);
    } else if proc.CancelLoad? || proc.CancelUpdate? {
      CancelIsJustified(t, proc, uuid);
    } else {
      PaymentIsJustified(t, requests, proc, uuid);
    }
  }

  lemma StaysPut(t: Tables, proc: Proc, uuid: string)
    requires Justified(t, proc) && (Finished(proc) || proc.Await? || proc.Insert? || proc.Call?)
    ensures Justified(TablesAfter(t, proc, uuid), AfterOk(t, proc, uuid))
  {
  }

  lemma FoundLater(t: Tables, proc: Proc, uuid: string)
    requires TablesOK(t) && (proc.Lookup? || proc.Reload?)
    ensures Justified(TablesAfter(t, proc, uuid), AfterOk(t, proc, uuid))
  {
    FoundIsJustified(t, proc, uuid);
    assert Settles(t, TablesAfter(t, proc, uuid));
    JustifiedStays(t, TablesAfter(t, proc, uuid), AfterOk(t, proc, uuid));
  }

  lemma FailedIsJustified(t: Tables, proc: Proc)
    requires Justified(t, proc) && !Finished(proc)
    requires proc.Publish? && proc.created ==> proc.request.orderID in t.payments && proc.payment == t.payments[proc.request.orderID]
    ensures Justified(t, AfterError(proc))
  {
  }

  // Whatever the step was, a call is where it was, or it is the call that made the step, or it has
  // just started, got its answer, or is a statement without its caller.
  lemma StepKeepsJustified(s: State, a: Action)
    requires Inv(s) && Enabled(s, a) && AllJustified(s)
    ensures AllJustified(Apply(s, a))
  {
    StepSettles(s, a);
    forall p | p in Apply(s, a).procs ensures Justified(Apply(s, a).t, Apply(s, a).procs[p]) {
      ProcIsJustified(s, a, p);
    }
  }

  lemma ProcIsJustified(s: State, a: Action, p: nat)
    requires Inv(s) && Enabled(s, a) && AllJustified(s) && p in Apply(s, a).procs && Settles(s.t, Apply(s, a).t)
    ensures Justified(Apply(s, a).t, Apply(s, a).procs[p])
  {
    if p in s.procs && Apply(s, a).procs[p] == s.procs[p] {
      JustifiedStays(s.t, Apply(s, a).t, s.procs[p]);
    } else if a.Step? && p == a.p {
      OwnStepIsJustified(s, a);
    } else {
      MovedIsTrivial(s, a, p);
    }
  }

  lemma MovedIsTrivial(s: State, a: Action, p: nat)
    requires Enabled(s, a) && p in Apply(s, a).procs && !(p in s.procs && Apply(s, a).procs[p] == s.procs[p])
    requires !(a.Step? && p == a.p)
    ensures Justified(Apply(s, a).t, Apply(s, a).procs[p])
  {
  }

  lemma OwnStepIsJustified(s: State, a: Action)
    requires Inv(s) && Enabled(s, a) && AllJustified(s) && a.Step? && !(s.procs[a.p].InFlight? && a.outcome == Ok)
    ensures Justified(Apply(s, a).t, Apply(s, a).procs[a.p])
  {
    var proc := s.procs[a.p];
    assert ProcOK(s.t, s.requests, proc) && Justified(s.t, proc);
    match a.outcome
    case Ok => NextIsJustified(s.t, s.requests, proc, a.uuid);
    case Duplicate =>
    case Err => FailedIsJustified(s.t, proc);
    case Lost(_) => FailedIsJustified(s.t, proc);
  }

  lemma {:induction false} RunKeepsJustified(s: State, run: seq<Action>)
    requires Inv(s) && Legal(s, run) && AllJustified(s)
    ensures AllJustified(Final(s, run))
    decreases |run|
  {
    if run != [] {
      StepKeepsInv(s, run[0]);
      StepKeepsJustified(s, run[0]);
      RunKeepsJustified(Apply(s, run[0]), run[1..]);
    }
  }

  lemma {:induction false} RunSettles(s: State, run: seq<Action>)
    requires Inv(s) && Legal(s, run)
    ensures Settles(s.t, Final(s, run).t)
    decreases |run|
  {
    if run != [] {
      StepKeepsInv(s, run[0]);
      StepSettles(s, run[0]);
      RunSettles(Apply(s, run[0]), run[1..]);
      SettlesTransitive(s.t, Apply(s, run[0]).t, Final(s, run).t);
    }
  }

  lemma SettlesTransitive(t: Tables, t': Tables, t'': Tables)
    requires Settles(t, t') && Settles(t', t'')
    ensures Settles(t, t'')
  {
  }

  lemma ReachableJustified(s: State)
    requires Reachable(s)
    ensures Inv(s) && AllJustified(s)
  {
    var run :| Legal(Initial(), run) && Final(Initial(), run) == s;
    RunKeepsInv(Initial(), run);
    RunKeepsJustified(Initial(), run);
  }

  // ---------- What a caller can conclude ----------

  // A conflict over the key is answered only if the order under the key is for something else.
  lemma ConflictMeansOtherRequest(s: State, p: nat)
    requires Reachable(s) && p in s.procs && s.procs[p].CreateDone? && s.procs[p].result == KeyConflict
    ensures var input := s.procs[p].input;
            && input.idempotencyKey in s.t.byKey && s.t.byKey[input.idempotencyKey] in s.t.orders
            && var o := s.t.orders[s.t.byKey[input.idempotencyKey]];
               && o.idempotencyKey == input.idempotencyKey
               && (o.customerID != input.customerID || o.itemName != input.itemName || o.amount != input.amount)
  {
    ReachableJustified(s);
    var input := s.procs[p].input;
    assert Justified(s.t, s.procs[p]);
    assert OrderOK(s.t, FindByKey(s.t, input.idempotencyKey).value);
  }

  // An order that a Create has returned is not pending, then and ever after.
  lemma ReturnedIsSettled(s: State, p: nat, run: seq<Action>)
    requires Reachable(s) && Legal(s, run) && p in s.procs && s.procs[p].CreateDone? && s.procs[p].result.Returned?
    ensures var o := s.procs[p].result.order;
            o.status != Pending && o.id in Final(s, run).t.orders && Final(s, run).t.orders[o.id].status != Pending
  {
    ReachableJustified(s);
    RunSettles(s, run);
    assert Justified(s.t, s.procs[p]) && ProcOK(s.t, s.requests, s.procs[p]);
  }

  // A Cancel is refused only if the order is not pending, and reports success only for its own order.
  lemma CancelAnswerIsTrue(s: State, p: nat, run: seq<Action>)
    requires Reachable(s) && Legal(s, run) && p in s.procs && s.procs[p].CancelDone?
    ensures var id, answer, f := s.procs[p].id, s.procs[p].cancelResult, Final(s, run);
            && (answer == StateConflict ==> id in f.t.orders && f.t.orders[id].status != Pending)
            && (answer.CancelReturned? ==>
                  && answer.order.id == id && answer.order.status == Cancelled
                  && id in f.t.orders && f.t.orders[id].status != Pending && SameRequest(answer.order, f.t.orders[id]))
  {
    ReachableJustified(s);
    RunSettles(s, run);
    assert Justified(s.t, s.procs[p]);
  }

  predicate NotFoundBy(procs: map<nat, Proc>, id: string, p: nat) {
    p in procs && procs[p] == CancelDone(id, OrderNotFound)
  }

  // Once an order is stored, no Cancel of it gets the answer that it was not found.
  lemma {:induction false} StoredOrderIsFound(s: State, id: string, run: seq<Action>, p: nat)
    requires Inv(s) && Legal(s, run) && id in s.t.orders
    ensures NotFoundBy(Final(s, run).procs, id, p) ==> NotFoundBy(s.procs, id, p)
    decreases |run|
  {
    if run != [] {
      StepKeepsInv(s, run[0]);
      StepGrows(s, run[0]);
      StoredOrderIsFound(Apply(s, run[0]), id, run[1..], p);
      NotFoundStep(s, run[0], id, p);
    }
  }

  lemma NotFoundStep(s: State, a: Action, id: string, p: nat)
    requires Enabled(s, a) && id in s.t.orders
    ensures NotFoundBy(Apply(s, a).procs, id, p) ==> NotFoundBy(s.procs, id, p)
  {
  }
}
