// When exactly a stream of order updates converges: which events bring it up to date after a lost
// connection, and what becomes of it without them.

module Convergence {
  import opened Common
  import opened Domain
  import opened OrderStream

  // ---------- What brings a stream up to date ----------

  // The stream subscribes while the listener is connected, its order is committed or its snapshot is
  // read while it is connected, or the stream reads the row while it is connected and no update in
  // its channel is preferred to the row.
  predicate CatchesUp(s: State, a: Action, id: nat) {
    var l := s.listener;
    match a
    case Subscribe(_) => id == s.nextID + 1 && l.alive
    case Commit(o, _) => l.alive && id in s.streams && s.streams[id].orderID == o
    case LoadSnapshot =>
      l.phase.Resyncing? && l.phase.todo != [] && id in s.streams && s.streams[id].orderID == l.phase.todo[0]
    case Load(i, now) =>
      && i == id && l.alive && id in s.streams && s.streams[id].orderID in s.db
      && var initial := MapOrder(s.streams[id].orderID, s.db[s.streams[id].orderID], now);
         Chosen(initial, s.streams[id].buffer) == initial
    case _ => false
  }

  // The end of the stream's drain drops the row.
  predicate Drops(s: State, a: Action, id: nat) {
    a.EndDrain? && a.id == id && id in s.streams && DropsRow(s.db, s.listener, id, s.streams[id])
  }

  // One of these events happened in the run, and afterwards no connection was lost and the row was not
  // dropped; earlier says whether it was so before the run.
  ghost predicate CaughtUp(s: State, run: seq<Action>, id: nat, earlier: bool)
    requires Legal(s, run)
    decreases |run|
  {
    if run == [] then earlier
    else CaughtUp(Apply(s, run[0]), run[1..], id, !run[0].Break? && !Drops(s, run[0], id) && (earlier || CatchesUp(s, run[0], id)))
  }

  predicate Synced(s: State, id: nat) {
    id in s.streams && s.streams[id].synced
  }

  lemma SyncedStep(s: State, a: Action, id: nat)
    requires Inv(s) && Enabled(s, a) && a != Leave(id)
    ensures Synced(Apply(s, a), id) <==> !a.Break? && !Drops(s, a, id) && (Synced(s, id) || CatchesUp(s, a, id))
  {
    if StreamAction(a) {
      SyncedStreamStep(s, a, id);
    } else {
      SyncedListenerStep(s, a, id);
    }
  }

  predicate StreamAction(a: Action) {
    a.Load? || a.Drain? || a.EndDrain? || a.Receive? || a.Send?
  }

  lemma SyncedStreamStep(s: State, a: Action, id: nat)
    requires Enabled(s, a) && StreamAction(a)
    ensures Synced(Apply(s, a), id) <==> !Drops(s, a, id) && (Synced(s, id) || CatchesUp(s, a, id))
  {
  }

  lemma SyncedListenerStep(s: State, a: Action, id: nat)
    requires Inv(s) && Enabled(s, a) && a != Leave(id) && !StreamAction(a)
    ensures Synced(Apply(s, a), id) <==> !a.Break? && (Synced(s, id) || CatchesUp(s, a, id))
  {
  }

  // An id that has been given out and is not in use never comes back.
  lemma {:induction false} GoneForGood(s: State, run: seq<Action>, id: nat)
    requires Legal(s, run) && id !in s.streams && id <= s.nextID
    ensures id !in Final(s, run).streams
    decreases |run|
  {
    if run != [] {
      GoneForGood(Apply(s, run[0]), run[1..], id);
    }
  }

  lemma {:induction false} SyncedFrom(s: State, run: seq<Action>, id: nat)
    requires Inv(s) && Legal(s, run) && id in Final(s, run).streams
    ensures Final(s, run).streams[id].synced <==> CaughtUp(s, run, id, Synced(s, id))
    decreases |run|
  {
    if run != [] {
      var s' := Apply(s, run[0]);
      StepKeepsInv(s, run[0]);
      if run[0] == Leave(id) {
        GoneForGood(s', run[1..], id);
      }
      SyncedStep(s, run[0], id);
      SyncedFrom(s', run[1..], id);
    }
  }

  // A stream is synced exactly if it has caught up since the last connection was lost and has not
  // dropped the row again.
  lemma SyncedIffCaughtUp(run: seq<Action>, id: nat)
    requires Legal(Initial(), run) && id in Final(Initial(), run).streams
    ensures Final(Initial(), run).streams[id].synced <==> CaughtUp(Initial(), run, id, false)
  {
    SyncedFrom(Initial(), run, id);
  }

  // ---------- Streams that have missed a commit ----------

  // The stream has read its row, and neither what it holds nor what is on its way to it is the
  // current row.
  predicate BehindRow(l: Listener, id: nat, st: Stream, row: Update) {
    && row !in l.queue
    && (HeadedFor(l.hand, id, st.orderID) ==> l.hand.update != row)
    && st.buffer != Some(row)
    && match st.pc
       case Opened => false
       case Draining(initial, latest) =>
         && latest != Some(row)
         && (initial == row ==>
               NonePending(l, id, st.orderID) && Chosen(initial, if st.buffer.Some? then st.buffer else latest) != row)
       case Sending(message) => message != row
       case Forwarding => st.sent != [] && Last(st.sent) != row
  }

  predicate Behind(s: State, id: nat) {
    && id in s.streams && s.streams[id].orderID in s.db && !s.streams[id].synced
    && BehindRow(s.listener, id, s.streams[id], UpdateOf(s.streams[id].orderID, s.db[s.streams[id].orderID]))
  }

  // A commit makes an update that was not there before.
  predicate Fresh(s: State, a: Action) {
    a.Commit? ==> UpdateOf(a.orderID, a.row) !in s.history
  }

  ghost predicate FreshRun(s: State, run: seq<Action>)
    requires Legal(s, run)
    decreases |run|
  {
    run == [] || (Fresh(s, run[0]) && FreshRun(Apply(s, run[0]), run[1..]))
  }

  lemma CommitLeavesBehind(s: State, o: string, row: Row, id: nat)
    requires Inv(s) && Enabled(s, Commit(o, row)) && Fresh(s, Commit(o, row)) && !s.listener.alive
    requires id in s.streams && s.streams[id].orderID == o && o in s.db && s.streams[id].pc != Opened
    ensures Behind(Apply(s, Commit(o, row)), id)
  {
    assert StreamOK(s.db, s.history, s.listener, id, s.streams[id]);
    assert s.streams[id].sent != [] ==> Last(s.streams[id].sent) in s.streams[id].sent;
    assert forall u :: u in s.listener.queue ==> u in s.history;
  }

  lemma BehindStep(s: State, a: Action, id: nat)
    requires Inv(s) && Behind(s, id) && Enabled(s, a) && Fresh(s, a) && a != Leave(id) && !CatchesUp(s, a, id)
    ensures Behind(Apply(s, a), id)
  {
    if a.Commit? && a.orderID == s.streams[id].orderID {
      CommitLeavesBehind(s, a.orderID, a.row, id);
    } else if a.Commit? {
      assert UpdateOf(a.orderID, a.row).orderID != s.streams[id].orderID;
    } else if a.Drop? || a.Deliver? {
      SendBehind(s, a, id);
    } else if a.Load? || a.Drain? || a.EndDrain? {
      ReadStepBehind(s, a, id);
    } else if a.Receive? || a.Send? {
      ForwardStepBehind(s, a, id);
    } else {
      ListenerStepBehind(s, a, id);
    }
  }

  lemma SendBehind(s: State, a: Action, id: nat)
    requires Inv(s) && Behind(s, id) && Enabled(s, a) && (a.Drop? || a.Deliver?)
    ensures Behind(Apply(s, a), id)
  {
  }

  lemma ReadStepBehind(s: State, a: Action, id: nat)
    requires Inv(s) && Behind(s, id) && Enabled(s, a) && (a.Load? || a.Drain? || a.EndDrain?)
    ensures Behind(Apply(s, a), id)
  {
  }

  lemma ForwardStepBehind(s: State, a: Action, id: nat)
    requires Inv(s) && Behind(s, id) && Enabled(s, a) && (a.Receive? || a.Send?)
    ensures Behind(Apply(s, a), id)
  {
  }

  lemma ListenerStepBehind(s: State, a: Action, id: nat)
    requires Inv(s) && Behind(s, id) && Enabled(s, a) && a != Leave(id) && !CatchesUp(s, a, id)
    requires !a.Commit? && !a.Drop? && !a.Deliver? && !StreamAction(a)
    ensures Behind(Apply(s, a), id)
  {
    if a.Break? || a.NoticeBreak? || a.Relisten? {
      ConnectionStepBehind(s, a, id);
    }
  }

  lemma ConnectionStepBehind(s: State, a: Action, id: nat)
    requires Behind(s, id) && Enabled(s, a) && (a.Break? || a.NoticeBreak? || a.Relisten?)
    ensures Behind(Apply(s, a), id)
  {
  }

  // No step of the run catches the stream up.
  ghost predicate NeverCaughtUp(s: State, run: seq<Action>, id: nat)
    requires Legal(s, run)
    decreases |run|
  {
    run == [] || (!CatchesUp(s, run[0], id) && NeverCaughtUp(Apply(s, run[0]), run[1..], id))
  }

  // A stream that is behind stays behind as long as nothing catches it up, through any number of lost
  // connections and failed passes over the snapshots.
  lemma {:induction false} BehindUntilCaughtUp(s: State, run: seq<Action>, id: nat)
    requires Inv(s) && Behind(s, id) && Legal(s, run) && FreshRun(s, run)
    requires NeverCaughtUp(s, run, id) && id in Final(s, run).streams
    ensures Behind(Final(s, run), id)
    decreases |run|
  {
    if run != [] {
      var s' := Apply(s, run[0]);
      StepKeepsInv(s, run[0]);
      if run[0] == Leave(id) {
        GoneForGood(s', run[1..], id);
      }
      BehindStep(s, run[0], id);
      BehindUntilCaughtUp(s', run[1..], id);
    }
  }

  lemma {:induction false} CaughtUpEver(s: State, run: seq<Action>, id: nat)
    requires Legal(s, run) && CaughtUp(s, run, id, false)
    ensures !NeverCaughtUp(s, run, id)
    decreases |run|
  {
    if run != [] && !CatchesUp(s, run[0], id) {
      CaughtUpEver(Apply(s, run[0]), run[1..], id);
    }
  }

  // A stream that drops the row is behind.
  lemma DropLeavesBehind(s: State, id: nat, now: nat)
    requires Inv(s) && Enabled(s, EndDrain(id, now)) && DropsRow(s.db, s.listener, id, s.streams[id])
    ensures Behind(Apply(s, EndDrain(id, now)), id)
  {
    assert StreamOK(s.db, s.history, s.listener, id, s.streams[id]);
  }

  // As long as no connection is lost, a stream that was synced or behind is one of the two.
  lemma {:induction false} SyncedOrBehind(s: State, run: seq<Action>, id: nat)
    requires Inv(s) && Legal(s, run) && FreshRun(s, run) && NoBreak(run)
    requires Synced(s, id) || Behind(s, id)
    requires id in Final(s, run).streams
    ensures Synced(Final(s, run), id) || Behind(Final(s, run), id)
    decreases |run|
  {
    if run != [] {
      var s' := Apply(s, run[0]);
      StepKeepsInv(s, run[0]);
      if run[0] == Leave(id) {
        GoneForGood(s', run[1..], id);
      }
      SyncedStep(s, run[0], id);
      if Drops(s, run[0], id) {
        DropLeavesBehind(s, id, run[0].now);
      } else if !Synced(s', id) {
        BehindStep(s, run[0], id);
      }
      SyncedOrBehind(s', run[1..], id);
    }
  }

  // Take any run, with any number of lost connections, from a state in which the stream is behind up to
  // a state in which nothing about its order is on its way any more. If the stream has caught up since
  // the last loss, it has sent the current row last; and it can have done so only if at some time it
  // has caught up.
  lemma ConvergesAcrossLosses(s: State, run: seq<Action>, id: nat)
    requires Reachable(s) && Behind(s, id) && Legal(s, run) && FreshRun(s, run)
    requires id in Final(s, run).streams && Quiet(Final(s, run), id)
    ensures var f := Final(s, run);
            var st := f.streams[id];
            && st.orderID in f.db && st.sent != []
            && var row := f.db[st.orderID];
            && (CaughtUp(s, run, id, false) ==> Last(st.sent) == Update(st.orderID, row.status, row.transactionID, row.updatedAt))
            && (Last(st.sent) == Update(st.orderID, row.status, row.transactionID, row.updatedAt) ==> !NeverCaughtUp(s, run, id))
  {
    ReachableInv(s);
    RunKeepsInv(s, run);
    SyncedFrom(s, run, id);
    var f := Final(s, run);
    assert StreamOK(f.db, f.history, f.listener, id, f.streams[id]);
    if NeverCaughtUp(s, run, id) {
      BehindUntilCaughtUp(s, run, id);
    }
  }

  // The exact condition, for runs without a further loss: the stream has sent the current row last if
  // and only if it has caught up and not dropped the row afterwards.
  lemma ConvergesIffCaughtUp(s: State, run: seq<Action>, id: nat)
    requires Reachable(s) && Behind(s, id) && Legal(s, run) && FreshRun(s, run) && NoBreak(run)
    requires id in Final(s, run).streams && Quiet(Final(s, run), id)
    ensures var f := Final(s, run);
            var st := f.streams[id];
            && st.orderID in f.db && st.sent != []
            && var row := f.db[st.orderID];
               (Last(st.sent) == Update(st.orderID, row.status, row.transactionID, row.updatedAt) <==> CaughtUp(s, run, id, false))
  {
    ReachableInv(s);
    ConvergesAcrossLosses(s, run, id);
    SyncedFrom(s, run, id);
    SyncedOrBehind(s, run, id);
  }

  // ---------- How a stream gets behind ----------

  // Any commit during an outage, whatever its time and however much of the queue survives, leaves every
  // stream of the order that has read its row behind.
  lemma OutageLeavesBehind(s: State, kept: nat, o: string, row: Row, id: nat)
    requires Reachable(s) && Enabled(s, Break(kept)) && Enabled(s, Commit(o, row)) && Fresh(s, Commit(o, row))
    requires id in s.streams && s.streams[id].orderID == o && o in s.db && s.streams[id].pc != Opened
    ensures var s1 := Apply(s, Break(kept)); Enabled(s1, Commit(o, row)) && Behind(Apply(s1, Commit(o, row)), id)
  {
    var s1 := Reach(s, Break(kept));
    ReachableInv(s1);
    CommitLeavesBehind(s1, o, row, id);
  }

  // The stream itself has the update: read, received or sent last.
  predicate Has(st: Stream, u: Update) {
    st.buffer == Some(u) ||
    match st.pc
    case Opened => false
    case Draining(initial, latest) => initial == u || latest == Some(u)
    case Sending(message) => message == u
    case Forwarding => st.sent != [] && Last(st.sent) == u
  }

  // A commit just before the outage: a stream that has read its row is left behind if the loss cuts
  // the row's notification from the queue, the row is not in the listener's hand for it, and the
  // stream does not have it yet; and, unless it is still draining, only then.
  lemma CutLeavesBehind(s: State, kept: nat, id: nat)
    requires Reachable(s) && Enabled(s, Break(kept)) && id in s.streams && s.streams[id].pc != Opened
    ensures s.streams[id].orderID in s.db
    ensures var st, o, l := s.streams[id], s.streams[id].orderID, s.listener;
            var row := UpdateOf(o, s.db[o]);
            var cut := row !in l.queue[..kept] && !(HeadedFor(l.hand, id, o) && l.hand.update == row) && !Has(st, row);
            && (cut ==> Behind(Apply(s, Break(kept)), id))
            && (Behind(Apply(s, Break(kept)), id) && !st.pc.Draining? ==> cut)
  {
    ReachableInv(s);
    assert StreamOK(s.db, s.history, s.listener, id, s.streams[id]);
  }

  // The rest of the queue is cut when the listener notices the loss.
  lemma NoticeLeavesBehind(s: State, id: nat)
    requires Reachable(s) && Enabled(s, NoticeBreak) && id in s.streams && s.streams[id].pc != Opened
    ensures s.streams[id].orderID in s.db
    ensures var row := UpdateOf(s.streams[id].orderID, s.db[s.streams[id].orderID]);
            && (!Has(s.streams[id], row) ==> Behind(Apply(s, NoticeBreak), id))
            && (Behind(Apply(s, NoticeBreak), id) && !s.streams[id].pc.Draining? ==> !Has(s.streams[id], row))
  {
    ReachableInv(s);
    assert StreamOK(s.db, s.history, s.listener, id, s.streams[id]);
  }

  // While the listener is connected, nothing is on its way to a stream that is not synced.
  predicate PendingIsSynced(s: State) {
    s.listener.alive ==>
      forall id :: id in s.streams && !s.streams[id].synced ==> NonePending(s.listener, id, s.streams[id].orderID)
  }

  lemma PendingIsSyncedStep(s: State, a: Action)
    requires Inv(s) && PendingIsSynced(s) && Enabled(s, a)
    ensures PendingIsSynced(Apply(s, a))
  {
    if StreamAction(a) {
      PendingIsSyncedStreamStep(s, a);
    } else if a.Drop? || a.Deliver? || a.BeginPublish? || a.EndPublish? || a.WaitForNotification? {
      PendingIsSyncedPublish(s, a);
    } else {
      PendingIsSyncedListenerStep(s, a);
    }
  }

  lemma PendingIsSyncedStreamStep(s: State, a: Action)
    requires PendingIsSynced(s) && Enabled(s, a) && StreamAction(a)
    ensures PendingIsSynced(Apply(s, a))
  {
    assert a.EndDrain? && DropsRow(s.db, s.listener, a.id, s.streams[a.id]) ==>
        NonePending(s.listener, a.id, s.streams[a.id].orderID);
  }

  lemma PendingIsSyncedPublish(s: State, a: Action)
    requires Inv(s) && PendingIsSynced(s) && Enabled(s, a)
    requires a.Drop? || a.Deliver? || a.BeginPublish? || a.EndPublish? || a.WaitForNotification?
    ensures PendingIsSynced(Apply(s, a))
  {
  }

  lemma PendingIsSyncedListenerStep(s: State, a: Action)
    requires Inv(s) && PendingIsSynced(s) && Enabled(s, a) && !StreamAction(a)
    requires !a.Drop? && !a.Deliver? && !a.BeginPublish? && !a.EndPublish? && !a.WaitForNotification?
    ensures PendingIsSynced(Apply(s, a))
  {
  }

  lemma {:induction false} PendingIsSyncedRun(s: State, run: seq<Action>)
    requires Inv(s) && PendingIsSynced(s) && Legal(s, run)
    ensures PendingIsSynced(Final(s, run))
    decreases |run|
  {
    if run != [] {
      StepKeepsInv(s, run[0]);
      PendingIsSyncedStep(s, run[0]);
      PendingIsSyncedRun(Apply(s, run[0]), run[1..]);
    }
  }

  // Reading the row while the listener is connected settles it: the stream has caught up, or its
  // channel holds another update whose time is not before the row's, and it is behind.
  lemma ReadCatchesUpOrLeavesBehind(s: State, id: nat, now: nat)
    requires Reachable(s) && s.listener.alive && Enabled(s, Load(id, now))
    ensures var st, row := s.streams[id], s.db[s.streams[id].orderID];
            var u, s' := UpdateOf(st.orderID, row), Apply(s, Load(id, now));
            var preferred := st.buffer.Some? && st.buffer.value.timestamp >= row.updatedAt && st.buffer.value != u;
            && (s'.streams[id].synced <==> st.synced || !preferred)
            && (!s'.streams[id].synced ==> Behind(s', id))
  {
    ReachableInv(s);
    var run :| Legal(Initial(), run) && Final(Initial(), run) == s;
    PendingIsSyncedRun(Initial(), run);
    assert StreamOK(s.db, s.history, s.listener, id, s.streams[id]);
    var u := UpdateOf(s.streams[id].orderID, s.db[s.streams[id].orderID]);
    if u in s.listener.queue {
      assert u.orderID == s.streams[id].orderID;
    }
  }

  // ---------- A failed pass over the snapshots ----------

  predicate Idle(l: Listener) {
    l.phase == Reading && l.alive && l.queue == [] && l.hand == Empty
  }

  // The listener notices the lost connection, listens again and gives up on the first snapshot.
  lemma ReconnectWithoutSnapshots(s: State, id: nat) returns (run: seq<Action>)
    requires Reachable(s) && !s.listener.alive && s.listener.phase == Reading && s.listener.hand == Empty && Behind(s, id)
    ensures Legal(s, run) && Idle(Final(s, run).listener) && Behind(Final(s, run), id) && Final(s, run).db == s.db
    ensures Final(s, run).streams[id] == s.streams[id]
  {
    var ids := ListsOrders(set i | i in s.streams :: s.streams[i].orderID);
    ConnectionStepBehind(s, NoticeBreak, id);
    var s1 := Apply(s, NoticeBreak);
    ConnectionStepBehind(s1, Relisten, id);
    var rest := GiveUpSnapshots(Apply(s1, Relisten), ids);
    RunFirst(s1, Relisten, rest);
    RunFirst(s, NoticeBreak, [Relisten] + rest);
    run := [NoticeBreak] + ([Relisten] + rest);
  }

  lemma GiveUpSnapshots(s: State, ids: seq<string>) returns (run: seq<Action>)
    requires Enabled(s, ListOrders(ids)) && s.listener.hand == Empty
    ensures Legal(s, run) && Final(s, run) == s.(listener := s.listener.(phase := Reading))
  {
    var s1 := Apply(s, ListOrders(ids));
    var s2 := Apply(s1, FailSnapshots);
    assert Legal(s2, []) && Final(s2, []) == s2;
    RunFirst(s1, FailSnapshots, []);
    RunFirst(s, ListOrders(ids), [FailSnapshots] + []);
    run := [ListOrders(ids)] + ([FailSnapshots] + []);
  }

  // From an idle listener on, the steps of listener and streams catch up no stream that has read its row.
  lemma IdleStep(s: State, a: Action, id: nat)
    requires Inv(s) && Idle(s.listener) && Behind(s, id) && Enabled(s, a) && Pipeline(a)
    ensures var s' := Apply(s, a); Idle(s'.listener) && Behind(s', id) && s'.db == s.db
  {
    BehindStep(s, a, id);
  }

  // Then a stream that is behind stays so under every schedule, and has not sent the current row last
  // when nothing is left to do.
  lemma {:induction false} IdleStaysBehind(s: State, run: seq<Action>, id: nat)
    requires Reachable(s) && Idle(s.listener) && Behind(s, id)
    requires Legal(s, run) && forall a :: a in run ==> Pipeline(a)
    ensures var f := Final(s, run);
            && Behind(f, id) && f.db == s.db
            && (Stuck(f) ==> f.streams[id].sent != []
                             && Last(f.streams[id].sent) != UpdateOf(f.streams[id].orderID, f.db[f.streams[id].orderID]))
    decreases |run|
  {
    ReachableInv(s);
    if run == [] {
      if Stuck(s) {
        StuckStreamIsQuiet(s, id);
      }
    } else {
      IdleStep(s, run[0], id);
      var s' := Reach(s, run[0]);
      IdleStaysBehind(s', run[1..], id);
    }
  }

  // The snapshots are needed. From every reachable state with a listener that is between two
  // notifications, and for every stream that has read its row and every new row of its order, the
  // connection can get lost, the row be committed and the pass over the snapshots fail, such that the
  // stream is behind and no schedule of what is left to do brings it up to date.
  lemma FailedResyncLosesCommit(s: State, id: nat, row: Row) returns (f: State, run: seq<Action>)
    requires Reachable(s) && s.listener.alive && s.listener.phase == Reading && s.listener.hand == Empty
    requires id in s.streams && s.streams[id].pc != Opened && s.streams[id].orderID in s.db
    requires row.updatedAt > 0 && UpdateOf(s.streams[id].orderID, row) !in s.history
    ensures Legal(s, run) && f == Final(s, run) && Idle(f.listener) && f.db == s.db[s.streams[id].orderID := row]
    ensures LostForGood(f, id, Update(s.streams[id].orderID, row.status, row.transactionID, row.updatedAt))
  {
    var o := s.streams[id].orderID;
    OutageLeavesBehind(s, 0, o, row, id);
    var s1 := Reach(s, Break(0));
    var s2 := Reach(s1, Commit(o, row));
    var back := ReconnectWithoutSnapshots(s2, id);
    RunFirst(s1, Commit(o, row), back);
    RunFirst(s, Break(0), [Commit(o, row)] + back);
    run := [Break(0)] + ([Commit(o, row)] + back);
    f := Final(s2, back);
    ReachRun(s2, back);
    BehindIsLost(f, id);
  }

  lemma RunFirst(s: State, a: Action, run: seq<Action>)
    requires Enabled(s, a) && Legal(Apply(s, a), run)
    ensures Legal(s, [a] + run) && Final(s, [a] + run) == Final(Apply(s, a), run)
  {
    assert ([a] + run)[1..] == run;
  }

  // However the listener and the streams are scheduled from here, in the end the stream has sent
  // something else than this row last.
  ghost predicate LostForGood(s: State, id: nat, row: Update) {
    forall run :: Legal(s, run) && (forall a :: a in run ==> Pipeline(a)) && Stuck(Final(s, run)) ==>
      var f := Final(s, run);
      id in f.streams && f.streams[id].sent != [] && Last(f.streams[id].sent) != row
  }

  lemma BehindIsLost(s: State, id: nat)
    requires Reachable(s) && Idle(s.listener) && Behind(s, id)
    ensures LostForGood(s, id, UpdateOf(s.streams[id].orderID, s.db[s.streams[id].orderID]))
  {
    ReachableInv(s);
    forall run | Legal(s, run) && (forall a :: a in run ==> Pipeline(a)) && Stuck(Final(s, run))
      ensures var f := Final(s, run);
              && id in f.streams && f.streams[id].sent != []
              && Last(f.streams[id].sent) != UpdateOf(s.streams[id].orderID, s.db[s.streams[id].orderID])
    {
      IdleStaysBehind(s, run, id);
      PipelineKeepsRows(s, run);
    }
  }

  lemma {:induction false} ReachRun(s: State, run: seq<Action>)
    requires Reachable(s) && Legal(s, run)
    ensures Reachable(Final(s, run))
    decreases |run|
  {
    if run != [] {
      var s' := Reach(s, run[0]);
      ReachRun(s', run[1..]);
    }
  }

  // The condition on the channel is needed as well. A stream that has not read yet holds an update in
  // its channel; during an outage a row with the same time or an earlier one is committed; the stream
  // reads it after the listener has reconnected, prefers the update in its channel, and is behind.
  lemma TiedReadIsLost(s: State, id: nat, row: Row) returns (run: seq<Action>)
    requires Reachable(s) && s.listener.alive && s.listener.phase == Reading && s.listener.hand == Empty
    requires id in s.streams && s.streams[id].pc == Opened && s.streams[id].orderID in s.db
    requires s.streams[id].buffer.Some? && s.streams[id].buffer.value.timestamp >= row.updatedAt > 0
    requires UpdateOf(s.streams[id].orderID, row) !in s.history
    ensures Legal(s, run) && Behind(Final(s, run), id) && Final(s, run).db == s.db[s.streams[id].orderID := row]
  {
    var o := s.streams[id].orderID;
    ReachableInv(s);
    var s1 := Reach(s, Break(0));
    var s2 := Reach(s1, Commit(o, row));
    assert StreamOK(s.db, s.history, s.listener, id, s.streams[id]);
    var back := ReconnectAndRead(s2, id);
    RunFirst(s1, Commit(o, row), back);
    RunFirst(s, Break(0), [Commit(o, row)] + back);
    run := [Break(0)] + ([Commit(o, row)] + back);
  }

  lemma ReconnectAndRead(s: State, id: nat) returns (run: seq<Action>)
    requires Reachable(s) && !s.listener.alive && s.listener.phase == Reading && s.listener.hand == Empty
    requires id in s.streams && s.streams[id].pc == Opened && s.streams[id].orderID in s.db && !s.streams[id].synced
    requires var st, row := s.streams[id], s.db[s.streams[id].orderID];
             st.buffer.Some? && st.buffer.value.timestamp >= row.updatedAt && st.buffer.value != UpdateOf(st.orderID, row)
    ensures Legal(s, run) && Behind(Final(s, run), id) && Final(s, run).db == s.db
  {
    var s1 := Reach(s, NoticeBreak);
    var s2 := Reach(s1, Relisten);
    ReadCatchesUpOrLeavesBehind(s2, id, 0);
    var s3 := Reach(s2, Load(id, 0));
    assert Legal(s3, []) && Final(s3, []) == s3;
    RunFirst(s2, Load(id, 0), []);
    RunFirst(s1, Relisten, [Load(id, 0)] + []);
    RunFirst(s, NoticeBreak, [Relisten] + ([Load(id, 0)] + []));
    run := [NoticeBreak] + ([Relisten] + ([Load(id, 0)] + []));
  }

  // ---------- The clock ----------

  // The time of an order's row never goes back.
  ghost predicate ForwardClock(s: State, run: seq<Action>)
    requires Legal(s, run)
    decreases |run|
  {
    run == [] || (ForwardStep(s, run[0]) && ForwardClock(Apply(s, run[0]), run[1..]))
  }

  // No update of an order is later than its row, and nothing was dropped.
  predicate InOrder(s: State) {
    && (forall u :: u in s.history ==> u.orderID in s.db && u.timestamp <= s.db[u.orderID].updatedAt)
    && (forall id :: id in s.streams ==> !s.streams[id].dropped)
  }

  predicate ForwardStep(s: State, a: Action) {
    a.Commit? && a.orderID in s.db ==> s.db[a.orderID].updatedAt <= a.row.updatedAt
  }

  lemma InOrderStep(s: State, a: Action)
    requires Inv(s) && InOrder(s) && Enabled(s, a) && ForwardStep(s, a)
    ensures InOrder(Apply(s, a))
  {
    if a.EndDrain? {
      InOrderEndDrain(s, a.id, a.now);
    } else {
      InOrderOther(s, a);
    }
  }

  lemma InOrderEndDrain(s: State, id: nat, now: nat)
    requires Inv(s) && InOrder(s) && Enabled(s, EndDrain(id, now))
    ensures InOrder(Apply(s, EndDrain(id, now)))
  {
    assert StreamOK(s.db, s.history, s.listener, id, s.streams[id]);
  }

  lemma InOrderOther(s: State, a: Action)
    requires InOrder(s) && Enabled(s, a) && ForwardStep(s, a) && !a.EndDrain?
    ensures InOrder(Apply(s, a))
  {
  }

  lemma {:induction false} InOrderRun(s: State, run: seq<Action>)
    requires Inv(s) && InOrder(s) && Legal(s, run) && ForwardClock(s, run)
    ensures InOrder(Final(s, run))
    decreases |run|
  {
    if run != [] {
      StepKeepsInv(s, run[0]);
      InOrderStep(s, run[0]);
      InOrderRun(Apply(s, run[0]), run[1..]);
    }
  }

  // As long as the time of a row never goes back, no drain drops the row: a stream that is covered,
  // as all are after a complete pass over the snapshots, is synced.
  lemma ForwardClockDropsNothing(run: seq<Action>, id: nat)
    requires Legal(Initial(), run) && ForwardClock(Initial(), run) && id in Final(Initial(), run).streams
    ensures var st := Final(Initial(), run).streams[id]; Covered(st) <==> st.synced
  {
    InOrderRun(Initial(), run);
  }

  // Reached by a run in which the time of a row never went back.
  ghost predicate ReachableForward(s: State) {
    exists run :: Legal(Initial(), run) && ForwardClock(Initial(), run) && Final(Initial(), run) == s
  }

  lemma ForwardIsInOrder(s: State)
    requires ReachableForward(s)
    ensures Reachable(s) && Inv(s) && InOrder(s)
  {
    var run :| Legal(Initial(), run) && ForwardClock(Initial(), run) && Final(Initial(), run) == s;
    InOrderRun(Initial(), run);
    ReachableInv(s);
  }

  // Then a complete pass over the snapshots synchronises every stream until the next lost connection.
  lemma ResyncSyncsEveryStream(s: State, run: seq<Action>)
    requires ReachableForward(s) && Legal(s, run) && NoBreak(run) && ForwardClock(s, run)
    requires s.listener.resynced || (s.listener.alive && run != [] && run[0] == EndSnapshots)
    ensures forall id :: id in Final(s, run).streams ==> Final(s, run).streams[id].synced
  {
    ForwardIsInOrder(s);
    ResyncCoversEveryStream(s, run);
    InOrderRun(s, run);
  }

  lemma {:induction false} PipelineIsForward(s: State, run: seq<Action>)
    requires Legal(s, run) && forall a :: a in run ==> Pipeline(a)
    ensures ForwardClock(s, run)
    decreases |run|
  {
    if run != [] {
      assert run[0] in run;
      PipelineIsForward(Apply(s, run[0]), run[1..]);
    }
  }

  // And every synced stream of an existing order ends with the current row under every schedule.
  lemma SyncedStreamsConverge(s: State, run: seq<Action>, id: nat)
    requires ReachableForward(s) && Legal(s, run) && (forall a :: a in run ==> Pipeline(a)) && Stuck(Final(s, run))
    requires Synced(s, id) && s.streams[id].orderID in s.db
    ensures var f, o := Final(s, run), s.streams[id].orderID;
            && id in f.streams && f.streams[id].sent != []
            && Last(f.streams[id].sent) == Update(o, s.db[o].status, s.db[o].transactionID, s.db[o].updatedAt)
  {
    ForwardIsInOrder(s);
    PipelineIsForward(s, run);
    InOrderRun(s, run);
    StreamsConverge(s, run, id);
  }

  // When the time goes back, a row is lost without any outage. From every reachable state with an
  // idle listener and a stream that has read its row and not drained its channel yet, a new row with
  // an earlier time is published, drained and dropped, and the stream is behind.
  lemma BackwardClockLosesCommit(s: State, id: nat, row: Row) returns (run: seq<Action>)
    requires Reachable(s) && Idle(s.listener) && id in s.streams && s.streams[id].pc.Draining?
    requires s.streams[id].buffer.None? && s.streams[id].orderID in s.db
    requires 0 < row.updatedAt < s.streams[id].pc.initial.timestamp && UpdateOf(s.streams[id].orderID, row) !in s.history
    ensures Legal(s, run) && NoBreak(run) && Behind(Final(s, run), id) && Final(s, run).db == s.db[s.streams[id].orderID := row]
  {
    var o := s.streams[id].orderID;
    var s1 := Reach(s, Commit(o, row));
    var s2 := Reach(s1, WaitForNotification);
    assert s2.listener.queue == [];
    var s3 := Reach(s2, BeginPublish);
    var rest := DeliverAndDrop(s3, id);
    RunFirst(s2, BeginPublish, rest);
    RunFirst(s1, WaitForNotification, [BeginPublish] + rest);
    RunFirst(s, Commit(o, row), [WaitForNotification] + ([BeginPublish] + rest));
    run := [Commit(o, row)] + ([WaitForNotification] + ([BeginPublish] + rest));
  }

  lemma DeliverAndDrop(s: State, id: nat) returns (run: seq<Action>)
    requires Reachable(s) && s.listener.queue == [] && s.listener.hand.Publishing? && id in s.listener.hand.pending
    requires id in s.streams && s.streams[id].pc.Draining? && s.streams[id].buffer.None? && s.streams[id].orderID in s.db
    requires s.listener.hand.update == UpdateOf(s.streams[id].orderID, s.db[s.streams[id].orderID])
    requires s.listener.hand.update.timestamp < s.streams[id].pc.initial.timestamp
    ensures Legal(s, run) && NoBreak(run) && Behind(Final(s, run), id) && Final(s, run).db == s.db
  {
    var s1 := Reach(s, Deliver(id));
    var rest := DrainAndDrop(s1, id);
    RunFirst(s, Deliver(id), rest);
    run := [Deliver(id)] + rest;
  }

  lemma DrainAndDrop(s: State, id: nat) returns (run: seq<Action>)
    requires Reachable(s) && id in s.streams && s.streams[id].pc.Draining? && s.streams[id].orderID in s.db
    requires NonePending(s.listener, id, s.streams[id].orderID)
    requires var row := UpdateOf(s.streams[id].orderID, s.db[s.streams[id].orderID]);
             s.streams[id].buffer == Some(row) && row.timestamp < s.streams[id].pc.initial.timestamp
    ensures Legal(s, run) && NoBreak(run) && Behind(Final(s, run), id) && Final(s, run).db == s.db
  {
    var s1 := Reach(s, Drain(id));
    ReachableInv(s1);
    DropLeavesBehind(s1, id, 0);
    var s2 := Apply(s1, EndDrain(id, 0));
    assert Legal(s2, []) && Final(s2, []) == s2;
    RunFirst(s1, EndDrain(id, 0), []);
    RunFirst(s, Drain(id), [EndDrain(id, 0)] + []);
    run := [Drain(id)] + ([EndDrain(id, 0)] + []);
  }
}
