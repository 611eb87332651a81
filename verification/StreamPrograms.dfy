// The listener goroutine and a gRPC stream as programs: their statements in the order in which the
// source has them, with everybody else running in between. Every statement is a step of the order
// update stream, so all that is proved about its reachable states holds at every point of them.

module StreamPrograms {
  import opened Common
  import opened Domain
  import opened Sorting
  import opened OrderStream
  import opened Convergence

  // Who runs a program.
  datatype Self = Nobody | TheListener | TheStream(id: nat)

  predicate ListenerStep(a: Action) {
    a.NoticeBreak? || a.Relisten? || a.ListOrders? || a.LoadSnapshot? || a.FailSnapshots? || a.EndSnapshots?
    || a.WaitForNotification? || a.BeginPublish? || a.Drop? || a.Deliver? || a.EndPublish?
  }

  predicate StreamStep(a: Action, id: nat) {
    (a.Load? || a.Drain? || a.EndDrain? || a.Receive? || a.Send? || a.Leave?) && a.id == id
  }

  predicate OwnStep(self: Self, a: Action) {
    match self
    case Nobody => false
    case TheListener => ListenerStep(a)
    case TheStream(id) => StreamStep(a, id)
  }

  // No row is deleted and no commit undone.
  predicate Grows(s: State, s': State) {
    s.db.Keys <= s'.db.Keys && forall u :: u in s.history ==> u in s'.history
  }

  // A connection that still lives was not lost in between, so it has missed nothing.
  predicate StillConnected(l: Listener, l': Listener) {
    l'.alive ==> l.alive && (l.resynced ==> l'.resynced)
  }

  // What nobody else changes: where the program stands and what it has done.
  predicate Undisturbed(self: Self, s: State, s': State) {
    match self
       case Nobody => true
       case TheListener =>
         && s'.listener.phase == s.listener.phase && s'.listener.hand == s.listener.hand
         && StillConnected(s.listener, s'.listener)
         && (s.listener.hand.Publishing? ==>
               forall id :: id in s.streams ==> id in s'.streams && (s.streams[id].buffer.None? ==> s'.streams[id].buffer.None?))
       case TheStream(id) =>
         id in s.streams ==>
           id in s'.streams && s'.streams[id].(buffer := None, synced := true, dropped := false) == s.streams[id].(buffer := None, synced := true, dropped := false)
  }

  lemma StepOfOthers(self: Self, s: State, a: Action)
    requires Inv(s) && Enabled(s, a) && !OwnStep(self, a)
    ensures Undisturbed(self, s, Apply(s, a)) && Grows(s, Apply(s, a))
  {
    match self
    case Nobody =>
    case TheListener => StepOfStreams(s, a);
    case TheStream(id) => StepOfOtherStreams(s, a, id);
  }

  lemma StepOfStreams(s: State, a: Action)
    requires Inv(s) && Enabled(s, a) && !ListenerStep(a)
    ensures Undisturbed(TheListener, s, Apply(s, a))
  {
  }

  lemma StepOfOtherStreams(s: State, a: Action, id: nat)
    requires Inv(s) && Enabled(s, a) && !StreamStep(a, id)
    ensures Undisturbed(TheStream(id), s, Apply(s, a))
  {
    if StreamAction(a) {
      StreamStepOfOther(s, a, id);
    } else {
      NoStreamStep(s, a, id);
    }
  }

  lemma StreamStepOfOther(s: State, a: Action, id: nat)
    requires Enabled(s, a) && StreamAction(a) && a.id != id
    ensures Undisturbed(TheStream(id), s, Apply(s, a))
  {
  }

  lemma NoStreamStep(s: State, a: Action, id: nat)
    requires Inv(s) && Enabled(s, a) && !StreamAction(a) && a != Leave(id)
    ensures Undisturbed(TheStream(id), s, Apply(s, a))
  {
    if ListenerStep(a) {
      ListenerLeavesStream(s, a, id);
    }
  }

  lemma ListenerLeavesStream(s: State, a: Action, id: nat)
    requires Enabled(s, a) && ListenerStep(a)
    ensures Undisturbed(TheStream(id), s, Apply(s, a))
  {
  }

  class World {
    var s: State
    var left: nat  // how many steps everybody else still makes in this run
    ghost var forward: bool  // no row's time has gone back

    ghost predicate Valid()
      reads this
    {
      Reachable(s) && (forward ==> InOrder(s))
    }

    constructor (left: nat)
      ensures Valid() && s == Initial() && this.left == left
    {
      s, this.left, forward := Initial(), left, true;
      new;
      InitialReachable();
    }

    method Take(a: Action)
      requires Valid() && Enabled(s, a)
      modifies this
      ensures Valid() && s == Apply(old(s), a) && left == old(left) && Grows(old(s), s)
      ensures forward == (old(forward) && ForwardStep(old(s), a))
    {
      ReachTo(s, a, Apply(s, a));
      forward := forward && ForwardStep(s, a);
      if forward {
        ReachableInv(s);
        InOrderStep(s, a);
      }
      s := Apply(s, a);
    }

    // The others make any number of steps.
    method OthersMayRun(self: Self)
      requires Valid()
      modifies this
      ensures Valid() && Undisturbed(self, old(s), s) && Grows(old(s), s)
      ensures left < old(left) || (left == old(left) && s == old(s))
    {
      var n: nat := *;
      while n > 0 && left > 0
        invariant Valid() && Undisturbed(self, old(s), s) && Grows(old(s), s)
        invariant left < old(left) || (left == old(left) && s == old(s))
        decreases left
      {
        var a: Action := *;
        if !OwnStep(self, a) && Enabled(s, a) {
          ReachableInv(s);
          StepOfOthers(self, s, a);
          Take(a);
        }
        left, n := left - 1, n - 1;
      }
    }
  }

  // ---------- SubscribeToOrderUpdates ----------

  // How a stream ends; Waiting: it has not ended, all that could be received has been sent.
  datatype StreamEnd = Waiting | ClientGone | NotFound | LoadFailed | InvalidRequest

  // The loop takes everything out of the channel and keeps the newest.
  method DrainLatest(w: World, id: nat, initial: Update, now: nat) returns (latest: Option<Update>)
    requires w.Valid() && id in w.s.streams && w.s.streams[id].pc == Draining(initial, None)
    modifies w
    ensures w.Valid() && id in w.s.streams && w.s.streams[id].buffer == None
    ensures w.s.streams[id].pc == Sending(FirstMessage(initial, latest, now))
    ensures Grows(old(w.s), w.s)
    ensures w.s.streams[id].orderID == old(w.s.streams[id].orderID) && w.s.streams[id].sent == old(w.s.streams[id].sent)
  {
    latest := None;
    w.OthersMayRun(TheStream(id));
    while w.s.streams[id].buffer.Some?
      invariant w.Valid() && id in w.s.streams && w.s.streams[id].pc == Draining(initial, latest)
      invariant Grows(old(w.s), w.s)
      invariant w.s.streams[id].orderID == old(w.s.streams[id].orderID) && w.s.streams[id].sent == old(w.s.streams[id].sent)
      decreases w.left, w.s.streams[id].buffer.Some?
    {
      latest := w.s.streams[id].buffer;
      w.Take(Drain(id));
      w.OthersMayRun(TheStream(id));
    }
    w.Take(EndDrain(id, now));
  }

  method ForwardOne(w: World, id: nat) returns (message: Update)
    requires w.Valid() && id in w.s.streams && w.s.streams[id].pc == Forwarding && w.s.streams[id].buffer.Some?
    modifies w
    ensures w.Valid() && id in w.s.streams && w.s.streams[id].pc == Forwarding && Grows(old(w.s), w.s)
    ensures w.s.streams[id].orderID == old(w.s.streams[id].orderID)
    ensures w.s.streams[id].sent == old(w.s.streams[id].sent) + [message]
    ensures w.left < old(w.left) || (w.left == old(w.left) && w.s.streams[id].buffer.None?)
  {
    var now: nat := *;
    message := MapUpdate(w.s.streams[id].buffer.value, now);
    w.Take(Receive(id, now));
    w.OthersMayRun(TheStream(id));
    w.Take(Send(id));
  }

  // The loop forwards until the client is gone or nothing is left to receive.
  method Forward(w: World, id: nat) returns (messages: seq<Update>, end: StreamEnd)
    requires w.Valid() && id in w.s.streams && w.s.streams[id].pc == Forwarding
    modifies w
    ensures w.Valid() && id in w.s.streams && w.s.streams[id].pc == Forwarding
    ensures w.s.streams[id].orderID == old(w.s.streams[id].orderID)
    ensures w.s.streams[id].sent == old(w.s.streams[id].sent) + messages && Grows(old(w.s), w.s)
    ensures end == ClientGone || (end == Waiting && w.s.streams[id].buffer.None?)
  {
    messages, end := [], ClientGone;
    w.OthersMayRun(TheStream(id));
    while w.s.streams[id].buffer.Some?
      invariant w.Valid() && id in w.s.streams && w.s.streams[id].pc == Forwarding
      invariant w.s.streams[id].orderID == old(w.s.streams[id].orderID)
      invariant w.s.streams[id].sent == old(w.s.streams[id].sent) + messages && Grows(old(w.s), w.s)
      decreases w.left, w.s.streams[id].buffer.Some?
    {
      if * {
        return;
      }
      var message := ForwardOne(w, id);
      messages := messages + [message];
      w.OthersMayRun(TheStream(id));
    }
    if * {
      return;
    }
    end := Waiting;
  }

  // The first message, from the snapshot and what was published since the subscription.
  method ReadFirst(w: World, id: nat, orderID: string) returns (initial: Update)
    requires w.Valid() && id in w.s.streams && w.s.streams[id].pc == Opened && w.s.streams[id].orderID == orderID
    requires orderID in w.s.db
    modifies w
    ensures w.Valid() && id in w.s.streams && w.s.streams[id].pc == Sending(initial) && Grows(old(w.s), w.s)
    ensures w.s.streams[id].orderID == orderID && w.s.streams[id].sent == old(w.s.streams[id].sent)
  {
    var now: nat, later: nat := *, *;
    initial := MapOrder(orderID, w.s.db[orderID], now);
    w.Take(Load(id, now));
    var latest := DrainLatest(w, id, initial, later);
    if latest.Some? && IsNewerUpdate(initial, latest.value) {
      initial := MapUpdate(latest.value, later);
    }
  }

  // The answer to the client, from the snapshot on.
  method ReadAndForward(w: World, id: nat, orderID: string) returns (messages: seq<Update>, end: StreamEnd)
    requires w.Valid() && id in w.s.streams && w.s.streams[id].pc == Opened && w.s.streams[id].orderID == orderID
    requires orderID in w.s.db && w.s.streams[id].sent == []
    modifies w
    ensures w.Valid() && id in w.s.streams && w.s.streams[id].orderID == orderID && orderID in w.s.db
    ensures w.s.streams[id].pc == Forwarding && messages != [] && w.s.streams[id].sent == messages
    ensures end == ClientGone || (end == Waiting && w.s.streams[id].buffer.None?)
  {
    var initial := ReadFirst(w, id, orderID);
    w.OthersMayRun(TheStream(id));
    w.Take(Send(id));
    messages, end := Forward(w, id);
    messages := [initial] + messages;
  }

  // Subscribe first, read second, drain third, then forward.
  method SubscribeToOrderUpdates(w: World, orderID: string) returns (id: nat, messages: seq<Update>, end: StreamEnd)
    requires w.Valid()
    modifies w
    ensures w.Valid()
    ensures forall u :: u in messages ==> u in w.s.history && u.orderID == orderID
    ensures end == InvalidRequest <==> Blank(orderID)
    ensures end == InvalidRequest ==> w.s == old(w.s)
    ensures end == NotFound ==> orderID !in old(w.s.db)
    ensures messages != [] ==> orderID in w.s.db
    // A stream that waits has sent the current row last, if its order's updates have all passed the listener.
    ensures end == Waiting && messages != [] ==>
              && id in w.s.streams && w.s.streams[id].orderID == orderID && orderID in w.s.db
              && var row := w.s.db[orderID];
                 (w.s.streams[id].synced && Quiet(w.s, id) ==>
                    Last(messages) == Update(orderID, row.status, row.transactionID, row.updatedAt))
    ensures end == Waiting && messages == [] ==> Locked(w.s)
  {
    id, messages := 0, [];
    if Blank(orderID) {
      return id, messages, InvalidRequest;
    }
    w.OthersMayRun(Nobody);
    if Locked(w.s) {
      return id, messages, Waiting;
    }
    id := w.s.nextID + 1;
    w.Take(Subscribe(orderID));
    w.OthersMayRun(TheStream(id));
    if orderID !in w.s.db {
      end := NotFound;
    } else if * {
      end := LoadFailed;
    } else {
      messages, end := ReadAndForward(w, id, orderID);
      QuietStreamShowsRow(w.s, id);
    }
    if end != Waiting && !Locked(w.s) {
      w.Take(Leave(id));
    }
  }

  // ---------- The listener ----------

  ghost predicate AllCovered(w: World)
    reads w
  {
    forall id :: id in w.s.streams ==> Covered(w.s.streams[id]) && (w.forward ==> w.s.streams[id].synced)
  }

  // Publish holds the read lock while it sends to every subscriber of the order.
  method Publish(w: World)
    requires w.Valid() && w.s.listener.hand.Holding?
    modifies w
    ensures w.Valid() && w.s.listener.hand == Empty && w.s.listener.phase == old(w.s.listener.phase)
    ensures StillConnected(old(w.s.listener), w.s.listener)
    ensures w.left < old(w.left) || (w.left == old(w.left) && w.s.listener.queue == old(w.s.listener.queue)
                                     && w.s.listener.alive == old(w.s.listener.alive))
  {
    var update := w.s.listener.hand.update;
    w.Take(BeginPublish);
    var pending := w.s.listener.hand.pending;
    while pending != {}
      invariant w.Valid() && w.s.listener.hand == Hand.Publishing(update, pending)
      invariant w.s.listener.phase == old(w.s.listener.phase) && StillConnected(old(w.s.listener), w.s.listener)
      invariant w.left < old(w.left) || (w.left == old(w.left) && w.s.listener.queue == old(w.s.listener.queue)
                                         && w.s.listener.alive == old(w.s.listener.alive))
    {
      var id :| id in pending;
      SendLatest(w, id);
      pending := pending - {id};
    }
    w.Take(EndPublish);
  }

  // sendLatest: the last send always finds room, because only the listener fills the channel.
  method SendLatest(w: World, id: nat)
    requires w.Valid() && w.s.listener.hand.Publishing? && id in w.s.listener.hand.pending
    modifies w
    ensures w.Valid() && w.s.listener.phase == old(w.s.listener.phase) && StillConnected(old(w.s.listener), w.s.listener)
    ensures w.s.listener.hand == Hand.Publishing(old(w.s.listener.hand.update), old(w.s.listener.hand.pending) - {id})
    ensures w.left < old(w.left) || (w.left == old(w.left) && w.s.listener.queue == old(w.s.listener.queue)
                                     && w.s.listener.alive == old(w.s.listener.alive))
  {
    w.OthersMayRun(TheListener);
    ReachableInv(w.s);
    if w.s.streams[id].buffer.Some? {
      w.OthersMayRun(TheListener);
      ReachableInv(w.s);
      if w.s.streams[id].buffer.Some? {
        w.Take(Drop(id));
      }
      w.OthersMayRun(TheListener);
    }
    w.Take(Deliver(id));
  }

  // broker.OrderIDs()
  method ListSubscribed(w: World)
    requires w.Valid() && w.s.listener.phase == Listening
    modifies w
    ensures w.Valid() && w.s.listener.phase.Resyncing? && w.s.listener.hand == Empty
    ensures w.left < old(w.left) || (w.left == old(w.left) && w.s.listener.alive == old(w.s.listener.alive))
  {
    w.OthersMayRun(TheListener);
    ReachableInv(w.s);
    var orders := set id | id in w.s.streams :: w.s.streams[id].orderID;
    var ids := SortedKeys(orders);
    SortedIsDistinct(ids);
    w.Take(ListOrders(ids));
  }

  // The body of the loop of publishSnapshots.
  method PublishSnapshot(w: World) returns (err: bool)
    requires w.Valid() && w.s.listener.phase.Resyncing? && w.s.listener.phase.todo != [] && w.s.listener.hand == Empty
    modifies w
    ensures w.Valid() && w.s.listener.hand == Empty
    ensures w.s.listener.phase == if err then Reading else Resyncing(old(w.s.listener.phase.todo)[1..])
    ensures w.left < old(w.left) || (w.left == old(w.left) && w.s.listener.alive == old(w.s.listener.alive))
  {
    w.OthersMayRun(TheListener);
    err := *;
    if err || !w.s.listener.alive {
      w.Take(FailSnapshots);
      return true;
    }
    w.Take(LoadSnapshot);
    if w.s.listener.hand.Holding? {
      w.OthersMayRun(TheListener);
      Publish(w);
    }
  }

  // What a finished pass of publishSnapshots gives: if the connection held, every stream is synced, or
  // has dropped its row because its time went back.
  method PublishSnapshots(w: World) returns (err: bool)
    requires w.Valid() && w.s.listener.phase == Listening
    modifies w
    ensures w.Valid() && w.s.listener.phase == Reading && w.s.listener.hand == Empty
    ensures w.left < old(w.left) || (w.left == old(w.left) && w.s.listener.alive == old(w.s.listener.alive))
    ensures !err && w.s.listener.alive ==>
              w.s.listener.resynced && AllCovered(w)
  {
    ListSubscribed(w);
    while w.s.listener.phase.todo != []
      invariant w.Valid() && w.s.listener.phase.Resyncing? && w.s.listener.hand == Empty
      invariant w.left < old(w.left) || (w.left == old(w.left) && w.s.listener.alive == old(w.s.listener.alive))
      decreases |w.s.listener.phase.todo|
    {
      err := PublishSnapshot(w);
      if err {
        return;
      }
    }
    w.Take(EndSnapshots);
    ReachableInv(w.s);
    err := false;
  }

  lemma SortedIsDistinct(ids: seq<string>)
    requires StrictlySorted(ids)
    ensures Distinct(ids)
  {
    forall i, j | 0 <= i < j < |ids| ensures ids[i] != ids[j] {
      LessIrreflexive(ids[i]);
    }
  }

  // The body of the loop of readNotifications.
  method PublishNotification(w: World)
    requires w.Valid() && w.s.listener.phase == Reading && w.s.listener.hand == Empty && w.s.listener.queue != []
    modifies w
    ensures w.Valid() && w.s.listener.phase == Reading && w.s.listener.hand == Empty
    ensures StillConnected(old(w.s.listener), w.s.listener)
    ensures w.left < old(w.left) || (w.left == old(w.left) && w.s.listener.queue == old(w.s.listener.queue)[1..]
                                     && w.s.listener.alive == old(w.s.listener.alive))
  {
    w.Take(WaitForNotification);
    w.OthersMayRun(TheListener);
    Publish(w);
  }

  // Returns when the connection is found to be broken, or when there is nothing to wait for any more.
  method ReadNotifications(w: World) returns (err: bool)
    requires w.Valid() && w.s.listener.phase == Reading && w.s.listener.hand == Empty
    modifies w
    ensures w.Valid() && w.s.listener.hand == Empty
    ensures !err ==> StillConnected(old(w.s.listener), w.s.listener)
    ensures w.left < old(w.left) || (w.left == old(w.left) && w.s.listener.alive == old(w.s.listener.alive))
    ensures if err then w.s.listener.phase == Down && !w.s.listener.alive
            else w.s.listener.phase == Reading && w.s.listener.alive && w.s.listener.queue == []
  {
    w.OthersMayRun(TheListener);
    while w.s.listener.queue != []
      invariant w.Valid() && w.s.listener.phase == Reading && w.s.listener.hand == Empty
      invariant StillConnected(old(w.s.listener), w.s.listener)
      invariant w.left < old(w.left) || (w.left == old(w.left) && w.s.listener.alive == old(w.s.listener.alive))
      decreases w.left, |w.s.listener.queue|
    {
      var lost: bool := *;
      if lost && !w.s.listener.alive {
        w.Take(NoticeBreak);
        return true;
      }
      PublishNotification(w);
      w.OthersMayRun(TheListener);
    }
    err := !w.s.listener.alive;
    if err {
      w.Take(NoticeBreak);
    }
  }

  // The goroutine: it ends the run waiting for a notification, or still trying to reconnect. However
  // often the connection was lost, if it waits and its last pass of publishSnapshots succeeded, every
  // open stream is synced, or has dropped its row because its time went back.
  method RunListener(w: World) returns (complete: bool)
    requires w.Valid() && w.s.listener.phase == Reading && w.s.listener.hand == Empty
    modifies w
    ensures w.Valid() && w.s.listener.hand == Empty
    ensures w.s.listener.phase == Down || (w.s.listener.phase == Reading && w.s.listener.queue == [])
    ensures complete && w.s.listener.phase == Reading ==> AllCovered(w)
  {
    complete := w.s.listener.resynced;
    while true
      invariant w.Valid() && w.s.listener.phase == Reading && w.s.listener.hand == Empty
      invariant complete && w.s.listener.alive ==> w.s.listener.resynced
      decreases w.left, !w.s.listener.alive
    {
      var err := ReadNotifications(w);
      if !err {
        ReachableInv(w.s);
        return;
      }
      w.OthersMayRun(TheListener);
      if * {
        return;
      }
      w.Take(Relisten);
      err := PublishSnapshots(w);
      complete := !err;
    }
  }
}
