// The order update stream as a step-level transition system: commits to the orders table, the
// Postgres listener with its connection, the capacity-1 "latest wins" channels of the broker,
// and the gRPC streams that subscribe, read a snapshot, drain and forward.

module OrderStream {
  import opened Common
  import opened Domain

  datatype Row = Row(status: Status, transactionID: string, createdAt: nat, updatedAt: nat)

  // What the trigger puts into a notification, and what a listener snapshot selects.
  function UpdateOf(orderID: string, row: Row): Update {
    Update(orderID, row.status, row.transactionID, row.updatedAt)
  }

  function MapOrder(orderID: string, row: Row, now: nat): Update {
    var timestamp := if row.updatedAt != 0 then row.updatedAt else row.createdAt;
    Update(orderID, row.status, row.transactionID, if timestamp != 0 then timestamp else now)
  }

  function MapUpdate(update: Update, now: nat): Update {
    if update.timestamp == 0 then update.(timestamp := now) else update
  }

  predicate IsNewerUpdate(initial: Update, update: Update) {
    if update.timestamp > initial.timestamp then true
    else if update.timestamp == initial.timestamp then
      update.status != initial.status || update.transactionID != initial.transactionID
    else false
  }

  // Where the listener goroutine stands. Reading covers the loop over WaitForNotification,
  // Down the time until the next successful LISTEN, Resyncing the loop of publishSnapshots.
  datatype Phase = Down | Listening | Resyncing(todo: seq<string>) | Reading

  // What the listener is about to publish or is publishing (holding the broker's read lock).
  datatype Hand = Empty | Holding(update: Update) | Publishing(update: Update, pending: set<nat>)

  // alive: the server still queues notifications for this connection.
  // resynced: no connection was lost since the last complete resync.
  datatype Listener = Listener(phase: Phase, alive: bool, resynced: bool, queue: seq<Update>, hand: Hand)

  datatype Pc = Opened | Draining(initial: Update, latest: Option<Update>) | Sending(message: Update) | Forwarding

  // sent: all messages sent to the client so far.
  // synced and dropped: history variables since the last lost connection, see Apply.
  datatype Stream = Stream(orderID: string, buffer: Option<Update>, pc: Pc, sent: seq<Update>, synced: bool, dropped: bool)

  // history: all updates ever committed, in commit order.
  datatype State = State(db: map<string, Row>, history: seq<Update>, listener: Listener,
                         streams: map<nat, Stream>, nextID: nat)

  datatype Action =
    | Commit(orderID: string, row: Row)
    | Break(kept: nat)
    | NoticeBreak
    | Relisten
    | ListOrders(orderIDs: seq<string>)
    | LoadSnapshot
    | FailSnapshots
    | EndSnapshots
    | WaitForNotification
    | BeginPublish
    | Drop(id: nat)
    | Deliver(id: nat)
    | EndPublish
    | Subscribe(orderID: string)
    | Load(id: nat, now: nat)
    | Drain(id: nat)
    | EndDrain(id: nat, now: nat)
    | Receive(id: nat, now: nat)
    | Send(id: nat)
    | Leave(id: nat)

  function Initial(): State {
    State(map[], [], Listener(Reading, true, true, [], Empty), map[], 0)
  }

  predicate Subscribed(s: State, orderID: string) {
    exists id :: id in s.streams && s.streams[id].orderID == orderID
  }

  // The read lock of Publish excludes Subscribe and the cancel closures.
  predicate Locked(s: State) {
    s.listener.hand.Publishing?
  }

  predicate Distinct(ids: seq<string>) {
    forall i, j :: 0 <= i < j < |ids| ==> ids[i] != ids[j]
  }

  predicate Enabled(s: State, a: Action) {
    var l := s.listener;
    match a
    case Commit(o, row) =>
      // NOW() is the start of the transaction: the time can be before that of the row it overwrites.
      row.updatedAt > 0
    case Break(kept) => l.alive && kept <= |l.queue|
    case NoticeBreak => !l.alive && l.phase == Reading && l.hand == Empty
    case Relisten => l.phase == Down
    case ListOrders(ids) =>
      l.phase == Listening && Distinct(ids)
      && (forall o :: o in ids ==> Subscribed(s, o))
      && (forall id :: id in s.streams ==> s.streams[id].orderID in ids)
    case LoadSnapshot => l.alive && l.phase.Resyncing? && l.phase.todo != [] && l.hand == Empty
    case FailSnapshots => l.phase.Resyncing? && l.hand == Empty
    case EndSnapshots => l.phase == Resyncing([]) && l.hand == Empty
    case WaitForNotification => l.phase == Reading && l.queue != [] && l.hand == Empty
    case BeginPublish => l.hand.Holding?
    case Drop(id) => l.hand.Publishing? && id in l.hand.pending && id in s.streams && s.streams[id].buffer.Some?
    case Deliver(id) => l.hand.Publishing? && id in l.hand.pending && id in s.streams && s.streams[id].buffer.None?
    case EndPublish => l.hand.Publishing? && l.hand.pending == {}
    case Subscribe(_) => !Locked(s)
    case Load(id, _) => id in s.streams && s.streams[id].pc == Opened && s.streams[id].orderID in s.db
    case Drain(id) => id in s.streams && s.streams[id].pc.Draining? && s.streams[id].buffer.Some?
    case EndDrain(id, _) => id in s.streams && s.streams[id].pc.Draining? && s.streams[id].buffer.None?
    case Receive(id, _) => id in s.streams && s.streams[id].pc == Forwarding && s.streams[id].buffer.Some?
    case Send(id) => id in s.streams && s.streams[id].pc.Sending?
    case Leave(id) => id in s.streams && !Locked(s)
  }

  predicate HeadedFor(hand: Hand, id: nat, orderID: string) {
    match hand
    case Empty => false
    case Holding(u) => u.orderID == orderID
    case Publishing(_, pending) => id in pending
  }

  // Nothing about the order is queued or in the listener's hand for the stream.
  predicate NonePending(l: Listener, id: nat, orderID: string) {
    (forall u :: u in l.queue ==> u.orderID != orderID) && !HeadedFor(l.hand, id, orderID)
  }

  // The end of the drain drops the current row, because its time is before that of the row that was
  // read, and nothing else will bring it.
  predicate DropsRow(db: map<string, Row>, l: Listener, id: nat, st: Stream) {
    && st.pc.Draining? && st.orderID in db
    && var row := UpdateOf(st.orderID, db[st.orderID]);
       st.pc.latest == Some(row) && Chosen(st.pc.initial, Some(row)) != row && NonePending(l, id, st.orderID)
  }

  function SubscribersOf(s: State, orderID: string): set<nat> {
    set id | id in s.streams && s.streams[id].orderID == orderID
  }

  // Every stream of the order counts as synced from here on: its row is in the listener's hand, or
  // queued for it.
  function MarkSynced(streams: map<nat, Stream>, orderID: string): map<nat, Stream> {
    map id | id in streams ::
      if streams[id].orderID == orderID then streams[id].(synced := true) else streams[id]
  }

  function MarkAllStale(streams: map<nat, Stream>): map<nat, Stream> {
    map id | id in streams :: streams[id].(synced := false, dropped := false)
  }

  function Apply(s: State, a: Action): State
    requires Enabled(s, a)
  {
    var l := s.listener;
    match a
    case Commit(o, row) =>
      // AFTER INSERT OR UPDATE ... FOR EACH ROW: one notification for every committed change.
      var u := UpdateOf(o, row);
      s.(db := s.db[o := row], history := s.history + [u],
         listener := if l.alive then l.(queue := l.queue + [u]) else l,
         streams := if l.alive then MarkSynced(s.streams, o) else s.streams)
    case Break(kept) =>
      s.(listener := l.(alive := false, resynced := false, queue := l.queue[..kept]),
         streams := MarkAllStale(s.streams))
    case NoticeBreak => s.(listener := l.(phase := Down, queue := []))
    case Relisten => s.(listener := l.(phase := Listening, alive := true, queue := []))
    case ListOrders(ids) => s.(listener := l.(phase := Resyncing(ids)))
    case LoadSnapshot =>
      var o := l.phase.todo[0];
      var hand := if o in s.db then Holding(UpdateOf(o, s.db[o])) else Empty;
      s.(listener := l.(phase := Resyncing(l.phase.todo[1..]), hand := hand),
         streams := MarkSynced(s.streams, o))
    case FailSnapshots => s.(listener := l.(phase := Reading))
    case EndSnapshots => s.(listener := l.(phase := Reading, resynced := l.alive))
    case WaitForNotification => s.(listener := l.(queue := l.queue[1..], hand := Holding(l.queue[0])))
    case BeginPublish =>
      s.(listener := l.(hand := Publishing(l.hand.update, SubscribersOf(s, l.hand.update.orderID))))
    case Drop(id) => s.(streams := s.streams[id := s.streams[id].(buffer := None)])
    case Deliver(id) =>
      s.(listener := l.(hand := Publishing(l.hand.update, l.hand.pending - {id})),
         streams := s.streams[id := s.streams[id].(buffer := Some(l.hand.update))])
    case EndPublish => s.(listener := l.(hand := Empty))
    case Subscribe(o) =>
      var id := s.nextID + 1;
      s.(nextID := id, streams := s.streams[id := Stream(o, None, Opened, [], l.alive, false)])
    case Load(id, now) =>
      var st := s.streams[id];
      var initial := MapOrder(st.orderID, s.db[st.orderID], now);
      s.(streams := s.streams[id := st.(pc := Draining(initial, None),
                                        synced := st.synced || (l.alive && Chosen(initial, st.buffer) == initial))])
    case Drain(id) =>
      var st := s.streams[id];
      s.(streams := s.streams[id := st.(buffer := None, pc := Draining(st.pc.initial, st.buffer))])
    case EndDrain(id, now) =>
      var st := s.streams[id];
      var drops := DropsRow(s.db, l, id, st);
      s.(streams := s.streams[id := st.(pc := Sending(FirstMessage(st.pc.initial, st.pc.latest, now)),
                                        synced := st.synced && !drops,
                                        dropped := st.dropped || (st.synced && drops))])
    case Receive(id, now) =>
      var st := s.streams[id];
      s.(streams := s.streams[id := st.(buffer := None, pc := Sending(MapUpdate(st.buffer.value, now)))])
    case Send(id) =>
      var st := s.streams[id];
      s.(streams := s.streams[id := st.(pc := Forwarding, sent := st.sent + [st.pc.message])])
    case Leave(id) => s.(streams := s.streams - {id})
  }

  // The one of two updates that isNewerUpdate prefers.
  function Chosen(initial: Update, latest: Option<Update>): Update {
    if latest.Some? && IsNewerUpdate(initial, latest.value) then latest.value else initial
  }

  function FirstMessage(initial: Update, latest: Option<Update>, now: nat): Update {
    if latest.Some? && IsNewerUpdate(initial, latest.value) then MapUpdate(latest.value, now) else initial
  }

  // The time that a client is shown: the first one that is not zero.
  lemma ShownTime(orderID: string, row: Row, update: Update, now: nat)
    requires now > 0
    ensures var time := MapOrder(orderID, row, now).timestamp;
            if row.updatedAt > 0 then time == row.updatedAt else if row.createdAt > 0 then time == row.createdAt else time == now
    ensures MapUpdate(update, now).timestamp == (if update.timestamp > 0 then update.timestamp else now)
    ensures MapUpdate(update, now).(timestamp := update.timestamp) == update
  {
  }

  // ---------- Runs ----------

  ghost predicate Legal(s: State, run: seq<Action>)
    decreases |run|
  {
    run == [] || (Enabled(s, run[0]) && Legal(Apply(s, run[0]), run[1..]))
  }

  ghost function Final(s: State, run: seq<Action>): State
    requires Legal(s, run)
    decreases |run|
  {
    if run == [] then s else Final(Apply(s, run[0]), run[1..])
  }

  // s can be reached from the start of the order service.
  ghost predicate Reachable(s: State) {
    exists run :: Legal(Initial(), run) && Final(Initial(), run) == s
  }

  lemma {:induction false} RunThenStep(s: State, run: seq<Action>, a: Action)
    requires Legal(s, run) && Enabled(Final(s, run), a)
    ensures Legal(s, run + [a]) && Final(s, run + [a]) == Apply(Final(s, run), a)
    decreases |run|
  {
    if run != [] {
      RunThenStep(Apply(s, run[0]), run[1..], a);
      assert (run + [a])[1..] == run[1..] + [a];
    }
  }

  lemma Reach(s: State, a: Action) returns (s': State)
    requires Reachable(s) && Enabled(s, a)
    ensures s' == Apply(s, a) && Reachable(s')
  {
    s' := Apply(s, a);
    var run :| Legal(Initial(), run) && Final(Initial(), run) == s;
    RunThenStep(Initial(), run, a);
  }

  // ---------- The invariant ----------

  // The last queued notification about an order.
  function LastFor(queue: seq<Update>, orderID: string): Option<Update> {
    if queue == [] then None
    else if Last(queue).orderID == orderID then Some(Last(queue))
    else LastFor(queue[..|queue| - 1], orderID)
  }

  // The youngest update on its way to the client of a stream, wherever it is, is this one: still
  // queued, in the listener's hand, buffered, read but not sent, or sent last.
  predicate Carries(l: Listener, id: nat, st: Stream, u: Update) {
    var queued := LastFor(l.queue, st.orderID);
    if queued.Some? then queued.value == u
    else if HeadedFor(l.hand, id, st.orderID) then l.hand.update == u
    else match st.pc
      case Opened => st.buffer.Some? ==> st.buffer.value == u
      case Draining(initial, latest) =>
        var drained := if st.buffer.Some? then st.buffer else latest;
        drained == Some(u) || Chosen(initial, drained) == u
      case Sending(message) => (if st.buffer.Some? then st.buffer.value else message) == u
      case Forwarding => if st.buffer.Some? then st.buffer.value == u else st.sent != [] && Last(st.sent) == u
  }

  // u is an update of the order that was committed at some time.
  predicate Genuine(db: map<string, Row>, history: seq<Update>, orderID: string, u: Update) {
    u in history && u.orderID == orderID && orderID in db && 0 < u.timestamp
  }

  predicate StreamOK(db: map<string, Row>, history: seq<Update>, l: Listener, id: nat, st: Stream) {
    && (st.orderID !in db ==> st.pc == Opened)
    && (st.buffer.Some? ==> Genuine(db, history, st.orderID, st.buffer.value))
    && (match st.pc
        case Opened => st.sent == []
        case Draining(initial, latest) =>
          && st.sent == []
          && Genuine(db, history, st.orderID, initial)
          && (latest.Some? ==> Genuine(db, history, st.orderID, latest.value))
        case Sending(message) => Genuine(db, history, st.orderID, message)
        case Forwarding => st.sent != [])
    && (forall u :: u in st.sent ==> Genuine(db, history, st.orderID, u))
    && (st.synced ==>
        && l.alive
        && (st.orderID in db ==> Carries(l, id, st, UpdateOf(st.orderID, db[st.orderID]))))
  }

  predicate ListenerOK(db: map<string, Row>, history: seq<Update>, l: Listener) {
    && (forall i :: 0 <= i < |l.queue| ==> Genuine(db, history, l.queue[i].orderID, l.queue[i]))
    && (!l.hand.Empty? ==> Genuine(db, history, l.hand.update.orderID, l.hand.update))
    && (l.phase == Down ==> !l.alive && l.hand == Empty)
    && (l.phase == Listening ==> l.hand == Empty)
    && (l.alive ==>
        && (forall o :: o in db && LastFor(l.queue, o).Some? ==> LastFor(l.queue, o).value == UpdateOf(o, db[o]))
        && (!l.hand.Empty? && LastFor(l.queue, l.hand.update.orderID).None? ==>
              l.hand.update == UpdateOf(l.hand.update.orderID, db[l.hand.update.orderID])))
  }

  predicate PendingOK(s: State) {
    s.listener.hand.Publishing? ==>
      forall id :: id in s.listener.hand.pending ==>
        id in s.streams && s.streams[id].orderID == s.listener.hand.update.orderID
  }

  // Synced, or its drain has dropped the row since.
  predicate Covered(st: Stream) {
    st.synced || st.dropped
  }

  // Between OrderIDs and the last snapshot only streams of orders still to load may be stale.
  predicate ResyncOK(s: State) {
    && (s.listener.resynced ==> s.listener.alive && s.listener.phase == Reading)
    && (s.listener.resynced ==> forall id :: id in s.streams ==> Covered(s.streams[id]))
    && (s.listener.alive && s.listener.phase.Resyncing? ==>
          forall id :: id in s.streams && !Covered(s.streams[id]) ==> s.streams[id].orderID in s.listener.phase.todo)
  }

  predicate RowsOK(s: State) {
    forall o :: o in s.db ==> s.db[o].updatedAt > 0 && UpdateOf(o, s.db[o]) in s.history
  }

  predicate Inv(s: State) {
    && RowsOK(s)
    && ListenerOK(s.db, s.history, s.listener)
    && PendingOK(s)
    && ResyncOK(s)
    && (forall id :: id in s.streams ==> id <= s.nextID)
    && (forall id :: id in s.streams ==> StreamOK(s.db, s.history, s.listener, id, s.streams[id]))
  }

  // ---------- Preservation ----------

  lemma {:induction false} LastForAppend(queue: seq<Update>, u: Update, o: string)
    ensures LastFor(queue + [u], o) == if u.orderID == o then Some(u) else LastFor(queue, o)
  {
    assert (queue + [u])[..|queue|] == queue;
  }

  // Popping the head keeps the last entry about an order unless the head was its only entry.
  lemma {:induction false} LastForPop(queue: seq<Update>, o: string)
    requires queue != []
    ensures LastFor(queue, o) ==
            if LastFor(queue[1..], o).Some? then LastFor(queue[1..], o)
            else if queue[0].orderID == o then Some(queue[0]) else None
  {
    if |queue| > 1 && Last(queue).orderID != o {
      LastForPop(queue[..|queue| - 1], o);
      assert queue[1..][..|queue| - 2] == queue[..|queue| - 1][1..];
    }
  }

  lemma {:induction false} LastForIsQueued(queue: seq<Update>, o: string)
    ensures LastFor(queue, o).Some? ==> LastFor(queue, o).value in queue && LastFor(queue, o).value.orderID == o
  {
    if queue != [] && Last(queue).orderID != o {
      LastForIsQueued(queue[..|queue| - 1], o);
    }
  }

  lemma BreakKeepsInv(s: State, kept: nat)
    requires Inv(s) && Enabled(s, Break(kept))
    ensures Inv(Apply(s, Break(kept)))
  {
  }

  lemma NoticeBreakKeepsInv(s: State)
    requires Inv(s) && Enabled(s, NoticeBreak)
    ensures Inv(Apply(s, NoticeBreak))
  {
  }

  lemma RelistenKeepsInv(s: State)
    requires Inv(s) && Enabled(s, Relisten)
    ensures Inv(Apply(s, Relisten))
  {
  }

  lemma ListOrdersKeepsInv(s: State, orderIDs: seq<string>)
    requires Inv(s) && Enabled(s, ListOrders(orderIDs))
    ensures Inv(Apply(s, ListOrders(orderIDs)))
  {
  }

  lemma FailSnapshotsKeepsInv(s: State)
    requires Inv(s) && Enabled(s, FailSnapshots)
    ensures Inv(Apply(s, FailSnapshots))
  {
  }

  lemma EndSnapshotsKeepsInv(s: State)
    requires Inv(s) && Enabled(s, EndSnapshots)
    ensures Inv(Apply(s, EndSnapshots))
  {
  }

  lemma BeginPublishKeepsInv(s: State)
    requires Inv(s) && Enabled(s, BeginPublish)
    ensures Inv(Apply(s, BeginPublish))
  {
  }

  lemma DeliverKeepsInv(s: State, id: nat)
    requires Inv(s) && Enabled(s, Deliver(id))
    ensures Inv(Apply(s, Deliver(id)))
  {
  }

  lemma DropKeepsInv(s: State, id: nat)
    requires Inv(s) && Enabled(s, Drop(id))
    ensures Inv(Apply(s, Drop(id)))
  {
  }

  lemma EndPublishKeepsInv(s: State)
    requires Inv(s) && Enabled(s, EndPublish)
    ensures Inv(Apply(s, EndPublish))
  {
  }

  lemma SubscribeKeepsInv(s: State, orderID: string)
    requires Inv(s) && Enabled(s, Subscribe(orderID))
    ensures Inv(Apply(s, Subscribe(orderID)))
  {
    LastForIsQueued(s.listener.queue, orderID);
  }

  lemma LoadKeepsInv(s: State, id: nat, now: nat)
    requires Inv(s) && Enabled(s, Load(id, now))
    ensures Inv(Apply(s, Load(id, now)))
  {
  }

  lemma DrainKeepsInv(s: State, id: nat)
    requires Inv(s) && Enabled(s, Drain(id))
    ensures Inv(Apply(s, Drain(id)))
  {
  }

  lemma {:induction false} LastForNone(queue: seq<Update>, o: string)
    ensures LastFor(queue, o).None? <==> forall u :: u in queue ==> u.orderID != o
  {
    if queue != [] && Last(queue).orderID != o {
      LastForNone(queue[..|queue| - 1], o);
      assert queue == queue[..|queue| - 1] + [Last(queue)];
    }
  }

  lemma EndDrainKeepsInv(s: State, id: nat, now: nat)
    requires Inv(s) && Enabled(s, EndDrain(id, now))
    ensures Inv(Apply(s, EndDrain(id, now)))
  {
    LastForNone(s.listener.queue, s.streams[id].orderID);
  }

  lemma ReceiveKeepsInv(s: State, id: nat, now: nat)
    requires Inv(s) && Enabled(s, Receive(id, now))
    ensures Inv(Apply(s, Receive(id, now)))
  {
  }

  lemma SendKeepsInv(s: State, id: nat)
    requires Inv(s) && Enabled(s, Send(id))
    ensures Inv(Apply(s, Send(id)))
  {
  }

  lemma LeaveKeepsInv(s: State, id: nat)
    requires Inv(s) && Enabled(s, Leave(id))
    ensures Inv(Apply(s, Leave(id)))
  {
  }

  lemma CommitKeepsListener(s: State, o: string, row: Row)
    requires Inv(s) && Enabled(s, Commit(o, row))
    ensures var s' := Apply(s, Commit(o, row)); ListenerOK(s'.db, s'.history, s'.listener)
  {
    forall p ensures LastFor(s.listener.queue + [UpdateOf(o, row)], p) ==
                     if p == o then Some(UpdateOf(o, row)) else LastFor(s.listener.queue, p)
    {
      LastForAppend(s.listener.queue, UpdateOf(o, row), p);
    }
  }

  lemma CommitKeepsStream(s: State, o: string, row: Row, id: nat)
    requires Inv(s) && Enabled(s, Commit(o, row)) && id in s.streams
    ensures var s' := Apply(s, Commit(o, row)); id in s'.streams && StreamOK(s'.db, s'.history, s'.listener, id, s'.streams[id])
  {
    var st := s.streams[id];
    LastForAppend(s.listener.queue, UpdateOf(o, row), st.orderID);
  }

  lemma CommitKeepsInv(s: State, o: string, row: Row)
    requires Inv(s) && Enabled(s, Commit(o, row))
    ensures Inv(Apply(s, Commit(o, row)))
  {
    var s' := Apply(s, Commit(o, row));
    CommitKeepsListener(s, o, row);
    CommitKeepsResync(s, o, row);
    forall id | id in s'.streams ensures StreamOK(s'.db, s'.history, s'.listener, id, s'.streams[id]) {
      CommitKeepsStream(s, o, row, id);
    }
  }

  lemma CommitKeepsResync(s: State, o: string, row: Row)
    requires Inv(s) && Enabled(s, Commit(o, row))
    ensures var s' := Apply(s, Commit(o, row)); RowsOK(s') && PendingOK(s') && ResyncOK(s')
  {
  }

  lemma LoadSnapshotKeepsStream(s: State, id: nat)
    requires Inv(s) && Enabled(s, LoadSnapshot) && id in s.streams
    ensures var s' := Apply(s, LoadSnapshot); StreamOK(s'.db, s'.history, s'.listener, id, s'.streams[id])
  {
    LastForIsQueued(s.listener.queue, s.streams[id].orderID);
  }

  lemma LoadSnapshotKeepsInv(s: State)
    requires Inv(s) && Enabled(s, LoadSnapshot)
    ensures Inv(Apply(s, LoadSnapshot))
  {
    var s' := Apply(s, LoadSnapshot);
    forall id | id in s.streams ensures StreamOK(s'.db, s'.history, s'.listener, id, s'.streams[id]) {
      LoadSnapshotKeepsStream(s, id);
    }
    assert s.listener.phase.todo == [s.listener.phase.todo[0]] + s'.listener.phase.todo;
  }

  lemma WaitForNotificationKeepsInv(s: State)
    requires Inv(s) && Enabled(s, WaitForNotification)
    ensures Inv(Apply(s, WaitForNotification))
  {
    forall p ensures LastFor(s.listener.queue, p) ==
      var rest := LastFor(s.listener.queue[1..], p);
      if rest.Some? then rest
      else if s.listener.queue[0].orderID == p then Some(s.listener.queue[0]) else None
    {
      LastForPop(s.listener.queue, p);
    }
  }

  lemma StepKeepsInv(s: State, a: Action)
    requires Inv(s) && Enabled(s, a)
    ensures Inv(Apply(s, a))
  {
    match a
    case Commit(o, row) => CommitKeepsInv(s, o, row);
    case LoadSnapshot => LoadSnapshotKeepsInv(s);
    case WaitForNotification => WaitForNotificationKeepsInv(s);
    case Break(kept) => BreakKeepsInv(s, kept);
    case NoticeBreak => NoticeBreakKeepsInv(s);
    case Relisten => RelistenKeepsInv(s);
    case ListOrders(orderIDs) => ListOrdersKeepsInv(s, orderIDs);
    case FailSnapshots => FailSnapshotsKeepsInv(s);
    case EndSnapshots => EndSnapshotsKeepsInv(s);
    case BeginPublish => BeginPublishKeepsInv(s);
    case Drop(id) => DropKeepsInv(s, id);
    case Deliver(id) => DeliverKeepsInv(s, id);
    case EndPublish => EndPublishKeepsInv(s);
    case Subscribe(orderID) => SubscribeKeepsInv(s, orderID);
    case Load(id, now) => LoadKeepsInv(s, id, now);
    case Drain(id) => DrainKeepsInv(s, id);
    case EndDrain(id, now) => EndDrainKeepsInv(s, id, now);
    case Receive(id, now) => ReceiveKeepsInv(s, id, now);
    case Send(id) => SendKeepsInv(s, id);
    case Leave(id) => LeaveKeepsInv(s, id);
  }


  lemma {:induction false} RunKeepsInv(s: State, run: seq<Action>)
    requires Inv(s) && Legal(s, run)
    ensures Inv(Final(s, run))
    decreases |run|
  {
    if run != [] {
      StepKeepsInv(s, run[0]);
      RunKeepsInv(Apply(s, run[0]), run[1..]);
    }
  }

  // ---------- Safety: nothing committed is lost ----------

  // Nothing about the order is on its way to this stream any more.
  predicate Quiet(s: State, id: nat)
    requires id in s.streams
  {
    var st := s.streams[id];
    && LastFor(s.listener.queue, st.orderID).None?
    && !HeadedFor(s.listener.hand, id, st.orderID)
    && st.buffer.None?
    && st.pc == Forwarding
  }

  lemma ReachableInv(s: State)
    requires Reachable(s)
    ensures Inv(s)
  {
    var run :| Legal(Initial(), run) && Final(Initial(), run) == s;
    RunKeepsInv(Initial(), run);
  }

  // In every reachable state, the newest update on its way to a synced stream is the current row,
  // so a quiet stream has sent the current row last; and it never sent anything that was not
  // committed for its order.
  lemma QuietStreamShowsRow(s: State, id: nat)
    requires Reachable(s) && id in s.streams
    ensures var st := s.streams[id];
            && (st.pc == Forwarding ==> st.sent != [])
            && (st.pc != Opened ==> st.orderID in s.db)
            && (forall u :: u in st.sent ==> u.orderID == st.orderID && u in s.history)
    ensures var st := s.streams[id];
            st.synced && st.pc != Opened ==>
              var row := s.db[st.orderID];
              var shown := Update(st.orderID, row.status, row.transactionID, row.updatedAt);
              Carries(s.listener, id, st, shown) && (Quiet(s, id) ==> Last(st.sent) == shown)
  {
    ReachableInv(s);
  }

  predicate NoBreak(run: seq<Action>) {
    forall a :: a in run ==> !a.Break?
  }

  // A complete pass of publishSnapshots on a connection that is still alive synchronises every open
  // stream, and from then on (or from the start of the service) every stream, old or new, stays
  // synchronised until a connection breaks again.
  lemma {:induction false} ResyncCoversEveryStream(s: State, run: seq<Action>)
    requires Reachable(s) && Legal(s, run) && NoBreak(run)
    requires s.listener.resynced || (s.listener.alive && run != [] && run[0] == EndSnapshots)
    ensures var f := Final(s, run);
            f.listener.resynced && forall id :: id in f.streams ==> Covered(f.streams[id])
    decreases |run|
  {
    ReachableInv(s);
    if run != [] {
      var s' := Reach(s, run[0]);
      ReachableInv(s');
      ResyncCoversEveryStream(s', run[1..]);
    }
  }

  // ---------- Liveness: once the commits stop, the pipeline empties itself ----------

  // Steps of the listener and the streams; no commit, lost connection, new or leaving client.
  predicate Pipeline(a: Action) {
    !a.Commit? && !a.Break? && !a.Subscribe? && !a.Leave?
  }

  function StreamWork(st: Stream): nat {
    (if st.buffer.Some? then 2 else 0) +
    (match st.pc case Opened => 3 case Draining(_, _) => 2 case Sending(_) => 1 case Forwarding => 0)
  }

  ghost function SumWork(streams: map<nat, Stream>): nat
    decreases |streams|
  {
    if streams == map[] then 0 else
      var id :| id in streams;
      StreamWork(streams[id]) + SumWork(streams - {id})
  }

  // n streams: taking a notification, publishing it and forwarding it everywhere.
  function PublishCost(n: nat): nat { 3 + 3 * n }

  function HandWork(hand: Hand, n: nat): nat {
    match hand
    case Empty => 0
    case Holding(_) => 2 + 3 * n
    case Publishing(_, pending) => 1 + 3 * |pending|
  }

  function PhaseWork(l: Listener, n: nat): nat {
    var resync := n * PublishCost(n) + 2;
    match l.phase
    case Down => resync + 1
    case Listening => resync + (if l.alive then 0 else resync + 3)
    case Resyncing(todo) => |todo| * PublishCost(n) + 1 + (if l.alive then 0 else resync + 3)
    case Reading => if l.alive then 0 else resync + 3
  }

  // A bound on the number of pipeline steps that can still happen.
  ghost function Work(s: State): nat {
    var n := |s.streams|;
    PhaseWork(s.listener, n) + |s.listener.queue| * PublishCost(n) + HandWork(s.listener.hand, n) + SumWork(s.streams)
  }

  lemma {:induction false} SumWorkSplit(streams: map<nat, Stream>, id: nat)
    requires id in streams
    ensures SumWork(streams) == StreamWork(streams[id]) + SumWork(streams - {id})
    decreases |streams|
  {
    var p :| p in streams && SumWork(streams) == StreamWork(streams[p]) + SumWork(streams - {p});
    if p != id {
      SumWorkSplit(streams - {p}, id);
      SumWorkSplit(streams - {id}, p);
      assert streams - {p} - {id} == streams - {id} - {p};
    }
  }

  lemma SumWorkUpdate(streams: map<nat, Stream>, id: nat, st: Stream)
    requires id in streams
    ensures SumWork(streams[id := st]) == SumWork(streams) - StreamWork(streams[id]) + StreamWork(st)
  {
    SumWorkSplit(streams, id);
    SumWorkSplit(streams[id := st], id);
    assert streams[id := st] - {id} == streams - {id};
  }

  lemma {:induction false} SumWorkSame(a: map<nat, Stream>, b: map<nat, Stream>)
    requires a.Keys == b.Keys && forall id :: id in a ==> StreamWork(a[id]) == StreamWork(b[id])
    ensures SumWork(a) == SumWork(b)
    decreases |a|
  {
    if a != map[] {
      var id :| id in a;
      SumWorkSplit(a, id);
      SumWorkSplit(b, id);
      assert |a - {id}| < |a| by { assert (a - {id}).Keys == a.Keys - {id}; }
      SumWorkSame(a - {id}, b - {id});
    }
  }

  // There are no more orders to load than streams.
  lemma {:induction false} FewOrders(ids: seq<string>, streams: map<nat, Stream>)
    requires Distinct(ids)
    requires forall o :: o in ids ==> exists id :: id in streams && streams[id].orderID == o
    ensures |ids| <= |streams|
    decreases |ids|
  {
    if ids != [] {
      assert ids[0] in ids;
      var id :| id in streams && streams[id].orderID == ids[0];
      var rest := streams - {id};
      forall o | o in ids[1..] ensures exists k :: k in rest && rest[k].orderID == o {
        assert o in ids;
        var k :| k in streams && streams[k].orderID == o;
        assert k in rest && rest[k].orderID == o;
      }
      FewOrders(ids[1..], rest);
      assert rest.Keys == streams.Keys - {id};
    }
  }

  lemma TimesOneLess(k: nat, c: nat)
    requires k > 0
    ensures (k - 1) * c == k * c - c
  {
  }

  lemma TimesMonotone(j: nat, k: nat, c: nat)
    requires j <= k
    ensures j * c <= k * c
  {
  }

  lemma StreamStepWorks(s: State, a: Action)
    requires Enabled(s, a) && (a.Drop? || a.Load? || a.Drain? || a.EndDrain? || a.Receive? || a.Send?)
    ensures Work(Apply(s, a)) < Work(s)
  {
    var id := a.id;
    SumWorkUpdate(s.streams, id, Apply(s, a).streams[id]);
    assert s.streams[id := Apply(s, a).streams[id]].Keys == s.streams.Keys;
  }

  lemma DeliverWorks(s: State, id: nat)
    requires Enabled(s, Deliver(id))
    ensures Work(Apply(s, Deliver(id))) < Work(s)
  {
    var s' := Apply(s, Deliver(id));
    SumWorkUpdate(s.streams, id, s'.streams[id]);
    assert s'.streams.Keys == s.streams.Keys;
  }

  lemma LoadSnapshotWorks(s: State)
    requires Enabled(s, LoadSnapshot)
    ensures Work(Apply(s, LoadSnapshot)) < Work(s)
  {
    var s' := Apply(s, LoadSnapshot);
    SumWorkSame(s.streams, s'.streams);
    assert s'.streams.Keys == s.streams.Keys;
    TimesOneLess(|s.listener.phase.todo|, PublishCost(|s.streams|));
  }

  lemma QueueStepWorks(s: State, a: Action)
    requires Enabled(s, a) && (a.WaitForNotification? || a.BeginPublish? || a.EndPublish?)
    ensures Work(Apply(s, a)) < Work(s)
  {
    if a.WaitForNotification? {
      TimesOneLess(|s.listener.queue|, PublishCost(|s.streams|));
    }
    if a.BeginPublish? {
      assert SubscribersOf(s, s.listener.hand.update.orderID) <= s.streams.Keys;
      SubsetSize(SubscribersOf(s, s.listener.hand.update.orderID), s.streams.Keys);
    }
  }

  lemma SubsetSize(a: set<nat>, b: set<nat>)
    requires a <= b
    ensures |a| <= |b|
  {
    assert b == a + (b - a);
  }

  lemma PhaseStepWorks(s: State, a: Action)
    requires Enabled(s, a)
    requires a.NoticeBreak? || a.Relisten? || a.FailSnapshots? || a.EndSnapshots?
    ensures Work(Apply(s, a)) < Work(s)
  {
    TimesMonotone(0, |s.streams|, PublishCost(|s.streams|));
    TimesMonotone(0, |s.listener.queue|, PublishCost(|s.streams|));
  }

  lemma ListOrdersWorks(s: State, orderIDs: seq<string>)
    requires Enabled(s, ListOrders(orderIDs))
    ensures Work(Apply(s, ListOrders(orderIDs))) < Work(s)
  {
    FewOrders(orderIDs, s.streams);
    TimesMonotone(|orderIDs|, |s.streams|, PublishCost(|s.streams|));
  }

  lemma PipelineStepWorks(s: State, a: Action)
    requires Inv(s) && Enabled(s, a) && Pipeline(a)
    ensures Work(Apply(s, a)) < Work(s)
  {
    match a
    case Deliver(id) => DeliverWorks(s, id);
    case LoadSnapshot => LoadSnapshotWorks(s);
    case WaitForNotification => QueueStepWorks(s, a);
    case BeginPublish => QueueStepWorks(s, a);
    case EndPublish => QueueStepWorks(s, a);
    case NoticeBreak => PhaseStepWorks(s, a);
    case Relisten => PhaseStepWorks(s, a);
    case ListOrders(orderIDs) => ListOrdersWorks(s, orderIDs);
    case FailSnapshots => PhaseStepWorks(s, a);
    case EndSnapshots => PhaseStepWorks(s, a);
    case _ => StreamStepWorks(s, a);
  }

  lemma {:induction false} PipelineRunIsBounded(s: State, run: seq<Action>)
    requires Inv(s) && Legal(s, run) && forall a :: a in run ==> Pipeline(a)
    ensures |run| + Work(Final(s, run)) <= Work(s)
    decreases |run|
  {
    if run != [] {
      PipelineStepWorks(s, run[0]);
      StepKeepsInv(s, run[0]);
      PipelineRunIsBounded(Apply(s, run[0]), run[1..]);
    }
  }

  // No listener or stream step is left.
  ghost predicate Stuck(s: State) {
    forall a :: Pipeline(a) ==> !Enabled(s, a)
  }

  // The orders that are subscribed, in some order and each once.
  lemma {:induction false} ListsOrders(orders: set<string>) returns (ids: seq<string>)
    ensures Distinct(ids) && forall o :: o in ids <==> o in orders
    decreases |orders|
  {
    if orders == {} {
      ids := [];
    } else {
      var o :| o in orders;
      var rest := ListsOrders(orders - {o});
      ids := [o] + rest;
    }
  }

  lemma BusyHandGoesOn(s: State) returns (a: Action)
    requires PendingOK(s) && s.listener.hand != Empty
    ensures Pipeline(a) && Enabled(s, a)
  {
    if s.listener.hand.Holding? {
      a := BeginPublish;
    } else if s.listener.hand.pending == {} {
      a := EndPublish;
    } else {
      var id :| id in s.listener.hand.pending;
      a := if s.streams[id].buffer.Some? then Drop(id) else Deliver(id);
    }
  }

  lemma StuckHandIsEmpty(s: State)
    requires PendingOK(s) && Stuck(s)
    ensures s.listener.hand == Empty
  {
    if s.listener.hand != Empty {
      var a := BusyHandGoesOn(s);
    }
  }

  lemma StuckIsNotListening(s: State)
    requires Stuck(s)
    ensures s.listener.phase != Listening
  {
    var ids := ListsOrders(set id | id in s.streams :: s.streams[id].orderID);
    assert forall o :: o in ids <==> Subscribed(s, o);
    assert !Enabled(s, ListOrders(ids));
  }

  lemma StuckListenerIsIdle(s: State)
    requires Inv(s) && Stuck(s)
    ensures s.listener.phase == Reading && s.listener.alive && s.listener.queue == [] && s.listener.hand == Empty
  {
    StuckHandIsEmpty(s);
    StuckIsNotListening(s);
    assert !Enabled(s, NoticeBreak);
    assert !Enabled(s, Relisten);
    assert !Enabled(s, FailSnapshots);
    assert !Enabled(s, WaitForNotification);
  }

  lemma StuckStreamIsQuiet(s: State, id: nat)
    requires Inv(s) && Stuck(s) && id in s.streams && s.streams[id].orderID in s.db
    ensures Quiet(s, id)
  {
    StuckListenerIsIdle(s);
    if s.streams[id].pc != Forwarding || s.streams[id].buffer.Some? {
      var a := BusyStreamGoesOn(s, id);
    }
  }

  lemma BusyStreamGoesOn(s: State, id: nat) returns (a: Action)
    requires id in s.streams && s.streams[id].orderID in s.db
    requires s.streams[id].pc != Forwarding || s.streams[id].buffer.Some?
    ensures Pipeline(a) && Enabled(s, a)
  {
    match s.streams[id].pc
    case Opened => a := Load(id, 0);
    case Draining(_, _) => a := if s.streams[id].buffer.Some? then Drain(id) else EndDrain(id, 0);
    case Sending(_) => a := Send(id);
    case Forwarding => a := Receive(id, 0);
  }

  lemma PipelineStepKeepsRows(s: State, a: Action)
    requires Enabled(s, a) && Pipeline(a)
    ensures var f := Apply(s, a);
            f.db == s.db && f.streams.Keys == s.streams.Keys
            && forall id :: id in s.streams ==>
                 f.streams[id].orderID == s.streams[id].orderID && (Covered(s.streams[id]) ==> Covered(f.streams[id]))
  {
  }

  lemma {:induction false} PipelineKeepsRows(s: State, run: seq<Action>)
    requires Inv(s) && Legal(s, run) && forall a :: a in run ==> Pipeline(a)
    ensures var f := Final(s, run);
            f.db == s.db && f.streams.Keys == s.streams.Keys
            && forall id :: id in s.streams ==>
                 f.streams[id].orderID == s.streams[id].orderID && (Covered(s.streams[id]) ==> Covered(f.streams[id]))
    decreases |run|
  {
    if run != [] {
      PipelineStepKeepsRows(s, run[0]);
      StepKeepsInv(s, run[0]);
      PipelineKeepsRows(Apply(s, run[0]), run[1..]);
    }
  }

  lemma QuietStream(f: State, id: nat)
    requires Inv(f) && Stuck(f) && id in f.streams && f.streams[id].synced && f.streams[id].orderID in f.db
    ensures var st := f.streams[id]; st.sent != [] && Last(st.sent) == UpdateOf(st.orderID, f.db[st.orderID])
  {
    StuckStreamIsQuiet(f, id);
  }

  // Convergence. From any reachable state, once commits, connection losses and client arrivals stop,
  // every way of scheduling the listener and the streams ends after at most Work(s) steps; and when
  // nothing is left to do, a synchronised stream of an existing order has sent the current row last.
  lemma StreamsConverge(s: State, run: seq<Action>, id: nat)
    requires Reachable(s)
    requires Legal(s, run) && forall a :: a in run ==> Pipeline(a)
    requires id in s.streams && s.streams[id].orderID in s.db
    ensures |run| <= Work(s)
    ensures var f, o := Final(s, run), s.streams[id].orderID;
            && id in f.streams && (Covered(s.streams[id]) ==> Covered(f.streams[id]))
            && (Stuck(f) && f.streams[id].synced ==>
                  && f.streams[id].sent != []
                  && Last(f.streams[id].sent) == Update(o, s.db[o].status, s.db[o].transactionID, s.db[o].updatedAt))
  {
    ReachableInv(s);
    PipelineRunIsBounded(s, run);
    PipelineKeepsRows(s, run);
    RunKeepsInv(s, run);
    if Stuck(Final(s, run)) && Final(s, run).streams[id].synced {
      QuietStream(Final(s, run), id);
    }
  }

  lemma ReachTo(s: State, a: Action, s': State)
    requires Reachable(s) && Enabled(s, a) && s' == Apply(s, a)
    ensures Reachable(s')
  {
    var _ := Reach(s, a);
  }

  lemma InitialReachable()
    ensures Reachable(Initial())
  {
    assert Legal(Initial(), []) && Final(Initial(), []) == Initial();
  }
}
