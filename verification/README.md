# Order microservices: a verified model

This project models the parts of the order, payment and notification services that are hard to get
right, and proves what they promise. It has three protocols, each a transition system over which all
interleavings are considered, and three sequential components. The programs of the services are
written beside the protocols, statement by statement, in the order in which the source has them.

`dafny verify dfyconfig.toml` checks everything.

## The order update stream (OrderStream, Convergence, StreamPrograms, Broker)

A commit to the `orders` table makes Postgres queue a notification. One listener goroutine takes the
notifications and publishes them through a broker whose channels hold one update each, the newest. A
gRPC stream subscribes first, reads the row second, drains its channel third, and then forwards. The
connection of the listener can break at any moment, with any part of its queue lost; the listener
then reconnects, lists the subscribed orders and publishes a snapshot of each.

A state of `OrderStream` holds the rows, all updates ever committed, the listener (the server's side
of its connection, its queue, and what it is publishing to whom) and every stream with its channel.
One action is one commit, queue operation, channel operation, query or send. The invariant says that
the youngest update on its way to a synced stream, wherever it is, is the current row. `synced` is a
history variable. Until a connection breaks, a stream is synced from the moment that, with the listener
connected, it subscribes, its order is committed, its snapshot is read, or it reads its row and its
channel holds nothing that it prefers to that row.

A stream loses this again only when its drain drops the row because the row's time is before that of
the row it read (`DropsRow`); `dropped` records that.

`Convergence` proves what these four events decide. A commit during an outage leaves every stream of
its order that has read the row behind, whatever the stream and the listener were doing; so does
the loss of its row's queued notification, if neither the listener's hand nor the stream has the row,
and so does a drop. From there, take any run, with any number of
further losses, to a state in which nothing about the order is on its way any more. If the stream has
caught up since the last loss, it has sent the current row last; and it can have sent it last only if
at some time it has caught up (`ConvergesAcrossLosses`). In runs without a further loss that is an
if and only if (`ConvergesIffCaughtUp`); with one it is not, because a stream may be up to date when
the connection breaks. Without the events it stays behind through any number of reconnections, and a
failed pass over the snapshots followed by silence leaves it behind under every schedule. `FreshRun`
says that a commit does not repeat an earlier update with the same time.

`StreamPrograms` has `SubscribeToOrderUpdates`, `drainLatest`, `readNotifications`,
`publishSnapshots`, `run`, `Publish` and `sendLatest` as methods, with everybody else making any
number of steps between two statements. A run is finite but of any length, so that a loop without end
is covered by all its finite runs. `Broker` has the broker as a class over its real fields.

Assumed of the environment: notifications arrive on a connection in commit order, `updated_at` is
never zero, and there is one listener. Nothing is assumed of the clock: NOW() is the start of the
transaction, so overlapping updates of a row can commit against the order of their times. While no
time goes back no drain drops a row (`ForwardClockDropsNothing`), so that a complete pass over the
snapshots leaves all streams synced; when one does, a row can be lost without any outage
(`BackwardClockLosesCommit`).

## Orders and payments (Settlement, Guarantees, Answers, Outcomes, Transactions, Overwrites, Announcements, Money, Fingerprint, Services)

Any number of `Create`, `Cancel` and `Authorize` calls overlap. One step is one SQL statement, one
message of the `ProcessPayment` call, or one publish. Every statement can fail, or succeed while its
caller sees a failure, also later than the caller's next statement. Calls can crash between two
steps, requests can be repeated any number of times and replies can get lost.

`Guarantees` proves what holds in every reachable state and between any two states of a run, `Answers`
what an error or a flag in an answer says about the stored rows, and `Transactions` that no two orders
share a transaction id. `Outcomes` proves what a call does when it is left alone, from every reachable
state and whatever else is in progress, and what a failed statement leads to.
`TerminalStatusIsFinal` holds for runs in which no `Cancel` overlaps a `Create` of the same order, and
`Overwrites` shows that this condition is exact: from every reachable state with such an overlap the
order can still be Cancelled and afterwards become Paid or Failed (if the `Create` has no answer yet,
by sending its payment request once more). `Services` has the calls as
methods whose results are those of the protocol.

A publish can be acknowledged as a duplicate of an event or of a dead letter, because both share one
duplicate window. `Announcements` proves that a successful `Authorize` leaves no event only for an order
id ending in `:dlq` while a dead letter has the event's id, and that from every state with an event
this can happen, because the payment service accepts any order id that is not blank. It cannot for
the order service's own ids, which are UUIDs, and so a Paid or Failed order always has its event.

Assumed: an SQL statement is atomic and obeys the constraints of the tables, a new UUID differs from
all before, starts with a hexadecimal digit and does not end in `:dlq`, a Postgres text holds no NUL,
and SHA-256 is collision-free. The hash is represented by the string that is hashed.

## Delivery of payment.completed (Delivery, Accounting, Shadowing, DeliveryPrograms)

JetStream is an append-only stream with a duplicate window that can forget any id at any time, and a
durable consumer that delivers messages in order and again when they were not acknowledged, up to `MaxDeliver`
times each.
Statements, publishes, acks and naks can fail or get lost, handlers can crash or outlive the ack wait.
`Accounting` says what a dead letter tells, what is notified, and what a delivery comes to when nothing
fails.

Both subjects share one stream and so one duplicate window, which the code does not take into
account: a dead letter has the id of its event with `:dlq` appended, and that can be the id of another
order's event. `AckedIsRecorded` therefore has a way out for each message, and only for the message
whose own dead letter would have the id of an event in the stream. `StoreDeadLetters` and `StoreEvents`
say exactly when an acknowledged publish has left nothing, and `Shadowing` shows, for every order id,
a run in which such a message is acknowledged without a record and one in which an event is never
stored. Order ids made by the order service are UUIDs, and their messages are never concerned unless
somebody else asks for a payment of the id with `:dlq` appended.

## Metrics and migrations (Metrics, Exposition, Sorting, Migrations)

`Metrics` has counters and histograms as classes over maps and arrays, with uint64 wrap-around, and
writes them with a builder as the source does. `Exposition` has an independent parser of the text
format 0.0.4 and proves that it reads back what is printed. In these modules a `char` stands for a
byte. `Migrations` has any number of overlapping, crashing and restarted runners.

## Model

| member | source | states |
|---|---|---|
| OrderStream.QuietStreamShowsRow | internal/order/transport/grpc/server.go:57-97 | in every reachable state the newest update queued, in the listener's hand, buffered, read or sent last of a stream that has caught up has its order's id and the row's status, transaction id and time, so such a stream with nothing pending has sent these last; no stream sends anything that was not committed for its order |
| OrderStream.ShownTime | internal/order/transport/grpc/server.go:133-162 | the time shown is the first of update, creation and present time that is not zero, and nothing else is changed |
| OrderStream.StreamsConverge | internal/order/stream/postgres_listener.go:52-148 | once commits, connection losses and arrivals stop, every schedule of listener and streams ends within a bound, and when nothing is left to do each stream that has caught up, before or meanwhile, has sent the row's status, transaction id and time last |
| OrderStream.ResyncCoversEveryStream | internal/order/stream/postgres_listener.go:135-148 | a completed pass on a connection that held leaves every open stream synced, or with its row dropped since, and all streams stay so until the next connection loss |
| Convergence.ResyncSyncsEveryStream | internal/order/stream/postgres_listener.go:135-148 | while no row's time goes back, it leaves every stream synced until the next connection loss |
| Convergence.SyncedStreamsConverge | internal/order/stream/postgres_listener.go:52-148 | while no row's time goes back, every synced stream of an existing order ends with the current row under every schedule |
| Convergence.ForwardClockDropsNothing | internal/order/transport/grpc/server.go:120-131 | over every run in which no row's time goes back, no drain drops a row |
| Convergence.BackwardClockLosesCommit | internal/order/transport/grpc/server.go:120-131 | from every reachable state with an idle listener and a draining stream, a new row with a time before that of the row read is dropped, and without any outage the stream is behind |
| Convergence.SyncedIffCaughtUp | internal/order/stream/postgres_listener.go:52-148 | over every run, a stream is synced exactly if since the last lost connection it subscribed while connected, its order was committed, its snapshot was read, or it read its row with nothing preferred in its channel, and its drain has not dropped the row afterwards |
| Convergence.ConvergesAcrossLosses | internal/order/stream/postgres_listener.go:52-148 | over every run after a commit that a stream has missed, with any number of lost connections: when nothing is on its way any more, the stream has sent the row last if it has caught up since the last loss, and only if it has ever caught up |
| Convergence.ConvergesIffCaughtUp | internal/order/stream/postgres_listener.go:97-148 | over every such run without a further lost connection: the stream has sent the row last if and only if it has caught up and not dropped the row afterwards |
| Convergence.BehindUntilCaughtUp | internal/order/stream/postgres_listener.go:52-81 | until then the stream stays behind, through any further commits, lost connections and failed passes |
| Convergence.OutageLeavesBehind | internal/order/stream/postgres_listener.go:97-101 | from every reachable state, a new commit during an outage, whatever its time, leaves every stream of the order that has read its row behind, however much of the queue survives |
| Convergence.CutLeavesBehind | internal/order/stream/postgres_listener.go:97-101 | a commit just before the outage leaves such a stream behind if its notification is cut from the queue and neither the listener's hand nor the stream has the row, and, unless the stream is draining, only then |
| Convergence.NoticeLeavesBehind | internal/order/stream/postgres_listener.go:57-63 | the same for what is left in the queue when the listener notices the loss |
| Convergence.ReadCatchesUpOrLeavesBehind | internal/order/transport/grpc/server.go:60-75 | reading the row while connected either catches the stream up or, exactly if its channel holds another update whose time is not before the row's, leaves it behind |
| Convergence.TiedReadIsLost | internal/order/transport/grpc/server.go:120-131 | from every reachable state with an unread stream whose channel holds an update, a new row of the same or an earlier time committed during an outage can leave it behind although it reads afterwards |
| Convergence.FailedResyncLosesCommit | internal/order/stream/postgres_listener.go:72-77 | from every reachable state with a listener between two notifications, for every stream that has read and every new row: the connection can get lost, the row be committed and the pass fail so that under every schedule the stream never shows the row |
| Convergence.IdleStaysBehind | internal/order/stream/postgres_listener.go:97-112 | from an idle listener, no schedule of listener and streams brings a stream up to date that is behind |
| OrderStream.PipelineRunIsBounded | internal/order/stream/postgres_listener.go:97-112 | every step of listener or streams decreases a measure |
| OrderStream.StepKeepsInv | internal/order/stream/broker.go:69-76 | every step of commits, connection, listener and streams keeps the invariant |
| OrderStream.CommitKeepsInv | internal/order/repository/postgres/migrations/0003_notify_order_updates.sql:1-23 | a commit with its notification keeps it: the new row becomes the newest update of all its synced streams |
| OrderStream.LoadSnapshotKeepsInv | internal/order/stream/postgres_listener.go:150-168 | reading a snapshot keeps it, with notifications of the same order still queued |
| OrderStream.EndDrainKeepsInv | internal/order/transport/grpc/server.go:120-131 | choosing between the row that was read and the drained update by time and contents keeps it: the newer one is never left out |
| StreamPrograms.SubscribeToOrderUpdates | internal/order/transport/grpc/server.go:42-98 | the client gets only committed updates of its order; a synced stream that waits with nothing pending has sent the row's status, transaction id and time last; a blank id is refused, and only an order that was not there is not found |
| StreamPrograms.ReadAndForward | internal/order/transport/grpc/server.go:60-97 | the messages are what the protocol's stream has sent, at least one |
| StreamPrograms.DrainLatest | internal/order/transport/grpc/server.go:100-118 | leaves the channel empty, whatever is published meanwhile, and yields the update the first message is chosen from |
| StreamPrograms.Forward | internal/order/transport/grpc/server.go:82-97 | forwards everything received, in order, until the client is gone or nothing is left |
| StreamPrograms.SendLatest | internal/order/stream/broker.go:112-122 | after the drop the channel has room for the send, although streams receive in between |
| StreamPrograms.Publish | internal/order/stream/broker.go:69-76 | gets through all subscribers, leaves the listener where it was, and ends even while everybody else goes on |
| StreamPrograms.PublishSnapshots | internal/order/stream/postgres_listener.go:135-148 | without an error, on a connection that still lives, every stream is synced, or has dropped its row because a row's time went back |
| StreamPrograms.ReadNotifications | internal/order/stream/postgres_listener.go:97-112 | ends with an error exactly when the connection is lost; otherwise it has emptied the queue |
| StreamPrograms.RunListener | internal/order/stream/postgres_listener.go:52-81 | through any number of lost connections: if it waits and its last pass over the snapshots succeeded, every stream is synced, or has dropped its row because a row's time went back |
| Broker.SendLatest | internal/order/stream/broker.go:112-122 | the unconditional send always finds an empty, open channel; what the subscriber has got and will get next is a subsequence of what was published and ends in the newest |
| Broker.Channel.Send | internal/order/stream/broker.go:115-120 | demands an open channel with room |
| Broker.Channel.Close | internal/order/stream/broker.go:57 | demands an open channel, so that none is closed twice |
| Broker.Broker.constructor | internal/order/stream/broker.go:25-29 | an open broker without subscribers that has given out no id |
| Broker.Broker.Subscribe | internal/order/stream/broker.go:31-67 | adds one channel of its own under an id never given out before; on a closed broker the channel is closed and nothing changes |
| Broker.Broker.Unsubscribe | internal/order/stream/broker.go:49-64 | the first call removes and closes the one channel, later calls and calls after Close change nothing, and no empty set of an order is left |
| Broker.UseCancel | internal/order/stream/broker.go:49-64 | whichever closure is called, and however often, all closures ever handed out stay good for exactly their own channels |
| Broker.AnyUse | internal/order/stream/broker.go:31-94 | every sequence of Subscribe, Publish, Close and repeated or late cancels keeps the broker and all handed-out closures valid, closes no channel twice and sends to no closed one |
| Broker.FindWithout | internal/order/stream/broker.go:54-62 | ending a subscription leaves every other one in place |
| Broker.Broker.Publish | internal/order/stream/broker.go:69-76 | whatever is registered under the update's order gets it as its newest, and what is registered under any other order is untouched |
| Broker.SendToAll | internal/order/stream/broker.go:73-75 | the loop reaches every channel once |
| Broker.Broker.Close | internal/order/stream/broker.go:78-94 | every registered channel gets closed, none is left |
| Broker.Broker.OrderIDs | internal/order/stream/broker.go:96-110 | exactly the orders with a live subscriber, each once, ascending byte by byte |
| Settlement.StepKeepsInv | internal/order/usecase/service.go:63-191 | every step of every call, with errors, lost answers, crashes and repeated requests, keeps the invariant of tables, calls and replies |
| Settlement.ExecuteKeepsTables | internal/order/repository/postgres/repository.go:23-157 | every statement a call can send keeps the unique key index, the decisions and the events consistent |
| Settlement.StepOkKeepsInv | internal/payment/usecase/service.go:48-94 | in particular, no two calls ever believe that they created the same order or the same payment |
| Settlement.StepDuplicateKeepsInv | internal/payment/usecase/service.go:134-145 | after a publish dropped as a duplicate the event is in the stream or a dead letter has its id |
| Settlement.DeadLetterKeepsInv | internal/platform/messagebus/nats.go:92-101 | a dead letter of any event in the stream keeps the invariant, so no dead letter has the id of an order made by the order service |
| Settlement.ReceiveKeepsInv | internal/order/paymentclient/grpc/client.go:51-76 | an answer, a refusal or a failed call leads only to updates that agree with the stored payment |
| Guarantees.OneOrderPerKey | internal/order/repository/postgres/migrations/0002_add_order_idempotency.sql:5-7 | at most one order for an idempotency key |
| Guarantees.CreateIsIdempotent | internal/order/usecase/service.go:63-115 | calls with one key return one order id, with the caller's own data, at most one reports created, success is never a pending order |
| Answers.ConflictMeansOtherRequest | internal/order/usecase/service.go:66-73 | a conflict over the key is answered only if the order stored under the key has another customer, item or amount |
| Answers.ReturnedIsSettled | internal/order/usecase/service.go:148-163 | an order that a Create has returned is not stored as pending, then and over every later run |
| Outcomes.RetryFindsOrder | internal/order/usecase/service.go:66-73 | a successful look under the key ends in a conflict exactly if the order is for something else, with that very order exactly if it is for the same and not pending, and goes on to the payment call exactly if it is pending |
| Outcomes.RetryResolvesPending | internal/order/usecase/service.go:148-163 | from every reachable state the retry of a pending order can end with that order, paid or failed, not reported as created |
| Outcomes.NewCreateSucceeds | internal/order/usecase/service.go:78-114 | from every reachable state a Create under a new key can end with a new stored order for what was asked, Paid with a transaction id up to the limit and Failed without one above it, reported as created |
| Outcomes.LoserLooksAgain | internal/order/usecase/service.go:88-100 | a Create that loses the race for its key looks under the key again |
| Outcomes.FailedStatementIsReported | internal/order/usecase/service.go:74-112 | a statement that fails changes nothing and ends its call with an error; only a failed insert of a payment is followed by a second look |
| Answers.CancelAnswerIsTrue | internal/order/usecase/service.go:130-146 | a Cancel is refused only if the order is not pending, and its success is for its own order; both stay true over every run |
| Answers.StoredOrderIsFound | internal/order/usecase/service.go:131-134 | over every run, once an order is stored no Cancel of it is answered with not found |
| Outcomes.CancelFindsOrder | internal/order/usecase/service.go:131-138 | what a Cancel reads decides: not found, conflict or update, each exactly for a missing, a settled and a pending order |
| Outcomes.CancelSucceeds | internal/order/usecase/service.go:140-145 | from every reachable state a Cancel of a pending order can end with that order stored as Cancelled and nothing else changed |
| Outcomes.FailureKeepsOrder | internal/order/paymentclient/grpc/client.go:87-98 | a payment call that fails as Canceled, DeadlineExceeded or Unavailable, and only then, leaves the caller with its order and ErrPaymentUnavailable; no table changes |
| Outcomes.FailedPublishKeepsOrder | internal/payment/transport/grpc/server.go:91-102 | a failed publish reaches the waiting Create as Unavailable, with the payment stored and the order kept |
| Outcomes.InvalidRequestIsRefused | internal/payment/transport/grpc/server.go:31-46 | exactly a blank order id or an amount that is not positive is refused as InvalidArgument, before anything is stored |
| Domain.BlankIffTrimmedAway | internal/payment/transport/grpc/server.go:35-37 | an id is blank exactly if trimming white space leaves nothing of it |
| Domain.SpaceInASCII | internal/payment/transport/grpc/server.go:35 | in ASCII the white space is the space, tab, newline, vertical tab, form feed and carriage return |
| Guarantees.OnePaymentDecision | internal/payment/usecase/service.go:48-94 | all successful calls for an order report the stored payment, at most one as created; it is authorized with a transaction id exactly up to the limit |
| Guarantees.StoredPaymentIsDecided | internal/payment/usecase/service.go:60-72 | every stored payment, announced or not, has its order's id and is authorized with a transaction id exactly up to the limit |
| Transactions.TransactionsAreDistinct | internal/payment/usecase/service.go:65-70 | no transaction id belongs to two orders, in their payments or as they show it |
| Outcomes.AuthorizeSucceeds | internal/payment/usecase/service.go:48-94 | from every reachable state an Authorize can end with the stored payment, or with one of its own that it reports as created, decided by its amount, and with an event of that amount, status and the caller's email |
| Outcomes.LostInsertIsFoundAgain | internal/payment/usecase/service.go:72-84 | an Authorize whose insert was carried out although it saw an error can still end with that payment, not as created |
| Guarantees.OneCallCreatesPayment | internal/payment/usecase/service.go:72-93 | of all calls for an order, successful or not, at most one reports created, and only for a stored payment |
| Guarantees.PaymentsAreWriteOnce | internal/payment/repository/postgres/repository.go:50-75 | over any run a stored payment stays and is never changed |
| Guarantees.NeverPaidAndFailed | internal/order/usecase/service.go:165-191 | no run shows an order Paid in one state and Failed in another, nor changes its customer, item, amount or key |
| Guarantees.PaidMeansAuthorized | internal/order/repository/postgres/repository.go:134-145 | a Paid order has an authorized payment, a Failed one a declined payment, and any transaction id shown is that of the payment |
| Guarantees.PublishedBeforeOutcome | internal/payment/usecase/service.go:134-141 | a Paid or Failed order has its event in the stream, because its id does not end in ":dlq"; every event of an order has the id "payment.completed:" and the order's, the amount of the stored payment, and says "Authorized" exactly up to the limit and "Declined" above it |
| Outcomes.StoredPublishLeavesEvent | internal/payment/usecase/service.go:134-147 | a publish that the broker stores leaves the event with the caller's email, the payment's amount and its status |
| Announcements.GrantedIsAnnounced | internal/payment/usecase/service.go:89-93 | in every reachable state a successful Authorize has its event in the stream, or its order id ends in ":dlq" and a dead letter has the event's id |
| Announcements.ShadowedPublishIsSwallowed | internal/payment/usecase/service.go:50-54 | from every reachable state with an event of order o and no payment of o + ":dlq", an authorization of the latter can succeed without an event |
| Announcements.SwallowedIffDeadLetter | internal/payment/usecase/service.go:143-147 | a publish can succeed without an event exactly if a dead letter has the event's id and the event was not there before |
| Guarantees.TerminalStatusIsFinal | internal/order/usecase/service.go:130-163 | while no Cancel overlaps a Create of the order, Paid, Failed and Cancelled rows never change |
| Overwrites.OverlapOverwritesTerminal | internal/order/repository/postgres/repository.go:134-157 | from every reachable overlap the order can go on to Cancelled and then to Paid or Failed |
| Overwrites.RequestIsAnswered | internal/payment/transport/grpc/server.go:31-52 | a waiting Create whose request can be sent once more can get an answer |
| Money.MoneyIsConserved | internal/order/repository/postgres/repository.go:114-132 | if only orders cause payments: authorized amounts are the revenue of all customers plus the authorized amounts of orders not Paid, payments have their orders' amounts, and a customer's count is the number of the paid orders, with a total between it and 100000 times it |
| Money.EventsTellTheOrder | internal/order/usecase/service.go:165-166 | if only orders cause payments, every event names the customer of its order and has its amount |
| Money.RevenueIsPaidTotal | internal/order/repository/postgres/repository.go:115-120 | summing per customer counts every paid order once |
| Money.RunKeepsGenuine | internal/order/usecase/service.go:165-166 | over every run a payment asked for through orders has its order's amount |
| Fingerprint.FaithfulIffNulFree | internal/order/usecase/service.go:193-196 | the hashed string identifies customer, item and amount exactly when neither text holds a NUL |
| Fingerprint.PreHashFaithful | internal/order/usecase/service.go:67-70 | no other request, with NULs or not, has the string of a stored order |
| Fingerprint.ParseIntInvertsFormat | internal/order/usecase/service.go:194 | decimal printing can be read back and holds no NUL |
| Fingerprint.NoLeadingZero | internal/order/usecase/service.go:194 | a positive number is printed without leading zeros |
| Services.Create | internal/order/usecase/service.go:63-115 | ends as the protocol's call does; success means an order with the caller's data that is neither returned nor stored as pending; a conflict means that the order under the key is for something else |
| Services.ResumeExistingOrder | internal/order/usecase/service.go:148-163 | ends as the protocol's call does, never as created |
| Services.ReconcilePayment | internal/order/usecase/service.go:165-191 | ends as the protocol's call does, for every answer and failure of the payment call |
| Services.CancelOrder | internal/order/usecase/service.go:130-146 | ends as the protocol's call does; success means this order Cancelled, a conflict that it is not pending, not found that it was not there |
| Services.AuthorizePayment | internal/payment/usecase/service.go:48-94 | success means the stored payment, decided by its amount, of the amount asked if it was created; all its events tell its amount and status; the event is in the stream with the caller's email if the publish was stored, and otherwise an event or a dead letter had its id |
| Services.InsertPayment | internal/payment/usecase/service.go:72-93 | a failed insert leads to the stored payment, if there is one, reported as not created |
| Services.PublishPaymentCompleted | internal/payment/usecase/service.go:121-148 | no success without the publish; it has left an event of the order with the caller's email, or its id was in the stream |
| Delivery.NotifiedAtMostOnce | internal/notification/usecase/service.go:36-54 | at most one notification for a message id, and for an order if the events come from the payment service |
| Accounting.NotifiedEventsAreValid | internal/notification/usecase/service.go:28-34 | every notification is for an event of the stream with a message id and an order id |
| Accounting.NewMessageIsNotified | internal/notification/usecase/service.go:36-55 | from every reachable state a new message that is handled without a failure is recorded, notified once more and acknowledged |
| Accounting.KnownMessageIsSkipped | internal/notification/usecase/service.go:40-43 | a message that was processed before is acknowledged without a notification |
| Delivery.AckedIsRecorded | internal/platform/messagebus/nats.go:224-239 | in every reachable state an acknowledged message is in processed_messages or dead-lettered, unless an event was published under the very id of its own dead letter |
| Delivery.StoreDeadLetters | internal/platform/messagebus/nats.go:86-108 | a published dead letter ends up in the stream exactly if its id is not in the window or one is there already |
| Accounting.DeadLettersTellOfMessages | internal/platform/messagebus/nats.go:263-270 | every dead letter in the stream has the ids, amount, email and status of a message in it, with the stream sequence for a missing message id and "unknown" for a missing order id |
| Accounting.LastFailureIsDeadLettered | internal/platform/messagebus/nats.go:263-288 | the last failure appends such a dead letter and acknowledges the message |
| Accounting.EarlyFailureIsRetried | internal/platform/messagebus/nats.go:249-261 | a failure before the last delivery gives the message back for another one and stores nothing |
| Accounting.PublishAppends | internal/platform/messagebus/nats.go:86-108 | a publish outside the window appends the message as it is, to be delivered from the start; one inside changes nothing |
| Shadowing.StoreEvents | internal/platform/messagebus/nats.go:86-108 | a published event ends up in the stream exactly if its id is not in the window or it is there already; otherwise a dead letter has its id |
| Shadowing.ShadowedEventIsLost | internal/platform/messagebus/nats.go:99-101 | for every order o there is a run after which publishing the event of order o + ":dlq" changes nothing and the event is not in the stream |
| Shadowing.ShadowedDeadLetterIsLost | internal/platform/messagebus/nats.go:270-288 | from every reachable state in which the id of the next dead letter is in the window for something else, publish and ack leave the message acknowledged without any record |
| Shadowing.ShadowedMessageIsLost | internal/platform/messagebus/nats.go:44-51 | for every order id there is a run, with deliveries in order, in which its message is acknowledged without any record, and an event has the id of its dead letter |
| Delivery.ExhaustedHasFault | internal/platform/messagebus/nats.go:241-288 | never more than MaxDeliver deliveries; a message given up has met a fault at the last one |
| Delivery.DeliveriesAreBounded | internal/platform/messagebus/nats.go:196-205 | the deliveries of a run add to the count and stay within MaxDeliver; acknowledged and given-up messages stay so |
| Accounting.DeliveriesAreConfigured | internal/platform/messagebus/nats.go:135-137 | over every run a message is delivered at most as often as configured, and three times if that is not positive |
| Delivery.StepKeepsInv | internal/platform/messagebus/nats.go:154-288 | every step of publishers, JetStream and overlapping handlers keeps the invariant |
| Delivery.MarkKeepsInv | internal/notification/repository/postgres/repository.go:18-31 | an insert into processed_messages whose answer got lost keeps it |
| DeliveryPrograms.HandleMessage | internal/platform/messagebus/nats.go:224-239 | after the last delivery the message is acknowledged or a fault is on record; an acknowledged one is recorded, unless an event has the id of its dead letter |
| DeliveryPrograms.HandleFailure | internal/platform/messagebus/nats.go:241-288 | the same for the failure branch, with each of its statements failing or not |
| DeliveryPrograms.HandlePaymentCompleted | internal/notification/usecase/service.go:28-55 | without an error the message id is in processed_messages and the handler goes on to the ack |
| DeliveryPrograms.Notify | internal/notification/usecase/service.go:45-52 | exactly this event is notified last, after it was recorded |
| DeliveryPrograms.Run | internal/platform/messagebus/nats.go:172-192 | every message that this run got for the last time ends up settled |
| Exposition.ExpositionRoundTrip | internal/platform/metrics/prometheus.go:255-286 | parsing the printed families gives back every help text, name, label value and value token |
| Exposition.EscapeLabelValueIsPerChar | internal/platform/metrics/prometheus.go:294-299 | the chained replacements do not disturb each other |
| Exposition.EscapeHelpIsPerChar | internal/platform/metrics/prometheus.go:288-292 | the same for help texts |
| Exposition.ParseEscapedInverts | internal/platform/metrics/prometheus.go:288-299 | an escaped text is decoded uniquely up to its terminator |
| Metrics.OwnKeyIffSeparatorFree | internal/platform/metrics/prometheus.go:246-253 | a combination of label values has a series of its own exactly if there is at most one value or none holds the 0xff byte |
| Metrics.JoinMore | internal/platform/metrics/prometheus.go:251-252 | the key is the values in order with the byte 0xff between them |
| Metrics.CounterVec.Add | internal/platform/metrics/prometheus.go:76-93 | one series changes, or is created; demands what the source panics without |
| Metrics.CounterVec.WritePrometheus | internal/platform/metrics/prometheus.go:95-115 | writes the family of samples in strictly sorted order of keys |
| Metrics.CounterReadsBack | internal/platform/metrics/prometheus.go:95-115 | parsing gives each series' labels and value, in an order that depends on the series only |
| Metrics.ListingIsUnique | internal/platform/metrics/prometheus.go:108-110 | whatever the map iteration order, the sorted listing is the same |
| Metrics.HistogramVec.constructor | internal/platform/metrics/prometheus.go:134-149 | ascending bounds, a permutation of those given |
| Metrics.HistogramVec.Observe | internal/platform/metrics/prometheus.go:151-174 | exactly the named series records one more value |
| Metrics.HistogramSeries.Record | internal/platform/metrics/prometheus.go:166-173 | every bucket keeps counting the values up to its bound |
| Metrics.BucketsAreCumulative | internal/platform/metrics/prometheus.go:169-173 | below 2^64 observations buckets are the true counts, never decrease along the bounds and never exceed the count |
| Metrics.HistogramVec.WritePrometheus | internal/platform/metrics/prometheus.go:176-207 | writes the family of all series in strictly sorted order of keys |
| Metrics.SeriesShowsObservations | internal/platform/metrics/prometheus.go:196-200 | the printed bucket shows how many values were at most its bound |
| Metrics.InfBucketShowsCount | internal/platform/metrics/prometheus.go:202-205 | after the buckets come +Inf and _count, both the number of values, and _sum, their sum, the latter two with the series' own labels |
| Metrics.CountAtMostCounts | internal/platform/metrics/prometheus.go:169-173 | a bucket's count is the number of positions whose value is at most the bound |
| Metrics.HistogramReadsBack | internal/platform/metrics/prometheus.go:176-207 | parsing gives back the samples of every series |
| Metrics.WriteSample | internal/platform/metrics/prometheus.go:268-286 | the loop writes the sample's text, with each separator in place |
| Metrics.WriteMetricHeader | internal/platform/metrics/prometheus.go:255-266 | the ten writes make up the header that the parser reads |
| Sorting.SortedKeys | internal/platform/metrics/prometheus.go:191-193 | exactly the given keys, ascending byte by byte, in whatever order they come |
| Sorting.LessIffComesFirst | internal/platform/migrate/migrate.go:36 | the order is decided at the first difference: the text that ends there or has the smaller byte comes first |
| Migrations.MigrationsAreSafe | internal/platform/migrate/migrate.go:46-69 | through crashes, restarts and overlaps the committed versions ascend byte by byte and are a duplicate-free prefix of the sorted files, none is lost, and a completed runner leaves all of them |
| Migrations.RunnerCompletes | internal/platform/migrate/migrate.go:38-72 | from every state that crashes and overlaps can lead to, a runner that is left alone completes with all files applied |
| Migrations.Run | internal/platform/migrate/migrate.go:14-72 | success exactly if the runner completes, and then all files are applied, ascending byte by byte; failure loses nothing |
| Migrations.Database.ApplyAndRecord | internal/platform/migrate/migrate.go:59-68 | without an error the version is recorded; with one it may or may not be |
| Migrations.MigrationNames | internal/platform/migrate/migrate.go:24-35 | exactly the files whose name is something followed by ".sql" |

## Left out

- Broker.Broker.Subscribe: does not model the wrap-around of the 64-bit id, because ids would repeat only after 2^64 subscriptions.
- Broker.Broker.Publish: does not model two publishers at once, because there is one listener goroutine.
- StreamPrograms.SubscribeToOrderUpdates: does not promise that messages are in order of time or without repetition, because the forward loop filters nothing.
- Convergence.ConvergesIffCaughtUp: speaks of runs without a further lost connection, because a stream may be up to date when the connection breaks; Convergence.ConvergesAcrossLosses has what holds across losses.
- StreamPrograms.RunListener: leaves out the shutdown of the service and the discarding of payloads that do not decode, because the trigger writes only payloads that do.
- StreamPrograms.DrainLatest: ends in every run in which everybody else makes finitely many steps; with a publisher that is faster for ever it need not end.
- Delivery.NotifiedAtMostOnce: does not promise at least one notification, because the message is recorded before it is notified.
- Delivery.AckedIsRecorded: promises nothing for a message whose own dead letter would have the id of an event in the stream, see Delivery.StoreDeadLetters and Shadowing.ShadowedMessageIsLost.
- Delivery.ExhaustedHasFault: does not promise that every message ends up processed or dead-lettered, because the last dead-letter publish can fail.
- Guarantees.TerminalStatusIsFinal: holds without overlap only, see Overwrites.OverlapOverwritesTerminal.
- Overwrites.OverlapOverwritesTerminal: lets a waiting Create's request be sent once more, so for a call that has used up the three attempts of its retry policy the answer, and with it the overwrite, may not come; the condition is exact for calls with an attempt left and for those that have their answer.
- Overwrites.RequestIsAnswered: does not count the attempts of the client's retry policy.
- Services.AuthorizePayment: promises no event for order ids ending in ":dlq" while a dead letter has the event's id, see Announcements.SwallowedIffDeadLetter.
- Money.MoneyIsConserved: sums are unbounded, so an overflow of the 64-bit revenue is not modelled, and calls of the payment service by others than the order service are excluded.
- Migrations.MigrationsAreSafe: the contents of the files are not modelled; a version stands for its file's effects, which are in the same transaction.
- Metrics.HistogramVec.Observe: values are reals, so rounding, infinities and NaN are not modelled; printed values are opaque tokens without a newline.
- The registry with its HTTP handler and gauges computed by a function: they write families one after the other as the vectors do.
- OccurredAt of the event and ProcessedAt of the reply: times that nothing depends on.
- The cancellation of the caller's context in the payment client is one of the codes with which the call can fail.
- HTTP handlers, JSON decoding, validation, configuration, logging and wiring: plumbing.
- The HTTP payment client: not wired into the service.
- FindByAmountRange and ListPayments: a filter with four cases.
- Waiting times (ack wait, retry delay, timeouts): steps that may happen at any time.
- Postgres, NATS, gRPC retries and SHA-256: only the contracts stated above.
