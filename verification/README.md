# Auction platform: a verified model of its asynchronous core

This project models, in Dafny, the protocols that keep the auction platform's
asynchronous half consistent, and a few smaller algorithms beside them.

The main part follows an event from the database to an email. Relay processes
claim outbox rows under a lease, publish them and mark them
(`Outbox`, `OutboxRelay`, `OutboxDraining`, `Grouping`, `EventEnvelope`). The
notification consumers fetch batches, map them with the bounded scheduler,
keep a receipt per event and commit offsets (`BoundedMap`,
`NotificationStore`, `NotificationConsumer`, `NotificationIntake`). The mailers
claim email rows under a lease (`EmailDelivery`). `Pipeline` puts relays and
consumers together and follows an event through both. These are step systems:
every database transaction, broker append, crash, lost lease and clock tick is
a step of its own, steps of different processes interleave freely, and the main
results hold in every reachable state. Classes carry the code of one process;
each of their methods is proved to be a path of the step system, so what is
proved about all interleavings covers it.

The smaller parts are the dashboard consumer's message loop and its handlers
side by side (`DashboardWorker`, `DashboardConsumer`), the category tree
(`CategoryTree`), the two agent workflow engines (`AgentWorkflow`), the browser
client's 401 refresh queue (`ApiClient`), the multi-shard bootstrap lock
(`BootstrapLock`), the live bid feed (`LiveFeed`) and price printing (`Price`).
`Prelude` and `Paths` hold small datatypes, counting, and runs of a step relation
with the invariants they keep.

Where a natural claim is false of the code, the model keeps the code, shows a
run in which the claim fails and proves when it holds:

- Nothing but the lease keeps relay processes apart: `Outbox.StepLeased` gives the
  exact condition, and processes that finish within their leases meet it.
- The email worker's marks carry no fence. A row's outcome is single as long as
  no row is claimed again under a delivery in progress, and no weaker condition
  keeps the invariant (`EmailDelivery.StepFine`); deliveries that end before
  their leases meet it, and `LateDeliveryClosesTwice` is a run that does not.
- Counting a failure overwrites a receipt without looking at it. Commit safety
  and idempotence hold, overlapping handlers included, as long as no settled
  receipt is overwritten; `NotificationConsumer.StepFine` shows that the
  condition is exact and `CommittedThenUnsettled` is a run that loses a committed
  message. Handling one message of an event at a time is not enough:
  `FailedReadUnsettles` is a run in which the first read of a settled event fails,
  and `SerialExact` says what else has to be excluded. Uniqueness of email rows,
  the stamp and the poison bound hold in every run.
- The stop check lets messages of a committed batch go unhandled
  (`CommittedUnhandled`). Such messages are recorded, and the safety results
  name them.
- A claimed email row may exceed its attempts by one for each delivery that
  crashed (`CrashesAddAttempts`).
- The dashboard consumer counts a try of an event that another handler has just
  processed (`OverlapReopens`), so settled receipts are absorbing only without
  such a step; that returned handlers leave the event settled holds in every run.
- `buildTree` does not end for a parent on a cycle of parent pointers, and only
  then (`EndsIffOnNoCycle`); null is on none.
- Refreshing is not single-flight, because a request's retry is awaited inside
  the `try`: `SingleFlightBreaks` gives the exact condition.
- A seeder that outlives its own keys while it looks for the recovery fence
  acquires the lock although another seeder holds every shard:
  `SucceedsOnlyLate` and `SlowSeederSucceedsToo`.
- The worker announces "review passed" for every graph run that ends:
  `ReportsDiffer`.
- Prices that are not whole do not survive printing and reading: `RoundTrip`.

Arithmetic is unbounded: ids, attempts and times are whole numbers, a row's id
is its position in its table, and there is one shared clock. Promises that
settle, transactions that fail, what the broker accepts, what the agents answer
and which process moves next are arbitrary.

## Model

| member | source | states |
|---|---|---|
| BoundedMap.EveryInterleaving | Backend/src/infrastructure/concurrency/bounded-map.ts:8-19 | Over every interleaving of the workers: a run has at most 3n + c steps and never gets stuck before it is finished; the calls made are a prefix of the indices, in order, each once; that prefix splits into done, failed and in flight; at most c <= n calls are in flight; with fewer than c failures every index is attempted |
| BoundedMap.ResolvedCoversAll | Backend/src/infrastructure/concurrency/bounded-map.ts:11-20 | If no worker threw, every index was mapped exactly once and every result is stored |
| BoundedMap.FewFailuresStillCoverAll | Backend/src/infrastructure/concurrency/bounded-map.ts:11-19 | With fewer failures than workers every index has a result or failed itself |
| BoundedMap.StepInv | Backend/src/infrastructure/concurrency/bounded-map.ts:11-17 | Both kinds of worker step keep the invariant: calls are a prefix, the claimed indices are partitioned, no two workers share an index |
| BoundedMap.StepDecreases | Backend/src/infrastructure/concurrency/bounded-map.ts:11-17 | Every worker step lowers the bound on the steps left, so every interleaving terminates |
| BoundedMap.Concurrency | Backend/src/infrastructure/concurrency/bounded-map.ts:7 | The number of workers is the whole part of the request if that is from one to n, n if it is above or infinite, and one if it is below or no number |
| BoundedMap.Shared.TakeIndex | Backend/src/infrastructure/concurrency/bounded-map.ts:13-14 | `nextIndex++` and the test after it are the step that takes an index, or ends the worker |
| BoundedMap.Shared.SettleCall | Backend/src/infrastructure/concurrency/bounded-map.ts:15 | When the awaited call settles its result is stored in its own slot, or the worker throws |
| BoundedMap.Resume | Backend/src/infrastructure/concurrency/bounded-map.ts:11-17 | Whichever worker is resumed, the invariant and the agreement of the stored results with the mapper are kept, and the run comes nearer its end |
| BoundedMap.MapWithConcurrency | Backend/src/infrastructure/concurrency/bounded-map.ts:1-21 | The call fulfils iff the mapper fulfils for every item, then with `results[i]` the value for item i and every index called once; in any case the calls are a prefix |
| EventEnvelope.EnvelopeRoundTrip | Backend/src/infrastructure/events/event-envelope.ts:36-55 | An envelope survives serialising and parsing exactly if it is well formed, and then comes back unchanged |
| EventEnvelope.ParseIsIdempotent | Backend/src/infrastructure/events/event-envelope.ts:36-55 | Whatever the gate lets through is well formed and parses to itself again |
| EventEnvelope.AcceptedExactly | Backend/src/infrastructure/events/event-envelope.ts:36-55 | A value is let through iff it is an object whose seven needed fields agree with some well formed envelope, whatever else it holds; only a text is taken as causation id |
| EventEnvelope.EventTypesExactly | Backend/src/infrastructure/events/outbox-relay.worker.ts:27-36 | The event types let through are exactly the texts of the regular expression, as pieces between dots and a version |
| EventEnvelope.ValidExactly | Backend/src/infrastructure/events/outbox-relay.worker.ts:34-41 | A row is valid iff its topic is one of the four, its type matches, its version is positive, its three ids are not empty and its payload is an object |
| EventEnvelope.RelayedRowIsAccepted | Backend/src/infrastructure/events/outbox-relay.worker.ts:34-41 | The message serialised from a valid row goes to the row's own topic under its aggregate id, is accepted by the consumers' gate and yields every field of the row; an empty causation id, and no other, is dropped |
| Grouping.GroupBy | Backend/src/infrastructure/events/outbox-relay.worker.ts:134-135 | The lists per topic are a stable partition of the batch, and each topic appears in the batch before the next one does |
| Grouping.GroupsArePartition | Backend/src/infrastructure/events/outbox-relay.worker.ts:135 | Each row occurs in its topic's list as often as in the batch and in no other list |
| Grouping.FlattenedBatch | Backend/src/infrastructure/events/outbox-relay.worker.ts:139-141 | Handing the broker list after list sends every row once, and each topic's rows in batch order |
| Outbox.DelayDoubles | Backend/src/infrastructure/events/outbox-relay.worker.ts:30-32 | The retry delay starts at one second, doubles per attempt sixteen times, and never exceeds the cap |
| Outbox.Conservation | Backend/src/infrastructure/events/outbox-relay.worker.ts:43-167 | In every reachable state of any number of relays, with crashes, expired leases, partial publishes and requeues: a delivered row is valid and has a copy in the log; a row has no more copies than attempts; none is both delivered and terminal; a terminal row is invalid; an invalid row has no copy; every record is the message of a valid row |
| Outbox.RelayConservation | Backend/src/infrastructure/events/outbox-relay.worker.ts:34-167 | The same for the relay's own row check and JSON messages |
| Outbox.RecordsMatchRows | Backend/src/infrastructure/events/outbox-relay.worker.ts:134-157 | In every reachable state each record of the log belongs to a valid row, lies in that row's topic under its aggregate id and carries its fields, and its event id is that of no other row |
| Outbox.RelayConfigKeepsEventIds | Backend/src/infrastructure/events/outbox-relay.worker.ts:141-154 | The event id can be read back from every message the relay writes |
| Outbox.StepConserves | Backend/src/infrastructure/events/outbox-relay.worker.ts:43-167 | Every single step of every process keeps conservation |
| Outbox.StepIsMonotone | Backend/src/infrastructure/events/outbox-relay.worker.ts:34-167 | No step removes a row or a record or changes a delivery time; a terminal row stays terminal and attempts never fall, except for a row an operator requeues |
| Outbox.CanBeDelivered | Backend/src/infrastructure/events/outbox-relay.worker.ts:119-167 | In any state an idle process can deliver any valid row that is due: the log gains its message, the row one attempt, and no other row changes |
| Outbox.OpenRowsComeBack | Backend/src/infrastructure/events/outbox-relay.worker.ts:49-52 | An open row becomes due by waiting alone, whoever claimed it and died, exactly when its `available_at` is reached |
| Outbox.FailedBatchIsRetried | Backend/src/infrastructure/events/outbox-relay.worker.ts:91-117 | When the broker or the final mark fails, nothing is written, and each open row of the batch can be rescheduled by the delay for its claim |
| Outbox.LeasesSeparateProcesses | Backend/src/infrastructure/events/outbox-relay.worker.ts:43-67 | If every process finishes its batch within its lease, no row is ever in two batches, and a held row is open and becomes due exactly when its holder's lease is over |
| Outbox.LeaseExclusivity | Backend/src/infrastructure/events/outbox-relay.worker.ts:43-67 | The same, late processes included, in runs in which no row is claimed while another process holds it |
| Outbox.StepLeased | Backend/src/infrastructure/events/outbox-relay.worker.ts:43-167 | The exact condition: a step keeps the batches apart if and only if it does not claim a row that another process holds |
| Outbox.TimelyRunsAreGuarded | Backend/src/infrastructure/events/outbox-relay.worker.ts:51-61 | Runs in which every process finishes within its lease have no such claim |
| Outbox.ExpiredLeaseOverlaps | Backend/src/infrastructure/events/outbox-relay.worker.ts:51 | Another process can claim a held row exactly when its holder's lease is over, and then both hold it |
| OutboxRelay.DueIdsAreDue | Backend/src/infrastructure/events/outbox-relay.worker.ts:49-52 | The claim selects exactly the due rows, in increasing id order |
| OutboxRelay.FirstDueIsDue | Backend/src/infrastructure/events/outbox-relay.worker.ts:49-53 | With the limit it takes as many due rows as the limit allows, and no due row before one of them is left out |
| OutboxRelay.ValidIdsAreValid | Backend/src/infrastructure/events/outbox-relay.worker.ts:127-132 | The batch keeps exactly the claimed rows that pass the check, in id order |
| OutboxRelay.CheckedIsPath | Backend/src/infrastructure/events/outbox-relay.worker.ts:128-132 | Checking the claimed rows one after the other is a path of the protocol |
| OutboxRelay.SentIsPath | Backend/src/infrastructure/events/outbox-relay.worker.ts:138-157 | So is the broker taking any subset of the batch |
| OutboxRelay.RetriedIsPath | Backend/src/infrastructure/events/outbox-relay.worker.ts:91-117 | So is rescheduling the rows of a failed batch |
| OutboxRelay.RelayedRow | Backend/src/infrastructure/events/outbox-relay.worker.ts:43-167 | A claimed row after a call, column by column: one attempt more; terminal now if invalid, delivered now if the batch went through, else due after the delay for that attempt |
| OutboxRelay.PublishedIsExact | Backend/src/infrastructure/events/outbox-relay.worker.ts:134-157 | The rows published are exactly the claimed valid ones the broker took, in id order within each topic |
| OutboxRelay.Process.ClaimOutboxRows | Backend/src/infrastructure/events/outbox-relay.worker.ts:43-67 | The first due rows are claimed, as many as the limit allows: an attempt is counted on each and its `available_at` moved past the lease; no other row changes |
| OutboxRelay.Process.CheckEach | Backend/src/infrastructure/events/outbox-relay.worker.ts:127-132 | The first loop ends in the state the specification gives after all claimed rows |
| OutboxRelay.Process.SendBatch | Backend/src/config/kafka.config.ts:92-102 | The log grows by the accepted messages, in the order they were handed over |
| OutboxRelay.Process.MarkRetryRows | Backend/src/infrastructure/events/outbox-relay.worker.ts:91-117 | Each open row of a failed batch becomes due after the delay for the attempt just made |
| OutboxRelay.Process.PublishBatches | Backend/src/infrastructure/events/outbox-relay.worker.ts:134-157 | The broker gets, for each topic, the accepted ones of its valid rows in id order |
| OutboxRelay.Process.MarkPublished | Backend/src/infrastructure/events/outbox-relay.worker.ts:158-164 | All valid rows are marked delivered if the broker took everything and the mark succeeds, else all are rescheduled |
| OutboxRelay.Process.RelayOutboxBatch | Backend/src/infrastructure/events/outbox-relay.worker.ts:119-167 | One call is a path of the protocol. It claims min(batchSize, due) rows, the first ones, and returns their number; the log grows by exactly one message, of the row's own topic and fields, for each claimed valid row the broker took, in id order within a topic; each claimed row ends delivered, terminal or rescheduled and no other row changes |
| OutboxDraining.ClaimSize | Backend/src/infrastructure/events/outbox-relay.worker.ts:43-67 | With every open row due, a claim takes exactly min(batchSize, pending) rows |
| OutboxDraining.CallDrains | Backend/src/infrastructure/events/outbox-relay.worker.ts:119-167 | A successful call removes exactly the rows it claims from the pending set |
| OutboxDraining.Draining | Backend/src/infrastructure/events/outbox-relay.worker.ts:119-167 | N pending rows are all closed once k calls with k * batchSize >= N have succeeded, valid ones delivered and invalid ones terminal, and the next call claims nothing |
| EmailDelivery.EmailRetryDelayMs | Backend/src/modules/notifications/email-delivery.worker.ts:13-30 | A delay is at least thirty seconds and at most two hours |
| EmailDelivery.DelaysGrow | Backend/src/modules/notifications/email-delivery.worker.ts:13-30 | The delays are 30 s, 2 min, 10 min, 30 min and then 2 h for every later attempt, and never fall |
| EmailDelivery.SendsNeverExceedAttempts | Backend/src/modules/notifications/email-delivery.worker.ts:32-133 | In every run, with crashes and late deliveries, a row is sent at most once per attempt |
| EmailDelivery.SentBySmtp | Backend/src/modules/notifications/email-delivery.worker.ts:106-129 | In every run a row marked sent in SMTP mode has been handed to the SMTP server, and in any other mode no row is |
| EmailDelivery.ClosedStays | Backend/src/modules/notifications/email-delivery.worker.ts:39-40 | A row that was sent or given up is never claimed again and stays closed in every step, late deliveries included |
| EmailDelivery.EmailQueue | Backend/src/modules/notifications/email-delivery.worker.ts:32-133 | In runs in which no row is claimed again under a delivery in progress, late deliveries and crashes included: a row is claimed at most maxAttempts times plus once per crashed delivery, is never both sent and terminal, has attempts left while pending, has one `email.delivery_failed.v1` row iff it is terminal, and without crashes is sent or terminal once its attempts are used up |
| EmailDelivery.LeasesSeparateDeliveries | Backend/src/modules/notifications/email-delivery.worker.ts:38-42 | If each delivery ends within its lease, no two deliveries of one row are ever in progress, and its row can be claimed exactly when the lease is over |
| EmailDelivery.DeliveriesExclusive | Backend/src/modules/notifications/email-delivery.worker.ts:39-42 | The same, late deliveries included, in runs in which no row is claimed under a delivery in progress |
| EmailDelivery.LateDeliveryClosesTwice | Backend/src/modules/notifications/email-delivery.worker.ts:120-129 | The marks carry no fence: for every limit on the attempts, a run in which a delivery outlives its lease and the row ends both sent and terminal |
| EmailDelivery.StepFine | Backend/src/modules/notifications/email-delivery.worker.ts:32-133 | The exact condition: a step keeps what is known of rows and deliveries if and only if it does not claim a row with a delivery in progress |
| EmailDelivery.BusyClaimIsLate | Backend/src/modules/notifications/email-delivery.worker.ts:38-42 | Such a claim is possible exactly when the lease of the delivery is over |
| EmailDelivery.TimelyRunsAreGuarded | Backend/src/modules/notifications/email-delivery.worker.ts:41 | Runs in which each delivery ends before its lease have no such claim |
| EmailDelivery.CrashesAddAttempts | Backend/src/modules/notifications/email-delivery.worker.ts:46-55 | A row can be claimed n + 1 times after n crashes, whatever the limit |
| EmailDelivery.ClaimableIdsFine | Backend/src/modules/notifications/email-delivery.worker.ts:38-42 | The claim selects exactly the claimable rows, in increasing id order |
| EmailDelivery.FirstClaimableFine | Backend/src/modules/notifications/email-delivery.worker.ts:38-45 | With the limit it takes min(limit, claimable) rows, and no claimable row before one of them is left out |
| EmailDelivery.ClaimBatchLeads | Backend/src/modules/notifications/email-delivery.worker.ts:32-59 | Claiming a batch in one transaction is a run of single claims |
| EmailDelivery.DeliveryLeads | Backend/src/modules/notifications/email-delivery.worker.ts:106-133 | One delivery, however it ends, is a path of the protocol |
| EmailDelivery.DeliveryEffect | Backend/src/modules/notifications/email-delivery.worker.ts:106-133 | A delivery changes its own row only: sent, pending with a later `available_at`, or terminal with one report; in SMTP mode it is one send more unless the server refused it, in any other mode none |
| EmailDelivery.Worker.DeliverOne | Backend/src/modules/notifications/email-delivery.worker.ts:106-133 | The row is marked sent, or failed whichever call threw; `sends` grows by the row exactly if the mode is SMTP and the server took the mail |
| EmailDelivery.Worker.ClaimDeliveries | Backend/src/modules/notifications/email-delivery.worker.ts:32-59 | Exactly the first min(limit, claimable) claimable rows are leased and their attempts counted; the counts returned are those before |
| EmailDelivery.Worker.RunEmailDeliveryBatch | Backend/src/modules/notifications/email-delivery.worker.ts:135-154 | One call is a path of the protocol. It delivers the first min(limit, claimable) rows and returns their number, changes each as its delivery went and no other, and says for every row by how much its sends and its terminal reports grow |
| NotificationStore.InsertKeepsUnique | Backend/src/modules/notifications/notification.service.ts:244-258 | Inserting drafts keeps at most one row per (event, recipient, template) |
| NotificationStore.InsertIsLocal | Backend/src/modules/notifications/notification.service.ts:244-258 | It touches only its own event's rows and depends only on them |
| NotificationStore.InsertContents | Backend/src/modules/notifications/notification.service.ts:244-257 | The old rows are a prefix of the new ones; afterwards every draft's key has a row of the event; each new row is the first draft of its key, and only keys that were free get one, once |
| NotificationStore.EnqueueContents | Backend/src/modules/notifications/notification.service.ts:215-266 | Enqueueing an unsettled event leaves its receipt processed with one attempt more, inserts its drafts so, and stamps its auction now if it had no stamp; nothing else changes |
| NotificationStore.RowsOfDrafts | Backend/src/modules/notifications/notification.service.ts:244-257 | What the invariant says of an event's rows, row by row: every draft's key has a row, and every row is the first draft of its key |
| NotificationStore.EnqueueFine | Backend/src/modules/notifications/notification.service.ts:215-266 | The enqueue transaction keeps, for every event, its email rows those that its first successful enqueue inserts into an empty table |
| NotificationStore.FailureExact | Backend/src/modules/notifications/notification-consumer.worker.ts:132-155 | The catch block's upsert keeps that for every event if and only if its own event is not settled |
| NotificationStore.TerminalExact | Backend/src/modules/notifications/notification-consumer.worker.ts:56-98 | So does giving the event up, which writes one dead letter with the receipt |
| NotificationStore.ReopenFine | Backend/src/modules/dashboard/application/dashboard-summary.use-case.ts:444-458 | An operator's retry keeps it as well |
| NotificationConsumer.ReopenedIsHandled | Backend/src/modules/dashboard/application/dashboard-summary.use-case.ts:444-458 | After it the event's next delivery is handled, whereas before it would have returned |
| NotificationConsumer.CommitSafety | Backend/src/modules/notifications/notification-consumer.worker.ts:101-211 | Below a committed offset every message is of a type the group ignores or has a processed or terminal receipt, unless the stop check skipped it or an operator reopened the event; handlers of one event may overlap, as long as none counts a failure of an event already settled |
| NotificationConsumer.CommitFine | Backend/src/modules/notifications/notification-consumer.worker.ts:199-206 | A batch commits only when the scheduler has mapped every one of its messages |
| NotificationConsumer.FetchCovers | Backend/src/modules/notifications/notification-consumer.worker.ts:171-208 | A fetched batch starts at the committed offset, reaches the last message fetched, and has a handler for each |
| NotificationConsumer.CommitReachesEnd | Backend/src/modules/notifications/notification-consumer.worker.ts:199-206 | A commit moves its partition's offset behind the batch's last message and no other offset |
| NotificationConsumer.CommittedIsHandled | Backend/src/modules/notifications/notification-consumer.worker.ts:175-206 | By then the handler of each message of the batch has returned |
| NotificationConsumer.IdempotentEffects | Backend/src/modules/notifications/notification.service.ts:208-268 | Under duplicates, reordering and overlapping handlers a processed event has a row for each draft of its first successful enqueue, and every row of it is such a draft; any other event has no row; it has one dead letter for each time it became terminal, as long as no catch block overwrites a settled receipt |
| NotificationConsumer.EmailRowsUnique | Backend/src/modules/notifications/notification.service.ts:244-258 | In every run, overlapping handlers included, no two email rows share (event, recipient, template) |
| NotificationConsumer.StampSetOnce | Backend/src/modules/notifications/notification.service.ts:259-265 | An auction's `auction_notification_enqueued_at`, once set, never changes |
| NotificationConsumer.RecoveryStamps | Backend/src/modules/notifications/email-delivery.worker.ts:161-197 | The recovery of an auction without a stamp, if its calls succeed, inserts each draft and stamps the auction at the time of its transaction |
| NotificationConsumer.CommittedThenUnsettled | Backend/src/modules/notifications/notification-consumer.worker.ts:148-153 | The catch block does not look at the old status: a run in which a message fetched twice is processed and committed, and then its receipt is back to retrying below the committed offset |
| NotificationConsumer.CommittedUnhandled | Backend/src/modules/notifications/notification-consumer.worker.ts:175 | A run in which the stop check skips a message that is then committed without any receipt |
| NotificationConsumer.SerialRunsAreGuarded | Backend/src/modules/notifications/notification-consumer.worker.ts:129-167 | If handlers of one event never overlap, no first read fails for a settled event and no reply to a write is lost, then no settled receipt is overwritten |
| NotificationConsumer.SerialExact | Backend/src/modules/notifications/notification-consumer.worker.ts:129-167 | The exact condition for one handler of an event at a time: those two failures and nothing else put a handler into the catch block of a settled event |
| NotificationConsumer.SettledIsCaught | Backend/src/modules/notifications/notification-consumer.worker.ts:131-155 | After either of them the handler can overwrite the settled receipt next |
| NotificationConsumer.FailedReadUnsettles | Backend/src/modules/notifications/notification.service.ts:213 | A run, one handler at a time, in which a message is processed and committed, and then the failing first read of its copy puts the receipt back to retrying |
| NotificationConsumer.PoisonBound | Backend/src/modules/notifications/notification-consumer.worker.ts:129-168 | In every run a counted failure of an event makes its batch throw at most retryLimit - 1 times, so batches of m events are rejected for counted failures at most m * (retryLimit - 1) times |
| NotificationConsumer.StepFine | Backend/src/modules/notifications/notification-consumer.worker.ts:101-211 | The exact condition: a step keeps the whole invariant if and only if it is not a catch block that overwrites a settled receipt |
| NotificationConsumer.StepSound | Backend/src/modules/notifications/notification-consumer.worker.ts:101-211 | Commit safety alone is kept by every step but the counting of a failure of a settled event |
| NotificationIntake.HandlerIsPath | Backend/src/modules/notifications/notification-consumer.worker.ts:101-169 | However its reads and transactions end, handling one message is a path of the step system with exactly the stated effect on the database |
| NotificationIntake.TryIsPath | Backend/src/modules/notifications/notification.service.ts:213-267 | So is the part up to the return or the catch block |
| NotificationIntake.CatchIsPath | Backend/src/modules/notifications/notification-consumer.worker.ts:131-167 | So is the catch block |
| NotificationIntake.Intake.CreateEmails | Backend/src/modules/notifications/notification.service.ts:244-257 | The table ends as inserting the drafts one after the other leaves it, whose contents InsertContents states |
| NotificationIntake.Intake.EnqueueNotificationEvent | Backend/src/modules/notifications/notification.service.ts:208-268 | A failing first read throws, even for a settled event; a settled event changes nothing; failing drafts throw and change nothing; otherwise receipt, email rows and stamp change together, and a lost reply throws although they have |
| NotificationIntake.Intake.WriteAll | Backend/src/modules/notifications/notification.service.ts:215-266 | The transaction changes nothing if the event has been settled meanwhile, else it does what EnqueueContents states: receipt, email rows and stamp |
| NotificationIntake.Intake.CatchFailure | Backend/src/modules/notifications/notification-consumer.worker.ts:131-167 | The catch block counts the failure without looking at the status, and gives up or throws |
| NotificationIntake.Intake.ProcessKafkaMessage | Backend/src/modules/notifications/notification-consumer.worker.ts:101-169 | However its calls end, it does to the database what the specification says and throws when it says |
| NotificationIntake.RedeliveryChangesNothing | Backend/src/modules/notifications/notification.service.ts:213 | A message delivered again after its event was settled changes nothing and does not throw if its first read answers, else the catch block runs on the settled event |
| NotificationIntake.FailedReadOverwrites | Backend/src/modules/notifications/notification-consumer.worker.ts:131-155 | A failed first read leaves a settled event alone exactly if the upsert of the catch block is refused |
| Pipeline.NoNotificationLost | Backend/src/modules/notifications/notification-consumer.worker.ts:101-211 | Across relays and consumers, overlapping handlers included: a delivered row of a notification event has a copy in the log of its own topic, and once the group has committed past a copy, the event is terminal, or has a row for each draft of its first successful enqueue and no others, unless that copy was skipped by the stop check or the event reopened, as long as no catch block overwrites a settled receipt |
| Pipeline.CommittedCopyDone | Backend/src/modules/notifications/notification-consumer.worker.ts:199-206 | The same for one committed copy |
| Pipeline.NotificationIsClassified | Backend/src/modules/notifications/notification-consumer.worker.ts:22-40 | Every record that carries a row of a notification event is one the group handles, under the row's own event id |
| Pipeline.ClassifiedExactly | Backend/src/modules/notifications/notification-consumer.worker.ts:22-40 | The group handles exactly the seven event types, under their event id; two of them stamp the auction; only what the gate refuses is unreadable |
| Pipeline.DeadLettersAreRows | Backend/src/modules/notifications/notification-consumer.worker.ts:82-98 | In every run, overwritten receipts included, an event has at least as many outbox rows that report it on the dead-letter topic as the group has given up on it |
| Pipeline.TerminalIsReported | Backend/src/modules/notifications/notification-consumer.worker.ts:56-98 | So a terminal event has an outbox row on `async_events_dlq` whose causation id is the event's id |
| Pipeline.OutboxMoves | Backend/src/modules/notifications/notification-consumer.worker.ts:82-98 | The group touches the outbox only by inserting that row, which is due at once |
| Pipeline.RecordAtOffset | Backend/src/modules/notifications/notification-consumer.worker.ts:199-206 | The record at an offset of a partition is the message appended there |
| Pipeline.StepFine | Backend/src/infrastructure/events/outbox-relay.worker.ts:119-167 | A step of relays and consumers together keeps conservation, the consumers' invariant and the agreement of their logs if and only if it does not overwrite a settled receipt |
| DashboardWorker.Worker.RetryUntilSettled | Backend/src/workers/dashboard.worker.ts:183-226 | The loop ends at the first successful try or when the attempts reach the limit, with the receipt processed or terminal |
| DashboardWorker.Worker.ProcessMessage | Backend/src/workers/dashboard.worker.ts:151-228 | A message with no value throws and changes nothing; any other ends with its receipt settled after at most max(1, retryLimit - startAttempts + 1) tries |
| DashboardWorker.FirstSuccess | Backend/src/workers/dashboard.worker.ts:184-226 | The try at which the loop succeeds is the first that does |
| DashboardWorker.OneLetterPerEvent | Backend/src/workers/dashboard.worker.ts:125-133 | In every run of deliveries handled one at a time an event has an `async.consumer_terminal.v1` row exactly when it is terminal, and never two |
| DashboardWorker.SettledStays | Backend/src/workers/dashboard.worker.ts:177-181 | Processed and terminal are absorbing under every later run of deliveries handled one at a time |
| DashboardWorker.DeliveredIsSettled | Backend/src/workers/dashboard.worker.ts:151-228 | Every event delivered at least once, with a value, is settled at the end of deliveries handled one at a time |
| DashboardConsumer.ReturnedIsSettled | Backend/src/workers/dashboard.worker.ts:151-228 | However the handlers of a batch interleave, an event whose handlers have returned is processed or terminal; only a handler that throws can leave it retrying |
| DashboardConsumer.NeverTwoLetters | Backend/src/workers/dashboard.worker.ts:105-148 | However they interleave, no event has two `async.consumer_terminal.v1` rows and every terminal one has its row |
| DashboardConsumer.SettledStaysUnlessCounted | Backend/src/workers/dashboard.worker.ts:84-90 | A settled receipt stays settled in a step exactly if the step does not count a try of its event |
| DashboardConsumer.OverlapReopens | Backend/src/workers/dashboard.worker.ts:177-183 | That happens: a run in which one handler processes an event and another then counts its try |
| DashboardConsumer.StepFine | Backend/src/workers/dashboard.worker.ts:151-228 | Every step of every handler keeps the invariant: a receipt that is not settled has a handler at work on it or one that threw |
| DashboardConsumer.MessageIsPath | Backend/src/workers/dashboard.worker.ts:151-228 | A handler that runs alone has exactly the effect that the whole call is specified to have |
| CategoryTree.BuildBelow | Backend/src/helpers/category.helper.ts:17-38 | Every nested call ends, and returns exactly the children of its parent, in input order, each with its own subtree |
| CategoryTree.BuildTree | Backend/src/helpers/category.helper.ts:17-38 | For any parent that is on no cycle the call ends, and its tree holds each category that descends from the parent exactly once and the others not at all |
| CategoryTree.EndsIffOnNoCycle | Backend/src/helpers/category.helper.ts:24-25 | The recursion ends if and only if the parent is on no cycle of parent pointers, whatever the rest of the table |
| CategoryTree.BuildRootTree | Backend/src/helpers/category.helper.ts:17-38 | From the root it ends on every table with distinct ids, cyclic or dangling parents included, and holds each category whose parents lead to null exactly once and the others not at all |
| CategoryTree.ChainNeverRepeats | Backend/src/helpers/category.helper.ts:24-25 | Along a chain of parents below a parent on no cycle no category repeats |
| CategoryTree.ChainLength | Backend/src/helpers/category.helper.ts:24-25 | Such a chain is no longer than the table |
| CategoryTree.ChainUnique | Backend/src/helpers/category.helper.ts:24 | A category has at most one such chain |
| CategoryTree.TreeContents | Backend/src/helpers/category.helper.ts:17-38 | The tree holds a category once if its parents lead to the tree's parent, else not |
| CategoryTree.OnlyCategories | Backend/src/helpers/category.helper.ts:27-33 | No node of the tree has an id that is not in the table |
| CategoryTree.ChildIndicesFine | Backend/src/helpers/category.helper.ts:23-24 | The children of a parent are found in input order, all of them and no others |
| AgentWorkflow.GraphEnds | AgentService/src/workflow/langGraphWorkflow.ts:77-88 | For all answers of the agents the graph ends or a call throws; it ends right after a review, and reviews a failing test only as its last visit |
| AgentWorkflow.NextSound | AgentService/src/workflow/langGraphWorkflow.ts:432-455 | Every node and the edge taken out of it keep that |
| AgentWorkflow.FinishUnthrown | AgentService/src/workflow/langGraphWorkflow.ts:77-88 | When no call throws the graph reaches its end |
| AgentWorkflow.GraphTurns | AgentService/src/workflow/langGraphWorkflow.ts:344-455 | The graph makes as many implementing visits as it takes until a turn asks for no changes, but at most max(1, limit - 1) with the limit rounded up, and is approved iff tester and reviewer passed the turn it stopped at |
| AgentWorkflow.BoundIsReached | AgentService/src/workflow/langGraphWorkflow.ts:432-455 | Agents that always ask for changes make the graph, as far as its own edges go, visit implementing exactly that often |
| AgentWorkflow.VisitsAreBounded | AgentService/src/workflow/langGraphWorkflow.ts:77-88 | A run has at most three nodes for each turn and two before the first |
| AgentWorkflow.VisitsBoundIsReached | AgentService/src/workflow/langGraphWorkflow.ts:77-88 | It has exactly that many if every review asks for changes, so a smaller limit on the steps of the graph library cuts it off |
| AgentWorkflow.RunLoop | AgentService/src/workflow/agentWorkflow.ts:125-219 | The loop makes at most limit turns, stops at the first that asks for no changes, and ends waiting for approval iff that turn passed, else failed |
| AgentWorkflow.FirstStop | AgentService/src/workflow/agentWorkflow.ts:125-200 | The turn at which an engine stops is the first that does not ask for changes, or the one after the last |
| AgentWorkflow.LoopApproves | AgentService/src/workflow/agentWorkflow.ts:125-202 | When no call throws the loop waits for approval iff some turn within the limit passes tester and reviewer |
| AgentWorkflow.ReportsDiffer | AgentService/src/worker.ts:117-137 | The worker asks for approval whenever the graph has ended, so the engines report the same iff some turn of the loop passes |
| AgentWorkflow.OneTurnMore | AgentService/src/workflow/langGraphWorkflow.ts:437-450 | The loop has one turn more than the graph exactly when the limit is a whole number from two on |
| AgentWorkflow.EnginesApproveAlike | AgentService/src/workflow/agentWorkflow.ts:125-202 | The engines approve the same work unless the first turn to pass is the one the graph does not have |
| ApiClient.NoLostWakeup | Frontend/src/services/api.client.ts:106-124 | In every run: a non-empty queue implies the refresh flag, the flag implies a refresh in flight, the queue is exactly the parked requests, and no promise is settled twice |
| ApiClient.SettledWithTheFlag | Frontend/src/services/api.client.ts:41-50 | Only the step that runs `processQueue` settles parked promises; it clears the flag and settles every one of them exactly once |
| ApiClient.StepKeeps | Frontend/src/services/api.client.ts:83-124 | Every step between two awaits keeps the invariant |
| ApiClient.ProcessQueueSettles | Frontend/src/services/api.client.ts:41-50 | Of all requests exactly the queued ones are settled, once each: sent again on their own path, or rejected |
| ApiClient.ResponsesMatch | Frontend/src/services/api.client.ts:44 | A request ends with a response to its own path or a failure, however often it was parked and sent again |
| ApiClient.AnswerEnds | Frontend/src/services/api.client.ts:93-130 | A good response ends its request with that response, a failure with the failure, and a 401 refreshes or parks it; no other request changes |
| ApiClient.SuccessTravels | Frontend/src/services/api.client.ts:44 | A good response reaches the request that waits for it, through a retry or through the promise of a parked one |
| ApiClient.RefreshSendsAgain | Frontend/src/services/api.client.ts:106-119 | A successful refresh sends the request again for its own path, and a failed one ends it with the failure |
| ApiClient.NeverStuck | Frontend/src/services/api.client.ts:106-124 | While a request is unfinished a fetch or a refresh is in flight or a waiting call can go on |
| ApiClient.SingleFlightBreaks | Frontend/src/services/api.client.ts:119-122 | A step breaks single-flight refreshing exactly when a request's own retry fails while another's refresh is in flight |
| ApiClient.SingleFlightHolds | Frontend/src/services/api.client.ts:106-124 | Runs without such a step have at most one refresh in flight throughout |
| ApiClient.TwoRefreshesInFlight | Frontend/src/services/api.client.ts:119-122 | A run with two refreshes in flight |
| ApiClient.PhasesStay | Frontend/src/services/api.client.ts:106-117 | A refresh is started only for a 401 met with the flag clear, and only its own end takes it out of flight |
| ApiClient.Client.RunProcessQueue | Frontend/src/services/api.client.ts:41-50 | The loop over the queue settles it as specified and empties it |
| ApiClient.Client.OnResponse | Frontend/src/services/api.client.ts:93-130 | A 401 starts a refresh or parks the request; any other response ends it; the invariant is kept |
| ApiClient.Client.OnRefreshEnded | Frontend/src/services/api.client.ts:116-124 | The flag is cleared, the queue resolved or rejected and the request sent again or failed, in one block |
| ApiClient.Client.OnRetryEnded | Frontend/src/services/api.client.ts:119-124 | A failed retry runs the catch block of the refresh |
| ApiClient.Client.GiveUp | Frontend/src/services/api.client.ts:120-124 | The flag is cleared, every parked request rejected and the call fails |
| ApiClient.Client.OnFollowEnded | Frontend/src/services/api.client.ts:44 | A parked call ends as the request sent for it does |
| BootstrapLock.MutualExclusion | Backend/src/scripts/seed-bidding-benchmark.ts:31-57 | In every run at most one seeder that has set all its keys is within the time-to-live of its first, and it owns the live key of every shard |
| BootstrapLock.SucceedsOnlyLate | Backend/src/scripts/seed-bidding-benchmark.ts:37-43 | While one seeder's keys are live on all shards another acquire can succeed only after outliving its own last key; until then the last shard's key is its own |
| BootstrapLock.SlowSeederSucceedsToo | Backend/src/scripts/seed-bidding-benchmark.ts:41-43 | That happens: a run in which both hold the lock |
| BootstrapLock.NothingLeft | Backend/src/scripts/seed-bidding-benchmark.ts:44-70 | In every run a seeder that failed or released has a key left only on a shard where a reply was lost |
| BootstrapLock.LostReplyLeavesKey | Backend/src/scripts/seed-bidding-benchmark.ts:36-40 | A lost reply does leave such a key |
| BootstrapLock.OnlyTheOwnerDeletes | Backend/src/scripts/seed-bidding-benchmark.ts:59-70 | A live key is changed by no step but its own seeder's delete or the passing of time, however late another's release is |
| BootstrapLock.FailureUndoes | Backend/src/scripts/seed-bidding-benchmark.ts:44-57 | However acquire fails, every key it has set is among those it deletes next, or its SET was not answered |
| BootstrapLock.DeletesAreTriedOnce | Backend/src/scripts/seed-bidding-benchmark.ts:45-70 | The deletes of a failed acquire or a release are tried once on each shard, whether they throw or not |
| BootstrapLock.FenceStops | Backend/src/scripts/seed-bidding-benchmark.ts:41-43 | An acquire that looks at a shard while its fence is up never holds the lock, in any later state |
| BootstrapLock.ActionKeeps | Backend/src/scripts/seed-bidding-benchmark.ts:31-70 | Every Redis command, lost reply, crash and tick keeps the invariant |
| BootstrapLock.Cluster.SetKey | Backend/src/scripts/seed-bidding-benchmark.ts:37-39 | SET NX takes a free or expired key and otherwise sends the seeder to its catch block |
| BootstrapLock.Cluster.DeleteKey | Backend/src/scripts/seed-bidding-benchmark.ts:46-53 | Compare-and-delete removes the key only if it holds the seeder's token |
| BootstrapLock.Cluster.SetKeys | Backend/src/scripts/seed-bidding-benchmark.ts:36-40 | The loop over the shards succeeds iff none has a live key, and changes no live key |
| BootstrapLock.Cluster.LookAtFences | Backend/src/scripts/seed-bidding-benchmark.ts:41-42 | The seeder holds the lock iff no shard has a recovery fence |
| BootstrapLock.Cluster.DeleteKeys | Backend/src/scripts/seed-bidding-benchmark.ts:45-54 | Afterwards no shard has a key of the seeder, and every other key is as before |
| BootstrapLock.Cluster.AcquirePlannedBootstrap | Backend/src/scripts/seed-bidding-benchmark.ts:31-57 | Run alone it succeeds iff no shard has a live key or a fence, then owns every shard; if it fails it leaves no key of its own and changes no live key |
| BootstrapLock.Cluster.ReleasePlannedBootstrap | Backend/src/scripts/seed-bidding-benchmark.ts:59-70 | Run alone it removes exactly the seeder's own keys |
| LiveFeed.NewerIsOrder | Frontend/src/hooks/useSocketBidding.ts:9-15 | `isNewer` holds iff the sequence is greater, or equal with a greater version, or there is no version yet; so it is a strict total order |
| LiveFeed.LatestIsMaximum | Frontend/src/hooks/useSocketBidding.ts:41-45 | For every received event of the product, and the initial version: its sequence is below that of the final `latest`, or equal with a version not above it; and `latest` is one of them |
| LiveFeed.OrderDoesNotMatter | Frontend/src/hooks/useSocketBidding.ts:41-45 | Any reordering or duplication of the same events ends with the same `latest` |
| LiveFeed.DeliveredIncreases | Frontend/src/hooks/useSocketBidding.ts:41-45 | The events handed to `onBid` increase by sequence and then by version, all above the initial version, the last being `latest` |
| LiveFeed.DeliveredIffRecord | Frontend/src/hooks/useSocketBidding.ts:42 | An event is let through exactly if it is of the product and, by sequence and then by version, above everything before it |
| LiveFeed.SameLastEvent | Frontend/src/hooks/useSocketBidding.ts:41-45 | If a version names one event, every order leaves the same event shown last |
| LiveFeed.Feed.constructor | Frontend/src/hooks/useSocketBidding.ts:35-39 | The feed starts from the initial version if both of its parts are given |
| LiveFeed.Feed.HandleBid | Frontend/src/hooks/useSocketBidding.ts:41-45 | The handler passes the event on iff it is of the product and above `latest` by sequence and then by version, and `latest` is the maximum of all received |
| LiveFeed.Feed.HandleConnect | Frontend/src/hooks/useSocketBidding.ts:46-50 | Every connect joins the channel, and every one but the first is reported as a reconnect |
| Price.CutIsMatch | Frontend/src/utils/format_price.ts:4 | A dot goes exactly where the regular expression matches |
| Price.DottedIsGrouped | Frontend/src/utils/format_price.ts:4 | A text of digits comes out as groups of exactly three after a first group of one to three |
| Price.WholePricesAreGrouped | Frontend/src/utils/format_price.ts:2-5 | A whole price prints as its sign and its grouped digits |
| Price.DotsInPlace | Frontend/src/utils/format_price.ts:4 | In the printed digits every fourth place from the end is a dot and every other place a digit |
| Price.FirstGroup | Frontend/src/utils/format_price.ts:4 | The printed digits begin with the first digit, never with a dot |
| Price.DotsUndo | Frontend/src/utils/format_price.ts:8 | Taking the dots out undoes putting them in, on any text |
| Price.ReadsMantissa | Frontend/src/utils/format_price.ts:6-11 | Reading a printed price gives its digits without the decimal point, and nothing for zero |
| Price.RoundTrip | Frontend/src/utils/format_price.ts:2-11 | A price survives printing and reading exactly if it is a whole number other than zero |
| Price.TextDenotes | Frontend/src/utils/format_price.ts:4 | Before the dots are put in, the text of a price has as many digits after the point as it has decimals, and stands for the price |
| Price.PrintsWhatItRead | Frontend/src/utils/format_price.ts:2-11 | Reading grouped digits without leading zeros and printing the number gives the text back |

## Left out

- Pipeline.NoNotificationLost: stops at the email rows, whose delivery is modelled apart in EmailDelivery, and is stated for runs in which no settled receipt is overwritten, which the code does not prevent.
- NotificationConsumer.CommitSafety: excepts runs that count a failure of a settled event, and messages the stop check skipped, both of which the code commits.
- NotificationConsumer.IdempotentEffects: excepts runs that overwrite a settled receipt, and does not speak of the dead letters of unreadable messages, of which the code writes one per delivery.
- EmailDelivery.EmailQueue: excepts runs that claim a row again under a delivery in progress, because the final updates carry no fence.
- EmailDelivery.DeliveriesExclusive: the same; LeasesSeparateDeliveries states it by the leases.
- EmailDelivery.LeasesSeparateDeliveries: excepts runs in which a delivery outlives its lease, which the code does not prevent.
- Outbox.LeasesSeparateProcesses: excepts runs in which a process outlives its lease, which the code does not prevent.
- Outbox.LeaseExclusivity: excepts runs that claim a row under another process, which the code does once a lease is over.
- OutboxRelay.Process.RelayOutboxBatch: a database error in the claim or in a mark, which makes the call throw, is a crash step of Outbox and no outcome of the method.
- EmailDelivery.Worker.RunEmailDeliveryBatch: delivers one row after the other at one instant, whereas the code delivers them concurrently; the step system covers any order and times.
- BoundedMap.MapWithConcurrency: returns when all workers have stopped, whereas `Promise.all` rejects its caller at the first failure while other workers go on; the step system covers those.
- DashboardWorker.Worker.ProcessMessage: models the path without a refresh, which is the only one `eachBatch` takes, without a stop and with a database that answers; in DashboardConsumer a handler may throw anywhere.
- DashboardWorker.OneLetterPerEvent: messages are handled one at a time, whereas a batch is mapped eight at a time; what holds then is in DashboardConsumer.
- DashboardWorker.SettledStays: the same; under overlapping handlers it is false.
- DashboardWorker.DeliveredIsSettled: the same.
- CategoryTree.BuildTree: a parent on a cycle is excluded, because the code does not end for it.
- BootstrapLock.Cluster.AcquirePlannedBootstrap: runs without other seeders in between and with every command answered; interleavings, lost replies and crashes are in the step system.
- BootstrapLock.Cluster.ReleasePlannedBootstrap: the same, for a seeder none of whose replies were lost.
- NotificationConsumer.PoisonBound: counts failures whose upsert was answered; a throw out of the catch block itself, as for an event id that the database refuses, rejects the batch any number of times.
- NotificationConsumer.SerialRunsAreGuarded: excepts failing first reads of settled events and lost replies to writes, after which the code does overwrite a settled receipt.
- Price.RoundTrip: prices are decimal numbers of any size, so doubles that cannot hold a whole number above 2^53 and numbers JavaScript prints with an exponent are not modelled.
- Price.ReadsMantissa: reading takes a sign and digits; leading blanks, exponents and `Infinity` in typed text are not modelled.
- LiveFeed.Feed.HandleBid: sequences and versions are integers, so strings that `BigInt` refuses are not modelled.
- AgentWorkflow.GraphEnds: agents answer pass or not; finding that answer in their text, the run and step rows in PostgreSQL, and checkpoints are not modelled.
- AgentWorkflow.BoundIsReached: the graph library's own limit on the steps of a run is not modelled; VisitsAreBounded says how many steps a run needs, and below that many the library makes the run throw.
- AgentWorkflow.FinishUnthrown: the same.
- AgentWorkflow.GraphTurns: the same.
- AgentWorkflow.ReportsDiffer: the same; the worker reports nothing of a run that is cut off.
- AgentWorkflow.EnginesApproveAlike: the same.
- ApiClient.NoLostWakeup: fetching a CSRF token and the one retry after a rejected token are part of a fetch that is still in flight.
- `SKIP LOCKED`: a claim step takes any set of due rows, so skipped locks are covered; the relay's and the mailer's own code take the first due rows of one process alone.
- PostgreSQL, Prisma, KafkaJS and Redis: a transaction or a command is one step, a topic partition an append-only sequence, unique keys hold.
- SHA-256 and random ids: different inputs give different ids. Dates and their text are plain values, so an unreadable `occurred_at` is not modelled.
- JSON text: printing and parsing are inverse; a text that is not JSON is one value of its own.
- Replies lost after a statement was applied: modelled in the notification consumer and the bootstrap lock; elsewhere a statement that throws has changed nothing, so a mailer whose `sent` mark is applied but unanswered, and which then marks the row pending, is not modelled.
- Environment variables: topic names have their defaults and limits are whole numbers.
- Email texts and draft lookups: a lookup gives any list of drafts or fails.
- The one-second SMTP spacing, heartbeats, timers, log contexts and last-error columns: they change no state modelled here.
- The dashboard's snapshot refresh, debouncing and offset commit: the scheduler and its coverage are the same as for notifications.
- Commits and fetches of Kafka beyond the committed offset, and group rebalancing: any number of batches of a partition may be open at once.
- Deleting outbox rows, which only benchmark scripts do, and the bid dispatcher, which only a verification script calls: it marks rows of the same table delivered without looking at `terminal_at`, so Outbox.Conservation does not cover it.
- The Redis bidding scripts, the stream projector and the authority recovery: the recovery's fence is an arbitrary flag per shard.
- Authentication, routes, pages, rate limits and the benchmark's own arithmetic: plumbing or easy members.
