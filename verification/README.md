# Delayed notifier: a verified model

The delayed notifier stores a notification in Postgres, caches it in Redis, and publishes it to RabbitMQ with a
TTL. When the TTL is over, a pool of workers checks that the notification is still scheduled, sends it, and records
the result; a failed send goes through a retry queue with exponential backoff. This project models that protocol
and proves what every interleaved run of it keeps.

## How the model is built

Imperative layer, one module for each component, with the fields, branches and error paths of the code:
`Postgres`, `Redis`, `RabbitMq`, `Service`, `Consumer`, `Notifiers` (classes whose methods change state) over
`Domain`, `Mappers` and `Delay` (values and arithmetic). Every method is proved equal to a function of the old
state, and what those functions do is then stated column by column and answer by answer, in numbers and not in their
own terms (the lemmas `...Means` and `...Answers`). `CacheAside` holds the functions of the repositories and proves
that the cached one refines the plain one.
`Atomic` takes handlers and API calls as indivisible acts. `DelayQueue` is a queue whose messages expire at the head.

Interleaved layer: `Protocol` is a state machine in which every foreign call (a query, a cache access, a publish, a
send, an acknowledgement) is a step of its own, so handlers, API calls, crashes, evictions and the clock interleave
in any order. `Invariant` and `InvariantSteps` hold what every step keeps, `Shapes` and `Accounting` the counting of
sends, `Safety` the rest of the invariant and its lifting to all runs. The results are in `Theorems`, `Quiet` and
`LateSends` (sends after a row left status scheduled; `Arrival`, `LateRuns`, `LateBounds` and `Horizon` build up to it),
`Overwrites` and `StatusChanges` (writes after that), `Drain` (termination), `Orphans` (which rows are lost) and
`QueueOrder` (the protocol's delay queues obey the law of `DelayQueue`).
`Witnesses` holds the runs from an empty system that show which stronger claims fail.

`Embedding`, `WorkerRuns` and `ServiceRuns` tie the layers together: a handler, a worker's loop over its deliveries,
or an API call of the imperative layer, run to its end, is one of the protocol's runs with the same effect on table, cache, queues, settlement and counted sends, and
`Answers` ties what an API call returns to what the reads in its run returned.

The state machine also carries history: per notification a ledger (successful and failed sends, `requeues` =
redeliveries after a send, `duplicates` = redeliveries after the broker took the retry copy, the time of the first
publish, and the times of the successful sends), all versions of each row with the time they began, and two sets: `unpublished` (the message never
reached the broker) and `abandoned` (a message was acknowledged because a read failed).

## What is assumed about the environment

- A write to the table, the cache or the broker ends in one of three ways: applied and reported; applied but
  reported as an error; not applied and reported as an error. What the broker accepted it keeps.
- The broker delivers an unsettled message again after a crash or a requeue, with its original body; a crash can
  come between any two steps. The ready queue is delivered in any order.
- A per-message TTL expires only at the head of its queue. A message TTL of more than 2^32 - 1 ms is refused by the
  broker; the code does not check this itself.
- The database generates ids that are not in use. A `TIMESTAMPTZ` column keeps whole microseconds.
- One clock, in nanoseconds, that never runs backwards; API calls and workers read it at each step.
- A transport that reports an error has not delivered: what counts as a successful send is what the notifier reports.
- The address parser never accepts an empty address; otherwise the parsers' verdicts are arbitrary.
- JSON encoding and decoding are inverse to each other; cache keys are injective in the id.
- The floating-point power in the backoff is exact, which it is for the attempts that occur (1 to 4).

## Findings

These stronger claims are false of the code; each has a concrete input, most often a run from an empty system, and the
exact condition.

- A scheduled row can be lost for good: `Orphans.SomeRowIsOrphaned`, `Orphans.RefusedPublishOrphans`,
  `Orphans.FailedReadOrphans`. Exactly when: `Orphans.ScheduledRowIsLostIff` over all runs, `Service.CreateOrphansIff`
  for one create and `Consumer.AcknowledgedUnsentIff` for one handled message.
- A cancelled notification can be sent although no worker was past the status check when it was cancelled:
  `Witnesses.SomeCancelledIsSent` after a lost cache invalidation, and `Witnesses.SomeIsSentBehindReader` in a run in
  which nothing fails and a reader is slow. Exactly when a row that has left status scheduled can be sent beyond the
  workers past the check, in every state that satisfies the invariant (`LateSends.LateSendIff`): there is a worker, and
  either the cache shows a live entry with status scheduled and some message can leave its delay queue, or be
  published and leave it, before that entry expires; or somebody who read the row as scheduled is yet to fill the
  cache, and some message exists or can still be published. A message in a worker's hands or in the ready queue is in
  time always; one in a delay queue exactly if the latest expiry up to it is earlier (`Arrival.HeldBackIff`).
- An update whose invalidation is lost leaves the cache wrong: `CacheAside.LostInvalidationIsVisible`; exactly when:
  `CacheAside.UpdateKeepsCoherenceIff` and `CacheAside.DeleteKeepsCoherenceIff`.
- A notification in the wait queue can be late by any delay of an earlier one: `DelayQueue.WaitLateness`; on time
  exactly when `DelayQueue.OnTimeIff` says so.
- Terminal statuses can overwrite each other, because the SQL has no guard on the old status: in
  `Witnesses.SomeStatusIsOverwritten` sent becomes cancelled, or cancelled sent, and nothing fails. Exactly when a row
  that has left status scheduled can be written again: if and only if a worker or a cancel is past its status check,
  the cache shows a live entry with status scheduled, or somebody who read it is yet to fill the cache
  (`Overwrites.CanWriteIff`). Exactly when its status can change: if and only if a worker past the check or with a
  result leads to another status; or the row is not cancelled and a cancel is past its check or can still get there;
  or it is cancelled and can be sent late (`StatusChanges.CanChangeIff`). In every run no row becomes scheduled again (`Theorems.NeverScheduledAgain`) and each
  status is truthful (`Theorems.StatusesAreTruthful`); with indivisible acts, terminal rows are frozen
  (`Atomic.StatusMachine`).

## Model

| member | source | states |
|---|---|---|
| Theorems.NoScheduledRowIsLost | internal/consumer/consumer.go:135-195 | In every reachable state a scheduled row outside the two orphan sets has an unfinished message or a creation that is still going to publish, stale caches, failed invalidations and crashes included |
| Orphans.ScheduledRowIsLostIff | internal/service/notification_service.go:61-75 | A scheduled row has no message and no pending publish if and only if its message never reached the broker, or one was acknowledged on a failed read and no other is left |
| Orphans.OrphanIsFinal | internal/service/notification_service.go:68-72 | No continuation of any run brings a message for such a row or sends it |
| Orphans.RefusedPublishOrphans | internal/service/notification_service.go:68-72 | In every good state a refused first publish leaves the stored row without a message and unsent |
| Orphans.FailedReadOrphans | internal/consumer/consumer.go:135-143 | A failing status read followed by its acknowledgement leaves the row of a sole message without any message |
| Orphans.SomeRowIsOrphaned | internal/service/notification_service.go:61-72 | Such a state is reached from an empty system |
| Orphans.RecordedRun | internal/consumer/consumer.go:135-143 | Over all runs every id recorded as unpublished has neither message nor pending publish, and every abandoned id had been published |
| Theorems.SendBound | internal/consumer/consumer.go:147-195 | Sends of an id are at most 5 + requeues + 5 * duplicates in every reachable state |
| Theorems.SendBoundWithoutFaults | internal/consumer/consumer.go:20-23 | A run without requeues and crashes sends an id at most five times, and successfully at most once |
| Theorems.DeliveryBound | internal/consumer/consumer.go:146-195 | In every reachable state the sends of an id that were reported as successful are at most 1 + requeues + duplicates |
| Accounting.OutlookStep | internal/consumer/consumer.go:146-195 | No step raises successful sends plus the copies that can still succeed less the redeliveries, except that a first publish sets it to one |
| Accounting.BudgetStep | internal/consumer/consumer.go:166-195 | No step raises sends plus the remaining attempts of the live copies less what redeliveries account for, except that a first publish sets it to five |
| Theorems.ExactSends | internal/consumer/consumer.go:166-195 | Without duplicates one copy at most is active, sends are exactly its attempts plus requeues (plus one after the send), and failed is written on the send that makes five plus the requeues |
| Theorems.StatusesAreTruthful | internal/consumer/consumer.go:146-195 | Failed means five failed sends at least, attempts 5 and no sent time; sent means a successful send, attempts at most 4 and a sent time; any sent time is the time of a successful send, to the microsecond; a message's attempts never exceed the failed sends |
| Theorems.CancelledOnly | internal/storage/postgres/db/notification.sql.go:14-21 | A row that never was sent or failed is what was inserted but for status and update stamp: attempts 0 and no sent time |
| Theorems.MessagesCarryTheRow | internal/storage/rabbitmq/queue.go:112-149 | Every message refers to a row and repeats its content, with status scheduled, no sent time and attempts 0 to 4 |
| Theorems.SendsFailOnlyInTransport | internal/notifiers/dispathcer.go:54-64 | For every message in every reachable state a notifier is found; it accepts exactly if the transport does or it only logs, and fails exactly otherwise |
| Theorems.ScheduledMeansUntouched | internal/storage/postgres/db/notification.sql.go:134-143 | A row that is still scheduled has attempts 0, no sent time and the very value it was inserted with |
| Theorems.NeverScheduledAgain | internal/storage/postgres/db/notification.sql.go:14-21 | No continuation of any run makes a row scheduled again |
| Theorems.ReadsAreHistorical | internal/storage/redis/repository.go:58-81 | Whatever GetByID returns to a worker or a caller, from cache or table, is a value the row held at some earlier time |
| Theorems.HitsAreFresh | internal/storage/redis/repository.go:36 | If the cache was filled within d of the primary read or insert, a hit shows a value that was current less than 24 h + d ago |
| Theorems.SendsAreNotEarly | internal/storage/rabbitmq/queue.go:118-148 | A message ready or held with k attempts is later than the row's schedule less 1 ms plus 10 * (2^k - 1) s, and than the first publish plus the same, whatever was redelivered |
| Theorems.RetriesWaitExactly | internal/consumer/consumer.go:167-188 | After a failed send the attempts are one more than the body's and 1 to 5; exactly at five the row is recorded as failed, otherwise exactly one retry with a TTL of 5 * 2^attempts s is next |
| Theorems.OneUnsettledPerWorker | internal/consumer/consumer.go:88-91 | No worker ever holds two unsettled deliveries: the broker's prefetch limit, a guard of delivery in the model, is kept by every other step |
| Theorems.LateSendsAreBounded | internal/consumer/consumer.go:135-151 | From a state in which nothing shows the row as scheduled any more, every continuation sends it at most as often as workers were past the status check: at most the number of workers, at most once for a single message |
| Theorems.LateSendsOfOneProcess | internal/consumer/consumer.go:24 | With the five workers of one process that is five at most |
| Theorems.SendsAfterUpdate | internal/consumer/consumer.go:153-162 | From the moment a worker records a terminal status, with repository calls atomic and invalidation successful, at most the workers past the check send again; nobody if the recorded message was the only one |
| Theorems.SendsAfterCancel | internal/service/notification_service.go:102-116 | From the moment a cancel commits, likewise; one send at most if there is a single message |
| Quiet.QuietRun | internal/consumer/consumer.go:135-151 | Sends plus workers past the check never grow from a quiet state on, and it stays quiet |
| LateSends.LateSendIff | internal/consumer/consumer.go:135-151 | For every state that satisfies the invariant and every row that has left status scheduled: some run sends it more often than the workers past the check account for if and only if there is a worker and either a live scheduled entry and a message that arrives before it expires, or a reader of the old value that is yet to fill the cache and a message that exists or can be published |
| Arrival.HeldBackIff | internal/storage/rabbitmq/queue.go:87-105 | A delayed message does not arrive before time e if and only if the latest expiry in its queue up to it is e or later |
| LateBounds.GuardedRun | internal/consumer/consumer.go:135-151 | If no message arrives before a live scheduled entry expires and nobody carries the old value, no run sends at all |
| Horizon.QuietFromExpiryOn | internal/storage/redis/repository.go:36 | Once nobody carries the old value, the row is quiet from the expiry of the cache entry on, 24 hours at most, in every run and whatever invalidations were lost |
| LateSends.QuietNotExceeded | internal/consumer/consumer.go:135-151 | Without a live scheduled entry and such a reader no run sends beyond the workers past the check |
| LateSends.LateSendAfterUpdateIff | internal/storage/redis/repository.go:85-95 | After every terminal write of a worker: such a run exists if and only if a live scheduled entry was there and its invalidation was lost, or a reader of the old value is yet to fill the cache |
| LateSends.LateSendAfterCancelIff | internal/storage/redis/repository.go:99-109 | After every cancel: such a run exists if and only if there is a worker and either a live scheduled entry was there, its invalidation was lost and a message arrives before it expires, or a reader of the old value is yet to fill the cache and a message exists or can be published |
| Witnesses.SomeCancelledIsSent | internal/storage/redis/repository.go:104-108 | A reachable state in which a notification is cancelled, nobody is past the check, and a continuation sends it: its invalidation was lost |
| Witnesses.SomeIsSentBehindReader | internal/storage/redis/repository.go:71-80 | The same without any failure: a reader fetches the row, a cancel completes with its invalidation, the reader fills the cache |
| Overwrites.CanWriteIff | internal/storage/postgres/db/notification.sql.go:134-143 | A row that has left status scheduled is written again in some run if and only if a worker or a cancel is past its check, the cache shows a live scheduled entry, or a reader of it is yet to fill; otherwise every run leaves it as it is |
| Overwrites.FrozenRun | internal/storage/postgres/db/notification.sql.go:14-21 | Where none of these holds, none arises, and value and history of the row stay the same over every run |
| Overwrites.LastWriterWins | internal/storage/postgres/db/notification.sql.go:14-21 | An accepted send and a cancel past its check on one row: either order of the two writes is possible, and the later one overwrites the earlier |
| StatusChanges.CanChangeIff | internal/storage/postgres/db/notification.sql.go:134-143 | The status of a row that has left scheduled changes in some run if and only if a worker past the check or with a result leads to another status, or the row is not cancelled and a cancel is past its check or can get there, or the row is cancelled and can be sent late |
| StatusChanges.StatusAfter | internal/storage/postgres/db/notification.sql.go:134-143 | Each step leaves a row's status, or sets cancelled for a cancel past its check, or sets what a worker's result says |
| Witnesses.SomeStatusIsOverwritten | internal/storage/postgres/db/notification.sql.go:134-143 | A reachable state from which sent becomes cancelled in one order and cancelled becomes sent in the other |
| Theorems.DrainLeavesNothing | internal/consumer/consumer.go:109-195 | From every reachable state waiting and fault-free steps empty the queues within 15 release, deliver and settle steps a message, and then no row is scheduled except those given up or not yet published |
| Drain.DrainBound | internal/consumer/consumer.go:109-195 | Every fault-free run takes at most 15 such steps for each message it starts with |
| Drain.SmoothRun | internal/consumer/consumer.go:125-195 | Every fault-free run spends a stage for each release, delivery and settlement and fuel for every broker or worker step |
| Drain.Progress | internal/storage/rabbitmq/queue.go:83-105 | With all delays over, some fault-free step is possible as long as a message is left |
| Safety.GoodRun | internal/consumer/consumer.go:125-195 | The whole invariant is kept by every run from any state that satisfies it |
| Effects.SendMeans | internal/consumer/consumer.go:147-156 | A send's pending value, stamped with the time of the send or with one more attempt, and its counter; nothing else changes |
| Effects.UpdateMeans | internal/storage/postgres/db/notification.sql.go:134-143 | A worker's write changes status, attempts, sent time and update stamp of the one row, and no other column |
| Effects.CancelWriteMeans | internal/storage/postgres/db/notification.sql.go:14-21 | A cancel's write changes status and update stamp of the one row, and no other column |
| Effects.PublishMeans | internal/storage/rabbitmq/queue.go:112-131 | A first publish puts the stored row at the end of the wait queue with its TTL |
| Effects.ComputeTtlMeans | internal/storage/rabbitmq/queue.go:118-127 | The TTL is the time left to the schedule in whole milliseconds, zero for the past |
| Effects.PublishRetryMeans | internal/storage/rabbitmq/queue.go:134-149 | A retry publish puts the pending value at the end of the retry queue for 5 * 2^attempts s |
| Effects.RedeliveryMeans | internal/consumer/consumer.go:157-161 | A redelivered message has its original body; which counter it raises depends on how far the handling had gone |
| InvariantSteps.StepInv | internal/consumer/consumer.go:125-195 | Every one of the 22 kinds of step keeps the invariant on rows, cache entries, messages and calls |
| InvariantSteps.StaleButTerminal | internal/consumer/consumer.go:136 | A value the row ever held that is not scheduled proves that the row is not scheduled now |
| InvariantSteps.UpdateIsTruthful | internal/storage/postgres/repository.go:145-157 | Whatever a handler is about to write is a terminal status that tells the truth, and the int16 column holds its attempts exactly |
| Accounting.ExactStep | internal/consumer/consumer.go:166-195 | Every step keeps the exact count of sends for an id without duplicates |
| Embedding.HandlerRuns | internal/consumer/consumer.go:125-195 | The handler run without interruption is a protocol run with the same table, cache, settlement and retry copy, and the ledger counts exactly its send by result and its requeue |
| WorkerRuns.LoopRuns | internal/consumer/consumer.go:109-121 | The worker's loop over deliveries that the broker offers one after another is a protocol run with the same table and cache; the messages posted are the retry copies published, in order and with their delays; each delivery is gone if acknowledged and ready again if requeued |
| WorkerRuns.JobRuns | internal/consumer/consumer.go:109-121 | Every delivery offered to a free worker can be worked off, with the handler's effect |
| ServiceRuns.CreateRuns | internal/service/notification_service.go:61-75 | CreateNotification is a protocol run with the same table, cache and first message; success is answered exactly if row and message were confirmed, with the row that was stored and published; the id is recorded as unpublished exactly if a row is stored without a message |
| ServiceRuns.CancelRuns | internal/service/notification_service.go:102-116 | CancelNotification is a protocol run with the same table and cache, and its answer follows from what the run's read returned and whether the run ends in the invalidation of a confirmed write |
| ServiceRuns.GetRuns | internal/service/notification_service.go:81-89 | GetNotificationByID is a protocol run with the same table and cache, and answers what the run's last read returned |
| CacheAside.CachedRefinesPlain | internal/storage/redis/repository.go:42-109 | Any sequence of calls answers exactly as the table alone would, with any cache read and fill failures and evictions, when invalidations reach the cache; every cached entry stays the current row |
| CacheAside.OpRefines | internal/storage/redis/repository.go:42-109 | The same for one call |
| CacheAside.ReadWithTableDown | internal/storage/redis/repository.go:58-74 | With the table down a read answers with the current row or the error, and changes nothing |
| CacheAside.GetMeans | internal/storage/redis/repository.go:58-81 | A live entry wins; else not found exactly if the table answers and has no row, a storage error exactly if it is down, and the row otherwise, cached for 24 hours |
| CacheAside.UpdateMeans | internal/storage/postgres/repository.go:78-95 | The answer, not found and storage error told apart; the four columns written; the entry dropped after a confirmed write |
| CacheAside.DeleteMeans | internal/storage/postgres/repository.go:98-110 | The answer; status and stamp written and no other column; the entry dropped after a confirmed write |
| CacheAside.SaveMeans | internal/storage/postgres/repository.go:40-58 | The answer, all five kinds told apart; the row with its new id, stamps and recipient; the entry for 24 hours |
| CacheAside.UpdateKeepsCoherenceIff | internal/storage/redis/repository.go:85-95 | Exactly when an update leaves every cached entry equal to its row |
| CacheAside.DeleteKeepsCoherenceIff | internal/storage/redis/repository.go:99-109 | Exactly when a cancel's soft delete does |
| CacheAside.LostInvalidationIsVisible | internal/storage/redis/repository.go:104-108 | After a soft delete with a failed invalidation readers see status scheduled until the entry expires |
| Redis.NotificationCache.Get | internal/storage/redis/cache.go:36-56 | A hit only for a live entry, a miss otherwise, an error when Redis is down |
| Redis.NotificationCache.Set | internal/storage/redis/cache.go:59-74 | The entry and its expiry, and the rest of the store untouched |
| Redis.NotificationCache.Delete | internal/storage/redis/cache.go:77-86 | The entry is gone if the delete was applied, the rest untouched |
| Redis.CachedNotificationRepository.constructor | internal/storage/redis/repository.go:27-38 | The decorator uses the given stores and a TTL of 24 hours |
| Redis.CachedNotificationRepository.Save | internal/storage/redis/repository.go:42-53 | Table, cache and answer as the sequential specification says |
| Redis.CachedNotificationRepository.GetByID | internal/storage/redis/repository.go:58-81 | Table, cache and answer as the sequential specification says |
| Redis.CachedNotificationRepository.Update | internal/storage/redis/repository.go:85-95 | Table, cache and answer as the sequential specification says |
| Redis.CachedNotificationRepository.Delete | internal/storage/redis/repository.go:99-109 | Table, cache and answer as the sequential specification says |
| Postgres.NotificationRepository.InsertRow | internal/storage/postgres/db/notification.sql.go:46-61 | The row is inserted unless the key exists, the CHECK constraint fails or the database refuses |
| Postgres.NotificationRepository.Save | internal/storage/postgres/repository.go:40-58 | The domain view of the table and the answer, mapping errors and duplicate ids included |
| Postgres.NotificationRepository.GetByID | internal/storage/postgres/repository.go:61-75 | The mapped row, not found, or a storage error |
| Postgres.NotificationRepository.WriteRow | internal/storage/postgres/db/notification.sql.go:134-143 | One row replaced in the table, the CHECK constraint kept |
| Postgres.NotificationRepository.Update | internal/storage/postgres/repository.go:78-95 | Status, attempts and sent time overwritten whatever the old status |
| Postgres.NotificationRepository.Delete | internal/storage/postgres/repository.go:98-110 | Status overwritten by cancelled whatever the old status |
| Mappers.SaveRoundTrip | internal/storage/postgres/repository.go:115-192 | Insert and read back keeps every field, the schedule to the microsecond, attempts if and only if they fit int16, and yields exactly the recipient of the channel |
| Mappers.SaveIsIdempotent | internal/storage/postgres/repository.go:160-192 | Saving what was read back changes only the generated stamps |
| Mappers.WritesCommuteWithMapping | internal/storage/postgres/repository.go:145-157 | The SQL writes commute with the mapping to the domain and keep the CHECK constraint |
| Mappers.ToCreateParams | internal/storage/postgres/repository.go:115-142 | Accepts exactly the notifications with the recipient of their channel, and what it returns passes the CHECK constraint |
| Mappers.ToInt16 | internal/storage/postgres/repository.go:145-157 | The narrowing is lossless exactly on the int16 range |
| Domain.Draft | internal/service/notification_service.go:42-59 | Succeeds exactly for a valid recipient of a known channel; the result is well-formed, scheduled, with no attempts |
| Delay.BackoffExactIff | internal/consumer/consumer.go:199-203 | The backoff is 5 * 2^a s without overflow exactly for a up to 30 |
| Delay.BackoffDoubles | internal/consumer/consumer.go:199-203 | On that range it at least doubles with every attempt |
| Delay.RetryWaitClosedForm | internal/consumer/consumer.go:199-203 | k retries wait 10 * (2^k - 1) s in all, for every k |
| Delay.ReachableRetryTtl | internal/consumer/consumer.go:167-188 | The TTLs that occur are 10, 20, 40 and 80 s, exact in milliseconds, 150 s at most in all |
| Delay.PublishTtlBounds | internal/storage/rabbitmq/queue.go:118-128 | The first TTL ends less than 1 ms before the schedule and not after it; it is zero for the past |
| DelayQueue.OnTimeIff | internal/storage/rabbitmq/queue.go:87-105 | Never early, and on time if and only if no earlier message expires later |
| DelayQueue.RetryLateness | internal/storage/rabbitmq/queue.go:134-148 | In the retry queue a message is at most 70 s late, for any queue |
| DelayQueue.RetryLatenessIsTight | internal/consumer/consumer.go:181-188 | 70 s is reached |
| DelayQueue.WaitLateness | internal/storage/rabbitmq/queue.go:118-130 | In the wait queue a message due now can be late by any admissible TTL of the one before it |
| DelayQueue.Queue.Publish | internal/storage/rabbitmq/queue.go:123-130 | The message is appended behind all others with its expiry |
| DelayQueue.Queue.Advance | internal/storage/rabbitmq/queue.go:87-95 | By time t exactly the messages whose running maximum expiry is at most t have been released, each at that maximum |
| QueueOrder.LeavesAfterLatest | internal/storage/rabbitmq/queue.go:87-105 | In every run of the protocol a message that has left its delay queue left no earlier than the running maximum expiry of that queue |
| QueueOrder.RetryLateness | internal/storage/rabbitmq/queue.go:134-148 | In every reachable state a retry copy can leave its queue at most 70 s after its own expiry, whatever is in front of it |
| RabbitMq.DeclaresReady | internal/storage/rabbitmq/queue.go:65-109 | The nine declarations build the intended topology |
| RabbitMq.Routing | internal/storage/rabbitmq/queue.go:87-105 | What is published to the wait or retry exchange reaches its delay queue, then only the processing queue, and no message takes a second hop |
| RabbitMq.RabbitMQQueue.SetupTopology | internal/storage/rabbitmq/queue.go:65-109 | Declares the exchanges in a loop, then queues and bindings; stops at the first failure with exactly the prefix declared |
| RabbitMq.RabbitMQQueue.Publish | internal/storage/rabbitmq/queue.go:112-131 | Exactly the wait queue gets the message, with the clamped remaining delay |
| RabbitMq.RabbitMQQueue.PublishRetry | internal/storage/rabbitmq/queue.go:134-149 | Exactly the retry queue gets the message, with the delay in milliseconds |
| Service.NotificationService.CreateNotification | internal/service/notification_service.go:37-76 | Stores, queues and answer as the specification says, error paths included |
| Service.NotificationService.GetNotificationByID | internal/service/notification_service.go:81-89 | The repository's answer and effect |
| Service.NotificationService.UpdateNotification | internal/service/notification_service.go:93-99 | The repository's answer and effect |
| Service.NotificationService.CancelNotification | internal/service/notification_service.go:102-116 | Check, then soft delete; stores and answer as the specification says |
| Service.CreateSucceeds | internal/service/notification_service.go:42-75 | A successful create adds one scheduled row under the database's id with the request's subject, message, channel, author, recipient and schedule, and its message at the end of the wait queue, and nothing else |
| Service.CreateAnswers | internal/service/notification_service.go:42-72 | Exactly when a create answers which error, and that an invalid request changes nothing |
| Service.CancelMeans | internal/service/notification_service.go:102-116 | The answer of a cancel for every read result and write outcome, and that it changes status and stamp only |
| Service.CreateOrphansIff | internal/service/notification_service.go:61-72 | Exactly when a create fails and yet leaves a row that no message was confirmed for |
| Consumer.Consumer.HandleMessage | internal/consumer/consumer.go:125-163 | Stores, queues, the one settlement and the send result as the specification says |
| Consumer.Consumer.HandleSendError | internal/consumer/consumer.go:166-195 | The same for the path after a failed send |
| Consumer.Consumer.RunWorker | internal/consumer/consumer.go:109-121 | The loop's effect on stores, queues and settlements is HandleAll over the deliveries |
| Consumer.HandledInTurn | internal/consumer/consumer.go:109-121 | That is: the i-th delivery is handled by the handler on the state the first i left, and settled with its own tag as the handler settles it |
| Consumer.DeliveredMeans | internal/consumer/consumer.go:153-162 | After a successful send: status sent, the attempts, the time of the send and the stamp are written, nothing is published, and the delivery is acknowledged exactly if the write was confirmed |
| Consumer.RetriedMeans | internal/consumer/consumer.go:181-194 | After a failed send with attempts left: the row stays, the message with one more attempt goes to the retry queue for 5 * 2^attempts s, and the delivery is acknowledged exactly if that was confirmed |
| Consumer.FailedMeans | internal/consumer/consumer.go:169-179 | After the fifth failed send: status failed and attempts are written, nothing is published, and the delivery is acknowledged exactly if the write was confirmed |
| Consumer.SkippedMeans | internal/consumer/consumer.go:127-144 | Without a send table and queues stay as they are; dropped if undecodable, acknowledged otherwise |
| Consumer.SettledOnce | internal/consumer/consumer.go:125-195 | Over a whole worker run every delivery is settled exactly once, in delivery order |
| Consumer.SettlementMeans | internal/consumer/consumer.go:125-195 | Exactly when a delivery is dropped, exactly when it is requeued, and exactly when a send happens |
| Consumer.AcknowledgedUnsentIff | internal/consumer/consumer.go:135-143 | A scheduled notification that the cache, if it has it, shows as it is, is acknowledged without a send if and only if the table is down and the cache has no live entry |
| Notifiers.NewDispatcher | internal/notifiers/dispathcer.go:20-52 | Fails exactly for a bad bot token in production; otherwise both channels are served, by the real notifier exactly when it is configured |
| Notifiers.Dispatcher.Send | internal/notifiers/dispathcer.go:56-64 | Delegates to the notifier of the channel, or reports that there is none |
| Notifiers.OnlyTransportFails | internal/notifiers/email_notifier.go:30-49 | A well-formed notification never meets a guard; it is accepted exactly if the transport succeeds or there is only the log, and a transport error is reported exactly otherwise |
| Notifiers.DispatchFails | internal/notifiers/dispathcer.go:56-64 | For any table and notification: exactly when there is no notifier, and exactly when a guard refuses |
| Atomic.StatusMachine | internal/service/notification_service.go:102-116 | With indivisible acts and working invalidation the only transitions are scheduled to sent, failed or cancelled, by the act that may make them, and a terminal row never changes |
| Atomic.DeliversOnlyScheduled | internal/consumer/consumer.go:135-162 | Only a scheduled row is sent, and it stays scheduled exactly when recording the send failed |
| Atomic.ActsTakeEffect | internal/service/notification_service.go:102-116 | A confirmed cancel of a scheduled row cancels it, and a confirmed create adds its scheduled row |
| Atomic.SentAtMostOnce | internal/consumer/consumer.go:146-162 | Over any sequence of acts successful sends of an id are at most one plus the unrecorded ones, and none once it is terminal |

## Left out

- The HTTP layer, DTOs and status codes: request plumbing without state of its own.
- Start-up wiring, configuration files, logging and graceful shutdown; a worker that stops is a crash in the model.
- The inside of the SMTP, Telegram, Redis, Postgres and AMQP clients: each call is an outcome chosen freely.
- JSON bytes; a message that cannot be decoded exists only as the drop branch of the handler.
- Partitions and indexes of the table; the `updated_at` trigger is the time of the write.
- Liveness of infinite runs under fairness: draining is proved for fault-free finite runs instead.
- What Go's conversion from floating point to int64 yields beyond attempt 60, where it is out of range: no exact result exists there, and no run gets past attempt 4.
- The order of the ready queue: any ready message may be delivered next, which allows more runs than the broker does.
- Delivery errors of acknowledgements: an acknowledgement that is lost is a crash before it.
- Theorems.SendsAfterUpdate: a reader between its primary read and its cache fill at that moment is outside it, because such a reader brings the old value back; `LateSends.LateSendAfterUpdateIff` has the exact condition, without hypotheses.
- Theorems.SendsAfterCancel: the same; `LateSends.LateSendAfterCancelIff` has the exact condition, without hypotheses.
