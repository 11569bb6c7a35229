# Verified model of the marketplace back end

A Dafny model of the parts of the marketplace where state is shared, transactions interleave, and processes crash or
time out. Each protocol is a state machine whose actions are the program's own statements: a row lock taken, a row
inserted, a message sent, a COMMIT. Theorems speak of every reachable state or every run, over any number of clients;
a crash or an error may strike between any two statements. Beside the machines stand the imperative parts - loops over
rows, buffers, sorted sets, retries - as classes whose methods are proved against the same specifications.

| file | protocol |
|---|---|
| `Orders.dfy`, `OrderContents.dfy`, `OrdersService.dfy` | idempotent order creation, statement by statement; what its orders say; the service class |
| `Pipeline.dfy`, `PipelineInvariant.dfy`, `PipelineTheorems.dfy` | create, outbox relay, broker with dead-letter queue, and inbox consumer as one machine; its invariant; exactly-once, nothing lost, nothing invented, publish accounting |
| `LosingRun.dfy` | how an order is lost while the queue is not yet bound |
| `Drain.dfy`, `Batches.dfy` | failure-free continuations are bounded and end with the pipeline drained; how many batches that takes |
| `MessageContents.dfy` | what the messages in the broker say, and which of them can have an effect |
| `Relay.dfy`, `Consumer.dfy`, `ConsumerRun.dfy` | the relay loop and the consumer callback as methods, and as runs of the pipeline |
| `RateLimiter.dfy` | the sliding-window script under clock skew |
| `Cache.dfy`, `CacheClient.dfy` | single-flight cache-aside against a millisecond clock |
| `Auth.dfy`, `AuthTransactions.dfy`, `AuthInvariant.dfy`, `AuthTheorems.dfy`, `AuthSnapshots.dfy`, `AuthMissedSuccessor.dfy`, `AuthLaws.dfy` | refresh-token families, logout, denylist: the operations, their interleaved transactions, and what they promise |
| `Checkout.dfy`, `CheckoutTheorems.dfy`, `CheckoutLaws.dfy`, `CheckoutService.dfy` | two-row checkout |
| `Workers.dfy`, `Retry.dfy` | the SKIP LOCKED pool; serialisable increments with retry |
| `OrderEvents.dfy`, `JsNumbers.dfy`, `Doubles.dfy` | the status-event buffer and the reconnecting stream; what JavaScript's Number makes of its header, rounding included |
| `Messages.dfy`, `Base.dfy` | the order.placed message; finite sums and decimal numerals |

`dafny verify dfyconfig.toml` checks everything.

## Reading the machines

SQL, Lua and AMQP calls are atomic actions with the semantics the code relies on. A transaction's writes are private
until it commits and its row locks make others wait (their action is then not enabled) or, with SKIP LOCKED, pass by.
`Valid(s, acts)` says that a list of actions can happen from `s`, `Run` is where it leads, `Reachable` quantifies over
all runs from empty tables. Some fields are history: they record what happened (replies given, effects in order, rolled
back sends, ids drawn) and no action depends on them, except that fresh ids avoid those drawn before.

Where a promise does not hold as first stated, the model keeps the code as it is, shows an input that breaks the promise,
and proves exactly when it holds:

- *An order's total equals the sum over its items.* Prices are read twice, once for the total and once for the items.
  `RepriceBetweenReadsSplitsTheTotal` stores an order of total 200 whose items sum to 400; `TotalsMatchWhenQuiet` and
  `TotalMatchesIffPricesHeld` say when the two agree.
- *A confirmed message is in a queue.* Between the declaration of the exchange and the last binding the broker confirms
  and drops (before the declaration it refuses, and nothing is confirmed). `ConfirmedAndLost` is a run that loses an
  order, `UnboundBatchLoses` says that every batch in that window does. `SafeIff` is the exact condition in every
  reachable state, `SafeForeverIffSecure` the exact condition for every continuation once the queue is bound, and
  `NothingLost` covers every order committed from then on.
- *Logout revokes the family.* The family UPDATE works on the rows of its own snapshot. It reaches the whole family
  exactly when no rotation commits between that snapshot and its own commit (`RevocationKillsIffNoRotationSince`).
  Presenting the newest token rules such a rotation out (`LogoutIsSerial`); presenting a used one never does, as long as
  the newest is active (`UsedTokenLogoutCanMissSuccessor`, and `LogoutWithUsedTokenCanMissSuccessor` for one run).
- *A logged-out access token is refused at every later instant.* The guard verifies by one clock reading and looks the
  denylist up by a later one. `LoggedOutAccessStaysOut`: it gets past the guard exactly when the two readings straddle
  its expiry; `NoGap`: never when they fall into the same millisecond.
- *Single flight.* It needs the winner to keep the lock and store in less than 5000 ms, and nothing of the others
  (`SingleFlight`); a slower winner costs a second load (`SlowWinnerLoadsTwice`), and at exactly 5000 ms a waiter may
  already fall back (`WaiterFallsBackAsTheLockRunsOut`).
- *The stream replays what a client missed.* Seamless exactly up to a hundred missed events (`SeamlessIffGapFits`).
- *A publish closes its connection.* Not when the channel could not be opened, or was closed by the other side, as the
  broker does when the exchange is missing: closing the channel then throws, and the connection stays open (`LeavesOpen`
  in the contract of `PublishOrderPlaced`).
- *A checkout is announced.* Its publish comes after the commit, so only "published implies committed" holds
  (`PublishedImpliesCommitted`, `CommitCanGoUnannounced`).

The repository's documentation says a reused idempotency key with a different body is answered 422
(openapi/openapi.yaml:139-140); the code replays the stored order, and so does the model.

## Model

| member | source | states |
|---|---|---|
| `Messages.EventIdInjective` | src/orders/orders.service.ts:224-225 | different orders have different event ids, so the id can serve as the deduplication key |
| `Messages.OutboxPayloadIsAccepted` | src/outbox/order-placed-event.ts:29-46 | what create writes, the consumer accepts, for a positive order id and a time |
| `Orders.InvStep` | src/orders/orders.service.ts:78-257 | every statement of every interleaved create keeps the invariant over open transactions, keys, orders, outbox and replies |
| `Orders.KeyCommitsOneOrder` | src/orders/orders.service.ts:81-94 | however requests race, a key commits at most one order |
| `Orders.ReplayFindsTheOrder` | src/orders/orders.service.ts:96-121 | the replay path statement by statement: the key has its order, so neither the error for a key without a completed order nor the 404 is ever taken, and the answer is the stored order |
| `Orders.CommittedKeysAreComplete` | src/orders/orders.service.ts:234-243 | a committed key row is never null and names an order of that key |
| `Orders.RepliesAgree` | src/orders/orders.service.ts:113-120 | all responses ever given for one key carry the same id, items and total, whatever body the request had |
| `Orders.OneOutboxRowPerOrder` | src/orders/orders.service.ts:224-243 | every committed order has exactly one outbox row with its event id, and that row's message carries the order's id, buyer, total, and for each of its rows the product and the quantity |
| `OrderContents.OrdersWereRequested` | src/orders/orders.service.ts:64-222 | over any run, behind each stored order stands a request with its key whose items are the order's rows one for one; the order is made out to the buyer, is not empty, and its key is at most 200 characters and not blank |
| `OrderContents.ItemSumIsPlain` | src/orders/orders.service.ts:138-172 | the sum that totals are compared with is price times quantity added up over the rows |
| `OrderContents.NeverActiveNeverOrdered` | src/orders/orders.service.ts:150-170 | a product that is never active over a run is in no order |
| `OrderContents.RemovedIsNotSold` | src/orders/orders.service.ts:150-207 | a removed product can be neither quoted nor inserted |
| `OrderContents.ReplaysOfAKeyTakeTurns` | src/orders/orders.service.ts:96-120 | of the replays of one key at most one has gone past the key row it locks |
| `OrderContents.GivenUpReplayFreesItsKey` | src/orders/orders.service.ts:96-120 | and if that one fails, it answers nothing and the next can lock the row |
| `Orders.RowAnnouncesItsOrder` | src/outbox/outbox.repository.ts:5-28 | no outbox row without its committed order |
| `Orders.OutboxInsertNeverConflicts` | src/migrations/1790766000000-AddTransactionalOutbox.ts:8-19 | the UNIQUE constraint on event_id never fires, among committed and open transactions alike |
| `Orders.TotalsMatchWhenQuiet` | src/orders/orders.service.ts:138-222 | an order's total is the sum over its items if, between its two reads by the request that committed the order, no product of it was given another price; what happens to other products, other requests and aborted attempts does not matter |
| `Orders.TotalMatchesIffPricesHeld` | src/orders/orders.service.ts:138-222 | when no price rose between the reads, or none fell - always so for one item -, total and items agree exactly if no price moved |
| `Orders.RepriceBetweenReadsSplitsTheTotal` | src/orders/orders.service.ts:150-220 | a concrete run with one reprice between the two reads: total 200, items 400 |
| `OrdersServices.CreateRun` | src/orders/orders.service.ts:64-250 | an undisturbed create is a run of the statement-level machine and leaves exactly the order, key and outbox row of the request |
| `OrdersServices.ReplayRun` | src/orders/orders.service.ts:81-121 | an undisturbed replay is a run of its statements that adds the stored order as one response and changes nothing else |
| `OrdersServices.OrdersService.TotalAmount` | src/orders/orders.service.ts:138-170 | the totals loop computes the sum of price x quantity, or stops at the first item that cannot be sold, with the error of that item |
| `OrdersServices.OrdersService.InsertItems` | src/orders/orders.service.ts:191-222 | the insert loop writes one row per item, in order, at the price read then |
| `OrdersServices.OrdersService.Create` | src/orders/orders.service.ts:64-257 | a request is answered exactly if it has items, a usable key, and either the key is stored or there is a buyer, every item is positive and on sale, and the total fits its column; a refusal changes nothing and names its reason; a new order leaves exactly its rows, and the call is a run of the machine |
| `OrdersServices.OrdersService.UpdateStatus` | src/orders/orders.service.ts:297-321 | only a known order's status changes, and the invariant survives |
| `PipelineInvariant.InvStep` | src/outbox/outbox-relay.ts:46-107 | one inductive invariant over orders, outbox, relays, broker and consumers, kept by every statement and every crash |
| `PipelineTheorems.ExactlyOnceEffect` | src/rabbitmq/order-placed.consumer.ts:34-80 | each event's effect is inserted at most once, and is there exactly when its processed_messages marker is committed |
| `PipelineTheorems.MarkerHolderFindsNoEffect` | src/rabbitmq/order-placed.consumer.ts:35-69 | a handler that won the marker never meets an existing effect: the second ON CONFLICT is never needed |
| `PipelineTheorems.AckedMeansApplied` | src/rabbitmq/order-placed.consumer.ts:131-150 | an acknowledged message has its effect in place |
| `MessageContents.CopiesTellTheOrder` | src/outbox/order-placed-event.ts:29-46 | every copy the relay has put into the broker carries its order's id, event id, buyer, total, and for each row the product and the quantity |
| `MessageContents.RejectedIffFaulty` | src/rabbitmq/order-placed.consumer.ts:82-97 | a delivery is turned away exactly when it is no JSON, or lacks its event id, its type, its time or its order id |
| `MessageContents.AckedIsWellFormed` | src/rabbitmq/order-placed.consumer.ts:82-97 | in every reachable state an acknowledged message lacks none of these |
| `MessageContents.EffectsAreWellFounded` | src/rabbitmq/order-placed.consumer.ts:56-67 | in every reachable state each effect was written for a well-formed message with that event id and that order id, whoever published it |
| `MessageContents.CrashedDeliveryComesBack` | src/rabbitmq/order-placed.consumer.ts:122-151 | a consumer that dies leaves the tables as they are and its delivery can be queued again |
| `PipelineTheorems.NothingInvented` | src/outbox/outbox-relay.ts:66-98 | when only the relay publishes, every effect names a committed order under that order's own event id |
| `PipelineTheorems.SafeIff` | src/outbox/outbox-relay.ts:46-106 | in every reachable state, whatever the topology: an order's event can still be found exactly when its row is unpublished, or a queue took a copy, or its effect is applied |
| `PipelineTheorems.NothingLost` | src/outbox/outbox-relay.ts:46-106 | from any reachable state with the queue bound: every order committed later, and every one secure then, is safe in every later state, whatever crashes |
| `PipelineTheorems.SafeForeverIffSecure` | src/outbox/outbox-relay.ts:66-98 | once the queue is bound, an order can be lost by some continuation exactly when no queue has taken a copy, no effect is there, and its row is published or sent by the batch now open |
| `PipelineTheorems.UnboundQueueLosesPublishedEvents` | src/rabbitmq/topology.ts:16-52 | until the last binding an order is safe exactly while its row is unpublished |
| `PipelineTheorems.NothingPublishedBeforeTheExchange` | src/rabbitmq/topology.ts:16-18 | before the exchange is declared no row is published and the broker has nothing |
| `PipelineTheorems.MarkedMeansAccepted` | src/rabbitmq/order-placed.publisher.ts:5-35 | publishing returns only after the confirm: a row that is published, or that an open batch has got past, has a copy in the broker, with that row's payload |
| `LosingRun.UnboundBatchLoses` | src/rabbitmq/order-placed.publisher.ts:12-30 | from any reachable state between declaration and binding, an undisturbed batch loses every order whose row it takes, and binding the queue afterwards does not help |
| `LosingRun.ConfirmedAndLost` | src/rabbitmq/topology.ts:16-52 | a concrete run: order committed, event confirmed, row marked, queue bound, event nowhere |
| `PipelineTheorems.RelaysHoldDisjointRows` | src/outbox/outbox-relay.ts:55-62 | concurrent relays hold disjoint, unpublished rows |
| `PipelineTheorems.PublishAccounting` | src/outbox/outbox-relay.ts:66-103 | copies sent of a row = rolled-back batches that had sent it + the open one that has + 1 if it is published; attempts is 1 exactly for published rows |
| `Drain.SmoothStepLowers` | src/outbox/outbox-relay.ts:66-98 | every failure-free relay or consumer step lowers the measure of outstanding rows and copies |
| `Drain.SmoothStepExists` | src/rabbitmq/order-placed.consumer.ts:122-151 | while a row is unpublished or a copy queued or in flight, some failure-free step is possible |
| `Drain.EveryFailureFreeRunDrains` | src/outbox/outbox-relay.ts:26-107 | from any reachable state with the exchange declared, a failure-free run is no longer than the measure, and one that cannot go on has published every row and settled every order, unless the copies of its row were all dropped for want of a queue |
| `Drain.SecureOrdersSettle` | src/outbox/outbox-relay.ts:26-107 | that last case is only for orders that were not secure at the start |
| `Batches.BatchTakes` | src/outbox/outbox-relay.ts:47-62 | a claim takes as many rows as the limit allows and as are unlocked and unpublished, whatever other relays hold |
| `Batches.BatchesToClear` | src/outbox/outbox-relay.ts:47-100 | from any state with other relays' locks in place, ceil(U / batchSize) batches clear U unlocked unpublished rows, and no fewer |
| `Batches.BatchesAreARun` | src/outbox/outbox-relay.ts:46-100 | batch after batch is a run of the pipeline |
| `Batches.BatchesCanFollow` | src/outbox/outbox-relay.ts:46-100 | from any state with the exchange declared, whatever other relays hold, any number of undisturbed batches can follow one another |
| `Batches.OutboxCanBeCleared` | src/outbox/outbox-relay.ts:26-107 | so some run of undisturbed batches leaves no unlocked unpublished row |
| `Relay.SelectionIsBatch` | src/outbox/outbox-relay.ts:47-62 | what the loop selects under SKIP LOCKED is what the machine's claim may take |
| `Relay.SelectionByFields` | src/outbox/outbox-relay.ts:47-62 | it is of unpublished rows nobody else holds, by created_at and then id, with none left out that would come before the last |
| `Relay.BatchRun` | src/outbox/outbox-relay.ts:46-100 | an undisturbed batch is a run of the pipeline that marks exactly its rows and hands exactly their payloads to the broker, in order |
| `Relay.OutboxRelay.SelectBatch` | src/outbox/outbox-relay.ts:47-62 | the first unpublished rows that no other relay holds, in (created_at, id) order, up to the limit |
| `Relay.OutboxRelay.PublishOrderPlaced` | src/rabbitmq/order-placed.publisher.ts:5-35 | returns exactly when the exchange exists and nothing failed; what the broker has then, and whether the connection was closed |
| `Relay.OutboxRelay.RelayOutboxBatch` | src/outbox/outbox-relay.ts:26-107 | all rows marked and all payloads sent, or the table untouched with the broker keeping exactly the prefix that reached it; when each happens, for faults before and after the broker took a message, and for an exchange not yet declared; one connection is left open exactly when the publish that failed had lost its channel or got none while its connection held |
| `Consumer.EffectsAreTheAcceptedIds` | src/rabbitmq/order-placed.consumer.ts:22-80 | redelivery in any number and order: one effect for each event id among the well-formed deliveries, counted once, and no other |
| `Consumer.OrderConsumer.ProcessOrderPlacedEvent` | src/rabbitmq/order-placed.consumer.ts:22-80 | applied for a new id, skipped for a known one; marker and effect together |
| `Consumer.OrderConsumer.OnDelivery` | src/rabbitmq/order-placed.consumer.ts:122-151 | a message without event id, type, time or order id is dead-lettered and leaves the tables alone; any other leaves its marker, its effect if it is the first, and the counters accordingly, and is acknowledged unless the hook fails |
| `ConsumerRun.CallbackIsARun` | src/rabbitmq/order-placed.consumer.ts:122-151 | an undisturbed callback is a run of the pipeline with that effect, and its message ends acknowledged or in the dead-letter queue |
| `RateLimiter.WindowBound` | src/redis/rate-limit.ts:5-71 | with clocks at most e from the server's, any stretch of window - 2e ms of caller time holds at most `limit` admissions, over the whole run and across key expiry |
| `RateLimiter.ExactWindowBound` | src/redis/rate-limit.ts:5-71 | without skew: at most `limit` in any 5000 ms |
| `RateLimiter.WindowBoundIsTight` | src/redis/rate-limit.ts:12-31 | one millisecond more and the bound fails, for every e |
| `RateLimiter.RefinesNaiveLog` | src/redis/rate-limit.ts:12-70 | for callers whose clocks never go back and never fall behind the server's over any stretch (one clock is such), decisions and counts are those of a log that never forgets, restricted to the window |
| `RateLimiter.NeverOverLimit` | src/redis/rate-limit.ts:19-58 | the set never holds more than the shared limit |
| `RateLimiter.RetryAfterIsEnough` | src/redis/rate-limit.ts:22-51 | a rejected caller that waits as told, with no admission between, is admitted - exactly when the limit is at least 1; under any skew |
| `RateLimiter.RetryAfterIsPositive` | src/redis/rate-limit.ts:22-51 | a rejected caller is told to wait at least a second, an admitted one not at all |
| `RateLimiter.RetryAfterIsLeast` | src/redis/rate-limit.ts:34-43 | with such clocks, one second less and it is rejected again, unless told the minimum of one second |
| `RateLimiter.SortedSet.ZRemRangeByScore` | src/redis/rate-limit.ts:12-17 | the in-place loop removes exactly the members out of the window |
| `RateLimiter.SortedSet.Check` | src/redis/rate-limit.ts:97-117 | the script run in place is the specification's step, key expiry included |
| `RateLimiter.SortedSet.Reset` | src/redis/rate-limit.ts:119-121 | the key is gone |
| `Cache.TtlRange` | src/redis/cache.ts:38-43 | every whole number of seconds from 300 to 360 can be drawn, and no other |
| `Cache.AnswersComeFromTheSource` | src/redis/cache.ts:72-123 | under every interleaving, expiry, eviction, dropped store, failed load and dead holder, a call returns what the source held at some moment, and what came from the cache was stored at most 360 s before |
| `Cache.RefinesDirectLoading` | src/redis/cache.ts:72-123 | with an unchanging source a call returns what the loader would |
| `Cache.WorkIsBounded` | src/redis/cache.ts:88-122 | at most one load and 201 cache reads per call, no fallback before a whole lock lifetime has been waited, and one attempt to store exactly when the call returns what it has loaded itself |
| `Cache.LockStandsUntilReleased` | src/redis/cache.ts:10-16 | a lock stands until its owner releases it, Redis evicts it or 5000 ms are over, whatever the others do, their own releases included |
| `Cache.AnsweredLeavesNoLock` | src/redis/cache.ts:88-122 | a call that has returned, or has never taken the lock, holds no live lock |
| `Cache.TheDeadTakeNoStep` | src/redis/cache.ts:86-118 | a process that dies leaves cache and lock as they are |
| `Cache.StoredIsServed` | src/redis/cache.ts:56-80 | once a value is stored, whoever calls within the lifetime drawn is answered with it at once, unless it is overwritten or evicted |
| `Cache.SingleFlight` | src/redis/cache.ts:82-123 | from any moment at which the entry is gone and every earlier caller is answered or has failed: if the winner of the lock neither fails nor loses it before it has stored, and stores a value in less than 5000 ms, the loader runs at most once until the entry is evicted or expires, nobody falls back, and all later callers who return got the one stored value - even if any others throw or die at any time, or the winner after its store |
| `Cache.LaterWinnersHit` | src/redis/cache.ts:88-94 | in the same runs, whoever takes the lock after the load hits on the second check |
| `Cache.SlowWinnerLoadsTwice` | src/redis/cache.ts:86-100 | a winner still loading when its lock has expired lets a second load happen |
| `Cache.WaiterFallsBackAsTheLockRunsOut` | src/redis/cache.ts:106-118 | 200 naps of 25 ms are the lock's lifetime to the millisecond: the waiter falls back while the lock still stands |
| `CacheClients.CacheClient.SetCachedJson` | src/redis/cache.ts:56-70 | the entry holds the value and expires with the lifetime drawn; a refused store changes nothing |
| `CacheClients.CacheClient.LoadUnderLock` | src/redis/cache.ts:88-104 | the lock is given up whether the loader succeeded or threw; a hit on the second check neither loads nor stores, a load is stored |
| `CacheClients.CacheClient.LoadAndStore` | src/redis/cache.ts:96-100 | the load and the store, once each, or the loader's error and no store |
| `CacheClients.CacheClient.WaitForTheWinner` | src/redis/cache.ts:106-122 | up to 200 looks 25 ms apart, then a load and a store without the lock |
| `CacheClients.CacheClient.GetOrLoadCached` | src/redis/cache.ts:72-123 | with any steps of others between any two statements the call is a run of the machine that ends in the object's state with the reply returned; it has stored what it returns exactly if it has loaded it; the bounds and the freshness above, and the lock never left behind |
| `Auth.OneMoreThanUsed` | src/auth/auth.service.ts:160-201 | a family has exactly one token more than it has used ones |
| `Auth.OperationsStayChained` | src/auth/auth.service.ts:97-308 | refresh and logout keep one user and one unused token per family |
| `Auth.ReuseRevokesFamily` | src/auth/auth.service.ts:136-158 | a refresh revokes the whole family exactly when the row presented is used, not revoked and not expired |
| `Auth.LogoutRevokesFamily` | src/auth/auth.service.ts:258-296 | a serialised logout revokes the whole family and denies the access token unless it has expired |
| `AuthLaws.RefreshAnswers` | src/auth/auth.service.ts:128-158 | which answer a refresh gives, by whether the row is there, used, revoked and expired; only a rotation and a reuse change the tables |
| `AuthLaws.RotationByFields` | src/auth/auth.service.ts:160-208 | a rotation marks the row, adds a thirty-day successor of the same family and user, and issues a ten-minute access token for them; nothing else changes |
| `AuthLaws.ReuseByFields` | src/auth/auth.service.ts:140-157 | a reuse revokes each unrevoked row of the family and changes nothing else |
| `AuthLaws.LogoutByFields` | src/auth/auth.service.ts:220-308 | which answer a logout gives; it revokes the family and denies the access token up to its expiry, or changes nothing |
| `AuthLaws.LockByFields` | src/auth/auth.service.ts:108-158 | interleaved: what a refresh is told when it has its row depends on that row's marks and expiry and the clock |
| `AuthLaws.CommittedRotation` | src/auth/auth.service.ts:128-208 | interleaved: a rotation that commits was of an unused, unrevoked and unexpired row, and leaves exactly the rows and the access token above |
| `AuthLaws.OnlyCommitsTakeEffect` | src/auth/auth.service.ts:203-218 | success and reuse are reported by commits only, and nothing else touches tables or issues tokens |
| `AuthLaws.ExpiredFamilyIsIssuedNothing` | src/auth/auth.service.ts:134-138 | over any run: once all tokens of a family have expired and no rotation of it is under way, it gets no successor and no access token any more |
| `Auth.RevokedAdmittedIffStraddling` | src/auth/access-denylist.ts:9-26 | a denied token gets past the guard exactly when verification falls before its expiry and the lookup at or after it: seconds, milliseconds and microseconds together leave no other gap |
| `Auth.NoGap` | src/auth/auth.guard.ts:31-41 | never when both checks fall into one millisecond, or the database's clock is not ahead |
| `Auth.AuthService.LoginWith` | src/auth/auth.service.ts:60-95 | a pair is issued exactly to who knows the password of an account that has one |
| `Auth.AuthService.RevokeAll` | src/auth/auth.service.ts:141-151 | the family UPDATE with COALESCE: earlier revocation times stay |
| `Auth.AuthService.RefreshWith` | src/auth/auth.service.ts:97-218 | the in-place refresh is the specified one; its answer by the row's marks and expiry |
| `Auth.AuthService.LogoutWith` | src/auth/auth.service.ts:220-308 | the operation the machine's logouts are proved to be |
| `Auth.AuthService.CanActivate` | src/auth/auth.guard.ts:20-46 | admits exactly a Bearer token that decodes, has not expired and is not denied; the reasons of the other answers |
| `AuthInvariant.InvStep` | src/auth/auth.service.ts:97-308 | every statement of interleaved refreshes, logouts and logins keeps the invariant over rows, locks and snapshots |
| `AuthInvariant.NoNewRowBehindShield` | src/auth/auth.service.ts:119-151 | while a reuse, or a logout holding the newest token, works on a family, no rotation of it is in flight |
| `AuthTheorems.RotationIsSerial` | src/auth/auth.service.ts:160-208 | committing a rotation is a refresh at one instant |
| `AuthTheorems.ReuseIsSerial` | src/auth/auth.service.ts:140-157 | so is committing a reuse |
| `AuthTheorems.LogoutIsSerial` | src/auth/auth.service.ts:238-298 | so is a logout, when the token it presented was unused as its row was locked |
| `AuthTheorems.RotationChain` | src/auth/auth.service.ts:160-201 | in every reachable state: one user per family, one token more than used ones, at most one unused token |
| `AuthTheorems.MarksAreFinal` | src/auth/auth.service.ts:141-167 | used_at and revoked_at never change once set, and no row changes family or user, over any run |
| `AuthSnapshots.RevocationKillsIffNoRotationSince` | src/auth/auth.service.ts:265-298 | over any run between a revocation's snapshot and its commit: the commit revokes the whole family exactly when no rotation of the family committed in between |
| `AuthTheorems.RevokedForGood` | src/auth/auth.service.ts:134-138 | a revoked family stays revoked in every later state and no access token is ever issued for it again |
| `AuthTheorems.ReuseAndLogoutAreFinal` | src/auth/auth.service.ts:140-158 | after a committed reuse, or logout with the newest token, that holds for the family for good |
| `AuthTheorems.AccessDiesWithinTtl` | src/auth/auth.config.ts:62-69 | 600 s after a family is revoked no access token ever issued for it verifies |
| `AuthTheorems.LoggedOutAccessStaysOut` | src/auth/auth.service.ts:277-298 | the presented access token is refused at every later time in every later state, unless the guard's checks straddle its expiry |
| `AuthMissedSuccessor.UsedTokenLogoutCanMissSuccessor` | src/auth/auth.service.ts:239-275 | from any reachable state in which a logout is about to present a used token and a refresh the active newest one, some continuation commits the logout and leaves an active, unused token in the family |
| `AuthMissedSuccessor.LogoutWithUsedTokenCanMissSuccessor` | src/auth/auth.service.ts:239-275 | one such run, from empty tables |
| `AuthMissedSuccessor.UninterruptedRotation` | src/auth/auth.service.ts:104-201 | an undisturbed rotation is a run of the machine, with its exact result |
| `Checkout.InvStep` | src/checkout.ts:46-137 | every statement of interleaved checkouts keeps the invariant: rows held are the committed ones less the holder's own purchase |
| `Checkout.CommitIsAtomicCheckout` | src/checkout.ts:157-185 | committing is an indivisible checkout on the tables as they are at that moment |
| `CheckoutTheorems.SerialEquivalence` | src/checkout.ts:46-137 | whatever the interleaving, the tables are those left by buying one after another in commit order |
| `CheckoutTheorems.RefusalIsAtomicToo` | src/checkout.ts:62-86 | a refused checkout is refused for the reason, and at a moment, an indivisible one would have been |
| `CheckoutTheorems.ConservationAtEveryStatement` | src/checkout.ts:50-86 | after every statement: initial stock = newest row + held by open checkouts + taken by committed items, likewise money, and nothing negative |
| `CheckoutTheorems.AbortLeavesNoTrace` | src/checkout.ts:173-178 | a checkout that does not commit can be struck out of the run without changing tables, messages or anyone else's outcome |
| `CheckoutTheorems.NoWaitCycle` | src/checkout.ts:50-80 | the wait-for relation has no cycle and no chain of more than three |
| `CheckoutTheorems.SomeCheckoutCanStep` | src/checkout.ts:50-80 | while any checkout is unfinished, one can take its next statement without anything failing |
| `CheckoutTheorems.RunsAreBounded` | src/checkout.ts:157-185 | n checkouts take at most 8n statements |
| `CheckoutTheorems.EveryCheckoutFinishes` | src/checkout.ts:157-185 | a run that cannot be continued has finished every checkout |
| `CheckoutTheorems.PublishedImpliesCommitted` | src/checkout.ts:139-155 | a published event announces a committed order, item by item |
| `CheckoutLaws.CheckoutAnswers` | src/checkout.ts:46-161 | which answer a checkout gives, by quantity, stock, price and balance |
| `CheckoutLaws.EveryCommitBuys` | src/checkout.ts:46-136 | every commit of every run lowers the stock by the quantity asked for and the balance by that times the price of the moment, and adds one order, item and task that say so |
| `CheckoutLaws.EveryEventTellsTheOrder` | src/checkout.ts:139-185 | every event published in any run names the order, its buyer, product, quantity and total; the caller hears of it only if it was confirmed |
| `CheckoutTheorems.SoloRun` | src/checkout.ts:46-137 | an undisturbed checkout is a run of its statements with the indivisible checkout's effect |
| `CheckoutTheorems.CommitCanGoUnannounced` | src/checkout.ts:172-182 | a process that dies after its commit leaves an order no event announces |
| `CheckoutServices.CheckoutService.ExecuteCheckout` | src/checkout.ts:46-137 | the in-place updates; an error may leave the product's row decremented |
| `CheckoutServices.CheckoutService.Checkout` | src/checkout.ts:157-185 | all or nothing, and an event exactly when all; a success lowers stock and balance by the quantity asked for and its price, and the item and the event say so |
| `Workers.ProcessedExactlyOnce` | src/demo-workers.ts:35-66 | no task is held by two workers, and each is (pending, 0) or (done, 1) |
| `Workers.ClaimsInOrder` | src/demo-workers.ts:35-51 | a claim takes the first pending task no other worker holds; those passed over, all of them if none is taken, are held |
| `Workers.CountersMatchDoneTasks` | src/demo-workers.ts:93-125 | the workers' counts never exceed the done tasks, and equal them when none has failed |
| `Workers.ReturnsOnlyWhenAllDone` | src/demo-workers.ts:104-118 | a worker returns only at an instant when every task is done, including those others held |
| `Workers.PoolFinishesEverything` | src/demo-workers.ts:93-125 | over any run without new tasks: once any worker has returned, every task is done exactly once |
| `Workers.TaskTable.ClaimAndProcessTask` | src/demo-workers.ts:28-77 | the first pending task processed, or nothing changed because there is none |
| `Workers.TaskTable.HasPendingTasks` | src/demo-workers.ts:79-91 | whether any task is pending |
| `Workers.TaskTable.RunWorker` | src/demo-workers.ts:93-125 | the loop processes every pending task once and counts them |
| `Retry.NoLostUpdate` | src/demo-retry.ts:68-112 | over any interleaving, conflict, deadlock and crash: balance = initial + 1000 x operations that succeeded |
| `Retry.EndedForGood` | src/demo-retry.ts:35-66 | an increment that has crashed, succeeded or given up takes no further step |
| `Retry.SixIncrementsNeverGiveUp` | src/demo-retry.ts:35-66 | however the others fail, an increment that does not fail fatally never exhausts its five retries if there are at most six increments, its own spurious failures counted as increments |
| `Retry.RunWithRetry` | src/demo-retry.ts:35-66 | at most six calls; returns, or rethrows the first fatal or the sixth retryable error |
| `OrderEvents.FilterCommutesWithTruncation` | src/orders/order-events.service.ts:37-51 | filtering the truncated buffer is truncating the filtered history |
| `OrderEvents.OrderEventsService.EmitStatusChanged` | src/orders/order-events.service.ts:23-45 | the log grows by the event returned, numbered next; every buffer stays the last hundred of its order |
| `OrderEvents.OrderEventsService.GetEventsAfter` | src/orders/order-events.service.ts:47-51 | the last hundred events of the order's full history with a greater id |
| `OrderEvents.HeaderRoundTrip` | src/orders/orders.controller.ts:135-147 | any id the counter can reach, which as a double is at most 2^53, comes back unchanged through the Last-Event-ID header |
| `JsNumbers.EverySpellingIsRead` | src/orders/orders.controller.ts:140 | every well-formed decimal, prefixed or infinite literal is read back as itself |
| `JsNumbers.DecimalValue` | src/orders/orders.controller.ts:140 | the exact value of a decimal literal from its digits, decimals, exponent and sign |
| `JsNumbers.PrefixedValue` | src/orders/orders.controller.ts:140 | and of a prefixed one, digit by digit, in base 16, 8 or 2 |
| `JsNumbers.BlanksAroundAreIgnored` | src/orders/orders.controller.ts:140 | which characters are blanks that do not matter on either side |
| `JsNumbers.NumberIsSpelled` | src/orders/orders.controller.ts:140 | what Number gives a value other than zero is such a literal between blanks, and the value is its exact one rounded to the nearest double |
| `Doubles.NearestIsClose` | src/orders/orders.controller.ts:140 | a number is rounded with an error of at most one part in 2^53, down to 2^-1022, where doubles get coarser |
| `Doubles.WholeIsExact` | src/orders/orders.controller.ts:140 | and a whole number up to 2^53 not at all |
| `OrderEvents.ResumesIffSpelled` | src/orders/orders.controller.ts:135-147 | the replay starts after event k > 0 exactly for a header that spells a number whose nearest double is k - with sign, leading zeros, fraction, exponent, base prefix or blanks; any other header, an infinite one included, replays from the beginning |
| `OrderEvents.ClientReadsWhatWasWritten` | src/orders/orders.controller.ts:149-169 | a client reads back from the lines the very events written |
| `OrderEvents.StreamOrderEvents` | src/orders/orders.controller.ts:64-94 | 404 for an unknown order, otherwise the retry line and then lines that read back as the missed events |
| `OrderEvents.NeverTwiceNeverOutOfOrder` | src/orders/orders.controller.ts:87-107 | across any number of sessions a client sees events of its order only, each at most once, in the order emitted |
| `OrderEvents.SeamlessIffGapFits` | src/orders/order-events.service.ts:37-39 | a reconnection is seamless exactly when at most a hundred events were missed |
| `OrderEvents.ReplayEqualsHistory` | src/orders/orders.controller.ts:77-107 | a client that never reconnects with more than a hundred events missed receives its order's whole history, once and in order, whatever the other clients miss |

## Left out

- Relay.OutboxRelay.PublishOrderPlaced: the wait for the drain event is not modelled; which fault strikes a publish is a parameter. A connection counts as open until it is closed or lost.
- The steps of the topology declaration between the exchange and the last binding (dead-letter exchange, its queue, the work queue) are one window; exchanges and queues are never deleted.
- Messages that others publish are one action (PublishOther) with any body, also a malformed one. A relay whose database session is lost while its publish is still under way can be imitated only by such a message.
- The broker: one work queue and one dead-letter queue. Redelivery is unordered and a delivery may be dead-lettered by the broker itself after too many returns. Loss inside a quorum queue, and the dead-letter exchange failing to route, are not modelled.
- The consumer name is constant, so processed_messages is keyed by the message id alone; rows of order_event_effects and processed_messages are never deleted.
- Orders.InvStep: the users table is one optional buyer, orders are never deleted, item fields that are not integers are taken to be refused before, and key whitespace is the ASCII kind.
- Orders.TotalMatchesIffPricesHeld: of several prices some may rise and others fall so that the differences cancel; the equivalence is therefore stated for prices that moved one way.
- OrdersServices.OrdersService.UpdateStatus: the event it emits and the order it reads back are separate steps after the update and not tied to it; the event service is modelled on its own.
- OrdersServices.OrdersService.Create: reads with no other request at work; interleaving is in the machine.
- findById, belongsToUser, the product and user repositories, seed, report and the role guard: reads and one-branch facts.
- Stock: create does not decrement stock, so conservation is claimed for checkouts only.
- RateLimiter.SortedSet.Reset: deletes the key in one step; resets are not part of the runs that the window bound covers.
- RateLimiter.WindowBound: scores are integers in milliseconds; the uniqueness of members is an assumption on the random part.
- Cache.SingleFlight: one key; the time between reading Redis and acting on the answer is not bounded, loads are instants of a source that may change with time, and JSON encoding is the identity (a cached null counts as a miss).
- CacheClients.CacheClient.GetOrLoadCached: what other callers do between two statements is any run of the machine without this call's token; that a call may also fail with a Redis error is in the machine.
- Auth: RS256, HMAC, scrypt and the random generators are oracles - a token verifies only if it was signed, a password matches only itself, drawn values are fresh. Roles, the users table beyond an id, and the deletion of users are left out.
- AuthInvariant.InvStep: a refresh takes its token row and its user row in one step; PostgreSQL takes one after the other, which matters to waiting and deadlock only. A deadlock's victim is a transaction that fails.
- AuthTheorems.LogoutIsSerial: asks that the presented token be unused when its row is locked; without that the claim is false, see LogoutWithUsedTokenCanMissSuccessor.
- Clocks in the interleaved model: one clock for application and database; the two are kept apart in NoGap and LoggedOutAccessStaysOut, where it matters.
- CheckoutTheorems: products and users are not created or removed; ids are numbers, and an order's one item and one task are filed under its id.
- CheckoutServices.CheckoutService.Checkout: an unconfirmed publish is taken to have reached the broker; the machine has both cases.
- Workers.TaskTable.RunWorker: one worker with the table to itself; interference, failures and rollbacks are in the machine. Sleeping and the worker's name are left out.
- Retry.NoLostUpdate: SERIALIZABLE is "a transaction whose snapshot is older than the last commit aborts"; backoff times are left out.
- OrderEvents.ReplayEqualsHistory: within one run of the process, which emits at most 2^53 events; ids start again after a restart.
- OrderEvents.ResumesIffSpelled: blanks are those a header can carry; rounding is to the nearest double for literals of any length, where ECMAScript lets an engine be less exact beyond twenty digits; minus zero is zero.
- OrderEvents.OrderEventsService.EmitStatusChanged: goes on counting beyond 2^53, where the program's counter, a double, stands still; the machine of clients stops there.
- OrderEvents.StreamOrderEvents: the subscription is the Connect action of the machine, which reads, writes and subscribes in one step because the handler does not yield in between.
- Files, CDN and S3 code, Vault, Docker and backup scripts, pools, environment parsing and module wiring, Socket.IO, BullMQ: plumbing without a property of their own.
