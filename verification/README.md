# Yuexiang image backend: a Dafny model

This project models the Go backend of the Yuexiang image service: the shared in-memory state and its handlers,
the snapshot and rollback around them, the object store beside them, the Redis queue and its worker, and the small
algorithms at the edges. `dafny verify dfyconfig.toml` checks all of it.

## How it is built

- **Values.** `Domain`, `Db`, `Orders`, `Handlers`, `Variants` give the records, one value `Db` of the whole state and
  each handler as a function on it. `Actions` joins them: a `Step` is a handler call, its clock and whether the save
  that follows succeeds; a failed save gives the state before, except that image processing and the last save of a
  checkout keep their writes. A run is any legal sequence of steps; `Start` is an empty server.
- **Runs.** `Soundness` (records filed under their keys, every user with a subscription), `Frames` (what each handler
  writes), `Billing`, `Payments`, `Consistency`, `Webhooks`, `Ledger`, `Uploads`, `Invites`, `Retention` and `Quotas`
  prove what holds after every run. `Outcomes` (orders), `Accounts`, `Pictures` and `Steps` say what each handler and each
  saved step comes to, in terms of the records: event names, dates, prices, counts. `Scenarios` are runs from `Start` to
  the states the counterexamples speak of.
  `Objects` adds the object store and the handlers that work outside the lock, one put or delete at a time, and
  `Erasures` shows that what they set out to delete goes.
- **Heap.** `Slices` are Go slices (a header over a shared array), `KeyTables` the map of API-key slices, `MemoryState`
  the mutable state with its snapshot. `OrderHandlers`, `AccountHandlers` and `ImageHandlers` are the handlers as
  they run, with loops, in-place writes, snapshot and rollback, each proved equal to its function on values.
- **Queue.** `Queue` holds the Redis commands on values, `QueueRuns` any number of workers as a state machine, `Worker`
  the client calls and the worker loop as methods, proved to be runs of that machine while others act on the server.
- **Algorithms.** `RateLimiter`, `Checksums`, `Backup`, `AverageHash`.

## What is assumed

- Uuids are fresh; clocks of successive steps do not go back; byte sizes are not negative.
- The other handlers commit nothing between the snapshot a handler takes and its rollback, so a handler and its save are
  one step. For most handlers that window runs from the unlock to the rollback; `importBackup` takes its snapshot before
  it puts the objects, and an upload withdrawn after a failed enqueue restores the one it took before filing. Uploads,
  imports, checkouts, the worker and deletions take many steps outside the lock.
- Searches over Go maps return whichever match comes first: the match is a parameter of the step, constrained to be one.
- Zip, JSON, SHA-256, uuid generation and the image processor are parameters. JSON and zip give back what was put in.
- A Redis id is the position of its entry; MULTI is one step; a call whose reply is lost is the call followed by a crash
  or a failed lookup.
- The rate limiter's absent window counts as over, as Go's zero time is.

## What the code does not promise

- The failure path of `createIFPayCheckout` marks the order failed without asking what it has become meanwhile. When a
  success event overtakes the failing call, the paid order becomes payable again and a second event starts a second
  subscription (`LateRefusalPaysAgain`, `LateRefusalReached`). `RefusalSettles` and `RefusalStamps` say exactly when the
  refusal is harmless: the order is still pending or failed. `OrderlyRun` asks that of every refusal of a run.
- The clean-up after an abandoned upload or import trims the keys before it deletes, so an object whose file name ends in
  white space stays in the store for good. `AbandonedExact` says exactly when; deletes and purges do not trim
  (`DeletesErase`, `PurgesErase`).
- `adminDeleteImage` and `adminFreezeImage` do not ask whether the image is already deleted. `AdminDeleteLedger` and
  `AdminFreezeLedger` give the exact condition under which the storage counter survives, `DeleteTwice` a failure and
  `DeleteTwiceReached` a run to it.
- `GrantDays` and `Days` are multiplied as int64 nanoseconds: from 106752 days on the product wraps and the grant is over
  before it starts (`DaysDurationWraps`). Retention is proved with exactly that exception.
- A checksum line is trimmed before it is read, so names that end in white space fail their own check
  (`TrailingSpaceRefused`), and with them the import of a backup that holds one (`ExportAccepted`).
- `mergeVariants` returns the old list untouched when nothing was generated, repeated kinds included (`MergeDistinct`).
- A task whose type is empty or "<nil>" comes out of the queue as type "invalid" (`ParsedEnqueued`).
- An upload is checked against the storage quota without its variants, in an earlier state than the one it is filed in.
  `UploadFits` says when the quota still holds; `VariantsOverrun` and `ConcurrentUploadsOverrun` are the two ways it fails.
- One read of a dead letter may be requeued by several callers at once; each adds an entry (`RequeueRace`).
- The sliding bound of the rate limiter is 2L-1, not 2L.
- An import revives frozen images as active ones, without their moderation reason.
- `RequireAdminApproval` of a campaign is consulted when it is created, never when it is redeemed.

## Model

| member | source | states |
|---|---|---|
| `QueueRuns.NoTaskLost` | yuexiang-image-backend/internal/queue/queue.go:219-377 | in every interleaving of enqueues, deliveries, stale claims, crashes, failed lookups, failed acknowledgements, dead-letter moves and requeues by any number of workers, every stream entry, or one that descends from it by requeues and has the same type and payload, is undelivered, pending, processed or a dead letter |
| `QueueRuns.EnqueuedNeverLost` | yuexiang-image-backend/internal/queue/queue.go:101-114 | the same from the producer: whatever ran before and after an enqueue, the entry it appended, or one requeued from it, is still in one of those places with its task |
| `Queue.ParsedEnqueued` | yuexiang-image-backend/internal/queue/queue.go:430-447 | a task is read back as it was enqueued if and only if its type is neither empty nor "<nil>"; what is read back survives a second trip |
| `QueueRuns.Requeues` | yuexiang-image-backend/internal/queue/queue.go:219-257 | requeueing trades a dead letter for an entry with the same task, naming its original, and keeps all that was accounted for |
| `Queue.RequeueExact` | yuexiang-image-backend/internal/queue/queue.go:236-257 | a requeue appends the task, naming its original, takes that one dead letter away and touches nothing else |
| `QueueRuns.RequeueRace` | yuexiang-image-backend/internal/queue/queue.go:219-257 | two requeues of one read both go through: two entries descend from the original, and the invariant holds |
| `QueueRuns.GoodNext` | yuexiang-image-backend/internal/queue/queue.go:294-408 | every step of the protocol keeps the invariant: positions, pending counts, genuine hands, genuine dead letters, nothing unaccounted for |
| `QueueRuns.DeadLettersEarned` | yuexiang-image-backend/cmd/worker/main.go:68-91 | every dead letter was delivered at least max(1, limit) times and carries the task of its original entry |
| `QueueRuns.RetriesBounded` | yuexiang-image-backend/cmd/worker/main.go:68-91 | one worker whose acks and moves succeed processes each entry at most max(1, limit) times and leaves at most one dead letter, crashes between tasks and failed lookups included |
| `QueueRuns.SoloNext` | yuexiang-image-backend/cmd/worker/main.go:39-91 | each reliable step of that worker keeps tries below the limit and at most as many as deliveries |
| `Worker.Redis.ReadNew` | yuexiang-image-backend/internal/queue/queue.go:294-316 | the delivery loop hands out the next entries, at most the wanted number (one when not positive), each pending with count one |
| `Queue.BatchSizeExact` | yuexiang-image-backend/internal/queue/queue.go:294-316 | a read hands out as many entries as asked for, one when asked for none or fewer, or all that are left |
| `Worker.Redis.Claim` | yuexiang-image-backend/internal/queue/queue.go:318-340 | claiming raises exactly the claimed counts |
| `Worker.Redis.CountDeliveries` | yuexiang-image-backend/internal/queue/queue.go:410-428 | the pending count, or one when the entry is no longer pending |
| `Worker.Redis.MoveToDeadLetter` | yuexiang-image-backend/internal/queue/queue.go:349-377 | dead-letter record and acknowledgement in one step |
| `Worker.Redis.RequeueDeadLetter` | yuexiang-image-backend/internal/queue/queue.go:219-257 | an existing dead letter becomes a new stream entry, an unknown id changes nothing |
| `Worker.ParseMessages` | yuexiang-image-backend/internal/queue/queue.go:383-408 | a failed lookup drops the whole batch; otherwise the messages are exactly the tasks and current counts of the ids, in order; each lookup is a step of the system |
| `Worker.ProcessMessage` | yuexiang-image-backend/cmd/worker/main.go:68-91 | the writes are exactly those of the one step that the outcome calls for: acknowledge, leave pending, or move to the dead letters when delivered often enough |
| `Worker.TakeTurn` | yuexiang-image-backend/cmd/worker/main.go:39-65 | one turn of the loop is exactly: others' steps, the claim and the dealing with its answer, others' steps, the read and the dealing with its answer; a dealing looks every delivery count up and then tries each entry once, in order, with the outcome given, or drops the batch at the lookup that fails |
| `Worker.Work` | yuexiang-image-backend/cmd/worker/main.go:39-65 | the loop takes one such turn after another for any answers from outside and any enqueues, requeues and steps of other workers in between; all of it is a run of the system |
| `Worker.ClaimRaises` | yuexiang-image-backend/internal/queue/queue.go:318-340 | a claim hands over the ids it answers, each delivered once more, and changes no other count |
| `Worker.TrialSettles` | yuexiang-image-backend/cmd/worker/main.go:68-91 | after a trial the entry is gone if it succeeded and the acknowledgement arrived, a dead letter if it failed after enough deliveries and the move arrived, and pending with its count in every other case |
| `WebhookRuns.ExactlyOnce` | yuexiang-image-backend/internal/api/server.go:1751-1835 | a run with repeated deliveries and failed saves ends in exactly the state that applying only its kept steps, each without looking at the dedup table, ends in |
| `WebhookRuns.KeptDeliveries` | yuexiang-image-backend/internal/api/server.go:387-394 | of each event the kept steps hold its first delivery whose save succeeded and no other; an event already on record is dropped |
| `WebhookRuns.KeptOthers` | yuexiang-image-backend/internal/api/server.go:1751-1835 | all other steps are kept in their places |
| `WebhookRuns.MarksAfter` | yuexiang-image-backend/internal/api/server.go:1752-1758 | the table gains exactly the events whose delivery was saved; no other handler touches it |
| `Billing.SettledRun` | yuexiang-image-backend/internal/api/server.go:3130-3238 | over every run without a late refusal, failed saves included, orders only move pending, failed, paid, refunded or aside to cancelled, on unchanged user, plan, cycle and amount; cancelled and refunded are final |
| `Billing.AtMostOneGrant` | yuexiang-image-backend/internal/api/server.go:3130-3162 | in every state reached without a late refusal the audit log grants an order at most once, exactly once if it is paid, and refunds it at most as often |
| `PaymentRuns.PaidOnce` | yuexiang-image-backend/internal/api/server.go:3130-3162 | over every run without a late refusal an order enters paid at most once, and never from paid, cancelled or refunded |
| `PaymentRuns.StartsOnce` | yuexiang-image-backend/internal/api/server.go:3130-3162 | over such a run, steps on behalf of an order start at most one subscription (another id, start or plan for its owner), none if the order is already paid, cancelled or refunded |
| `PaymentRuns.StartsOnceFromStart` | yuexiang-image-backend/internal/api/server.go:3130-3162 | from an empty server each order starts at most one |
| `PaymentRuns.OrderFollows` | yuexiang-image-backend/internal/api/server.go:2985-3238 | whatever a step does for an order, late refusals included, it moves the subscriptions exactly so: paid, its owner gets the subscription of its plan and cycle; refunded, its owner's is ended if the plan matches; else none moves |
| `Billing.RefusalSettles` | yuexiang-image-backend/internal/api/server.go:1664-1687 | marking a refused order failed keeps orders, grants and revenue in order if and only if the order is still pending or failed |
| `PaymentRuns.LateRefusalPaysAgain` | yuexiang-image-backend/internal/api/server.go:1664-1687 | in every state with a paid, cancelled or refunded order, a refusal and the next success event pay it again and start another subscription |
| `Scenarios.LateRefusalReached` | yuexiang-image-backend/internal/api/server.go:1664-1687 | such a state is reached from an empty server: the success event overtakes the failing call |
| `PaymentRuns.WebhookFollows` | yuexiang-image-backend/internal/api/server.go:1773-1830 | an event moves subscriptions exactly as its order is paid or refunded |
| `PaymentRuns.MarkPaidFollows` | yuexiang-image-backend/internal/api/server.go:2985-3024 | so does marking an order paid by hand |
| `PaymentRuns.MoneyConserved` | yuexiang-image-backend/internal/api/server.go:2662-2670 | revenue_cent gains exactly the amounts of orders entering paid and loses those of orders leaving it, over every run, late refusals included |
| `Billing.RevenueCent` | yuexiang-image-backend/internal/api/server.go:2662-2670 | the loop over the orders computes that sum |
| `Billing.ActivateStep` | yuexiang-image-backend/internal/api/server.go:3130-3162 | activation of a paid order changes neither user nor subscription; of an unpaid one it starts the subscription and logs one grant |
| `Billing.ShapeEffect` | yuexiang-image-backend/internal/api/server.go:2985-3111 | every handler but a late refusal moves at most one order, by an allowed move, and logs a grant or refund exactly then |
| `OrderOutcomes.EventsSettle` | yuexiang-image-backend/internal/api/server.go:1751-1835 | for every first delivery, told by the literal event names: what becomes of the matched order, its note, its owner's plan and subscription; every refused or unknown event leaves all of it as it is, and no other order changes |
| `OrderOutcomes.FoundExact` | yuexiang-image-backend/internal/api/server.go:3119-3128 | the search finds an order that the event names by id or by payment, the resource before the payload, and none only when there is none; an unmatched event is only marked and logged |
| `OrderOutcomes.PaymentBuys` | yuexiang-image-backend/internal/api/server.go:3144-3153 | whatever step makes an order paid, its owner has the order's plan from that moment, active for 365 days on a yearly and 31 on any other order, the data kept 30 days more |
| `OrderOutcomes.CheckoutExact` | yuexiang-image-backend/internal/api/server.go:1603-1651 | a checkout succeeds if and only if the user is verified, the cycle known and the first plan with the slug for sale; the pending order costs that plan's yearly or monthly price |
| `OrderOutcomes.AdminExact` | yuexiang-image-backend/internal/api/server.go:2985-3111 | exactly when an admin's mark, cancellation or refund is accepted, and what it makes of order, note and subscription |
| `OrderHandlers.ActivateOrder` | yuexiang-image-backend/internal/api/server.go:3130-3162 | the writes to orders, users, subscriptions and audit log are those of the transition; a refused one writes nothing |
| `OrderHandlers.FailOrder` | yuexiang-image-backend/internal/api/server.go:3164-3182 | the same for failing |
| `OrderHandlers.CancelOrder` | yuexiang-image-backend/internal/api/server.go:3184-3205 | the same for cancelling |
| `OrderHandlers.RefundOrder` | yuexiang-image-backend/internal/api/server.go:3207-3238 | the same for refunding, the subscription retained when its plan matches |
| `OrderHandlers.FindOrder` | yuexiang-image-backend/internal/api/server.go:3119-3128 | some order with the event's order id or payment id if there is one, none otherwise |
| `OrderHandlers.Webhook` | yuexiang-image-backend/internal/api/server.go:1751-1835 | the whole handler on the mutable state: the settled state after a successful save, exactly the old state, dedup mark included, after a failed one |
| `OrderHandlers.MarkPaid` | yuexiang-image-backend/internal/api/server.go:2985-3024 | likewise for adminMarkOrderPaid |
| `OrderHandlers.AdminCancel` | yuexiang-image-backend/internal/api/server.go:3026-3070 | likewise for adminCancelOrder |
| `OrderHandlers.AdminRefund` | yuexiang-image-backend/internal/api/server.go:3072-3111 | likewise for adminRefundOrder |
| `Consistency.StampsRun` | yuexiang-image-backend/internal/api/server.go:3130-3238 | in every state reached without a late refusal the paid, failed, cancelled and refunded time stamps of each order tell its status |
| `Consistency.StampsNext` | yuexiang-image-backend/internal/api/server.go:1752-1830 | every such step keeps that; no stamp once set changes, except that a payment forgets an earlier failure and a refusal stamps its own |
| `Consistency.RefusalStamps` | yuexiang-image-backend/internal/api/server.go:1664-1687 | a refusal keeps stamps and status in agreement if and only if the order is still pending or failed |
| `Consistency.PlansRun` | yuexiang-image-backend/internal/api/server.go:3144-3148 | in every reachable state the plan a user record shows is that of the subscription, or none after a refund, an expiry or a purge |
| `MemoryState.State.RollbackExact` | yuexiang-image-backend/internal/api/state_postgres.go:679-805 | a snapshot, then any write whatever to every field and backing array, then a restore, which asks nothing of the state it finds, gives back the original state |
| `MemoryState.State.Take` | yuexiang-image-backend/internal/api/state_postgres.go:679-740 | the snapshot records the state in arrays of its own, shared with nothing the state may write |
| `MemoryState.State.Restore` | yuexiang-image-backend/internal/api/state_postgres.go:742-805 | from any state at all, restoring yields the recorded state in fresh arrays |
| `MemoryState.State.PersistOrRollback` | yuexiang-image-backend/internal/api/server.go:387-394 | the recorded state comes back if and only if the save fails |
| `MemoryState.Values` | yuexiang-image-backend/internal/api/state_postgres.go:679-740 | the records of a map, flattened in any order, refile to the same map when each is filed under its own key |
| `KeyTables.Flatten` | yuexiang-image-backend/internal/api/state_postgres.go:679-740 | flattening the API-key lists loses nothing: regrouping the flat list by owner gives the lists back |
| `KeyTables.Regroup` | yuexiang-image-backend/internal/api/state_postgres.go:742-805 | the regrouping loop builds those lists, no two sharing an array |
| `KeyTables.GroupExtend` | yuexiang-image-backend/internal/api/state_postgres.go:742-805 | appending one owner's keys to the flat list appends them to that owner's list and to no other |
| `Slices.Append` | yuexiang-image-backend/internal/api/state_postgres.go:679-740 | append writes spare capacity in place or moves to a larger array; the old header keeps its contents |
| `Soundness.SoundRun` | yuexiang-image-backend/internal/api/state_postgres.go:742-805 | every reachable state files each record under the key it carries, gives every user a subscription and a usage record, and every image an owner |
| `AccountHandlers.RevokeKey` | yuexiang-image-backend/internal/api/server.go:2432-2457 | the key overwritten in place in its slice is the first with the id; a failed save restores it |
| `AccountHandlers.RevokeEach` | yuexiang-image-backend/internal/api/server.go:3889-3901 | banning overwrites every key of the list in place |
| `AccountHandlers.SetUserStatus` | yuexiang-image-backend/internal/api/server.go:3872-3908 | the handler with its snapshot and rollback |
| `AccountHandlers.UpsertPlan` | yuexiang-image-backend/internal/api/server.go:2878-2900 | the plan is overwritten in place when the slug is known, appended otherwise, and restored when the save fails |
| `AccountHandlers.CreateKey` | yuexiang-image-backend/internal/api/server.go:2386-2430 | the key is appended to its owner's list, by verified users only |
| `AccountHandlers.Register` | yuexiang-image-backend/internal/api/server.go:959-1024 | a new account with subscription and usage, unless the normalised email is taken; nothing remains after a failed save |
| `AccountHandlers.GrantPlan` | yuexiang-image-backend/internal/api/server.go:2797-2856 | user found by id or email, plan looked up, new subscription granted, or nothing |
| `AccountHandlers.HasRequiredScopes` | yuexiang-image-backend/internal/api/server.go:4367-4384 | the two loops decide whether the key carries a star or every scope asked for |
| `AccountHandlers.UseKey` | yuexiang-image-backend/internal/api/server.go:896-950 | the first matching unrevoked key is stamped in place and the call counted, if user, scopes, plan and quota allow |
| `AccountHandlers.Deliver` | yuexiang-image-backend/internal/api/server.go:4058-4080 | request and bytes are counted if the quota allows and the save succeeds |
| `AccountOutcomes.RevokedForever` | yuexiang-image-backend/internal/api/server.go:896-950 | over any run a revoked key is never again the key of an admitted call; keys stay with their owner, hash and scopes |
| `AccountOutcomes.BanLocksKeys` | yuexiang-image-backend/internal/api/server.go:3872-3908 | once a user is banned no key of that time ever admits a call again, not even after the ban is lifted, and while it stands no key does |
| `AccountOutcomes.UseKeyExact` | yuexiang-image-backend/internal/api/server.go:896-950 | a call is admitted if and only if the key is unrevoked and fits, its user is known and not banned, the scopes suffice and the plan allows one more call; then the key is stamped and the call counted |
| `AccountOutcomes.ScopesExact` | yuexiang-image-backend/internal/api/server.go:4367-4384 | the scopes suffice if none is asked for, one of them trims to a star, or each asked for is among them |
| `AccountOutcomes.DeliverExact` | yuexiang-image-backend/internal/api/server.go:4058-4080 | a delivery is counted if and only if the first plan with the subscription's slug, or the user's when that is empty, allows one request and the bytes more |
| `AccountOutcomes.CheckUploadExact` | yuexiang-image-backend/internal/domain/usage.go:38-45 | an upload passes if and only if the file is within the single-file limit and, with it and one more processing event, no counter is above its limit |
| `AccountOutcomes.FindPlanFirst` | yuexiang-image-backend/internal/domain/plans.go:123-130 | a plan is found if and only if some plan has the slug, and then it is the first |
| `AccountOutcomes.SearchesExact` | yuexiang-image-backend/internal/api/server.go:896-903 | the searches for a user or a key find a match, and none only when there is none |
| `AccountOutcomes.RegisterExact` | yuexiang-image-backend/internal/api/server.go:959-1003 | registration succeeds if and only if no user has the email, lower-cased and trimmed; the account is unverified, on plan go, active for 30 days |
| `AccountOutcomes.OAuthExact` | yuexiang-image-backend/internal/api/server.go:1545-1586 | a provider login binds the account it finds and takes no verification back, or opens a bound account for 30 days |
| `AccountOutcomes.ProfileExact` | yuexiang-image-backend/internal/api/server.go:1423-1451 | a nickname of one to forty letters, trimmed, is accepted and nothing else edited; a verified email is marked so |
| `AccountOutcomes.GrantExact` | yuexiang-image-backend/internal/api/server.go:2797-2856 | a grant needs days, a user, a plan and a reason for the plan without limits; it starts at once and is active for the days, up to the length at which they wrap |
| `AccountOutcomes.ExpireExact` | yuexiang-image-backend/internal/api/server.go:3817-3866 | a forced expiry needs a reason and at most 365 days; from then on the subscription is never active, its data kept for the days (30 by default) or gone at once |
| `AccountOutcomes.UpsertExact` | yuexiang-image-backend/internal/api/server.go:2878-2900 | after an upsert the slug names the plan and every other slug what it named before |
| `AccountOutcomes.CampaignExact` | yuexiang-image-backend/internal/api/server.go:2912-2972 | a campaign needs a name, days, a plan and, for the plan without limits, approval; no code is taken over |
| `AccountOutcomes.RevokeKeyExact` | yuexiang-image-backend/internal/api/server.go:2432-2457 | the first key with the id is marked revoked and its secret wiped, no other key changes; without one the request is refused |
| `AccountOutcomes.StatusExact` | yuexiang-image-backend/internal/api/server.go:3872-3908 | a ban marks the user and revokes every key; lifting it gives none back |
| `AccountOutcomes.CreateKeyExact` | yuexiang-image-backend/internal/api/server.go:2396-2427 | verified users add keys to the end of their own list, others to none |
| `AccountOutcomes.PurgeClears` | yuexiang-image-backend/internal/api/server.go:3910-3945 | a purge closes the account of exactly the users whose subscription and retention are over: deleted for good, counters zero, no plan |
| `AccountOutcomes.PurgeLogs` | yuexiang-image-backend/internal/api/server.go:3943 | one log entry for each of them |
| `StepOutcomes.UnsavedStep` | yuexiang-image-backend/internal/api/server.go:387-415 | a step whose save fails changes nothing, but for processing and the noting of a created payment, which keep their writes in memory |
| `StepOutcomes.AccountSteps` | yuexiang-image-backend/internal/api/server.go:959-3908 | each saved step on an account shows in the user or key it names |
| `StepOutcomes.GrantSteps` | yuexiang-image-backend/internal/api/server.go:2797-3866 | so does each saved grant, expiry, campaign and plan |
| `StepOutcomes.OrderSteps` | yuexiang-image-backend/internal/api/server.go:1593-3111 | so does each saved checkout, answer of the payment service, cancellation and refund in its order |
| `StepOutcomes.ImageSteps` | yuexiang-image-backend/internal/api/server.go:1837-3807 | so does each saved upload, processing, delete, freeze and change of privacy in its image |
| `LedgerRuns.LedgerRun` | yuexiang-image-backend/internal/api/server.go:1928-1935 | over every run that deletes and freezes only images not already deleted, each user's StorageBytes equals original plus variant bytes of the user's images that are not deleted |
| `LedgerRuns.LedgerFromStart` | yuexiang-image-backend/internal/api/server.go:593-600 | from an empty server, the same, and the counters of all users add up to the scan of /metrics |
| `LedgerRuns.MetricsAgree` | yuexiang-image-backend/internal/api/server.go:593-600 | counters kept incrementally and the sum recomputed from the images agree |
| `LedgerRuns.StorageMetric` | yuexiang-image-backend/internal/api/server.go:593-600 | the loop of metrics computes that sum |
| `LedgerRuns.NoClamp` | yuexiang-image-backend/internal/api/server.go:2272-2279 | deleting never meets a counter smaller than what it subtracts |
| `LedgerRuns.NoSkip` | yuexiang-image-backend/internal/api/server.go:2056-2062 | processing never skips its subtraction |
| `LedgerRuns.AdminDeleteLedger` | yuexiang-image-backend/internal/api/server.go:3777-3807 | deleting as admin keeps the ledger if and only if the image was not deleted before, or there is nothing to subtract |
| `LedgerRuns.AdminFreezeLedger` | yuexiang-image-backend/internal/api/server.go:3750-3775 | freezing keeps it if and only if the image was not deleted before, or stores nothing |
| `LedgerRuns.DeleteTwice` | yuexiang-image-backend/internal/api/server.go:3777-3807 | both conditions can fail: deleting or freezing a deleted image of five bytes breaks the ledger |
| `Scenarios.DeleteTwiceReached` | yuexiang-image-backend/internal/api/server.go:3777-3807 | a run from an empty server after which an admin deletes an image a second time and breaks the ledger |
| `LedgerRuns.RedeliveryHarmless` | yuexiang-image-backend/internal/api/server.go:2033-2065 | processing again with the same generated variants leaves the image's variants and its owner's storage unchanged |
| `LedgerRuns.ProcessedTwice` | yuexiang-image-backend/internal/api/server.go:2033-2065 | so a task delivered twice is as good as once |
| `Variants.MergeVariants` | yuexiang-image-backend/internal/api/server.go:4591-4620 | the loops compute one variant per kind in first-seen order |
| `Variants.MergeDistinct` | yuexiang-image-backend/internal/api/server.go:4591-4620 | the kinds of the result are distinct if and only if something was generated or they already were |
| `Variants.MergeValues` | yuexiang-image-backend/internal/api/server.go:4591-4620 | the newest value of each kind wins |
| `Variants.MergeOrder` | yuexiang-image-backend/internal/api/server.go:4591-4620 | the kinds of the result come in the order they first occur |
| `Variants.MergeIdempotent` | yuexiang-image-backend/internal/api/server.go:4591-4620 | merging the same generated variants again changes nothing |
| `ImageOutcomes.UploadExact` | yuexiang-image-backend/internal/api/server.go:1928-1935 | an upload files the image and counts its original, its variants and one processing event |
| `ImageOutcomes.VariantBytesAdd` | yuexiang-image-backend/internal/api/server.go:4583-4589 | the bytes of a list of variants are those of each, added up |
| `ImageOutcomes.DeleteExact` | yuexiang-image-backend/internal/api/server.go:2256-2280 | only the owner deletes an image, and only once, an admin any; the record stays, marked, and its bytes no longer count |
| `ImageOutcomes.FlagsExact` | yuexiang-image-backend/internal/api/server.go:3750-3775 | a freeze needs only the image and gives it a reason; only the owner changes its privacy; no counter moves |
| `ImageOutcomes.ProcessExact` | yuexiang-image-backend/internal/api/server.go:2025-2081 | only an active image is refreshed, by what the processor reported, frozen if and only if its hash is blocked; the owner's storage moves by what the variants gained or lost |
| `ImageOutcomes.FreezeSpreads` | yuexiang-image-backend/internal/api/server.go:3999-4018 | freezing an image blocks every other with its hash, in whatever case |
| `ImageOutcomes.BlockedTwin` | yuexiang-image-backend/internal/api/server.go:3999-4018 | without configured hashes a blocked image has a frozen twin |
| `ImageOutcomes.ConfiguredBlocks` | yuexiang-image-backend/internal/api/server.go:3999-4018 | a configured hash blocks in whatever case, a blank one never |
| `ImageOutcomes.ImportExact` | yuexiang-image-backend/internal/api/server.go:2760-2773 | a restored image counts its original only |
| `ImageHandlers.Upload` | yuexiang-image-backend/internal/api/server.go:1928-1940 | image and usage filed, or the old state after a failed save |
| `ImageHandlers.Process` | yuexiang-image-backend/internal/api/server.go:2025-2081 | the locked part of processing: merged variants, moderation, adjusted counter, log entries |
| `ImageHandlers.IsBlocked` | yuexiang-image-backend/internal/api/server.go:3999-4018 | an image is blocked exactly by a configured hash or by another image frozen for a reason, ignoring case |
| `ImageHandlers.DeleteImage` | yuexiang-image-backend/internal/api/server.go:2256-2289 | the handler with its snapshot and rollback |
| `ImageHandlers.AdminDelete` | yuexiang-image-backend/internal/api/server.go:3777-3807 | the handler with its snapshot and rollback |
| `ImageHandlers.AdminFreeze` | yuexiang-image-backend/internal/api/server.go:3750-3775 | the handler with its snapshot and rollback |
| `ImageHandlers.SetPrivacy` | yuexiang-image-backend/internal/api/server.go:2227-2254 | the handler with its snapshot and rollback |
| `ImageHandlers.ImportAll` | yuexiang-image-backend/internal/api/server.go:2760-2773 | adding the sizes up and writing the counter once equals filing image by image |
| `ImageHandlers.Purge` | yuexiang-image-backend/internal/api/server.go:3910-3956 | the two nested loops, in any order of the maps, purge exactly the users whose subscription is effectively deleted and list exactly the objects of their remaining images; a failed save undoes it all |
| `Objects.NoActiveImageDangles` | yuexiang-image-backend/internal/api/server.go:1878-2289 | under every interleaving of upload, processing, deletes, purge and restore, puts and deletes outside the lock, every active image's original and variant objects are in the store |
| `Objects.GoodNext` | yuexiang-image-backend/internal/api/server.go:1878-3956 | every step keeps: active images stocked, objects queued for deletion belong to images that are not active and never will be |
| `Objects.GoodFileNew` | yuexiang-image-backend/internal/api/server.go:2687-2774 | filing an upload or import names only objects put before; a failed save turns them into deletions nobody misses |
| `Objects.GoodFileProcessing` | yuexiang-image-backend/internal/api/server.go:1997-2065 | filing generated variants leaves no active image without its objects, whoever deleted it meanwhile |
| `Objects.GoodAfterDelete` | yuexiang-image-backend/internal/api/server.go:2270-2287 | after a delete the image is not active, so its objects may go |
| `Objects.GoodAfterPurge` | yuexiang-image-backend/internal/api/server.go:3927-3951 | the same for all objects a purge lists |
| `Objects.OwnerOfKey` | yuexiang-image-backend/internal/api/server.go:1878-1899 | an object key tells which image it belongs to, whatever the file is called |
| `ErasureRuns.DeletesErase` | yuexiang-image-backend/internal/api/server.go:2256-2289 | after a saved delete, once the handler is through and every call reached the store, neither the original nor any variant is there, unless the worker put a variant again |
| `ErasureRuns.PurgesErase` | yuexiang-image-backend/internal/api/server.go:3910-3957 | the same for every remaining image of a user whose subscription and retention are over, after a saved purge |
| `ErasureRuns.AbandonedExact` | yuexiang-image-backend/internal/api/server.go:417-427 | what an upload or import put and then abandoned is gone once the clean-up is through if and only if its key does not end in white space |
| `ErasureRuns.TrailingSpaceStays` | yuexiang-image-backend/internal/api/server.go:417-427 | a file called "a " has such a key |
| `RetentionRuns.RetentionRespected` | yuexiang-image-backend/internal/api/server.go:3910-3956 | no purge deletes a user's images within 30 days of the latest registration, payment activation, grant, redemption or matching refund, unless an admin expired the subscription or a grant of overflowing length ended it |
| `RetentionRuns.KeptEffect` | yuexiang-image-backend/internal/api/server.go:3219-3226 | every handler keeps that promise for every user |
| `RetentionRuns.PurgeExact` | yuexiang-image-backend/internal/api/server.go:3910-3956 | a purge deletes exactly the remaining images of users whose subscription is effectively deleted |
| `RetentionRuns.PurgeAgain` | yuexiang-image-backend/internal/api/server.go:3910-3956 | running it again lists no objects |
| `Domain.RetentionIffNotNegative` | yuexiang-image-backend/internal/domain/subscription.go:24-48 | a new subscription keeps the data for 30 days if and only if its duration, after int64 wrap-around, is not negative |
| `Domain.DaysDurationWraps` | yuexiang-image-backend/internal/api/server.go:2844 | a grant of 106752 days is over before it starts |
| `Domain.DaysDurationExact` | yuexiang-image-backend/internal/api/server.go:2844 | up to 106751 days the duration does not wrap |
| `InviteRuns.InviteLimitsHold` | yuexiang-image-backend/internal/domain/invites.go:67-99 | over every run no campaign is redeemed beyond a positive limit, in total or by user, email, IP or device |
| `InviteRuns.EntryChecked` | yuexiang-image-backend/internal/api/server.go:2604-2630 | the log entry counts in exactly the scopes whose limits were checked, stored email and checked email agreeing |
| `InviteRuns.RedeemExact` | yuexiang-image-backend/internal/domain/invites.go:67-99 | a code is redeemed if and only if user and campaign exist, the campaign is active and within its dates, each condition it sets is met, and for each positive limit fewer entries of the log count than it allows; then the entry is filed and the plan active for the granted days |
| `InviteRuns.CountsWithinLimits` | yuexiang-image-backend/internal/api/server.go:3958-3980 | over every run the entries of the log for a code, and for each user, email, IP and device, number at most the positive limit |
| `AccountHandlers.InviteUsageOf` | yuexiang-image-backend/internal/api/server.go:3958-3980 | one pass over the redemption log counts the five scopes |
| `AccountHandlers.RedeemInvite` | yuexiang-image-backend/internal/api/server.go:2578-2637 | the handler with its checks, writes and rollback |
| `QuotaRuns.QuotasHold` | yuexiang-image-backend/internal/api/server.go:4031-4080 | while the plan's quota stands still, the counters equal what was admitted since the last purge and never pass the quota |
| `QuotaRuns.CountersExact` | yuexiang-image-backend/internal/api/server.go:920-936 | counters equal admitted requests, bytes and calls over every run |
| `QuotaRuns.MeterNext` | yuexiang-image-backend/internal/api/server.go:4058-4080 | a counter moves by what is admitted, falls to zero in a purge, and is left alone by every other handler |
| `UploadRuns.StorageOver` | yuexiang-image-backend/internal/api/server.go:1928-1934 | over every guarded run a user's StorageBytes moves by exactly what was filed for the user less what was released |
| `UploadRuns.UploadFits` | yuexiang-image-backend/internal/api/server.go:1856-1935 | an upload admitted in one state and filed after any guarded run keeps its quota if and only if what the user gained in between and the upload's variants fit into the room the check left |
| `UploadRuns.VariantsOverrun` | yuexiang-image-backend/internal/api/server.go:1856-1935 | filed at once, one variant of one byte overruns a quota the original just met |
| `UploadRuns.ConcurrentUploadsOverrun` | yuexiang-image-backend/internal/api/server.go:1856-1935 | two uploads without variants, both checked before either is filed, overrun it too |
| `Scenarios.ConcurrentUploadsReached` | yuexiang-image-backend/internal/api/server.go:1856-1935 | a run from an empty server to that state |
| `Frames.EffectWithin` | yuexiang-image-backend/internal/api/server.go:959-3956 | every handler writes only the parts of the state listed for it |
| `RateLimiting.Limiter.Admit` | yuexiang-image-backend/internal/api/server.go:782-814 | one request: the window it falls into and whether it is admitted |
| `RateLimiting.Replay` | yuexiang-image-backend/internal/api/server.go:782-814 | a limiter that has seen any requests answers as the function of the history says |
| `RateLimiting.OwnWindowBound` | yuexiang-image-backend/internal/api/server.go:782-814 | in each of the limiter's own windows as many requests are admitted as arrive, up to the limit |
| `RateLimiting.SlidingBound` | yuexiang-image-backend/internal/api/server.go:782-814 | in any closed minute at most 2L-1 requests of a key with limit L are admitted, among any requests of other keys |
| `RateLimiting.SlidingBoundReached` | yuexiang-image-backend/internal/api/server.go:782-814 | with a limit of two that bound is reached |
| `Checksums.ChecksumFile` | yuexiang-image-backend/internal/api/server.go:4503-4512 | the printing loop |
| `Checksums.ValidateChecksumFile` | yuexiang-image-backend/internal/api/server.go:4653-4674 | no error if and only if every line passes; an error is that of some line |
| `Checksums.AcceptsPieces` | yuexiang-image-backend/internal/api/server.go:4653-4674 | for all names whatever, a print is accepted if and only if every piece of every printed line passes |
| `Checksums.AcceptsExactly` | yuexiang-image-backend/internal/api/server.go:4653-4674 | for names without newline, if and only if each name without white space at its end is not empty and names a file with the printed hash |
| `Checksums.PrintAccepted` | yuexiang-image-backend/internal/api/server.go:4503-4512 | the check accepts what was printed for non-empty names without newline or trailing white space |
| `Checksums.TamperingRefused` | yuexiang-image-backend/internal/api/server.go:4653-4674 | and refuses it once a listed file is removed or its hash changes |
| `Checksums.TrailingSpaceRefused` | yuexiang-image-backend/internal/api/server.go:4653-4674 | a name ending in a space is refused |
| `Backup.ExportObjects` | yuexiang-image-backend/internal/api/server.go:2484-2499 | the export loop collects the objects of the non-deleted images |
| `Backup.ExportExact` | yuexiang-image-backend/internal/api/server.go:2484-2499 | an export holds, under objects, id and file name, the stored bytes of exactly the images that are not deleted |
| `Backup.RestoreObjects` | yuexiang-image-backend/internal/api/server.go:2708-2755 | the import loop puts the found bodies under fresh keys and builds the new records |
| `Backup.FindBackupObject` | yuexiang-image-backend/internal/api/server.go:4546-4554 | the first file with the image's prefix |
| `Backup.FindsStored` | yuexiang-image-backend/internal/api/server.go:4546-4554 | in an export that is the image's own object and no other's |
| `Backup.RoundTrip` | yuexiang-image-backend/internal/api/server.go:2687-2774 | importing an export restores exactly one record per non-deleted image with a non-empty stored object, in order |
| `Backup.BackupRestored` | yuexiang-image-backend/internal/api/server.go:2687-2774 | filed into any later state they are active, under fresh ids and no others, raise storage by their total size and change no existing image |
| `Backup.MadeFaithful` | yuexiang-image-backend/internal/api/server.go:2742-2755 | a restored image keeps name, size, look and privacy, and is active without reason or variants under the new id |
| `Backup.StoresBytes` | yuexiang-image-backend/internal/api/server.go:2727-2740 | the restored objects hold identical bytes, and no object that was there is touched |
| `Backup.ExportAccepted` | yuexiang-image-backend/internal/api/server.go:2549-2554 | the import accepts the export's own checksum file if and only if no object path ends in white space, given none holds a newline |
| `Backup.ObjectStore.PutObject` | yuexiang-image-backend/internal/storage/store.go:43-55 | an empty key is refused, any other stored |
| `Backup.ObjectStore.GetObject` | yuexiang-image-backend/internal/storage/store.go:57-65 | the stored body, or none |
| `Backup.ObjectStore.DeleteObject` | yuexiang-image-backend/internal/storage/store.go:67-72 | the object is gone, the others remain |
| `AverageHash.SampleInside` | yuexiang-image-backend/internal/imageproc/worker.go:138-141 | all 64 sample points lie within the bounds of any picture of positive size |
| `AverageHash.SampleCentred` | yuexiang-image-backend/internal/imageproc/worker.go:138-141 | each sample lies in the middle of its eighth of the width and the height, rounded down to a pixel |
| `AverageHash.GrayOfPrimaries` | yuexiang-image-backend/internal/imageproc/worker.go:143 | gray is weighted as ITU-R BT.601 weighs the primaries, and a gray keeps its brightness |
| `AverageHash.PerceptualBits` | yuexiang-image-backend/internal/imageproc/worker.go:125-156 | the loops compute a 64-bit word whose bit 63-i is set if and only if sample i is at least the mean |
| `AverageHash.PackedBit` | yuexiang-image-backend/internal/imageproc/worker.go:149-154 | that reading of the packed word |
| `AverageHash.HashNotZero` | yuexiang-image-backend/internal/imageproc/worker.go:149-154 | the word is never zero |
| `AverageHash.BrightnessInvariant` | yuexiang-image-backend/internal/imageproc/worker.go:142-154 | adding one constant to all channels leaves it unchanged |
| `Text.TrimSpaceExact` | yuexiang-image-backend/internal/api/server.go:973 | trimming cuts white space off both ends, all of it and nothing else |
| `Text.LowerExact` | yuexiang-image-backend/internal/api/server.go:973 | lower-casing maps the 26 capital letters of ASCII and keeps every other character |
| `Text.NormalizeIsNormal` | yuexiang-image-backend/internal/api/server.go:973 | normalising an email once is enough: the stored form is a fixed point of trimming and lower-casing |
| `AccountHandlers.LookupPlan` | yuexiang-image-backend/internal/domain/plans.go:123-130 | the first plan with the slug |
| `Sums.SumValues` | yuexiang-image-backend/internal/api/server.go:2653-2656 | summing a map by ranging over it in any order |

## Left out

- QueueRuns.RetriesBounded: needs one worker, successful acks and moves and no shutdown in the middle of a task; without them the code itself gives no bound.
- LedgerRuns.LedgerRun: needs the two admin actions aimed at images not yet deleted; the code does not check it.
- QuotaRuns.QuotasHold: needs the user's quota unchanged and counters within it at the start; a downgrade may leave them above.
- UploadRuns.UploadFits: needs, between check and filing, the two admin actions aimed at images not yet deleted, as the ledger does.
- Objects.NoActiveImageDangles: a handler and its save are one step, so an interleaving of two handlers' rollbacks is not covered; nor are the long windows of a withdrawn upload and of `importBackup`, whose rollbacks restore an older snapshot.
- Billing.SettledRun: needs every refused payment to find its order pending or failed; the code does not check it.
- Billing.AtMostOneGrant: needs the same.
- PaymentRuns.PaidOnce: needs the same.
- Consistency.StampsRun: needs the same.
- PaymentRuns.StartsOnce: needs the same, and counts the subscriptions started on behalf of the order; grants and invites start others for the same user.
- PaymentRuns.MoneyConserved: amounts are unbounded integers, so the wrap-around of int64 sums is not modelled; the same holds for byte counters.
- ImageHandlers.Process: the reason texts are fixed English strings instead of the original wording.
- AccountHandlers.UpsertPlan: takes a plan whose slug and name are already normalised and that has passed `validatePlan`.
- AccountHandlers.CreateKey: takes the finished key; the normalising of its scopes and the drawing of its secret are left out.
- AccountHandlers.Register: starts after the password check and ends before the mail is sent.
- Text.NormalizeIsNormal: lower-casing covers the ASCII letters, without Unicode case folding.
- InviteRuns.RedeemExact: whether a user is new is what the request says, as in the source.
- ErasureRuns.DeletesErase: needs every delete call to reach the store and the handler not to vanish; the source ignores errors of these calls.
- StepOutcomes.GrantSteps: tells one fact of each step; the whole of it is in the lemmas on the handler.
- Worker.ParseMessages: nothing else acts on the server between the lookups of one batch; between the other calls of the worker anything may.
- The heap form of `ifpayOAuthCallback`, `verifyEmail`, `updateProfile`, `createIFPayCheckout`, `adminExpireSubscription` and `adminCreateInvite`; they are functions on values here.
- Allow and block lists of the hotlink settings, variant lists of images and scopes of API keys are values; the source never writes them in place.
- Password, mail, TOTP, OAuth exchange, token signing and webhook signature checks.
- Admin accounts, admin sessions, bootstrap, albums, integrations and hotlink handlers; their records are part of the snapshot all the same.
- The avatar of a profile, and the answers of handlers.
- Registration and upload withdrawn after a failed mail or enqueue in production mode count as steps whose save fails.
- Metadata of audit entries except `activated`, and of risk events.
- The sorted order of file names: names come in an arbitrary order, and the results do not depend on it.
- The consumer that owns a pending entry and its idle time: any pending entry may be claimed.
- Several processes over one database, SQL, migrations, `Load`, HTTP routing, S3, vips and the web apps.
