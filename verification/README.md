# Payment ledger: a verified model

A Dafny model of a double-entry payment ledger: PostgreSQL gives locks, constraints and atomic
commits, and an at-least-once event pipeline hangs off the tables the ledger writes. The model has
the same branches, checks, constants and error answers as the Go and SQL it is taken from, and proves
what the design promises of them, or exactly when it does not hold.

`dafny verify dfyconfig.toml` checks the whole project.

## How it is built

* **The tables and the sequential machine.** `Schema` holds the rows, `Sequential.Exec` what one
  command run alone answers and writes, `Books.Sound` what every committed state satisfies. `Effects`
  says what a payment and a reversal do to the balances and exactly when each is refused.
* **The payment transaction under concurrency.** `Machine` runs any number of sessions over one
  committed store, one database statement at a time, under READ COMMITTED: a statement sees the latest
  committed rows and its own writes, locks and uncommitted unique keys are held to the end, and a
  session may be aborted or retried between any two statements. `Linearizable` and `Isolation` prove
  that every run is the sequential machine executing the answered commands in order; `Guarantees` and
  `Liveness` draw the consequences (exactly-once effects, append-only history, balanced books, no
  deadlock, bounded work).
* **The Go code.** `Repository`, `Service`, `RetryLoop`, `Cache`, `Handlers`, `ExternalWork`,
  `Publisher`, `Replay`, `Webhook`, `Delivery`, `Pagination`, `Reconciliation`, `RateLimit` and
  `Migrations` hold the loops and the objects that change state, as methods and classes proved against
  those specifications. Injected failures, lost acknowledgements, database errors, random draws and
  the context ending are parameters.
* **The pipeline.** `Outbox` and `Delivery` are machines of many workers with stale claims and crashes;
  `Pipeline` puts ledger, outbox, replay and webhook consumer together.

## Where the code and its comments differ

* A failed request is not remembered: its claim rolls back with it, so "same key, same response" is
  about successes (`Guarantees.NeverInProgress`, `Guarantees.ExactlyOnce`).
* A cache hit answers before validation. Cached and uncached answers agree exactly when no refused
  command hits the cache (`Handlers.CacheIsTransparent`).
* `runExternalIdempotent` keeps its `claimed` variable across retries of the claim transaction. If
  COMMIT is refused with a retryable code after the row was inserted, and another request completes the
  key in between, the work runs a second time (`ExternalWork.RetriedClaimWorksTwice`). Work succeeds at
  most once exactly when no such stale claim's work succeeds (`ExternalWork.WorksOnceExactly`).
* `/v1/replay` hashes the request ID with the body; the model is stated for a given hash.
* The outbox's `MarkFailed` has no status or owner guard. A published row is final because a CHECK
  constraint refuses the update (`Outbox.CheckGuardsPublished`); a live claim can still be released by
  a stale worker (`Outbox.StaleMarkReleases`, with the exact condition in `Outbox.ReclaimedEarlyExactly`).
* `ClaimDue` takes no lock and the webhook `MarkFailed` has no guard, so finality needs delivery loops
  that share no row (`Delivery.TerminalStays`, `Delivery.TwoLoopsUndoDelivery`, and exactly
  `Delivery.TerminalStaysExactly`).
* `ListForReplay` lists rows of every status, not only published ones.
* After COMMIT, the injected failure in `Reverse` also loses a replayed response; in `Transfer` it does
  not.
* The retry backoff has no delay to draw from attempt 41 on: the shift wraps (`RetryLoop.PanicsExactly`).

## Model

| member | source | states |
|---|---|---|
| Isolation.RunsAreSequential | internal/ledger/service.go:52-380 | Serializability: however sessions interleave, abort and retry, the committed store is the one the sequential machine reaches by running the answered commands in order, every answer is its answer at that point, and the books are sound |
| Isolation.StepReached | internal/ledger/service.go:70-95 | every enabled step of any session keeps the machine's invariant: each session's progress matches its phase and what sessions hold stays apart |
| Isolation.Stays | internal/ledger/repo.go:38-65 | a commit by another session that leaves this one's locked rows and claimed keys alone keeps everything this session has read and checked true |
| Isolation.EndingLeaves | internal/ledger/service.go:70-95 | what a session commits touches no row or key another open session holds or depends on |
| Linearizable.AnswersSequentially | internal/ledger/service.go:120-231 | at the statement that ends a session, success or refusal, its answer and its writes are the sequential machine's on the store committed at that moment |
| Linearizable.GoesOn | internal/ledger/service.go:120-231 | each statement that does not end the session establishes the facts the next statement relies on |
| Liveness.NoDeadlock | internal/ledger/repo.go:30-65 | whenever sessions are open, one is not waiting, although distinct keys may share an advisory lock |
| Liveness.RunsBounded | internal/ledger/service.go:70-95 | without new sessions, aborts and retries, a run stops within a bound on the statements left |
| Liveness.Drains | internal/ledger/service.go:70-95 | from every reachable state, letting the sessions run answers all of them |
| Schema.SortIsStable | internal/ledger/service.go:446-455 | the balance-update order is a stable sorted permutation of the entries |
| Schema.LockOrderAscends | internal/ledger/repo.go:38-48 | lock order is strictly ascending and holds exactly the accounts given |
| Schema.UpdateOrderIsLockOrder | internal/ledger/service.go:183-188 | visiting the sorted entries meets the accounts in exactly the order their rows were locked |
| Effects.TransferMoves | internal/ledger/service.go:157-188 | a payment takes the amount from the source, gives it to the destination, and changes no other balance |
| Effects.TransferSucceedsExactly | internal/ledger/service.go:121-191 | a new valid transfer goes through if and only if both accounts exist in its currency, the source may overdraw or has the funds, and the results fit in 64 bits |
| Effects.TransferRefusals | internal/ledger/service.go:121-150 | which error each refused transfer gets, in the order of the checks, naming the account |
| Effects.ReverseMoves | internal/ledger/service.go:302-326 | a reversal takes back from each account exactly what its original gave |
| Effects.ReverseRefusals | internal/ledger/service.go:268-333 | which error each refused reversal gets, and exactly when it goes through: past the checks, when both accounts, the lower first, can give back what they got within funds and 64 bits |
| Effects.UndoRestores | internal/ledger/service.go:239-368 | a payment followed at once by its reversal restores every amount |
| Effects.PaymentStores | internal/ledger/service.go:152-230 | what a new payment stores, announces and answers, column by column: funding exactly if the source is a system account, the command's currency, text and optional reference, the two entries, an event of the amount, and the stored row as the 201 response |
| Effects.ReversalStores | internal/ledger/service.go:294-367 | the same for a reversal: it names its original, has its currency and a description with the reason if there is one, mirrors both entries, and announces the amount the original moved |
| Effects.CreateOpens | internal/ledger/repo.go:165-213 | an ID that is taken is refused and nothing changes; otherwise the account is stored and answered as given, with balance 0 at version 0, and no other row changes |
| Books.ExecKeepsSound | internal/ledger/service.go:52-380 | every command keeps the whole invariant, and a failed one changes nothing; the invariant says of every stored row what it promises, down to funding being payments out of system accounts, events announcing the amount moved, and each stored response being the row it answers for |
| Books.PostKeepsSums | internal/ledger/repo.go:72-89 | each balance stays the sum of its account's entries, and its version their number |
| Books.PostKeepsRows | migrations/0001_init.up.sql:27-39 | no balance that may not overdraw goes below zero |
| Books.PostKeepsReversals | migrations/0001_init.up.sql:54-62 | the reversals table and the one-reversal index stay one-to-one and agree |
| Books.NetDrop | internal/ledger/service.go:302-311 | striking a transaction from the count removes exactly its own entries |
| Books.MirrorSums | internal/ledger/service.go:302-311 | mirrored entries sum to minus the originals, in total and for each account |
| Guarantees.ExactlyOnce | internal/ledger/service.go:419-442 | after a success for a key every later request with it changes nothing and gets the same status and body, or a conflict if it differs |
| Guarantees.NeverInProgress | internal/ledger/service.go:423-427 | no request meets a committed in-progress record, and a failed request leaves none |
| Guarantees.HistoryStays | migrations/0001_init.up.sql:129-145 | committed entries, transactions and stored responses never change |
| Guarantees.BooksBalance | migrations/0001_init.up.sql:95-127 | in every currency all balances sum to zero |
| Guarantees.NoWrap | internal/ledger/service.go:473-481 | negating and summing committed entries never wraps in int64, and the two entries cancel |
| Guarantees.BalanceIsNet | internal/ledger/service.go:233-238 | each balance is the net of the transactions that are neither reversals nor reversed; user balances are never negative |
| Guarantees.ReversedAtMostOnce | migrations/0001_init.up.sql:59-62 | reversals point to non-reversals and no transaction is reversed twice |
| Guarantees.ShowsReversal | internal/ledger/repo.go:259-309 | a transaction loads as its stored row with its own entries in order, reversed by exactly the transaction that names it |
| Guarantees.EveryRunBalances | internal/ledger/service.go:46-51 | the same, for every reachable state of the interleaved sessions |
| Guarantees.EveryRunIsExactlyOnce | internal/ledger/service.go:80-87 | the same, for the answers of every interleaved run |
| Repository.Sink | internal/ledger/service.go:450-452 | swapping an element down past every greater one puts it where insertion belongs |
| Repository.SortedEntriesByAccount | internal/ledger/service.go:446-455 | the in-place insertion sort computes the stable sort |
| Repository.SortThenSkip | internal/ledger/repo.go:39-47 | sorting and skipping accounts already seen gives the lock order |
| Repository.Tx.LockBalances | internal/ledger/repo.go:38-65 | locks in that order, returns every row as read, and names the first missing account |
| Repository.Tx.InsertEntries | internal/ledger/repo.go:111-128 | the first entry's constraint error, or all entries written |
| Repository.Tx.ApplyBalances | internal/ledger/repo.go:72-89 | the loop of updates leaves the rows, or the error, of the specification |
| Service.Write | internal/ledger/service.go:173-230 | the shared steps from header to completed record write exactly the sequential machine's rows, unless a failpoint fires |
| Service.ExecuteTransfer | internal/ledger/service.go:120-231 | executeTransfer is faithful to the sequential machine, and commits nothing past an injected failure |
| Service.ExecuteReverse | internal/ledger/service.go:268-367 | the part of Reverse after the claim is faithful to it, and commits nothing past an injected failure |
| Service.ReversalAmount | internal/ledger/service.go:473-481 | the loop sums the positive entries |
| Service.SumEntries | internal/ledger/model.go:77-83 | the loop gives the sum wrapped to 64 bits |
| Service.Ledger.Finish | internal/storage/postgres.go:117-142 | a transaction leaves either nothing or exactly its writes |
| Service.Ledger.Transfer | internal/ledger/service.go:52-116 | Transfer refines the sequential machine; a payment that would go through is stopped by an injected failure before COMMIT and leaves nothing, and one after COMMIT loses only a fresh response |
| Service.Ledger.Reverse | internal/ledger/service.go:239-380 | Reverse refines it too, and loses replayed responses as well |
| Service.Ledger.CreateAccount | internal/ledger/repo.go:147-215 | CreateAccount refines the sequential machine |
| RetryLoop.CommitsAtMostOnce | internal/storage/postgres.go:87-115 | at most one attempt commits, only the last one run; nil means exactly one did, and a lost acknowledgement is the only error after a commit |
| RetryLoop.SucceedsExactly | internal/storage/postgres.go:87-115 | nil is returned exactly when some attempt commits after only failures with one of the four transient server codes and completed waits |
| RetryLoop.RetriedExactly | internal/storage/postgres.go:87-162 | an attempt is followed by another exactly if it failed before or at COMMIT with code 40P01, 40001, 55P03 or 57014 and attempts, a delay and the context are left; anything else ends the loop with that very result |
| RetryLoop.CeilingDoubles | internal/storage/postgres.go:191-200 | for attempts 1 to 40 the shift is exact: the delay's ceiling is 5 ms doubled once per attempt, up to 500 ms |
| RetryLoop.PanicsExactly | internal/storage/postgres.go:191-200 | exactly the attempts whose shifted base wraps to a value the random draw cannot take |
| RetryLoop.Db.RunOnce | internal/storage/postgres.go:117-142 | one attempt keeps its writes only if COMMIT took effect, and never leaves a transaction open, panics included |
| RetryLoop.Db.InTx | internal/storage/postgres.go:87-115 | the loop ends as specified, enters the closure once for each attempt that began, and sleeps 5 ms plus a random share of the ceiling before each retry |
| Cache.CacheKeyIsInjective | internal/idempotency/cache.go:48 | distinct idempotency keys never share a cache key |
| Cache.CountersAreApart | internal/idempotency/cache.go:48 | no cached response shares a Redis key with a rate limiter's counter |
| Cache.RedisCache.Get | internal/idempotency/cache.go:51-78 | a hit is the stored entry; anything else is a miss |
| Handlers.TransparentExactly | internal/api/handlers.go:407-421 | one request: the cache never changes what is committed, and changes the answer exactly when it answers a command validation would refuse |
| Handlers.CacheIsTransparent | internal/api/handlers.go:407-441 | any run with any loss and delay: same ledger as without the cache, same answers exactly when no refused command hit, and every entry backed by a committed record |
| Handlers.InvalidCommandHits | internal/api/handlers.go:118-138 | after any run, once a command's response is cached an invalid command with its key is answered from the cache, and differently |
| Handlers.HitsSkipValidation | internal/api/handlers.go:118-122 | such a run from the empty ledger: two accounts, a payment, and a payment of nothing with the same key |
| Handlers.InvalidExactly | internal/ledger/model.go:136-173 | which requests are answered as invalid: no idempotency key or one over 255 characters, and, where the cache does not answer, each rule of Validate with its limits, a target that is no UUID and a reversal of a reversal |
| Handlers.EndpointsAreApart | internal/api/handlers.go:27-30 | requests to different endpoints never share a stored or cached response, whatever keys their clients send |
| Handlers.Server.ReplayFromCache | internal/api/handlers.go:407-421 | a hit is a conflict on another hash and the stored response on the same; a miss is nothing |
| Handlers.Server.HandleRequest | internal/api/handlers.go:98-138 | the handler's cache lookup, ledger call and cache fill keep the cache coherent and give the specified answer |
| ExternalWork.StaleExactly | internal/api/handlers.go:296-327 | the requests recorded as stale are exactly those whose committed claim found a finished row of their own hash with `claimed` still set by a rolled-back attempt |
| ExternalWork.OneWorker | internal/api/handlers.go:288-344 | over every run: a request at work on a claim that was not stale holds its own row and is the only one at work on its key |
| ExternalWork.WorksOnceExactly | internal/api/handlers.go:288-344 | over every run, whatever dies in between: work on a key succeeds at most once if and only if no request that made a stale claim has its work on the key succeed |
| ExternalWork.RepliesAgree | internal/api/handlers.go:316-343 | all responses given for a key are the stored one, unless a stale claim's work succeeded |
| ExternalWork.NeverAgain | internal/api/handlers.go:338-343 | once work on a key has succeeded, even if the process died before completing, only a request with a stale claim is ever at it again, and a claim goes to work exactly if it is stale |
| ExternalWork.CompletedStays | internal/idempotency/record.go:127-156 | over every run a completed record is never withdrawn, and its response changes only if a stale claim's work succeeded |
| ExternalWork.RetriedClaimWorksTwice | internal/api/handlers.go:296-328 | the run in which a claim rolled back at COMMIT and retried makes the work run twice |
| ExternalWork.RunExternalIdempotent | internal/api/handlers.go:288-344 | one request alone, with any number of retried claims: when it works, what it leaves, what it answers |
| Outbox.RunKeepsInv | internal/outbox/repo.go:43-116 | over any run of stale and crashed workers: publishing means claimed, claimable rows have attempts left and dead letters none, messages carry existing event IDs, published rows have a message |
| Outbox.CheckGuardsPublished | migrations/0001_init.up.sql:216 | MarkFailed leaves a row alone exactly when it is published, because the CHECK refuses the update |
| Outbox.PublishedIsFinal | internal/outbox/repo.go:84-116 | over any run a published row never changes, and a dead letter can only become published |
| Outbox.PublishedWhen | internal/outbox/repo.go:84-97 | over any run a published row keeps the time it was published, with one attempt more than before |
| Outbox.ClaimsAreApart | internal/outbox/repo.go:43-62 | two claims of a row with no mark between them are more than the TTL apart |
| Outbox.ReclaimedEarlyExactly | internal/outbox/repo.go:43-116 | a row claimed once can be claimed again within the TTL if and only if the last thing done to it is a failure mark that left it pending and whose delay has run out |
| Outbox.StaleMarkReleases | internal/outbox/repo.go:99-116 | the run in which an expired worker's late failure lets a third worker claim a row that a second worker claimed less than the TTL ago |
| Publisher.BackoffBounds | internal/outbox/publisher.go:206-220 | every delay is between half the base, or the cap if lower, and both the cap and the base doubled once per earlier attempt |
| Publisher.BackoffReaches | internal/outbox/publisher.go:214-220 | the jitter is full: every delay between half the base and the ceiling has a draw that gives it |
| Publisher.CeilingDoubles | internal/outbox/publisher.go:206-213 | the ceiling starts at the base and doubles until the cap |
| Publisher.DueIdsAreDue | internal/outbox/repo.go:46-53 | a claim takes at most the limit of due unlocked rows, the oldest first, and all of them if the limit is not met |
| Publisher.OutcomeWorks | internal/outbox/publisher.go:99-159 | each recorded outcome takes one attempt, or all a row had, off the work left |
| Publisher.NextSettles | internal/outbox/publisher.go:99-159 | what each outcome leaves of a row: published now, due exactly from the backoff of its next attempt on, dead with its attempts used up, or unchanged if nothing was recorded |
| Publisher.DrainedRow | internal/outbox/publisher.go:138-159 | of a drained row the table recorded either one success, and it is published, or exactly the failures it had left, and it is dead |
| Publisher.OutboxPublisher.Claim | internal/outbox/repo.go:43-77 | marks exactly the claimed batch as publishing |
| Publisher.OutboxPublisher.MarkFailed | internal/outbox/repo.go:99-116 | the unguarded update, refused by the CHECK on a published row |
| Publisher.OutboxPublisher.Backlog | internal/outbox/repo.go:119-127 | counts the rows still to publish |
| Publisher.OutboxPublisher.PublishOne | internal/outbox/publisher.go:99-136 | each outcome's row, message and recorded mark; true only for an acknowledged mark, so a row may be published without it |
| Publisher.OutboxPublisher.PublishBatch | internal/outbox/publisher.go:85-94 | every record done has its outcome, in any order; the rest stays claimed; the new messages are exactly those sent, the recorded marks exactly those that took effect |
| Publisher.OutboxPublisher.RunOnce | internal/outbox/publisher.go:75-95 | one cycle: claim, publish, count |
| Publisher.OutboxPublisher.Drain | internal/outbox/publisher.go:47-71 | one worker with every outcome recorded empties the backlog within the work left, and every row stands as the failures and successes the table recorded for it since the start say |
| Replay.ListedMatches | internal/outbox/repo.go:148-157 | the listing takes, in table order, the first `limit` rows of the transaction and time range asked for, or all of them |
| Replay.ReplayKeepsEvents | internal/outbox/replay.go:97-155 | every replayed message is a listed row's event with its ID, topic, headers and content unchanged, marked in payload and headers as that row of this replay |
| Replay.ReplayIsComplete | internal/outbox/replay.go:97-134 | when the broker takes every message each listed row is republished once, in listing order, marked with its position |
| Replay.SentExactly | internal/outbox/replay.go:103-133 | a message goes out for exactly the records that decode and whose publish did not fail outright, and only acknowledged ones are counted |
| Replay.Replayer.RepublishAll | internal/outbox/replay.go:97-139 | the loop's counters add up, and the topic gains exactly the replayed messages |
| Replay.Replayer.Replay | internal/outbox/replay.go:73-140 | refuses exactly requests without a selection, with a range backwards or a limit outside 0 to 10000, and fails exactly when the listing query does, publishing nothing; otherwise the result and topic are those of republishing the whole listing, of 1000 rows if no limit is given, and a dry run publishes nothing |
| Pipeline.EventsConserved | internal/ledger/service.go:382-415 | transactions and outbox rows correspond one to one and each row tells its transaction's entries, kind and amount; every message is some row's, every published row has one, every webhook row holds a committed event, marked as a replay only if some message of it is |
| Pipeline.CommitIsInsert | internal/ledger/service.go:382-415 | to the outbox machine a command is nothing, or the insertion of the one pending row of its event |
| Pipeline.PipelineLeavesLedger | internal/outbox/publisher.go:19-22 | publishing, replaying and delivering have no write to the ledger's tables, so it is what the committed calls alone make it |
| Pipeline.SessionsAreCommits | internal/ledger/service.go:70-95 | every store the interleaved sessions reach is that of valid calls with new UUIDs issued one after another |
| Pipeline.CommitsAreSessions | internal/ledger/service.go:70-95 | and any calls so issued are answered in that order by some run of the sessions |
| Webhook.RowIsFirst | internal/webhook/worker.go:54-103 | a row exists exactly when some handling of its event reached its endpoint, and keeps the first such payload |
| Webhook.SameAsOnceExactly | internal/webhook/worker.go:54-103 | the rows equal those of the first occurrences handled cleanly if and only if every event settled with its first payload at every endpoint |
| Webhook.RedeliverySettles | internal/webhook/worker.go:74-91 | redelivery of the same message after every error gives that |
| Webhook.ReplayAfterError | internal/webhook/worker.go:80-103 | an original that fails midway and then its replay leave two payloads |
| Webhook.Consumer.HandleEvent | internal/webhook/worker.go:54-103 | the loop over endpoints, its errors, and malformed messages discarded; each endpoint reached is a new row or one duplicate counted |
| Delivery.TerminalStaysExactly | internal/webhook/store.go:88-119 | for any number of loops: a delivered or dead row is unchanged at the end of a run if and only if no failure of it, and no delivery of it while dead, was recorded since |
| Delivery.RunKeepsInv | internal/webhook/store.go:86-119 | while no two loops hold the same row, pending rows have attempts left, dead letters have used exactly the maximum, and held rows are pending |
| Delivery.TerminalStays | internal/webhook/worker.go:128-189 | while no two loops hold the same row, delivered and dead-letter rows never change |
| Delivery.OneLoopStays | internal/webhook/worker.go:105-189 | so both hold with one delivery loop, over any run |
| Delivery.DueExactly | internal/webhook/store.go:59-119 | over any run a loop can take up a row at once after it was enqueued, after a failure with attempts left exactly when the delay has run out, and never after a delivery or the last attempt |
| Delivery.FirstDeliveryStays | internal/webhook/store.go:86-95 | for any number of loops the time of the first recorded delivery is kept, whatever is recorded later |
| Delivery.TwoLoopsUndoDelivery | internal/webhook/store.go:59-69 | with two loops and any failure delay a delivered row goes back to pending, or to dead letter |
| Delivery.DeliveryLoop.DeliverOnce | internal/webhook/worker.go:128-143 | one pass leaves each row of the batch delivered now, due again exactly when the backoff of its next attempt has passed, or dead with its attempts used up; it counts the deliveries acknowledged and leaves terminal rows alone |
| Pagination.PagesAreExact | internal/ledger/repo.go:311-364 | while entries are added between fetches, following the cursor to the end returns each entry of the first fetch exactly once and none twice |
| Pagination.WalkDescends | internal/ledger/repo.go:335-341 | the whole walk strictly descends |
| Pagination.PagesConcatenate | internal/ledger/repo.go:311-364 | over a fixed table the pages concatenate to the descending list and the walk ends |
| Pagination.AllRest | internal/ledger/repo.go:335-341 | without a cursor that list is the whole table |
| Pagination.CursorExactly | internal/ledger/repo.go:335-341 | which entries each cursor leaves: the strictly older ones, and with a cursor that has no ID none of its own instant |
| Pagination.ListEntries | internal/ledger/repo.go:313-364 | the method fetches the page of the specification, as many of the remaining entries as asked for or 100 if that is not in 1 to 500, or reports the missing account, the cursor that does not decode, or the database error for an ID that is not a UUID |
| Reconciliation.OkExactly | internal/reconciliation/reconcile.go:39-128 | a report is OK if and only if every balance equals its entry sum and every transaction balances |
| Reconciliation.ReportExactly | internal/reconciliation/reconcile.go:70-112 | a report names exactly the accounts whose balance is not their entry sum, with both figures, and exactly the transactions with fewer than two entries or a sum that is not zero |
| Reconciliation.LiveIsOk | internal/reconciliation/reconcile.go:54-112 | run against concurrent payments, each query on its own snapshot, every sum scans and the report is always OK |
| Reconciliation.DeltaExactly | internal/reconciliation/reconcile.go:76-79 | the reported difference is exact if and only if it fits in 64 bits |
| Reconciliation.Run | internal/reconciliation/reconcile.go:54-128 | fails exactly when a query fails or a delivered sum does not fit, whichever comes first, and reports truthfully otherwise |
| RateLimit.WindowAllows | internal/api/ratelimit.go:41-59 | in an aligned window the first `limit` requests of a client that Redis counted are allowed, and beyond them only requests Redis gave no reply to |
| RateLimit.IntervalAllows | internal/api/ratelimit.go:41-59 | at most twice the limit in any half-open interval one window long, besides requests Redis gave no reply to |
| RateLimit.BoundIsTight | internal/api/ratelimit.go:41-59 | bursts on both sides of an edge reach twice the limit |
| RateLimit.Limiter.Allow | internal/api/ratelimit.go:34-60 | counters expiring after two windows never change an answer; without a reply everything is allowed, and a request whose reply was lost stays counted |
| Migrations.LoadMigrations | internal/storage/migrate.go:35-90 | a complete, strictly ascending list, or failure exactly on a misnamed file or a missing script |
| Migrations.LastFileWins | internal/storage/migrate.go:46-76 | each script of a version is that of its last file in that direction, and the name that of the last in either |
| Migrations.UpKeepsPrefix | internal/storage/migrate.go:108-126 | stopping anywhere, MigrateUp takes a prefix of the version list to a longer one |
| Migrations.DownKeepsPrefix | internal/storage/migrate.go:143-164 | stopping anywhere, MigrateDown takes it to a shorter one |
| Migrations.UpUndoesDown | internal/storage/migrate.go:95-165 | from a full schema, MigrateUp after MigrateDown reapplies exactly the reverted versions, reversed, with a version reverted but unreported first |
| Migrations.Migrator.WithTx | internal/storage/migrate.go:202-212 | script and bookkeeping row change together or not at all, also when COMMIT takes effect and its reply is lost |
| Migrations.Migrator.MigrateUp | internal/storage/migrate.go:95-127 | runs the missing versions in order up to the first failure and keeps the applied set a prefix; the report lacks at most the version whose commit was not acknowledged |
| Migrations.Migrator.MigrateDown | internal/storage/migrate.go:130-165 | reverts the newest versions in order, all of them when steps is not positive, with the same report |

## Left out

* Account IDs as text: an ID is its rank in byte order, the order the lock and update sequences use; the tests `Validate` makes of the ID's pattern and of the kind's text are one boolean of the command.
* Uniqueness of generated UUIDs: a call's transaction and event IDs are assumed new when its session begins.
* Entry IDs, timestamps and the correlation ID on ledger rows; the response body is the value it was rendered from, not its JSON bytes.
* The KEY SHARE locks of foreign keys, which do not conflict with the row locks modelled; `lock_timeout` is a move that aborts or retries a session.
* `sync_balance_overdraft`: nothing in the service updates an account.
* The interleaving of other sessions inside one call of a class method: the classes run one request alone, and the machines hold the interleavings.
* Service.Ledger.Attempt: does not model InTx's retries inside one call; RetryLoop holds the loop and Machine the retried session.
* Publisher.OutboxPublisher.Drain: does not model several workers, because claims may then overlap and outcomes be recorded twice; Outbox holds those runs.
* Outbox claim exclusivity across stale marks, webhook exclusivity across replicas and the order in which workers publish: the code does not give them.
* The consumer's redelivery after an error: it fetches on, and a later commit on the partition passes the failed message, so no claim is made that every published event reaches a delivery row.
* The dead-letter topic, which gets one best-effort message.
* The other fields of an event's data (kind, currency, accounts, description, reference, reason), which repeat the transaction row and the command.
* Delivery.DeliveryLoop.DeliverOnce: takes the batch as read; the order and size of the query that reads it are not modelled.
* Publisher.BackoffBounds: computes over real numbers, because rounding of floating point is not the point; the random draw is a parameter.
* Randomness and time in general: draws, clock readings and failures are parameters.
* The shipped migration script contains its own BEGIN and COMMIT; the runner is modelled on plain scripts.
* Migrations.LoadMigrations: does not model the parsing of file names; a file arrives cut at its first underscore.
* RateLimit.Limiter.Allow: takes the pair of client and window as the Redis key, not its printed form, one clock for Redis and the service, and a pipeline that the Redis client sends once: its own retries may count a request twice.
* The replay endpoint's use of the cache: `handleReplay` also reads and fills it; `Handlers` covers the three ledger endpoints, `ExternalWork` the durable record of replay.
* A nil limiter or disabled limit, which allows everything.
* HTTP, JSON, logging, metrics, configuration, signing, Kafka, Redis and driver internals.
