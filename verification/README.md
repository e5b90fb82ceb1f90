# Verification model of the durable-work pipeline and its neighbours

The repository ingests bank transactions, enriches them in the background, publishes events about
them, and turns those events into alerts. This project models that pipeline as one step system, in
which every step is one database transaction, one broker action, or one move of the environment,
and proves what holds in every reachable state. Beside it stand the small state machines and query
loops the services rely on: token buckets, the gateway limiter, the circuit breaker, keyset
pagination, trend windows, CSV imports, and the gate that decides whether model text may replace a
computed draft.

Check everything with `dafny verify dfyconfig.toml`.

## How the model is built

Code that changes state is an imperative class or method (`WorkRepository`, `TransactionsService`,
`TransactionWorkers`, `KafkaEventConsumer`, `NotificationHandler`, `CircuitBreaker`, the limiters,
the CSV parser, the trend and pagination loops). Each method is proved equal to a function of the old state,
and those functions are the steps of the step systems about which the lemmas speak.

| modules | part of the system |
|---|---|
| `Work`, `Leases`, `Fifo` | durable work tables, leases over arbitrary runs, outbox order |
| `Store`, `Ledger`, `Service`, `Cleanup`, `Seeding` | the database, ingestion, corrections, demo data |
| `Enrichment`, `Workers` | categorization jobs and the two worker loops |
| `Consumers`, `ConsumerLoop`, `LateCommits` | consumer group, epochs, offset commits |
| `Notifications`, `Handlers`, `Delivery`, `TwoConsumers` | rules, stored alerts, deliveries |
| `Pipeline`, `PipelineSteps`, `EndToEnd`, `Provenance`, `PublicationOrder` | all of it together |
| `TokenBucket`, `Gateway`, `Breaker`, `Categorizer` | limiters and the breaker |
| `Pagination`, `Periods`, `Trends`, `Imports` | query and parsing loops |
| `Decimals`, `Regex`, `Figures`, `Grounding`, `Anchors`, `Rewriting` | the rewrite gate |

The environment is adversarial: workers stop anywhere, leases run out, stale workers resume, a
publish lands and reports failure, handlers fail at any statement, commits are applied and reported
failed, offset commits that were given up on still land later, members crash and partitions move. It is assumed that identifiers and lease tokens are
never reused, that database transactions are atomic, that a claim (`SKIP LOCKED` and `UPDATE`) is
one atomic statement, that a consumer's position starts at the committed offset of each partition
it is assigned, that no record is delivered between a revocation and the next assignment, that a
restarted consumer rejoins in a later generation than its predecessor's, that the broker applies
offset commits of the current generation only, and that nobody resets `attempts` or
`completed_at` by hand. Identifiers are integers standing for their rank in string order; instants
are microseconds; money is in hundredths; scores, confidences and bucket levels are exact reals.

## What the proofs found

- Outbox order depends on insertion order, which the code does not enforce: `created_at` is a
  client-side default (libs/db/models.py:191), so two workers can commit in the opposite order.
  `Fifo.InsertKeepsOrderIff` gives the exact condition and `Fifo.ConcurrentInsertsReorder` a run
  that violates it. What needs no such condition is proved without it.
- Lease expiry protects later claims only up to the skew of the claimers' clocks:
  `Leases.LaterClaimAfterExpiry` has the bound and `Leases.SkewedClocksBreakIt` a run that meets it.
- An offset commit that a consumer gave up on can land after later commits of the same generation
  and move the offset back. `EndToEnd.OffsetsNeverDecreaseIff` shows that nothing else can, and
  `LateCommits.LateCommitMovesBack` is such a run. No record is lost by it.
- With more than one consumer a handler can return while an alert of its user and transaction is
  undelivered: one that another consumer stored since it looked. `Delivery.ReturnMeansDelivered`
  has the exact condition, `TwoConsumers.FirstReturnsTooEarly` a run from an empty ledger.
- The demo generator reads balances without a lock, so an ingest committing meanwhile is lost from
  the balance: `Ledger.SeedConservesIff` and `Ledger.SeedRaceLosesAnIngest`.
- A shared bucket whose burst takes more than an hour to refill is refilled early by key expiry:
  `TokenBucket.ExpiryInvisibleIff` and `TokenBucket.WindowBoundIff`. The services never configure
  such a burst.
- A breaker threshold below one acts as one (`Breaker.AllowsIffHistoryDoes`), and on a clock that
  runs back only the half-open state deviates (`Breaker.AllowsOnAnyClock`).
- Trend windows add up for every ledger exactly when the latest period starts no later than one
  microsecond after the reference, which can fail east of UTC (`Trends.TrendsConserveIff`,
  `Trends.EastOfUtcStartsLate`): `month_start` and `week_start` replace the time zone instead of
  converting to it. The trends route only ever passes a UTC reference, and the summary converts
  its reference first, so its two windows always add up (`Trends.BuildSummary`).
- In the rewrite gate a negative zero differs from zero, and figures of more than 28 significant
  digits compare after rounding: `Figures.FiguresAgreeIff`, `Decimals.ZerosDiffer`,
  `Decimals.LongNumbersAgree`.

## Model

| member | source | states |
|---|---|---|
| EndToEnd.ExactlyTheDeservedAlerts | services/notifications/handlers.py:70-121 | in every reachable state alerts are addressed to their account's owner, no transaction has two alerts of the large or of the anomaly kind, and none is undeserved; once a transaction's job and outbox rows are completed and the log is committed, its large and anomaly alerts exist exactly when amount and stored score call for them |
| EndToEnd.NoRecordIsLost | libs/events/consumer.py:81-153 | over every run, late commits included, each record below a committed offset was handled to the end during that run or was unprocessable |
| EndToEnd.OffsetsNeverDecreaseIff | libs/events/consumer.py:148-153 | a partition's committed offset never decreases during a run exactly when no commit that was given up on lands behind later ones of its generation |
| LateCommits.LateCommitMovesBack | libs/events/consumer.py:88-105 | a run of one consumer in which one does, and the offset goes from 2 to 1 |
| EndToEnd.LedgerAlwaysConserved | services/transactions/service.py:67-106 | in every reachable state balances equal the sums of amounts and (account, external id) is unique, and every transaction that appeared during the run has its job and exactly one ingest audit |
| EndToEnd.EnrichmentIsAtomic | services/transactions/workers.py:100-130 | a completed job means categorized status, exactly one categorized row and an anomaly row exactly when the score reaches the threshold; an unfinished job means no row and no worker audit |
| EndToEnd.CorrectionStands | services/transactions/service.py:118-124 | after a transaction is categorized, no run without a further correction of it changes it, short of deleting it for good |
| Provenance.ScoresAreComputed | services/transactions/service.py:109-170 | over every run, a transaction has the score of the worker step that categorized it, and its category, source and time too unless a user corrected it; a score it did not start with comes from such a step |
| Provenance.LatestCorrectionStands | services/transactions/service.py:173-202 | after a correction and until the next one, the transaction has the category the user chose, as the user's, with score and first categorization time kept |
| Provenance.LedgerColumnsAreIngested | services/transactions/service.py:67-106 | over every run, the ledger columns of a transaction are those it started with or those of the payload it was ingested from, an empty currency being the account's |
| EndToEnd.EveryRunKeepsInv | services/transactions/workers.py:72-164 | the pipeline invariant holds after every run |
| PipelineSteps.StepOk | services/transactions/workers.py:72-164 | one step of anyone keeps ledger, enrichment, log, group, alert and acknowledgement invariants together |
| PublicationOrder.FirstPublicationsFollowOutboxOrder | libs/db/work.py:40-52 | with ordered insertion, every record of a partition is preceded in the log by all outbox rows that sort before it, whatever stale workers append |
| PublicationOrder.CompletedRowsArePublished | services/transactions/workers.py:148-164 | every completed outbox row is in the log, on its key's partition, under its own event id and payload |
| PublicationOrder.CompletedRowsWereAcknowledged | services/transactions/workers.py:148-164 | over every run, each completed outbox row had a publish acknowledged during it |
| Delivery.ReturnMeansDelivered | services/notifications/handlers.py:91-121 | with any number of consumers, a handler that returns has every alert it found delivered, nothing was sent that was not stored, and all alerts of its user and transaction are delivered exactly when those stored since it looked are |
| TwoConsumers.FirstReturnsTooEarly | services/notifications/handlers.py:91-121 | a run in which a second consumer stored one meanwhile and the first returns with it undelivered |
| Delivery.SendsAreAccounted | services/notifications/handlers.py:114-121 | with one consumer an alert is sent at most once more than runs failed between sending and marking it |
| Delivery.SerialReturnMeansAllDelivered | services/notifications/handlers.py:91-121 | with one consumer a handler returns only when every stored alert of its user and transaction is delivered |
| Work.WorkRepository.Claim | libs/db/work.py:28-76 | picks the first claimable row, due and neither leased nor locked by others, leases it and counts the attempt; returns nothing exactly when no row is claimable |
| Work.WorkRepository.CheckOwns | libs/db/work.py:78-91 | true exactly for the row's current token, unfinished and unexpired |
| Work.WorkRepository.Complete | libs/db/work.py:93-101 | completes and releases the row of the current token, and nothing else |
| Work.WorkRepository.Retry | libs/db/work.py:103-118 | releases an unfinished row of the current token with the capped backoff, and nothing else |
| Work.FirstOf | libs/db/work.py:53-59 | every non-empty set of rows has a first one in (created_at, id) order |
| Leases.ApplyKeepsInv | libs/db/work.py:28-118 | inserts, claims, completions, retries and deletes keep the lease invariant |
| Leases.RunKeeps | libs/db/work.py:28-118 | every run keeps it, completed rows stay completed, and issued claims are never rewritten |
| Leases.OwnerIsNewest | libs/db/work.py:78-91 | only the newest claim of a row can own it, before its expiry and while the row is unfinished, so at most one claim owns |
| Leases.Fenced | services/transactions/workers.py:100-103 | a superseded or released claim, or one of a finished row, never owns again, and none owns past its expiry |
| Leases.LaterClaimAfterExpiry | libs/db/work.py:33-38 | a later claim is made at or past the earlier one's expiry, up to clock skew, unless the earlier was released |
| Leases.SkewedClocksBreakIt | libs/db/work.py:31-38 | for every skew up to a lease some run reaches that bound |
| Leases.ClaimsBounded | libs/db/work.py:35-35 | any run makes at most ten claims per row ever inserted |
| Leases.Progress | libs/db/work.py:33-59 | past all availability and lease times a claim succeeds exactly when some partition head is unparked |
| Leases.PartitionHasHead | libs/db/work.py:40-52 | a partition with an unfinished row has a head: its oldest unfinished row |
| Leases.BackoffGrows | libs/db/work.py:111-112 | retry delays never shrink with attempts and lie between one second and a minute |
| Leases.NextClaimWaits | libs/db/work.py:36-36 | over every run, the next claim of a row given back at its k-th claim comes at least 2, 4, 8, 16 and 32 seconds later for k from 1 to 5 and 60 seconds later from 6 on |
| Leases.BackoffHolds | libs/db/work.py:103-118 | and until that claim the row is claimable exactly from the end of this pause on, with fewer than ten claims made and none before it in its partition |
| Leases.FirstClaimWaits | libs/db/work.py:33-38 | over every run, a row is never claimed before the time it was inserted for |
| Leases.RetryGivesBack | libs/db/work.py:103-118 | the row given back is free, due after its pause, with the first 80 characters of the error; nothing else changes |
| Leases.CompleteFinishes | libs/db/work.py:93-101 | the completed row is finished, free and without an error; nothing else changes |
| Fifo.InsertKeepsOrderIff | libs/db/models.py:191-191 | an insert keeps the outbox order exactly when no new row sorts before a claimed row of its partition |
| Fifo.ConcurrentInsertsReorder | libs/db/models.py:191-191 | two workers committing in the opposite order of their stamps break the order |
| Fifo.OutboxFifo | libs/db/work.py:40-52 | in ordered runs finished rows are a prefix of their partition, a leased row has all predecessors finished, and a partition has at most one lease |
| Fifo.UnfinishedStopsLaterRows | libs/db/work.py:40-52 | without any insertion hypothesis, no later row of a partition is claimed while a row is unfinished |
| Ledger.LedgerStepKeeps | services/transactions/service.py:67-106 | conservation and unique external ids survive every interleaving of open sessions, corrections and cleanup, and every transaction a step makes visible has its job and exactly one ingest audit |
| Ledger.CleanupKeeps | scripts/seed.py:106-159 | demo cleanup keeps them too, deleting rows and adjusting balances together |
| Ledger.SeedConservesIff | scripts/seed.py:162-287 | seeding conserves the ledger exactly when every balance it rewrites is still the one it read |
| Ledger.SeedRaceLosesAnIngest | scripts/seed.py:162-287 | an interleaving in which it does not: an ingest into the credit account commits before the generator writes the outlier row and both balances |
| Cleanup.CleanupRemovesExactly | scripts/seed.py:106-159 | gone are exactly the user's transactions with the generator's external ids, with their jobs and outbox rows; each balance falls by what left it, emptied demo accounts are tidied, and everything else is unchanged |
| Cleanup.GeneratedIff | scripts/seed.py:132-136 | the generator's ids are `seed_N_M`, `seed_N_payroll_M` and `seed_N_outlier` for numerals N and M, and no others |
| Imports.ImportedRowsSurviveCleanup | scripts/seed.py:132-136 | no row imported under a derived identifier is ever removed by cleanup |
| Seeding.ClearDemoTransactions | scripts/seed.py:106-159 | the cleanup loops equal the cleanup step: exactly the rows with the generator's ids gone, each balance reduced by exactly their sum, empty demo accounts tidied, all other rows unchanged |
| Seeding.Deltas | scripts/seed.py:138-140 | the accumulated differences are the sums of the generated amounts per account |
| Service.TransactionsService.Ingest | services/transactions/service.py:67-106 | inside the open transaction adds row and balance change once, or names the existing row on replay, or reports not found |
| Service.TransactionsService.CreateTransaction | services/transactions/routes.py:70-84 | after the commit exactly one transaction is new, with its balance change, audit entry and job; a known external id changes nothing |
| Service.TransactionsService.ImportTransactions | services/transactions/routes.py:47-67 | a whole batch becomes visible in one commit, with exact counts and the id of every row's transaction |
| Service.ReimportAddsNothing | services/transactions/routes.py:47-67 | importing the same rows again creates nothing and changes no table |
| Service.TransactionsService.RecategorizeByUser | services/transactions/service.py:173-202 | for the owner sets category, user source, status and, the first time, the time, column by column, with one audit entry; else changes nothing |
| Service.TransactionsService.CommitEnrichment | services/transactions/workers.py:100-130 | under a held lease stores the worker's category, source, score and time in a transaction not categorized yet, announces the transaction as it then stands, flags exactly a score at the threshold, and completes the job, all in one step; otherwise changes nothing |
| Service.LookingBeforeIsEnough | services/transactions/workers.py:113-128 | checking for an existing row before each insert equals checking once before all of them |
| Enrichment.WorkStepKeeps | services/transactions/workers.py:72-164 | every worker step keeps ledger and enrichment invariants |
| Enrichment.LedgerStepKeepsEnrichment | services/transactions/service.py:67-106 | so do ingestion, corrections and cleanup |
| Enrichment.WorkersRespectCategorized | services/transactions/service.py:123-124 | no worker step changes a categorized transaction |
| Enrichment.UnfinishedLeavesNoTrace | services/transactions/workers.py:100-130 | while a job is unfinished no event and no worker audit exists for its transaction |
| Enrichment.EnrichEvents | services/transactions/service.py:215-258 | the events of an enrichment are the categorized one, plus the anomaly one exactly when the score reaches the threshold |
| Enrichment.CommitRecords | services/transactions/service.py:109-258 | the same for the worker step of every reachable database, with the event fields, the due outbox rows and the audit entry |
| Workers.TransactionWorkers.PublishOnce | services/transactions/workers.py:135-164 | publishes the claimed row's own event, completes only behind an acknowledgement under a held lease, else gives the claim back |
| Workers.TransactionWorkers.CategorizeOnce | services/transactions/workers.py:72-133 | whatever others commit meanwhile, classifies with fallback to the rules and commits enrichment, events and completion together, or leaves the job to be retried |
| Workers.CompletedMeansAcknowledged | services/transactions/workers.py:148-163 | a pass completes its row exactly when the publish was acknowledged, the commit took effect and the lease was still held |
| Workers.PassLeaves | services/transactions/workers.py:135-164 | the exact state of the claimed row after a publishing pass: finished, unchanged because its lease was lost, or given back with its pause |
| Workers.JobPassLeaves | services/transactions/workers.py:72-133 | the same for a job after a categorization pass |
| Workers.CompletionSurvivesRetry | libs/db/work.py:103-109 | a completion whose commit raised is not undone by the retry that follows |
| Consumers.GroupStepKeeps | libs/events/consumer.py:48-153 | crashes, revocations, rebalances, lost, ambiguous and late commits keep the group invariant, and exactly a late commit that lands behind lowers a committed offset |
| ConsumerLoop.InterferenceKeeps | libs/events/consumer.py:48-54 | whatever others and the rebalance callbacks do, the record in hand stays in hand and no progress is lost |
| ConsumerLoop.KafkaEventConsumer.Commit | libs/events/consumer.py:148-153 | succeeds exactly when the epoch is still the member's, the member is in the broker's generation, no rebalance overtakes the commit and the acknowledgement comes back; then the broker has exactly this record's successor, as it has when only the acknowledgement is lost |
| ConsumerLoop.KafkaEventConsumer.HandleMessage | libs/events/consumer.py:113-146 | true exactly when the record was handled or is unprocessable and its commit succeeds so; a handled or unprocessable record counts as done whatever becomes of its commit; otherwise the record stays in hand |
| ConsumerLoop.KafkaEventConsumer.HoldRecord | libs/events/consumer.py:85-105 | ends with the record handled and committed exactly when some attempt succeeds while the assignment stands, lets it go exactly when the assignment is over before that, and delivers no other meanwhile |
| Notifications.EvaluateStores | services/notifications/rules.py:43-82 | whatever the month's spend, the alerts an event calls for end up stored |
| Notifications.StoredIffCalledFor | services/notifications/rules.py:43-105 | after an event each key is stored exactly when it was before or the event calls for it: large and anomaly alerts, and the budget alert exactly for a known spend at the limit in a named category |
| Notifications.StoreAllAdds | libs/db/repositories.py:294-322 | storing is idempotent by dedupe key: nothing stored is changed, each key is present once, and only new undelivered alerts are added |
| Handlers.NotificationHandler.CreateIfNew | libs/db/repositories.py:294-322 | inserts exactly when the key is new |
| Handlers.NotificationHandler.StoreAlerts | services/notifications/handlers.py:79-89 | the insert loop equals storing all alerts |
| Handlers.NotificationHandler.Deliver | services/notifications/handlers.py:114-121 | what is sent and what is marked, up to the first delivery that fails and according to how it fails; all of it when it returns normally |
| Handlers.NotificationHandler.Handle | services/notifications/handlers.py:70-121 | stores first, sends only stored pending alerts, and returns normally only when none of the user's and transaction's alerts is pending |
| Handlers.LoopMatchesSteps | services/notifications/handlers.py:116-121 | however its deliveries end, the loop and the pipeline's steps mark and send the same alerts |
| Handlers.SendsMatch | services/notifications/handlers.py:116-121 | successful deliveries send each listed alert exactly once and count no failure |
| TokenBucket.RedisServer.TakeTokens | libs/llm_client/rate_limit.py:18-48 | the script's effect, expiry and reply as functions of the stored hash |
| TokenBucket.TokenBucketRateLimiter.Acquire | libs/llm_client/rate_limit.py:77-96 | reply, failing open and failing closed, with a reply lost after the script ran |
| TokenBucket.InMemoryRateLimiter.Acquire | libs/llm_client/rate_limit.py:108-119 | the same for the in-memory bucket |
| TokenBucket.WindowBound | libs/llm_client/rate_limit.py:25-38 | while the key is not deleted, tokens admitted between two calls are at most capacity plus the refill between their clock readings, even when clocks run back in between |
| TokenBucket.WindowBoundIff | libs/llm_client/rate_limit.py:25-41 | with the key's expiry and forward clocks that bound holds over every history exactly when the burst is at most sixty minutes' refill |
| TokenBucket.LevelStaysInRange | libs/llm_client/rate_limit.py:32-38 | on a forward clock the level stays between empty and full |
| TokenBucket.BackwardClockLeavesDebt | libs/llm_client/rate_limit.py:32-32 | on a backward clock it need not |
| TokenBucket.ScriptAgreesWithMemory | libs/llm_client/rate_limit.py:102-119 | script and in-memory bucket admit the same calls of every forward history |
| TokenBucket.ExpiryInvisibleIff | libs/llm_client/rate_limit.py:41-41 | deleting the key after an idle hour changes no decision of any history exactly when the burst is at most sixty minutes' refill |
| TokenBucket.RetryAfterIsExact | libs/llm_client/rate_limit.py:43-46 | with only refusals in between, a request that fits the bucket is admitted after n whole seconds exactly when n is at least the script's hint |
| TokenBucket.BurstIsConfigured | libs/llm_client/rate_limit.py:71-71 | a fresh bucket admits at one instant its burst, or a minute's worth when the burst is absent or zero |
| TokenBucket.RateIsConfigured | libs/llm_client/rate_limit.py:71-75 | an empty bucket regains a minute's worth in a minute |
| TokenBucket.HintsAreClose | libs/llm_client/rate_limit.py:117-119 | the in-memory hint is the script's or one second more |
| TokenBucket.WaitingIsEnough | libs/llm_client/rate_limit.py:43-47 | having waited for either hint, the request is admitted |
| Gateway.UserRateLimiter.Acquire | services/gateway/rate_limit.py:55-74 | the shared bucket decides when it answers, the replica's own when not; no other key's buckets move |
| Gateway.UserRateLimiter.Check | services/gateway/rate_limit.py:76-85 | lets through or reports the hint of the (tier, user) bucket only |
| Gateway.KeysAreDistinct | services/gateway/rate_limit.py:78-78 | no two (tier, user) pairs share a key |
| Gateway.RateByPath | services/gateway/rate_limit.py:27-29 | requests whose path names the assistant or the insights summary spend the model's configured rate, all others the standard one |
| Gateway.KeysAreIsolated | services/gateway/rate_limit.py:55-85 | a key's callers are told what they would be told had no other key been used |
| Gateway.FlappingBound | services/gateway/rate_limit.py:60-74 | however Redis flaps, on forward clocks a replica lets through at most what two single buckets would, over any stretch of time, key expiry included |
| Gateway.StateStaysOk | services/gateway/rate_limit.py:55-74 | every steady run from nothing leaves a state the bound starts from |
| Gateway.FlappingBoundOnAnyClock | services/gateway/rate_limit.py:60-74 | the same on any clocks while the key does not expire, between the first and the last admission of each bucket |
| Breaker.AllowsIffHistoryDoes | libs/llm_client/breaker.py:31-58 | a request is allowed exactly when failures since the last success are below the threshold or the timeout since the last of them has passed |
| Breaker.AllowsOnAnyClock | libs/llm_client/breaker.py:31-43 | the exact condition when the clock may run back |
| Breaker.FieldsFollowHistory | libs/llm_client/breaker.py:52-58 | failures, opening time and state are determined by the history |
| Breaker.CircuitBreaker.State | libs/llm_client/breaker.py:31-40 | reading the state keeps the fields consistent and reports open exactly when the history refuses |
| Breaker.CircuitBreaker.AllowsRequest | libs/llm_client/breaker.py:42-43 | answers exactly what the history allows |
| Breaker.CircuitBreaker.RecordFailure | libs/llm_client/breaker.py:52-58 | keeps fields and history consistent |
| Categorizer.Parse | libs/llm_client/categorization.py:104-117 | accepts exactly the taxonomy's categories; a confidence is brought between 0 and 1, and a missing one is 0 |
| Categorizer.EntriesRead | libs/llm_client/categorization.py:47-54 | what was cached reads back; a missing confidence reads as 0, a missing category or unreadable confidence is an error |
| Categorizer.LLMCategorizer.Begin | libs/llm_client/categorization.py:45-65 | a cached entry as it is, whoever wrote it, or its error; else a refusal by breaker or limiter, or a request; only a miss asks the breaker, and a sound cache gives sound results |
| Categorizer.LLMCategorizer.Complete | libs/llm_client/categorization.py:69-97 | only an unreachable provider is a failure to the breaker, any payload is a success, only valid results are cached, and a sound cache stays sound |
| Categorizer.CutOffIffOutages | libs/llm_client/categorization.py:58-83 | however calls overlap, the provider is cut off exactly after threshold outages without a reply, for the timeout after the latest |
| Pagination.PageSplits | libs/db/repositories.py:148-174 | a page holds the first rows after its cursor and its next cursor splits off exactly the rest |
| Pagination.GetPeriodTransactions | web/src/api.ts:80-100 | on a changing ledger: strictly descending rows, each matched at some request, every row matching throughout among them or below the last row of a truncated answer, and truncated only with 1000 rows and more to come |
| Pagination.FixedLedger | web/src/api.ts:76-100 | on a fixed ledger the answer is the sorted list cut at 1000 rows, truncated exactly when more match |
| Pagination.GetFixedTransactions | web/src/api.ts:80-100 | the same for the loop itself |
| Pagination.OneOrder | libs/db/repositories.py:167-167 | a set of rows has one descending list |
| Pagination.NoRowTwice | libs/db/repositories.py:160-167 | no row appears twice |
| Pagination.RowsAreAsked | libs/db/repositories.py:137-167 | every returned row was matched by account, category, status and inclusive bounds, and none comes after a row it should precede |
| Pagination.AskedRowsMatch | libs/db/repositories.py:137-145 | every row asked for is one the pages draw from |
| Periods.StartIsLatest | services/insights/periods.py:8-28 | a period starts at the latest Monday or first of a month up to the reference's day |
| Periods.PreviousIsBoundary | services/insights/periods.py:31-35 | the comparison window starts exactly one week or one calendar month earlier, on a boundary |
| Periods.MonthLength | services/insights/periods.py:12-14 | consecutive firsts of months are a month's length apart, leap years included |
| Periods.Epoch | services/insights/periods.py:17-19 | the calendar is anchored: 1 January 1970 is day 719163, a Thursday |
| Trends.SpendByCategory | libs/db/repositories.py:208-241 | one group per category with any outflow, each with that category's total and number of outflows; the groups add up to the window's outflow |
| Trends.OneMoreInAnswers | libs/db/repositories.py:226-241 | one more transaction adds its amount and one to its category exactly when it is an outflow of the accounts, in the currency and within both bounds; any other changes no answer |
| Trends.BuildTrends | services/insights/service.py:130-164 | one point per window, oldest first, each with its window's outflow by category; the totals add up to the sum over the windows |
| Trends.BuildSummary | services/insights/service.py:67-127 | for a reference in any zone: the period's groups and total, the previous total and the change; the two totals are the covered range's outflow plus the outflow at the boundary |
| Periods.UtcKeepsInstant | services/insights/service.py:77-77 | converting a reference to UTC keeps its instant, across day and month ends |
| Trends.WindowsAreContiguous | services/insights/service.py:147-162 | windows share their boundary, strictly recede and start on period boundaries |
| Trends.SeriesAddsUp | services/insights/service.py:146-164 | the returned totals add up to the sum over the windows |
| Trends.TrendsConserveIff | services/insights/service.py:141-162 | on every ledger that sum is the whole range's outflow plus the outflow at each interior boundary, exactly when there is one window or the latest period starts in time |
| Trends.UtcStartsInTime | services/insights/periods.py:8-19 | a UTC reference always does |
| Trends.EastOfUtcStartsLate | services/insights/periods.py:8-9 | a reference east of UTC need not |
| Imports.ParseCsv | services/transactions/imports.py:14-61 | accepts exactly the good files, returning every record in order, and otherwise nothing |
| Imports.PayloadComesFrom | services/transactions/imports.py:32-51 | each part of a payload comes from its own column: amount, description and time, the currency or its default, the external id or a derived one, a plain date as its midnight |
| Imports.GoodHeaderIff | services/transactions/imports.py:18-31 | a header is good exactly when the three required names come once, the two optional ones at most once, and nothing else |
| Imports.BlankLinesDoNotCount | services/transactions/imports.py:32-36 | blank lines change neither records nor their numbers |
| Imports.DerivedIdsDiffer | services/transactions/imports.py:45-45 | derived identifiers of one file never collide |
| Imports.DerivedNeverRepeat | services/transactions/imports.py:58-60 | a file without its own identifiers never fails for duplicates |
| Imports.NothingElseConverts | services/transactions/imports.py:32-51 | a file has one result |
| Regex.CatIff | libs/llm_client/grounding.py:60-62 | the matcher's ends of a sequence are exactly those through some middle |
| Regex.StarIff | libs/llm_client/grounding.py:60-62 | those of a loop are stopping at once or one more round with progress |
| Regex.NothingEscapes | libs/llm_client/grounding.py:66-66 | every position where the expression matches lies in a reported match, and matches do not overlap |
| Decimals.PrintIsInjective | libs/llm_client/grounding.py:70-73 | two numbers print alike only when sign, coefficient and exponent agree |
| Decimals.RoundsToNearest | libs/llm_client/grounding.py:71-71 | a number of more than 28 digits is rounded to the nearest of 28, ties to even; any other stays |
| Decimals.StripIff | libs/llm_client/grounding.py:71-71 | normalised forms agree exactly when signs and magnitudes do |
| Decimals.CanonicalIff | libs/llm_client/grounding.py:70-73 | canonical texts agree exactly when signs and magnitudes after rounding to 28 digits do |
| Decimals.CanonicalIffValue | libs/llm_client/grounding.py:70-73 | for numbers other than zero of at most 28 significant digits: exactly when the values do |
| Figures.FigureIsWritten | libs/llm_client/grounding.py:16-16 | every full match of the number expression is a written figure |
| Figures.WrittenIsFigure | libs/llm_client/grounding.py:16-16 | every written figure is a full match |
| Figures.FiguresRead | libs/llm_client/grounding.py:68-73 | the decimal constructor never fails on a figure and reads the number it stands for |
| Figures.FiguresAgreeIff | libs/llm_client/grounding.py:64-75 | two figures have the same entry exactly when percent mark, sign and rounded magnitude agree |
| Figures.FiguresAgreeByValue | libs/llm_client/grounding.py:64-75 | for figures other than zero of at most 28 significant digits: exactly when value and percent mark agree |
| Grounding.SignatureOf | libs/llm_client/grounding.py:64-75 | the loop computes the signature |
| Grounding.CheckRewrite | libs/llm_client/grounding.py:27-77 | the gate's checks in order decide exactly the predicate ValidRewrite |
| Grounding.DraftAcceptsItself | libs/llm_client/grounding.py:27-33 | a stripped draft accepts itself exactly when it is not empty and within the length limit |
| Grounding.AcceptedTokensAgree | libs/llm_client/grounding.py:58-77 | an accepted text has the draft's tokens, entry for entry |
| Grounding.AcceptedFiguresAgree | libs/llm_client/grounding.py:58-77 | figures in the same place of the signature have the same value and percent mark |
| Grounding.NoFigureEscapes | libs/llm_client/grounding.py:60-77 | wherever a figure starts in an accepted text, its position lies in a token that agrees with the draft's |
| Anchors.NoAnchorEscapes | libs/llm_client/grounding.py:16-77 | every digit run, currency sign, code and name, comparison word and name of the facts, in an accepted text and in its draft, lies in a token that passes for the other's token in the same place |
| Anchors.EntriesAgreeIff | libs/llm_client/grounding.py:64-77 | two tokens pass for each other exactly when they are figures that say the same, words equal up to case, or a word spelled like a figure's canonical text |
| Anchors.NoNumberWordEscapes | libs/llm_client/grounding.py:22-32 | every spelled-out number of either text has the very same word in the same place of the other |
| Anchors.LongestNameTaken | libs/llm_client/grounding.py:58-62 | a token that starts where a name of the facts is spelled is the longest name spelled there |
| Grounding.SignaturesRead | libs/llm_client/grounding.py:64-75 | the gate never fails on a figure |
| Rewriting.SpendingSummarizer.Summarize | libs/llm_client/summarize.py:49-85 | for any cache, limiter and provider the result is the draft or passes the gate; says exactly which source is used and what is cached |
| Rewriting.Respond | libs/llm_client/assistant.py:34-60 | the same for the assistant, with the exact reason for falling back |
| Rewriting.ShownHasTheSignature | libs/llm_client/summarize.py:57-85 | whatever is shown instead of a stripped draft has the draft's signature |
| Rewriting.CachedTextStaysValid | libs/llm_client/summarize.py:77-85 | a text the gate accepted from the model is stored stripped and keeps the draft's signature |
| Rewriting.StripIs | libs/llm_client/grounding.py:30-30 | stripping drops white space from both ends, all of it, and nothing else |

## Left out

- HTTP routing, authentication, proxies, middleware, logging and metrics: plumbing over libraries.
- User interface and deployment; of the web client only the pagination loop is modelled.
- The provider adapter with its retries and prompts: a provider is an arbitrary result or failure.
- `classify` and `anomaly_score` are arbitrary: a classification and a score are parameters of a step.
- Merchants, alert messages and normalised descriptions: text that no modelled decision reads.
- `create_if_new` runs atomically here; two handlers inserting one key at once end, through the unique constraint, as a failed handler run.
- The category spend of a month is an arbitrary parameter of the budget rule, and so is the month in its key.
- Cancellation, shutdown and producer clean-up of the worker and consumer tasks.
- Order of the grouped spend query and of the pending-alert query: the claims hold for every order.
- Failed page requests of the pagination loop: the promise is rejected and nothing is returned.
- Cursor text: a cursor is the pair it encodes.
- Period labels, rounding of the summary's percentage, other currencies of a summary, currency majority and money formatting.
- CSV lexing, date parsing and the schema's field rules: a line is its cells, and the two library calls are arbitrary functions; identifiers of different files are not compared.
- Redis number formatting and floating-point rounding of levels, scores and confidences.
- Decimal exponents beyond the decimal context's limits, which no text within the length limit reaches.
- Regular-expression case folding and Unicode classes: an arbitrary classification of characters in which punctuation is not a digit.
- Wording of the fallback summary: the draft is a parameter.
- Decimal digits beyond 0 to 9 in the generator's external ids, which its pattern also accepts and the generator never writes.
- Delivery.SendsAreAccounted: stated for one consumer at a time, since two members may hold one record after a rebalance and each may send it.
- Delivery.SerialReturnMeansAllDelivered: stated for one consumer at a time; the exact condition for more is in ReturnMeansDelivered.
- ConsumerLoop.KafkaEventConsumer.HoldRecord: stated for a finite list of attempts, after which the record is still in hand; the loop itself has no bound.
- Gateway.FlappingBound: stated for clocks that run forward and agree between replicas and server; FlappingBoundOnAnyClock needs neither but excludes key expiry.
- TokenBucket.WindowBound: stated without key expiry; WindowBoundIff has it, on forward clocks.
- The demo generator's loops over random rows: only its commit is modelled, apart from the step system, for a first seeding beside concurrent ingests.
