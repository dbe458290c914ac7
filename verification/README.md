# Fleet: verified models of the gateway's stateful cores

Fleet is a gateway in front of a pool of language-model workers. These Dafny modules model the parts of
it that keep state or make decisions, and prove what those parts promise over every input, every run and
every interleaving.

- **The reliable queue.** `Streams` is one Redis stream with one consumer group: the entries, how many
  have been delivered, and the pending list with owner, time and delivery count. `RetryPolicy` and
  `WorkerPool` are the classes that issue commands against it, `JobDispatch` is what a job does to the
  balancer and the context, `QueueProtocol` is any number of processing and recovery loops whose commands
  interleave with each other, with time and with faults, and `Refinement` connects the two: a round of a
  loop that runs alone ends where the method ends. `Handouts` follows the delivery numbers through every run,
  `LeaseSafety` one entry whose hand-outs do not overlap, `Records` the results and dead letters of one
  entry and how many there are, and `Witnesses` holds the runs that show what fails.
- **Budgeted selection.** `Packing` is the greedy packer with skipping, `GreedyOrder` the same choice
  explained on the unordered items, `Selection` and `Memory` the policies on top, `Normalizing` the min-max
  scores. Scores and times are exact reals.
- **Context and admission.** `ContextStore` is the dictionary and its workflow index against a plain log;
  `Compression` and `CompressionRuns` fold old turns into summaries with other requests interleaved at the
  one await; `Gateway` is the measure-pick-record order of the synchronous routes and `Admission` the
  capacity rule over whole runs of requests, queued jobs and compressions.
- **Routing.** `CircuitBreaker` is the three-state machine against a predicate of its history,
  `LoadBalancer` the breakers and strategies, `Fairness` what the strategies share out.
- **Autoscaling.** `Autoscaler` is the static mode: two lists and the balancer's workers.

`Seqs` holds the sequence vocabulary, including Python's stable sort, and `ContextModels` the items.

Clocks, random ids, the answers of workers and of the summarizer, health checks and the queue depth are
parameters. Whole runs are sequences of events or actions; each theorem about them is for every such
sequence.

Some promises of the comments and documents are not what the code does. The models follow the code:

- HALF_OPEN is described as testing one request (router/circuit_breaker.py:9) but admits any number
  (`HalfOpenAdmitsAll`, `HalfOpenReached`).
- A job may be processed more often than `max_retries` allows: `_delivery_count` answers 0 for an entry that
  was acknowledged after the claim, and only that breaks the budget (`ProcessedWithinDecisions`,
  `LateAcknowledgement`, `BudgetHoldsIff`).
- A job may be both answered and dead-lettered: when a fault hits a task between storing its result and
  acknowledging it, even if every hand-out ends in time, or when the job is claimed while a task still holds
  it; otherwise not (`BothRecordsOnlyIf`, `BothRecordsIff`, `TornAnsweredAndBuried`,
  `OverlapAnsweredAndBuried`).
- A job may be dead-lettered twice, for the same two reasons: a fault between the dead letter and its
  acknowledgement, or a claim while held; otherwise at most once (`LettersBound`, `TwoLettersOnlyIf`,
  `StrandedTwice`, `OverlapTwice`).
- Reprocessing is called safe because it only overwrites the same result key (workers/worker_pool.py:66-72,
  docs/architecture.md:160). The result key is overwritten (`SettledExactly`), but each processing that gets
  a worker also records the job's turn again (`ReprocessingRecordsAgain`), and a job processed twice can
  overrun its worker (`StaleCountOverruns` with one request).
- A reclaim is meant to hand over every stale entry; it stops at the first page that claims nothing, so a
  stale entry behind 500 fresh ones in a row may be missed, and behind 999 always is (`ReclaimedAll`,
  `LongGapMisses`).
- Queued jobs are admitted by the token count of the time they were enqueued, which may be stale by the time
  they are dispatched (`StaleCountOverruns`).
- The capacity rule holds throughout a run exactly when every summary fits the room there is and what is
  left of its originals, and every queued job's turn the room there is (`WithinIff`). With one compression
  in flight per workflow and counts that cover the measurement it is enough that a summary weighs no more
  than its originals; nothing in the code keeps two compressions from overlapping, and then it is not
  (`WithinCapacityAlone`, `OverlapOverruns`).
- `tokens_saved` is called exact (context/compression.py:36-38); it is what the workflow's total changes by
  exactly when every original is still in the store at the end (`SavedIff`, `SavedInRunIff`); two overlapping
  compressions can report 0 saved while the total doubles (`OverlapOverruns`).
- An item whose id its workflow has already would be listed twice (`StoredIdListedTwice`); ids are random
  UUIDs.
- docs/context.md:101 says that compression is not wired into the live path; gateway/routes.py:139-158,
  196 and 227 wire it.

## Model

| member | source | states |
|---|---|---|
| QueueProtocol.NothingLost | workers/worker_pool.py:122-160 | over every run, faults anywhere, each enqueued entry is exactly one of undelivered, pending and acknowledged, and an acknowledged entry has a result written for its request or a dead letter with its payload |
| QueueProtocol.SettledForGood | job_queue/streams.py:66-67 | once acknowledged an entry is never pending again, and its result or dead letter stays on record, in every continuation of the run |
| QueueProtocol.DeadLettersSound | job_queue/retry.py:63-67 | every dead letter carries the payload of a delivered entry that was handed out more than `max_retries` times |
| QueueProtocol.NoEntryTwice | job_queue/retry.py:41-53 | no task ever holds an entry twice: what the pages of one reclaim add up to is strictly ascending, whatever others do between the pages |
| QueueProtocol.StepKeeps | workers/worker_pool.py:122-160 | every command of every loop, and every fault, keeps the ledger of entries, the dead letters' soundness and each loop's own state consistent |
| Handouts.ProcessedWithinDecisions | job_queue/retry.py:31-39 | over every run, timely or not, an entry reaches `_process_job` at most max(1, `max_retries`) times and once more for each triage that did not find it pending |
| Handouts.RetriedWithinBudget | job_queue/retry.py:63-69 | over every run, whoever asks: each of `recover`'s decisions to keep an entry is about another hand-out of it, and at most max(0, `max_retries` - 1) of them find it pending |
| Handouts.KeptWhilePending | job_queue/retry.py:63-69 | `recover` has decided to keep an entry that nobody has acknowledged at most that often, counting every decision |
| Handouts.TriageEnds | job_queue/retry.py:63-67 | over every run, an entry that has had those retries is acknowledged, with a result or a dead letter on record, by the next triage of it that no fault ends, whatever happens between its commands |
| Witnesses.BudgetHoldsIff | job_queue/retry.py:37-39 | the processing budget holds in every run if and only if `max_retries` is negative |
| Witnesses.LateAcknowledgement | workers/worker_pool.py:131-133 | for every `max_retries` from 0 on and every idle time, a run that processes an entry once more than the budget |
| LeaseSafety.OneHolderIff | job_queue/retry.py:41-53 | throughout a run an entry has at most one holder at a time if and only if it is never claimed while a task holds it |
| LeaseSafety.OneHolder | job_queue/retry.py:41-53 | such an entry is held once, as the hand-out that the pending list records |
| LeaseSafety.ProcessedWithinBudget | job_queue/retry.py:55-71 | such an entry reaches `_process_job` at most max(1, `max_retries`) times |
| LeaseSafety.TimelyNeverOverlaps | job_queue/retry.py:41-53 | an entry whose own hand-outs all end before `min_idle_ms` is never claimed while held, whatever becomes of other entries |
| Records.BothRecordsOnlyIf | workers/worker_pool.py:131-133 | over every run an entry has both a result and a dead letter only if a fault hit a task between SETEX and XACK of it, or it was claimed while held |
| Records.BothRecordsIff | workers/worker_pool.py:150-153 | an entry with a dead letter that was never claimed while held has a result too if and only if such a fault hit it |
| Records.TimelyBothRecordsIff | job_queue/retry.py:63-67 | the same for every entry whose hand-outs all end in time |
| Records.LettersBound | job_queue/retry.py:64-66 | an entry never claimed while held has as many dead letters as faults hit its task between XADD and XACK, or one more |
| Records.TwoLettersOnlyIf | job_queue/retry.py:64-66 | over every run an entry has two dead letters only after such a fault or a claim while held |
| Records.ResultsSound | workers/worker_pool.py:118-120 | every result is stored under the request of its own entry |
| Witnesses.TornAnsweredAndBuried | workers/worker_pool.py:132-133 | for every budget and positive idle time, a run with both records in which every hand-out ends in time |
| Witnesses.OverlapAnsweredAndBuried | job_queue/retry.py:63-67 | for every budget and idle time, a run with both records in which no fault separates a result from its acknowledgement |
| Witnesses.StrandedTwice | job_queue/retry.py:64-66 | for every budget and positive idle time, a run with two dead letters of one entry in which every hand-out ends in time |
| Witnesses.OverlapTwice | job_queue/retry.py:64-66 | for every budget and idle time, a run with two dead letters of one entry in which no fault separates a dead letter from its acknowledgement |
| Refinement.RecoveryRefines | job_queue/retry.py:55-71 | a recovery loop advanced command by command with nothing in between leaves the stream and the dead letters that `recover` leaves, and goes on to the entries that `recover` returns |
| Refinement.RecoverOnceRefines | workers/worker_pool.py:147-153 | a round of the recovery loop advanced command by command, with any outcomes of its jobs, leaves the stream and the dead letters that `RecoverOnce` specifies, its results among those written, and the loop idle |
| Refinement.ProcessNextRefines | workers/worker_pool.py:126-133 | a round of the processing loop likewise leaves what `ProcessNext` specifies |
| Streams.PageAdvances | job_queue/retry.py:46-49 | a page claims stale pending entries from its cursor on, ascending, and the next cursor lies beyond them all |
| Streams.PageExactly | job_queue/retry.py:46-49 | a page claims every stale entry from its start to its cursor, or to the end when the cursor is 0, and no other |
| Streams.PageLimits | job_queue/retry.py:46-49 | a page claims at most 50 entries; when its cursor is not 0 it has claimed 50 or looked at 500 |
| Streams.ReclaimedExactly | job_queue/retry.py:41-53 | on an unchanging list a reclaim returns exactly the stale entries before the place where it gives up, which is the end or the start of 500 fresh entries with others behind them |
| Streams.ReclaimedAll | job_queue/retry.py:41-53 | it returns every stale entry if and only if none lies behind that place |
| Streams.ReclaimedWithoutGaps | job_queue/retry.py:41-53 | it returns every stale entry when no 500 in a row with others behind them are all fresh |
| Streams.ReclaimedUnlessGap | job_queue/retry.py:41-53 | every stale entry with no 500 fresh ones in a row before it is returned |
| Streams.LongGapMisses | job_queue/retry.py:51-52 | a stale entry behind 999 fresh ones in a row is missed, however the pages fall |
| RetryPolicies.FirstStaleReclaimed | job_queue/retry.py:41-53 | every stale entry with fewer than 500 pending ones before it is returned |
| RetryPolicies.RetryPolicy.ReclaimStale | job_queue/retry.py:41-53 | the loop terminates and returns the paged reclaim's entries with their payloads, each stale and among them every stale one with fewer than 500 pending before it, and hands exactly those out once more |
| RetryPolicies.RetryPolicy.Recover | job_queue/retry.py:55-71 | leaves the stream, dead letters and two lists that the split by delivery count calls for; each new letter names its entry, the entry's payload and `max_retries_exceeded` |
| RetryPolicies.RetryPolicy.TriageEach | job_queue/retry.py:63-69 | the loop of `recover`: deliveries are asked, dead letters added and entries acknowledged one by one |
| RetryPolicies.TriageSplits | job_queue/retry.py:63-69 | the loop's decisions are the delivery counts after the claim: the entries beyond the budget, no others, are acknowledged and dead-lettered with their payloads |
| RetryPolicies.RecoverSplits | job_queue/retry.py:55-71 | an entry leaves the pending list exactly when it is stale and its next delivery exceeds `max_retries`; a retried one is pending again with one more delivery; the rest are untouched |
| RetryPolicies.RecoveryProgress | job_queue/retry.py:55-71 | back-to-back recoveries: an entry that each of them reclaims and nobody acknowledges is pending after k of them if and only if k is less than max(1, `max_retries` + 1 - deliveries), and then becomes a dead letter (`Handouts.TriageEnds` is the statement for every interleaving) |
| RetryPolicies.RetryPolicy.DeliveryCount | job_queue/retry.py:31-39 | the entry's delivery count, and 0 exactly for an entry that is not pending, so a count beyond the budget is a pending entry's |
| RetryPolicies.RedisStreamQueue.Enqueue | job_queue/streams.py:51-52 | appends the payload; the id finds it again |
| RetryPolicies.RedisStreamQueue.Read | job_queue/streams.py:54-64 | returns an entry that was never delivered, with its payload, now pending once in this consumer's hands, or nothing when all are delivered; every other pending entry is unchanged |
| RetryPolicies.RedisStreamQueue.Ack | job_queue/streams.py:66-67 | the entry is no longer pending; every other pending entry is unchanged and none is new |
| RetryPolicies.RedisStreamQueue.AutoClaim | job_queue/retry.py:46-49 | the returned entries are exactly the pending and stale ones between start and the next cursor, at most 50, and when the cursor is not 0 they are 50 or 500 were looked at; each is now this consumer's with one more delivery and every other pending entry is unchanged |
| RetryPolicies.DeadLetterQueue.Add | job_queue/dead_letter.py:20-27 | earlier records stay and the last one names the entry, its payload and the reason |
| WorkerPools.WorkerPool.ProcessNext | workers/worker_pool.py:122-137 | an answered job leaves the queue with its result stored; one whose call raised stays pending |
| WorkerPools.WorkerPool.RecoverOnce | workers/worker_pool.py:145-153 | after `recover`, the retryable entries before the first exception are settled and the rest stay pending |
| WorkerPools.SettledExactly | workers/worker_pool.py:150-153 | settling acknowledges exactly the given entries, leaves each one's request with the result of its last entry and touches no other request's result |
| JobDispatch.Dispatcher.BeginJob | workers/worker_pool.py:88-105 | the worker is picked for the count that came with the job and is healthy, unblocked and large enough; the turn with the job's text and agent is recorded only when there is a worker, and a refusal leaves the store as it was |
| JobDispatch.Dispatcher.EndJob | workers/worker_pool.py:106-116 | an answer or a RuntimeError becomes the job's result and is told to the worker's breaker; any other exception, or a worker removed meanwhile, makes the job raise and tells nobody |
| JobDispatch.ContentOfJob | workers/worker_pool.py:99-101 | the text that is recorded is the prompt, or without one the messages, one to a line |
| JobDispatch.DispatchedFits | workers/worker_pool.py:84-105 | an admitted job adds exactly its own tokens to its workflow |
| JobDispatch.DispatchedFitsIff | gateway/routes.py:247-261 | for every fleet that admits the job its workflow fits the chosen worker afterwards, if and only if the count that came with the job covers what a measurement at dispatch would give |
| Packing.PackPartitions | context/selection.py:74-82 | selected and discarded are together a permutation of the input, selected fits any budget from 0 on, and everything discarded exceeds what is left |
| Packing.PackMonotone | context/selection.py:74-82 | raising the budget never lowers the cost selected |
| Packing.PackIsLexGreatest | context/selection.py:74-82 | a subset is the lexicographically greatest that fits if and only if it is the packer's |
| Packing.DensityApproximation | context/selection.py:74-82 | in density order, selected value plus that of the first discarded item reaches every subset that fits, and selected value times the budget reaches the optimum times the budget less that item's cost; with nothing discarded the selection is optimal |
| GreedyOrder.GreedyExplained | context/selection.py:74-82 | the packer's choice on the unsorted items: a position is taken if and only if its item fits what the taken ones that come sooner by key, and by position among equals, leave over |
| GreedyOrder.OneWay | context/selection.py:74-82 | that condition determines the positions |
| Packing.PreferredFirst | context/selection.py:74-82 | an item left out does not come strictly before a selected one that costs as much or more |
| Seqs.StableSortSorts | context/selection.py:73-73 | sorting is a sorted permutation that keeps the order of equal keys |
| Seqs.StableSortUnique | context/selection.py:73-73 | sortedness and the order of equal keys leave one possible result |
| ContextModels.EstimateIs | context/models.py:20-24 | one token per four characters, rounded down, and at least one |
| Selection.GreedyPack | context/selection.py:62-82 | the loop computes the packer's selection and remainder of the stably sorted items |
| Selection.SelectContext | context/selection.py:85-134 | each policy packs in its own order: of a selected and a discarded item that costs no more, `full` selects the one not newer, `recent` the one not older, `relevance` the one not less relevant, `budget_aware` the one not less important per token; an unknown policy is an error |
| Selection.PoliciesTakeInTurn | context/selection.py:96-134 | what each policy selects, on the items: in turn from the oldest, the newest, the most relevant, the most important per token or the most valuable per token on, ties by position, each that fits what is left |
| Selection.HybridKeepsBetter | context/selection.py:128-134 | under `hybrid` with weights that are not negative, of two items of the same cost one that is better in relevance, recency or importance and worse in none is not left out for the other |
| Selection.BetterValue | context/selection.py:54-59 | such an item has the higher hybrid value |
| Selection.DefaultValue | context/selection.py:11-59 | the default weights are 4 : 3 : 3 for relevance, recency and importance; recency is 1 for the newest item, 0 for the oldest, and the share of the way in between |
| Selection.SelectionPartitions | context/selection.py:20-37 | for every policy and budget: a partition of the candidates with the token sums of the result, within any budget from 0 on, nothing discarded fitting what is left |
| Selection.SelectionMonotone | context/selection.py:85-134 | for the same items and policy a larger budget never selects fewer tokens |
| Selection.SelectionLexGreatest | context/selection.py:85-134 | in the policy's order the selection is the only lexicographically greatest subset that fits |
| Selection.SelectionApproximates | context/selection.py:122-134 | `budget_aware` and `hybrid` come within the first discarded item of every subset that fits |
| Selection.HybridValuesNonNegative | context/selection.py:54-59 | scores and weights that are not negative give non-negative hybrid values, so the bound applies |
| Selection.ClockIndependence | context/selection.py:40-59 | replacing every creation time t by a*t + b with a > 0 changes no policy's selected or discarded sequence |
| Normalizing.NormalizedInUnit | memory/ranking.py:35-44 | every normalized value lies in [0, 1] and every item has one |
| Normalizing.NormalizedScale | memory/ranking.py:35-44 | the largest value becomes 1, the smallest 0, those in between their share of the way, and all 1 when they tie |
| Normalizing.NormalizedOrder | memory/ranking.py:35-44 | the normalized values are in the order of the values |
| Memory.LexicalRelevance | memory/ranking.py:21-32 | the share of the common words among all words of the two texts; lies in [0, 1], and is 0 exactly when query and content share no word |
| Memory.WordsAreRuns | memory/ranking.py:17-18 | the words of a text are its maximal runs of letters and digits, in lower case |
| Memory.BetterScoresHigher | memory/ranking.py:47-65 | with weights that are not negative, a memory that is more relevant to the query, more important, used later or used more often, and behind in none of these, scores strictly higher if a weight of what it is ahead in is positive |
| Memory.BetterNotLeftOut | memory/retrieval.py:48-61 | of two memories of the same cost such a one is never left out while the other is selected |
| Memory.DefaultIsMean | memory/ranking.py:9-14 | under the default weights the score is the mean of the four components |
| Memory.SelectWithinBudget | memory/retrieval.py:8-26 | the loop selects what the packer selects by score per token, within any budget from 0 on |
| Memory.RetrieveRelevantMemories | memory/retrieval.py:48-61 | scores, then packs, so that no memory of the same cost is better for the query than a selected one and left out; no memories give none |
| Memory.BudgetRespected | memory/retrieval.py:11-14 | within the budget, a sub-multiset of the candidates, and no unselected memory fits what is left |
| Memory.ScoresNonNegative | memory/ranking.py:47-65 | weights and importances that are not negative give non-negative scores |
| Memory.RetrievalApproximates | memory/retrieval.py:48-61 | retrieval comes within the first overflowing memory of every choice that fits |
| Memory.RetrievalMonotone | memory/retrieval.py:48-61 | a larger budget never retrieves fewer tokens |
| Memory.RetrievalClockIndependence | memory/ranking.py:55-55 | replacing every last-use time t by a*t + b with a > 0 changes no retrieval |
| ContextStores.ReplayIsSurvivors | context/store.py:16-59 | over any sequence of add, delete and clear, what remains is exactly the items added and not removed since, in the order of their addition |
| ContextStores.ContextStore.Add | context/store.py:20-25 | sets the dictionary entry and indexes the id; with a fresh id the item is appended to the log that the store stands for |
| ContextStores.StoredIdListedTwice | context/store.py:20-40 | with an id that its workflow has already, the listing returns the item twice |
| ContextStores.ContextStore.Delete | context/store.py:42-50 | removes the item from the log and from its workflow's index, or reports that it is not there |
| ContextStores.ContextStore.ClearWorkflow | context/store.py:52-56 | removes the items of one workflow and returns how many there were |
| ContextStores.ContextStore.ListForWorkflow | context/store.py:33-40 | the live items of the workflow, of the type asked for, in insertion order, no id twice |
| ContextStores.ContextStore.TotalTokensOf | context/store.py:58-59 | the token sum of the listed items |
| Compression.ContextManager.Record | context/manager.py:29-46 | appends the item to the log |
| Compression.ContextManager.BeginCompression | context/manager.py:133-146 | the items to fold: the oldest turns beyond `keep_recent`; there are any if and only if the workflow's total exceeds the threshold and at least `keep_recent` + 2 of its turns are in the store |
| Compression.ContextManager.FinishCompression | context/manager.py:111-117 | the originals are deleted one by one and the summary appended, whatever happened in between |
| Compression.ContextManager.CompressIfOverBudget | context/manager.py:119-149 | uninterrupted: it takes effect if and only if the total exceeds the threshold, at least `keep_recent` + 2 turns are in the store and the summarizer answers; then every original is replaced by the summary, and otherwise nothing changes |
| Compression.CandidatesIff | context/manager.py:133-142 | there is something to fold if and only if the total exceeds the threshold and at least `keep_recent` + 2 turns are in the store |
| Compression.TurnsExactly | context/manager.py:136-138 | a workflow's turns are its CONVERSATION items in the order of the store |
| Compression.SummaryIs | context/compression.py:45-52 | a summary has the summarizer's text, the workflow, the agent of the first original, and the importance of the most important one |
| Compression.CandidatesAreTurns | context/manager.py:133-146 | the candidates are distinct turns of the workflow, all but `keep_recent` of them |
| Compression.CandidatesAreOldest | context/manager.py:101-106 | no turn outside the candidates is older than one of them |
| Compression.CandidatesInOrder | context/manager.py:101-106 | the candidates come oldest first |
| Compression.FoldAccounting | context/manager.py:111-117 | whatever happened since a compression began, its end takes the tokens of the originals still listed off every workflow's total and adds the summary to its own |
| Compression.SavedIff | context/compression.py:14-38 | the workflow's total changes by exactly minus `tokens_saved` if and only if every original is still in the store |
| Compression.TurnsThatRemain | context/manager.py:128-130 | an effective compression leaves exactly `keep_recent` turns, in order, none older than one it folded |
| Compression.NewestRemain | context/manager.py:128-130 | with turns recorded in the order of their creation times, exactly the last `keep_recent` remain |
| Compression.CompressionAccounting | context/manager.py:119-149 | an effective compression changes the total by exactly minus `tokens_saved`, leaves exactly `keep_recent` turns in order, none older than a folded one, keeps the other types and the other workflows, and appends one summary |
| CompressionRuns.NewestTurnsSurvive | context/manager.py:128-130 | for any interleaving of records and overlapping compressions with non-decreasing creation times, the `keep_recent` most recently recorded turns of every workflow are live |
| CompressionRuns.NothingForgotten | context/manager.py:111-117 | every recorded item no longer in the store was in the input of a compression whose summary was added |
| CompressionRuns.FlightsUnaltered | context/manager.py:108-117 | throughout every run what a compression in flight is going to fold is in the store as it was when it began, or gone |
| CompressionRuns.SavedInRunIff | context/compression.py:14-38 | so over every run the end of a compression changes the total by exactly minus `tokens_saved` if and only if every original is still in the store |
| CompressionRuns.StepKeeps | context/manager.py:87-149 | each record, start, completion and failure keeps the invariant behind both |
| Gateways.Gateway.GetProspectiveContextTokens | gateway/routes.py:114-120 | the workflow's total with the request in it, or nothing without a workflow |
| Gateways.Gateway.RecordContext | gateway/routes.py:123-129 | appends one CONVERSATION item with the content, the workflow and the agent of the request, or nothing without a workflow |
| Gateways.ProspectiveIsTotalAfter | gateway/routes.py:114-120 | what is measured is what the workflow's total becomes once the request is recorded |
| Gateways.Gateway.Dispatch | gateway/routes.py:183-191 | measure, pick, record: an accepted request goes to a healthy, unblocked worker that can hold the workflow's context with it and adds exactly its turn; a refused one leaves the store as it was |
| Admission.WithinIff | gateway/routes.py:97-158 | over any run of requests, dispatched jobs and overlapping compressions, every workflow stays within the largest worker throughout if and only if every summary fits the room there is and what is left of its originals and every admitted job's turn fits the room there is |
| Admission.WithinCapacity | gateway/routes.py:97-158 | it is enough that no summary weighs more than what is left of its originals when it arrives and every job comes with a count that covers a measurement at its dispatch |
| Admission.WithinCapacityAlone | gateway/routes.py:97-158 | or, with such counts, that there is one compression in flight per workflow and no summary weighs more than its originals |
| Admission.FinishFitsIff | context/manager.py:111-117 | the end of a compression keeps its workflow within a capacity if and only if the summary is at most the room and the tokens of the originals still live |
| Admission.AdmittedIffFits | gateway/routes.py:212-221 | a workflow's request is recorded, as one turn with its content, if and only if a healthy and unblocked worker can hold the context with the request in it, and otherwise nothing changes |
| Admission.OverlapOverruns | gateway/routes.py:139-158 | summaries no heavier than all of their originals are not enough: of two compressions of the same turns the second reports 0 tokens saved and raises the total from 8 to 16 with room for 8 |
| Admission.StaleCountOverruns | gateway/routes.py:247-261 | two jobs enqueued before either is dispatched, or one job processed twice, are both admitted to a worker with room for one: a total of 16 with room for 8 |
| Admission.ReprocessingRecordsAgain | workers/worker_pool.py:94-105 | over any run every processing of a job that gets a worker records another turn |
| CircuitBreakers.BreakerRefinesHistory | router/circuit_breaker.py:21-43 | over any run with a non-decreasing clock and a threshold of at least 1, `is_open` is true exactly when the failures since the last success number at least the threshold and the timeout since the last failure is not over |
| CircuitBreakers.RefusesIff | router/circuit_breaker.py:21-43 | the same on the positions of the history: refused if and only if at least the threshold of failures have no success after them and less than the timeout has passed since the last failure |
| CircuitBreakers.QueriesNeverMatter | router/circuit_breaker.py:21-29 | leaving out every earlier query changes no later answer |
| CircuitBreakers.HalfOpenAdmitsAll | router/circuit_breaker.py:21-29 | HALF_OPEN refuses no request until an outcome is recorded, whatever the settings and the clock |
| CircuitBreakers.HalfOpenReached | router/circuit_breaker.py:9-29 | after one failure, a timeout and a query, any number of requests are admitted before an outcome is known |
| CircuitBreakers.AgreesIff | router/circuit_breaker.py:17-29 | the machine agrees with that predicate at every time of every run if and only if the threshold is at least 1 or the timeout is not positive |
| CircuitBreakers.CircuitBreaker.IsOpen | router/circuit_breaker.py:21-29 | with a threshold of at least 1 it answers by what the breaker was told; it moves to HALF_OPEN only after the timeout |
| CircuitBreakers.CircuitBreaker.RecordSuccess | router/circuit_breaker.py:31-35 | closes the breaker and clears the count |
| CircuitBreakers.CircuitBreaker.RecordFailure | router/circuit_breaker.py:37-43 | counts, stamps, and opens at the threshold |
| LoadBalancing.FirstMin | router/load_balancer.py:55-59 | the first of the smallest keys |
| LoadBalancing.PickSound | router/load_balancer.py:35-61 | a picked worker is registered, healthy, not blocked and large enough; a refusal means no worker is, and blames the capacity if and only if the request has a size and some worker is healthy and not blocked |
| LoadBalancing.PickByStrategy | router/load_balancer.py:48-61 | among the healthy, unblocked and large enough workers: the one whose turn it is, the first with the lowest mean latency, the first with the fewest active requests, or the first |
| LoadBalancing.LoadBalancer.AvailableWorkers | router/load_balancer.py:24-35 | exactly the healthy, large enough workers whose breaker does not refuse, in order; asking the breakers on the way changes no later answer |
| LoadBalancing.LoadBalancer.PickWorker | router/load_balancer.py:37-61 | the strategy's choice among them, or the error, where with a threshold of at least 1 the breakers refuse by what they were told; the round-robin index moves only on a round-robin pick |
| LoadBalancing.LoadBalancer.AddWorker | router/load_balancer.py:66-73 | registers a new URL, healthy and idle, with a fresh breaker, and refuses a registered one |
| LoadBalancing.LoadBalancer.RemoveWorker | router/load_balancer.py:75-80 | removes exactly the URL's workers and its breaker |
| LoadBalancing.LoadBalancer.RecordSuccess | router/load_balancer.py:82-83 | tells the URL's breaker, or finds none when the worker was removed meanwhile |
| LoadBalancing.LoadBalancer.RecordFailure | router/load_balancer.py:85-86 | tells the URL's breaker, or finds none when the worker was removed meanwhile |
| LoadBalancing.OllamaClient.BeginCall | workers/ollama_client.py:80-83 | one more active request, and it equals the calls in flight |
| LoadBalancing.OllamaClient.EndCall | workers/ollama_client.py:98-126 | however the call ends the active count equals the calls in flight; latency and failures are counted by how it ended |
| Fairness.RoundRobinFair | router/load_balancer.py:50-53 | from any index, k picks over n workers take each worker floor(k/n) or ceil(k/n) times, and any n in a row take each once |
| Fairness.PickKeepsSpread | router/load_balancer.py:58-59 | a pick-and-start by queue depth never raises the spread of active counts above max(1, old spread) |
| Fairness.StartsLevel | router/load_balancer.py:58-59 | starts alone level all counts after the sum of what each falls short of the largest |
| Autoscaling.Autoscaler.constructor | router/autoscaler.py:20-45 | starts with all standby URLs unused, whatever they are |
| Autoscaling.Autoscaler.ScaleUpStatic | router/autoscaler.py:120-134 | registers the first standby URL with the health just checked, or takes it off the list for good when it is registered already; every configured URL stays accounted for as in use, on standby or skipped, and when all were new to the balancer URLs in use ++ standby is the configured list |
| Autoscaling.Autoscaler.ScaleDownStatic | router/autoscaler.py:161-169 | gives back the last URL in use and deregisters its worker, keeping the same account |
| Autoscaling.Autoscaler.CheckOnce | router/autoscaler.py:172-190 | scales up, down or not at all exactly as depth, size, cooldown and lists decide; the pool stays between base and max(base, `max_workers`) with one breaker per worker |
| Autoscaling.ScalingRate | router/autoscaler.py:87-88 | times a cooldown apart: any window of length T holds at most floor(T / cooldown) + 1 of them |
| Autoscaling.AutoscalerRate | router/autoscaler.py:172-190 | so it is for the scalings of an autoscaler |

## Left out

- HTTP routing, authentication, request validation, metrics, logging, the client, scripts and benchmarks: no state rule of their own.
- Redis sockets and JSON: commands are atomic, and the encoding of a job's fields is the identity. Entries are never trimmed from the stream.
- Expiry of results and the polling of `get_result`: the protocol keeps a history of the results written; the map of results in `WorkerPools` never forgets one.
- The count that a queued job of `Admission` brings along is arbitrary; when it was taken is not part of a run. To a task of `QueueProtocol`, `_process_job` is an answer or an exception.
- Docker mode of the autoscaler, and how it reads the queue depth: the depth is a parameter.
- The worker registry and artifact store (lookup tables), the percentile helpers, the loop that calls the health check, and the memory store (SQL statements): none of them holds a rule about state that outlives a call.
- Floating-point rounding, NaN and infinities in scores, latencies and times: exact reals.
- Streams.PageAdvances: an entry deleted from the stream while pending is not modelled; the code deletes none.
- RetryPolicies.RetryPolicy.ReclaimStale: reads the clock once for all its pages; QueueProtocol lets time pass between them.
- RetryPolicies.RetryPolicy.Recover: the same single reading.
- QueueProtocol.NothingLost: a fault drops what a task holds at once; a command whose reply is lost is a command followed by a fault.
- LeaseSafety.TimelyNeverOverlaps: how long a worker takes is an assumption on the run, not enforced by the code.
- LoadBalancing.LoadBalancer.PickWorker: holds workers and breakers as values of their current state, not as references shared with the callers of `generate`, and reads the clock once per pick.
- LoadBalancing.OllamaClient.EndCall: the body of an answer is not modelled; a malformed one counts as an answer and as a failure, as in the code.
- ContextStores.ContextStore.Add: promises a log only for a fresh id, which the code gets from a random UUID; `Compression.ContextManager` asks for one. Access times (`touch`) are not kept.
- Compression.ContextManager.Record: requires the fresh id that the code draws, and so do the members that record through it.
- Memory.BetterScoresHigher: speaks of memories with ids of their own, as the database gives them; with a shared id the dictionaries of the ranking keep one of the values.
- Selection.BetterValue: the same for items.
- Memory.LexicalRelevance: lower-cases the ASCII letters only.
- Memory.RetrieveRelevantMemories: converting memories to context items copies fields and is not modelled.
- Admission.WithinIff: the rule is that of a fixed bound on the workers' capacities; workers may come and go within it.
- Fairness.PickKeepsSpread: speaks of a fixed set of available workers, as the strategies do between two health changes.
