# Flowkit, modelled and proved

Flowkit is a concurrent, memoizing, budgeted map engine: items flow through stages of workers, each
distinct key is worked once and stored at once, every physical attempt is paid from a budget before it
starts, and a run reports what it did. This project models its protocols and its accounting in Dafny and
proves what they keep, for every input, every schedule and every reachable state.

Concurrent parts are transition systems whose steps are the atomic actions of the program (a mutex
section, a channel operation, a store call, one budget reservation, one journal write); a run is any
finite sequence of steps, so a lemma about the states of a run is about every schedule. Sequential parts
are methods with loops, over classes where the program updates an object. What the environment decides
is a parameter: the value or error a work call returns, a failing store, journal, reporter or hook, a
cancellation, ticks, the order in which a pool starts its items, the random jitter.

| modules | what they model |
|---|---|
| `Engine`, `EngineSafety`, `EngineTheorems`, `EngineAccounting`, `EngineBooks`, `EngineResults`, `EngineProgress`, `EngineFlags`, `EngineJournal` | the per-item engine of one step: lookup and in-flight table, leader and followers, admission, retries, store, outcome (`flow/run.go:907-1246`) |
| `Admission`, `Transactions` | budgets, rate limiters, one-shot reservations, chains of any nesting, admission by resource names, and the interleaving of many transactions (`execution/budget.go`, `execution/reservation.go`, `execution/chain.go`, `execution/rate.go`, `flow/run.go:323-354`) |
| `Pipeline`, `PipelineSafety`, `PipelineResults`, `PipelineCancel`, `Pipes` | feeder, stages joined by bounded channels, barriers, override stages, collector; nesting of pipes (`flow/run.go:638-803`, `flow/run.go:907-961`, `flow/pipe.go`) |
| `Pool`, `CachedMap`, `Chunks`, `CachedBatches`, `Resume` | the worker pool and the two memoized maps on top of it, and sequences of their runs over one store (`execution/map.go`, `execution/cached_map.go`, `execution/cached_batch_map.go`) |
| `BulkScript`, `Bulk`, `BulkPolicy`, `BulkRefines` | the attempts at a batch and what they cost, the bulk step paying for its calls through the admission above, and that it refines the per-item engine (`flow/bulk.go`) |
| `Batched` | grouped calls with per-item repair (`flow/batch.go`) |
| `Preflight`, `PreflightAccepts` | plan registration and the stand-alone plan validation (`flow/run.go:164-277`, `execution/resource_plan.go`) |
| `TokenBucket`, `Backoff` | the rate limiter and the retry delays (`execution/rate.go`, `flow/run.go:279-312`) |
| `Migration` | the crash-recoverable schema migration (`execution/mysql_cache.go:113-206`) |
| `Observation`, `Reports` | numbered snapshots, the journal's brackets, nested live reports, and merging and copying reports whose maps are shared (`flow/observe.go`, `flow/report.go`, `flow/run.go:397-484`) |
| `Common` | the optional values and the lists without repeats that the others use |

In contracts `P(..) == true` says no more than `P(..)`; written so, the verifier takes the predicate as a whole.
Digests are taken as injective and encodings as lossless, so keys and values are strings; stores are
maps; prices are reals with a flag for values that are not finite.

Four things the proofs show that a reader of the code may not expect:

- A migration of a table named `flowkit_schema_version` can never succeed
  (`Migration.VersionTableNameNeverSucceeds`); every other table that was not there beforehand is served
  from every state crashes can leave (`Migration.CompletesUnlessNameTaken`).
- A run that is cancelled from outside can return no error and no results. This happens exactly in the
  pipelines whose last stage that is not a `Stream` is a `Barrier`, when there are items and no work fails
  on the way to that barrier (`PipelineCancel.IncompleteExactlyWhen`); in every other pipeline, and in every run
  that is not cancelled from outside, a run without an error is complete
  (`PipelineResults.CompleteWithoutError`).
- A budget refusal need not mean that the budget is spent: a competitor's provisional charge can cause it
  and be rolled back later (`Transactions.RefusalCanBeTransient`).
- Returned rate tokens can be dropped, but never more of them than ticks have added
  (`TokenBucket.NothingKept`).

## Model

| member | source | states |
|---|---|---|
| EngineTheorems.RunInv | flow/run.go:907-1246 | in every state of every run each worker holds its item alone, a key's open call belongs to exactly one worker, published outcomes are true of the store, and the store only grows under keys that were led |
| EngineTheorems.OnlyTheLeader | flow/run.go:1018-1035 | all loads and work calls made for a key were made by the item that leads it |
| EngineTheorems.WorkPerKeyBounded | flow/run.go:1002-1182 | however many items share a key, it is loaded at most once and worked at most `attempts` times in one runner |
| EngineTheorems.NothingIsRewritten | flow/run.go:1018-1078 | a key's leader, its outcome, stored entries and emitted results never change later in the run |
| EngineTheorems.SameKeySameOutcome | flow/run.go:1038-1078 | items with one key finish with one outcome, each flag under its own index; an unflagged result is what the store holds, also when work is nondeterministic |
| EngineResults.PaidExactlyOnce | flow/run.go:1105-1143 | a budget is never overdrawn and holds exactly the started work calls, what other users hold, and reservations in flight; once drained, failed and cancelled runs included, exactly the work calls |
| EngineResults.CallsTrackSequences | flow/run.go:1110-1180 | in every reachable state work calls lag started sequences plus retries by at most one per worker |
| EngineResults.SuccessDelivers | flow/run.go:935-960 | a stage that ended without an error and was not cancelled emitted every item, each with its leader's outcome |
| EngineResults.SuccessReconciles | flow/run.go:1002-1246 | after success counters, journal, store growth and results reconcile: items are hits plus misses, events equal their counters, stored events are misses minus flags, stored is the growth of the store, work calls are sequences plus retries, and hits, quarantined and skipped are the emitted results of their kind |
| EngineJournal.OneEventEach | flow/run.go:1002-1246 | after success the journal has, for every item under its own index, exactly one event of its result's kind and no other, and one retry for every further call made for it |
| EngineFlags.FlagsFollowPolicy | flow/run.go:1150-1246 | in every reachable state an emitted item is flagged exactly when the last call made for it returned an error, which then came on a live context and was a data error, or transient at the last attempt, never fatal or unknown; it is dropped only under Skip, and quarantined only under Quarantine, with that error's class and the number of calls; under FailFast nothing is flagged |
| EngineFlags.ErrorsAreResolved | flow/run.go:1150-1246 | whenever a work call returns an error, its class, the mode, the attempts left and the context decide alone, and in every case exactly, whether it is retried, dropped, quarantined or fails the run |
| EngineFlags.TransientsAreRetried | flow/run.go:1165-1182 | as long as no worker has failed, an item whose last call failed as transient before the last attempt is with a worker that is about to call again |
| EngineAccounting.MovePosts | flow/run.go:1002-1246 | every move changes counters, budgets and journal by exactly what the posting table says for its two program points |
| EngineBooks.RunBooks | flow/run.go:323-354 | the double-entry books balance in every state of every run |
| EngineProgress.MoveDecreases | flow/run.go:907-1182 | every move of a worker strictly decreases a measure over unprocessed items, program points and remaining attempts |
| EngineProgress.RunsAreFinite | flow/run.go:907-961 | the workers make at most as many moves as the initial measure, under any schedule |
| EngineProgress.FollowersHaveLeaders | flow/run.go:1018-1045 | a waiting follower's leader is another worker that is leading, or has published |
| EngineProgress.NeverStuck | flow/run.go:907-961 | until all workers have exited one of them can move, and not only by failing without cause |
| Admission.Account.Charge | execution/budget.go:46-74 | a budget charges the units, or refuses and charges nothing, exactly when the context is done, the units are not positive or do not fit |
| Admission.Account.Take | execution/rate.go:92-129 | a bucket gives all the units or keeps none of them; more units than its burst are refused at once |
| Admission.Reservation.Commit | execution/reservation.go:20-32 | closes the reservation and everything below it the first time, and changes nothing if it was finished |
| Admission.Reservation.Rollback | execution/reservation.go:34-46 | returns every occurrence's units to every budget and bucket of the tree the first time, and nothing if it was finished |
| Admission.RollbackAll | execution/chain.go:41-45 | rolling parts back in reverse returns exactly what all of them hold |
| Admission.Reserve | execution/chain.go:39-67 | over any tree of budgets, rate limiters, custom limiters and chains: succeeds exactly when every budget covers all its occurrences at once, every bucket can hold the units and its tokens arrive, the custom limiters grant, and the context is live and the units positive where anything is drawn; refusal leaves every budget and every bucket as it was |
| Admission.ReserveChain | execution/chain.go:39-67 | the same for one chain, whose reservation holds all the parts |
| Admission.RefusalIsFinal | execution/chain.go:47-60 | a limiter refused after its predecessors were charged could not have been admitted with them in any way |
| Admission.Finish | execution/reservation.go:20-46 | any sequence of commits and rollbacks has the effect of its first call only |
| Admission.Wait | execution/chain.go:27-34 | admission for good charges the whole tree, or nothing |
| Admission.Admit | flow/run.go:323-354 | all named resources are charged, or none and the first name that cannot be admitted is reported; a list with an unknown name is always refused |
| Transactions.OrderListsLeaves | execution/chain.go:47-60 | the order in which a tree is charged lists its leaves, each as often as it occurs |
| Transactions.StepBalances | execution/budget.go:46-74 | a charge or refund moves units between one account and its own transaction only |
| Transactions.AlwaysConserved | execution/budget.go:46-74 | under any interleaving what is left plus what is held is the limit, for budgets and for net takings of buckets, and no budget is overdrawn |
| Transactions.SettledSpending | execution/chain.go:39-67 | once all transactions have settled, exactly the committed ones have spent anything, in units times occurrences |
| Transactions.SettledForGood | execution/reservation.go:20-46 | a committed, refused or rolled-back transaction never changes again |
| Transactions.CommitReachable | execution/chain.go:39-67 | from every reachable state a transaction whose limiters grant and whose accounts can pay the rest of it can be committed by its own steps alone |
| Transactions.CallOffReachable | execution/reservation.go:34-46 | from every reachable state a transaction that has not settled can be refused or rolled back by its own steps alone, and every account then has back what it held |
| Transactions.RefusalCanBeTransient | execution/budget.go:58-66 | a concrete interleaving in which a transaction is refused although in the end nothing is spent |
| PipelineSafety.StageKeeps | flow/run.go:731-803 | no step of a stage loses or copies an item: indices move between channels, buffers, hands and the record of losses |
| PipelineSafety.EngineKeeps | flow/run.go:731-800 | an override stage gives back exactly the indices it drained |
| PipelineSafety.EngineAt | flow/run.go:745-799 | the nested run answers by compact position and flags carry that position; re-issued, every emitted item is its own input's next level, under its original index and with that index in its flag |
| PipelineSafety.SortedAscends | flow/run.go:741-741 | the clean items reach the engine in input order |
| PipelineSafety.RunInv | flow/run.go:638-718 | every reachable state conserves the items, keeps each at its level of processing, and explains every loss: an error, or a barrier of a cancelled run after which no override can still notice |
| PipelineResults.OnePlaceEach | flow/run.go:638-718 | in failed and cancelled runs too an index is in exactly one place, a collected result is the composition of the stages, and channels keep their bound |
| PipelineResults.CompleteWithoutError | flow/run.go:638-718 | a run without an error collects every index once, and result i is the left-to-right composition on input i, unless it was cancelled from outside and its last stage that is not a stream is a barrier |
| PipelineResults.ScheduleIndependent | flow/run.go:661-704 | two such runs of one pipeline have the same results |
| PipelineResults.ResultsAreComposed | flow/run.go:638-718 | what is collected under an index, in failed runs too, is the value that the stages' work gives for that input one after another, or the quarantine or skip of the first stage that gave none |
| PipelineResults.FlagsBypass | flow/run.go:935-943 | a flagged item passes every later stage unchanged |
| PipelineResults.FlagsCarryOwnIndex | flow/run.go:788-792 | in every reachable state a collected item is under its own index, and so is its flag, whatever stages it went through |
| PipelineCancel.BarrierHidesCancellation | flow/run.go:907-927 | in every pipeline whose last stage that is not a stream is a barrier, with items that reach it, some cancelled run ends without an error and without any result |
| PipelineCancel.IncompleteExactlyWhen | flow/run.go:744-746 | an errorless finished run can miss a result in exactly these pipelines |
| PipelineResults.NeverStuck | flow/run.go:661-704 | until every goroutine has returned one can move, and fails or drops only where the context is done or the work fails |
| PipelineResults.RunsAreFinite | flow/run.go:661-704 | a run makes at most as many moves as the initial weight of its items, stages and workers |
| Pipes.CombineStages | flow/pipe.go:37-47 | the stage lists in order, nothing lost or repeated |
| Pipes.PipeName | flow/pipe.go:49-58 | the names joined by bars |
| Pipes.PairsSuffice | flow/pipe.go:14-35 | pipes of three and four are nested pairs, and pairs associate, in stages and in name |
| Pipes.NestingIsIrrelevant | flow/pipe.go:3-35 | any two nestings of the same steps have the same name and stages, and compute the same result for every item |
| Pipes.ThroughConcat | flow/pipe.go:14-20 | a pipe of two stage lists computes the second after the first |
| Pool.RunInv | execution/map.go:76-116 | every reachable pool state accounts for every item handed over |
| Pool.BoundedAndPaid | execution/map.go:63-112 | no item is worked twice, at most max(1, min(workers, n)) works are in progress, and the units granted are the costs of the started items, on failure too |
| Pool.CompleteWithoutError | execution/map.go:117-120 | a drained pool without an error worked every item and has its result at its own index |
| Pool.NeverStuck | execution/map.go:76-116 | until the pool has drained it can move, and fails only where it was stopped or the work or the limiter may fail |
| Pool.RunsAreFinite | execution/map.go:76-116 | a pool makes at most as many moves as its initial measure |
| CachedMap.PoolSchedules | execution/map.go:76-120 | whatever a pool run does, the items it started are a list without repeats, and all of them unless it failed: the orders in which the cached maps and the bulk step are proved |
| CachedMap.GroupKeys | execution/cached_map.go:79-97 | groups the inputs by digest in order of first occurrence, or stops at the first input without a key |
| CachedMap.LoadGroups | execution/cached_map.go:99-120 | looks every group up once: hits are marked and counted on all their indices, the rest is the list of unique misses in order |
| CachedMap.RunMiss | execution/cached_map.go:141-160 | stores one value at once and only then marks and tells its indices, up to the first failing hook |
| CachedMap.RunMisses | execution/cached_map.go:125-165 | every started miss ends by itself and a sibling's failure undoes none: exactly the started misses whose value came and could be saved are written |
| CachedMap.MapCached | execution/cached_map.go:44-172 | every run that gets past its loads counts each input once, as hit or miss; the run succeeds exactly when every key is built, no lookup or hook fails, and every miss starts, is valued and saved; otherwise the store has grown by exactly the started misses that were saved, and every outcome is true of it; on success everything is there and work calls equal writes |
| Chunks.CutInto | execution/cached_batch_map.go:101-119 | the stepping loop yields the consecutive batches |
| Chunks.CutPartitions | execution/cached_batch_map.go:101-119 | the batches partition the misses in order, none is empty or too large, all but the last are full, and there are ceil(misses / size) |
| CachedBatches.PriceBatches | execution/cached_batch_map.go:104-117 | every batch costs the sum of its items' costs, unless some cost is not positive |
| CachedBatches.RunBatch | execution/cached_batch_map.go:131-158 | stores a batch's results one by one and stops at the first failing store |
| CachedBatches.MapCachedBatches | execution/cached_batch_map.go:26-172 | the same exact promises as the scalar map, counts included, batch by batch, with ceil(unique misses / size) work calls and one write per unique miss |
| Resume.EntriesPersist | execution/cached_map.go:143-152 | over any sequence of failing and succeeding runs a stored value stays |
| Resume.WrittenOnce | execution/cached_map.go:143-152 | each key is written by at most one run |
| Resume.OutcomesStayTrue | execution/cached_map.go:112-158 | what any run marked hit or stored is in every later store |
| Resume.SuccessWritesTheRest | execution/cached_map.go:161-171 | a successful run has hits plus misses equal to its inputs, nothing pending, and wrote exactly the keys not stored before |
| Resume.ResumeReplays | execution/cached_map.go:40-43 | a later successful run returns the earlier run's value for the same key, as a hit |
| Resume.SecondRunIsFree | execution/cached_map.go:121-123 | repeating the inputs after a success costs nothing and returns the same results |
| Resume.RefinesMemo | execution/cached_batch_map.go:21-25 | when the key determines the output, a successful run of either map has the results and the store of the plain per-item memoized map |
| BulkScript.RealAt | flow/bulk.go:240-255 | at every attempt of every batch the budgets decide by what is left of them after all calls made before it |
| Bulk.Pay | flow/bulk.go:240-250 | one attempt pays every occurrence of every named account at one unit per item, or a refusal changes none |
| Bulk.TryBatch | flow/bulk.go:225-314 | how a batch ends, its calls and its retries are exactly those of its script as the budgets let it happen, and the accounts have fallen by units times calls |
| BulkPolicy.AttemptsDecide | flow/bulk.go:225-320 | the attempts of a batch end with the first that is not a journaled transient failure on a live context, or with the last allowed; that one alone makes it values, flags or an error, by class and mode; all attempts are calls but a last one that was cancelled or refused, and all but the last are retries |
| Bulk.FlagBatch | flow/bulk.go:315-345 | a batch that failed as data flags every index of every key, each under its own index, and counts them |
| Bulk.RunBulkBatch | flow/bulk.go:219-387 | one batch either flags or commits key by key, or breaks, exactly as its attempts, stores and hooks decide, and keeps the books |
| Bulk.RunBulk | flow/bulk.go:48-393 | failed runs included, every named account has fallen by the sum of batch sizes over all calls times its occurrences, no budget is overdrawn, and a refused batch adds nothing; the run succeeds exactly when nothing fails and no batch breaks, and then every input has its key's stored value or a flag of its own; if every call answers at once, ceil(unique misses / size) calls cost one unit per unique miss |
| BulkPolicy.SucceedsExactlyWhen | flow/bulk.go:225-387 | a bulk run that gets to its batches succeeds exactly when all of them start and each either answers, and is stored and told, or fails as data with its flags journaled: no fatal or unknown class, no done context, no refusal, and under FailFast no error at all |
| BulkPolicy.FlagsFollowPolicy | flow/bulk.go:315-345 | in a run that succeeds a missing input has its key's value exactly when its batch's final attempt answered; otherwise that attempt failed as data, and the input is dropped under Skip and quarantined under Quarantine with that very class and attempt |
| Bulk.SmoothHeeded | flow/bulk.go:225-255 | budgets that cover the unique misses refuse no batch, whatever the order |
| BulkRefines.ScalarResult | flow/run.go:1002-1214 | in an engine run without failures whose work is a function of the key every result is the found value or the function's |
| BulkRefines.BulkRunIs | flow/bulk.go:48-393 | what the bulk step promises of a run whose calls all answer at once, in the terms in which it is compared with the engine |
| BulkRefines.BulkAgrees | flow/bulk.go:13-23 | a bulk run at any batch size and an engine run under any schedule agree on results, cache outcomes, final store, hits, misses, stored and spend |
| BulkRefines.RunBeside | flow/bulk.go:13-23 | running the bulk step beside a finished engine run over the same inputs and store gives the same results, store and counters, every account falls by the engine's spending times its occurrences, in ceil(unique misses / size) calls |
| Batched.Cover | flow/batch.go:129-147 | accepts the groups exactly when every index is in range and named at most once, and otherwise blames the first bad reference |
| Batched.Fill | flow/batch.go:172-203 | places and shows the split values in order, and lists what no response holds |
| Batched.Mend | flow/batch.go:233-246 | puts repair results back at their original positions, flags included, and shows the unflagged ones |
| Batched.RunBatched | flow/batch.go:86-248 | the outcome, hook calls and translated events of a whole invocation, success and every failure |
| Batched.MissingPartition | flow/batch.go:173-203 | the missing list has no repeats, and an item is on it exactly when no response holds a value for it |
| Batched.EachIndexOnce | flow/batch.go:129-247 | a run that ends well resolves every index, flags carry original positions, and the hook saw exactly the unflagged items, once each |
| Batched.RefinesMap | flow/batch.go:129-247 | grouping and repairing are invisible: if the provider answers and the repair resolves item by item, every input gets its own value or its own flag, whatever the groups, and hook, observer and journal are shown each input's own, in failing runs too |
| Batched.NestedRemaps | flow/batch.go:79-84 | translations nested to any depth compose into one that is injective and names the very items repaired |
| Preflight.RunEnv.Ensure | flow/run.go:164-267 | registers all plans or refuses with the first reason and leaves the environment unchanged; the estimate is the sum of ceiling times price over registered priced plans and the gate holds |
| Preflight.Prospect | flow/run.go:180-239 | the per-plan checks in their order, over copies of the environment |
| Preflight.EnsuredSound | flow/run.go:164-267 | every accepted registration keeps the environment sound |
| Preflight.EnsuredGrows | flow/run.go:252-265 | an accepted registration never alters registered plans, owners or budgets |
| Preflight.EnsuredSplits | flow/run.go:164-267 | registering two lists at once succeeds exactly when one after the other does, with the same final state |
| PreflightAccepts.AcceptedExactlyWhen | flow/run.go:164-267 | a list is registered exactly when every plan has a name, and repeats or merely names the plan that is registered or first listed under it, or is the first and well formed and covered, and the gate is well formed and lets the whole estimate pass; then exactly the new plans have been added, each with its first owner and a full budget |
| PreflightAccepts.RefusedBecause | flow/run.go:164-251 | a refusal blames the first plan that does not fit, names the step that declared a conflicting plan first, or states the whole estimate or all missing prices |
| Preflight.ValidateResourcePlans | execution/resource_plan.go:26-85 | the loop computes the validation's verdict, estimate and missing prices |
| Preflight.ValidationAgrees | execution/resource_plan.go:26-85 | a list is valid exactly when its names are distinct and a fresh environment with the same gate accepts it, with equal estimate and missing prices |
| TokenBucket.NewTokenBucket | execution/rate.go:34-61 | a full bucket exactly for positive units, period, burst and at least one timer tick per unit |
| TokenBucket.Bucket.Tick | execution/rate.go:71-77 | adds a token unless the bucket is full |
| TokenBucket.Bucket.Refund | execution/rate.go:131-139 | returns tokens until the bucket is full |
| TokenBucket.RateBound | execution/rate.go:63-129 | over every window tokens taken minus returned are at most burst plus ticks, and the bucket never exceeds its burst |
| TokenBucket.NothingKept | execution/rate.go:107-139 | a failed or rolled-back waiter keeps nothing, and drops are bounded by the ticks added |
| TokenBucket.ClosedGrantsNothing | execution/rate.go:109-126 | nobody still waiting at the close is granted anything later |
| TokenBucket.FailsOnlyForCause | execution/rate.go:92-129 | a waiter fails only if its request was malformed, it was cancelled or the bucket has closed, and a malformed request is never granted and never holds a token |
| TokenBucket.GrantReachable | execution/rate.go:92-129 | from every reachable state with an open bucket a well-formed waiter that is not cancelled reaches its grant by its own actions and at most one tick per token it still needs |
| TokenBucket.HandsBack | execution/rate.go:127-139 | a granted request can always be rolled back, and whoever returns tokens gets it done alone: the bucket then has all of them again, or is full |
| TokenBucket.HeldTokensNeverBlock | execution/rate.go:63-79 | a waiter can act, or the next tick lets it: held tokens cannot block replenishment |
| TokenBucket.ActionsRunOut | execution/rate.go:107-129 | every action of a waiter strictly decreases the waiters' remaining work |
| Migration.Database.Migrate | execution/mysql_cache.go:113-206 | wherever the process dies the database is in a state of the full migration, and an uninterrupted migration ends with its verdict |
| Migration.HistoryKept | execution/mysql_cache.go:136-206 | after any crashing migrations of any tables the first tables are untouched and a version 1 row has its valid table |
| Migration.CompletesUnlessNameTaken | execution/mysql_cache.go:136-206 | a completed migration of a table that was not there at first succeeds exactly when its name is not the version table's and the version table is usable, and leaves version 1 with a valid table |
| Migration.VersionTableNameNeverSucceeds | execution/mysql_cache.go:163-190 | the concrete failure of the version table's own name |
| Migration.NeverAdopts | execution/mysql_cache.go:145-162 | a pre-existing unversioned table is refused and never touched |
| Migration.ServesExactly | execution/mysql_cache.go:136-206 | for any database at all, whatever versions it records, exactly when a table is served, and that it then has version 1 and a valid table |
| Migration.RefusesUntouched | execution/mysql_cache.go:145-206 | exactly what each refusal means, unknown versions and recorded but missing tables included, and that the database is left as it was |
| Migration.TouchesNothingElse | execution/mysql_cache.go:113-206 | no statement of a migration alters an existing table or the row of another one |
| Backoff.RetryDelay | flow/run.go:279-296 | the sleep lies between the clamped delay and one and a half times it, within the cap and within 64 bits |
| Backoff.NextRetryDelay | flow/run.go:298-312 | the doubled delay up to the cap, without overflow |
| Backoff.UnditheredNext | flow/run.go:298-312 | the closed form min(base * 2^(k-1), cap) obeys the doubling step |
| Backoff.Sleeps | flow/run.go:1106-1119 | every sleep of a sequence obeys the closed form's bounds, and together they are at most (attempts - 1) * cap |
| Backoff.WithDefaults | flow/policy.go:94-102 | positive settings are kept, others replaced by positive defaults |
| Observation.SnapshotsInOrder | flow/observe.go:53-79 | snapshots are numbered 1, 2, 3, ..., at most one is terminal and last, and counters never decrease nor exceed what was counted, nested engines included |
| Observation.TerminalReportsAll | flow/run.go:436-452 | the terminal snapshot reports everything counted |
| Observation.JournalBracketed | flow/run.go:424-461 | the journal of a run that has ended: run_started first, one terminal event last, inner events between; it ends with run_completed exactly when the run succeeded, and a failed run with nothing refused ends with run_failed; if run_started is refused nothing is published |
| Observation.EndsAsItWent | flow/run.go:424-461 | a run fails exactly if its core did or a publication was refused, and one that publishes ends with its terminal snapshot, unless it was refused before its core |
| Observation.SuccessReachable | flow/run.go:424-461 | from every reachable state in which nothing has failed the run can end well, with a terminal snapshot of everything counted and run_completed in the journal |
| Observation.HushedStep | flow/run.go:424-429 | only the outermost run observes itself: nested runs inherit its options without the reporter, and whatever these are, no step lets a nested run pass the test for publishing |
| Observation.CoreGrows | flow/batch.go:95-118 | a reader between two levels of nested engines never loses or counts twice what moves past it |
| Reports.Report.Merge | flow/report.go:95-104 | merging in place, in any order of the map, gives the merged report |
| Reports.Report.Clone | flow/report.go:106-139 | the copy shows the same report and shares no table with it |
| Reports.Report.Publish | flow/observe.go:63-79 | merges after a copy was handed out change the report and not the copy |
| Reports.MergeAdds | flow/report.go:59-104 | every integer counter of every step of either report adds up, each with its own, in any order and grouping |
| Reports.SpendIsLastWriter | flow/report.go:75-80 | spend is replaced, not added, and order matters exactly where two reports disagree |

## Left out

- Rate limiters inside the engine: a per-item engine sees a rate limiter as an admission that may fail. In chains, bulk batches and `Transactions` a bucket counts the tokens taken and handed back, and whether a wait for tokens succeeds is a parameter; tokens, ticks and waiters are modelled in `TokenBucket`.
- Custom wait-only limiters: whether they grant is a parameter; what they have granted is not tracked, because it cannot be taken back.
- Cache entries written by other processes during a run: the store of a run changes only through the run.
- Two stages of one pipeline that share a keyspace: the in-flight table is per runner, and each runner is modelled on its own.
- Uncached bulk steps, whose groups are single items: only the cached grouping is modelled.
- CachedMap.RunMisses: the misses run one after another in an arbitrary order instead of side by side; they touch disjoint keys and indices, and `CachedMap.PoolSchedules` shows that these orders are those of the pool. Intermediate counter values of concurrent workers are not modelled.
- CachedBatches.MapCachedBatches: batches run one after another in an arbitrary order, for the same reasons.
- Bulk.RunBulk: batches run one after another in an arbitrary order, and nobody else draws on its budgets during the run; interleaved admissions of many users are in `Transactions`.
- Observation.SnapshotsInOrder: states one representative integer counter; the stages of one pipeline are a single level whose count is read at once.
- Observation.JournalBracketed: does not say which inner events occur, only that they lie between the brackets; the engine's own journal is in `EngineResults` and `EngineJournal`.
- Migration.CompletesUnlessNameTaken: names of tables are compared exactly, which is a server with case-sensitive table names; on a server that folds names, every spelling of `flowkit_schema_version` is the version table's name.
- Meters of a report, wall-clock times, error texts and wrapping, logging, progress tickers and context deadlines.
- Floating-point rounding: prices are real numbers, so the estimate is exact.
- File and SQL access, pool settings, column inspection, JSON encoding, digests and strict decoding: each store call or statement is one atomic step, and encodings are lossless.
- The advisory lock of the migration: migrations take turns.
- Policy validation, step construction and the option plumbing around runs, which are single-branch checks.
