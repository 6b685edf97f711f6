# Redline engine: a verified model

Redline serves one transformer with continuous batching: requests share a paged KV
cache, prompts are cached in chunks, blocks are promised at admission and handed out
lazily, and under the watermark policy the youngest sequences are evicted when the
pool runs dry. This project models that engine, its client pump, its weight loader,
its prefill GEMM addressing and the benchmark's asynchronous pump, and proves what
they are for.

**What is proved.** *Serving is invisible.* In every state of every run (any arrivals,
any options, any initial pool contents) each request has been told a prefix of what
decoding it alone, recomputing its whole prefix every step with no cache at all, would
say; under worst-case reservation a drained engine has told every request all of it.
The forward pass is arbitrary: any embedding, any K/V entry function, any block over
the attended entries, any argmax. Because a row sees other tokens only through the
pool, the proof needs, together, disjoint block tables, the freshness of reused
blocks, the scheduler's length bookkeeping, and chunk independence of a layered cache.
On top of that: conservation of blocks, promises and batch slots; no abort and no
failed executor check under any plan; a drain bound, attained by a request alone;
arrival order of first tokens; who may be evicted; and `generate` end to end on the imperative engine.

**How it is organized.**

- *The machine on values.* `Types`, `ForwardPass` and `SoloDecoding` hold the reference.
  `SchedulerSpec` is the step machine; `Ledger`, `SchedulerInvariant`,
  `PlanStepInvariant`, `PlanTheorems` and `CompleteStepInvariant` are its safety;
  `AdmissionTheorems` says in plain counts who is admitted and who is evicted.
  `PagedCache`, `StepExactness`, `Accounting` and `StepAccounting` relate one step to the
  reference; `EngineMachine`, `RunTheorems`, `DrainBound`, `Departures`, `PumpFacts` and
  `ExecutorChecks` speak about whole runs.
- *The objects.* `BlockAllocation`, `Requests`, `Scheduling`, `RowForward`, `Execution`,
  `Serving` and `Client` are classes that update their fields and arrays in place, with
  the original's loops and branches. Each method is proved to do exactly what the
  machine does to the values of those objects, so every theorem about runs applies.
- *The loader.* `FloatConversion` (bit patterns, IEEE 754-2019 sections 3.4, 4.3.1 and
  7.4), `Staging` (double-buffered upload against an asynchronous copy engine) and
  `WeightLoading`.
- *Prefill GEMMs.* `PrefillAttention` (column-major addressing over flat buffers),
  `PrefillComposite` (scores, causal softmax and values as one attention) and
  `PlanCaching` (plan cache, probing and capture).
- *The benchmark pump.* `PumpRouting`, an interleaving protocol.

**Where the code and its comments differ.** The model follows the code. The watermark
floor is a fraction of usable blocks (total minus the dummy), as `scheduler.hpp` itself
notes against the design document. The client's comment says 4096 consecutive empty
steps mean a wedged engine (python/redline_client/__init__.py:21-25); that holds only
when ceil(prompt / prefill_chunk) - 1 <= 4096 for every prompt. `Client.AcceptedButTooLong`
gives a prompt that is accepted and exceeds it, `Client.Generate` states exactly when the
call succeeds, and `Client.AcceptedIsServable` gives the bound on the engine's limits
under which acceptance is enough.

Verify with `dafny verify dfyconfig.toml --resource-limit 2000000 --verification-time-limit 0`.

## Model

| member | source | states |
|---|---|---|
| ForwardPass.CachingIsExact | src/core/model_executor.cpp:894-957 | running tokens against the cache left by earlier ones gives, in every layer, the residuals and K/V entries of running them all from scratch: chunk boundaries and caching are invisible |
| ForwardPass.ContextPrefix | src/core/model_executor.cpp:1232-1240 | the cache of a prefix is a prefix of the cache, so what earlier steps wrote stays right |
| SoloDecoding.StreamShape | src/core/scheduler.cpp:286-332 | a solo run emits exactly one finished result, the last, never an abort, at most `maxNew` results, and exactly `maxNew` when EOS is ignored |
| SoloDecoding.StreamExplained | src/core/scheduler.cpp:290-312 | emission k reports the model's own choice after the first k appended tokens of a stop-free reference (forced while the script lasts); its reason is read off the appended token: EOS unless ignored, winning over the limit, else length at exactly `maxNew` |
| SoloDecoding.GreedyContinues | src/core/scheduler.cpp:293-296 | the reference appends the script's token while there is one and, from then on, the model's own choice after the prompt and everything appended before |
| Ledger.AdmitBalances | src/core/scheduler.cpp:132-143 | admission moves one batch slot and makes one promise; the sum of what live requests and the free side hold does not change |
| Ledger.GrowthBalances | src/core/block_allocator.cpp:40-54 | materializing a block moves it from the free stack to one table and cancels one promise, nothing else |
| Ledger.ReleaseBalances | src/core/scheduler.cpp:236-246 | a leaving request returns every block, its promise remainder and its slot |
| SchedulerInvariant.InitialInv | src/core/scheduler.cpp:36-49 | a new scheduler over a new pool satisfies the invariant |
| SchedulerInvariant.PromiseBacked | src/core/block_allocator.hpp:24-34 | any live request's promise is covered by blocks on the free stack: lazy allocation cannot fail |
| SchedulerInvariant.AdmissionIsBacked | src/core/scheduler.cpp:102-119 | under both policies a passing admission test implies the precondition of the reservation that follows |
| SchedulerInvariant.EnqueueKeepsInv | src/core/scheduler.cpp:95-100 | queueing a validated request with a new id keeps the invariant |
| SchedulerInvariant.AdmitKeepsInv | src/core/scheduler.cpp:132-143 | admission keeps the invariant and nobody's place in the global order changes |
| PlanStepInvariant.CoverKeepsInv | src/core/scheduler.cpp:166-173 | materializing the blocks of a prefill slice keeps the invariant and leaves exactly the blocks that cover the slice's end |
| PlanStepInvariant.BoundaryIsExact | src/core/scheduler.cpp:183-187 | a running row asks for a block exactly when its next position equals its capacity, never later |
| PlanStepInvariant.PromiseRemains | src/core/scheduler.cpp:199-207 | under worst-case reservation a row crossing a block boundary always has an unspent promise |
| PlanStepInvariant.GrowRowKeepsInv | src/core/scheduler.cpp:199-225 | growing a row under either policy keeps the invariant |
| PlanStepInvariant.EvictShape | src/core/scheduler.cpp:208-234 | eviction keeps a prefix of the running rows, records what it drops youngest first, and ends with an uncommitted block unless the asking row itself went |
| PlanStepInvariant.EvictKeepsInv | src/core/scheduler.cpp:208-234 | the invariant holds after every eviction |
| PlanStepInvariant.PlanDecodeShape | src/core/scheduler.cpp:177-197 | the planned batch is the surviving running rows, each possibly with more blocks; the aborted are exactly the missing suffix, youngest first |
| PlanStepInvariant.PlanDecodeKeepsInv | src/core/scheduler.cpp:177-197 | after decode planning every running row owns the block of the token it is about to write, although evicted rows' blocks may have been handed out again in the same plan |
| PlanTheorems.AdmitAllShape | src/core/scheduler.cpp:148-153 | admission takes a prefix of the waiting queue behind the prefills, touches no running row, and stops at the first head that does not fit |
| PlanTheorems.PlanStepKeepsInv | src/core/scheduler.cpp:145-197 | planning from any reachable state gives an executable plan: a non-empty slice of at most one chunk, or a batch covering the running rows |
| PlanTheorems.IdlePoolAdmits | src/core/scheduler.cpp:69-92 | a validated queue head is always admissible by an idle pool, under either policy |
| PlanTheorems.EmptyPlanIffIdle | src/core/scheduler.cpp:145-197 | a plan is empty exactly when nothing is waiting, prefilling or running |
| PlanTheorems.ReserveFullNeverAborts | src/core/scheduler.hpp:14-19 | worst-case reservation: planning never aborts anyone |
| PlanTheorems.AbortsAreYoungestSuffix | src/core/scheduler.cpp:208-234 | a prefill plan aborts nobody; a decode plan aborts exactly the running rows it does not execute, youngest first |
| PlanTheorems.OldestAbortedOnlyWhenAlone | src/core/scheduler.cpp:208-225 | if a plan evicts the oldest running request, that request alone owned every usable block and needed one more |
| PlanTheorems.FittingOldestSurvives | src/core/scheduler.cpp:208-225 | a request whose worst case fits the pool is never aborted while it is the oldest running one |
| AdmissionTheorems.OptionsMean | src/core/scheduler.cpp:36-42 | valid options are exactly those the constructor asserts |
| AdmissionTheorems.AcceptedIff | src/core/scheduler.cpp:51-92 | a request is accepted exactly when it has a prompt, a positive budget, both within the length limit, and an idle pool admits it: its worst case, or its prompt above the floor of usable blocks |
| AdmissionTheorems.RefusedForTheFirstReason | src/core/scheduler.cpp:51-92 | each reason for refusal is given exactly when its rule is the first to fail |
| AdmissionTheorems.AdmissionIsMaximal | src/core/scheduler.cpp:148-153 | planning stops admitting only at an empty queue, a full batch, or a head whose blocks do not fit what is uncommitted, so requests do run together |
| AdmissionTheorems.AdmissionIsJustified | src/core/scheduler.cpp:102-119 | every admitted head fitted, takes exactly its promise, and under the watermark policy leaves the floor uncommitted |
| AdmissionTheorems.AdmissionKeepsFloor | src/core/scheduler.cpp:148-153 | whatever a whole round admits, the floor is left uncommitted and the batch stays within its cap |
| AdmissionTheorems.DecodesOnlyWhenNobodyCanPrefill | src/core/scheduler.cpp:148-158 | a step decodes exactly when no admitted prompt is unfinished and the oldest waiting request cannot be let in: batch full, or its blocks do not fit |
| AdmissionTheorems.SlicesTheOldestPrompt | src/core/scheduler.cpp:158-175 | otherwise the step caches a whole chunk, or what is left, of the oldest prompt not cached yet |
| AdmissionTheorems.LowestSlotsFirst | src/core/scheduler.cpp:44-48 | while nobody has left, the request admitted after n others has slot n |
| AdmissionTheorems.PromiseIsExact | src/core/scheduler.cpp:121-130 | owned plus promised blocks are exactly the worst case of each live request under reservation; under the watermark policy exactly the prompt while prefilling, and a running request is promised nothing |
| AdmissionTheorems.EvictFrees | src/core/scheduler.cpp:214-221 | eviction gives back exactly the victims' blocks, and before its last victim nothing was uncommitted |
| AdmissionTheorems.EvictionIsMinimal | src/core/scheduler.cpp:177-234 | a decode plan keeps the longest prefix of the running rows whose block needs fit what is uncommitted plus what the evicted give back |
| AdmissionTheorems.NoNeedlessAbort | src/core/scheduler.cpp:208-225 | nobody is aborted while the rows that need a block can have one |
| CompleteStepInvariant.CompleteStepKeepsInv | src/core/scheduler.cpp:248-284 | committing any sampled tokens keeps the invariant, whichever rows finish |
| CompleteStepInvariant.PoolPartition | src/core/block_allocator.cpp:67-75 | each usable block and each batch slot is held exactly once, by the free stack or by one live request, and promises add up |
| PagedCache.OwnTable | src/core/model_executor.cpp:851-856 | a live block table has no repeated block, never the dummy, and only blocks of the pool |
| PagedCache.OtherTable | src/core/scheduler.cpp:166-173 | no block is in the tables of two live requests |
| PagedCache.SliceIsExact | src/core/model_executor.cpp:1062-1091 | a slice computed over a correct paged cache produces, at each of its positions, the entry full recomputation would cache there |
| PagedCache.SliceExtendsCache | src/core/model_executor.cpp:1062-1091 | after the slice its sequence is cached correctly through its end |
| StepExactness.PlanKeepsCache | src/core/scheduler.cpp:145-197 | admission, growth, eviction and block reuse leave every live request's cached positions correct |
| StepExactness.StepFrame | src/core/model_executor.cpp:1067-1071 | a step changes no position that a live request had cached: slices write only their own request's blocks, past its cached end |
| StepExactness.TokensAreSolo | src/core/engine.cpp:315-340 | every token a step samples is the one that recomputing that request alone would choose |
| StepExactness.CompleteStepKeepsCache | src/core/engine.cpp:296-373 | after a whole step each live request's paged contents are those of a contiguous cache of its own tokens |
| Accounting.EmitAndStay | src/core/scheduler.cpp:307-316 | a token that does not finish its request extends what that client heard along its solo stream, and nobody else's story moves |
| Accounting.EmitAndLeave | src/core/scheduler.cpp:318-332 | a finishing token completes its client's solo stream exactly |
| Accounting.AbortSettles | src/core/scheduler.cpp:253-259 | an eviction leaves its client with a proper prefix of the solo stream and one notice |
| EngineMachine.ArrivalKeepsEngineInv | src/core/engine.cpp:257-294 | an accepted arrival keeps the whole engine invariant |
| EngineMachine.StepKeepsEngineInv | src/core/engine.cpp:296-373 | a step keeps it: pool, cache contents, every client's story, vocabulary and arrival order |
| RunTheorems.Reachable | src/core/engine.cpp:296-373 | the engine invariant holds in every state of every run of arrivals and steps |
| RunTheorems.RequestAcceptedIff | src/core/engine.cpp:257-294 | the engine accepts exactly requests with all tokens in the vocabulary, a prompt, a positive budget, within the length limit and the empty pool; each vocabulary error is the first check to fail |
| RunTheorems.PromisesAndEvictionsAreExact | src/core/scheduler.cpp:145-234 | in every state of every run promises are exact and the next decode plan evicts no more than it must |
| RunTheorems.EveryRequestHearsItsSoloStream | src/core/engine.cpp:296-373 | in every state of every run each accepted request has heard a prefix of its solo stream, or under the watermark policy a proper prefix closed by one abort notice |
| RunTheorems.EveryWordIsExplained | src/core/scheduler.cpp:286-332 | over any run the k-th result about a request is what the stop-free reference says at position k; the only other result is a final watermark notice, token 0 |
| RunTheorems.OnlyAcceptedAreMentioned | src/core/engine.cpp:285-289 | nothing is ever reported about a request that was not accepted |
| RunTheorems.StoryShape | src/core/scheduler.cpp:248-332 | per request: at most one finished result, always last, only it carries a reason; no more than `maxNew` results; EOS never when ignored |
| RunTheorems.DrainedIsSolo | src/core/scheduler.hpp:14-19 | drained under worst-case reservation, every request heard its whole solo stream; under either policy every request is settled |
| RunTheorems.ForcedLength | src/bench_main.cpp:752-776 | with EOS ignored under worst-case reservation every drained request produced exactly the tokens it asked for and ended by length |
| RunTheorems.DrainRestoresPool | src/core/scheduler.cpp:236-246 | an idle engine has the whole pool and every batch slot back, and no outstanding promise |
| RunTheorems.PoolAlwaysPartitioned | src/core/block_allocator.cpp:67-75 | in every reachable state free stack and live tables hold each usable block exactly once, slots likewise, and reserved is the sum of live promises and at most the free count |
| RunTheorems.QueuesInArrivalOrder | src/core/scheduler.hpp:212-214 | running, prefilling and waiting requests, in that order, are in strict arrival order in every reachable state |
| RunTheorems.FirstTokensInArrivalOrder | src/core/scheduler.cpp:307-315 | a request is not heard from before every earlier accepted one has been |
| RunTheorems.SchedulingIsInvisible | src/core/engine.cpp:296-373 | the same request drained in two unrelated runs (other batch size, chunk, pool, neighbours) gets the same tokens and reasons |
| DrainBound.StepSpends | src/core/scheduler.cpp:145-284 | every non-empty step lowers the total remaining work, whether it caches a slice, produces tokens or only evicts |
| DrainBound.DrainsWithinBudget | src/core/scheduler.cpp:145-284 | with no further arrivals as many steps as the remaining work leave the engine idle: no stall under any options |
| DrainBound.BudgetOfQueue | src/core/scheduler.cpp:155-164 | for queued requests that budget is the sum of ceil(prompt / chunk) + maxNew - 1 |
| DrainBound.BudgetIsAttained | src/core/scheduler.cpp:145-284 | a request alone that ignores EOS under worst-case reservation needs every step of that budget: any fewer leave it unfinished |
| Departures.LeavesWhenFinished | src/core/engine.cpp:365-371 | a live request is gone after a step exactly when that step's results report it finished |
| PumpFacts.SilentStepsAdvanceTheHead | src/core/scheduler.cpp:261-270 | a step of a busy engine reports nothing only when it cached one whole chunk of the oldest prompt short of its end; any report leaves no half-cached head |
| PumpFacts.StoryProper | src/core/scheduler.cpp:248-332 | each accepted request's story has finished flags, reasons and positions that agree, and is open exactly while the request is live |
| PumpFacts.NothingOpenIsIdle | python/redline_client/__init__.py:81-128 | for a driver that submitted everything, its count of open requests is zero exactly when the engine is idle |
| ExecutorChecks.PlansPassEveryCheck | src/core/model_executor.cpp:808-859 | the plan of any state satisfying the invariant passes every check on every row or slice |
| ExecutorChecks.NoCheckEverFires | src/core/model_executor.cpp:1035-1091 | no executor check fires in any state of any run |
| BlockAllocation.BlockAllocator.constructor | src/core/block_allocator.cpp:8-19 | the free stack starts as total-1 down to 1, nothing promised, nothing outstanding |
| BlockAllocation.BlockAllocator.Reserve | src/core/block_allocator.cpp:26-31 | a promise raises the count and keeps free >= reserved |
| BlockAllocation.BlockAllocator.Unreserve | src/core/block_allocator.cpp:33-38 | cancelling lowers it by the amount, never below zero |
| BlockAllocation.BlockAllocator.AllocReserved | src/core/block_allocator.cpp:40-54 | the top block leaves the stack against one promise; it was not outstanding and now is |
| BlockAllocation.BlockAllocator.FreeBlock | src/core/block_allocator.cpp:56-65 | an outstanding block goes back on top and the shadow map stays exact |
| BlockAllocation.BlockAllocator.FreeAll | src/core/scheduler.cpp:236-239 | a whole table is returned in order with no double free |
| BlockAllocation.DistinctIdsFit | src/core/block_allocator.cpp:67-75 | distinct ids in 1..n number at most n |
| BlockAllocation.FreeListFits | src/core/block_allocator.cpp:67-75 | 0 <= reserved <= free <= usable in every valid allocator |
| Requests.Request.StartPrefill | src/core/scheduler.cpp:137-141 | admission sets promise, slot and state and nothing else |
| Requests.Request.ReleaseBlocks | src/core/block_table.hpp:34-36 | the table is handed over whole and left empty |
| Scheduling.MakeDecodeBuckets | src/core/scheduler.cpp:11-21 | the buckets are exactly those of 1, 2, 4, 8, 16, 32, 48 and 64 within the batch cap, ascending |
| Scheduling.SelectBucket | src/core/scheduler.cpp:23-34 | the smallest bucket that holds the batch, and -1 exactly when there is none or the batch is empty |
| Scheduling.Scheduler.constructor | src/core/scheduler.cpp:36-49 | empty queues, every slot free with 0 on top: the machine's initial state |
| Scheduling.Scheduler.Enqueue | src/core/scheduler.cpp:51-100 | validates in the original's order; a rejected request changes nothing, an accepted one joins the tail |
| Scheduling.Scheduler.MayAdmit | src/core/scheduler.cpp:102-119 | the object's test agrees with the machine's under both policies |
| Scheduling.Scheduler.Admit | src/core/scheduler.cpp:121-143 | moves the head as the machine does |
| Scheduling.Scheduler.MaterializePrefill | src/core/scheduler.cpp:166-173 | the growth loop takes promised blocks until the slice is covered, and always finds them |
| Scheduling.Scheduler.PlanSlice | src/core/scheduler.cpp:158-175 | the slice planned is the next chunk of the oldest prefill |
| Scheduling.Scheduler.ReleaseResources | src/core/scheduler.cpp:236-246 | blocks, promise remainder and slot all go back; the request is left empty |
| Scheduling.Scheduler.AbortYoungestRunning | src/core/scheduler.cpp:227-234 | removes the last running row, finished as aborted, with everything it held |
| Scheduling.Scheduler.EvictUntilFree | src/core/scheduler.cpp:214-221 | the eviction loop terminates and does what the machine's does, reporting whether the asking row survived |
| Scheduling.Scheduler.EnsureDecodeBlockCapacity | src/core/scheduler.cpp:199-225 | the row gets its block from its promise or the shared pool, or went itself |
| Scheduling.Scheduler.PlanDecodeBatch | src/core/scheduler.cpp:177-197 | plan.decode equals running_ after planning; nobody aborted is still queued |
| Scheduling.Scheduler.PlanStep | src/core/scheduler.cpp:145-197 | on shared mutable requests planning is exactly the machine's planning |
| Scheduling.Scheduler.AppendToken | src/core/scheduler.cpp:290-305 | appends the script's token at that position or, past the script, the sampled one, and returns the stop reason it decides |
| Scheduling.Scheduler.ApplySampledToken | src/core/scheduler.cpp:286-332 | a row goes on, joins the batch, or is erased in place and returns all it held; the emission carries the sampled token |
| Scheduling.Scheduler.ApplyRow | src/core/scheduler.cpp:324-328 | for running row j the erase removes exactly position j and keeps the order |
| Scheduling.Scheduler.CompleteBatch | src/core/scheduler.cpp:279-283 | committing the batch while rows erase themselves from running_ equals the machine's row-by-row commit |
| Scheduling.Scheduler.CompleteSlice | src/core/scheduler.cpp:261-277 | only the final slice pops the prefill queue and reports a token |
| Scheduling.Scheduler.CompleteStep | src/core/scheduler.cpp:248-284 | aborts first, then one result per produced token in plan order; state and results are the machine's |
| RowForward.LayerContext | src/core/model_executor.cpp:908-935 | rows that run together, scattering into one pool layer by layer, each attend exactly to the context they would have alone |
| RowForward.SliceRowsIndependent | src/core/model_executor.cpp:1062-1091 | rows of one prefill slice write distinct slots outside the dummy block and past its cached positions |
| RowForward.BatchIndependent | src/core/model_executor.cpp:784-874 | live decode rows of sequences sharing no block write pairwise distinct slots outside block 0 and nothing another row reads |
| Execution.DecodeCheckMeans | src/core/model_executor.cpp:815-856 | a row passes exactly when it has a token in the vocabulary, a length within the limit, and a table of real blocks that covers it and fits a mirror row |
| Execution.DecodeCheckOrder | src/core/model_executor.cpp:815-856 | the error of a failing row is the first check that fails |
| Execution.SliceCheckMeans | src/core/model_executor.cpp:1035-1091 | a slice passes exactly when it is a non-empty piece of the prompt of at most one chunk, within the limit, in the vocabulary and covered by real blocks |
| Execution.SliceCheckOrder | src/core/model_executor.cpp:1035-1091 | the error of a failing slice is the first check that fails |
| Execution.ModelExecutor.constructor | src/core/model_executor.cpp:260-262 | the mirrors have one row per batch member or slice token and one column per block of the longest sequence; the buckets are the ladder sizes up to the batch cap |
| Execution.ModelExecutor.FillTableRow | src/core/model_executor.cpp:844-859 | a mirror row is the table padded with the dummy block; a bad id stops it; no other row changes |
| Execution.ModelExecutor.DecodeRows | src/core/model_executor.cpp:788-806 | the row count: the caller's bucket, or live rows, or the smallest bucket covering live rows and the clamped padding request |
| Execution.ModelExecutor.FillRow | src/core/model_executor.cpp:808-860 | the checks in order, then token, position, length and table of one live row |
| Execution.ModelExecutor.PadRows | src/core/model_executor.cpp:862-871 | rows past the live ones hold token 0, position 0, length 0 and an all-dummy table; the live rows stay as loaded |
| Execution.ModelExecutor.FillDecodeMirrors | src/core/model_executor.cpp:784-874 | either every live row is loaded and the rest padded, or the first failing row's check is reported |
| Execution.ModelExecutor.FillPrefillMirrors | src/core/model_executor.cpp:1028-1094 | either the slice is loaded with absolute positions, or the first failed check is reported |
| Execution.ModelExecutor.WriteSlot | src/core/model_executor.cpp:1067-1071 | a live row addresses its own slot by p/16 and p%16; a padding row only the dummy block |
| Execution.ModelExecutor.ScatterLayer | src/core/model_executor.cpp:927-930 | whatever order rows run in, each live slot gets its row's entry and nothing else outside the dummy block changes |
| Execution.ModelExecutor.EnqueueDecodeForward | src/core/model_executor.cpp:894-957 | the layer loop over the shared pool leaves each live row as if it had run alone on the pool before the step |
| Execution.ModelExecutor.EnqueuePrefillForward | src/core/model_executor.cpp:1154-1217 | the same for the rows of one slice that attend to each other causally |
| Execution.ModelExecutor.PrefillChunk | src/core/model_executor.cpp:963-1026 | either a check failed and the pool is untouched, or the slice has executed; the final slice yields its sequence's first token |
| Execution.ModelExecutor.BucketForRows | src/core/model_executor.cpp:668-675 | the row count if it is a configured bucket, else -1 |
| Execution.ModelExecutor.DecodeEager | src/core/model_executor.cpp:677-719 | succeeds exactly when the batch fits and every row passes its checks; tokens are each row's own, whatever the padding |
| Execution.ModelExecutor.DecodeGraph | src/core/model_executor.cpp:721-782 | needs graphs and a covering bucket, runs at the smallest one, and yields the same tokens as the eager path; each error is named |
| Execution.StepIsDetermined | src/core/model_executor.cpp:862-871 | the executed slices alone determine the pool outside the dummy block: row order, padding and path do not matter |
| Serving.Engine.CheckTokens | src/core/engine.cpp:261-276 | true exactly when every token is in the vocabulary |
| Serving.Engine.AddRequest | src/core/engine.cpp:257-294 | an accepted request gets the next id and joins queue and live map; a rejected one changes nothing, not even the id counter |
| Serving.Engine.HasCapacity | src/core/engine.cpp:375-380 | fewer than 1024 requests waiting, and nothing else, grants capacity |
| Serving.Engine.Dispatch | src/core/engine.cpp:324-340 | replays exactly when graphs exist and some bucket covers the batch; either way each row's token is its own |
| Serving.Engine.Execute | src/core/engine.cpp:309-340 | the executor does to the real pool what the machine's device step allows; no check can fail |
| Serving.Engine.DropFinished | src/core/engine.cpp:365-371 | exactly the requests reported finished leave the live map |
| Serving.CountedPromptTokens | src/core/engine.cpp:296-373 | a step counts exactly the prompt tokens it caches: the next chunk, or what is left, of the oldest prompt not cached yet, and none when it decodes |
| Serving.Engine.Step | src/core/engine.cpp:296-373 | one iteration on the real objects is one machine step; abort notices come first and are counted, the rest is one result per decoded token or at most one of a slice; a replay is counted exactly when graphs exist and a bucket covers the decoded rows; the live map again holds exactly the queued requests |
| Client.DeliverOne | python/redline_client/__init__.py:103-126 | neither error branch can be reached; the completion gains the token unless it is an abort notice, and the unfinished count stays exact |
| Client.Generate | python/redline_client/__init__.py:42-128 | from an idle engine it terminates; it succeeds if and only if every prompt is accepted and within the idle tolerance, and then completion i, in submission order, belongs to a request accepted with exactly prompt i and budget i, unscripted, and spells its greedy continuation up to the first EOS, the budget or an eviction (exactly the budget when EOS is ignored and nothing can be evicted); otherwise the error is the refusal of the first refused prompt, or names a too long prompt with none refused before it, and the engine stays valid |
| Client.AnswersAreSolo | python/redline_client/__init__.py:42-128 | under worst-case reservation an answer holds exactly the tokens and reason of the solo stream |
| Client.AnswerSpelledOut | python/redline_client/__init__.py:103-126 | a settled completion holds the reference's own tokens, no EOS before its end unless ignored, and a reason that says what ended it |
| Client.AcceptedIsServable | python/redline_client/__init__.py:21-25 | if ceil(max_seq_len / prefill_chunk) - 1 <= 4096 every accepted prompt is within the tolerance |
| Client.AcceptedButTooLong | python/redline_client/__init__.py:21-25 | a 4098-token prompt with chunk 1 is accepted and exceeds it although every step makes progress |
| Client.AcceptedAtTheTolerance | python/redline_client/__init__.py:21-25 | the 4097-token prompt is within it |
| FloatConversion.RoundsToNearestEven | src/loader/convert.hpp:48-109 | every finite binary32 magnitude below 65536 converts to the nearest binary16 value, ties to even, subnormals exact, carries into the exponent and into infinity included |
| FloatConversion.NearestIsUnique | src/loader/convert.hpp:48-109 | nearest-even has one answer, so that statement fixes the result |
| FloatConversion.InfiniteExactlyFrom65520 | src/loader/convert.hpp:70-88 | the result is infinite exactly for magnitudes from 65520 to infinity, and NaN exactly for NaN |
| FloatConversion.SignAndClassPreserved | src/loader/convert.hpp:63-68 | for all 2^32 patterns sign, infinity and NaN class of the result follow the input |
| FloatConversion.ConversionIsMonotone | src/loader/convert.hpp:63-109 | larger non-NaN magnitudes never convert to smaller ones |
| FloatConversion.RankIsValueOrder | src/loader/convert.hpp:63-109 | signed bit order of finite patterns is the order of the values they encode, both zeros equal |
| FloatConversion.SignedConversionIsMonotone | src/loader/convert.hpp:63-109 | over all non-NaN 32-bit patterns, signs, zeros and infinities included, a value that is not smaller never converts to a smaller one |
| FloatConversion.ExactValuesKept | src/loader/convert.hpp:63-109 | a value binary16 can hold converts to itself |
| FloatConversion.WideningIsExact | src/loader/convert.hpp:41-46 | BF16 widened to binary32 keeps sign, class and exact value, read off its own exponent and fraction fields |
| FloatConversion.Bf16RoundsToNearestEven | src/loader/convert.hpp:111-115 | every finite BF16 pattern below 65536 becomes the nearest binary16 value, ties to even; the sign is the element's own; infinity exactly from 65536 on; NaN becomes the quiet NaN and nothing else does |
| FloatConversion.OverflowMeansAbove65504 | src/loader/convert.hpp:117-128 | for finite patterns the refusal test is a magnitude above 65504, the largest finite binary16 value |
| FloatConversion.OverflowIffInfinite | src/loader/convert.hpp:117-128 | the refusal test on BF16 bits holds exactly when the converted value is infinite |
| Staging.ConvertedMeans | src/loader/convert.cpp:42-55 | what a byte pair, low byte first, becomes: an FP16 element bit for bit, a BF16 one the nearest value under its own sign |
| Staging.RefusedMeans | src/loader/convert.cpp:50-52 | exactly BF16 elements of magnitude 65536 or more, or infinite, are refused |
| Staging.DrainedFrame | src/loader/convert.cpp:125-134 | host stores into a slot no copy in flight reads do not change what will arrive |
| Staging.EarlyStoreCorrupts | src/loader/convert.cpp:126 | a store under a copy in flight does change what arrives: the wait is necessary |
| Staging.StagedUploader.WaitSlot | src/loader/convert.cpp:106-111 | afterwards no copy out of the slot is in flight, and the outcome is unchanged |
| Staging.StagedUploader.FillSlot | src/loader/convert.cpp:42-55 | for every schedule of the copy engine during the loop, the slot holds the elementwise conversion, or the first refused element is reported |
| Staging.StagedUploader.Fire | src/loader/convert.cpp:135-138 | when the oldest copy fires it reads its slot then; what the device will finally hold does not change |
| Staging.StagedUploader.Issue | src/loader/convert.cpp:135-140 | queues one copy behind the others, marks its slot pending and turns to the other slot |
| Staging.StagedUploader.Upload | src/loader/convert.cpp:113-142 | refused exactly at the first out-of-range element with its absolute index, independently of chunking; otherwise the range will hold the conversion and nothing else moves; the uploader stays usable |
| Staging.StagedUploader.Synchronize | src/loader/convert.cpp:144-147 | everything issued has arrived: the device holds the outcome |
| Staging.NewUploader | src/loader/convert.cpp:78-91 | refuses exactly the staging sizes below the minimum |
| WeightLoading.LoadWeights | src/loader/weights.cpp:319-344 | succeeds exactly when every tensor is acceptable, and then every slab range holds its converted tensor; else blames the first; either way the engine is drained |
| WeightLoading.LayoutIsPlanned | src/loader/weights.cpp:241-283 | any layout of consecutive regions meets what the load loop requires |
| WeightLoading.SlabPlanner.Take | src/core/model_executor.cpp:125-136 | hands out the current offset and advances past the region by less than one alignment unit |
| WeightLoading.PlanSlab | src/loader/weights.cpp:254-281 | regions are aligned, in order and disjoint, inside the total |
| PrefillAttention.GemmStridedBatched | src/gemm/cublaslt_gemm.cpp:640-664 | every element of D gets its product and nothing outside D's cells changes |
| PrefillAttention.Scores | src/core/model_executor.cpp:1242-1263 | the strided-batched loop and the per-head loop both leave every head's row-major scores and touch nothing past the score planes |
| PrefillAttention.Outputs | src/core/model_executor.cpp:1273-1289 | the same for the probability-weighted values, written in place at each head's columns |
| PrefillAttention.ScoreCallFits | src/gemm/cublaslt_gemm.cpp:242-276 | cells of one call are distinct and inside the scratch region |
| PrefillAttention.ScoreCallMeans | src/gemm/cublaslt_gemm.cpp:242-276 | a call writes exactly its own heads' scores, computed from the shared K tile, and no other head's |
| PrefillAttention.OutCallMeans | src/gemm/cublaslt_gemm.cpp:278-312 | a call writes exactly its own heads' columns of attn_out |
| PrefillAttention.ScoresDetermined | src/core/model_executor.cpp:1222-1230 | any two buffers satisfying the scores property agree everywhere: both forms write the same memory |
| PrefillAttention.OutputsDetermined | src/core/model_executor.cpp:1273-1289 | likewise for attn_out |
| PrefillAttention.ScoreReadsInside | src/core/model_executor.cpp:1232-1240 | a scores call reads only inside its gathered K tile and its rows of qkv_out |
| PrefillAttention.OutReadsInside | src/core/model_executor.cpp:1273-1289 | a values call reads only inside its gathered V tile and its own head's probability plane |
| PrefillComposite.MaskedTail | src/core/model_executor.cpp:1265-1271 | exact zeros past a position reduce a product over the whole context to its prefix |
| PrefillComposite.CompositeIsAttention | src/core/model_executor.cpp:1219-1290 | the value product over the whole context is plain attention of each query over positions up to its own: chunk shape and mask drop out |
| PrefillComposite.AttentionIgnoresChunks | src/core/model_executor.cpp:1232-1271 | the same query over the same keys and values attends alike as a row of any two chunks, whatever lies past its position |
| PrefillComposite.PrefillSoftmax | src/core/model_executor.cpp:1265-1271 | every query weighs its own prefix and gives later positions an exact zero |
| PrefillComposite.EnqueuePrefillAttention | src/core/model_executor.cpp:1219-1290 | in either GEMM form, scores, softmax and values in sequence leave every head's attention over its own prefix in attn_out, and nothing past it changes |
| PrefillComposite.CheckedSliceFits | src/core/model_executor.cpp:138-163 | a slice that passes the executor's checks is a valid shape whose scores, tiles and rows fit the scratch allocated for the limits; the strides are the widths of a qkv row and an output row, a plane holds one KV head of the longest sequence |
| PrefillAttention.LinearIsRowMajor | src/gemm/cublaslt_gemm.cpp:214-240 | under the column-major dual a linear layer is row-major in and out, each output the product of its weight row and its token row |
| PlanCaching.NormalizedKeepsProblem | src/gemm/cublaslt_gemm.cpp:440-450 | normalizing is idempotent and keeps every address and product of the problem |
| PlanCaching.LayersChain | src/core/model_executor.cpp:906-957 | the products of a forward fit together: dense weights, whole rows, each reading rows as wide as the product before wrote, bias only in the first |
| PlanCaching.PlanCache.BuildPlan | src/gemm/cublaslt_gemm.cpp:610-612 | one more plan, indexed at its place |
| PlanCaching.PlanCache.Probe | src/gemm/cublaslt_gemm.cpp:457-464 | reports availability and leaves the configuration known |
| PlanCaching.PlanCache.Run | src/gemm/cublaslt_gemm.cpp:615-650 | inside a capture region the cache never grows and a miss is an error; outside, the configuration becomes known |
| PlanCaching.PlanCache.DecodeForward | src/core/model_executor.cpp:894-957 | a forward at a row count whose configurations are known asks for no plan, captured or not; in a capture region it succeeds exactly when they are known and available |
| PlanCaching.PlanCache.ProbeDecodeConfigs | src/core/model_executor.cpp:361-410 | before serving, everything a forward at any bucket or at the batch cap needs is known; success means it is all available |
| PlanCaching.PlanCache.CaptureDecodeGraphs | src/core/model_executor.cpp:565-612 | for row counts alone: warming each bucket with the forward that is then captured means capture adds no plan and fails in no case the warmup did not; if all was probed, neither phase adds one |
| PlanCaching.PlanCache.FinalChunkHeadIsWarm | src/core/model_executor.cpp:1203-1214 | the one-row head of a final prefill chunk is among what bucket 1 warmed |
| PlanCaching.ServeAfterCapture | src/core/model_executor.cpp:282-289 | probe, capture, then any steps at buckets or the batch cap: the cache never grows after probing |
| PumpRouting.DeliveredTicket | bench/adapters/redline_a.py:237-253 | a registration reaches its task once, for a request that is not streaming yet |
| PumpRouting.NextKeepsInv | bench/adapters/redline_a.py:207-265 | every interleaving step of engine thread, pump and streaming tasks keeps the routing invariant |
| PumpRouting.PumpRoutesEverything | bench/adapters/redline_a.py:207-265 | in every interleaving the pump meets no unmapped id, each queue holds exactly its request's emissions in order, and the pump has exited exactly when every queue is closed |
| PumpRouting.AddsWaitForCapacity | bench/adapters/redline_a.py:237-253 | in every interleaving a request reaches the engine only after the engine said it had capacity for it |

## Left out

- Kernels and float numerics: the forward pass is an arbitrary row-wise function of a row and the entries it attends to, so shape-dependent rounding of batched GEMMs is not modelled; GEMM products are over reals.
- Uploads, streams, graph instantiation and NVTX: kernels read the host mirrors directly; a graph replay runs the same steps as the eager path.
- CUDA failures and exceptions in the middle of a step: `CompleteStep` runs exactly once per plan, as its contract demands.
- Warmup inputs (`FillDummyDecodeMirrors`) and the degrade-to-eager cleanup: they run before any request and write only the dummy block; whether graphs exist is a parameter.
- Attention kernels: one function `block` stands for both the decode attention kernel and the prefill composite, so the two are taken to agree. That the composite is plain attention over each query's prefix is proved over reals in `PrefillComposite` with an arbitrary softmax; the decode kernel's body is not modelled.
- The gather kernel: `PrefillComposite` starts from gathered tiles, and the exactness proof reads the context through the table directly.
- Engine construction: preflight checks, memory sizing, `Stats` and the layer-0 dump.
- The watermark fraction is a real number, not a double; counts, ids and lengths are unbounded integers outside the bit-level conversion.
- Bit operations of the conversion are written as division and remainder by powers of two.
- Popping an empty stack yields a sentinel in the machine; no reachable state does it, and the classes prove it.
- Lazily evaluated prompt iterables in `generate`.
- Checkpoint parsing, tensor names and the pinned geometry of the weight map: `LoadWeights` takes any list of disjoint destination ranges.
- Pinned-buffer allocation, event errors and the destructor of the uploader.
- Algorithm selection, workspace and alignment attributes of GEMM plans: availability is an arbitrary function of the configuration.
- Queue consumption by the streaming tasks and cancellation after a failed trial; naps are delays an interleaving may already contain.
- Client.DeliverOne: the `on_token` callback is not modelled.
- Serving.Engine.Step: the per-bucket step histogram is not modelled.
- Execution.ModelExecutor.PrefillChunk: resolving the GEMM mode can throw in the original when no algorithm exists for a shape; here it cannot.
- PumpRouting.PumpRoutesEverything: the engine behind it may be any that reports only live requests and falls silent after a finish, as `RunTheorems.OnlyAcceptedAreMentioned` and `RunTheorems.StoryShape` prove of this one.
- Progress of one request under an endless stream of arrivals: prefill steps take priority, so it is claimed for closed sets of arrivals only.
- HTTP and vLLM adapters, report rendering, pod scripts and fixtures.
