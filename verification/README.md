# Verified model of microllm's distributed training, decoding and evidence contracts

This project models, in Dafny 4.11, the parts of microllm whose correctness spans several functions or several
processes, and proves properties of them. `dfyconfig.toml` includes every Dafny file of the project.

**Ranked training.** W processes agree on a communicator through a file, average their token counts, and train in
lockstep under one of seven reducer policies; rank 0 publishes a checkpoint at the end. `RankProtocol` states the
run as a transition system whose events are arbitrary interleavings of rank moves and timeouts; its `Move` follows
`run_rank` (apps/distributed_rank.cpp, lines 712 to 1096), with `Gate` for lines 729 to 780 and `FinishStep` for lines
1022 to 1057. The main results
quantify over every interleaving: each rank simulates single-process training on the concatenated batch
(`RankTheorems`), the ranks stay in lockstep, healthy fair runs finish (`RankProgress`, `RankRuns`), publication is
safe (`RankPublication`), an injected failure is reported as success only through left-over files (`RankFailure`), and
a resumed run ends where an uninterrupted one does. `RankWorker` and `RankPlan` are
the classes behind one step of one rank: the gradient-ready hook, the bucket plan with its overlapped and
synchronous paths, the gather kernel and the counters. What `RankWorker.RunStep` puts on the wire and adopts is
`Layout.Payloads` and `Layout.Deliver`, the same two functions the transition system sends and receives, and
`RankTogether` runs the workers of all ranks side by side and shows that their traffic is the transition system's.

**Packing and readiness.** `BucketRanges` holds the packing loops and their optimality, `Readiness` the analysis of
a gradient ready order, `Evidence` the closed forms of the evidence scripts.

**Decoding.** `Network` is a causal layered network with uninterpreted projections, attention and head; its
key/value cache is proved to hold what a full pass would compute. `Decoding` proves the cached driver against the
uncached one, `Requests` defines what a request yields alone, `Scheduler` is the continuous batch scheduler, and
`Arrivals` the loop that feeds it.

**Contracts around the core.** `CheckpointFile` is the byte format of checkpoints, `CheckpointStore` ties it to the
checkpoints of the ranked protocol, `NumberLists` is the list printer and parser and the contract strings, `TrainLoop`
the single-device loop, `Fixtures` the sharded-fixture tool, `Statistics` and `Percentiles` the arithmetic of the
evidence.

Arithmetic is over exact reals. The network, the row gradient, the optimizer update and the random draw are
uninterpreted deterministic functions. A collective completes when every rank has contributed and returns the
element-wise mean.

## Where the code and its own descriptions disagree

The model follows the code.

- The readiness audit counts every bucket but one as ready early. Buckets are enqueued from the last one down, so the
  plan really enqueues fewer before the last gradient; the difference is the index of the bucket still open.
- The per-rank totals in the evidence script ignore that two policies weigh in the reducer.
- A left-over identifier file can hang a group, and a left-over ready file that names the same step lets a rank leave
  its wait early; both conditions are exact.
- The greedy packing is minimal exactly when no exactly full bucket is followed by a bucket of empty tensors.
- With the injected failure of rank 0 another rank can still report a verified checkpoint: exactly when the ready file
  of an earlier run names the final step and the old checkpoint carries the same three counters.
- The scheduler refuses sampling settings and cache types that plain generation accepts because it never uses them, such
  as a negative temperature in a request for no tokens.
- A prepared fixture manifest may fail its own validation behind links to single files; links to directories do no harm.
- The cached path refuses one prompt length that the uncached path accepts.
- A tensor of more than 64 dimensions is written to a checkpoint that cannot be read. An empty tensor with other
  dimensions whose product overflows can be described in a file but not built.

## Model

| member | source | states |
|---|---|---|
| `RankTheorems.RanksSimulateReference` | apps/distributed_rank.cpp:818-1036 | in every reachable state of every interleaving, a rank that completed n steps holds exactly the parameters, moments and counters of single-process training on the concatenated batch after n steps, under all seven policies and both weighting modes |
| `RankTheorems.LockstepIsReference` | apps/distributed_rank.cpp:660-691 | when every rank is admitted, averaging the weighted local gradients step by step is reference training on the concatenated batch |
| `RankTheorems.StepMeansAdmitted` | apps/distributed_rank.cpp:729-738 | a rank that completed a step has seen every rank pass the gate |
| `RankTheorems.CollectivesInLockstep` | apps/distributed_rank.cpp:818-958 | the collectives any two ranks have joined are prefixes of one common sequence of kinds |
| `RankTheorems.NoRankRunsAhead` | apps/distributed_rank.cpp:880-958 | a rank that completed step s has been joined by every rank in every collective of step s |
| `RankTheorems.UnevenNeverTrains` | apps/distributed_rank.cpp:722-738 | in equal-only mode with unequal token counts no gradient collective ever completes and no rank completes a step, in any interleaving |
| `RankTheorems.RejectionsAreExact` | apps/distributed_rank.cpp:730-734 | of the ranks the gate has judged, exactly those give up there whose count, in equal-only mode, is not the mean; then the counts are unequal |
| `RankSimulation.RunFollows` | apps/distributed_rank.cpp:712-1096 | every run keeps the simulation invariant: contributions are a prefix of the common script, training state, weights and files are what the phase of rank 0 says |
| `RankSimulation.ResultsDeliver` | apps/distributed_rank.cpp:880-958 | the completed collectives of a step deliver the parameter-wise average of the weighted local gradients |
| `RankSimulation.StepAdvances` | apps/distributed_rank.cpp:1022-1036 | finishing a step from those results is one step of the common state |
| `RankSimulation.TokensAveraged` | apps/distributed_rank.cpp:722-728 | the token collective returns the mean token count on every rank |
| `RankSimulation.GateCases` | apps/distributed_rank.cpp:729-780 | the gate rejects, refuses or admits exactly by weighting mode, mean and checkpoint contract, and an admitted rank has the right weight and start state |
| `RankControl.RunKeepsCounted` | apps/distributed_rank.cpp:818-1062 | every run keeps the number of contributions of each rank equal to what its program counter says, and what a rank relies on has been contributed by all |
| `RankProgress.NoDeadlock` | apps/distributed_rank.cpp:712-1096 | as long as some rank is not done, some rank can move |
| `RankProgress.MoveDecreases` | apps/distributed_rank.cpp:712-1096 | every move decreases the remaining-moves measure of the mover |
| `RankProgress.MoveKeepsAlive` | apps/distributed_rank.cpp:730-780 | under healthy files and an accepted weighting no move fails, except a failed verification |
| `RankRuns.RoundProgresses` | apps/distributed_rank.cpp:712-1096 | a round in which every rank gets a turn, in any order, decreases the total measure |
| `RankRuns.FairRunsFinish` | apps/distributed_rank.cpp:712-1096 | every healthy run that keeps giving each rank a turn ends with all ranks done, the reference state everywhere, and the requested checkpoint published with that state |
| `RankRuns.HealthyRunsExist` | apps/distributed_rank.cpp:144-205 | for every world size and step count there is a healthy configuration with a checkpoint |
| `RankRuns.IdFileCondition` | apps/distributed_rank.cpp:329-364 | a run can get stuck for good in the bootstrap exactly when an identifier file of an earlier run is present (the waiting rank accepts any file of the right size) |
| `RankRuns.StaleIdHangs` | apps/distributed_rank.cpp:346-364 | if rank 1 reads a left-over identifier first, no rank ever contributes to any collective, whatever happens afterwards |
| `RankPublication.PublicationSafety` | apps/distributed_rank.cpp:1058-1096 | if the ready file did not already name the final step, a rank leaves its wait only after rank 0 saved the reference state of that step and every rank finished training, and verification succeeds |
| `RankPublication.SavedByRankZero` | apps/distributed_rank.cpp:1067-1075 | once rank 0 has published, the checkpoint holds the reference state of the final step |
| `RankPublication.InjectedFailureNeverVerifies` | apps/distributed_rank.cpp:1064-1068 | with the injected failure, and a ready file that did not already name the final step, no rank ever reaches verification or completion, and the checkpoints stay as they were |
| `RankFailure.InjectedFailureVerifiesOnlyStale` | apps/distributed_rank.cpp:1058-1096 | with the injected failure the checkpoints stay as they were, rank 0 never completes, and another rank completes only if the ready file already named the final step and the old checkpoint already had the three counters |
| `RankFailure.StaleCheckpointVerifies` | apps/distributed_rank.cpp:1085-1096 | constructs, for every such pair of left-over files, a run in which rank 1 reports the old checkpoint as verified |
| `RankFailure.InjectedFailureCondition` | apps/distributed_rank.cpp:1058-1096 | with the injected failure some run ends with a rank done exactly when the ready file already names the final step and the old checkpoint has this run's final counters |
| `RankRuns.ReadyFileCondition` | apps/distributed_rank.cpp:366-403 | some run lets a rank leave its wait before rank 0 has published exactly when the ready file already names the final step |
| `RankRuns.StaleReadyBreaksSafety` | apps/distributed_rank.cpp:390-403 | constructs such a run for every healthy configuration with a stale ready file |
| `RankRuns.ResumeEqualsUninterrupted` | apps/distributed_rank.cpp:750-780 | k steps with a checkpoint, then a new process group resuming for m steps, end in the same training state as k+m steps without interruption, for all interleavings and whatever the policies of the three runs |
| `Training.GlobalMean` | apps/distributed_rank.cpp:735-738 | the average over ranks of token-weighted local mean gradients is the mean gradient of the concatenated batch |
| `Training.GlobalLoss` | tools/distributed/run_ranked.py:678-683 | the mean of the ranks' losses weighted by their rows is the mean loss of the concatenated batch |
| `Training.GateIffUneven` | apps/distributed_rank.cpp:730-734 | some rank rejects exactly when the token counts are not all equal |
| `Training.MeanRankPasses` | apps/distributed_rank.cpp:730-734 | a family of uneven counts in which one rank does not itself reject |
| `Training.UnitScale` | apps/distributed_rank.cpp:735-738 | the local weight is positive, and is one exactly when the mode is unweighted or the count is the mean |
| `Training.ReferenceResumes` | apps/distributed_rank.cpp:667-691 | reference training for k and then m steps is reference training for k+m steps |
| `Training.ReferenceCounters` | apps/distributed_rank.cpp:818-820 | global step, optimizer step and data cursor advance by exactly n, n and n times the context |
| `Batches.LocalBatch` | apps/distributed_rank.cpp:262-288 | the flat buffers of one rank hold its rows in order |
| `Batches.GlobalBatch` | apps/distributed_rank.cpp:290-313 | the global batch is the row-by-row concatenation of the local batches, with the right row count |
| `Reducers.ReducerIndependence` | apps/distributed_rank.cpp:880-958 | every policy, overlapping or not, leaves the parameter-by-parameter average of the weighted local gradients |
| `Reducers.BucketResult` | src/multi_gpu/gradient_bucket.cpp:976-1052 | the collective that carries a bucket returns the packed average of that bucket |
| `Vectors.AverageFlatten` | src/multi_gpu/gradient_bucket.cpp:994-1018 | averaging packed buffers is packing the averages |
| `Vectors.SplitFlatten` | src/multi_gpu/gradient_bucket.cpp:1023-1050 | slicing a packed buffer by the element counts gives the gradients back |
| `RankPlan.RankCommunicator.EnqueueAllReduceAverage` | src/multi_gpu/communicator.cpp:218-243 | puts the locally scaled vector on the wire once, or refuses a scale that is not positive without effect |
| `RankPlan.PackBucket` | src/multi_gpu/gradient_bucket.cpp:320-341 | the copied bucket is the concatenation of its gradients |
| `RankPlan.EnqueueBucket` | src/multi_gpu/gradient_bucket.cpp:301-345 | the bucket goes on the wire with the weight applied exactly once, by the gather or by the collective |
| `RankPlan.ReduceRanges` | src/multi_gpu/gradient_bucket.cpp:976-1052 | a synchronous reduction issues exactly the ascending payloads of the weighted gradients, adopts what is delivered, and reports the predicted counters |
| `RankPlan.RankGradientBucketPlan.BeginOverlapStep` | src/multi_gpu/gradient_bucket.cpp:238-277 | succeeds exactly when the plan is initialized, has views, is idle, the scale is positive, and rank, world size, device and parameters are those the plan is bound to; then nothing is marked and no bucket is enqueued |
| `RankPlan.RankGradientBucketPlan.MarkParameterReady` | src/multi_gpu/gradient_bucket.cpp:279-369 | reports not-active, out-of-range, duplicate or invalid exactly in those cases without effect; otherwise marks the parameter and enqueues exactly the buckets that became complete behind the frontier, last bucket first |
| `RankPlan.RankGradientBucketPlan.FinishOverlapStep` | src/multi_gpu/gradient_bucket.cpp:371-425 | succeeds exactly when every bucket has been enqueued, and then leaves the averaged views and the predicted counters |
| `RankPlan.RankGradientBucketPlan.AllReduce` | src/multi_gpu/gradient_bucket.cpp:803-1052 | fails exactly for a limit below the four bytes of one element, a scale that is not positive, or a bound plan whose endpoint, parameters, byte limit, storage or gradient sizes differ, and then without effect; otherwise binds the plan, issues the ascending payloads and adopts what is delivered |
| `RankPlan.MarkKeepsTracks` | src/multi_gpu/gradient_bucket.cpp:291-312 | marking one parameter updates the count and flag of its bucket only |
| `RankPlan.EarlyEnqueues` | src/multi_gpu/gradient_bucket.cpp:314-368 | with one bucket incomplete, exactly the buckets behind it have been enqueued |
| `RankWorkers.RankWorker.GradientReady` | apps/distributed_rank.cpp:795-814 | the hook weights and marks its gradient once inside an overlapped step and does nothing outside |
| `RankWorkers.RankWorker.BackwardOverlapped` | apps/distributed_rank.cpp:795-837 | for every ready order and whatever unfinished gradients hold, only final weighted gradients are ever packed |
| `RankWorkers.RankWorker.AllArrived` | apps/distributed_rank.cpp:826-850 | when every gradient has arrived, the step has issued exactly its payloads in descending bucket order |
| `RankWorkers.CompleteBucketIsFinal` | src/multi_gpu/gradient_bucket.cpp:314-345 | a complete bucket only packs gradients that are final |
| `RankWorkers.RankWorker.Produce` | apps/distributed_rank.cpp:821-860 | backward and weighting never trip the check that every gradient was weighted exactly once |
| `RankWorkers.RankWorker.RunStep` | apps/distributed_rank.cpp:818-1021 | a step under any policy issues exactly the payloads of the weighted gradients, adopts exactly the delivered gradients, passes all its own checks and keeps step lists and totals as predicted; the first step of an overlap policy is synchronous |
| `RankWorkers.RankWorker.PredictedCountersPass` | apps/distributed_rank.cpp:996-1019 | the predicted counters satisfy the run-time checks on bucket scales and gathers |
| `RankTogether.StepTogether` | apps/distributed_rank.cpp:818-1036 | one step of all W workers, each with its own gradients and ready order: every worker issues its payloads, and all hold the parameter-wise average of the weighted gradients |
| `RankTogether.TrainTogether` | apps/distributed_rank.cpp:818-1036 | a run of all W workers, each with its own copy of the state: every copy goes through the common states of the protocol, and the workers have issued exactly the protocol's payloads |
| `RankTogether.WireIsScript` | apps/distributed_rank.cpp:722-1062 | the contributions of a rank in the transition system are its token count, what its worker issues, and the barrier |
| `RankTogether.LaunchWorkers` | apps/distributed_rank.cpp:782-820 | the workers of a run exist: separate objects, one per rank, with the right weights |
| `RankWorkers.AuditOverstatesOverlap` | benchmarks/distributed/data_parallel_gradient_ready_audit.py:101-122 | the audit's early-bucket count exceeds the buckets really enqueued before the last gradient by the index of the bucket still open |
| `RankWorkers.OverstatementHappens` | benchmarks/distributed/data_parallel_gradient_ready_audit.py:101-122 | for every layout with at least two buckets some ready order leaves nothing enqueued before the last gradient |
| `GatherScale.GatherElement` | src/multi_gpu/gather_scale.hip:13-39 | the binary search finds the source tensor of every destination element |
| `GatherScale.Launch` | src/multi_gpu/gather_scale.hip:43-62 | the kernel writes the scaled concatenation of the gradients |
| `GatherScale.BuildDescriptors` | src/multi_gpu/gradient_bucket.cpp:908-941 | descriptors place every gradient directly behind the gradients before it |
| `BucketRanges.PackRanges` | benchmarks/distributed/data_parallel_gradient_ready_audit.py:62-79 | the nested loops give the greedy packing: consecutive, covering, element counts right, every bucket closed at the first place where it is full or the next tensor does not fit |
| `BucketRanges.GreedyUnique` | src/multi_gpu/gradient_bucket.cpp:52-78 | there is exactly one greedy packing, so a reused plan never differs from a fresh one |
| `BucketRanges.GreedyMinimalIff` | benchmarks/distributed/data_parallel_gradient_ready_audit.py:62-79 | for every counts and limit, the greedy packing has the fewest buckets of all admissible contiguous partitions exactly when no bucket of exactly the limit is followed by a bucket of empty tensors |
| `BucketRanges.GreedyIsOptimal` | benchmarks/distributed/data_parallel_gradient_ready_audit.py:62-79 | with positive element counts no admissible contiguous partition has fewer buckets |
| `BucketRanges.EmptyTensorBreaksOptimality` | benchmarks/distributed/data_parallel_gradient_ready_audit.py:62-79 | at every positive limit there are counts whose greedy packing is not minimal |
| `BucketRanges.ElementsConserved` | benchmarks/distributed/data_parallel_gradient_ready_audit.py:62-79 | the element counts of the buckets add up to the total |
| `BucketRanges.Covered` | benchmarks/distributed/data_parallel_gradient_ready_audit.py:62-79 | every parameter lies in a bucket |
| `BucketRanges.RangesOrdered` | benchmarks/distributed/data_parallel_gradient_ready_audit.py:62-79 | earlier buckets end before later ones begin |
| `BucketRanges.Chunks` | benchmarks/distributed/benchmark_allreduce.cpp:72-77 | fixed-size chunks conserve the total, are full but for the last one, and number ceil(total/size) |
| `Readiness.Audit` | benchmarks/distributed/data_parallel_gradient_ready_audit.py:97-122 | one row per bucket with first and last ready position; all buckets but one are ready before backward ends, for every ready order |
| `Readiness.OneLateBucket` | benchmarks/distributed/data_parallel_gradient_ready_audit.py:101-122 | exactly the bucket of the last ready parameter completes at the final position |
| `Readiness.CompletionsDiffer` | benchmarks/distributed/data_parallel_gradient_ready_audit.py:101-122 | completion positions are pairwise different |
| `Readiness.ReverseCompletions` | benchmarks/distributed/data_parallel_gradient_ready_audit.py:123-140 | under reverse order a bucket completes with its first parameter and completion positions strictly decrease with the bucket index |
| `Readiness.ReadyOrderCovers` | benchmarks/distributed/data_parallel_gradient_ready_audit.py:97-100 | a ready order without repetition leaves no parameter out |
| `Evidence.PlanTotals` | benchmarks/distributed/ranked_training_matrix.py:195-215 | totals of collectives, plan reuses, overlapped steps and buckets over a run are the scripts' closed forms |
| `Evidence.ScaleTotals` | benchmarks/distributed/ranked_training_matrix.py:216-247 | totals of tensor and bucket scalings are the scripts' closed forms |
| `Evidence.GatherTotals` | benchmarks/distributed/ranked_training_matrix.py:248-263 | totals of gathers, descriptor copies and descriptor bytes are the scripts' closed forms |
| `Evidence.CopyTotals` | tools/distributed/run_ranked.py:619-657 | pack copies are one per tensor and step unless the policy gathers or does not bucket; every bucketed tensor is either left as a view or copied out once, and the view policies leave views only |
| `Evidence.TotalsOfRun` | apps/distributed_rank.cpp:992-1021 | accumulated totals are the sum of the step counters, the first step apart |
| `Evidence.StepLists` | benchmarks/distributed/ranked_overlap_context_matrix.py:159-166 | plan reuse and overlap lists are zero followed by ones, the bucket list zero followed by the bucket count |
| `Evidence.MaximumStepScales` | benchmarks/distributed/ranked_training_matrix.py:216-221 | the maximum over ranks of tensor scalings per step is the tensor count exactly when the mode is weighted, the policy does not weigh in the reducer and the counts differ |
| `Evidence.MaximumBucketScales` | benchmarks/distributed/ranked_training_matrix.py:234-247 | the maximum over ranks of bucket scalings per step is the bucket count exactly when the mode is weighted, the policy scales buckets and the counts differ |
| `Evidence.ScriptRankTotalsRight` | benchmarks/distributed/ranked_training_matrix.py:222-233 | the per-rank totals list of the script equals the real totals exactly unless the policy weighs in the reducer and the rank carries a weight |
| `Network.Causal` | src/model/model.cpp:1329-1456 | the hidden state of a position does not depend on later tokens |
| `Network.CachesExtend` | src/model/model.cpp:1412-1419 | appending the key and value of a new token keeps the cached layer equal to a full pass over the longer text |
| `Network.ForwardCachedRow` | src/model/model.cpp:2855-2918 | one cached token step leaves the cache of the longer text and returns the logits of a full pass over it |
| `Network.ForwardFull` | src/model/model.cpp:2519-2665 | a pass over the whole text stores the cache of that text and returns its logits |
| `Network.FirstMaximum` | apps/hf_infer.cpp:1226-1236 | picks the first maximum |
| `Network.Argmax` | src/ops/hip/basic_kernels.hip:1528-1607 | is a maximum, and all earlier elements are smaller |
| `Decoding.KVCache.ForwardCached` | src/model/model.cpp:2855-2918 | fails exactly when the cache is full or larger than the context; otherwise every row advances by its token with the right logits |
| `Decoding.KVCache.PrefillCached` | src/model/model.cpp:2596-2665 | fails exactly for an empty prompt, a used cache or too little room; otherwise fills every row with its prompt |
| `Decoding.PrepareCached` | apps/hf_infer.cpp:1089-1115 | full and token-by-token preparation succeed under the same condition for a non-empty prompt and leave the same state |
| `Decoding.DecodeCached` | apps/hf_infer.cpp:1117-1204 | succeeds exactly when the calls it makes fit the cache; records the suffix of its mode; identical rows never trip the divergence check; final position is prompt plus calls |
| `Decoding.SuffixIsGreedy` | apps/hf_infer.cpp:1140-1176 | generation records the greedy continuation of length n, steady mode that of length n+1 without its first token |
| `Decoding.ForcedByOwnChoices` | apps/hf_infer.cpp:1147-1158 | forcing the tokens generation would choose reproduces steady mode |
| `Decoding.UncachedStep` | apps/hf_infer.cpp:1208-1245 | recomputes every row from its whole text and appends its first maximum, as long as the text fits the context |
| `Decoding.DecodeUncached` | apps/hf_infer.cpp:1247-1261 | identical rows grow by the greedy continuation and never trip the divergence check; fails exactly when the context ends |
| `Decoding.GenerateUncached` | apps/hf_infer.cpp:1263-1270 | gives the same suffix as the cached driver in generation and steady mode, whenever the texts fit the context |
| `Decoding.GenerateCached` | apps/hf_infer.cpp:2509-2545 | a cached run gives the suffix of its mode for either kind of prefill, and fails exactly when prompt plus calls exceed the capacity or the capacity exceeds the context |
| `Decoding.CompareDrivers` | apps/hf_infer.cpp:2465-2474 | runs both drivers, the cached one with the program's own capacity: wherever the cached one succeeds the other does with the same tokens, and the uncached one alone succeeds exactly in generation mode with prompt plus new tokens one above the context |
| `Decoding.MeasureCached` | apps/hf_infer.cpp:3133-3138 | repeated runs never change their result, and the row forward passes made are the reported number |
| `Decoding.MeasureUncached` | apps/hf_infer.cpp:3133-3138 | the same for the uncached driver; it fails exactly when there is a run to repeat and its texts outgrow the context |
| `Decoding.AccountBytes` | apps/hf_infer.cpp:1177-1202 | bytes by type make up the total, active bytes never exceed it, and both are the closed forms of capacity and position |
| `Requests.GenerateAlone` | src/inference/generator.cpp:71-151 | fails exactly for a request that is malformed or, if it asks for tokens, has unusable cache types or sampling settings that the choice looks at; otherwise returns the prompt and its isolated continuation |
| `Requests.IsolatedShape` | src/inference/generator.cpp:129-148 | an isolated result has at most the requested length, a stop token only at its end, and is shorter only if it stopped |
| `Requests.ValidateRequest` | src/inference/scheduler.cpp:32-63 | accepts exactly the acceptable requests |
| `Scheduler.ContinuousScheduler.Submit` | src/inference/scheduler.cpp:853-883 | accepts exactly requests that are acceptable, have the scheduler's cache types and fit the cache, and appends them without touching any other |
| `Scheduler.ContinuousScheduler.NextAdmissions` | src/inference/scheduler.cpp:719-740 | admits the first pending request, and others of the same prompt length only when prefills are batched, never more than fit |
| `Scheduler.ContinuousScheduler.AdmitPending` | src/inference/scheduler.cpp:710-788 | fills free slots until none is free or nothing is pending, and loses no work |
| `Scheduler.ContinuousScheduler.SelectTokens` | src/inference/scheduler.cpp:790-821 | the batched argmax and the row-wise choice agree: every occupied slot gets the next token of its owner |
| `Scheduler.ContinuousScheduler.Accept` | src/inference/scheduler.cpp:925-948 | hands a token to its request, completing it and releasing its slot exactly at a stop token or the length limit |
| `Scheduler.ContinuousScheduler.FeedSurvivors` | src/inference/scheduler.cpp:949-990 | brings every surviving slot up to date |
| `Scheduler.ContinuousScheduler.Step` | src/inference/scheduler.cpp:898-992 | keeps every request on the way to its isolated result and produces at least one token whenever a request is active |
| `Scheduler.ContinuousScheduler.RunUntilIdle` | src/inference/scheduler.cpp:994-1006 | ends; succeeds without a limit, and with any limit of at least the remaining tokens |
| `Scheduler.ContinuousScheduler.Cancel` | src/inference/scheduler.cpp:885-896 | cancels exactly an active request and changes nothing else |
| `Scheduler.ContinuousScheduler.ServedAsIfAlone` | src/inference/scheduler.cpp:898-992 | a completed request holds its isolated result, and every request a prefix of it, whatever shared the slots with it |
| `Scheduler.AdvanceOnTrack` | src/inference/scheduler.cpp:925-948 | giving a request its next token keeps it on track and decreases its remaining work |
| `Arrivals.RunContinuous` | apps/hf_infer.cpp:1439-1478 | ends; fails exactly when some request is unacceptable or does not fit; otherwise submits every request exactly once, at its arrival tick, in order of tick and index, and every request gets its isolated tokens |
| `Arrivals.RunOfficial` | apps/hf_infer.cpp:1418-1478 | with the cache sized for the longest request, succeeds exactly when there is one cache type per layer and every request is acceptable with those types; slots, arrivals and prefill batching leave no trace in the tokens |
| `Arrivals.RunSequential` | benchmarks/end_to_end/benchmark_scheduler.cpp:145-156 | one request after the other: succeeds exactly when plain generation takes every request, with the isolated tokens |
| `Arrivals.RunSubmitAll` | benchmarks/end_to_end/benchmark_scheduler.cpp:200-218 | everything submitted before the first step: succeeds exactly when there is one cache type per layer and every request is acceptable with those types, with the isolated tokens |
| `Arrivals.GenerableBeyondServable` | src/inference/generator.cpp:71-151 | plain generation takes what the scheduler takes, and beyond that exactly well-formed requests with a setting only the scheduler looks at: sampling settings nothing is sampled with, or cache types that are not used or not the scheduler's |
| `Arrivals.RunAllWays` | benchmarks/end_to_end/benchmark_scheduler.cpp:390-404 | runs a workload one by one, submitted at once, and through the arrival loop: the two schedulers accept the same workloads, and then the sequential driver does too, all with the same tokens; the sequential one alone succeeds exactly when every request is servable or well-formed with an overlooked setting, and some request has one |
| `Arrivals.TurnDecreases` | apps/hf_infer.cpp:1443-1463 | every turn of the arrival loop brings its end nearer |
| `NumberLists.NumberList` | apps/distributed_rank.cpp:59-77 | parses exactly the comma-separated lists of the specification |
| `NumberLists.NumberListString` | apps/distributed_rank.cpp:79-86 | prints exactly the specified form |
| `NumberLists.RoundTrip` | apps/distributed_rank.cpp:59-86 | parsing a printed list gives it back, exactly when the list is not empty |
| `NumberLists.OtherSpellings` | apps/distributed_rank.cpp:50-57 | a blank in front of a number is accepted although it is never printed |
| `NumberLists.DataConfigInjective` | apps/distributed_rank.cpp:755-759 | equal data configuration strings have equal context, world size, row list and weighting |
| `NumberLists.SeedInjective` | apps/distributed_rank.cpp:753-753 | equal generator state strings have equal seeds |
| `Codecs.SequenceFaithful` | src/training/checkpoint.cpp:98-112 | a counted sequence of faithfully coded items reads back what was written and nothing else |
| `Codecs.PairFaithful` | src/training/checkpoint.cpp:23-57 | faithfulness is preserved by writing one record behind another |
| `Codecs.IntegerFaithful` | src/training/checkpoint.cpp:26-34 | little-endian integers of a width are read back exactly, and every byte string of that width is one |
| `CheckpointFile.PayloadFaithful` | src/training/checkpoint.cpp:281-303 | the payload of both format versions reads back exactly what was written |
| `CheckpointFile.FramesExactly` | src/training/checkpoint.cpp:262-292 | magic, version, endianness, size and checksum tests accept exactly the frames |
| `CheckpointFile.LoadsExactly` | src/training/checkpoint.cpp:251-305 | a file loads to a checkpoint exactly when it is the file of that checkpoint in one of the two versions and within the limits of the reader, strides included |
| `CheckpointFile.SaveThenLoad` | src/training/checkpoint.cpp:207-249 | a saved state loads back exactly when its names are unique and not empty and it is within the limits of the reader |
| `CheckpointFile.DeepTensorsAreLost` | src/training/checkpoint.cpp:89-92 | a tensor of more than 64 dimensions can be saved but not loaded |
| `CheckpointFile.HugeEmptyTensorsAreRefused` | src/core/tensor.cpp:101-111 | an empty tensor whose other dimensions overflow has zero elements but no strides and is refused |
| `CheckpointStore.SavingMove` | apps/distributed_rank.cpp:1064-1071 | the protocol's move that saves is, on bytes, the writing of one checkpoint file: the protocol's map stays what the files mean |
| `CheckpointStore.StartReadsFile` | apps/distributed_rank.cpp:764-780 | reading the file to resume from and asking the protocol's map give the same start state or the same refusal |
| `CheckpointStore.ResumeFromFile` | apps/distributed_rank.cpp:764-780 | from the file of a checkpoint within the limits of the format a run starts with the saved state exactly when the three contract strings are its own |
| `TrainLoop.Session.Run` | apps/hf_train_step.cpp:655-681 | after warm-up and the counted steps the session holds the state of that many optimizer steps, and the mid-run checkpoint the state at its step |
| `TrainLoop.MiddleCheckpointResumes` | apps/hf_train_step.cpp:543-562 | resuming from the mid-run checkpoint for the remaining steps ends where the whole run ends |
| `TrainLoop.ResumeFromMiddle` | apps/hf_train_step.cpp:543-562 | two sessions, the second restored from the mid-run checkpoint of the first and run for the remaining steps, end in the same state |
| `TrainLoop.WarmupDiverges` | apps/hf_train_step.cpp:384-388 | the counters of a checkpoint agree exactly when there was no warm-up |
| `Fixtures.InspectWeightSet` | tools/prepare_hf_fixture.py:120-152 | a sharded weight set is accepted exactly when all shards exist, no tensor occurs twice and the index is the map from tensors to shards; its parameter count is then the sum over the shards |
| `Fixtures.IndexIsMembership` | tools/prepare_hf_fixture.py:134-150 | over disjoint shards that map is the membership relation |
| `Fixtures.Prepare` | tools/prepare_hf_fixture.py:275-298 | succeeds exactly when the selection is known and unique and every entry can be prepared |
| `Fixtures.InspectDirectory` | tools/prepare_hf_fixture.py:120-152 | finds the weight set of a directory: the single file if there is one, otherwise the tensors of the shards if index and shards agree |
| `Fixtures.Validate` | tools/prepare_hf_fixture.py:242-264 | accepts exactly manifests without repeated names whose entries equal those prepared afresh |
| `Fixtures.PrepareThenValidate` | tools/prepare_hf_fixture.py:242-298 | on an unchanged disk, preparing succeeds exactly when every selected entry can be prepared, and the prepared manifest validates exactly when every fixture can be recovered from the directories of its resolved configuration and vocabulary |
| `Fixtures.PreparedIsCurrentIff` | tools/prepare_hf_fixture.py:170-264 | a prepared entry validates on the unchanged disk exactly when configuration, vocabulary, merge list and weights found in the resolved directories are those it was prepared from |
| `Fixtures.DirectoryLinksAreSafe` | tools/prepare_hf_fixture.py:170-264 | links to whole directories and relative directories always leave the fixture recoverable |
| `Fixtures.LinkedFileIsStale` | tools/prepare_hf_fixture.py:253-256 | an entry does not validate when the resolved configuration lies in a directory without weights, or no merge list, or another one, lies beside the resolved vocabulary |
| `Statistics.Aggregate` | scripts/summarize_rocprof.py:22-45 | fails exactly for a negative duration; otherwise groups by name, conserves calls and duration, and sorts largest first |
| `Statistics.MeanBetween` | scripts/summarize_rocprof.py:33-43 | the mean lies between the extremes |
| `Statistics.SharesAddUp` | scripts/summarize_rocprof.py:39-40 | the shares add up to one hundred when the total is positive |
| `Percentiles.Compare` | apps/compare_safetensors.cpp:18-57 | succeeds exactly for equal names and lengths with something to compare, and measures the whole |
| `Percentiles.ComparisonSymmetric` | apps/compare_safetensors.cpp:30-57 | comparing the other way round gives the same maximum and mean square |
| `Percentiles.RootMeanSquareBelowMaximum` | apps/compare_safetensors.cpp:37-57 | the mean square is at most the square of the maximum |
| `Percentiles.Percentile` | apps/hf_infer.cpp:1406-1416 | refuses exactly invalid input; otherwise depends only on the values, not on their order |
| `Percentiles.PercentileMonotone` | apps/hf_infer.cpp:1411-1416 | percentiles lie between the extremes and grow with the quantile |

## Left out

- Floating-point rounding, reduced-precision policies and tolerances: reals are exact; token counts, which the code
  keeps in float32, are exact.
- HIP, RCCL, streams, events and allocators: a collective is its contract, device copies are assignments; allocation
  and timing counters are not modelled.
- Sizes in 64-bit words: `make_ranges` has an overflow test, element counts here are unbounded.
- Transport failures: a rank fails only where the code throws or a wait runs out of time; a failed peer is never
  detected by the others.
- File writing in pieces: a file is replaced by rename in one move, as both writers do; removing the old file first is
  a move of its own.
- RankProtocol.Move: the step counters and the data cursor advance when a step finishes, not when it begins; nothing
  reads them in between.
- RankWorkers.RankWorker.BackwardOverlapped: backward is represented by the order in which gradients become final,
  each exactly once, with arbitrary contents before.
- RankPlan.RankGradientBucketPlan.AllReduce: gradient shapes are compared by their element counts, and parameters as one
  object rather than pointer by pointer; data types and contiguity are not modelled.
- Arrivals.RunAllWays: the reference, static-batch and admission-batch runs of the benchmark are not modelled.
- CheckpointStore.SavingMove: which number a 32-bit pattern stands for is a parameter.
- RankWorkers.RankWorker.RunStep: what the collectives return is a parameter, of the lengths of the buffers they replace;
  RankTogether and the transition system supply it.
- RankTogether.StepTogether: the ranks step one after the other; interleavings are the subject of RankProtocol.
- Decoding.KVCache.ForwardCached: rows are advanced one after the other; the batched kernels are assumed to treat rows
  independently.
- Network.ForwardCachedRow: reduced-precision cache types are not distinguished from full precision.
- Scheduler.ContinuousScheduler.FeedSurvivors: the uniform and the compacted batch paths are one, since both advance
  each row by itself; scheduling metrics, selection diagnostics and latencies are not modelled.
- Requests.Select: logits are always finite, so the refusal of non-finite logits does not occur; the random draw is an
  uninterpreted function of logits, sampling parameters and generator state.
- Fixtures.Prepare: downloads, JSON parsing, the optional tokenizer files, which validation does not compare, and the
  evidence document are not modelled; a weight file is its list of tensors, behind the links that lead to it.
- Statistics.Aggregate: the standard deviation is not modelled.
- Percentiles.Compare: non-finite values and the name of the worst tensor are not modelled.
- CheckpointFile.SaveThenLoad: the cursor objects of the writer and the reader are functions on byte sequences here;
  floats are their 32-bit patterns.
- The reference, admission-batch and length-bucketed schedulers, the multi-device (single process) gradient plan, the
  command line, JSON output, profiling and the measurement scripts.
