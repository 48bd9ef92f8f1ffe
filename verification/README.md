# TurboBus, verified

TurboBus moves bytes between CPU and GPU buffers over a direct path and over relay GPUs. This
project models the parts of it where a mistake moves wrong bytes, loses a byte count or breaks a
protocol, and proves what these parts keep. `dafny verify dfyconfig.toml` checks everything.

- `Transfers` says what a list of ranges means: how often it moves a source byte onto a target
  byte. Everything that cuts, merges, assigns, translates or restores ranges is measured by this,
  down to single bytes landing in any order.
- `Chunking`, `Scheduling`, `Planner`, `PathRules`, `PlanCost`: cutting ranges into chunks, assigning
  them greedily over weighted paths, the two planning entries, what a plan is in the fields of the
  profile, and the plan's cost records.
- `TicketCoverage`, `NativePlans`, `WorkerExecution`: what happens to a plan downstream, up to the
  one terminal report an execution owes the daemon.
- `Recency`, `RuntimeCaches`, `KeyLocks`: the bounded cache of direct runtimes and its
  reference-counted key locks, as a class and as a protocol of atomic steps.
- `VllmAllocations`, `VllmRanges`, `VllmRoundTrip`, `VllmTiling`, `VllmLayers`: block lists, their
  runs and byte ranges, saving and restoring them, and all layers of a request together.
- `PrefixStores`, `GlobalPrefixes`, `BackingOwnership`, `SaveScheduling`, `SaveWorkers`,
  `SaveRuns`: the saved prefixes, the pooled CPU backings and the life of a save.
- `BlockRuntime`, `SessionRegistry`, `AdmissionOrder`: per-block runtime records, the session's
  buffer registry, and the order of delayed admissions.

Code that changes state is modelled by classes and loops, each proved against a function of its
inputs or of the old state; the promises are then proved about that function, for all inputs or
for all runs. Where a function only computes, a lemma says in the fields of the source's own records
what it computes. The daemon, the worker, the backend and the allocator are parameters that decide
the outcome of each call. Python floats are reals and Python integers are unbounded integers.

## Where the code does not keep a promise

Each is stated with the exact condition under which the code is right, most with a concrete input.

- The ticket check accepts a ticket that repeats a range, or that swaps bytes inside a range
  (`TicketCoverage.RepeatedRangePasses`, `TicketCoverage.SwappedBytesPass`). It is right exactly
  for disjoint tickets (`TicketCoverage.AcceptedTicketCovers`) that keep each range's distance
  (`TicketCoverage.AcceptedTicketMeaning`).
- `plan(n)` and `plan_ranges` on the same range differ when both n and the chunk size are not
  positive (`Planner.TotalPlanIsRangesPlan`).
- A plan with a relay path that names no device is planned but not translated
  (`NativePlans.PlannerPlanTranslates`, with a profile in `NativePlans.PlannedButNotTranslated`).
- Two relay profiles of one device make the cost records count bytes twice
  (`PlanCost.TwinRelays`); the records add up exactly for paths with distinct keys
  (`PlanCost.RecordsConserveIff`, `PlanCost.PlansConserveIff`).
- Closing the runtime cache can break single flight exactly when a call is in flight
  (`KeyLocks.CloseBreaksIff`, with a run in `KeyLocks.CloseBreaksSingleFlight`).
- A restore list that is shorter than the saved one mixes lanes
  (`VllmRoundTrip.ShortRestoreMixesLanes`, `VllmRoundTrip.ShortRestoreMatchesIff`).
- Ids that hold a NUL can share a store key, and the job filter of drain can take another job's
  prefixes (`PrefixStores.UnambiguousIff`, `PrefixStores.DrainFilterIff`).
- A start time of zero reads as "not started" and is overwritten (`BlockRuntime.StartFixedIff`);
  completed blocks do not survive a later failure report that covers fewer bytes
  (`BlockRuntime.CompletionSurvivesFailureIff`).
- A plan that declares no bytes for its relay chunks passes the lease check and has no mode
  (`WorkerExecution.UndeclaredBytesHaveNoMode`, `WorkerExecution.NoRelayPathIff`).
- A delay time of zero counts as now (`AdmissionOrder.FirstDelayedFirstIff`), and a higher priority
  is only sure to go first with a gap of two (`AdmissionOrder.GapIff`).

Two more things the model makes visible: a save whose layers were not all seen loses its group of
backings, which is neither closed nor released (`SaveWorkers.SaveWorker.FinishRequest`), and asking
for finished requests with an empty set subtracts the waiting set from itself
(`SaveWorkers.SaveWorker.GetFinished`); no code puts anything into that set today.

## Model

| member | source | states |
|---|---|---|
| Transfers.SameMeaningSameCopy | turbobus/planner_engine.py:82-99 | Two range lists that move the same source bytes onto the same target bytes equally often leave the same target, however they are cut or ordered |
| Transfers.AnyInterleaving | turbobus/planner_engine.py:203-227 | Bytes of chunks on different paths may land in any order; the target is as if the ranges had been copied whole, as long as no target byte has two writers |
| Transfers.DisjointIsSingleWriter | turbobus/planner_engine.py:82-99 | Disjoint destination ranges give every target byte one writer |
| Chunking.CutRanges | turbobus/planner_engine.py:82-99 | The chunking loop yields the chunks of the ranges and counts their positive bytes |
| Chunking.MakeChunks | turbobus/planner_engine.py:400-405 | The offset loop yields the chunks of the one range from 0 |
| Chunking.ChunksOfCopies | turbobus/planner_engine.py:82-99 | Chunking moves exactly the bytes of the ranges, each exactly as often |
| Chunking.ChunksOfShape | turbobus/planner_engine.py:82-99 | Every chunk is non-empty, at most the chunk size, and lies inside a range, in source and in target; the sizes add up |
| Chunking.ChunksOfPieces | turbobus/planner_engine.py:82-99 | Exactly which chunks: in range order, the j-th chunk of a range starts j chunk sizes in, all but the last are full, and there are no others |
| Chunking.CoalescedPathChunks | turbobus/planner_engine.py:302-320 | The merge loop of a direct path; other paths keep their chunks |
| Chunking.CoalescingKeepsMeaning | turbobus/planner_engine.py:302-328 | Coalescing changes neither what is moved nor how often |
| Chunking.CoalescedIsMaximal | turbobus/planner_engine.py:302-328 | Nothing contiguous is left next to each other |
| Chunking.CoalescingUndoesCutting | turbobus/planner_engine.py:302-328 | Cutting one range up and coalescing the pieces gives that range back |
| Scheduling.SelectPath | turbobus/planner_engine.py:207-216 | The scan picks the path the greedy rule picks |
| Scheduling.AssignChunks | turbobus/planner_engine.py:203-218 | The two loops give every path its chunks in order and keep the byte loads |
| Scheduling.BestPathIsFirstMinimum | turbobus/planner_engine.py:207-216 | The picked path is a first minimum of the projected finish times |
| Scheduling.BucketsArePermutation | turbobus/planner_engine.py:203-227 | The assigned chunks are a permutation of all chunks |
| Scheduling.BucketKeepsOrder | turbobus/planner_engine.py:217-217 | Each path keeps the original order of its chunks |
| Scheduling.LoadsSumToTotal | turbobus/planner_engine.py:218-218 | No byte is lost or invented by an assignment |
| Scheduling.GreedyFinishBound | turbobus/planner_engine.py:198-218 | Every path finishes by (T + (n - 1) * B) / W, for any positive weights |
| Scheduling.AnyAssignmentNeeds | turbobus/planner_engine.py:198-218 | Any assignment at all needs at least T / W |
| Scheduling.GreedyWithinFactorTwo | turbobus/planner_engine.py:198-218 | With equal weights no assignment is better by more than 2 - 1/n |
| Scheduling.GreedyServesEveryPath | turbobus/planner_engine.py:203-218 | No path starves: once the total is large enough, a path has got more than any given load, however small its weight |
| Planner.BuildPaths | turbobus/planner_engine.py:127-188 | The paths a profile yields for a mode and a direction |
| Planner.RelayPathsUsable | turbobus/planner_engine.py:140-188 | Every relay path comes from an eligible relay, is enabled and has bandwidth |
| Planner.BuiltPathsCarryWeight | turbobus/planner_engine.py:198-201 | Built paths always carry weight, so the zero-bandwidth error cannot occur |
| PathRules.PathsAre | turbobus/planner_engine.py:127-188 | In the profile's fields: the direct path first, exactly when the mode is not relay and it has bandwidth, then exactly the usable relays in profile order, each path with the fields of its profile |
| PathRules.UsableIsEligible | turbobus/planner_engine.py:156-167 | A relay is used exactly when it is enabled, has bandwidth, reaches the least bandwidth and, against a direct path with bandwidth, the least ratio |
| PathRules.SchedulerWeightIs | turbobus/planner_engine.py:295-299 | A positive explicit weight counts; otherwise weight times (1 + pressure, capped at 4) is the bandwidth |
| PathRules.NoPathIff | turbobus/planner_engine.py:101-117 | Planning finds no path exactly when there is something to move, no direct path and no usable relay for the mode used |
| PathRules.PlanIsGreedy | turbobus/planner_engine.py:191-227 | Each chunk of a plan goes to the first of the profile's paths that would be done with it earliest, over the weights of the fields |
| PathRules.AssignmentsUseFields | turbobus/planner_engine.py:219-227 | Every assignment is on the profile's direct path or on the path of a usable relay |
| Planner.PlanChunks | turbobus/planner_engine.py:191-238 | Weights, their sum, greedy assignment, one assignment per path that got chunks |
| Planner.PlanRanges | turbobus/planner_engine.py:69-125 | Planning a list of ranges, with its errors |
| Planner.PlanTotal | turbobus/planner_engine.py:28-67 | Planning a byte total, with its errors |
| Planner.PlanResolved | turbobus/planner_engine.py:101-125 | A pooled transfer falls back to a direct one when it is small |
| Planner.PlanOutcome | turbobus/planner_engine.py:69-125 | When planning fails and why; a plan assigns a permutation of the chunks, each path in order, none empty |
| Planner.PlanMeansItsRanges | turbobus/planner_engine.py:69-125 | A plan moves exactly the bytes the ranges ask for |
| Planner.PlanPreservesMeaning | turbobus/planner_engine.py:203-227 | Executing a plan in any interleaving leaves the target as copying the ranges whole would |
| Planner.TotalPlanIsRangesPlan | turbobus/planner_engine.py:28-125 | plan(n) is plan_ranges on (0, 0, n) if and only if the chunk size or n is positive |
| Planner.PlanFinishBound | turbobus/planner_engine.py:198-218 | Every assignment of a plan is done by (T + (n - 1) * B) / W, and no way to give out the same chunks over the planned paths is done before T / W |
| Planner.PlanWithinFactorTwo | turbobus/planner_engine.py:198-218 | Over planned paths of equal weight no way to give out the chunks beats any assignment of the plan by more than 2 - 1/n |
| PlanCost.PlanCostMetadata | turbobus/planner_engine.py:331-388 | The dictionary and the record loop, with the length error; the constant and source texts of a record are left out |
| PlanCost.RecordsAreFaithful | turbobus/planner_engine.py:345-385 | With distinct path keys each record has the chunks, bytes and finish time of its own path |
| PlanCost.SameKeyIff | turbobus/planner_engine.py:391-397 | Paths share a key exactly when kind, direction and both devices agree |
| PlanCost.RecordIs | turbobus/planner_engine.py:345-377 | What a record says about its path; seconds times weight times 10^9 are the bytes |
| PlanCost.RecordedFinishIsScheduled | turbobus/planner_engine.py:370-374 | The recorded finish time is the one the greedy assignment used, in seconds |
| PlanCost.RecordsConserveIff | turbobus/planner_engine.py:342-356 | Over the planner's own choices the recorded bytes add up for every chunk list if and only if no two paths share a key |
| PlanCost.PlansConserveIff | turbobus/planner_engine.py:69-125 | The records of a profile's plans add up to the plan total for all ranges and chunk sizes if and only if its paths have distinct keys |
| PlanCost.TwinRelays | turbobus/planner_engine.py:342-356 | Two relay profiles of one device: a plan of one chunk is recorded twice |
| TicketCoverage.TicketRangesCoverIntent | turbobus/direct_fallback.py:412-445 | Accepts exactly a ticket whose ranges are each contained in an intent range and whose bytes add up |
| TicketCoverage.AcceptedTicketCovers | turbobus/direct_fallback.py:412-445 | An accepted ticket covers every intent byte exactly once, in source and in destination space, if and only if its ranges are disjoint |
| TicketCoverage.RepeatedRangePasses | turbobus/direct_fallback.py:412-445 | A repeated ticket range is accepted and leaves a byte uncovered |
| TicketCoverage.AcceptedTicketMeaning | turbobus/direct_fallback.py:430-445 | A disjoint accepted ticket moves what the intent moves if and only if each range keeps its distance |
| TicketCoverage.SwappedBytesPass | turbobus/direct_fallback.py:430-445 | A ticket that swaps two bytes is accepted |
| TicketCoverage.PlannerTicketAccepted | turbobus/direct_fallback.py:412-445 | The chunks of any planner plan pass the check and mean the intent |
| NativePlans.NativeTransferPlan | turbobus/native_plan.py:34-120 | The loops of native_transfer_plan, with its errors in its order |
| NativePlans.TranslateAssignment | turbobus/native_plan.py:52-110 | One assignment: path checks, chunk checks, totals |
| NativePlans.TranslationIsSound | turbobus/native_plan.py:166-199 | Every accepted assignment has one direction, a sane device, positive chunks and adds to the total |
| NativePlans.AssignmentErrors | turbobus/native_plan.py:52-120 | Which error an assignment raises, each with its exact condition, in the order of the checks |
| NativePlans.FirstErrorIs | turbobus/native_plan.py:48-120 | The first assignment that cannot be translated decides the error |
| NativePlans.TranslatesIff | turbobus/native_plan.py:34-120 | A payload is translated if and only if every path and chunk is good, all have one direction and the totals agree |
| NativePlans.PlanErrors | turbobus/native_plan.py:34-120 | Which error a payload as a whole raises: its sizes first, then the first bad assignment, then the totals |
| NativePlans.TranslatedPlanIs | turbobus/native_plan.py:74-120 | The translated plan has the payload's totals and, in order and field by field, its assignments that carry chunks |
| NativePlans.TranslationRoundTrip | turbobus/plan_trace.py:6-47 | Translating, reading the native plan back and translating again gives the same native plan |
| NativePlans.PlannerPlanTranslates | turbobus/native_plan.py:34-120 | A planner plan translates, with the same chunks and totals, if and only if its relay paths name a device |
| NativePlans.NamelessRelaysFail | turbobus/native_plan.py:63-73 | A profile whose relays all lack a device gives relay plans that are never translated |
| NativePlans.PlannedButNotTranslated | turbobus/native_plan.py:63-73 | One relay with bandwidth and no device: every range is planned and no plan is translated |
| NativePlans.NativePlanPreservesMeaning | turbobus/native_plan.py:34-120 | The bytes of the translated plan, in any order, leave the target as copying the intent ranges whole would |
| NativePlans.IsDirectOnlyWorkerPlan | turbobus/direct_fallback.py:14-31 | True exactly for unleased non-empty plans whose paths are all direct |
| NativePlans.CanonicalDirectPlanPayload | turbobus/direct_fallback.py:776-795 | Accepts exactly direct plans with bytes and a matching total |
| NativePlans.CanonicalIff | turbobus/direct_fallback.py:776-795 | A plan is canonical exactly when it is direct throughout, moves bytes and declares that many or none |
| NativePlans.RequireDirectPlanMatchesTarget | turbobus/direct_fallback.py:805-864 | Accepts exactly plans that run on this device, direction and these buffers |
| NativePlans.RunnableIff | turbobus/direct_fallback.py:805-864 | When exactly the direct backend runs a plan, in the fields of its paths and chunks |
| NativePlans.DirectPlanAccepted | turbobus/direct_fallback.py:776-864 | A direct planner plan for in-bounds ranges on the right device passes all three checks |
| Recency.TouchHit | turbobus/intent_executor.py:187-191 | A hit on a plain LRU list of n keys is a move to the end |
| Recency.TouchMiss | turbobus/intent_executor.py:202-208 | A miss appends and drops from the front |
| Recency.HeldIffFewDistinctSince | turbobus/intent_executor.py:237-255 | A key is held if and only if fewer than n distinct keys were touched since |
| RuntimeCaches.TouchRefines | turbobus/intent_executor.py:187-191 | A lookup hit keeps the cache the plain LRU list of its history |
| RuntimeCaches.InsertRefines | turbobus/intent_executor.py:202-208 | An insertion evicts at most the oldest key, never the new one, and keeps the plain LRU list; insertions = evictions + size |
| RuntimeCaches.TrimKeepsLast | turbobus/intent_executor.py:237-255 | Trimming an over-full cache terminates and keeps exactly the last keys |
| RuntimeCaches.RecordStep | turbobus/intent_executor.py:257-264 | The eviction record is the last 8 distinct keys of the eviction history |
| RuntimeCaches.RuntimeCache.LookupOrAcquire | turbobus/intent_executor.py:185-191 | First section: hit, or a reference to the key lock |
| RuntimeCaches.RuntimeCache.Recheck | turbobus/intent_executor.py:194-198 | Second section, under the key lock |
| RuntimeCaches.RuntimeCache.InsertRuntime | turbobus/intent_executor.py:202-208 | Third section: reuse or insert and trim |
| RuntimeCaches.RuntimeCache.Trim | turbobus/intent_executor.py:237-255 | The trimming loop, for any protected key |
| RuntimeCaches.RuntimeCache.RecordEviction | turbobus/intent_executor.py:257-264 | The bounded eviction record |
| RuntimeCaches.RuntimeCache.AcquireKeyLock | turbobus/intent_executor.py:214-227 | The lock table after taking a reference |
| RuntimeCaches.RuntimeCache.ReleaseKeyLock | turbobus/intent_executor.py:229-235 | The lock table after dropping a reference |
| RuntimeCaches.RuntimeCache.Close | turbobus/intent_executor.py:301-308 | Closing clears cache and lock tables |
| KeyLocks.InvKept | turbobus/intent_executor.py:185-235 | Every atomic section of a call keeps the protocol invariant |
| KeyLocks.CloseKeepsInvIffQuiet | turbobus/intent_executor.py:301-308 | Closing keeps the invariant if and only if no call is in flight |
| KeyLocks.ReachableInv | turbobus/intent_executor.py:185-235 | The invariant holds after every run whose closes are quiet |
| KeyLocks.OneHolderPerKey | turbobus/intent_executor.py:193-198 | Two calls for one key never both hold the key lock |
| KeyLocks.SingleFlight | turbobus/intent_executor.py:185-235 | Calls for one key share one lock, at most one holds it, the entry exists exactly while it is referenced, counts are true, no runtime is wasted |
| KeyLocks.RuntimesConserved | turbobus/intent_executor.py:200-264 | In every interleaving the cache is plain LRU and created = evicted + cached + in flight |
| KeyLocks.SomeCallCanMove | turbobus/intent_executor.py:185-235 | The locks never deadlock |
| KeyLocks.TouchesAreLogged | turbobus/intent_executor.py:183-212 | The touch history the cache is the LRU list of is exactly what hits and insertions of the run touched |
| KeyLocks.HitIsNewest | turbobus/intent_executor.py:185-189 | A hit makes its key the newest and changes nothing else |
| KeyLocks.SoloCall | turbobus/intent_executor.py:183-212 | A call for a key nobody else is about takes a lock, creates, inserts, and leaves nothing but its runtime as the newest entry |
| KeyLocks.UncachedCreate | turbobus/intent_executor.py:198-201 | With a limit of 0, or when the backend fails, a create caches nothing and the call unlocks |
| KeyLocks.RecheckHit | turbobus/intent_executor.py:193-197 | A call that finds the runtime on its recheck takes it, creates nothing and unlocks |
| KeyLocks.RunDistinguishes | turbobus/intent_executor.py:183-212 | In every run, closes included, no two cached or created runtimes are the same |
| KeyLocks.InsertAccounted | turbobus/intent_executor.py:203-206 | The branch that finds a runtime already inserted is never taken |
| KeyLocks.CloseBreaksSingleFlight | turbobus/intent_executor.py:306-308 | Closing under a call in flight lets two threads create for one key |
| KeyLocks.CloseBreaksIff | turbobus/intent_executor.py:301-308 | After a close some run lets two calls hold locks of one key if and only if a call was in flight |
| VllmRanges.ContiguousRuns | turbobus/adapters/vllm.py:733-747 | The loop computes the runs of a block list |
| VllmRanges.RunsAreRunList | turbobus/adapters/vllm.py:733-747 | Runs are non-empty, consecutive, correctly indexed, and join to the list |
| VllmRanges.RunsAreMaximal | turbobus/adapters/vllm.py:738-746 | Adjacent runs never continue each other |
| VllmRanges.RunMember | turbobus/adapters/vllm.py:738-746 | Where a member of a run sits in the list |
| VllmRanges.BlockBytesFromTensor | turbobus/adapters/vllm.py:632-637 | Bytes of a block, with the dimension error |
| VllmRanges.MakeLayerRefs | turbobus/adapters/vllm.py:702-729 | The lane and run loops of one layer |
| VllmLayers.MakeLayerRangeRefs | turbobus/adapters/vllm.py:684-730 | For every layer exactly the bytes of the listed blocks are paired with the bytes of their slots, each reference is about consecutive listed blocks of one lane of its layer, and it fails exactly for a tensor without a block dimension |
| VllmLayers.LayersAreGroups | turbobus/adapters/vllm.py:684-730 | The references of a group are exactly those of its layer, and no other group occurs |
| VllmLayers.LayersRoundTrip | turbobus/adapters/vllm.py:684-730 | Saving and restoring all layers, each through its own backing: every byte of the i-th saved block comes back in the i-th restored block of the same layer and lane |
| VllmRoundTrip.RequestPairs | turbobus/adapters/vllm.py:697-730 | The references pair exactly the bytes of the blocks with the bytes of their slots |
| VllmRoundTrip.RequestFits | turbobus/adapters/vllm.py:706-729 | References stay inside the GPU tensor and the CPU backing |
| VllmRoundTrip.SavedBytes | turbobus/adapters/vllm.py:697-730 | After a save every paired CPU byte holds its GPU byte |
| VllmRoundTrip.RestoredFromSlot | turbobus/adapters/vllm.py:697-730 | After a restore every paired GPU byte holds its CPU byte |
| VllmRoundTrip.RestoreTouchesNothingElse | turbobus/adapters/vllm.py:697-730 | GPU bytes outside the restored blocks keep their value |
| VllmRoundTrip.RestoreAfterSave | turbobus/adapters/vllm.py:706-707 | What any restore list up to the saved length brings back, slot by slot |
| VllmRoundTrip.RoundTrip | turbobus/adapters/vllm.py:697-747 | Save and restore into other blocks of equal number puts each byte at the matching place, in each lane; for fewer blocks in lane 0 |
| VllmRoundTrip.ShortRestoreMatchesIff | turbobus/adapters/vllm_kv_connector.py:388-392 | A shortened restore list matches in all lanes if and only if it is empty, not shorter, or there is one lane |
| VllmRoundTrip.ShortRestoreMixesLanes | turbobus/adapters/vllm_kv_connector.py:388-392 | Otherwise lane 1 receives saved bytes of lane 0 |
| VllmTiling.LanesTile | turbobus/adapters/vllm.py:699-729 | The CPU ranges of a layer follow one another without gap or overlap |
| VllmTiling.TiledOnce | turbobus/adapters/vllm.py:706-707 | A tiling holds each byte of its interval once and no other |
| VllmTiling.RequestTilesOnce | turbobus/adapters/vllm.py:699-729 | Every CPU byte of the interval belongs to exactly one reference |
| VllmTiling.RequestFitsPooledGroup | turbobus/adapters/vllm_backing_pool.py:185-217 | With slot start 0 a request fits every group of its signature, fresh or reused |
| VllmTiling.SignatureIs | turbobus/adapters/vllm_backing_pool.py:200-217 | Every layer of a group has room for the blocks in as many lanes as the layer with most lanes has, and for one slot |
| VllmAllocations.BlockIds | turbobus/adapters/vllm_integration.py:28-37 | The loops list the first occurrences of all block ids |
| VllmAllocations.Merge | turbobus/adapters/vllm_integration.py:39-68 | Group by group first occurrences of both events, or an error for different requests |
| VllmAllocations.IdsDistinct | turbobus/adapters/vllm_integration.py:28-37 | A block list never repeats an id |
| VllmAllocations.MergedIds | turbobus/adapters/vllm_integration.py:39-68 | Merging loses no id and invents none |
| VllmAllocations.MergedSingleGroup | turbobus/adapters/vllm_integration.py:39-68 | With one group a later event only appends |
| VllmAllocations.Allocations.Store | turbobus/adapters/vllm_integration.py:230-235 | The stored event is the merged one, and no foreign event is ever merged |
| VllmAllocations.Allocations.RecordRequestBlocks | turbobus/adapters/vllm_integration.py:219-228 | Recording a list, and that an empty list records nothing |
| VllmAllocations.RecordedIds | turbobus/adapters/vllm_integration.py:219-235 | After any recordings the block list is the first occurrences of all of them |
| VllmAllocations.RecordingAgain | turbobus/adapters/vllm_integration.py:219-235 | Recording known blocks again changes nothing |
| PrefixStores.StoreKeyInjective | turbobus/adapters/vllm_prefix_store.py:255-260 | NUL-free job and session ids make store keys unambiguous |
| PrefixStores.UnambiguousIff | turbobus/adapters/vllm_prefix_store.py:255-260 | Over arbitrary texts a store key means one triple if and only if no part holds a NUL |
| PrefixStores.DrainFilterIff | turbobus/adapters/vllm_prefix_store.py:202-206 | For any job id the textual filter agrees with comparing job ids if and only if the two do not clash: this id and a NUL begin the other, or the other and its NUL begin this one and the session and key spell the rest |
| PrefixStores.PutDropsAtMostOne | turbobus/adapters/vllm_prefix_store.py:91-104 | A put keeps the capacity, keeps the new prefix and drops at most one other |
| PrefixStores.PutsHoldLastDistinct | turbobus/adapters/vllm_prefix_store.py:91-151 | After any puts the store holds the last m distinct keys, each with its latest prefix |
| PrefixStores.PrefixStore.Place | turbobus/adapters/vllm_prefix_store.py:95-104 | Pop, append, and the eviction loop |
| PrefixStores.PrefixStore.Put | turbobus/adapters/vllm_prefix_store.py:91-104 | The whole new store and the removed prefixes, or the empty-key error |
| PrefixStores.PrefixStore.PutWithLifecycle | turbobus/adapters/vllm_prefix_store.py:106-151 | The same store as put, the removals with their reasons, the next generation |
| PrefixStores.PrefixStore.Get | turbobus/adapters/vllm_prefix_store.py:153-168 | The exact entry, or the only match |
| PrefixStores.PrefixStore.Remove | turbobus/adapters/vllm_prefix_store.py:170-185 | The same entry leaves the store |
| PrefixStores.PrefixStore.Drain | turbobus/adapters/vllm_prefix_store.py:190-213 | Exactly the selected entries leave, in order |
| PrefixStores.LookupFindsIds | turbobus/adapters/vllm_prefix_store.py:153-160 | With NUL-free ids a lookup finds exactly the prefix of these ids |
| PrefixStores.LookupWithoutJob | turbobus/adapters/vllm_prefix_store.py:153-168 | A lookup without a job answers exactly when one entry has this key and session |
| PrefixStores.SelectsAgree | turbobus/adapters/vllm_prefix_store.py:202-212 | With NUL-free job ids both drain filters select by ids |
| PrefixStores.DrainTakesIds | turbobus/adapters/vllm_prefix_store.py:190-213 | A drain takes exactly the prefixes with the given ids |
| GlobalPrefixes.SaveAgrees | turbobus/adapters/vllm_kv_connector.py:1039-1048 | After a save the shared entries of the job and session are the own ones, in the same order |
| GlobalPrefixes.OthersUntouched | turbobus/adapters/vllm_kv_connector.py:1039-1048 | What other jobs and sessions have in the shared store stays |
| GlobalPrefixes.AgreementByIds | turbobus/adapters/vllm_kv_connector.py:1039-1048 | As ids: a shared prefix is the connector's if and only if its own store has it |
| GlobalPrefixes.RunAgrees | turbobus/adapters/vllm_kv_connector.py:1039-1048 | The agreement holds in every state of every run, others changing their entries in between |
| GlobalPrefixes.Publish | turbobus/adapters/vllm_kv_connector.py:1040-1048 | Put into the shared store and pass the removals on |
| SaveScheduling.BlocksCoverTokens | turbobus/adapters/vllm_kv_connector.py:2151-2154 | The block count covers the tokens with less than a block to spare |
| SaveScheduling.SaveScheduler.UpdateStateAfterAlloc | turbobus/adapters/vllm_kv_connector.py:560-618 | The allocation entry to the pending saves |
| SaveScheduling.SaveScheduler.CollectSaveRequests | turbobus/adapters/vllm_kv_connector.py:620-680 | The scheduler-output entry, with remembered parameters |
| SaveScheduling.AllocIs | turbobus/adapters/vllm_kv_connector.py:560-618 | An allocation remembers the parameters and enters a request that has enough blocks, with the first of its distinct blocks, field by field |
| SaveScheduling.ScheduledIs | turbobus/adapters/vllm_kv_connector.py:620-680 | A scheduled request enters with the parameters it brings, or else with the remembered ones |
| SaveScheduling.OutputIs | turbobus/adapters/vllm_kv_connector.py:620-680 | An output takes its scheduled requests one after the other, each as ScheduledIs says |
| SaveScheduling.SaveScheduler.BuildConnectorMeta | turbobus/adapters/vllm_kv_connector.py:421-437 | Metadata takes every pending save once, in the order of the request ids, and clears them |
| SaveScheduling.HandedAtMostOnce | turbobus/adapters/vllm_kv_connector.py:421-437 | Over any run no request is handed to the worker side twice |
| SaveScheduling.EnteredIsPendingOrHanded | turbobus/adapters/vllm_kv_connector.py:421-437 | No request that entered is lost |
| SaveScheduling.HandedWellMade | turbobus/adapters/vllm_kv_connector.py:592-602 | Handed saves have distinct blocks and a true count |
| BackingOwnership.OwnedMeansNoSharing | turbobus/adapters/vllm_backing_pool.py:25-46 | No group is in two places among free lists, open contexts and stored prefixes, and free groups have the sizes of their signature |
| BackingOwnership.TakeKeeps | turbobus/adapters/vllm_backing_pool.py:25-29 | Reusing a free group keeps ownership and sizes |
| BackingOwnership.ReturnKeeps | turbobus/adapters/vllm_backing_pool.py:32-46 | Releasing a group keeps ownership and sizes |
| BackingOwnership.StoreKeeps | turbobus/adapters/vllm_kv_connector.py:996-1003 | A context's group becoming a prefix's keeps ownership |
| BackingOwnership.ClosedAreUnused | turbobus/adapters/vllm_kv_connector.py:514-518 | A closed group is never free, in a context or in a prefix again |
| SaveWorkers.FinishKeeps | turbobus/adapters/vllm_kv_connector.py:1184-1232 | A finished save keeps every group in one place, whichever prefix it replaces or evicts |
| SaveWorkers.BackingPool.Acquire | turbobus/adapters/vllm_backing_pool.py:25-30 | The last free group of the signature, or a new one with its sizes, or an error |
| SaveWorkers.BackingPool.Release | turbobus/adapters/vllm_backing_pool.py:32-46 | The group is appended to its signature's list |
| SaveWorkers.SaveWorker.StartContext | turbobus/adapters/vllm_kv_connector.py:841-902 | A context on a fitting group; on failure the group is released |
| SaveWorkers.SaveWorker.SaveKvLayer | turbobus/adapters/vllm_kv_connector.py:476-493 | The layer becomes ready for every request; no other layer does |
| SaveWorkers.SaveWorker.StorePrefix | turbobus/adapters/vllm_kv_connector.py:1184-1232 | Own store, pool and shared store after a save |
| SaveWorkers.SaveWorker.FinishRequest | turbobus/adapters/vllm_kv_connector.py:500-518 | Each outcome with its condition; a saved request leaves its prefix as the newest own entry and in the shared store, all others but the replaced or oldest one stay, whose group is free again; a failed transfer closes its group |
| SaveWorkers.SaveWorker.WaitForSave | turbobus/adapters/vllm_kv_connector.py:495-525 | The requests of a step in order, up to the first that is refused, each stored under its own prefix key with its own group |
| SaveWorkers.SaveWorker.StartLoadKv | turbobus/adapters/vllm_kv_connector.py:439-464 | The loaded requests of a step, up to the first restore that raises |
| SaveWorkers.SaveWorker.GetFinished | turbobus/adapters/vllm_kv_connector.py:527-537 | Reports exactly the finished saved requests and the loaded ones, and forgets them |
| SaveWorkers.SavedOnceMore | turbobus/adapters/vllm_kv_connector.py:1063-1063 | A new save keeps the save and report history free of repeats |
| SaveWorkers.ReportedOnceMore | turbobus/adapters/vllm_kv_connector.py:527-537 | A report keeps the history free of repeats |
| SaveRuns.MetadataIsNew | turbobus/adapters/vllm_kv_connector.py:421-437 | Metadata names no request twice and none that was seen in an earlier step |
| SaveRuns.Serve | turbobus/adapters/vllm_kv_connector.py:421-537 | Over any run, also past calls that raise: a request is saved at most once, in a step that reported all its layers and whose transfer did not fail; each save stored one prefix, for the request as it was handed over; the own store holds the last distinct ones and the shared store the same; a saved request is reported at most once; where nothing fails every request handed over is saved; no backing is in two places and no closed one is used again |
| SaveRuns.ServeStep | turbobus/adapters/vllm_kv_connector.py:421-537 | One step: allocations, metadata, loads, layers, saves and reports; where nothing fails all its requests are saved and the finished ones reported |
| SaveRuns.InputsAre | turbobus/adapters/vllm_kv_connector.py:421-437 | Over a run the scheduler side takes allocations and outputs one after the other, and hands over what is then pending |
| BlockRuntime.MarkTicketIssued | turbobus/daemon/block_runtime.py:90-99 | Every record gets the ticket, nothing else changes |
| BlockRuntime.TerminalPartialRecords | turbobus/daemon/block_runtime.py:345-369 | The loop credits the bytes in block order |
| BlockRuntime.AdvanceForStatus | turbobus/daemon/block_runtime.py:102-138 | What each of the five states makes of every record, field by field, its unknown-state error, and no records |
| BlockRuntime.AdvanceFromWorkerProgress | turbobus/daemon/block_runtime.py:141-214 | What the last item of each named block makes of its record, field by field; other blocks stay; without named blocks the status report |
| BlockRuntime.LastItemCounts | turbobus/daemon/block_runtime.py:156-160 | Exactly the named blocks are reported on, each with its last item |
| BlockRuntime.StatusOutcomeIs | turbobus/daemon/block_runtime.py:102-138 | The status report in field values: states, start and completion times, errors |
| BlockRuntime.ProgressOutcomeIs | turbobus/daemon/block_runtime.py:160-196 | The block reports in field values: which text gives which state, times and error |
| BlockRuntime.RunKeeps | turbobus/daemon/block_runtime.py:90-214 | Over any steps identity fields never change, consistency stays, terminal stays terminal, a non-zero start time stays |
| BlockRuntime.PlanRunKeeps | turbobus/daemon/block_runtime.py:37-214 | The same from the fresh records of a plan |
| BlockRuntime.StartFixedIff | turbobus/daemon/block_runtime.py:329-342 | A set start time survives every continuation if and only if it is not zero |
| BlockRuntime.StartTimeNeverChanges | turbobus/daemon/block_runtime.py:329-342 | With a positive clock a start time once set never changes |
| BlockRuntime.RunningNeverReopens | turbobus/daemon/block_runtime.py:329-332 | Running reports never reopen a terminal block nor touch its times or error |
| BlockRuntime.PartialAccounting | turbobus/daemon/block_runtime.py:345-369 | A partial failure credits at most the reported bytes and leaves no block the rest would cover |
| BlockRuntime.AllCompleteIff | turbobus/daemon/block_runtime.py:345-369 | All blocks complete exactly when the reported bytes cover the transfer |
| BlockRuntime.CompletionSurvivesFailureIff | turbobus/daemon/block_runtime.py:119-130 | Completed blocks survive a later failure report exactly when it covers them all |
| BlockRuntime.RuntimeSummary | turbobus/daemon/block_runtime.py:236-262 | Counts and bytes per state, bytes per path kind, sorted lease and ticket ids |
| BlockRuntime.SharesConserve | turbobus/daemon/block_runtime.py:246-250 | Per-key totals add up to the whole, however the keys are listed |
| BlockRuntime.SummaryConservesBytes | turbobus/daemon/block_runtime.py:236-262 | In every reachable state both byte tables add up to the plan's bytes |
| SessionRegistry.AfterPendingKeeps | turbobus/runtime_session.py:1786-1836 | A batch, failed or not, keeps the dictionaries consistent |
| SessionRegistry.FailedBatchRollsBack | turbobus/runtime_session.py:1826-1836 | A failed batch leaves none of the buffers it registered, at the daemon only those it refuses to clean up; every other buffer is as it was |
| SessionRegistry.BatchFailsIff | turbobus/runtime_session.py:1791-1810 | A batch fails exactly when the daemon refuses a buffer that is not up to date |
| SessionRegistry.SucceededBatchRegistersAll | turbobus/runtime_session.py:1791-1825 | A successful batch leaves every buffer registered with its current fingerprint |
| SessionRegistry.UnchangedNotReregistered | turbobus/runtime_session.py:1793-1799 | An unchanged buffer, session and ownership is not registered again |
| SessionRegistry.SecondBatchIsIdle | turbobus/runtime_session.py:1793-1799 | A second batch has nothing to do and cannot fail |
| SessionRegistry.RuntimeSession.OpenSession | turbobus/runtime_session.py:500-553 | Opening needs a target GPU; a failed opening leaves no session id |
| SessionRegistry.RuntimeSession.CleanupBuffer | turbobus/runtime_session.py:1852-1954 | The buffer is forgotten even when the daemon refuses, which then keeps it; all others stay |
| SessionRegistry.RuntimeSession.RegisterPendingBuffers | turbobus/runtime_session.py:1786-1836 | The batch loop and its rollback |
| SessionRegistry.RuntimeSession.RegisterBuffer | turbobus/runtime_session.py:1296-1323 | Every error of a registration, the GPU a device buffer binds, the session and the batch it leads to, and the previous buffer restored on failure |
| SessionRegistry.RuntimeSession.RegisterCpuBuffer | turbobus/runtime_session.py:568-594 | Ownership is recorded exactly for successful runtime-owned registrations; a different object under an owned id is rejected |
| SessionRegistry.RuntimeSession.RollbackContextBuffer | turbobus/runtime_session.py:2099-2130 | A buffer a failed context brought in is forgotten, whatever the daemon says |
| SessionRegistry.RuntimeSession.CleanupForClose | turbobus/runtime_session.py:1119-1140 | Closing leaves nothing registered, and at the daemon only what it refuses to clean up |
| WorkerExecution.PlanAssignmentBytes | turbobus/intent_executor.py:808-831 | Declared bytes, else the chunks, summed per path kind |
| WorkerExecution.RequireWorkerPlanMatchesLeases | turbobus/intent_execution_support.py:29-70 | The check with each of its errors |
| WorkerExecution.AcceptedIff | turbobus/intent_execution_support.py:29-70 | Acceptance means every path is direct or leased and the leased relays are exactly those that carry chunks |
| WorkerExecution.ExactlyOneMode | turbobus/intent_executor.py:330-334 | For well-formed accepted plans exactly one of relay-only and mixed holds |
| WorkerExecution.UndeclaredBytesHaveNoMode | turbobus/intent_executor.py:822-825 | An accepted plan that declares no bytes for its relay chunks has neither mode |
| WorkerExecution.PlannerPlansWellFormed | turbobus/planner_engine.py:219-227 | Planner plans are well formed in this sense |
| WorkerExecution.SplitAddsUp | turbobus/intent_executor.py:1003-1005 | The split of a covered plan adds up to its declared bytes |
| WorkerExecution.CleanupPlannedRelayLeases | turbobus/intent_execution_support.py:106-123 | Every lease is cleaned up, in order |
| WorkerExecution.MarkTransferFailed | turbobus/intent_executor.py:1255-1284 | A failure report of no bytes, unless there is no transfer id |
| WorkerExecution.ReportWorkerCompletion | turbobus/intent_executor.py:522-565 | Relay-only and mixed completion, with the evidence checks |
| WorkerExecution.ReportDeferredWorkerFailure | turbobus/intent_executor.py:1067-1110 | The deferred failure report and when it is refused |
| WorkerExecution.FinishWorkerExecution | turbobus/intent_executor.py:451-520 | Every final state of the worker |
| WorkerExecution.ExecuteWorkerManagedIntent | turbobus/intent_executor.py:324-388 | One whole execution: reports sent, leases cleaned up, result |
| WorkerExecution.AtMostOneReport | turbobus/intent_executor.py:324-565 | At most one terminal report per intent, whatever fails |
| WorkerExecution.CompleteIff | turbobus/intent_executor.py:522-565 | A transfer is reported complete exactly when the finished worker's evidence agrees in every byte count |
| WorkerExecution.FailureCredits | turbobus/intent_executor.py:1096-1110 | Failure reports credit exactly the worker's bytes, never less than 0, and only after a failed worker |
| WorkerExecution.FailedReportIff | turbobus/intent_executor.py:1067-1110 | A failed worker's bytes are reported exactly when its evidence agrees with the split |
| WorkerExecution.FailureErrors | turbobus/intent_executor.py:1067-1110 | How a failed worker of a plan with a mode is refused, each error with its condition |
| WorkerExecution.CompletionErrors | turbobus/intent_executor.py:522-565 | How a completed worker's evidence is refused, each error with its condition |
| WorkerExecution.EarlyResults | turbobus/intent_executor.py:324-388 | How an execution ends that gets no worker result, in the order of the checks |
| WorkerExecution.RejectedIff | turbobus/intent_executor.py:1255-1284 | The daemon's refusal is the result exactly when a report was sent and refused |
| WorkerExecution.NoRelayPathUnreachable | turbobus/intent_executor.py:564-565 | For well-formed plans the missing-relay-path error never comes |
| WorkerExecution.NoRelayPathIff | turbobus/intent_executor.py:564-565 | When exactly it comes |
| WorkerExecution.SplitMismatchUnreachable | turbobus/intent_executor.py:1003-1007 | A plan with the intent's bytes never misses the split |
| WorkerExecution.NeverBothReport | turbobus/intent_executor.py:361-361 | For a submitted plan without a mode the executor reports nothing exactly when the worker reports its own terminal state; otherwise it reports a failure of 0 bytes and cleans up |
| WorkerExecution.QuietOnlyAfterWorkerStatus | turbobus/intent_executor.py:487-512 | When a call may end without error and without a report |
| WorkerExecution.CleanedIff | turbobus/intent_executor.py:760-805 | When exactly the leases are cleaned up |
| AdmissionOrder.BeforeTotal | turbobus/daemon/admission_priority.py:27-36 | The sort key orders records of different transfers strictly |
| AdmissionOrder.SortedIsOrdered | turbobus/daemon/admission_priority.py:27-37 | Nothing is lost and every earlier record comes first |
| AdmissionOrder.OrderIsUnique | turbobus/daemon/admission_priority.py:27-37 | Two ordered lists of the same records are equal |
| AdmissionOrder.OrderIsDetermined | turbobus/daemon/admission_priority.py:15-37 | One determined list of exactly the delayed admissions, whatever the map iteration order |
| AdmissionOrder.ScoreBounds | turbobus/daemon/admission_priority.py:91-100 | All terms but priority and the shared bonus stay within a width of 1603.6 |
| AdmissionOrder.ScoreIs | turbobus/daemon/admission_priority.py:53-180 | The score, term by term, in the fields of the admission, the queue entry, the runtime state and the job |
| AdmissionOrder.RecordIs | turbobus/daemon/admission_priority.py:15-24 | A record is about its own admission and queue entry; a transfer without an entry counts as empty |
| AdmissionOrder.BusierJobsYield | turbobus/daemon/admission_priority.py:100-116 | More active, delayed or queued bytes or more running transfers of a job never raise the score, more admitted bytes never lower it |
| AdmissionOrder.GapOfTwoWins | turbobus/daemon/admission_priority.py:91-100 | A priority gap of two always wins |
| AdmissionOrder.GapOfOneMayLose | turbobus/daemon/admission_priority.py:91-100 | A smaller gap may lose, in every state and at every moment |
| AdmissionOrder.GapIff | turbobus/daemon/admission_priority.py:91-100 | All records of one priority precede all of another, in any state and at any moment, if and only if the gap, counted from zero, is at least two |
| AdmissionOrder.FirstDelayedFirstIff | turbobus/daemon/admission_priority.py:68-93 | Records equal in all but delay time go by the time the code reads, even past the cap |
| AdmissionOrder.PositiveDelaysDecide | turbobus/daemon/admission_priority.py:68-93 | Positive delay times decide alone |

## Left out

- Rounding: bandwidths, weights, scores and times are reals, not IEEE doubles.
- Texts of kinds, directions and states are taken after lower-casing, and values after `int()`,
  `float()` and `str()`; errors about a field of the wrong Python type are not modelled.
- CUDA calls, IPC handles, shared memory, sockets, threads and processes: a transfer is copying
  bytes, and each daemon, worker or backend call is a parameter.
- Evidence dictionaries, events, logging, timing fields and metric texts, except the byte counts
  and ids the properties mention; the errors raised while evidence is built are among them.
- SaveWorkers.SaveWorker.StorePrefix: does not model an error after the own store changed, because
  such errors come only from evidence checks; the ownership claims are about runs without them.
- SaveScheduling.SaveScheduler.BuildConnectorMeta: does not model pending loads; which requests a
  step loads is a parameter of SaveRuns.Serve.
- KeyLocks.SingleFlight: is about runs that close the cache only while no call is in flight; a close
  under a call in flight is the subject of KeyLocks.CloseBreaksIff.
- RuntimeCaches.RuntimeCache.InsertRuntime: excludes a limit of 0, because with that limit the code
  returns before it inserts; KeyLocks models that return. Cache keys, runtimes and lock objects are
  identities; the high-water marks and the snapshot of the cache are not modelled.
- VllmRoundTrip.RoundTrip: for restore lists shorter than the saved one it speaks of lane 0 only; the
  other lanes are covered by VllmRoundTrip.ShortRestoreMatchesIff and VllmRoundTrip.ShortRestoreMixesLanes.
- How many blocks a restore asks for, the matching of prefixes to new requests and the restore's
  own bookkeeping in the connector; the name tables of the slot binding.
- Closing a connector: draining its stores and closing contexts and free groups.
- PlanCost.PlanCostMetadata: leaves out the constant texts of the metadata and the source text a path
  carries.
- Planner: the relay device field of a planner chunk is carried but never set by the planner.
- SessionRegistry.RuntimeSession.RegisterBuffer: whether a backing is valid is a parameter; releasing
  the memory of a rejected CPU buffer is not modelled, nor are retention and lifecycle records.
- WorkerExecution: the field checks of a worker's completion envelope are one outcome, rejected or
  not; the receipt taken from the daemon afterwards is not modelled. The direct-only execution path
  is modelled only by its plan and ticket checks.
- BlockRuntime: views, cleanup targets and the evidence around a summary.
- SessionRegistry.RuntimeSession.CleanupBuffer: does not model errors of the local cleanup or of the
  retention records, only those of the daemon.
- SessionRegistry.RuntimeSession.RegisterCpuBuffer: does not model that the memory of a rejected buffer
  is released.
- WorkerExecution.CleanupPlannedRelayLeases: does not model a cleanup call that raises.
- WorkerExecution.ExecuteWorkerManagedIntent: does not model a cleanup call that raises, nor the receipt
  query after a call that ends without an error.
- AdmissionOrder: the sort is an insertion sort; Python's own sort is only assumed to order by the key.
- The constructor checks of the schema classes, argument parsing, the daemon's scheduler, benchmarks
  and examples.
