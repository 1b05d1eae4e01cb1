# Verified models of the Linux 2.6.30 block layer and crypto layer

This project models the parts of a Linux 2.6.30-rc3 tree whose correctness is not visible in any one
function: protocols that run over many calls, caches that must stay equal to what they cache, indexes that
must agree, and rewrites that must preserve meaning.  Each component has a value model (datatypes and
functions), lemmas about every input or every run of it, and, where the source updates structures in place,
a class or array methods proved against the value model.

`dafny verify dfyconfig.toml` checks the whole project.

## Components

- `Barrier`, `BarrierSequence`, `BarrierQueue`, `BarrierExample`, `BarrierMixed`, `BarrierExact`: the ordered (barrier) sequence of the block layer on top of the request life
  cycle: insertion, hand-over by the I/O scheduler, peek, dequeue, completion, requeue.  `QUEUE_ORDSEQ_*` are
  ascending single bits.
- `SortList`: the two indexes every I/O scheduler keeps, a sector-sorted tree and a FIFO.
- `AsCache`, `As`, `AsDecision`, `AsQueue`, `AsExample`: the anticipatory scheduler: its `next_rq` cache, and its batch and anticipation
  state machines.
- `Deadline`, `DeadlineQueue`: the deadline scheduler.
- `CfqService`, `Cfq`, `CfqQueue`: CFQ's service tree, per-queue indexes and counters.
- `DispatchSort`: the order of the dispatch queue.
- `Merging`, `MergeChoice`: bio and request merging and the merge hash, for an arbitrary bucket function.
- `Completion`, `CompletionResults`: partial completion of a request.
- `Tags`: the tag allocator.
- `Words`, `Camellia`: the Camellia key absorption and the optimised cipher, for tables made of any four S-boxes.
- `Chainiv`: the asynchronous chaining IV generator, one transition per access to shared memory.
- `CryptoQueue`: the crypto request queue with backlog, and cryptd's per-CPU worker.
- `Spawns`: unregistering an algorithm and the instances built on it.
- `Ccm`, `Cbc`: the CCM MAC and CBC mode, for an arbitrary block function.

## How the source is read

- Runs are sequences of steps.  What the callers of the source guarantee is the `Enabled` predicate of each
  state machine; the clock, the random source, the driver, per-process statistics and tree neighbours picked by
  another component are parameters of the steps.
- Machine integers are unbounded; sectors, times and counters do not wrap.
- Of the `BUG_ON` and `WARN_ON` conditions the model has the state for, some are preconditions proved at every
  call, some are recorded in a `bug` flag that is proved never to be set, and some are lemmas of their own.  The
  state of a request in the anticipatory scheduler is where it is; its warnings about that state say no more than
  that a step is enabled.  `nr_queued` and `nr_dispatched` of a process are read off the
  requests they count, and the warnings about them are not modelled.
- Fields marked as history in the datatypes are never read by an operation; they only name what happened.
- A tree is its nodes in order; a list is a sequence; a pointer to a request is its name.

## Where the code does not do what one would expect

- `Chainiv.FailedSeedRun`, `Chainiv.FailedSeedStrands`, `Chainiv.CaredForEver`: if the first read of random bytes
  fails, the caller returns without looking at the queue, and a request postponed meanwhile is stranded.  The second
  lemma gives the exact condition, the third says that it lasts until the bit is taken again.
- `Chainiv.FailedSeedIv`: after such a failure the next caller encrypts with whatever was left in the IV.
- `AsCache.FrontMergeCanStaleCache`, `AsCache.FrontMergeKeepsBest`: a front merge does not touch the cache; the
  second lemma says exactly when the cache is still the best request.
- `AsCache.OverlapCanStaleCache`, `AsCache.DispatchedBestIff`: when requests overlap, looking at the tree neighbours
  of the dispatched one can miss the best; the second lemma says exactly for which trees it does not.
- `AsExample.FrontMergeForgets`, `As.StepFoundIff`, `As.ForcedDrains`: a front merge onto the start of the only other
  queued request of its direction dispatches that one and forgets `next_rq`, and forced dispatch then leaves the
  merged request behind.  No other step does this.
- `AsExample.AliasMixesRun`, `As.AliasMixes`: a request that comes to stand at the sector of a queued one dispatches
  the latter outside the batch, which mixes directions exactly if requests of the other direction are outstanding.
- `AsExample.ForcedMixesRun`, `As.ForcedMixes`: forced dispatch breaks the exclusion of synchronous and asynchronous
  requests exactly if both kinds are about.
- `BarrierMixed.TagThenDrainIsUnsafe`, `BarrierExact.RunSafeIff`: a drained barrier that follows one ordered by tag can
  overtake a request that was in flight across both.  The second lemma says exactly from which states on drain mode
  is safe: when no unfinished request from before the last barrier is of the colour the next barrier does not have.
- `BarrierMixed.TagThenDrainHangs`, `BarrierSequence.StrayHangs`, `BarrierSequence.NeverHangs`: if such a request is given
  back during the drain it goes behind the sequence that waits for it, and with nothing else left at the driver nothing
  is handed out any more.  The second lemma gives the exact condition, the third says that nothing else hangs a queue.
- `BarrierExact.AddedSafelyIff`: a barrier added while the scheduler still holds a request, as `AsExample.FrontMergeForgets` shows
  it may after a forced dispatch, overtakes that request.
- `DispatchSort.StartBreaksOrder`, `DispatchSort.RunInOrderIff`: handing out a request moves `end_sector` to its end,
  which can leave the requests sorted so far out of order.  The second lemma says exactly which steps do.
- `Completion.TwoStepsAreOne`, `Completion.SplitsIff`, `Completion.DoneIff`: an empty bio behind another one is left
  behind when the byte count is met exactly, and a further call of no bytes then ends it.
- `Completion.SectorSplitsIff`: `bi_sector` drops the odd bytes of every call.
- `Merging.JoinCanMixClasses`, `Merging.JoinKeepsClassIff`: bios are merged only with their own kind, discards
  with discards, but two queued requests are joined without that test.  A discard has the direction of a read, so
  reads are what it can be joined with.
- `Tags.GrowOverruns`, `Tags.GrowInBoundsIff`: growing a tag map copies past the end of the new arrays exactly if
  twice `nr_requests` is less than the old depth.
- `Ccm.WrappedLengthCollides`, `Ccm.FormatIsPrefixFree`: the length test admits a message of exactly 256^L bytes,
  whose length field is that of the empty message.  The second lemma says that this is the only collision.

## Model

| member | source | states |
|---|---|---|
| Barrier.BarrierSafety | block/blk-barrier.c:156-284 | in every drain-mode run a proxy is handed out only when all filesystem requests queued before the barrier have finished and all earlier steps are complete, and a filesystem request only when every barrier queued before it has ended |
| Barrier.SafetyFrom | block/blk-barrier.c:156-284 | the same from any point of any run, tag mode included before it, at which every unfinished filesystem request from before the last barrier is of the colour of the barrier being drained for or next, as long as drain mode is used from there on |
| Barrier.QuietIsDrained | block/elevator.c:947-977 | between sequences that there is none of the other colour is all it takes |
| BarrierExact.RunSafeIff | block/blk-barrier.c:66-89 | at every point between sequences of every run, whatever modes it used, every continuation in drain mode hands out safely if and only if no unfinished filesystem request from before the last barrier is of the colour the next barrier does not have |
| BarrierExact.AstrayIsOvertaken | block/elevator.c:676-696 | any such request, in whatever state, can be made to be overtaken |
| BarrierExact.AddedSafelyIff | block/elevator.c:632-635 | a barrier added to an idle queue is handed out at once, and safely if and only if the drain left nothing with the scheduler |
| BarrierMixed.TagThenDrainIsUnsafe | block/blk-barrier.c:66-89 | a run in which a drained barrier after a tagged one is handed out before a request queued ahead of it |
| BarrierSequence.HandsOutWhatIsAsked | block/blk-barrier.c:156-236 | in every run, by tag or by draining, the proxies a sequence hands out from its start to its end are exactly those next_ordered asks for: all for a barrier with data, only the pre-flush for an empty one |
| BarrierSequence.WithoutProxiesDrains | block/blk-barrier.c:165-183 | in every run and whichever mode is asked for, a sequence that hands out no proxy ends only when no filesystem request is with the driver and none of its colour queued before the barrier is left |
| BarrierSequence.StartGives | block/blk-barrier.c:183-236 | the look at the queue that starts a sequence gives the first proxy asked for, by tag at once and by draining if nothing accounted is in flight; nothing while that is so; and the barrier is gone if nothing is asked for |
| BarrierSequence.TaggedWaitsForNothing | block/blk-barrier.c:272-275 | throughout a sequence ordered by tag everything but the next barrier is handed out |
| BarrierSequence.NeverHangs | block/elevator.c:947-977 | in every run, unless a request of the other colour is given back during a drain, once everything given to the driver has ended or been given back the next look hands something out or ends the barrier at the head |
| BarrierSequence.DrainModeNeverHangs | block/elevator.c:947-977 | so in every drain-mode run, without exception |
| BarrierSequence.StrayHangs | block/elevator.c:676-696 | giving such a request back, the last one at the driver, hangs the queue if and only if nothing of the barrier's colour is first on it |
| BarrierMixed.TagThenDrainHangs | block/elevator.c:676-696 | a run in which it does |
| Barrier.HeadNotBehind | block/blk-barrier.c:276-281 | the head of the queue is never of an earlier step than the one that is due: the WARN_ON does not fire |
| Barrier.RunNotBehind | block/blk-barrier.c:276-281 | so in every state of every drain-mode run |
| Barrier.StartedIsSafe | block/elevator.c:762-776 | the same holds of whatever the driver has been handed and not given back, at any later point |
| Barrier.BarriersEndOnce | block/blk-barrier.c:91-114 | in every run, both modes, each started barrier has ended exactly once, in order, with the first error reported and after each step once, except the one running |
| Barrier.CompletionsAreNew | block/blk-barrier.c:116-132 | no step of a sequence is ever completed twice: the BUG_ON never fires |
| Barrier.OrderAheadOfBarrier | block/elevator.c:668-696 | filesystem and proxy requests ahead of the next barrier stay in non-decreasing sequence order under requeues, both modes |
| Barrier.StepKeeps | block/elevator.c:615-748 | every step of the life cycle keeps the whole invariant: lists, places, barrier order, running sequence and books |
| Barrier.StartKeeps | block/blk-barrier.c:156-236 | starting a sequence keeps the invariant, whichever proxies the mode asks for and whichever steps are skipped; BarrierSequence says which |
| Barrier.CompleteSeqBooks | block/blk-barrier.c:91-114 | completing new steps keeps the books: set bits, recorded steps, first error, and the end of the original request with the last one |
| Barrier.PeekKeeps | block/blk-barrier.c:238-284 | handing out, holding back, starting or refusing keeps the invariant |
| Barrier.RequeueKeeps | block/elevator.c:559-574 | giving a request back puts it where its sequence number belongs and keeps the invariant |
| Barrier.EndRequestKeeps | block/elevator.c:947-977 | completion, with the drain test and the proxies' callbacks, keeps the invariant |
| Barrier.NextDrained | block/blk-barrier.c:238-284 | in drain mode handing out keeps what the safety theorem needs: nothing from before the barrier is about once the drain is over |
| BarrierExample.BarrierRun | block/blk-barrier.c:156-284 | there is a drain-mode run in which a barrier goes through all its steps once, in order, and ends without an error |
| BarrierQueue.RequestQueue.CompleteSeq | block/blk-barrier.c:91-114 | the in-place operation is CompleteSeq of the old state, for steps not yet complete |
| BarrierQueue.RequestQueue.StartOrdered | block/blk-barrier.c:156-236 | stacking the proxies in place, front by front, is StartOrdered of the old state |
| BarrierQueue.RequestQueue.DoOrdered | block/blk-barrier.c:238-284 | the in-place decision and its verdict are DoOrdered of the old state, and in drain mode the WARN_ON does not fire |
| BarrierQueue.RequestQueue.NextRequest | block/elevator.c:762-776 | the loop over vanished heads ends, keeps the safety invariant, and hands out only what the barrier order allows |
| BarrierQueue.RequestQueue.Dequeue | block/elevator.c:857-871 | removal from the queue and the in_flight count are Dequeue of the old state |
| BarrierQueue.RequestQueue.Completed | block/elevator.c:947-977 | the completion test is Completed of the old state |
| BarrierQueue.RequestQueue.FindRequeuePos | block/elevator.c:668-696 | the walk finds the unique position behind everything of a lower sequence number |
| BarrierQueue.RequestQueue.Requeue | block/elevator.c:559-574 | requeueing in place is Requeue of the old state |
| BarrierQueue.RequestQueue.AddRequest | block/elevator.c:713-748 | colouring and insertion in place are the value model's additions, a back insertion that of the state in which the scheduler has handed over everything it held |
| SortList.InsertSorted | block/elevator.c:380-401 | insertion where no node has the sector keeps the tree strictly sorted |
| SortList.OneAtSector | block/elevator.c:380-401 | an alias is unique: without it no node has its sector |
| SortList.MergedExpiring | block/deadline-iosched.c:171-189 | a request merge keeps a FIFO sorted by expiry |
| SortList.MergedDeadline | block/as-iosched.c:1280-1301 | no deadline is lost in a request merge: the merged request expires when the first of the two did and stands where that one stood |
| AsCache.ChooseIsMinimum | block/as-iosched.c:294-361 | as_choose_req returns the smaller of two requests in one order of sectors |
| AsCache.BeforeIsTotalOrder | block/as-iosched.c:294-361 | that order is a strict total order at every head position |
| AsCache.NeighboursSuffice | block/as-iosched.c:369-391 | if the head stands at a node, or all nodes wrap and it is the first, the better neighbour is the best of all other nodes |
| AsCache.DispatchedNeighboursSuffice | block/as-iosched.c:971-1006 | after a dispatch the neighbours hold the best of the rest, for non-empty requests that do not overlap |
| AsCache.BestIffBeatsAround | block/as-iosched.c:294-361 | for every tree and head a request is the best if and only if it beats the nodes on either side of the head and the first one |
| AsCache.DispatchedBestIff | block/as-iosched.c:971-1006 | whatever overlaps, a dispatch leaves the best of the rest in the cache if and only if the next node does not begin before the end of the dispatched one, or is out of reach with all others and the dispatched one is among the first two, or is within reach and not worse than the node after it |
| AsCache.OverlapCanStaleCache | block/as-iosched.c:369-391 | and that fails for some tree |
| AsCache.RemovedNeighboursSuffice | block/as-iosched.c:896-920 | after removal of the cached request its neighbours hold the best of the rest, wherever the head is |
| AsCache.AddedBest | block/as-iosched.c:787-792 | comparing a newcomer with the cache gives the best of the larger tree |
| AsCache.FrontMergeKeepsBest | block/as-iosched.c:1261-1278 | after a front merge the cache is the best request if and only if the merged one still beats its neighbours, or the cached one still beats it |
| AsCache.FrontMergeCanStaleCache | block/as-iosched.c:1261-1278 | and that fails for some tree |
| As.CacheIsBest | block/as-iosched.c:896-1006 | in every run of non-empty requests that do not overlap per direction, whose front merges pass the exact test of FrontMergeKeepsBest, next_rq is the best of all of sort_list, in both directions |
| As.BatchesExclude | block/as-iosched.c:1022-1179 | in every run whose forced dispatches and same-sector aliases are of the batch that runs, outstanding requests are all synchronous or all asynchronous, changed_batch and new_batch are never both set, new_batch means a synchronous batch, and none of the BUG_ON and WARN_ON about batches and anticipation fires |
| As.DispatchShape | block/as-iosched.c:1022-1179 | a dispatch call moves exactly one request, the cached or the oldest of its direction, or leaves the queues alone |
| As.DispatchTakes | block/as-iosched.c:1080-1179 | unless a FIFO has expired, a batch that goes on is served in cache order and a new one starts with the oldest request of its direction |
| As.DispatchRefuses | block/as-iosched.c:1060-1179 | nothing is dispatched only if nothing is queued, while anticipating, or until the old batch has ended; AsDecision says exactly when it anticipates |
| As.AliasMixes | block/as-iosched.c:263-271 | an add or a front merge onto the sector of a queued request keeps outstanding requests of one direction if and only if those outstanding are of its direction |
| AsExample.AliasMixesRun | block/as-iosched.c:263-271 | a run from initialisation in which an add mixes them |
| As.DispatchGood | block/as-iosched.c:1022-1179 | no path of the dispatch function breaks batch exclusion or fires a BUG_ON |
| As.CompleteGood | block/as-iosched.c:838-888 | nor does completion, which starts the new batch with the last request of the old one |
| As.StepLinked | block/as-iosched.c:896-920 | no step, same-sector aliases of adds and front merges, merges and forced dispatch included, breaks the agreement of tree, FIFO, cache and outstanding requests |
| As.IndexesAgree | block/as-iosched.c:263-271 | so in every run tree and FIFO of each direction hold the same requests, sorted and without duplicates, next_rq if any is one of them, none is outstanding, and nr_dispatched counts those that are |
| As.FrontMergeLinked | block/as-iosched.c:1261-1278 | repositioning after a front merge moves exactly the alias, if there is one, and leaves next_rq NULL if and only if no third request is queued |
| As.StepFoundIff | block/as-iosched.c:1261-1278 | a step leaves a direction with requests but without next_rq if and only if it is a front merge onto the only other request of the direction |
| As.ForcedDrains | block/as-iosched.c:1029-1058 | forced dispatch empties both indexes of both directions, and hands out everything queued, if and only if every direction with requests has a next_rq |
| As.RunDrains | block/as-iosched.c:1029-1058 | so after every run without such a front merge |
| AsExample.FrontMergeForgets | block/as-iosched.c:1261-1278 | a run from initialisation with such a front merge, after which forced dispatch leaves a request behind |
| As.ForcedMixes | block/as-iosched.c:1029-1058 | it keeps outstanding requests of one direction if and only if only one direction was about |
| AsExample.ForcedMixesRun | block/as-iosched.c:1029-1058 | a run from initialisation in which it does not |
| AsDecision.AnticipatesIff | block/as-iosched.c:1060-1084 | told from the fields before the call, exactly when as_dispatch_request starts to anticipate, and that it then changes nothing else |
| AsDecision.NeverHeldBack | block/as-iosched.c:647-736 | in every run a queued request of the process that would be waited for is never held back: the scheduler is not waiting and does not start to |
| AsDecision.Decides | block/as-iosched.c:1054-1179 | told from the fields before the call, which request every other call settles on, of which direction, whether it goes out, and all batch and anticipation fields after it |
| AsDecision.NewcomerBreaks | block/as-iosched.c:787-806 | exactly when an arriving request ends the anticipation |
| AsDecision.Completes | block/as-iosched.c:838-888 | which batch and anticipation fields a completion leaves |
| AsDecision.WriteBatchFollows | block/as-iosched.c:808-834 | exactly when write_batch_count grows and shrinks, and by how much |
| AsQueue.AsData.MoveToDispatch | block/as-iosched.c:971-1015 | the in-place move is Move of the old state |
| AsQueue.AsData.AddRequest | block/as-iosched.c:1184-1210 | adding, with the alias loop, is Add of the old state |
| AsQueue.AsData.RemoveQueued | block/as-iosched.c:896-920 | removal from both indexes with the cache update is SideRemove of the old direction |
| AsQueue.AsData.MergedRequests | block/as-iosched.c:1280-1301 | merging two queued requests is MergeRequests of the old state |
| AsQueue.AsData.MergedFront | block/as-iosched.c:1261-1278 | taking a request out of the tree and putting it back, with the alias loop, is FrontMerge of the old state |
| AsQueue.AsData.DispatchRequest | block/as-iosched.c:1022-1179 | the dispatch function with its jumps is Dispatch of the old state |
| AsQueue.AsData.CompletedRequest | block/as-iosched.c:838-888 | completion in place is Complete of the old state |
| AsQueue.AsData.ForcedDispatch | block/as-iosched.c:1029-1058 | the two loops are Forced of the old state, and end with both directions empty if and only if none had requests without a next_rq |
| Deadline.WritesAreNotStarved | block/deadline-iosched.c:245-327 | from any reachable state at most (writes_starved + 1) * max(1, fifo_batch) dispatch calls in a row choose a read while a write is queued, whatever is added, merged or aliased in between |
| Deadline.ReadsUseUp | block/deadline-iosched.c:245-327 | each such call lowers a bounded measure of the two counters |
| Deadline.DispatchShape | block/deadline-iosched.c:245-327 | a dispatch call moves exactly one request and updates batching and starved accordingly, or nothing is queued |
| Deadline.DispatchServes | block/deadline-iosched.c:245-327 | told from the fields before the call, which direction and which request every call serves: next_rq within a batch; else reads unless writes have waited for writes_starved batches, beginning with the oldest if it has expired or there is no next_rq |
| Deadline.ExpiredIsServedFirst | block/deadline-iosched.c:228-327 | if any request of its direction has expired when a batch starts, the one that expires first is served |
| Deadline.BatchGoesUp | block/deadline-iosched.c:207-222 | what is cached after a dispatch is the nearest request above it, so a batch goes up in sector order |
| Deadline.MergedGoesUp | block/deadline-iosched.c:171-189 | if the cached request is merged away the batch goes on with the nearest one above it |
| Deadline.FifosExpireInOrder | block/deadline-iosched.c:101-113 | in every reachable state both FIFOs are sorted by expiry |
| Deadline.IndexesAgree | block/deadline-iosched.c:77-124 | in every reachable state tree and FIFO hold the same requests, nr_sorted counts them, and at most one direction has a next request |
| Deadline.AddRbShape | block/deadline-iosched.c:77-84 | adding to the tree moves a request at the same sector to the dispatch queue and leaves the rest |
| Deadline.MergeInOrder | block/deadline-iosched.c:171-189 | a request merge keeps both FIFOs in expiry order |
| DeadlineQueue.DeadlineData.AddRequest | block/deadline-iosched.c:101-113 | adding in place is Add of the old state |
| DeadlineQueue.DeadlineData.AddToTree | block/deadline-iosched.c:77-84 | the alias loop is AddRb of the old state |
| DeadlineQueue.DeadlineData.MoveRequest | block/deadline-iosched.c:207-222 | moving to the dispatch queue is Move of the old state |
| DeadlineQueue.DeadlineData.MergedFront | block/deadline-iosched.c:156-168 | a front merge is FrontMerge of the old state |
| DeadlineQueue.DeadlineData.MergedRequests | block/deadline-iosched.c:171-189 | a request merge is MergeRequests of the old state |
| DeadlineQueue.DeadlineData.DispatchRequests | block/deadline-iosched.c:245-327 | the dispatch function is Dispatch of the old state; it succeeds iff something is queued |
| DeadlineQueue.DeadlineData.DrainElevator | block/elevator.c:576-588 | draining ends with nr_sorted zero and all indexes empty |
| CfqService.TreeAddOk | block/cfq-iosched.c:486-558 | adding or re-adding a queue keeps the service tree in class and key order and the leftmost cache unset or true |
| CfqService.TreeAddPlaces | block/cfq-iosched.c:486-558 | the queue stands behind all it is not served before, equals included, and before all others, which keep their order |
| CfqService.IdleGoesLast | block/cfq-iosched.c:494-501 | a queue of the idle class goes behind all others |
| CfqService.ServedInOrder | block/cfq-iosched.c:520-550 | real-time queues come first, idle ones last, and within a class they go by key |
| CfqService.FirstIsTrue | block/cfq-iosched.c:420-429 | cfq_rb_first returns the true first queue |
| CfqService.AddRrOk | block/cfq-iosched.c:635-645 | a queue put on the round-robin list is in the tree, flagged and counted |
| CfqService.DelRrOk | block/cfq-iosched.c:651-666 | and taken off it is in none of them |
| Cfq.IndexesAgree | block/cfq-iosched.c:671-783 | in every reachable state each queue's tree and FIFO agree, next_rq is NULL iff they are empty, a queue is on_rr iff it has requests, busy_queues counts those, the leftmost cache is NULL or first, nr_sorted and rq_queued count the union of the trees, which are disjoint, and no BUG_ON has fired |
| Cfq.ForcedDrains | block/cfq-iosched.c:1219-1250 | forced dispatch ends with every queue empty and all counters zero, and its BUG_ONs do not fire |
| Cfq.AddRbLinked | block/cfq-iosched.c:686-717 | adding a request, alias or not, first of its queue or not, keeps the indexes and counters in agreement |
| Cfq.RepositionLinked | block/cfq-iosched.c:719-724 | so does repositioning after a front merge |
| Cfq.RemoveLinked | block/cfq-iosched.c:768-783 | so does removal, with the queue leaving the service tree when it becomes empty |
| Cfq.FindNextFinds | block/cfq-iosched.c:448-469 | cfq_find_next_rq finds another request iff there is one |
| Cfq.ChoosePrefers | block/cfq-iosched.c:326-415 | cfq_choose_req prefers synchronous requests, then metadata, then those not too far behind, then the cheaper seek, whichever way round it is asked |
| Cfq.PreferredIsOrder | block/cfq-iosched.c:326-415 | that preference is a strict order |
| Cfq.FindNextPrefers | block/cfq-iosched.c:448-469 | cfq_find_next_rq gives the preferred one of the node behind, or the first if there is none, and the node before |
| Cfq.FilledBest | block/cfq-iosched.c:686-717 | if no queued request is preferred to next_rq, none is after an insertion |
| Cfq.DispatchServes | block/cfq-iosched.c:1256-1272 | a dispatch from a queue takes its oldest request if that has expired and next_rq if not |
| CfqQueue.CfqData.ServiceTreeAdd | block/cfq-iosched.c:486-558 | the descent in place is TreeAdd of the old tree |
| CfqQueue.CfqData.RemoveRequestFrom | block/cfq-iosched.c:768-783 | removal in place is RemoveRequest of the old state |
| CfqQueue.CfqData.AddRqRb | block/cfq-iosched.c:686-717 | the alias loop and insertion in place are AddRb of the old state |
| CfqQueue.CfqData.InsertNew | block/cfq-iosched.c:2097-2110 | inserting in place is InsertRequest of the old state |
| CfqQueue.CfqData.ForcedDispatch | block/cfq-iosched.c:1236-1250 | both loops end with everything dispatched |
| DispatchSort.DispatchQueue.Sort | block/elevator.c:437-473 | the backward walk puts the request at the one place SortStep gives it, and keeps the tail in order |
| DispatchSort.DispatchQueue.NextRequest | block/elevator.c:783-805 | marking the head as started and moving the boundary is NextStep, and keeps the tail in order if and only if it respects the run behind the head |
| DispatchSort.PlaceOf | block/elevator.c:437-473 | the walk ends behind the last request that blocks it or is not greater |
| DispatchSort.PassesOnly | block/elevator.c:437-473 | told from the fields: it walks over exactly the requests of its direction and class that are neither started nor barriers and come later in the sweep from the boundary |
| DispatchSort.TailStaysOrdered | block/elevator.c:437-473 | it comes to stand inside the run it may walk over, which is in elevator order with it as it was without |
| DispatchSort.RunKeepsTails | block/elevator.c:437-473 | while every step respects the run before it, whatever a new request may walk over is in elevator order, over sorting, tail, front and back insertion, requeues, hand-outs and dequeues |
| DispatchSort.RunInOrderIff | block/elevator.c:437-494 | from the empty queue every state of a run is in order if and only if every step respects the run before it |
| DispatchSort.NextInOrderIff | block/elevator.c:783-805 | handing out the head, which moves end_sector to its end, keeps the order if and only if that end does not come to lie within the run behind it |
| DispatchSort.NextMovesIff | block/elevator.c:783-805 | handing out the head moves end_sector to its end exactly if no other request is marked as the boundary |
| DispatchSort.TailInOrderIff | block/elevator.c:480-494 | adding at the tail, which moves end_sector, keeps the order if and only if its end does not come to lie within the run and it follows the last of it |
| DispatchSort.MovedIff | block/elevator.c:450-469 | a run in order for one boundary is in order for another if and only if that does not lie between its first and its last request |
| DispatchSort.OneRunRespects | block/elevator.c:783-805 | handing out the first of a queue that is one run, none of it beginning inside the first, always keeps the order |
| DispatchSort.StartBreaksOrder | block/elevator.c:783-805 | a run in which handing out a write leaves two reads behind it out of order |
| DispatchSort.PlaceIsUnique | block/elevator.c:437-473 | that position is unique |
| Merging.MergingIsExact | block/blk-core.c:1168-1219 | after any run each queued request tiles its sectors with its bios within the limits, the bios submitted are exactly those queued, each once, and those dispatched, and the hash is exact |
| Merging.SubmitKeeps | block/blk-core.c:1148-1219 | one submission puts the bio into exactly one request and loses, duplicates or tears nothing |
| Merging.FindAgrees | block/elevator.c:354-374 | elv_rqhash_find finds a mergeable request that ends at the offset iff one is pending, and keeps the hash exact while pruning |
| Merging.ElvMergePicks | block/elevator.c:496-529 | what elv_merge picks is a mergeable request that the bio continues at the end or at the front; MergeChoice says exactly when it picks |
| MergeChoice.ElvMergeMissesNothing | block/elevator.c:496-529 | told from the fields of the requests: last_merge comes first, then a request ending where the bio begins, then the scheduler's candidate; nothing is picked exactly if last_merge does not take the bio, and merging is off or neither of the others does |
| MergeChoice.FindsFirst | block/elevator.c:354-374 | the search gives the first mergeable request of the chain that ends at the offset |
| MergeChoice.SubmitMergesIff | block/blk-core.c:1160-1219 | a bio gets a request of its own exactly if it is a barrier, nothing takes it, or what takes it has no room, which is then closed to further bios |
| MergeChoice.BackMergeLeaves | block/blk-core.c:1170-1185 | what a back merge leaves, and exactly when the latter request is joined |
| MergeChoice.FrontMergeLeaves | block/blk-core.c:1187-1214 | what a front merge leaves, and exactly when the former request is |
| Merging.BackArmKeeps | block/blk-core.c:1170-1185 | a back merge, with a further merge into the latter request, keeps everything |
| Merging.FrontArmKeeps | block/blk-core.c:1187-1214 | a front merge needs no rehash, and with a further merge keeps everything |
| Merging.JoinKeeps | block/blk-merge.c:360-415 | joining two requests keeps tiling, limits and hash, and all their bios |
| Merging.MergeKeepsClass | block/elevator.c:79-112 | a bio that elv_rq_merge_ok admits never mixes discards with other bios |
| Merging.JoinKeepsClassIff | block/blk-merge.c:360-415 | attempt_merge joins two unmixed requests into an unmixed one iff they are of one class |
| Merging.JoinCanMixClasses | block/blk-merge.c:360-415 | it does not test this: a run of three submissions from the empty queue that leaves a read and a discard in one request, for every bucket function |
| Merging.MixedAreReads | include/linux/fs.h:165-166 | a discard is of read direction, so what it is joined with are reads |
| Merging.RehashOk | block/elevator.c:348-352 | repositioning restores the bucket of the current end sector |
| Merging.Elevator.RqhashFind | block/elevator.c:354-374 | the walk that prunes in place is HashFind of the old state |
| Merging.Elevator.AttemptMerge | block/blk-merge.c:360-415 | attempt_merge in place is Join of the old state, or nothing |
| Merging.Elevator.MergedRequest | block/elevator.c:531-542 | after it every request is on the chain of its end sector and every mergeable one is on a chain, by a rehash if it was merged at the back and without one if at the front |
| Completion.RestIsSuffix | block/blk-core.c:1733-1827 | for every chain and byte count the bytes left are the old ones minus the first nr_bytes |
| Completion.BiosConserved | block/blk-core.c:1733-1827 | the bios ended, in order, and those left make up the chain: none is lost or ended twice |
| Completion.EndedIffCovered | block/blk-core.c:1733-1827 | for every chain a bio is ended iff the byte count reaches its end and, unless it is the first, goes beyond its start |
| Completion.EndedIffReached | block/blk-core.c:1733-1827 | without empty bios behind the first: iff the byte count reaches its end |
| Completion.DoneIff | block/blk-core.c:1733-1827 | exactly when the call returns 0, for every chain |
| Completion.DoneIffNothingRemains | block/blk-core.c:1733-1827 | iff nothing remains, when no empty bio follows another |
| Completion.TwoStepsAreOne | block/blk-core.c:1733-1827 | for every chain completing n1 and then n2 bytes ends the same bios and leaves the same live chain as n1 + n2, iff n2 is not 0 or the first n1 bytes do not end right before an empty bio |
| Completion.SplitsIff | block/blk-core.c:1733-1827 | that holds for all n1 and n2 iff no empty bio follows another |
| Completion.SectorSplitsIff | block/blk-core.c:140-177 | inside one bio two steps leave `bi_sector` as one step does iff their odd bytes make no whole sector |
| CompletionResults.NoErrorLost | block/blk-core.c:140-177 | over any number of partial completions, each with its own error: a bio ends with the error of the call that ends it, and if that has none it ends well exactly if it came in good order and no earlier call with an error was about any of its bytes, else with -EIO |
| Completion.RecalcKeepsPosition | block/blk-merge.c:12-39 | in whole sectors the request starts where what is left starts, ends where it ended, and is not botched |
| Completion.RecalcFollows | block/blk-merge.c:12-39 | for all positions: the hard ones go on, the driver's are taken along unless it is ahead of them, and never say less is left than in the first segment |
| Completion.Request.EndIo | block/blk-core.c:140-177 | a bio is advanced by the bytes and ended with the right error exactly when none are left |
| Completion.Request.Walk | block/blk-core.c:1733-1827 | the loop ends the right bios and stops at the right byte |
| Completion.Request.EndFirst | block/blk-core.c:1733-1827 | the whole function leaves Rest of the chain and returns whether it is empty |
| Tags.RunExact | block/blk-tag.c:219-401 | over every run of start, end, requeue, shrink, grow and invalidation from a fresh map a bit is set iff tag_index holds exactly the one request carrying that tag, and no two requests carry one tag |
| Tags.RunReserved | block/blk-tag.c:336-380 | at a fixed depth asynchronous requests never hold a tag below max_depth / 4 |
| Tags.ReleasedAboveDepth | block/blk-tag.c:281-315 | a tag above a reduced depth is still released |
| Tags.GrowInBoundsIff | block/blk-tag.c:219-264 | the cells both copies write are all cells of the new arrays iff twice nr_requests covers the old depth |
| Tags.GrowOverruns | block/blk-tag.c:107-137 | a run after which growing the map writes past the end of both |
| Tags.InvalidateRestores | block/blk-tag.c:395-401 | invalidation frees all tags and puts the busy list, reversed, at the queue front |
| Tags.InvalidateInStartOrder | block/blk-tag.c:382-401 | after every run from a fresh map that is exactly the tagged requests, in the order in which they were last given their tags |
| Tags.StepInOrder | block/blk-tag.c:336-401 | every step keeps the busy list newest first |
| Tags.StartExact | block/blk-tag.c:336-380 | starting keeps the map exact, gives the lowest free tag, from a quarter of the depth on if asynchronous, and fails iff there is none |
| Tags.TagMap.StartTag | block/blk-tag.c:336-380 | the search in the bit array is Start of the old state |
| Tags.TagMap.EndTagOf | block/blk-tag.c:281-315 | releasing in place is EndTag of the old state |
| Tags.TagMap.ResizeTags | block/blk-tag.c:219-264 | resizing, with copies into larger arrays, is Resize of the old state |
| Tags.TagMap.InvalidateTags | block/blk-tag.c:395-401 | the loop over the busy list is Invalidate of the old state |
| Camellia.FastIsPlain | crypto/camellia.c:381-578 | for any number of groups, all subkeys and blocks, and tables made of any four S-boxes, the fast cipher on the absorbed keys is the cipher of sections 2.3 and 2.4 of RFC 3713, byte by byte, on the unabsorbed ones |
| Camellia.MacroIsF | crypto/camellia.c:359-376 | with tables made of any four S-boxes in the way the source's are, CAMELLIA_F is the F of section 2.4.1 of RFC 3713: eight S-boxes and the byte diffusion |
| Camellia.UnpackHolds | crypto/camellia.c:359-376 | the bytes a word is taken apart into are those it is made of |
| Camellia.LayerIsPlain | crypto/camellia.c:854-868 | the FL macro is FL and FLINV of sections 2.4.2 and 2.4.3 of RFC 3713 |
| Camellia.SetupTail | crypto/camellia.c:381-578 | the in-place absorption, merging and half inverse of P produce exactly the absorbed schedule |
| Camellia.RoundAgrees | crypto/camellia.c:359-376 | one fast round on a key taken through the inverse of half of P is one round with the F of RFC 3713 |
| Camellia.FLCarries | crypto/camellia.c:854-868 | a key difference passes through the FL layer as an exclusive or with its linear part |
| Camellia.FLInvCarries | crypto/camellia.c:854-868 | and through the inverse layer |
| Camellia.DecryptInvertsEncrypt | crypto/camellia.c:942-970 | decryption undoes encryption for any subkey array |
| Camellia.EncryptInvertsDecrypt | crypto/camellia.c:887-915 | and encryption decryption |
| Camellia.DoEncrypt | crypto/camellia.c:887-915 | the loop over groups in place is FastEncrypt before the final half swap |
| Camellia.DoDecrypt | crypto/camellia.c:942-970 | the loop over groups in place is FastDecrypt before the final half swap |
| Camellia.FLS | crypto/camellia.c:854-868 | both halves of the FL layer in place |
| Camellia.Encrypt | crypto/camellia.c:1033-1055 | with the callers' half swap, on an absorbed schedule: the encryption of RFC 3713 of the block under the unabsorbed keys |
| Camellia.Decrypt | crypto/camellia.c:1057-1079 | with the callers' half swap, on an absorbed schedule: the block whose encryption of RFC 3713 is the input |
| Chainiv.ProtocolSafety | crypto/chainiv.c:123-262 | in every interleaving at most one thread owns the bit and queue_work always queues; and unless the random source failed a non-empty queue has an owner, a pending work item or a thread in the handshake |
| Chainiv.IvsAreChained | crypto/chainiv.c:161-179 | in every run every IV used is the one the last successful encryption before it left, or what the random source left the one time it was asked, even if it failed |
| Chainiv.CallsReturnTheirOwnResult | crypto/chainiv.c:123-179 | a call that encrypted returns the result of its own encryption although it goes through shared memory |
| Chainiv.QuietMeansEmpty | crypto/chainiv.c:276-283 | when all threads are done and no work is pending the bit is clear and, unless the random source failed, the queue empty: the BUG_ON on exit does not fire |
| Chainiv.PostponedInOrder | crypto/chainiv.c:144-262 | in every state of every run the requests postponed are, in order, those the worker has encrypted, the one in its hands and the queue, and they are those of the postponed callers, one each |
| Chainiv.QuietMeansServed | crypto/chainiv.c:235-262 | so when all is quiet and seeding worked every one of them has been encrypted by the worker, in order |
| Chainiv.NoOvertaking | crypto/chainiv.c:181-206 | a caller that encrypts itself does so after every request that had been postponed when it was called |
| Chainiv.CallEnds | crypto/chainiv.c:144-233 | how a call ends: with its own encryption, postponed with -EBUSY or -EINPROGRESS by the length of the queue, or with the error of the random source |
| Chainiv.FailedSeedStrands | crypto/chainiv.c:208-233 | leaving after a failed seed strands the queue iff it is not empty and no other thread is in the handshake |
| Chainiv.CaredForEver | crypto/chainiv.c:123-143 | once nobody is about to leave so, a queue that is looked after, as it is whenever the bit is set, is looked after in every later state |
| Chainiv.FailedSeedRun | crypto/chainiv.c:208-233 | and a run in which it does |
| Chainiv.FailedSeedIv | crypto/chainiv.c:208-233 | and a run in which the next caller encrypts with whatever the failed random source left |
| Chainiv.RunInv | crypto/chainiv.c:123-262 | the invariant of the protocol holds in every state of every run |
| CryptoQueue.BacklogProtocol | crypto/cryptd.c:89-130 | in every reachable state service is FIFO, the backlog pointer is right, a request accepted with -EBUSY has had exactly one -EINPROGRESS callback by the time it completes and no other request has one, and a non-empty queue has its work pending or running |
| CryptoQueue.EnqueueOk | crypto/algapi.c:674-692 | enqueueing keeps the backlog pointer at index max_qlen, or at the list head |
| CryptoQueue.EnqueueAnswers | crypto/algapi.c:674-692 | a request is refused exactly if the queue is full and it may not wait, and told -EBUSY exactly if it is full |
| CryptoQueue.DequeueOk | crypto/algapi.c:695-711 | so does dequeueing |
| CryptoQueue.RequestQueue.EnqueueRequest | crypto/algapi.c:674-692 | enqueueing in place is Enqueue of the old queue |
| CryptoQueue.RequestQueue.DequeueRequest | crypto/algapi.c:695-711 | dequeueing in place removes and returns the first request and keeps the pointer right |
| Spawns.Registry.RemoveAlg | crypto/algapi.c:324-336 | unregistering marks dead exactly what was dead or is reached through chains of expanding instances, and moves to the removal list, once each, exactly the reached instances that expand; the worklist terminates |
| Spawns.Registry.RemoveSpawns | crypto/algapi.c:112-129 | for any type, exactly the instances reached over the users whose mask lets them pass are killed, those among them that expand are on the removal list once, and exactly the other users stay |
| Spawns.Registry.WalkSpawns | crypto/algapi.c:112-129 | the two loops end with nothing waiting and the walk's invariant kept |
| Spawns.Registry.RemoveAll | crypto/algapi.c:112-129 | one pass consumes the spawns whose mask lets them pass, leaves the others in their order, and leaves what was spliced in meanwhile |
| Spawns.Registry.RemoveSpawn | crypto/algapi.c:84-110 | one spawn: its instance is skipped, marked, or removed with its users spliced into the worklist |
| Spawns.FinishedIsExact | crypto/algapi.c:84-129 | when nothing waits, dead and removed are exactly the reachable ones |
| Ccm.MacState.Auth | crypto/ccm.c:245-278 | for every cut of associated data and text into chunks the result is the CBC-MAC of the formatted blocks of section 2.2 of RFC 3610, or -EOVERFLOW |
| Ccm.MacState.GetDataToCompute | crypto/ccm.c:203-243 | chunked data and padding give the MAC of the padded blocks of the whole |
| Ccm.MacState.ComputeMac | crypto/ccm.c:164-201 | one chunk is absorbed behind the bytes pending |
| Ccm.MacState.FormatAdata | crypto/ccm.c:145-162 | the length prefix of the associated data |
| Ccm.FormatInput | crypto/ccm.c:123-143 | the control block from the IV, the tag size and the lengths |
| Ccm.SetMsgLen | crypto/ccm.c:58-74 | the big-endian length field, or -EOVERFLOW |
| Ccm.AbsorbAppend | crypto/ccm.c:164-201 | absorbing in two parts is absorbing the whole |
| Ccm.FlushedIsMac | crypto/ccm.c:230-242 | absorbing and padding is the MAC of the padded blocks |
| Ccm.FirstBlockFields | crypto/ccm.c:123-143 | the control block holds L - 1, (M - 2) / 2, the Adata bit, the nonce and the length where section 2.2 of RFC 3610 has them |
| Ccm.XorLaws | crypto/ccm.c:164-201 | the exclusive or of blocks undoes itself, and zeros leave a block as it is |
| Ccm.FormatIsPrefixFree | crypto/ccm.c:123-162 | over all accepted inputs the formatted blocks of one begin those of another if and only if they are the same input, or differ only in that one message is empty and the other exactly 256^L bytes long |
| Ccm.WrappedLengthCollides | crypto/ccm.c:67-68 | a length of exactly 256^L passes the test and breaks prefix-freeness |
| Ccm.LengthFieldExact | crypto/ccm.c:58-74 | two accepted lengths share a field iff they are 0 and 256^L |
| Cbc.EncryptSegment | crypto/cbc.c:42-64 | the segment form computes CBC and the carried IV |
| Cbc.EncryptInplace | crypto/cbc.c:66-88 | the in-place form computes the same |
| Cbc.DecryptSegment | crypto/cbc.c:114-138 | the segment form computes CBC decryption and the carried IV |
| Cbc.DecryptInplace | crypto/cbc.c:140-167 | the in-place form, going backward, computes the same |
| Cbc.DecryptUndoesEncrypt | crypto/cbc.c:42-167 | decryption undoes encryption for any invertible block function |
| Cbc.EncryptInChunks | crypto/cbc.c:90-112 | encrypting consecutive chunks with the carried IV is encrypting at once |
| Cbc.DecryptInChunks | crypto/cbc.c:169-191 | so is decrypting |

## Left out

- Barrier.BarrierSafety: order in tag mode, which is the device's.
- Barrier: discard requests, `elv_abort_queue`, `prep_rq_fn`, DMA drain and front insertion of filesystem requests.
- As: completion of a request that is not active, for which the code only warns; the thinktime and seek statistics and the clock, which act through parameters.
- As.BatchesExclude: runs with forced dispatch or same-sector aliases outside the batch that runs, for which As.ForcedMixes and As.AliasMixes give the exact condition instead.
- Cfq: slices, idling, the choice of the queue to serve, the priority trees and cooperating queues, `busy_rt_queues` and `meta_pending`; a queue changes class only while it is not busy.
- Cfq.FindNextFinds: that the choice is the best of the whole tree, because CFQ does not move the head position with its dispatches.
- DispatchSort: `prep_rq_fn`; a request is dequeued at the head or after it was handed out.
- Merging: the counting of physical segments inside a bio.
- Completion: discard bios, which have a size but no vectors and leave the loop by its range check; the barrier proxy, whose bios are not ended, and the recount of segments; `bi_sector` is not compared in TwoStepsAreOne, because it is rounded to sectors in each call (SectorSplitsIff says when it agrees).
- Tags: maps shared between queues, and failure to allocate.
- Camellia: the contents of the S-boxes, and the schedules of `camellia_setup128`, `camellia_setup192` and `camellia_setup256` that feed the absorption.
- Chainiv: memory ordering weaker than sequential consistency, and completion of the cipher after its call returned.
- CryptoQueue: hashes and ciphers behind the completion callback.
- Spawns.Registry.RemoveSpawns: several calls with one removal list, as when a newly tested algorithm replaces more than one; an algorithm that is not dead must not depend on itself, which instances cannot.
- Ccm: the counter mode half; the flags byte is a sum of its fields, which do not overlap.
- Cbc: the scatter walk that cuts a request into chunks; buffers are arrays of whole blocks.
- Red-black tree balancing, locks, reference counts, tracing and statistics.
- `crypto_inc` is not modelled, and `crypto_xor` not as a loop.
