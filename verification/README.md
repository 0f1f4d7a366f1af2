# Block layer and crypto core of Linux 2.6.32

A Dafny model of the request engine of the block layer (`Kernel/block`) and of three pieces of the crypto layer
(`Kernel/crypto`), with proofs of what they keep over whole runs.

Where the kernel changes things in place, the model has two layers. A class or a method on arrays does what the C
function does, step by step, and is proved equal to a function on values. The theorems are then about those
functions: over every input, every history, or every reachable state. Where threads interleave, the model is a
transition system with one step per atomic action.

| topic | values and theorems | code in place |
|---|---|---|
| ordered (barrier) sequences | `OrderedQueue`, `OrderedBase`, `OrderedSteps`, `OrderedEnds`, `OrderedDrain`, `OrderedSafe`, `OrderedData`, `OrderedTurns`, `OrderedSweep` | `RequestQueue` |
| asynchronous chain-IV generator | `ChainIv` | (transition system) |
| Camellia | `Camellia`, `CamelliaRekey` | `CamelliaKeys`, `CamelliaCode` |
| merging, segment counts and the transfer | `Segments`, `Scatter` | `MergeCode` |
| removal of an algorithm and all built on it | `Spawns` | class `Registry` in `Spawns` |
| deadline scheduler | `Deadline`, `DeadlineRuns` | `DeadlineCode` |
| anticipatory scheduler, next request | `AsSched` | class `AsData` in `AsSched` |
| CFQ | `Cfq`, `CfqRuns` | `CfqCode` |
| partial completion and failfast flags | `Completion`, `CompletionRuns` | `CompletionCode` |
| CBC | `Cbc` | `CbcCode` |
| command tags | `Tags` | `TagsCode` |
| back-merge hash | `MergeHash` | class `Elevator` in `MergeHash` |
| think time | `ThinkTime` | |

The main results:

- **Barriers.** A run is any sequence of additions (plain, barrier, special), scheduler moves, peeks, fetches,
  completions and requeues. On a drain-ordered queue no flush or barrier proxy reaches the driver before every request
  added ahead of that barrier has completed, the barrier does not end before that either, and no request added behind
  it reaches the driver before its sequence has ended. In every ordering mode each started sequence ends its original
  once, after one report of each phase its method asks for, with the first error reported; that method is the queue's,
  less what an empty barrier does not need; whatever the driver is handed moves what was submitted, the barrier proxy
  what its barrier would; the current phase never moves back; no BUG_ON and no WARN_ON fires. Under drain ordering the
  phases are issued in turn. The proof tags each request with an epoch and shows that the dispatch list stays sorted by
  epoch and phase, through sorted insertion, stacking of the proxies and requeues.
- **Chain IV.** INUSE is one token held by one thread or by the queued work item, over every interleaving; every call
  is carried, queued, encrypted or refused, once; postponed requests are encrypted in the order they were queued; the
  encryptions form one chain of IVs from the seed; and every state runs to rest. At rest the queue is empty, except
  after one kind of run, given exactly: a caller gave up on the RNG with requests in the queue when everybody else had
  finished, and nobody has called since.
- **Camellia.** For all S-boxes, all subkeys, 18 and 24 rounds: the table `camellia_setup_tail` computes by absorbing kw2
  and kw4, moving the key XOR to the end of F and applying the inverse of half of P makes `camellia_do_encrypt` the
  cipher of section 2.3 of RFC 3713, and `camellia_do_decrypt` its inverse.
- **Segments.** Over every history of merges, refusals, recounts and partial completions the scatterlist needs at most
  `nr_phys_segments` entries: the counter is always the length of some legal segmentation, and the greedy walk is the
  shortest. Byte for byte, that scatterlist pairs each place on the disk with the memory some submitted bio asked for.
  The counter stays within the queue's two limits where no page is bounced; where pages are, a recount can exceed them,
  and the recount is given exactly.
- **Schedulers.** Deadline: a new batch takes writes, if both wait, exactly when `writes_starved` batches in turn have
  passed one over, so while a write waits at most `(writes_starved + 1) * max(1, fifo_batch)` reads are picked; the
  FIFO head alone tells whether anything has expired; no request is lost. Anticipatory: looking at the neighbours of
  the request that leaves finds the best of the whole list if and only if a test on the list passes. CFQ: lists, tree,
  cached first node, flags and counters always agree, so forced dispatch ends and empties everything; each FIFO is in
  order of arrival.
- **Completion.** Completing bytes in any series of calls leaves exactly the data behind them, and ends each bio once,
  with an error iff some of its bytes were reported in error. A mixed-merge request's failfast flags stay within its
  first bio's, so failing up to the boundary always makes progress, and no bio fails fast in a way it did not ask for.
- **CBC.** The four loops and the two chunk walks, in place and not, equal the whole-message mode of section 6.2 of NIST
  SP 800-38A for any cutting into pieces; decryption undoes encryption.

Integers are unbounded, time is a natural number that does not wrap, and memory is sequentially consistent. What a
scheduler decides, how a walk is cut into pieces, which vectors are physically joinable, the RNG's and the cipher's
answers are parameters.

## Model

| member | source | states |
|---|---|---|
| `OrderedSafe.RunBarriersHold` | Kernel/block/blk-barrier.c:153-279 | in every run of a drain-ordered queue, when a proxy of a barrier is issued, or the barrier ends, every fs request added before that barrier has completed, and when an fs request added after a barrier is issued that barrier has ended |
| `OrderedEnds.RunEndsOnce` | Kernel/block/blk-barrier.c:91-129 | in every run and every mode: each end belongs to a started sequence, happens once, comes after exactly one report of each phase the method of that sequence asks for, and carries the first nonzero error reported before it; a started sequence has ended, or is the one in progress and still has an outstanding phase; no BUG_ON fired |
| `OrderedData.RunFaithful` | Kernel/block/blk-barrier.c:153-233 | in every run and every mode: a request or barrier proxy that reached the driver has the direction, discard flag, position and length submitted earlier under its id, a proxy under the id of its barrier; a flush moves nothing; a sequence starts by the queue's method without BAR and POSTFLUSH for an empty barrier, and by draining if no flush is left either; a proxy that is queued or at the driver moves what the stashed original does; `end_sector` is the end of the boundary request |
| `OrderedData.MethodIs` | Kernel/block/blk-barrier.c:162-181 | what the masking of an empty barrier's method comes to, bit by bit, for the six methods |
| `OrderedTurns.RunInTurn` | Kernel/block/blk-barrier.c:185-279 | in every run of a drain-ordered queue a proxy is issued only after each earlier phase its method asks for has reported |
| `OrderedTurns.HeadTurned` | Kernel/block/blk-barrier.c:271-274 | a proxy at the head whose phase is not ahead of the sequence follows the reports of the phases before it |
| `OrderedEnds.PhaseNeverBack` | Kernel/block/blk-barrier.c:55-60 | in every run, one more step leaves the sequence in progress over, or the same with its current phase no lower |
| `OrderedDrain.RunCalm` | Kernel/block/blk-barrier.c:235-279 | in every run and every mode the WARN_ON on a head from a phase that is over stays quiet; under drain ordering the dispatch list stays sorted by epoch and phase |
| `OrderedSteps.RunBase` | Kernel/block/blk-barrier.c:91-111 | in every run and every mode: no request is in two places, `in_flight` counts the fs requests at the driver, a phase bit is clear exactly while its proxy is outstanding, the queued barriers close consecutive epochs, and no bit is completed twice |
| `OrderedDrain.ProxyInTurn` | Kernel/block/blk-barrier.c:262-278 | a proxy at the head of a drain-ordered queue is granted if and only if it is the proxy of the current phase |
| `OrderedDrain.HeadNotPast` | Kernel/block/blk-barrier.c:271-274 | the head of a drain-ordered queue never belongs to a phase before the current one |
| `OrderedDrain.PassedIsNewest` | Kernel/block/elevator.c:417-453 | sorted insertion only ever passes requests of the current epoch, so it cannot carry a request across a barrier |
| `OrderedDrain.RequeueProxyRanked` | Kernel/block/elevator.c:650-678 | a requeued proxy goes back before the first request of a later phase, and the list stays in order |
| `OrderedQueue.SortIndex` | Kernel/block/elevator.c:430-450 | the place of a sorted insertion: everything behind it may be passed, the one before it may not |
| `OrderedSweep.MovesInSweep` | Kernel/block/elevator.c:417-453 | any number of sorted insertions keep the dispatch list, between the marks that stop them, one upward sweep over the disk from `end_sector`, wrapping around once |
| `OrderedSweep.StopsThere` | Kernel/block/elevator.c:430-450 | an insertion lands behind every marked request, every request of another direction or discard flag, and everything the sweep meets no later |
| `OrderedSweep.StretchInSweep` | Kernel/block/elevator.c:430-450 | in a stretch of unmarked requests of one kind any two are in sweep order, not neighbours only |
| `OrderedSweep.PeekInSweep` | Kernel/block/blk-core.c:1765-1846 | a grant marks the head and goes on with the sweep from its end, unless an earlier boundary still bounds it |
| `OrderedSweep.TakenInSweep` | Kernel/block/blk-core.c:1790-1793 | when the head is taken and `end_sector` moves to its end, what is left is a sweep from there |
| `OrderedQueue.RequeueIndex` | Kernel/block/elevator.c:669-677 | the place of a requeue: everything before it is of an earlier phase, the one there is not |
| `OrderedQueue.GoneShrinks` | Kernel/block/blk.h:54-68 | when `blk_do_ordered` reports the head as gone the dispatch list lost exactly its head, so the fetch loop ends |
| `OrderedBase.DrainBase` | Kernel/block/elevator.c:556-568 | a forced drain leaves the scheduler empty and keeps the invariant |
| `OrderedSteps.DoOrderedGrants` | Kernel/block/blk-barrier.c:235-279 | what is granted is never an unstarted barrier, nor a proxy before the drain is over |
| `RequestQueues.RequestQueue.SetBits` | Kernel/block/blk-barrier.c:91-111 | the in-place update equals the modelled one; reports the end exactly when no phase is left |
| `RequestQueues.RequestQueue.CompleteSeq` | Kernel/block/blk-barrier.c:91-111 | `blk_ordered_complete_seq` on the fields: first error kept, bits set, the original ended when no phase is left; the step `OrderedEnds.RunEndsOnce` is about |
| `RequestQueues.RequestQueue.StartOrdered` | Kernel/block/blk-barrier.c:153-233 | `start_ordered`, its three parts and the skipped phases together: the start of a sequence as `OrderedData.RunFaithful` has it, with the original's data in the barrier proxy |
| `RequestQueues.RequestQueue.StackProxies` | Kernel/block/blk-barrier.c:131-151 | stacking the proxies one by one at the head in reverse puts them there in issue order, the barrier proxy moving what the original does |
| `RequestQueues.RequestQueue.DoOrdered` | Kernel/block/blk-barrier.c:235-279 | all branches of `blk_do_ordered` on the fields equal the modelled verdict and state |
| `RequestQueues.RequestQueue.SortPlace` | Kernel/block/elevator.c:430-450 | the backward walk ends at the modelled place |
| `RequestQueues.RequestQueue.DispatchSort` | Kernel/block/elevator.c:417-453 | `elv_dispatch_sort` on the lists: the held request lands where `OrderedQueue.SortIndex` says, as the runs of `OrderedSafe.RunBarriersHold` have it |
| `RequestQueues.RequestQueue.DispatchAddTail` | Kernel/block/elevator.c:461-474 | `elv_dispatch_add_tail` on the lists: the held request lands at the tail and becomes the sorting boundary |
| `RequestQueues.RequestQueue.DrainElevator` | Kernel/block/elevator.c:556-568 | the draining loop ends, with the modelled forced drain done |
| `RequestQueues.RequestQueue.NextRequest` | Kernel/block/blk.h:54-68 | the nested fetch loops end and equal the modelled fetch, whatever the scheduler's answers |
| `RequestQueues.RequestQueue.PeekRequest` | Kernel/block/blk-core.c:1765-1846 | the granted head is marked started and moves `end_sector` and the boundary, as modelled |
| `RequestQueues.RequestQueue.FetchRequest` | Kernel/block/blk-core.c:1919-1927 | peek and start together hand the head to the driver |
| `RequestQueues.RequestQueue.Insert` | Kernel/block/elevator.c:608-648 | front insertion, back insertion behind a full drain, and handing to the scheduler, each as a step of a run |
| `RequestQueues.RequestQueue.AddRequest` | Kernel/block/elevator.c:695-730 | colour, boundary and the forced place of a barrier, then insertion, as modelled |
| `RequestQueues.RequestQueue.RequeuePlace` | Kernel/block/elevator.c:664-677 | the forward walk ends at the modelled place |
| `RequestQueues.RequestQueue.RequeueRequest` | Kernel/block/elevator.c:539-554 | `elv_requeue_request` on the fields: uncounted, unmarked, and back where `OrderedQueue.RequeueIndex` says while a sequence is in progress, at the head otherwise |
| `RequestQueues.RequestQueue.CompletedRequest` | Kernel/block/elevator.c:823-853 | the in-flight count and the drain test equal the modelled step |
| `RequestQueues.RequestQueue.EndRequest` | Kernel/block/blk-barrier.c:113-129 | the driver ends a request: uncounted, the drain test made, and for a proxy its phase completed with its error, as a step of a run |
| `RequestQueues.RequestQueue.Execute` | Kernel/block/elevator.c:598-853 | one step of a run on the fields, whichever it is, equals the modelled step |
| `RequestQueues.RequestQueue.ExecuteAll` | Kernel/block/blk-barrier.c:153-279 | any sequence of calls from a new queue on reaches the state of the modelled run, no BUG_ON or WARN_ON fired, its log showing each sequence ended once and complete, what the driver was handed as submitted, and under drain ordering every barrier respected and the phases in turn |
| `ChainIv.RunExclusive` | Kernel/crypto/chainiv.c:123-262 | over every interleaving, two threads standing at an access to `ctx->iv` are the same thread, and `queue_work` never finds the item queued |
| `ChainIv.RunOwned` | Kernel/crypto/chainiv.c:123-142 | INUSE is set exactly when one thread, or the pending work item, owns it |
| `ChainIv.RunAwake` | Kernel/crypto/chainiv.c:123-233 | over every interleaving: a nonempty queue with INUSE clear has a thread on its way to look at it, if and only if the run is not one that strands it: a step gave up on the RNG with requests in the queue and everybody else finished, and nobody has called since |
| `ChainIv.ApplyAwake` | Kernel/crypto/chainiv.c:208-233 | the one step that can lose a wakeup is giving up after an RNG failure, and it does if and only if requests are in the queue and every other thread has finished |
| `ChainIv.SeedFailureStrands` | Kernel/crypto/chainiv.c:208-233 | a run with an RNG failure that comes to rest with INUSE clear and a request in the queue |
| `ChainIv.RunUnswitched` | Kernel/crypto/chainiv.c:208-233 | until the entry pointer is switched requests wait only behind a seeder, so a caller that finds INUSE clear and requests waiting goes on to look at them |
| `ChainIv.RunConserved` | Kernel/crypto/chainiv.c:144-206 | every call is carried by one thread, queued, encrypted or refused: one of these, once |
| `ChainIv.RunFifo` | Kernel/crypto/algapi.c:802-841 | over every interleaving what was queued is what was dequeued, in order, followed by the queue; and the postponed requests encrypted so far are the first ones queued, in that order |
| `ChainIv.EnqueueExact` | Kernel/crypto/algapi.c:802-821 | below 100 waiting a request is queued with -EINPROGRESS; from there on it gets -EBUSY, and is queued only if it may backlog |
| `ChainIv.RunQuiet` | Kernel/crypto/chainiv.c:276-285 | at rest INUSE is clear, the queue is empty if and only if the run did not strand it, and each request was encrypted once, refused, or is one of the stranded |
| `ChainIv.RunChain` | Kernel/crypto/chainiv.c:161-179 | the encryptions of a run form one chain: the first IV is the seed, each later one the output of the last success before it |
| `ChainIv.RunHonest` | Kernel/crypto/chainiv.c:161-179 | whoever encrypted a request reports that encryption's own error, whatever others wrote to `ctx->err` |
| `ChainIv.StepCloser` | Kernel/crypto/chainiv.c:123-262 | every step other than a new call lowers a lexicographic measure |
| `ChainIv.ComesToRest` | Kernel/crypto/chainiv.c:235-262 | from every owned state the started threads and the worker can run until nothing is left to run |
| `Camellia.DecryptUndoes` | Kernel/crypto/camellia.c:942-994 | for any S-boxes, any key table and any number of groups, decrypting the swapped output gives back the block |
| `Camellia.GroupsUndone` | Kernel/crypto/camellia.c:950-987 | the groups of rounds and FL layers, run backwards on the swapped state, undo themselves |
| `Camellia.FlBits` | Kernel/crypto/camellia.c:854-868 | FL bit by bit: each bit of the product goes one place up and the top one to the bottom |
| `Camellia.BytesOf` | Kernel/crypto/camellia.c:870-884 | a word is its four bytes, the first one on top |
| `CamelliaRekey.EncryptIsTextbook` | Kernel/crypto/camellia.c:886-940 | with a rekeyed table the fast encryption, swapped, is the cipher of section 2.3 of RFC 3713, for all S-boxes, subkeys and blocks |
| `CamelliaRekey.DecryptInvertsTextbook` | Kernel/crypto/camellia.c:942-994 | with the same table the fast decryption inverts that cipher |
| `CamelliaRekey.MixIsF` | Kernel/crypto/camellia.c:870-884 | CAMELLIA_ROUNDSM with a key put through the inverse half-P adds F without its key, and the plain key |
| `CamelliaRekey.TablesAreP` | Kernel/crypto/camellia.c:870-884 | the four word tables of each half, combined and rotated, are P of the eight S-box outputs |
| `CamelliaRekey.LastHalfKey` | Kernel/crypto/camellia.c:561-577 | a key through the inverse half-P comes out of the rest of P as itself |
| `CamelliaRekey.RoundMasked` | Kernel/crypto/camellia.c:870-884 | one fast round on masked halves is one textbook round, with the other half's mask exchanged |
| `CamelliaRekey.FlMask` | Kernel/crypto/camellia.c:854-868 | to leave FL under a mask, enter it under the mask taken back through FL |
| `CamelliaRekey.FlInvMask` | Kernel/crypto/camellia.c:854-868 | FL-inverse is affine, with the same map for its linear part |
| `CamelliaRekey.GroupsMasked` | Kernel/crypto/camellia.c:895-935 | all groups of fast rounds on the masked state are the textbook groups, masked |
| `CamelliaKeys.AbsorbKw2` | Kernel/crypto/camellia.c:387-429 | every even round key and kw3 have absorbed kw2 as seen through the FL-inverse keys before them; nothing else changed |
| `CamelliaKeys.AbsorbKw4` | Kernel/crypto/camellia.c:416-468 | every odd round key and kw1 have absorbed kw4 as seen back through the FL keys behind it |
| `CamelliaKeys.Emit` | Kernel/crypto/camellia.c:470-559 | the word table holds, per round, the change of mask from the round before to the round behind |
| `CamelliaKeys.InverseHalfP` | Kernel/crypto/camellia.c:561-577 | exactly the round entries go through the inverse half-P |
| `CamelliaKeys.PhasesRekey` | Kernel/crypto/camellia.c:381-578 | the phases together give a rekeyed table |
| `CamelliaKeys.SetupTail` | Kernel/crypto/camellia.c:381-578 | whatever the subkeys, for 18 and 24 rounds the finished table is rekeyed from them |
| `CamelliaCode.Roundsm` | Kernel/crypto/camellia.c:870-884 | the macro on the word array equals the modelled round |
| `CamelliaCode.Fls` | Kernel/crypto/camellia.c:854-868 | the macro on the word array is FL on the first half and FL-inverse on the second |
| `CamelliaCode.DoEncrypt` | Kernel/crypto/camellia.c:886-940 | the array version equals the modelled encryption for both round counts |
| `CamelliaCode.DoDecrypt` | Kernel/crypto/camellia.c:942-994 | the array version equals the modelled decryption for both round counts |
| `CamelliaCode.EncryptBlock` | Kernel/crypto/camellia.c:1033-1055 | with the table of `SetupTail` the output is the textbook ciphertext |
| `CamelliaCode.DecryptBlock` | Kernel/crypto/camellia.c:1057-1080 | on a textbook ciphertext the output is the message |
| `Segments.MapFits` | Kernel/block/blk-merge.c:118-171 | after every history the scatterlist has at most `nr_phys_segments` entries |
| `Segments.HistoryGood` | Kernel/block/blk-merge.c:203-312 | every history of bio merges, request merges, refusals, recounts and partial completions leaves a request whose count is the length of a legal segmentation, its ends within the cached end sizes |
| `Segments.GreedyShortest` | Kernel/block/blk-merge.c:118-171 | no legal segmentation of the vectors is shorter than the greedy walk |
| `Segments.MapIsSegmentation` | Kernel/block/blk-merge.c:118-171 | the entries of the walk are legal segments holding the vectors in order |
| `Segments.ScanIsSegmentation` | Kernel/block/blk-merge.c:12-70 | what the counting walk counts is a legal segmentation, with its first and last sizes known |
| `Segments.RecalcGood` | Kernel/block/blk-merge.c:72-86 | a recount leaves a witnessed count, whatever the request was |
| `Segments.BackMergeGood` | Kernel/block/blk-merge.c:225-247 | a back merge, taken or refused, keeps the count witnessed |
| `Segments.FrontMergeGood` | Kernel/block/blk-merge.c:249-272 | a front merge likewise |
| `Segments.SeamCloses` | Kernel/block/blk-merge.c:88-112 | the last segment of one request and the first of the next can be joined when the contiguity test says so: one segment fewer, within the cached sizes |
| `Segments.MergeGood` | Kernel/block/blk-merge.c:274-312 | a request merge with its minus one keeps the count witnessed, and so does the second request when the merge is refused |
| `Scatter.TransferRight` | Kernel/block/blk-merge.c:118-171 | after every history, byte k of the scatterlist is the memory byte that some submitted bio paired with byte k of the request on the disk |
| `Scatter.HistoryLaid` | Kernel/block/blk-core.c:1181-1233 | after every history each bio holds only bytes some submitted bio asked for at that place, and starts on the disk where the one before it ends |
| `Scatter.BackMergeHolds` | Kernel/block/blk-core.c:1182-1204 | a back merge puts the bio's vectors behind the request's, and adds its segments, exactly when sectors and both segment limits allow |
| `Scatter.FrontMergeHolds` | Kernel/block/blk-core.c:1206-1236 | a front merge puts them in front, under the same limits |
| `Scatter.MergeHolds` | Kernel/block/blk-merge.c:274-312 | two requests merge into their vectors in order, one segment fewer if they share one, under the same limits; a refusal changes no vector and no count |
| `Scatter.CutBytes` | Kernel/block/blk-core.c:1981-2054 | completing n bytes takes exactly the first n bytes off the request |
| `Scatter.ContigPhysical` | Kernel/include/linux/bio.h:263-278 | the kernel's test for joining two vectors holds of adjacent ones only, and still holds when the first is cut from its front |
| `Scatter.RecalcLeast` | Kernel/block/blk-merge.c:12-70 | a recount is within a limit if and only if some segmentation that keeps bounced vectors apart is |
| `Scatter.RecalcSizes` | Kernel/block/blk-merge.c:50-67 | it raises the cached end sizes to its first and last segment, no further |
| `Scatter.MergesWithin` | Kernel/block/blk-merge.c:203-312 | each kind of merge leaves a request within both segment limits within them |
| `Scatter.RecountsNoMore` | Kernel/block/blk-merge.c:72-86 | where no page is bounced a recount, even after a partial completion, never raises the count |
| `Scatter.StaysWithin` | Kernel/block/blk-merge.c:203-312 | where no page is bounced, requests that begin within both limits stay within them over every history |
| `Scatter.BounceExceeds` | Kernel/block/blk-merge.c:36-48 | where pages are bounced they need not: two adjacent pages merge into one segment, the limit, and a recount finds two |
| `MergeCode.RecalcSegments` | Kernel/block/blk-merge.c:12-70 | the nested walk over bios and vectors, with its running front size in the first bio, equals the modelled recount and changes no size |
| `MergeCode.RecountSegments` | Kernel/block/blk-merge.c:77-86 | recounting a single bio equals the modelled one |
| `MergeCode.RequestNode.Recalculate` | Kernel/block/blk-merge.c:72-75 | the request's count and end sizes are the modelled recount |
| `MergeCode.RequestNode.MapScatterlist` | Kernel/block/blk-merge.c:118-171 | one entry per segment of the walk, at that segment's first address and of its length |
| `MergeCode.RequestNode.NewSegments` | Kernel/block/blk-merge.c:203-223 | the count grows by the bio's segments exactly when both limits allow it |
| `MergeCode.RequestNode.MergeBack` | Kernel/block/blk-merge.c:225-247 | back merge and append on the chain: the step of `Scatter.BackMergeHolds`, `__data_len` staying the sum of sizes |
| `MergeCode.RequestNode.MergeFront` | Kernel/block/blk-merge.c:249-272 | front merge and prepend on the chain: the step of `Scatter.FrontMergeHolds` |
| `MergeCode.RequestNode.Widen` | Kernel/block/blk-merge.c:294-301 | the end sizes of both requests are widened exactly when they meet |
| `MergeCode.RequestNode.MergeNext` | Kernel/block/blk-merge.c:274-312 | the merge is taken exactly when modelled; both requests are as modelled afterwards |
| `Spawns.WalkEnds` | Kernel/crypto/algapi.c:84-178 | when the walk is over, the spawns it collected belong to exactly the instances reachable through `cra_users`, the removed algorithm is not among them, and each of them has lost its users |
| `Spawns.PushWalks` | Kernel/crypto/algapi.c:131-178 | taking a spawn off the current list onto the stack keeps the walk's invariant |
| `Spawns.PopWalks` | Kernel/crypto/algapi.c:84-105 | going back up by `crypto_more_spawns` keeps it |
| `Spawns.PushShrinks` | Kernel/crypto/algapi.c:131-178 | each push leaves fewer spawns unseen, so the walk ends |
| `Spawns.Registry.RemoveSpawn` | Kernel/crypto/algapi.c:107-129 | the instance is dead afterwards, and goes to the removal list exactly when it was live, hashed and its template's reference was obtained |
| `Spawns.Registry.RemoveSecondary` | Kernel/crypto/algapi.c:172-177 | all instances of the collected spawns die; each eligible one goes to the list once |
| `Spawns.Registry.RemoveSpawns` | Kernel/crypto/algapi.c:131-178 | with no replacement: the BUG_ON fires if and only if the algorithm reaches itself; otherwise exactly the reachable instances are dead and have no users, nothing else changed, and each eligible one is on the list once |
| `Spawns.Registry.RemoveAlg` | Kernel/crypto/algapi.c:373-385 | an algorithm that is not registered changes nothing; otherwise it leaves the registry and everything built on it is removed |
| `Deadline.ReadsBounded` | Kernel/block/deadline-iosched.c:245-327 | from any state, while every dispatch picks a read with a write waiting, there are at most `(writes_starved + 1) * max(1, fifo_batch)` dispatches, whatever happens in between |
| `Deadline.WaitCosts` | Kernel/block/deadline-iosched.c:245-327 | each such dispatch uses up one unit of a potential that nothing else changes |
| `Deadline.RunOk` | Kernel/block/deadline-iosched.c:76-239 | in every reachable state the sort list and FIFO of a direction hold the same requests, in sector order and in expiry order; at most one `next_rq` is set, and it is queued |
| `Deadline.HeadTells` | Kernel/block/deadline-iosched.c:228-239 | in every reachable state the FIFO head has expired if and only if some queued request of that direction has |
| `Deadline.PickQueued` | Kernel/block/deadline-iosched.c:245-327 | a dispatch picks nothing if and only if both FIFOs are empty; otherwise a queued request, which goes to the dispatch queue |
| `Deadline.AddOk` | Kernel/block/deadline-iosched.c:76-113 | adding a request, its alias moved aside first, keeps both indexes in step |
| `Deadline.FrontMergeOk` | Kernel/block/deadline-iosched.c:156-168 | repositioning after a front merge keeps them in step, the FIFO unmoved |
| `Deadline.MoveBehindReplaces` | Kernel/block/deadline-iosched.c:170-189 | moving the absorbing request behind the absorbed one, which is then removed, puts it in that one's place |
| `Deadline.MergeRequestsOk` | Kernel/block/deadline-iosched.c:170-189 | a request merge keeps the FIFO in expiry order, the earlier deadline inherited |
| `Deadline.DispatchOk` | Kernel/block/deadline-iosched.c:206-222 | a dispatch keeps the invariant, `next_rq` set for one direction only |
| `DeadlineRuns.PickExact` | Kernel/block/deadline-iosched.c:245-327 | in every reachable state: a batch goes on with the request lined up if it has had fewer than `fifo_batch`; otherwise, with both directions waiting, a write is picked if and only if at least `writes_starved` batches, counted from the run, began with a read past a waiting write since one began with a write; a new batch begins with the request that expires first if any has expired or none is lined up |
| `DeadlineRuns.CountersTell` | Kernel/block/deadline-iosched.c:259-327 | `batching` and `starved` are these counts |
| `DeadlineRuns.DispatchLinesUp` | Kernel/block/deadline-iosched.c:194-222 | a dispatch lines up the queued request next above the one it took, or none if there is none, and nothing in the other direction |
| `DeadlineRuns.MergeLinesUp` | Kernel/block/deadline-iosched.c:86-94 | a request merge leaves the request lined up alone unless that was absorbed; then the queued request next above it is lined up |
| `DeadlineRuns.AddExpires` | Kernel/block/deadline-iosched.c:100-113 | a new request expires its direction's time from now and is last in the FIFO |
| `DeadlineRuns.MergeInherits` | Kernel/block/deadline-iosched.c:170-189 | the absorbing request has the earlier of the two deadlines |
| `DeadlineRuns.RunOnce` | Kernel/block/deadline-iosched.c:76-222 | in every reachable state each request ever added is in exactly one place: queued in one direction, dispatched, or absorbed |
| `DeadlineCode.DeadlineData.RemoveRequest` | Kernel/block/deadline-iosched.c:86-124 | off both lists, `next_rq` on to the latter request if it was the one |
| `DeadlineCode.DeadlineData.MoveRequest` | Kernel/block/deadline-iosched.c:194-222 | `next_rq` of this direction becomes the latter request, that of the other is cleared, and the request goes to the dispatch queue: the step of `Deadline.MoveOk` |
| `DeadlineCode.DeadlineData.RbAdd` | Kernel/block/elevator.c:360-381 | hands back the request already at that sector, or inserts in sector order |
| `DeadlineCode.DeadlineData.AddRqRb` | Kernel/block/deadline-iosched.c:76-84 | the retry loop ends after one alias at most and equals the modelled insertion |
| `DeadlineCode.DeadlineData.AddRequest` | Kernel/block/deadline-iosched.c:100-113 | sorted insertion, expiry and FIFO tail: the step of `Deadline.AddOk` |
| `DeadlineCode.DeadlineData.FrontMerged` | Kernel/block/deadline-iosched.c:156-168 | the request leaves the sort list and is put back at its new start, an alias moved aside: the step of `Deadline.FrontMergeOk` |
| `DeadlineCode.DeadlineData.MergedRequests` | Kernel/block/deadline-iosched.c:170-189 | deadline and FIFO place are inherited when earlier, and the absorbed request is gone from both lists: the step of `Deadline.MergeRequestsOk` |
| `DeadlineCode.DeadlineData.FindRequest` | Kernel/block/deadline-iosched.c:298-315 | what starts a batch is queued; it is the request that expires first if any has expired or the last batch is at its end, and the request the last batch would go on with otherwise |
| `DeadlineCode.DeadlineData.DispatchRequests` | Kernel/block/deadline-iosched.c:245-327 | all branches equal the dispatch `DeadlineRuns.PickExact` is about; the BUG_ONs on an empty tree hold; the result counts the pick |
| `AsSched.RunGood` | Kernel/block/as-iosched.c:973-1017 | over every run of adds, dispatches and request merges in which each dispatch passes the neighbour test, `next_rq` is the best request of the whole list |
| `AsSched.RunBest` | Kernel/block/as-iosched.c:789-794 | from an empty queue on, `next_rq` is the one request no other is preferred to, and nothing when there is none |
| `AsSched.NeighboursExact` | Kernel/block/as-iosched.c:368-391 | looking at the neighbours of the request that leaves finds the best of the rest if and only if the neighbour test on the list passes |
| `AsSched.NeighboursSuffice` | Kernel/block/as-iosched.c:368-391 | in particular when no request starts between it and the head |
| `AsSched.InsideMisleads` | Kernel/block/as-iosched.c:368-391 | a list on which the neighbour search misses the best request |
| `AsSched.BeatsTotal` | Kernel/block/as-iosched.c:293-361 | `as_choose_req` does not depend on the order of its arguments and prefers exactly one of two distinct positions |
| `AsSched.BeatsTransitive` | Kernel/block/as-iosched.c:293-361 | that preference is transitive |
| `AsSched.PreferenceIs` | Kernel/block/as-iosched.c:293-361 | the preference in numbers: ahead of the head the lower sector; behind it, within 1048576 sectors, the distance counts twice; beyond that it loses to all within reach, the lowest first |
| `AsSched.DispatchGood` | Kernel/block/as-iosched.c:973-1017 | after a dispatch `next_rq` is the best request if and only if the neighbour test passes |
| `AsSched.DropGood` | Kernel/block/as-iosched.c:1282-1303 | losing a request to a request merge keeps `next_rq` best, wherever the head is |
| `AsSched.AddGood` | Kernel/block/as-iosched.c:789-794 | comparing a new request with the cached one keeps `next_rq` best |
| `AsSched.AsData.RemoveQueued` | Kernel/block/as-iosched.c:898-922 | the request leaves the list, `next_rq` searched among its neighbours only if it was the one: the step of `AsSched.DropGood` |
| `AsSched.AsData.MoveToDispatch` | Kernel/block/as-iosched.c:973-1017 | the head moves to the end of the request, the neighbours are searched, and the request leaves: the step of `AsSched.DispatchGood` |
| `AsSched.AsData.RbAdd` | Kernel/block/elevator.c:360-381 | finds the request in the way, or inserts in sector order |
| `AsSched.AsData.AddRequest` | Kernel/block/as-iosched.c:263-271 | the alias loop ends after one dispatch at most; with the update it is the step of `AsSched.AddGood` |
| `Cfq.RunOk` | Kernel/block/cfq-iosched.c:654-741 | in every reachable state, states with the cache just filled included, a queue is on the rr list, in the tree, nonempty and has a `next_rq`, all or none; `busy_queues`, `rq_queued`, `queued[]` and `sync_flight` are what they count; the cached node is empty or the first; FIFO and sort list hold the same requests |
| `Cfq.DescendInserts` | Kernel/block/cfq-iosched.c:534-572 | whatever the tree's shape and however its nodes compare, the descent inserts at some place of the in-order sequence, and the `left` flag is set if and only if that is the first; `Cfq.ServiceAddOk` rests on it |
| `Cfq.ServiceAddOk` | Kernel/block/cfq-iosched.c:492-572 | re-keying a queue by that descent, for any balancing of the tree, keeps the tree, its count and the cached first node right |
| `Cfq.AddRrOk` | Kernel/block/cfq-iosched.c:654-662 | joining the rr list keeps them right and touches nothing else |
| `Cfq.DelRrOk` | Kernel/block/cfq-iosched.c:668-683 | leaving it likewise |
| `Cfq.ResortOk` | Kernel/block/cfq-iosched.c:639-648 | re-sorting keeps everything |
| `Cfq.FirstIsFirst` | Kernel/block/cfq-iosched.c:426-435 | the cached and the walked first node agree |
| `Cfq.LookOk` | Kernel/block/cfq-iosched.c:426-435 | filling the cache keeps everything |
| `Cfq.FindNextHas` | Kernel/block/cfq-iosched.c:453-475 | a next request is found if and only if there is another one, and it is one of the others |
| `Cfq.RemoveOk` | Kernel/block/cfq-iosched.c:786-801 | removing a request keeps the invariant, `next_rq` recomputed if it was the one |
| `Cfq.DispatchOk` | Kernel/block/cfq-iosched.c:1128-1142 | dispatching a request keeps it, with one request fewer in that queue and all other queues unchanged |
| `Cfq.InsertOk` | Kernel/block/cfq-iosched.c:2160-2174 | inserting a request, its alias dispatched first, keeps it |
| `Cfq.RepositionOk` | Kernel/block/cfq-iosched.c:736-741 | repositioning after a front merge keeps it |
| `Cfq.CompleteOk` | Kernel/block/cfq-iosched.c:2201-2219 | completion keeps the in-flight counters right |
| `CfqRuns.RunFifo` | Kernel/block/cfq-iosched.c:2160-2174 | in every reachable state each queue's FIFO is in the order its requests last arrived |
| `CfqRuns.InsertGives` | Kernel/block/cfq-iosched.c:2160-2174 | an insertion adds the request, at the tail of the FIFO, and takes exactly the one queued at its sector, which counts as dispatched; other queues are untouched |
| `CfqRuns.InsertedNext` | Kernel/block/cfq-iosched.c:720-733 | with nothing in the way, whoever was next stays next if preferred to the newcomer, otherwise the newcomer is |
| `CfqRuns.RemoveTakes` | Kernel/block/cfq-iosched.c:786-801 | a removal takes that request, and no other, from both lists; a neighbour becomes next if it was the one |
| `CfqRuns.DispatchTakes` | Kernel/block/cfq-iosched.c:1128-1142 | a dispatch takes that request, and no other, counts it, and makes a neighbour next |
| `CfqRuns.RepositionKeeps` | Kernel/block/cfq-iosched.c:736-741 | a front merge keeps the request's place in the FIFO, and takes only the one in its way |
| `CfqRuns.FindNextNear` | Kernel/block/cfq-iosched.c:453-475 | the next request is a neighbour on the disk, the preferred one where there are two, or the lowest one after the highest |
| `CfqCode.CfqData.RbFirst` | Kernel/block/cfq-iosched.c:426-435 | returns the first node in order and fills the cache |
| `CfqCode.CfqData.RbErase` | Kernel/block/cfq-iosched.c:443-448 | the node leaves the tree and, if it was cached, the cache is emptied: the step that keeps the cached node right in `Cfq.RunOk` |
| `CfqCode.CfqData.ServiceTreeAdd` | Kernel/block/cfq-iosched.c:492-572 | a queue whose key changed leaves its place and is linked in where the descent ends, cached if it never turned right: the step of `Cfq.ServiceAddOk` |
| `CfqCode.FindPlace` | Kernel/block/cfq-iosched.c:534-566 | the descending loop ends with what comes before the new node and what behind, and its `left` flag says whether it never turned right |
| `CfqCode.CfqData.AddCfqqRr` | Kernel/block/cfq-iosched.c:654-662 | flag, count and tree change together, as `Cfq.AddRrOk` needs; its BUG_ON holds |
| `CfqCode.CfqData.DelCfqqRr` | Kernel/block/cfq-iosched.c:668-683 | flag, count and tree change together, as `Cfq.DelRrOk` needs; its BUG_ONs hold |
| `CfqCode.CfqData.DelRqRb` | Kernel/block/cfq-iosched.c:688-701 | the request leaves count and sort list, and its queue the rr list if it was the last; its BUG_ON on `queued[]` holds while `queued[]` covers the sort list |
| `CfqCode.CfqData.RemoveRequest` | Kernel/block/cfq-iosched.c:786-801 | `next_rq`, FIFO, sort list, `queued[]`, `rq_queued` and, for the last request, the rr list change in turn, and together as `Cfq.RemoveOk` needs |
| `CfqCode.CfqData.Dispatch` | Kernel/block/cfq-iosched.c:1128-1142 | `next_rq` is recomputed before the request leaves, and the in-flight counters move, as `Cfq.DispatchOk` needs |
| `CfqCode.CfqData.RbAdd` | Kernel/block/elevator.c:360-381 | finds the request in the way, or inserts in sector order |
| `CfqCode.CfqData.AddRq` | Kernel/block/cfq-iosched.c:703-734 | the alias loop ends after one round at most and equals the modelled addition; its BUG_ON holds |
| `CfqCode.CfqData.ForcedDispatchQueue` | Kernel/block/cfq-iosched.c:1231-1242 | the loop ends with the queue empty, having dispatched as many requests as it held; its BUG_ON holds |
| `CfqCode.CfqData.ForcedDispatch` | Kernel/block/cfq-iosched.c:1248-1262 | the loop ends with every queue and the tree empty, having dispatched `rq_queued` requests; its BUG_ON holds |
| `Completion.AdvanceData` | Kernel/block/blk-core.c:1952-2082 | completing n bytes leaves well-formed bios holding exactly the data behind the first n bytes |
| `Completion.AdvanceTwice` | Kernel/block/blk-core.c:1952-2082 | completing a bytes and then b leaves and ends what completing a + b does |
| `Completion.RunFate` | Kernel/block/blk-core.c:1952-2082 | over every series of calls, bios end in order, each once, exactly those whose bytes have all been reported, with an error iff one of their bytes was reported in error |
| `Completion.UpdateTwice` | Kernel/block/blk-core.c:2056-2067 | completing a bytes and then b leaves the request completing a + b would, except for its sector, which falls one behind if and only if the two remainders of a sector carry |
| `Completion.HistoryGood` | Kernel/block/blk-core.c:1191-1217 | every history of front, back and request merges and partial completions keeps `__data_len` the sum of bio sizes, and a mixed request's failfast flags within its first bio's |
| `Completion.UpdateGood` | Kernel/block/blk-core.c:2056-2067 | a partial completion keeps that, and lowers `__data_len` by exactly the bytes completed |
| `Completion.SetMixedGood` | Kernel/block/blk-merge.c:323-342 | distributing the flags keeps that |
| `Completion.WarnsExactly` | Kernel/block/blk-merge.c:335-337 | after any history the WARN_ON_ONCE fires if and only if the unmixed request has every failfast bit and holds a read-ahead bio with some but not all of them |
| `Completion.ReadAheadWarns` | Kernel/block/blk-merge.c:335-337 | such a bio, and the back merge that marks the request mixed with the warning |
| `Completion.JoinGood` | Kernel/block/blk-merge.c:398-403 | a request merge keeps that |
| `Completion.ErrBytesProgress` | Kernel/block/blk-core.c:1682-1707 | after every history `blk_rq_err_bytes` is at least the first bio's size, and at most the request |
| `Completion.EagerPrefix` | Kernel/block/blk-core.c:1691-1702 | it is the total of the leading bios at least as eager to fail as the request |
| `Completion.FailToBoundary` | Kernel/block/blk-core.c:1682-1707 | failing up to the boundary again and again ends with nothing left |
| `CompletionRuns.HistoryPlaced` | Kernel/block/blk-core.c:1228-1233 | over every history of whole-sector bios and completions, the request's sector is that of the first byte it has left, and its bios adjoin on the disk |
| `CompletionRuns.FrontPlaced` | Kernel/block/blk-core.c:1228-1233 | a front merge moves the request's sector to the bio's |
| `CompletionRuns.HistoryOwned` | Kernel/block/blk-merge.c:323-342 | after every history each bio has the failfast flags it was submitted with, or is read-ahead and has all of them |
| `CompletionCode.RequestNode.EndIo` | Kernel/block/blk-core.c:133-170 | size, sector and error flag of the bio move on; it is ended exactly at size zero, an earlier error counting |
| `CompletionCode.RequestNode.CountVectors` | Kernel/block/blk-core.c:1991-2018 | how many whole vectors the bytes fill, and what is left inside the next |
| `CompletionCode.RequestNode.EndPart` | Kernel/block/blk-core.c:2046-2054 | the branch that stops inside a bio keeps exactly the bytes behind |
| `CompletionCode.RequestNode.EndBytes` | Kernel/block/blk-core.c:1981-2054 | the loop over bios and vectors equals the modelled completion, the bios it ends included |
| `CompletionCode.RequestNode.UpdateRequest` | Kernel/block/blk-core.c:1952-2082 | the whole function equals the modelled update and says whether anything is left |
| `CompletionCode.RequestNode.ErrorBytes` | Kernel/block/blk-core.c:1682-1707 | the loop equals the modelled count; its BUG_ON holds |
| `CompletionCode.RequestNode.SetMixedMerge` | Kernel/block/blk-merge.c:323-342 | the loop over bios equals the modelled distribution of flags, and warns exactly when modelled |
| `Cbc.RoundTrip` | Kernel/crypto/cbc.c:42-191 | decryption undoes encryption, for any keyed permutation and whole-block message |
| `Cbc.EncryptPieces` | Kernel/crypto/cbc.c:90-112 | encrypting in two pieces with the chaining value carried over is encrypting at once |
| `Cbc.DecryptPieces` | Kernel/crypto/cbc.c:169-191 | decrypting in two pieces likewise |
| `Cbc.EncryptBlockIs` | Kernel/crypto/cbc.c:42-64 | each ciphertext block is the cipher of its plaintext block xored with the ciphertext block before, or the IV |
| `Cbc.DecryptBlockIs` | Kernel/crypto/cbc.c:114-138 | each plaintext block is its ciphertext block deciphered, xored with the one before, or the IV |
| `CbcCode.CryptoXor` | Kernel/crypto/algapi.c:891-906 | words first, then odd bytes: the region is xored and nothing else changes |
| `CbcCode.EncryptSegment` | Kernel/crypto/cbc.c:42-64 | the out-of-place loop writes the CBC encryption of all whole blocks, leaves the rest of the buffer and the chaining value in `iv` |
| `CbcCode.EncryptInplace` | Kernel/crypto/cbc.c:66-88 | the in-place loop likewise |
| `CbcCode.DecryptSegment` | Kernel/crypto/cbc.c:114-138 | the out-of-place loop writes the CBC decryption |
| `CbcCode.DecryptInplace` | Kernel/crypto/cbc.c:140-167 | the backward in-place loop likewise, for a power-of-two block size; what the mask leaves over is left undone, and the last ciphertext block is saved for `iv` |
| `CbcCode.MaskIsOdd` | Kernel/crypto/cbc.c:150-151 | for a power-of-two block size the mask leaves exactly what is over the whole blocks |
| `CbcCode.EncryptMessage` | Kernel/crypto/cbc.c:90-112 | any cutting into pieces of at least a block, in place or not, gives the encryption of the whole message |
| `CbcCode.DecryptMessage` | Kernel/crypto/cbc.c:169-191 | likewise for decryption |
| `Tags.RunOk` | Kernel/block/blk-tag.c:281-386 | after a run a tag bit is set iff the index holds the one in-flight request with that tag, the busy list holds exactly these, and nothing was written past an array: if and only if every resize of the run fitted |
| `Tags.RunInvalidate` | Kernel/block/blk-tag.c:398-404 | after any run whose resizes fitted, invalidation frees every tag and puts the requests at the head of the queue in the order they got their tags |
| `Tags.InvalidateOrder` | Kernel/block/blk-core.c:947-959 | requeueing along the busy list frees every tag and reverses the list at the queue's head |
| `Tags.ResizeExact` | Kernel/block/blk-tag.c:219-264 | a resize copies within the new arrays and keeps tags and index in agreement if and only if no more than the old depth is asked for or that is at most twice `nr_requests`; and how large the arrays become |
| `Tags.ResizeLoses` | Kernel/block/blk-tag.c:219-264 | of the resizes that do not fit, those that lose a tag: exactly when a tag in use lies past the end of the new arrays |
| `Tags.ResizeOk` | Kernel/block/blk-tag.c:219-264 | when the old arrays fit into the new ones every request keeps its tag and its place in the index |
| `Tags.ClampLoses` | Kernel/block/blk-tag.c:106-117 | a run of three starts after which asking for more tags loses one in use and copies past the new arrays, because of the clamp |
| `Tags.StartTagOk` | Kernel/block/blk-tag.c:336-386 | starting a request, or refusing it, keeps bits, index and busy list in agreement |
| `Tags.EndTagOk` | Kernel/block/blk-tag.c:281-315 | ending one frees exactly its tag |
| `Tags.FirstZeroIs` | Kernel/block/blk-tag.c:366-372 | the tag found is the lowest free one below the limit, or there is none |
| `Tags.RefusesExactly` | Kernel/block/blk-tag.c:357-372 | a synchronous request is refused if and only if every tag is taken; an asynchronous one if and only if all but the last two are, or more than that many are in flight |
| `Tags.RunReserved` | Kernel/block/blk-tag.c:357-372 | at a fixed depth, over every run, asynchronous requests hold only tags below their share, which above a depth of two leaves out the last two |
| `Tags.SyncServed` | Kernel/block/blk-tag.c:357-372 | so while no synchronous request holds a tag, the next one gets one |
| `TagsCode.TagMap.StartTag` | Kernel/block/blk-tag.c:336-386 | the lowest free tag below the limit is taken, in bitmap, index, request and busy list together; refused exactly when there is none or too many asynchronous requests are in flight |
| `TagsCode.TagMap.EndTag` | Kernel/block/blk-tag.c:281-315 | bit, index entry, tag and busy list give up the request together: the step of `Tags.EndTagOk` |
| `TagsCode.TagMap.RequeueRequest` | Kernel/block/blk-core.c:947-959 | the tag is given back and the request is at the head of the queue |
| `TagsCode.TagMap.ResizeTags` | Kernel/block/blk-tag.c:219-264 | the copying loops equal the modelled resize; they stay within the new arrays, and the tags agree, if and only if the old arrays fit |
| `TagsCode.TagMap.InvalidateTags` | Kernel/block/blk-tag.c:398-404 | the loop over a changing busy list equals the modelled invalidation |
| `MergeHash.RunFind` | Kernel/block/elevator.c:334-354 | after any history the hash finds a request ending at a sector if and only if the scheduler holds a mergeable one |
| `MergeHash.FindExact` | Kernel/block/elevator.c:334-354 | in every consistent state likewise, and what is found is mergeable and ends there |
| `MergeHash.RunOk` | Kernel/block/elevator.c:309-332 | after any history everything hashed is held and in the bucket of its current end, and everything held and mergeable is hashed |
| `MergeHash.RehashOk` | Kernel/block/elevator.c:511-522 | moving a request's end and rehashing keeps that |
| `MergeHash.FrontMergeOk` | Kernel/block/elevator.c:511-522 | a front merge moves the start and the length of a request and not its end, so without a rehash it keeps that |
| `MergeHash.MergeTwoOk` | Kernel/block/elevator.c:524-537 | a request merge, perhaps right after the back merge that closed the gap, keeps that, and the request ends where the absorbed one did |
| `MergeHash.InsertOk` | Kernel/block/elevator.c:632-640 | insertion keeps that |
| `MergeHash.DispatchOk` | Kernel/block/elevator.c:461-474 | dispatch keeps that |
| `MergeHash.AfterFindOk` | Kernel/block/elevator.c:334-354 | the lookup, which drops what can no longer be merged, keeps that |
| `MergeHash.Elevator.RqhashAdd` | Kernel/block/elevator.c:320-326 | a request that is on no bucket is found by the next lookup at its end if it is mergeable, and lookups in other buckets give what they gave |
| `MergeHash.Elevator.RqhashDel` | Kernel/block/elevator.c:309-318 | the request is on no bucket any more, and every other stays where it was |
| `MergeHash.Elevator.RqhashReposition` | Kernel/block/elevator.c:328-332 | the request is found by the next lookup at its current end, wherever it was hashed before |
| `MergeHash.Elevator.RqhashFind` | Kernel/block/elevator.c:334-354 | the walk drops what can no longer be merged up to the first request ending at the sector, and returns that one: the lookup of `MergeHash.FindExact` |
| `ThinkTime.UpdatesBounded` | Kernel/block/cfq-iosched.c:1943-1952 | after any updates with samples up to a bound the weight is within 32 and 249, so the division is defined, and 249 times the total is at most 256 times the bound times the weight |
| `ThinkTime.TotalBounded` | Kernel/block/cfq-iosched.c:1943-1952 | so the total is at most the bound times the weight plus 7 |
| `ThinkTime.MeanBounded` | Kernel/block/as-iosched.c:498-511 | and the mean is at most 256/249 of the bound, plus 4 |
| `ThinkTime.UpdatesAtLeast` | Kernel/block/cfq-iosched.c:1943-1952 | with samples of at least a bound, total and mean do not fall short of it |

## Left out

- Sysfs, ioctl and proc code, disk registration, plugging, tracing, statistics, module references, and allocation failure: plumbing around the modelled logic.
- RunBarriersHold: drain ordering only; a tag-ordered queue leaves the order to the device, and for it the project proves `RunEndsOnce`, `PhaseNeverBack` and `RunCalm`.
- `REQ_FUA` on the barrier proxy: the method carries the bit, the model's request does not.
- Barrier runs have no front-inserted fs request and no non-fs request with REQ_HARDBARRIER, the two cases the source rules out in a comment, and the driver ends the barrier proxy in one piece.
- `prep_rq_fn`, `elv_abort_queue`, `elv_quiesce_start` and switching the elevator: not steps of a run.
- Scheduler decisions inside a barrier run are parameters of each step; the schedulers are modelled on their own.
- AddRequest of `RequestQueues.RequestQueue`: does not model the queue's unplugging and the merge hash, the latter being in `MergeHash`.
- The synchronous `chainiv_*` functions: one lock, an easy case of the asynchronous protocol.
- Camellia's S-box contents, the rotations that derive the subkeys from the key, and byte order: the theorems hold for any tables and subkeys, and blocks are words.
- Blowfish, CAST, ARC4, Anubis and the AES tables: round trips that would only add easier members.
- DMA drain and padding in `blk_rq_map_sg`, the bouncing of high pages itself, and bios without data in merges: not in `Segments`; joinability of two vectors is an arbitrary relation there, and in `Scatter` any one like the kernel's.
- Places on the disk are in bytes in `Segments` and `Completion`; where the source compares sectors, bios are of whole sectors.
- A replacement algorithm in `crypto_remove_spawns`, and `crypto_remove_final`: not modelled.
- The checks of `attempt_merge` and `ll_merge_requests_fn` before sizes are looked at (direction, disk, `special`): a merge that fails them changes nothing.
- Deadline's `last_sector` hint and forced dispatch to other queues: not read by anything modelled.
- Anticipation itself (`as_can_break_anticipation` and its timers), batches, and front merges, after which the source does not adjust `next_rq`.
- CFQ's slices, idling, priority trees, cooperators and the order of keys in the service tree: how the nodes met compare, and how the tree is balanced, are parameters.
- The seek part of `cfq_choose_req`: `Cfq` holds for any preference between two requests.
- EndRequest of `RequestQueues.RequestQueue`: completes a request as a whole; partial completion is in `Completion`, for requests that are neither barriers nor discards.
- RunFate: reads errors as a flag per call; the numeric error code a bio is given is not modelled.
- UpdateRequest: does not model byte counts beyond 32 bits, nor quiet and short-request messages.
- Scatterwalk page mapping in CBC: the walk is any function that gives pieces of at least one block.
- Tag maps shared between queues, and the failure returns of `blk_queue_resize_tags`: not modelled; what a copy past the end of an array overwrites is not modelled either, only that it happens.
- RunInvalidate: for runs whose resizes fitted, because after a copy past an array nothing is known; `RunOk` has the exact condition.
- The `last_merge` shortcut of `elv_merge`, and `rq_mergeable`'s individual flags: a request is mergeable or not.
- Wrap-around of jiffies and the seek-distance statistics beside the think time.
