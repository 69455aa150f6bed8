# Verified models of the Linux block layer

This project models the parts of `kernel/block` that decide when and in which
order I/O happens, and proves what they are meant to guarantee over every run:

- **I/O throttling** (`blk-throttle.c`): token accounting in slices, the advised
  waits, the service tree and the dispatch loops. What a group lets through stays
  within its limits plus one slice, in every reachable state of the limiter; every
  advised wait leads to admission in a fixed number of retries and by an explicit
  time; and whatever is offered whenever, every bio leaves in the order it came once
  the work function is left to run when it asks to.
- **Flush sequencing** (`blk-flush.c`): the PREFLUSH / DATA / POSTFLUSH machine
  with double-buffered pending lists. Ordering, single completion, failure only
  after an error and freedom from stalls hold over all interleavings of insertions
  and completions, and a driver that completes what it takes sees every request end.
- **Segments, merging and partial completion** (`blk-merge.c`, `blk-core.c`):
  greedy clustering is minimal, the segment count kept through merges always
  bounds the scatterlist, a partial completion removes exactly a prefix of the
  bytes, and several partial completions compose.
- **The deadline scheduler** (`deadline-iosched.c`): both indexes of a direction
  agree after every operation, the data of an expired request is dispatched within
  an explicit number of calls through any merges, and the setting for which reads
  can starve.
- **CFQ** (`cfq-iosched.c`): exactly when the neighbour search finds the best
  request of a queue, and groups share the disk in proportion to their weights.
- **The elevator core and tags** (`elevator.c`, `blk-tag.c`): sorted dispatch with
  barriers and a moving boundary, the back merge hash as an index, the tag map.

Each component is written twice. A module of values and functions says what one
operation does to a state; its lemmas are the theorems over whole runs. Code that
the kernel writes as updates in place is a class whose methods are proved equal
to those functions (`Flush`/`FlushQueue`, `Deadline`/`DeadlineQueue`,
`CfqGroups`/`CfqService`), or keeps its invariant directly (`Request`,
`ThrottleQueue`, `Dispatch`, `MergeHash`, `Tags`).

`dafny verify dfyconfig.toml` checks everything.

| file | content |
|---|---|
| `Arith.dfy`, `IdLists.dfy`, `KeyedTree.dfy`, `Directions.dfy` | truncated products and rounding, duplicate-free lists, trees in key order, read/write pairs |
| `ThrottleSlice.dfy`, `ThrottleWait.dfy`, `ThrottleCalm.dfy`, `ThrottleGroup.dfy`, `ThrottleQueue.dfy`, `ThrottleRun.dfy` | slice arithmetic and rate bound, advised waits, progress of a slice, groups and their turns, the limiter with its queues and tree, whole runs of it |
| `Flush.dfy`, `FlushDrain.dfy`, `FlushQueue.dfy` | flush protocol and its theorems, its progress, the same in place |
| `Bio.dfy`, `Segments.dfy`, `Scatter.dfy`, `Completion.dfy`, `Composition.dfy`, `Request.dfy` | bios, clustering, scatterlists, partial completion and how it composes, requests |
| `Deadline.dfy`, `DeadlineBound.dfy`, `DeadlineCarrier.dfy`, `DeadlineQueue.dfy` | deadline operations, service bound, service bound through merges, the same in place |
| `CfqChoose.dfy`, `CfqGroups.dfy`, `CfqFairness.dfy`, `CfqService.dfy` | request choice, group tree, fairness of runs, the same in place |
| `Dispatch.dfy`, `MergeHash.dfy`, `Tags.dfy` | dispatch list, back merge hash, tag map |

Where integer width matters it is written out: the throttle code multiplies in 64
bits and divides afterwards, and the model truncates exactly there (`Arith.Quota`).
A limiter is called calm when the slices of directions that hold nothing end soon
after they start, and those of the others are bounded and leave room for the
products until all held bios have left; every operation keeps it so while there is room for
the bios that come.

Some properties that look plausible are not true of the code without a condition;
the exact condition is then part of the theorem:

- With `writes_starved` at 0 there is no bound at all for reads (`ReadsCanStarve`).
- Two partial completions leave the request as one does if and only if their parts
  of a sector carry neither in the request nor in the bio where both end
  (`CompleteTwice`, `SectorLost`).
- The dispatch list stays sorted when the driver takes its head if and only if a
  barrier holds the boundary or the move tells no two related neighbours apart
  (`StartGood`, `OverlapBreaksOrder`, `OtherClassBreaksOrder`).
- CFQ's neighbour search finds the best request if and only if, of the highest rank,
  the one wanted is among the nodes it looks at (`FoundBestIff`,
  `MetadataPassedOver`, `EqualRankPassedOver`).
- A tag map takes in its old entries when it grows if and only if its old depth is
  within twice the number of requests, which can be lowered after the map was made
  (`Resize`, `GrownAfterLowering`).

## Model

| member | source | states |
|---|---|---|
| ThrottleSlice.MayDispatch | kernel/block/blk-throttle.c:695-744 | A refused bio is told to wait at least one jiffy, and the slice is left open until that wait is over |
| ThrottleSlice.BytesTrim | kernel/block/blk-throttle.c:566-568 | Trimming never forgets more bytes than the elapsed whole slices paid for, although the product is truncated to 64 bits |
| ThrottleSlice.IosTrim | kernel/block/blk-throttle.c:570 | The same for the number of bios, with its 32 bit product |
| ThrottleSlice.TrimStart | kernel/block/blk-throttle.c:534-591 | Trimming moves the slice start forward but never past the present, only lowers the counters, and leaves a slice that lasts another full slice |
| ThrottleSlice.AdmittedFits | kernel/block/blk-throttle.c:593-683 | An admitted bio really fits: neither the 64 bit sum nor the truncated quota can make an over-limit bio pass, for bytes and for bios |
| ThrottleSlice.StepPaid | kernel/block/blk-throttle.c:695-744 | One test, charge and trim keeps the account: forgotten units are paid for by the moved slice start, all units by the slice end |
| ThrottleSlice.RunPaid | kernel/block/blk-throttle.c:496-756 | Every run of tests, charges, trims, extensions and renewals keeps that account |
| ThrottleSlice.RateBound | kernel/block/blk-throttle.c:593-756 | Over any run, bytes and bios dispatched since the slice start are at most the limit times the time plus one slice |
| ThrottleSlice.RateBoundOfFreshGroup | kernel/block/blk-throttle.c:266-284 | The same for a zeroed group, counted from its first bio |
| ThrottleWait.BpsTest | kernel/block/blk-throttle.c:643-683 | While no product overflows, the byte test holds exactly when the rounded elapsed time pays for the bytes |
| ThrottleWait.IopsTest | kernel/block/blk-throttle.c:593-641 | While no product overflows, the bio test holds exactly when the rounded elapsed time pays for one more bio |
| ThrottleWait.TestsKeepPassing | kernel/block/blk-throttle.c:593-683 | A test that passes keeps passing as time goes on while nothing is charged |
| ThrottleWait.BpsWaitAlmostPays | kernel/block/blk-throttle.c:668-683 | After an advised byte wait at most one jiffy is missing, despite the rounding down |
| ThrottleWait.BpsWaitPays | kernel/block/blk-throttle.c:668-683 | The next advised byte wait is then long enough |
| ThrottleWait.IopsWaitPays | kernel/block/blk-throttle.c:623-641 | One advised bio wait is always long enough |
| ThrottleWait.BpsWaitBound | kernel/block/blk-throttle.c:668-683 | An advised byte wait is no longer than the bytes take at the limit, and one slice |
| ThrottleWait.IopsWaitBound | kernel/block/blk-throttle.c:623-641 | An advised bio wait is no longer than the bios take at the limit |
| ThrottleWait.RetriesKeepSlice | kernel/block/blk-throttle.c:711-741 | Retrying when advised never resets the slice, however often |
| ThrottleWait.AdvisedWaitsWork | kernel/block/blk-throttle.c:695-744 | A bio retried at each advised time is admitted within two retries if only the byte rate holds it back, within three in general, and by an explicit time: the time its bytes and its place among the bios take at the limits, two slices and the rounding |
| ThrottleWait.AskAgain | kernel/block/blk-throttle.c:771-789 | Testing twice at the same time gives the same answer and the same slice |
| ThrottleCalm.RefusedBefore | kernel/block/blk-throttle.c:593-683 | While no product overflows, a bio is refused only up to the time that pays for everything held, counted from the start of the slice |
| ThrottleCalm.CalmAsk | kernel/block/blk-throttle.c:695-744 | Asking keeps the slice within a bounded length, keeps its counters while it is open, and a refusal leaves it open until the advised time; extending it for another reason is possible only once before a bio leaves |
| ThrottleCalm.CalmTrim | kernel/block/blk-throttle.c:534-591 | After a bio was let go the slice starts close behind the present and ends soon, also when the trim forgets nothing |
| ThrottleCalm.FirstBio | kernel/block/blk-throttle.c:1179-1204 | The first bio to come to a slice that has settled leaves it settled if it passes, and calm if it is refused |
| ThrottleQueues.ThrottleQueue.constructor | kernel/block/blk-throttle.c:1227-1259 | A new limiter has the group of the root cgroup, holds no bio, and is valid and calm |
| ThrottleQueues.ThrottleQueue.CreateGroup | kernel/block/blk-throttle.c:183-263 | A new group is zeroed, holds nothing and has one reference; other groups and the tree are untouched, and a calm limiter stays calm |
| ThrottleQueues.ThrottleQueue.DestroyGroup | kernel/block/blk-throttle.c:985-999 | Dropping the creation reference frees the group exactly when it holds no bios |
| ThrottleQueues.ThrottleQueue.RbFirst | kernel/block/blk-throttle.c:381-394 | With or without the cached node the leftmost group is returned |
| ThrottleQueues.ThrottleQueue.Enqueue | kernel/block/blk-throttle.c:421-462 | The group joins the tree once, in the order of dispatch times, with flag, count and cached leftmost node in agreement |
| ThrottleQueues.ThrottleQueue.Dequeue | kernel/block/blk-throttle.c:402-474 | The group leaves the tree, with flag, count and cached node in agreement |
| ThrottleQueues.ThrottleQueue.TgMayDispatch | kernel/block/blk-throttle.c:695-744 | The tests written as statements give the verdict of `MayDispatch` and change nothing but the slice |
| ThrottleGroups.PoppedOk | kernel/block/blk-throttle.c:791-809 | Taking the head of a queue keeps the group consistent: bios leave in the order they came, counts and references match the queues, the account stays paid |
| ThrottleQueues.ThrottleQueue.DispatchOneBio | kernel/block/blk-throttle.c:791-809 | The head of the queue is charged, counted out and released |
| ThrottleQueues.ThrottleQueue.DispatchDir | kernel/block/blk-throttle.c:820-839 | Bios leave from the front of one direction until the quota is used or the next is refused: whenever fewer than the quota left, the head is refused |
| ThrottleQueues.ThrottleQueue.DispatchTg | kernel/block/blk-throttle.c:811-842 | At most six reads and two writes leave per turn, each from the front of its queue; a direction that used less than its share has no head or a refused one |
| ThrottleQueues.ThrottleQueue.UpdateDisptime | kernel/block/blk-throttle.c:771-789 | The group is filed under the present plus the shorter advised wait of its queue heads, before the slices of its bios end |
| ThrottleQueues.ThrottleQueue.ServeGroup | kernel/block/blk-throttle.c:852-869 | A turn either lets bios go or takes the group out of those due; no bio is lost |
| ThrottleQueues.ThrottleQueue.SelectDispatch | kernel/block/blk-throttle.c:844-873 | The loop ends, releases at most 39 bios, loses none, and if it stops below its quantum no group is due any more; if nothing left, each due group has had exactly one turn; a calm limiter stays calm |
| ThrottleQueues.ThrottleQueue.AddBio | kernel/block/blk-throttle.c:758-769 | A held bio goes to the end of its queue, the group gets a reference and joins the tree |
| ThrottleQueues.ThrottleQueue.ThrotlBio | kernel/block/blk-throttle.c:1126-1225 | A bio passes exactly when there is no rule, or nothing of its direction is held and it is within the limits; otherwise it is held behind the others, and the first one held makes its group come up within its advised wait and schedules work for the earliest group; a calm limiter with room for the bio stays calm |
| ThrottleQueues.ThrottleQueue.ScheduleNextDispatch | kernel/block/blk-throttle.c:476-494 | Work is scheduled exactly when bios are held, for the earliest dispatch time of any group that holds some |
| ThrottleGroups.TurnCalm | kernel/block/blk-throttle.c:811-869 | A turn of a group keeps it calm: slices bounded and no product overflowing until all held bios have left |
| ThrottleGroups.OfferedCalm | kernel/block/blk-throttle.c:1126-1225 | Whichever way a bio goes, a calm group stays calm if there is room for the bio beside what is held and counted |
| ThrottleGroups.TurnStuck | kernel/block/blk-throttle.c:811-869 | A turn in which no bio leaves means that no head is due for admission yet, and starts no open slice anew |
| ThrottleGroups.RefiledPunctual | kernel/block/blk-throttle.c:771-789 | A group that is filed anew comes up while the slices of its bios are open, whatever the numbers |
| ThrottleQueues.ThrottleQueue.KeepDispatching | kernel/block/blk-throttle.c:913-963 | From any calm state: run each time and at the time the limiter asks for it, the work function comes to an end; every bio that was held has left, in order, and the limiter is calm again |
| ThrottleGroups.CountedArrived | kernel/block/blk-throttle.c:746-756 | What a slice has counted and its queue holds never exceeds what has arrived |
| ThrottleRuns.Serve | kernel/block/blk-throttle.c:913-1225 | Bios offered and work run in any order and at any times, then work run when asked for: every bio offered to any group has left, in the order it came, if there is room for all of them together |
| ThrottleRuns.ServeFromStart | kernel/block/blk-throttle.c:1227-1259 | The same from a new limiter, where the limits and the bios decide whether there is room |
| ThrottleQueues.ThrottleQueue.WithinLimits | kernel/block/blk-throttle.c:593-873 | In every valid state each direction of each group has let through no more than its limits grant since its first slice, plus one slice |
| Flush.KickInv | kernel/block/blk-flush.c:243-272 | A kick keeps the invariant: at most one flush in flight, and everybody it serves began to wait before it was issued |
| Flush.CompleteSeqInv | kernel/block/blk-flush.c:143-191 | Moving a request to the list of its lowest unfinished step keeps the invariant and stalls nobody, also in the middle of a walk |
| Flush.InsertInv | kernel/block/blk-flush.c:297-335 | Insertion keeps the invariant |
| Flush.DataEndInv | kernel/block/blk-flush.c:274-284 | The end of a data step keeps the invariant |
| Flush.FlushEndInv | kernel/block/blk-flush.c:193-228 | The end of a flush, which pushes on everybody who waited for it, keeps the invariant |
| Flush.Run | kernel/block/blk-flush.c:143-335 | Every legal interleaving of insertion, fetching and completion stays within the invariant and stalls nobody |
| Flush.FlushOrdering | kernel/block/blk-flush.c:13-17 | A data step that needs a PREFLUSH is queued only after a flush that was issued after insertion has succeeded; a request that ends well had all its steps, the POSTFLUSH issued after its data completed |
| Flush.EndsOnce | kernel/block/blk-flush.c:143-191 | Each request ends at most once; its data is queued at most once and completes at most once, after it was queued; at most three steps complete, exactly those of the policy if it ends well; a request that fails does so after its data failed or after a flush failed that was issued while it waited; it is on no list exactly when it has ended |
| Flush.NeverStalls | kernel/block/blk-flush.c:243-272 | The indices differ exactly while a flush is out, someone waits for it, and while any request is unfinished something is with the driver or on its way to it |
| Flush.PreflushMakesEarlierWritesDurable | kernel/block/blk-flush.c:13-17 | For every write, sequenced or not, that had completed before a PREFLUSH request was inserted, a flush issued after it has succeeded before the data of the request is queued |
| FlushDrain.DriverUsesWork | kernel/block/blk-flush.c:143-284 | Whatever the driver takes or completes, failing or not, uses up work: steps left, requests queued and requests out |
| FlushDrain.DriverCanGoOn | kernel/block/blk-flush.c:193-228 | While any request has not ended there is something for the driver to take or complete |
| FlushDrain.EveryRequestEnds | kernel/block/blk-flush.c:143-284 | From every reachable state the driver can go on only for as many operations as there is work, and when it has nothing left to do every request has ended |
| FlushQueues.FlushQueue.KickFlush | kernel/block/blk-flush.c:243-272 | The three conditions as statements: the state afterwards is that of `Kick`, and the result says whether a flush was queued |
| FlushQueues.FlushQueue.AdvanceRequest | kernel/block/blk-flush.c:153-188 | The switch over the current step moves the request as `MoveOn` does and reports whether its data was queued; its callers show that the data is not already on the dispatch queue |
| FlushQueues.FlushQueue.CompleteFlushSeq | kernel/block/blk-flush.c:143-191 | The result is true exactly when the dispatch queue grew |
| FlushQueues.FlushQueue.InsertFlush | kernel/block/blk-flush.c:297-335 | Policy, bypass and first step of an inserted request, with the invariant kept |
| FlushQueues.FlushQueue.NextRequest | kernel/block/blk.h:55-88 | Only a queue with nothing to dispatch is held back, and only behind a flush that the driver has, so that its end runs the queue again |
| FlushQueues.FlushQueue.FetchRequest | kernel/block/blk-core.c:1975-1984 | The driver takes the head of the dispatch queue |
| FlushQueues.FlushQueue.FlushDataEndIo | kernel/block/blk-flush.c:274-284 | The end of a data step in place; the queue is run exactly when something was put on the dispatch queue |
| FlushQueues.FlushQueue.PushRequest | kernel/block/blk-flush.c:206-212 | One round of the walk: the step the request waited in is finished and the request moves on |
| FlushQueues.FlushQueue.FlushEndIo | kernel/block/blk-flush.c:193-228 | The safe list walk, which moves entries while a kick may turn its list into the pending one, pushes on exactly those who waited for the flush, each once; the queue is run exactly when something was put on the dispatch queue or it was held back |
| Segments.GreedyStaysAhead | kernel/block/blk-merge.c:117-199 | From states that are ahead, the greedy pass stays ahead of every admissible cutting |
| Segments.GreedyIsMinimal | kernel/block/blk-merge.c:117-199 | No way to cut the vectors within the limits has fewer segments than the scatterlist pass |
| Segments.GreedyIsAdmissible | kernel/block/blk-merge.c:12-69 | Both passes respect contiguity, boundary and maximum size |
| Segments.AccountedBoundsSg | kernel/block/blk-merge.c:117-199 | Whatever an account of segments says, the scatterlist needs no more |
| Segments.RecalcAccounted | kernel/block/blk-merge.c:12-69 | A recount gives an account with the true sizes of the first and last segment |
| Segments.JoinAccounted | kernel/block/blk-merge.c:277-315 | Counting one segment less for two requests that share one is right when the two end sizes fit together |
| Scatter.MapVecsFacts | kernel/block/blk-merge.c:133-175 | The scatterlist has as many entries as greedy segments and covers the same bytes in the same order |
| Scatter.EntriesStayWithin | kernel/block/blk-merge.c:133-175 | Every entry is within maximum size and crosses no boundary if every vector is, although only neighbours are compared |
| Completion.AdvanceStream | kernel/block/blk-core.c:150-176 | Advancing a bio drops exactly the first bytes of its stream |
| Completion.DropIsPrefixDrop | kernel/block/blk-core.c:2008-2156 | Partial completion of a chain removes exactly the first n bytes, or all |
| Completion.FinishedIffAllBytes | kernel/block/blk-core.c:2107-2118 | A request is finished exactly when all bytes are |
| Composition.DropIsSeen | kernel/block/blk-core.c:2056-2128 | The chain of bios is completed like its description by identity, vectors left, size and sector |
| Composition.DropTwice | kernel/block/blk-core.c:2056-2128 | Of the chain: two steps leave the bytes that one leaves, and the same start sectors if and only if they do not end in one bio with a carry there |
| Composition.CompleteTwice | kernel/block/blk-core.c:2008-2156 | Of the request: two steps that leave it unfinished agree with one in the bytes of each bio, length and segment count, in its own sector if and only if the parts of a sector do not carry, and in everything if and only if they carry neither there nor in the bio both end in |
| Composition.CompleteTwiceInSectors | kernel/block/blk-core.c:2008-2156 | With bios of whole sectors two steps are one step if and only if the parts of a sector do not carry |
| Composition.WholeSectorSteps | kernel/block/blk-core.c:2008-2156 | If the second step is of whole sectors, or the first step and the bios are, the request and the bios that ended are those of one step |
| Composition.FinishInTwo | kernel/block/blk-core.c:2107-2118 | When the second step finishes the request nothing is left, but its sector stays where the first step put it |
| Composition.FinishedStays | kernel/block/blk-core.c:2013-2014 | A finished request is not changed any more |
| Composition.EndingTwice | kernel/block/blk-core.c:2056-2064 | Bios end once and in the same order in two steps and in one |
| Composition.SectorLost | kernel/block/blk-core.c:2134-2136 | A request that two steps across a bio boundary leave one sector behind |
| Requests.CountSegments | kernel/block/blk-merge.c:12-69 | The counting loop returns the greedy count and the sizes of the first and last segment |
| Requests.RecountSegments | kernel/block/blk-merge.c:76-84 | After a recount the bio's cached count can be trusted and its remembered end sizes only grew |
| Requests.Request.constructor | kernel/block/blk-core.c:2444-2459 | A request made of a bio has its payload, sector and segment count |
| Requests.Request.SgFits | kernel/block/blk-merge.c:196-199 | In every valid state the scatterlist fits the segment count kept in the request |
| Requests.Request.LinkBack | kernel/block/blk-merge.c:202-226 | Adding the counts of a request and a bio keeps the count a bound on the scatterlist |
| Requests.Request.BackMerge | kernel/block/blk-core.c:1110-1131 | Succeeds exactly when sectors, segments and integrity allow; then the payload is appended and counts are added, otherwise only NOMERGE is set |
| Requests.Request.FrontMerge | kernel/block/blk-core.c:1133-1161 | The same in front; the request then starts where the bio does |
| Requests.Request.JoinEnds | kernel/block/blk-merge.c:297-304 | When two requests share a segment, one less is still an admissible count, with the end sizes of single-segment requests widened |
| Requests.Request.MergeRequest | kernel/block/blk-merge.c:277-447 | Succeeds exactly when neither is special, sectors and segments, a shared one counted once, are within the limits and integrity allows; then the payloads are joined |
| Requests.Request.MapSg | kernel/block/blk-merge.c:117-199 | Writes inside an array of nr_phys_segments entries only, the entries cover exactly the request's bytes, and they are within the limits of the device if the vectors are |
| Requests.Request.RecalcSegments | kernel/block/blk-merge.c:71-74 | A recount after completion gives the exact count again |
| Requests.PassVectors | kernel/block/blk-core.c:2065-2105 | The loop over vectors finds the vector and offset where n bytes end |
| Requests.Request.EndBios | kernel/block/blk-core.c:2056-2064 | Whole bios leave the chain in order and end once; the rest of the completion is unchanged |
| Requests.Request.AdvanceFirst | kernel/block/blk-core.c:2120-2128 | The interrupted bio is left exactly where the bytes end |
| Requests.Request.Interrupt | kernel/block/blk-core.c:2120-2152 | A request that goes on keeps what is left of its chain, its length and sector follow, and its segments are counted again |
| Requests.Request.UpdateRequest | kernel/block/blk-core.c:2008-2156 | More is left exactly when fewer bytes than the request has were done; bios, length, sector and segment count are those of `Complete`, the bios that end are those of `Ending`, and what is left is the tail of the stream |
| Deadline.MoveHeld | kernel/block/deadline-iosched.c:206-222 | Moving a request to dispatch keeps tree and fifo of both directions in agreement |
| Deadline.EvictHeld | kernel/block/deadline-iosched.c:76-84 | Requests in the way of a sector are dispatched first; the indexes agree afterwards |
| Deadline.AddInv | kernel/block/deadline-iosched.c:100-113 | Adding keeps tree and fifo of each direction in agreement, sectors distinct, the fifo in order of expiry, at most one next request |
| Deadline.MergedRequestInv | kernel/block/deadline-iosched.c:156-168 | So does a front merge, which moves the request in the tree |
| Deadline.MergedRequestsInv | kernel/block/deadline-iosched.c:170-189 | So does merging two requests, where the earlier deadline is inherited with its place in the fifo |
| Deadline.ChooseOk | kernel/block/deadline-iosched.c:245-317 | The request chosen is held; none is chosen exactly when none is held |
| Deadline.DispatchInv | kernel/block/deadline-iosched.c:245-327 | A dispatch call keeps the invariant |
| DeadlineQueues.DispatchMoves | kernel/block/deadline-iosched.c:245-327 | A dispatch call moves exactly one request to the dispatch queue whenever one is held, and nothing otherwise |
| DeadlineBound.DispatchDebt | kernel/block/deadline-iosched.c:245-327 | A dispatch call dispatches a given expired request or lowers the number of calls it may still have to wait |
| DeadlineBound.StepDebt | kernel/block/deadline-iosched.c:76-327 | No other operation raises that number |
| DeadlineBound.ServiceBound | kernel/block/deadline-iosched.c:245-327 | An expired write at place i of its fifo is itself dispatched within (i+1)(writes_starved+1)fifo_batch+1 calls, a read within 2(i+1)fifo_batch+1 calls if writes_starved is at least 1, in every run that does not merge it away |
| DeadlineCarrier.MergeDue | kernel/block/deadline-iosched.c:170-189 | Merging never adds to the requests that are due, and a request that absorbs a due one is due in its place |
| DeadlineCarrier.StepDue | kernel/block/deadline-iosched.c:76-327 | No operation adds to what is due by a time that has passed, and every dispatch call lowers the calls that can still be needed |
| DeadlineCarrier.CarrierBound | kernel/block/deadline-iosched.c:76-327 | Of every run, merges of the request itself included: with n requests of its direction due no later, the data of an expired request is dispatched, by whichever request carries it, within n(writes_starved+1)fifo_batch+1 calls for a write and, if writes_starved is at least 1, 2n fifo_batch+1 calls for a read |
| DeadlineCarrier.DueIsPlace | kernel/block/deadline-iosched.c:100-113 | Without a tie behind it the requests due no later than one are those up to its place in the fifo |
| DeadlineBound.ReadsCanStarve | kernel/block/deadline-iosched.c:265-283 | With writes_starved 0 a read can be kept waiting for any number of calls |
| DeadlineQueues.DeadlineQueue.constructor | kernel/block/deadline-iosched.c:342-361 | A new scheduler holds nothing and is valid |
| DeadlineQueues.DeadlineQueue.RbAdd | kernel/block/elevator.c:356-378 | The tree walk returns the request at the same sector, or links the new one in order |
| DeadlineQueues.DeadlineQueue.AddRqRb | kernel/block/deadline-iosched.c:76-84 | The retry loop ends with the request linked and what was in its way dispatched |
| DeadlineQueues.DeadlineQueue.Move | kernel/block/deadline-iosched.c:206-222 | Moving a request to dispatch in place |
| DeadlineQueues.DeadlineQueue.Add | kernel/block/deadline-iosched.c:100-113 | Adding in place, with the invariant kept |
| DeadlineQueues.DeadlineQueue.FrontMerged | kernel/block/deadline-iosched.c:156-168 | Repositioning after a front merge in place |
| DeadlineQueues.DeadlineQueue.Merged | kernel/block/deadline-iosched.c:170-189 | Merging two requests in place |
| DeadlineQueues.DeadlineQueue.DispatchRequests | kernel/block/deadline-iosched.c:245-327 | The branches and gotos as statements compute `Dispatch`; true exactly when something was held |
| DeadlineQueues.DeadlineQueue.Drain | kernel/block/elevator.c:609-621 | Forced dispatch ends with both directions empty, every request dispatched once |
| CfqChoose.ChoiceCommutes | kernel/block/cfq-iosched.c:656-739 | Which of two requests is asked first does not matter |
| CfqChoose.ChoiceIsTotalOrder | kernel/block/cfq-iosched.c:656-739 | The pairwise choice is reflexive, total, antisymmetric and transitive |
| CfqChoose.NearerBehind | kernel/block/cfq-iosched.c:687-695 | Of two requests behind the head and within reach the nearer one wins, for any penalty |
| CfqChoose.NeighboursAreEnough | kernel/block/cfq-iosched.c:787-809 | With equal flags, looking at the neighbours or the first node finds the request preferred to all others |
| CfqChoose.WantedIsBest | kernel/block/cfq-iosched.c:656-739 | Among requests of any flags the one to prefer to all others is, of the highest rank, the nearest ahead or behind, or the lowest when all are behind and out of reach |
| CfqChoose.FoundBestIff | kernel/block/cfq-iosched.c:787-809 | The search returns the request preferred to all others if and only if that one is a neighbour or the first node it looks at |
| CfqChoose.FoundBestForAllTunables | kernel/block/cfq-iosched.c:4168-4170 | It does so for all tunables that can be set if and only if it looks at, of the highest rank, the nearest ahead, the nearest behind if that can be worth going back for and, with none ahead, the lowest |
| CfqChoose.FoundWithoutGoingBack | kernel/block/cfq-iosched.c:787-809 | A queue in which the nearest behind is out of sight and the search is right for all tunables all the same |
| CfqChoose.MetadataPassedOver | kernel/block/cfq-iosched.c:672-674 | A queue in which metadata two requests away is passed over, for any tunables |
| CfqChoose.EqualRankPassedOver | kernel/block/cfq-iosched.c:787-809 | A queue in which a better request of the rank that was found is passed over |
| CfqGroups.Scale | kernel/block/cfq-iosched.c:528-535 | The scaled charge times the weight is the charge times 4096 * 500, up to less than one weight |
| CfqGroups.QueueAddInv | kernel/block/cfq-iosched.c:827-898 | A group with its first queue goes behind all others; order, totals and minimum stay right |
| CfqGroups.QueueDelInv | kernel/block/cfq-iosched.c:900-924 | A group without queues leaves the tree and its weight leaves the total |
| CfqGroups.ServedInv | kernel/block/cfq-iosched.c:958-978 | A charge re-files the group with its new virtual time and its pending weight, and the total follows |
| CfqGroups.ChooseInv | kernel/block/cfq-iosched.c:2262-2272 | The leftmost group is chosen and its virtual time becomes the minimum of the tree, which never falls |
| CfqGroups.NewWeightInv | kernel/block/cfq-iosched.c:1008-1014 | A weight noted at any time leaves the total exact, because it takes effect off the tree |
| CfqFairness.StepInv | kernel/block/cfq-iosched.c:821-978 | Every operation keeps the total weight exact, every group above the minimum, and the minimum from falling |
| CfqFairness.Run | kernel/block/cfq-iosched.c:821-978 | So does every run |
| CfqFairness.GapBound | kernel/block/cfq-iosched.c:528-978 | While two groups stay backlogged with constant weights their virtual times differ by no more than at the start or than one charge, whatever other groups do |
| CfqFairness.VTimeMeasuresService | kernel/block/cfq-iosched.c:528-535 | Virtual time gained is service over weight, up to one unit of rounding per charge |
| CfqFairness.WeightedFairness | kernel/block/cfq-iosched.c:528-978 | Service over weight of two backlogged groups differs by no more than the gaps and the rounding allow |
| CfqService.GroupScheduler.Link | kernel/block/cfq-iosched.c:827-873 | The insertion walk files the group behind those with its key and adds its weight, after the pending update |
| CfqService.GroupScheduler.Walk | kernel/block/cfq-iosched.c:827-853 | The walk ends behind every node whose key is not larger |
| CfqService.GroupScheduler.Unlink | kernel/block/cfq-iosched.c:900-906 | The group leaves the tree, the cached node and the total |
| CfqService.GroupScheduler.NotifyQueueAdd | kernel/block/cfq-iosched.c:875-898 | The first queue of a group in place |
| CfqService.GroupScheduler.NotifyQueueDel | kernel/block/cfq-iosched.c:908-924 | The last queue of a group in place |
| CfqService.GroupScheduler.GetNextGroup | kernel/block/cfq-iosched.c:2262-2272 | Returns a group on the tree that none is behind of, or none exactly when the tree is empty |
| CfqService.GroupScheduler.GroupServed | kernel/block/cfq-iosched.c:958-978 | Unlink, charge, relink in place |
| CfqService.GroupScheduler.NoteWeight | kernel/block/cfq-iosched.c:1008-1014 | A new weight is only noted |
| CfqService.GroupScheduler.InitGroup | kernel/block/cfq-iosched.c:1016-1041 | A group is set up with its weight, off the tree |
| Dispatch.OrderedPairs | kernel/block/elevator.c:413-450 | Order between neighbours is order between any two requests of a stretch without barriers |
| Dispatch.SortKeepsOrder | kernel/block/elevator.c:413-450 | Insertion lands behind the last barrier, started request or request of another class, before exactly the later ones of the sweep, and keeps the order |
| Dispatch.SortPlacesRight | kernel/block/elevator.c:413-450 | What stays in front within the stretch comes first in the sweep |
| Dispatch.BoundaryMove | kernel/block/blk-core.c:1850-1853 | A sorted list of any classes and barriers stays sorted for another boundary if and only if of every two related neighbours both or neither start between the two boundaries |
| Dispatch.StretchMove | kernel/block/blk-core.c:1850-1853 | For a stretch of one class: if and only if none or all of it starts between the two |
| Dispatch.HeadMove | kernel/block/blk-core.c:1850-1853 | The same for taking the head of any list and making its end the boundary |
| Dispatch.HeadWithoutOverlap | kernel/block/blk-core.c:1850-1853 | In a stretch of one class the order survives taking a head that no other request starts inside |
| Dispatch.OverlapBreaksOrder | kernel/block/blk-core.c:1850-1853 | A list whose order breaks when a head that others overlap is taken |
| Dispatch.OtherClassBreaksOrder | kernel/block/blk-core.c:1850-1853 | A list whose order breaks without any overlap, because a write in front moves the boundary of the reads behind it |
| Dispatch.SortGood | kernel/block/elevator.c:413-450 | Sorted insertion keeps the whole list good, with or without a boundary request in it |
| Dispatch.SortAllGood | kernel/block/elevator.c:609-621 | So does a drain that hands over any number of requests |
| Dispatch.BackGood | kernel/block/elevator.c:657-694 | So does insertion at the back, which first drains the scheduler, possibly against a boundary request that is not on the list yet |
| Dispatch.StartGood | kernel/block/blk-core.c:1826-1853 | Taking the head keeps the list good if and only if a barrier holds the boundary or the move splits no related neighbours, for every list |
| Dispatch.DispatchQueue.Walk | kernel/block/elevator.c:427-446 | The walk from the tail, with its branches on the boundary, stops at the specified place |
| Dispatch.DispatchQueue.DispatchSort | kernel/block/elevator.c:413-450 | Insertion in place; the others keep their order and a good list stays good |
| Dispatch.DispatchQueue.InsertBack | kernel/block/elevator.c:657-694 | Drain and back insertion in place |
| Dispatch.DispatchQueue.FetchRequest | kernel/block/blk-core.c:1826-1853 | The head is taken and the boundary moves unless another request holds it; the list stays good exactly under the condition of `StartGood` |
| MergeHash.Elevator.HashAdd | kernel/block/elevator.c:316-322 | The request, and only it, becomes findable |
| MergeHash.Elevator.HashDel | kernel/block/elevator.c:305-314 | The request, and only it, stops being findable |
| MergeHash.Elevator.Reposition | kernel/block/elevator.c:324-328 | After its end moved the request is filed under its new key, whatever it was filed under |
| MergeHash.Elevator.InsertSort | kernel/block/elevator.c:701-712 | A sorted request is counted, and hashed exactly when mergeable |
| MergeHash.Elevator.TakeOut | kernel/block/elevator.c:419-424 | A dispatched request leaves hash, one-hit cache and count |
| MergeHash.Elevator.ForbidMerge | kernel/include/linux/blkdev.h:559-564 | A flag that forbids merging may be set at any time without touching the hash |
| MergeHash.Elevator.BackMerged | kernel/block/elevator.c:551-562 | After a back merge the request is findable at its new end |
| MergeHash.Elevator.FrontMerged | kernel/block/elevator.c:551-562 | After a front merge the hash is right without being touched |
| MergeHash.Elevator.MergeRequests | kernel/block/elevator.c:564-582 | After merging requests the first is findable at the end of the second, which is gone |
| MergeHash.Elevator.Find | kernel/block/elevator.c:330-350 | Succeeds if and only if some hashed, mergeable request ends at the offset, and drops only requests that cannot be merged |
| Tags.TagQueue.constructor | kernel/block/blk-tag.c:108-135 | A new map has no tag in use and a depth clamped to twice the number of requests |
| Tags.TagQueue.FirstFree | kernel/block/blk-tag.c:371-376 | The lowest free tag below the depth, or the depth |
| Tags.TagQueue.StartTag | kernel/block/blk-tag.c:337-386 | Succeeds exactly when a tag open to the request is free; then the lowest one names exactly this request |
| Tags.TagQueue.EndTag | kernel/block/blk-tag.c:282-319 | Exactly the request's tag becomes free, and it leaves the busy list |
| Tags.TagQueue.Resize | kernel/block/blk-tag.c:220-266 | Tags in use survive shrinking and growing; a shared map is not grown; the old entries fit into a larger map if and only if the old depth is at most twice the number of requests |
| Tags.GrownAfterLowering | kernel/block/blk-tag.c:220-266 | Every map deeper than twice a lowered number of requests fails to take in its old entries when it grows |
| Tags.TagQueue.Requeue | kernel/block/blk-core.c:925-937 | The tag is given back and the request is first on the dispatch list |
| Tags.TagQueue.InvalidateTags | kernel/block/blk-tag.c:399-405 | All tags are free and the requests are back on the dispatch list in the order they were started |

## Left out

- ThrottleSlice.Charge: io_disp is unbounded, because a slice would need 2^32 bios before it wraps; bytes_disp is kept in 64 bits.
- ThrottleSlice.RateBound: limits are constant during a run, because a limit change (throtl_process_limit_change) restarts the slice and the account with it.
- ThrottleWait.AdvisedWaitsWork: asks that no product overflows until the time it names, because the code then compares truncated numbers.
- ThrottleRuns.Serve: asks for room (`ThrottleCalm.Roomy`), that is that for the bios offered the products of the tests stay within their widths, because the code compares truncated numbers otherwise; at the end the work runs exactly when asked for and no further bios arrive.
- ThrottleQueues.ThrottleQueue.ThrotlBio: group lookup under RCU, statistics and the already-throttled flag are not modelled; the group is a parameter, and the delay that is scheduled is a result.
- ThrottleQueues.ThrottleQueue.CreateGroup: groups and bios are records in tables, so reuse of freed memory is not captured.
- Jiffies do not wrap; the comparisons that tolerate wrap-around are comparisons of natural numbers.
- Red-black trees are sequences of their nodes in order; balancing is not modelled, the cached leftmost node is.
- FlushQueues.FlushQueue.NextRequest: what the scheduler then gives is not modelled.
- Locks, work queues and interrupts: each operation is one step, as under the queue lock.
- Flush.FlushOrdering: for devices with a write cache and, as the source demands, FUA only with data; blk_abort_flushes and blkdev_issue_flush are not modelled.
- Requests.Request.MapSg: the drain buffer and the padding of unaligned tails are not modelled.
- Requests.Request.MergeRequest: flag, direction and device checks of attempt_merge are a parameter; discards and integrity metadata are not modelled.
- Requests.Request.BackMerge: mixed-merge failfast flags and accounting are not modelled.
- Scatter.EntriesStayWithin: the segment boundary is any monotone division of memory into windows; the mask arithmetic is not modelled.
- DeadlineBound.ServiceBound: speaks of the request itself, so runs that merge it away are left to DeadlineCarrier.CarrierBound; writes_starved is a natural number, because the source compares it as unsigned.
- CfqChoose.ChoiceIsTotalOrder: requests of one queue have distinct sectors, because the tree admits one request per sector; 64 bit overflow of the penalised distance is not modelled.
- CfqGroups.ServedInv: virtual time does not wrap and a charge goes to the group chosen last; service of a cooperating queue without choosing again is not modelled, nor is the unused node count of the group tree.
- CFQ queues, slices, idling, preemption, think time and cooperators: heuristics without a law to prove.
- Dispatch.DispatchQueue.InsertBack: the drain hands its requests to sorted insertion; schedulers that use elv_dispatch_add_tail, and front insertion, are not modelled.
- Tags.TagQueue.Resize: stops where old entries would be copied past the end of the new map, because nothing is defined after that; allocation failure and the other queues that share a map are not modelled.
- blk-ioc.c, blk-map.c, blk-lib.c, bsg.c, genhd.c, sysfs and cgroup interfaces, statistics: glue that would only add easy members.
