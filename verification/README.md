# Packet-pacing schedulers: a model in Dafny

This project models the parts of the repository that decide which packet or task runs next, and when:

- FlowBundler's multi-level calendar queue (`kernel/sch_dfb/sch_dfb.c`): `Words`, `SlotMap`, `DfbTime`, `DfbSpec`, `DfbRelease`, `Dfb`.
- Eiffel's circular gradient queue (`kernel/sch_eiffel/sch_eiffel.c`): `Granules`, `GradientTree`, `EiffelSpec`, `Eiffel`, `EiffelSizing`.
- Carousel's timing wheel (`kernel/sch_carousel/sch_carousel.c`): `CarouselSpec`, `Carousel`.
- The BESS hierarchical scheduler (`bess/core/traffic_class.*`, `bess/core/scheduler.h`): `Stride`, `TokenBucket`,
  `TrafficClass`, `TcUnblock`, `TcBlock`, `TcAccount`, `TcTree`, `TcLists`, `TcWalks`, `TcEffects`, `TcPolicies`,
  `TcRing`, `TcTokens`, `TcFairness`, `SchedulerSpec`, `Scheduling`.
- The worker pause/resume protocol (`bess/core/worker.cc`): `Workers`.
- The DMA pool allocator (`bess/core/memory.cc`): `DmaPool`.

`dafny verify dfyconfig.toml` checks the whole project.

## How it is built

Each packet queue is proved in two stages. A specification (`DfbSpec`, `EiffelSpec`, `CarouselSpec`) describes what
enqueue and dequeue do to a map from slot time to FIFO; `SlotMap` gives that map its service order and contents. A class
(`MultiLevelCalendarQueue`, `GradientQueue`, `TimingWheel`) holds the source's arrays, counters and time stamps and
updates them in place with the source's loops; every method is proved to have exactly the effect of its specification.
Order, conservation and timing over whole runs are then proved about the specification.

The BESS scheduler keeps all classes of a worker in one store, where an id stands for the pointer. For each kind of
class there is a function for what a call does to that class, and a recursive function for the walk towards the root
(`UnblockUp`, `BlockUp`, `FinishUp`). `NodeOk` says that lists, flag and wakeup time of one class agree with the flags
of its children, and the lemmas `UnblockUpSound`, `BlockUpSound`, `FinishUpSound`, `AddChildSound`, `RemoveChildSound` and
`WakeDueSound` say that each operation leaves every class of the tree in that state. The class `Scheduler` performs the
operations with the source's loops and is proved to have exactly those effects. `UnblockedIffCanRun` says what the flags
mean without mentioning a flag.

`TcWalks` says which updates an operation anywhere in the tree makes at one class, and when. On that rest three results
about any run of operations: no setting changes unless it is asked for, and children are added and removed exactly as
asked (`TcEffects`); the tokens of a limiter change by the events of the token bucket (`TcTokens`); and the resource of a
weighted-fair class is divided in proportion to the shares (`TcFairness`). `TcRing` proves whose turn it is in a round
robin, and `TcPolicies` ties single operations to the steps of `Stride` and `TokenBucket`.

The worker protocol is a state machine over interleaved steps; its invariant holds after any sequence of calls and steps,
and every call returns with its goal reached in any run in which master and workers keep moving.
`DmaPool` keeps the free regions as a sorted list and proves that such a list is determined by the addresses it covers,
so that a round trip restores it exactly.

## Where the code falls short of its promise

- `kernel/sch_dfb/sch_dfb.c:609` moves `head_time` back without a guard. The window invariant survives a dequeue if and
  only if `RewindSafe` holds (`DequeueKeepsInvIff`); `RewindSharesBucket` gives a run in which two slot times 9216 ns
  apart end up in one bucket. When send times and dequeue times follow one clock that never runs behind the
  head time, the rewind does no harm (`OnTimeNeverRewinds`, `OnTimeRunIsAllowed`).
- A packet may leave before its rounded send time if the scan is coarser than its own granule, which happens after
  `kernel/sch_dfb/sch_dfb.c:586-588` has raised the scan while packets of a faster flow sit in slots of a coarser level.
  `DequeueReleases` and `RunReleasesOnTime` give the exact condition for every packet,
  and `CoarserScanReleasesEarly` a packet sent at 1023 that leaves at 0.
- `kernel/sch_dfb/sch_dfb.c:324` compares `unlikely(x)`, which is 0 or 1, with 64, so the guard never fires. The model
  keeps it as it is and states the bound on times that makes it unnecessary.
- `bess/core/traffic_class.cc:195-197` and `:259-266` store a pass in the union that waking reads as a penalty. A wakeup
  keeps the runnable passes within the largest charge if and only if the queue is empty or the value stored lies in a
  window that `WakeKeepsWithinIff` gives; `BlockKeepsSpreadIff` and `AddKeepsSpreadIff` state this for the two routes.
  On each route there is a run in which the service of two runnable children differs by more than twice the largest
  charge (`AddBlockedLosesFairness`, `BlockRouteLosesFairness`).
- In the experimental scheduler an idle leaf is charged a count of 0 (`bess/core/scheduler.h:361-372`). If its parent can
  still run, a round robin above that parent advances by nothing (`bess/core/traffic_class.cc:415`) and picks the same
  child again. `AccountPassesTurnIff` says exactly when the turn passes, and `IdleLeafKeepsTurn` gives such a tree.
- A nested rate limiter's earlier wake time can set `last_tsc_` back (`bess/core/traffic_class.cc:476-477`). Elapsed time pays
  for an event, and for every event of a run, if and only if that does not happen (`StepPaidByTimeIff`, `RunPaidByTimeIff`); `RunPaid`
  bounds the work in any case by counting the cycles set back, and `RewindCountsTwice` shows cycles credited twice.
- With limit 0 a rate limiter that exceeds its tokens is blocked with no wakeup time above a runnable child
  (`ZeroLimitStaysBlocked`); the lemma `LimiterHeldIff` gives the exact condition.
- The tree of the gradient queue covers its buckets only if the floor of the logarithm of their number is not a multiple of
  5 or the number is a power of two (`SizingExact`; 33 buckets get 32 leaves, `ThirtyThreeBuckets`), and a queue of a
  single bucket gets no tree at all (`SingleBucketHasNoTree`). The constructor of `GradientQueue` says exactly when a new
  queue is in order. A clamped stamp stays within the bucket array if and only if the horizon is at least one granule and
  a multiple of it (`IndexInBoundsIff`).
- `kernel/sch_eiffel/sch_gq_origin.c` describes the counters of the tree as numbers of packets. The code counts non-empty
  buckets, and so does the model.
- The timing wheel has enough buckets if and only if the granularity divides the horizon (`WheelSizeExact`).

## Model

| member | source | states |
|---|---|---|
| `DfbTime.LocationCanonical` | kernel/sch_dfb/sch_dfb.c:308-335 | for every queue id and send time, the location found is the trailing zero count of the slot time and its (odd) number at that level |
| `DfbTime.LocationFromSmallerId` | kernel/sch_dfb/sch_dfb.c:308-335 | looking a slot up with any id not above its level, one granule before the slot, finds the same location |
| `DfbTime.BucketDeterminesSlot` | kernel/sch_dfb/sch_dfb.c:99-106 | two slot times in one window that share level and bucket modulo 1024 are equal |
| `DfbTime.ClampedSlotInWindow` | kernel/sch_dfb/sch_dfb.c:342-362 | clamping to the horizon of its queue id puts a packet of any rate into the 1024 buckets of its slot's level |
| `DfbTime.WindowMasked` | kernel/sch_dfb/sch_dfb.c:538 | rounding the head time down to a granule not above the level leaves the window as it was |
| `DfbTime.GranularityMatchesRate` | kernel/sch_dfb/sch_dfb.c:297-306 | for every rate from 1 to the maximum, the granularity is within a factor of two of the MTU transmission time, on both sides |
| `DfbTime.QueueIndexAntitone` | kernel/sch_dfb/sch_dfb.c:297-306 | a faster flow never gets a coarser queue |
| `DfbTime.SlotTimeBounds` | kernel/sch_dfb/sch_dfb.c:308-335 | a slot is the first multiple of the packet's granule after its send time |
| `DfbTime.SlotTimeMonotone` | kernel/sch_dfb/sch_dfb.c:308-335 | a later send time never gets an earlier slot |
| `DfbSpec.NoAliasing` | kernel/sch_dfb/sch_dfb.c:99-106 | under the window invariant distinct live slots never share a physical bucket |
| `DfbSpec.EnqueueSets` | kernel/sch_dfb/sch_dfb.c:337-378 | the packet joins the FIFO of the slot of its own send time if that lies within the 1023 granules from the head time on, else of the nearer end; the first packet sets head time and scan, a finer one lowers the scan |
| `DfbSpec.LaterNotBefore` | kernel/sch_dfb/sch_dfb.c:337-378 | of two packets of one queue id, the later one never gets the earlier slot |
| `DfbSpec.EnqueueKeepsInv` | kernel/sch_dfb/sch_dfb.c:337-378 | enqueueing keeps every live slot within 1 to 1024 buckets of the head time at its level, and `highest_rate_qid` at most that level |
| `DfbSpec.PopKeepsInv` | kernel/sch_dfb/sch_dfb.c:582-604 | so does popping, with the raised `highest_rate_qid`, and the new head time lies between the masked old one and now |
| `DfbSpec.DequeueKeepsInvIff` | kernel/sch_dfb/sch_dfb.c:538-609 | a dequeue keeps the invariant exactly when it does not rewind, or every live slot is within 1024 buckets of now |
| `DfbSpec.RewindSharesBucket` | kernel/sch_dfb/sch_dfb.c:609 | a run in which the unguarded rewind puts two slot times into one bucket |
| `DfbSpec.DequeueServesHead` | kernel/sch_dfb/sch_dfb.c:570-608 | a dequeue returns a packet exactly when the least slot is due, and then the head of the service order; the rest keeps its order |
| `DfbSpec.DequeueMovesHead` | kernel/sch_dfb/sch_dfb.c:582-609 | afterwards the head time is the instant from which the packet returned was due, or now rounded down to the scan; the scan is the finest level left |
| `DfbSpec.StepKeepsLimit` | kernel/sch_dfb/sch_dfb.c:453-512 | the number of queued packets never exceeds the limit |
| `DfbSpec.WatchdogIsFirstRelease` | kernel/sch_dfb/sch_dfb.c:610-636 | the watchdog is armed for the first instant at which a dequeue would return a packet |
| `DfbRelease.EnqueueKeepsTags` | kernel/sch_dfb/sch_dfb.c:337-378 | with each packet's queue id, clamped send time and the end of the horizon recorded, every packet lies in the slot of its own tag after an enqueue, and its send time is not before its own stamp, or is the end of the horizon for a stamp beyond |
| `DfbRelease.DequeueKeepsTags` | kernel/sch_dfb/sch_dfb.c:570-608 | and after a dequeue |
| `DfbRelease.DequeueReleases` | kernel/sch_dfb/sch_dfb.c:570-588 | the packet returned has a slot within one granule of the scan of now; that is no earlier than its own send time rounded down to its own granule exactly when the scan is no coarser than that granule, and then now is not before the packet's own stamp so rounded, or the end of the horizon for a stamp beyond it |
| `DfbRelease.DequeueNotLate` | kernel/sch_dfb/sch_dfb.c:570-608 | one granule after the send time of a queued packet, a dequeue returns a packet |
| `DfbRelease.RunReleasesOnTime` | kernel/sch_dfb/sch_dfb.c:453-636 | the same for every packet returned over any allowed run |
| `DfbRelease.CoarserScanReleasesEarly` | kernel/sch_dfb/sch_dfb.c:586-588 | a run in which a raised scan returns at time 0 a packet with send time 1023 |
| `DfbSpec.StepSound` | kernel/sch_dfb/sch_dfb.c:453-636 | one enqueue or dequeue neither loses, duplicates nor invents a packet, and a dequeue takes from the front of the order |
| `DfbSpec.RunSound` | kernel/sch_dfb/sch_dfb.c:453-636 | the same over any run, while `highest_rate_qid` rises and falls |
| `DfbSpec.DrainServesInOrder` | kernel/sch_dfb/sch_dfb.c:521-636 | between enqueues a run serves a prefix of the service order |
| `DfbSpec.OnTimeNeverRewinds` | kernel/sch_dfb/sch_dfb.c:609 | when send times and dequeue times follow one clock that is not behind the head, the rewind is harmless |
| `DfbSpec.OnTimeRunIsAllowed` | kernel/sch_dfb/sch_dfb.c:453-636 | every run under such a clock keeps the invariant |
| `Dfb.MultiLevelCalendarQueue.PushToBucket` | kernel/sch_dfb/sch_dfb.c:231-248 | bucket, packet counts and bitmap stay a faithful image of the slot map with the packet inserted |
| `Dfb.MultiLevelCalendarQueue.PopFromBucket` | kernel/sch_dfb/sch_dfb.c:253-271 | returns the head of the slot, or nothing if the slot is not live, and removes exactly that |
| `Dfb.MultiLevelCalendarQueue.EnqueueToCq` | kernel/sch_dfb/sch_dfb.c:337-378 | refines the enqueue of the slot map, first packet and clamping included |
| `Dfb.MultiLevelCalendarQueue.Enqueue` | kernel/sch_dfb/sch_dfb.c:453-512 | drops a packet exactly when the queue is full, lowers `highest_rate_qid` as needed, and otherwise refines the enqueue |
| `Dfb.MultiLevelCalendarQueue.FindNextTime` | kernel/sch_dfb/sch_dfb.c:610-625 | the second scan terminates at the release time of the least live slot |
| `Dfb.MultiLevelCalendarQueue.RaiseHighestRate` | kernel/sch_dfb/sch_dfb.c:586-589 | `highest_rate_qid` becomes the smallest occupied level |
| `Dfb.MultiLevelCalendarQueue.ScanDue` | kernel/sch_dfb/sch_dfb.c:570-608 | the first scan terminates, pops from the least slot if it is due, and passes over empty buckets only |
| `Dfb.MultiLevelCalendarQueue.Dequeue` | kernel/sch_dfb/sch_dfb.c:521-636 | refines the dequeue of the slot map; the window invariant holds afterwards exactly when the rewind was safe |
| `SlotMap.OrderInsert` | kernel/sch_dfb/sch_dfb.c:231-248 | inserting a packet puts it behind all packets of its own and earlier slots, ahead of all later ones |
| `SlotMap.OrderRemoveMin` | kernel/sch_dfb/sch_dfb.c:253-271 | removing the head of the least slot removes the head of the service order |
| `GradientTree.CountBelow` | kernel/sch_eiffel/sch_eiffel.c:145-161 | the counter of every node is the number of non-empty buckets below it |
| `GradientTree.RootCount` | kernel/sch_eiffel/sch_eiffel.c:166-175 | the root counter is zero exactly when every bucket is empty |
| `GradientTree.LowestChild` | kernel/sch_eiffel/sch_eiffel.c:180-184 | the lowest set bit of a node names its first child with a non-empty subtree |
| `GradientTree.LeastChild` | kernel/sch_eiffel/sch_eiffel.c:180-184 | each step of the descent keeps every non-empty bucket at or behind the subtree |
| `GradientTree.MinIndex` | kernel/sch_eiffel/sch_eiffel.c:166-186 | the descent ends at the least non-empty bucket |
| `GradientTree.AddStep` | kernel/sch_eiffel/sch_eiffel.c:149-160 | one turn of the climb repairs a node, although bits are left alone once a counter exceeded one |
| `GradientTree.RemoveStep` | kernel/sch_eiffel/sch_eiffel.c:233-243 | one turn of the climb repairs a node, although bits are left alone once a counter stays positive |
| `GradientTree.AddBucket` | kernel/sch_eiffel/sch_eiffel.c:145-161 | the climb after a bucket became non-empty restores counters and bitmaps of the whole tree |
| `GradientTree.RemoveBucket` | kernel/sch_eiffel/sch_eiffel.c:228-244 | the climb after a bucket ran empty restores counters and bitmaps of the whole tree |
| `EiffelSpec.MatchesChange` | kernel/sch_eiffel/sch_eiffel.c:119-164 | changing one bucket and its slot alike keeps the two arrays an image of the slot map |
| `EiffelSpec.MatchesMin` | kernel/sch_eiffel/sch_eiffel.c:206-212 | the least non-empty bucket over both arrays is the least live slot |
| `EiffelSpec.MatchesRotate` | kernel/sch_eiffel/sch_eiffel.c:401-415 | exchanging the arrays when the main one is empty keeps contents and slot times |
| `EiffelSpec.SlotNearStamp` | kernel/sch_eiffel/sch_eiffel.c:124-142 | for every stamp, the clamped stamp lies in its slot or at its very end, and at the end exactly when the stamp is at or beyond `max_ts` |
| `EiffelSpec.EnqueueSets` | kernel/sch_eiffel/sch_eiffel.c:119-164 | the packet keeps its identity, and its stamp within the reach of both arrays, else it gets the nearer end; it joins the slot on the grid that holds that stamp, the last one for the very end; an empty queue starts at now |
| `EiffelSpec.LaterNotBefore` | kernel/sch_eiffel/sch_eiffel.c:124-142 | a later stamp never gets an earlier slot |
| `EiffelSpec.EnqueueKeepsInv` | kernel/sch_eiffel/sch_eiffel.c:305-360 | every live slot stays on the grid of the two arrays after an enqueue |
| `EiffelSpec.DequeueKeepsInv` | kernel/sch_eiffel/sch_eiffel.c:362-415 | and after a dequeue, rotation included |
| `EiffelSpec.DequeueServesHead` | kernel/sch_eiffel/sch_eiffel.c:188-247 | a dequeue returns a packet exactly when the earliest slot is due, and then the head of the order; the watchdog time is that slot |
| `EiffelSpec.DequeueMovesMain` | kernel/sch_eiffel/sch_eiffel.c:362-415 | the arrays rotate exactly after a packet was returned, when the main array's time has passed and nothing is left in it; an empty queue restarts at now |
| `EiffelSpec.DueStampIsServed` | kernel/sch_eiffel/sch_eiffel.c:188-247 | a queued packet with stamp not after now makes a dequeue return a packet of the earliest slot |
| `EiffelSpec.StepSound` | kernel/sch_eiffel/sch_eiffel.c:305-415 | one operation neither loses, duplicates nor invents a packet; a packet accepted keeps its identity, and its stamp but for clamping to the reach of the arrays |
| `EiffelSpec.StepKeepsLimit` | kernel/sch_eiffel/sch_eiffel.c:305-360 | the number of queued packets never exceeds the limit |
| `EiffelSpec.RunSound` | kernel/sch_eiffel/sch_eiffel.c:305-415 | the same over any run with any clock |
| `EiffelSpec.DrainServesInOrder` | kernel/sch_eiffel/sch_eiffel.c:362-415 | between enqueues a run serves a prefix of the service order, however often the arrays rotate |
| `EiffelSpec.NotTooEarly` | kernel/sch_eiffel/sch_eiffel.c:188-247 | a packet is returned no more than one granule before its clamped stamp |
| `EiffelSpec.RunNotTooEarly` | kernel/sch_eiffel/sch_eiffel.c:305-415 | the same for every packet returned over any run with any clock |
| `EiffelSpec.InReachRun` | kernel/sch_eiffel/sch_eiffel.c:305-415 | over any run whose packets come within reach, the packets returned and left are exactly those queued and given, unchanged, and none leaves more than a granule before its own stamp |
| `Eiffel.GradientQueue.constructor` | kernel/sch_eiffel/sch_eiffel.c:526-601 | computes number of buckets, height and size of the trees from granularity and horizon; the queue starts in order exactly when the granularity divides the horizon and the leaves cover the buckets |
| `Eiffel.GradientQueue.GetMinIndex` | kernel/sch_eiffel/sch_eiffel.c:166-186 | the least non-empty bucket of the first non-empty array; -1 exactly when both are empty |
| `Eiffel.GradientQueue.RestartIfEmpty` | kernel/sch_eiffel/sch_eiffel.c:317-321 | only an empty queue restarts its three time stamps, one horizon apart |
| `Eiffel.GradientQueue.Locate` | kernel/sch_eiffel/sch_eiffel.c:124-142 | array, bucket and clamped stamp are those of the slot map |
| `Eiffel.GradientQueue.AddPacket` | kernel/sch_eiffel/sch_eiffel.c:145-163 | appends to one bucket and keeps its tree in order |
| `Eiffel.GradientQueue.TakePacket` | kernel/sch_eiffel/sch_eiffel.c:219-246 | takes the head of one bucket and keeps its tree in order |
| `Eiffel.GradientQueue.GqPush` | kernel/sch_eiffel/sch_eiffel.c:119-164 | refines the push of the slot map |
| `Eiffel.GradientQueue.GqExtract` | kernel/sch_eiffel/sch_eiffel.c:188-247 | extracts the head of the earliest slot exactly when that slot is due |
| `Eiffel.GradientQueue.Rotate` | kernel/sch_eiffel/sch_eiffel.c:402-415 | rotates exactly when the main array is empty and its time has passed; slots and slot times stay |
| `Eiffel.GradientQueue.GqDequeue` | kernel/sch_eiffel/sch_eiffel.c:362-415 | refines the dequeue of the slot map and arms the watchdog for the earliest slot |
| `Eiffel.GradientQueue.GqEnqueue` | kernel/sch_eiffel/sch_eiffel.c:305-360 | refines the enqueue of the slot map; drops exactly when the limit is reached |
| `EiffelSizing.LogApprox` | kernel/sch_eiffel/sch_eiffel.c:486-501 | computes the floor of the logarithm for every positive 32-bit number |
| `EiffelSizing.SizingExact` | kernel/sch_eiffel/sch_eiffel.c:536-541 | the leaves cover the buckets exactly when the floor of the logarithm is not a multiple of 5 or the count is a power of two |
| `EiffelSizing.ThirtyThreeBuckets` | kernel/sch_eiffel/sch_eiffel.c:536-541 | 33 buckets get a tree of height 1 with 32 leaves |
| `EiffelSizing.SingleBucketHasNoTree` | kernel/sch_eiffel/sch_eiffel.c:536-541 | one bucket gets a tree of height and size zero |
| `EiffelSizing.TreeSize` | kernel/sch_eiffel/sch_eiffel.c:538-541 | the number of inner nodes computed is that of a full tree of the height |
| `EiffelSizing.IndexInBoundsIff` | kernel/sch_eiffel/sch_eiffel.c:126-138 | every offset within the horizon maps to a bucket inside the array exactly when the granularity divides the horizon |
| `CarouselSpec.DistinctPositions` | kernel/sch_carousel/sch_carousel.c:90-93 | live slots occupy distinct positions of the wheel |
| `CarouselSpec.WheelSizeExact` | kernel/sch_carousel/sch_carousel.c:345 | one more bucket than granules in the horizon suffices exactly when the granularity divides the horizon |
| `CarouselSpec.EnqueueSets` | kernel/sch_carousel/sch_carousel.c:94-107 | the packet keeps its identity, and its stamp within the horizon of the head, else it gets the nearer end; it joins the slot of that stamp; an empty wheel starts at now |
| `CarouselSpec.EnqueueKeepsInv` | kernel/sch_carousel/sch_carousel.c:94-107 | every live slot stays within one horizon of the head |
| `CarouselSpec.DequeueKeepsInv` | kernel/sch_carousel/sch_carousel.c:109-143 | and so after the head has advanced |
| `CarouselSpec.DueStampIsServed` | kernel/sch_carousel/sch_carousel.c:109-143 | a queued packet with stamp not after now makes a dequeue return a packet of the smallest slot |
| `CarouselSpec.NotTooEarly` | kernel/sch_carousel/sch_carousel.c:109-143 | a returned packet's stamp is below now plus two granules, if the head is less than one granule ahead of the clock |
| `CarouselSpec.DequeueServesHead` | kernel/sch_carousel/sch_carousel.c:122-143 | whatever a dequeue returns is the head of the service order |
| `CarouselSpec.DequeueMovesHead` | kernel/sch_carousel/sch_carousel.c:109-143 | the head advances by whole granules to the slot of the packet returned, or to now and less than a granule beyond |
| `CarouselSpec.StepSound` | kernel/sch_carousel/sch_carousel.c:94-143 | one operation neither loses, duplicates nor invents a packet; a packet accepted keeps its identity, and its stamp but for clamping to the horizon of the head |
| `CarouselSpec.StepKeepsLimit` | kernel/sch_carousel/sch_carousel.c:201-216 | the number of queued packets never exceeds the limit |
| `CarouselSpec.RunSound` | kernel/sch_carousel/sch_carousel.c:94-143 | the same over any run |
| `CarouselSpec.RunNotTooEarly` | kernel/sch_carousel/sch_carousel.c:109-143 | with a monotone clock, over any run, every packet returned has a stamp below the time of its own dequeue plus two granules |
| `CarouselSpec.InReachRun` | kernel/sch_carousel/sch_carousel.c:94-143 | over any run whose packets come within the horizon, with a monotone clock, the packets returned and left are exactly those queued and given, unchanged, and none leaves two granules before its own stamp |
| `Carousel.TimingWheel.TimeToIndex` | kernel/sch_carousel/sch_carousel.c:90-93 | the position of the time's slot on the wheel |
| `Carousel.TimingWheel.GqPush` | kernel/sch_carousel/sch_carousel.c:94-107 | refines the push of the slot map |
| `Carousel.TimingWheel.GetMinIndex` | kernel/sch_carousel/sch_carousel.c:109-120 | the scan stops at the smallest live slot if that is due, else at the first grid point not before now, at an empty bucket |
| `Carousel.TimingWheel.GqDequeue` | kernel/sch_carousel/sch_carousel.c:122-143 | refines the dequeue of the slot map |
| `Carousel.TimingWheel.GqEnqueue` | kernel/sch_carousel/sch_carousel.c:201-216 | refines the enqueue of the slot map; drops exactly when the limit is reached |
| `Stride.PushSorted` | bess/core/traffic_class.h:333-336 | pushing keeps the queue ordered by pass, the least one first |
| `Stride.ChargeScalesWithShare` | bess/core/traffic_class.cc:276-278 | a charge times the share is the same multiple of the resource used, whatever the share |
| `Stride.PushStrides` | bess/core/traffic_class.h:333-336 | pushing keeps the stride of every entry |
| `Stride.StepKeepsSpread` | bess/core/traffic_class.cc:188-298 | charging, waking, adding a runnable child and removing keep all runnable passes within the largest charge of the minimum |
| `Stride.PassIsService` | bess/core/traffic_class.cc:271-298 | a child that stays runnable has its pass moved by exactly what it is charged |
| `Stride.PenaltyIsPaid` | bess/core/traffic_class.cc:248-286 | what a blocking child used and was not charged puts it as far behind the minimum when it wakes |
| `Stride.Fairness` | bess/core/traffic_class.cc:188-298 | over any run the share-scaled service of two continuously runnable children differs by at most twice the largest charge |
| `Stride.WakeKeepsWithinIff` | bess/core/traffic_class.cc:248-254 | waking a child keeps the runnable passes within the bound exactly when no child is runnable or the stored value lies between the greatest pass less the least and the bound, and the bound |
| `Stride.AddBlockedLosesFairness` | bess/core/traffic_class.cc:195-197 | a run in which a child added while blocked wakes a thousand behind, and the service of two runnable children then differs by more than twice the largest charge |
| `TokenBucket.Charge` | bess/core/traffic_class.cc:488-511 | a limiter that exceeded its tokens has none left and, with a positive limit, waits for the cycles whose credit makes up for the excess, short by less than one cycle's; otherwise it keeps what is left of the tokens up to the burst and does not wait |
| `TokenBucket.StepPaid` | bess/core/traffic_class.cc:476-511 | the work of one event is paid for by tokens, elapsed cycles, and less than one limit per throttling |
| `TokenBucket.RunPaid` | bess/core/traffic_class.cc:476-511 | the same bound over any run |
| `TokenBucket.RunEarned` | bess/core/traffic_class.cc:476-511 | over any run, work and tokens left are at least the initial tokens and the limit times the cycles up to the end, but for cycles skipped by unblocking and tokens above the burst |
| `TokenBucket.StepPaidByTimeIff` | bess/core/traffic_class.cc:476-481 | tokens, elapsed time and throttlings pay for an event exactly when it is not an unblocking at a time before the last accounting of a limiter that does not wait |
| `TokenBucket.RunPaidByTimeIff` | bess/core/traffic_class.cc:476-511 | they pay for every event of a run exactly when no event sets the clock back; then they pay for the run as a whole |
| `TokenBucket.RewindCountsTwice` | bess/core/traffic_class.cc:476-481 | a run in which an earlier unblock time credits the same cycles twice |
| `TokenBucket.OneSecondOfCredit` | bess/core/traffic_class.h:537-550 | one second of credit is the configured rate, short by less than one work unit per cycle |
| `TrafficClass.BlockedIffNoRunnableChild` | bess/core/traffic_class.cc:129-428 | a priority, weighted-fair or round-robin class is blocked exactly when all its children are |
| `TrafficClass.UnblockedIffCanRun` | bess/core/traffic_class.cc:129-521 | in a consistent tree with positive limits, a class is unblocked exactly when some leaf below it waits for nothing, and no limiter on the way is throttled |
| `TrafficClass.PickIsRunnable` | bess/core/traffic_class.cc:125-127 | an unblocked inner class picks one of its children, and that one is unblocked |
| `TrafficClass.PickIsFirst` | bess/core/traffic_class.cc:240-242 | the child picked has the smallest priority number among the unblocked, or the least pass |
| `TcUnblock.WakeAllSound` | bess/core/traffic_class.cc:244-257 | waking moves exactly the unblocked children from the blocked list to the queue |
| `TcUnblock.AwakeInOrder` | bess/core/traffic_class.cc:374-386 | in a round robin the children keep their order on the list they go to or stay on |
| `TcUnblock.UnblockNodeSound` | bess/core/traffic_class.cc:129-481 | a class of any kind agrees with its children after its own part of unblocking, and never becomes blocked by it |
| `TcUnblock.UnblockUpSound` | bess/core/traffic_class.h:231-240 | unblocking from any class that missed a wakeup leaves every class of the tree consistent, blocks none, and keeps hierarchy and wakeup times |
| `TcUnblock.UnblockUpInOrder` | bess/core/traffic_class.cc:244-257 | priority lists and passes stay sorted, and limiters count from the time given |
| `TcBlock.BlockRingSound` | bess/core/traffic_class.cc:388-405 | the erase loop of the round robin moves exactly the blocked children and keeps its position inside the list |
| `TcBlock.BlockNodeSound` | bess/core/traffic_class.cc:140-486 | a class of any kind agrees with its children after its own part of blocking, and never becomes unblocked by it |
| `TcBlock.BlockUpSound` | bess/core/traffic_class.h:244-253 | blocking from any class that lost a runnable child leaves every class consistent, unblocks none, and keeps hierarchy and wakeup times |
| `TcAccount.NextEndsAtLeaf` | bess/core/scheduler.h:181-195 | from an unblocked root the descent ends at an unblocked leaf, picked by every class above it |
| `TcAccount.AccountNodeSound` | bess/core/traffic_class.cc:149-521 | a class of any kind agrees with its children after accounting, and gets a wakeup time exactly when it is throttled |
| `TcAccount.ThrottledAbove` | bess/core/traffic_class.cc:503-507 | each class put on the wakeup queue lies above the leaf, and is put there once |
| `TcAccount.FinishUpSound` | bess/core/traffic_class.cc:149-521 | accounting from the leaf that ran, blocked or not, leaves every class consistent and gives a wakeup time to exactly the throttled classes |
| `TcTree.InsertPrioSorted` | bess/core/traffic_class.cc:87-96 | inserting a new priority keeps the children sorted |
| `TcTree.AddChildSound` | bess/core/traffic_class.cc:81-457 | a successful `AddChild` of any kind hangs exactly that child below the class and leaves every class consistent |
| `TcTree.RemoveChildSound` | bess/core/traffic_class.cc:104-470 | a successful `RemoveChild` of any kind unlinks exactly that child and leaves every class consistent |
| `TcEffects.AddToPriority` | bess/core/traffic_class.cc:81-102 | after `AddChild` the children are the old ones with their numbers and the new one with the number asked for, in order; the new child is picked next exactly if it is runnable and comes before every runnable one, else the pick stays |
| `TcEffects.AddToWeightedFair` | bess/core/traffic_class.cc:188-206 | after `AddChild` there is one new entry, with stride times share 2^20 and the least pass, on the list of its flag; every other entry keeps list, stride and pass |
| `TcEffects.AddToRoundRobin` | bess/core/traffic_class.cc:310-327 | after `AddChild` the child is last on the list of its flag, and the turn stays if there was one |
| `TcEffects.AddToRateLimit` | bess/core/traffic_class.cc:446-457 | after `AddChild` the limiter has the child, keeps its tokens and counts from now |
| `TcEffects.RemoveFromPriority` | bess/core/traffic_class.cc:104-123 | after `RemoveChild` the child's entry is gone, and the pick stays unless it was that child |
| `TcEffects.RemoveFromWeightedFair` | bess/core/traffic_class.cc:208-238 | after `RemoveChild` an entry of the child is gone from one list, and the rest is as it was |
| `TcEffects.RemoveFromRoundRobin` | bess/core/traffic_class.cc:329-368 | after `RemoveChild` the child is gone from its list; the turn stays, or passes to the child behind it if it was its own |
| `TcEffects.RemoveFromRateLimit` | bess/core/traffic_class.cc:459-470 | after `RemoveChild` the limiter has no child and keeps tokens and times |
| `TcEffects.OperationKeepsSettings` | bess/core/traffic_class.cc:81-521 | no operation anywhere in the tree changes the kind, resource, limit, burst or wait of a class, or the number or stride of a child that stays |
| `TcTree.AttachableIff` | bess/core/traffic_class.h:182-183 | a tree can be hung below a class without a cycle, that is some ranking of the classes allows it, exactly when its root is not the root above that class |
| `TcTree.CreatedSound` | bess/core/traffic_class.h:659-667 | a new class has no parent, is blocked unless it is a leaf, is as it was configured, and leaves every class consistent and the others as they were |
| `TcTree.DeletedSound` | bess/core/scheduler.h:146-162 | deleting a class without parent and children leaves the others consistent |
| `TcPolicies.AccountIsCharge` | bess/core/traffic_class.cc:271-298 | accounting at a weighted-fair class is one charge step for the child that was picked |
| `TcPolicies.UnblockIsWakes` | bess/core/traffic_class.cc:244-257 | unblocking a weighted-fair class is a run of wake steps |
| `TcPolicies.UnblockKeepsSpread` | bess/core/traffic_class.cc:244-257 | unblocking never spreads the passes |
| `TcPolicies.BlockKeepsSpreadIff` | bess/core/traffic_class.cc:259-269 | `BlockTowardsRoot` keeps the spread exactly when the pass it stores could be a penalty, and the child's later wakeup keeps the runnable passes together exactly when none is runnable or that pass lies in the window for them |
| `TcPolicies.AddKeepsSpreadIff` | bess/core/traffic_class.cc:188-206 | `AddChild` keeps the spread exactly when the child is runnable or the least pass could be a penalty; the same window decides about its later wakeup |
| `TcPolicies.BlockRouteLosesFairness` | bess/core/traffic_class.cc:244-269 | a run through `BlockTowardsRoot` and `UnblockTowardsRoot` in which the service of two runnable children differs by more than twice the largest charge |
| `TcPolicies.RemoveChildKeepsSpread` | bess/core/traffic_class.cc:208-238 | `RemoveChild` never spreads the passes |
| `TcRing.AccountPassesTurnIff` | bess/core/traffic_class.cc:407-422 | after a round robin accounts for a count of 0 or 1, it is the turn of the child behind the one picked exactly when that one blocked or the count is 1; it stays exactly when it did not block and the count is 0; for any other count the turn moves by that many children |
| `TcRing.IdleLeafKeepsTurn` | bess/core/scheduler.h:361-372 | a tree in which a leaf that was idle leaves the turn of the round robin above its parent where it was |
| `TcRing.EraseKeepsTurn` | bess/core/traffic_class.cc:389-399 | erasing a child from the ring leaves the turn where it was, or passes it on if it was that child's |
| `TcRing.UnblockKeepsTurn` | bess/core/traffic_class.cc:374-386 | children that wake up do not change whose turn it is |
| `TcRing.BlockKeepsTurns` | bess/core/traffic_class.cc:388-403 | `BlockTowardsRoot` takes the blocked children out of the order of turns and leaves the rest of that order as it was |
| `TcRing.UnblockTurns` | bess/core/traffic_class.cc:374-386 | `UnblockTowardsRoot` puts the children that woke up, in their order, behind the last position of the ring |
| `TcRing.EveryChildHasItsTurn` | bess/core/traffic_class.cc:407-422 | over any run of accounting at a round robin, blocking and idle rounds mixed in, until as many rounds have moved on as there were runnable children, each of these was picked for a round that moved on exactly once, in the order of the ring |
| `TcWalks.FinishUpAt` | bess/core/traffic_class.cc:149-521 | accounting from a leaf updates a class exactly when it lies above the leaf, once, for the child it picked |
| `TcWalks.UnblockUpAt` | bess/core/traffic_class.h:231-240 | a walk of unblocking updates a class at most once, from its own fields |
| `TcWalks.BlockUpAt` | bess/core/traffic_class.h:244-253 | so does a walk of blocking |
| `TcWalks.OperationUpdates` | bess/core/traffic_class.cc:81-521 | every operation acts on a class by a series of accounting, unblocking, waking, blocking and listing, at the times and with the usage it was called with, and by nothing else |
| `TcWalks.WakeUpdates` | bess/core/scheduler.h:106-120 | waking reaches a class at the wakeup times of woken classes that are that class or lie below it, in the order of these times |
| `TcFairness.OperationMoves` | bess/core/traffic_class.cc:188-298 | every operation anywhere in the tree keeps the passes of a weighted-fair class together and moves a child that stays runnable by what the class charges for it; a removal further down only if it blocks no runnable child of the class, and an addition to the class only of a runnable child |
| `TcFairness.ClassFairness` | bess/core/traffic_class.cc:188-298 | over any run of accounting, unblocking, adding and removing anywhere in the tree, the share-scaled service of two children of a class that stay runnable differs by at most twice the largest charge |
| `TcFairness.StrideStays` | bess/core/traffic_class.cc:188-298 | a child that stays keeps its stride, whatever happens in the tree |
| `TcFairness.FairInShares` | bess/core/traffic_class.cc:188-298 | over any such run the amounts of the resource that two children get, per unit of the shares they were added with, differ by at most the largest charge over 512 |
| `TcTokens.WakingCountsFrom` | bess/core/scheduler.h:106-120 | `WakeTCs` leaves tokens, limit and burst of every limiter alone; a limiter goes on counting from where it did or from the wakeup time of a woken class that is itself or lies below it, and one that was woken from its own wakeup time or later, but before the time of the call |
| `TcTokens.UnblockingCountsFrom` | bess/core/traffic_class.cc:476-481 | unblocking leaves tokens alone; a limiter that is unblocked counts from the time given |
| `TcTokens.OperationIsEvents` | bess/core/traffic_class.cc:476-521 | every operation acts on a limiter by possible token-bucket events, at the times and with the usage it was called with |
| `TcTokens.LimiterBoundsTree` | bess/core/traffic_class.cc:476-521 | over any run of operations anywhere in the tree, exactly the work of the leaves below a limiter is charged to it, and tokens, elapsed and set-back cycles and one limit per throttling pay for it; but for skipped cycles and cut-off tokens nothing of that is lost |
| `TcPolicies.LimiterEvents` | bess/core/traffic_class.cc:476-521 | what the tree does to a limiter is a possible event of the token bucket |
| `TcPolicies.LimiterHeldIff` | bess/core/traffic_class.cc:488-515 | after accounting a limiter is blocked for a reason that can pass exactly when it has a positive limit, or kept within its tokens, or its child is blocked |
| `TcPolicies.ZeroLimitStaysBlocked` | bess/core/traffic_class.cc:488-515 | a limiter with limit 0 is blocked above a runnable child, with no wakeup time and no other reason |
| `SchedulerSpec.QueuePush` | bess/core/scheduler.h:67 | queueing a class that just got a wakeup time keeps the queue sorted, free of duplicates, and equal to the classes with a wakeup time |
| `SchedulerSpec.WakeOne` | bess/core/scheduler.h:106-120 | taking the earliest class off the queue and unblocking from it leaves tree and queue consistent |
| `SchedulerSpec.WakeDueSound` | bess/core/scheduler.h:106-120 | exactly the classes whose wakeup time lies before the time given are woken; none becomes blocked, and every class is consistent |
| `SchedulerSpec.WaitStaysBounded` | bess/core/scheduler.h:361-375 | after any row of idle and productive runs the wait lies between one cycle and 2^20; `InOrder`, part of the scheduler's `Valid`, holds every leaf to these bounds |
| `SchedulerSpec.ShorterUndoesLonger` | bess/core/scheduler.h:361-375 | a productive run takes back an idle one exactly when doubling stayed within the maximum |
| `SchedulerSpec.AllIdle` | bess/core/scheduler.h:361-364 | after n idle runs the wait is 2^n times the first, capped at 2^20 |
| `SchedulerSpec.IdleLeafWaits` | bess/core/scheduler.h:361-367 | after an idle run the leaf has twice the wait, capped at 2^20, and is blocked until that many cycles from now; no other class changes |
| `SchedulerSpec.BusyLeafWaits` | bess/core/scheduler.h:374-375 | after a productive run the leaf has half the wait, rounded up, and is otherwise as it was |
| `Scheduling.Scheduler.UnblockTowardsRoot` | bess/core/traffic_class.cc:129-481 | the loops over the lists and the walk up have exactly the effect of `UnblockUp` |
| `Scheduling.Scheduler.BlockTowardsRoot` | bess/core/traffic_class.cc:140-486 | the loops over the lists and the walk up have exactly the effect of `BlockUp` |
| `Scheduling.Scheduler.AccountChild` | bess/core/traffic_class.cc:149-521 | the update of one class on accounting, for every kind |
| `Scheduling.Scheduler.FinishAndAccountTowardsRoot` | bess/core/traffic_class.cc:149-521 | has exactly the effect of `FinishUp` and keeps the wakeup queue equal to the classes with a wakeup time |
| `Scheduling.Scheduler.WakeTCs` | bess/core/scheduler.h:106-120 | wakes exactly the classes whose time has passed and keeps tree and queue consistent |
| `Scheduling.Scheduler.Next` | bess/core/scheduler.h:181-195 | returns nothing exactly when there is no unblocked root, and otherwise the leaf that the tree picks, which is unblocked |
| `Scheduling.Scheduler.ScheduleOnce` | bess/core/scheduler.h:255-302 | one round wakes, runs and accounts; scheduler and tree stay consistent |
| `Scheduling.Scheduler.BackOff` | bess/core/scheduler.h:361-375 | an idle leaf is blocked with its wait doubled, capped at 2^20, and queued; a productive one has it halved, rounded up |
| `Scheduling.Scheduler.ScheduleOnceWithBackoff` | bess/core/scheduler.h:342-396 | one round of the experimental scheduler; an idle leaf is charged nothing |
| `Scheduling.Scheduler.CreateTrafficClass` | bess/core/traffic_class.h:659-667 | fails exactly when the name is taken |
| `Scheduling.Scheduler.ListChild` | bess/core/traffic_class.cc:81-457 | refuses exactly a child with a parent, a taken priority, a share of 0, or a second child of a limiter |
| `Scheduling.Scheduler.AddChild` | bess/core/traffic_class.cc:81-457 | refusal changes nothing; success has the effect of `AddChildTo` and keeps the scheduler consistent |
| `Scheduling.Scheduler.UnlistChild` | bess/core/traffic_class.cc:104-470 | the lists without the child, and whether the parent need not be told |
| `Scheduling.Scheduler.RemoveChild` | bess/core/traffic_class.cc:104-470 | succeeds exactly for a child of the class, has the effect of `RemoveChildFrom`, and keeps the scheduler consistent |
| `Scheduling.Scheduler.AttachOrphan` | bess/core/scheduler.h:127-142 | the orphan becomes the root, or joins the default round robin; if there is none, one is made that holds the old root and the orphan, in this order, each on the list of its flag, and nothing else changes |
| `Scheduling.Scheduler.AdjustDefault` | bess/core/scheduler.h:146-162 | a default round robin with no child disappears, with one child gives way to it, with more stays |
| `Scheduling.Scheduler.RemoveRoot` | bess/core/scheduler.h:166-172 | the root is given up exactly when it is the class named and no default round robin exists |
| `TcLists.ScanRunnable` | bess/core/traffic_class.cc:129-147 | the loop stops at the first child that is not blocked |
| `TcLists.WakeSleepers` | bess/core/traffic_class.cc:246-254 | the loop over the blocked list wakes the unblocked children one by one, each from the then current minimum |
| `TcLists.WakeWaiting` | bess/core/traffic_class.cc:376-383 | the loop over the blocked list appends the unblocked children in order |
| `TcLists.DropBlocked` | bess/core/traffic_class.cc:259-266 | the first blocked child leaves the queue for the blocked list |
| `TcLists.DropBlockedFromRing` | bess/core/traffic_class.cc:388-403 | the erase loop with its adjustment of the next child |
| `TcLists.InsertSorted` | bess/core/utils/common.h:175-187 | appending and swapping backwards inserts in order |
| `Workers.StepKeepsInv` | bess/core/worker.cc:108-140 | every step of the master or of any worker keeps the protocol invariant |
| `Workers.RunKeepsInv` | bess/core/worker.cc:108-140 | so does every run |
| `Workers.ReachableSafety` | bess/core/worker.cc:253-274 | in every reachable state a held worker runs no task, an eventfd holds only the signal the master waits for, and no worker runs before it was paused once |
| `Workers.HeldUntilSignal` | bess/core/worker.cc:129-140 | only the write of a resume or quit signal to it ends the time in which a worker is held |
| `Workers.PauseReturnsHeld` | bess/core/worker.cc:108-117 | when a pause returns its worker is held |
| `Workers.NoneRunningNoTask` | bess/core/worker.cc:220-230 | if no worker is seen running and no call is under way, no worker runs a task |
| `Workers.MasterWaitsForMovingWorker` | bess/core/worker.cc:114-138 | whenever the master spins, its wait is over or the worker it waits for can move |
| `Workers.StepGoesOn` | bess/core/worker.cc:108-140 | no step takes a call back, and each step of the one whose turn it is takes it on |
| `Workers.CallReturns` | bess/core/worker.cc:108-140 | whatever the interleaving, a call returns with its goal reached after as many rounds as there are steps left, in each of which master and workers move |
| `Workers.ResumeReturns` | bess/core/worker.cc:129-140 | a paused worker that is resumed runs in the end, and is no longer held |
| `Workers.PauseReturns` | bess/core/worker.cc:108-117 | a worker that is paused is held in the end |
| `Workers.LaunchReturns` | bess/core/worker.cc:312-361 | a worker launched under an unused id is listed and held in the end |
| `Workers.DestroyReturns` | bess/core/worker.cc:182-198 | an id whose worker is destroyed is free in the end |
| `Workers.PauserHolds` | bess/core/worker.cc:421-431 | a run of pause calls ends with every worker it called for held |
| `Workers.PausedAllNoTask` | bess/core/worker.cc:421-434 | after pause calls for exactly the workers seen running no worker runs a task |
| `DmaPool.CanonicalUnique` | bess/core/memory.cc:402-445 | a sorted list of regions that neither overlap nor touch is determined by the addresses it covers |
| `DmaPool.DmaMemoryPool.constructor` | bess/core/memory.cc:269-292 | the initial free list covers exactly the pages collected, and the byte count is their sum |
| `DmaPool.DmaMemoryPool.AddRegion` | bess/core/memory.cc:402-445 | covers exactly the old addresses and the new region, and no two regions touch |
| `DmaPool.DmaMemoryPool.Alloc` | bess/core/memory.cc:317-342 | first fit; fails exactly when no region is large enough, changing nothing; pool and blocks still partition the pages |
| `DmaPool.DmaMemoryPool.AllocUpto` | bess/core/memory.cc:344-366 | returns the size asked for exactly when some region has it, else the whole largest region, never more than asked |
| `DmaPool.DmaMemoryPool.Free` | bess/core/memory.cc:368-380 | exactly the block returns to the free list; null is allowed |
| `DmaPool.DmaMemoryPool.AllocThenFree` | bess/core/memory.cc:317-380 | allocating and freeing restores the free list, the blocks and the byte count exactly |
| `DmaPool.DmaMemoryPool.FreeAll` | bess/core/memory.cc:368-380 | freeing every block in any order restores the initial free list |
| `DmaPool.TakenSound` | bess/core/memory.cc:326-337 | taking a block out of the free list keeps free regions and blocks a partition of the pages |
| `DmaPool.ReleasedSound` | bess/core/memory.cc:374-379 | returning a block to the free list keeps free regions and blocks a partition of the pages |
| `DmaPool.TakeReleaseUndone` | bess/core/memory.cc:317-380 | taking a block and releasing it restores the free list exactly |
| `DmaPool.NothingAllocated` | bess/core/memory.cc:368-380 | with no block left the free list is the initial one |

## Left out

- Congestion estimation of FlowBundler (`flow_hash`, `update_congestion`, `cong_rate`): the rate a packet is enqueued with is an input.
- GSO segmentation, the rate-0 FIFO bypass, socket state, netlink dump, statistics and module registration of the three queueing disciplines.
- Qdisc reset, change and destroy: the invariants describe the queues between initialisation and reset.
- Clocks: every operation takes the time as an argument.
- 64-bit overflow: numbers are unbounded. FlowBundler's times are required to be below 2^62, and token products are not wrapped.
- FlowBundler's `MIN_GRAN_SCALE` is fixed at 0, as in the source.
- Linked lists of packets in a bucket: a bucket is a sequence, so the `next` pointers are not modelled.
- Traffic-class objects: a class is a value in a store of the scheduler and an id stands for the pointer, so aliasing of class objects is not modelled; the destructors and `all_children_`, a copy of the two lists, are left out.
- The layout of the binary heaps: the runnable children and the wakeup queue are sorted sequences, so the order among equal passes or equal wakeup times is one of those the heap allows.
- Passes are real numbers, so rounding of doubles is not modelled.
- Usage statistics of traffic classes and schedulers.
- Reconfiguring a class in place (`set_limit`, `set_max_burst`, `set_resource`).
- A class that is deleted while it waits on the wakeup queue: the source leaves a dangling entry, and the model deletes default round robins only, which never wait.
- Scheduling.Scheduler.AddChild: requires that the child is not the root above the new parent and not the scheduled root, which the source leaves to its callers.
- Scheduling.Scheduler.AttachOrphan: requires an orphan other than the root and an unused name for the default round robin.
- Workers.CallStep: launching an id that is active already is a no-op, which the source leaves to its caller.
- The task a leaf runs: its result and the time it ends are inputs of `ScheduleOnce`.
- Threads, affinity, TLS and resume hooks of the workers: the protocol is modelled over sequentially consistent memory.
- Hugepage allocation and the failed initialisation of the DMA pool: the pages collected are an input of the constructor.
- The DMA pool reads a region's size after erasing it from the set (`bess/core/memory.cc:328-334`, `:363-364`); the model reads it before.
- The `CHECK`s of the DMA pool on the caller's arguments are preconditions; those on its own state are proved.
- Metadata offsets, input-gate priorities, the module graph, gRPC control, plugins and user interfaces.
