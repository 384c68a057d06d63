# Verified model of the rdb teaching middleware

A Dafny model of the concurrent, streaming and distributed parts of the middleware, with proofs of
the properties they are for. `dafny verify dfyconfig.toml` checks the whole project.

| file | what it models |
|---|---|
| `SpscRing.dfy` | the lock-free single-producer single-consumer ring, step by step, with stale index loads and 64-bit wrap-around |
| `BoundedQueue.dfy` | the bounded queue as a monitor with two explicit wait sets |
| `ThreadPool.dfy` | the thread pool as a client of that monitor, and the termination of `stop` |
| `TopicBus.dfy` | publish-subscribe with late joiners, quality of service, one queue and worker per subscriber |
| `Framing.dfy` | the frame encoder and the streaming decoder over a compacting buffer |
| `Histogram.dfy` | the log-bucket histogram in 64-bit arithmetic |
| `ApproxTimeSync.dfy`, `DagExecutor.dfy` | the synchroniser and the frame scheduler of chapter 7 |
| `Lease.dfy`, `StateReplica.dfy` | leases with fencing and the state replica of chapter 9 |
| `Header.dfy` | the header codec and the FNV-1a fingerprint |
| `Bits.dfy`, `Bytes.dfy`, `Common.dfy` | bit operations, little-endian bytes, options and sizes |

Each concurrent component is modelled twice. A value-level state machine has one event per stretch
of code that runs atomically (under a mutex, or one shared access), and the laws are proved for
every sequence of enabled events. A class with the source's fields holds the same stretches in
place, and each of its methods is proved to do what the step of the machine does: its contract
equates the new state with the function that the machine uses, or, where the object holds only part
of the machine's state, says that an object holding a state holds the next one afterwards. Fields
that only record the past (accepted items, logs, attempts) carry the laws; no step depends on them.

In the ring, a load of the other thread's index may return any value stored since the last one
seen; a slot becomes visible with the release store that publishes it. In the topic bus a push to a
subscriber is one step, at the moment its outcome is decided: a publisher that would wait is not
enabled until there is room, the queue closes, or its timeout passes. Time is an arbitrary
nondecreasing input in the leases and in the workers of the bus, and a free choice of events
elsewhere. Unbounded integers stand for counters; words whose wrap-around matters (ring indices, all
words of the histogram, FNV states, bytes) are modelled with their width.

## Model

| member | source | states |
|---|---|---|
| `SpscRing.RoundUpPow2` | code/include/rdb/concurrency/spsc_ring.h:14-21 | The smearing loop returns the least power of two that is at least 2 and at least `v`, for every `v` up to 2^63; above that the result wraps to 0. |
| `SpscRing.StepRefines` | code/include/rdb/concurrency/spsc_ring.h:37-59 | Each micro-step of the 64-bit ring (own load, possibly stale refresh, slot access, release store) is the same step of a ring with unbounded counters, across every wrap-around; the invariant is kept. |
| `SpscRing.StepReflects` | code/include/rdb/concurrency/spsc_ring.h:37-59 | Conversely, whatever the unbounded ring can do next the 64-bit ring can do: the wrapped full and empty tests never block a step that should be possible. |
| `SpscRing.RingIsFifo` | code/include/rdb/concurrency/spsc_ring.h:37-59 | Under every interleaving and every staleness of the cached indices, what was popped is a prefix of what was pushed, at most one capacity is outstanding, and the masked slots hold exactly the unpopped values. |
| `SpscRing.NoSlotRace` | code/include/rdb/concurrency/spsc_ring.h:43-57 | The producer about to write and the consumer about to read are never at the same slot, and each stays within what it has seen of the other. |
| `SpscRing.GivingUp` | code/include/rdb/concurrency/spsc_ring.h:39-55 | `push` gives up after a refresh exactly when the ring is full by the index it has just loaded; `pop` exactly when it is empty by the index just loaded. |
| `SpscRing.OwnerSize` | code/include/rdb/concurrency/spsc_ring.h:61-65 | `size()` called by either owning thread, however stale its view of the other, equals the outstanding values in that view and stays within 0..capacity. |
| `SpscRing.OutsiderSizeUnderflows` | code/include/rdb/concurrency/spsc_ring.h:61-65 | From every initial ring there is a run in which a third thread, loading `write_` before and `read_` after it, computes 2^64 - 1. |
| `SpscRing.OutsiderSizeInRun` | code/include/rdb/concurrency/spsc_ring.h:61-65 | For any two points of any run, what a third thread computes from the write index at the first and the read index at the second is right if and only if no more was popped by then than had been pushed; short of a whole turn in between, that is also exactly when it is within 0..capacity. |
| `SpscRing.OutsiderSizeExactly` | code/include/rdb/concurrency/spsc_ring.h:61-65 | The same for arbitrarily stale loads: any two entries of the two modification orders. |
| `SpscRing.PushAloneSteps` | code/include/rdb/concurrency/spsc_ring.h:37-47 | A whole `push` with nothing in between appends to the pending values exactly when there is room, and keeps the invariant of the protocol. |
| `SpscRing.PopAloneSteps` | code/include/rdb/concurrency/spsc_ring.h:50-59 | A whole `pop` takes the oldest pending value exactly when there is one. |
| `SpscRing.SpscRing.Push` | code/include/rdb/concurrency/spsc_ring.h:37-47 | The in-place method is the composition of the micro-steps and succeeds exactly when the ring is not full. |
| `SpscRing.SpscRing.Pop` | code/include/rdb/concurrency/spsc_ring.h:50-59 | The in-place method returns the oldest value, or fails on exactly the empty ring and leaves its output alone. |
| `SpscRing.SpscRing.Size` | code/include/rdb/concurrency/spsc_ring.h:61-65 | Called by an owner with nothing in between, it is the number of pending values. |
| `BoundedQueue.NoLostWakeup` | code/include/rdb/concurrency/bounded_queue.h:51-132 | In every reachable state of the monitor, with spurious wakeups, timeouts and close in pieces: while open, sleeping consumers imply at most as many items as consumers on their way, and likewise for producers and free slots; so when nobody is on the way, only consumers sleep on an empty queue or only producers on a full one. |
| `BoundedQueue.QueueLaw` | code/include/rdb/concurrency/bounded_queue.h:55-131 | In every reachable state the capacity (at least 1) and the policy are those of the construction; the accepted items in lock order are the removed ones (popped, evicted, cleared) followed by the queue; `dropped_` is evictions plus refused newest; `high_water_` is the largest size ever and at most the capacity. |
| `BoundedQueue.CallersAreToldTheTruth` | code/include/rdb/concurrency/bounded_queue.h:51-114 | Over every run, from the results of the calls alone: `Full` is told only to a try or after a passed deadline on a Block queue, so a push without a deadline ends only in acceptance, in what DropNewest or DropOldest prescribe, or in `Closed`; `Closed` only when closed; a pop without a deadline finds nothing only when closed. The items whose callers were told that they got in are, in order, exactly the accepted ones; the items handed to callers are, in order, exactly those taken. |
| `BoundedQueue.EndIsTrue` | code/include/rdb/concurrency/bounded_queue.h:51-114 | The step form: at the moment a call ends, what it is told is true, and the records change by exactly its own item. |
| `BoundedQueue.PushOnFullQueue` | code/include/rdb/concurrency/bounded_queue.h:57-74 | A push on a full open queue: DropNewest keeps the items and counts, DropOldest loses exactly the oldest, Block waits, or reports `Full` to a try. |
| `BoundedQueue.PromptCallsEnd` | code/include/rdb/concurrency/bounded_queue.h:96-107 | A try, and a call whose deadline has passed, ends at once and leaves nobody waiting. |
| `BoundedQueue.SignalsExactly` | code/include/rdb/concurrency/bounded_queue.h:66-112 | One sleeping consumer is woken by exactly the pushes that got an item in, evicting ones included, and one sleeping producer by exactly the pops that took one out. |
| `BoundedQueue.StepKeepsInv` | code/include/rdb/concurrency/bounded_queue.h:51-132 | Every lock-held stretch keeps books, wait-set roles and the wakeup debt. |
| `BoundedQueue.AfterPushWakeups` | code/include/rdb/concurrency/bounded_queue.h:66-79 | One notification per accepted item is enough to keep every queued item covered by a consumer on its way. |
| `BoundedQueue.AfterPopWakeups` | code/include/rdb/concurrency/bounded_queue.h:108-113 | One notification per removed item keeps every free slot covered by a producer on its way. |
| `BoundedQueue.CloseWakeups` | code/include/rdb/concurrency/bounded_queue.h:116-132 | Between the flag and the two notifications of `close`, every sleeper is still owed a signal; `clear` wakes all producers. |
| `BoundedQueue.BoundedQueue.PushUntil` | code/include/rdb/concurrency/bounded_queue.h:51-80 | From taking the lock to the return or the wait: all three overflow policies, in place, as the step that `PushOnFullQueue`, `CallersAreToldTheTruth` and the wakeup laws are about. |
| `BoundedQueue.BoundedQueue.PushAfterWait` | code/include/rdb/concurrency/bounded_queue.h:72-80 | Back from the wait: closed, room, or timed out, as the monitor step `ResumePush`. |
| `BoundedQueue.BoundedQueue.PopUntil` | code/include/rdb/concurrency/bounded_queue.h:96-113 | Takes the oldest item even after close; reports nothing only when empty. |
| `BoundedQueue.BoundedQueue.Close` | code/include/rdb/concurrency/bounded_queue.h:116-123 | Only the flag changes: queued items stay to be drained. |
| `BoundedQueue.BoundedQueue.Clear` | code/include/rdb/concurrency/bounded_queue.h:125-132 | Everything queued is discarded and nothing else changes. |
| `ThreadPool.StopSettlesEveryTask` | code/include/rdb/concurrency/thread_pool.h:65-89 | When the winning `stop` has returned, every accepted task was either run to the end exactly once or discarded by the clear of `stop(false)`; after `stop(true)` all of them ran, in lock order. |
| `ThreadPool.PostsAreRefusedRightly` | code/include/rdb/concurrency/thread_pool.h:39-46 | In every reachable pool a `post` that ends was accepted or found the queue closed: on a full queue it waits. `try_post` is refused only by a full or a closed queue, and success means that exactly this task was accepted. |
| `ThreadPool.StepKeepsPool` | code/include/rdb/concurrency/thread_pool.h:39-89 | The ledger of tasks, the once-each property and the queue monitor invariant are kept by every step of posters, workers and stoppers. |
| `ThreadPool.StopMakesProgress` | code/include/rdb/concurrency/thread_pool.h:65-89 | After close every step, except calls that find the queue closed, strictly decreases a measure over queue, waiters, workers and running tasks. |
| `ThreadPool.LateChangesNothing` | code/include/rdb/concurrency/thread_pool.h:39-46 | Those late calls change nothing. |
| `ThreadPool.StopIsNeverStuck` | code/include/rdb/concurrency/thread_pool.h:65-74 | Until `stop` has returned some step other than a spurious wakeup is possible: with the measure, `stop` terminates if tasks do. |
| `ThreadPool.ThreadPool.TryPost` | code/include/rdb/concurrency/thread_pool.h:44-46 | Succeeds exactly when the queue is open and not full; on an object that holds a pool, it is the step `PoolNext` of that pool. |
| `ThreadPool.ThreadPool.Post` | code/include/rdb/concurrency/thread_pool.h:39-41 | `post` up to a return or to the wait for space, in place, as the step of the pool that `PostsAreRefusedRightly` is about. |
| `ThreadPool.ThreadPool.PostAfterWait` | code/include/rdb/concurrency/thread_pool.h:39-41 | `post` back from the wait, as a step of the pool. |
| `ThreadPool.ThreadPool.TakeTask` | code/include/rdb/concurrency/thread_pool.h:84-85 | A worker's `pop` up to a return or to the wait, as a step of the pool. |
| `ThreadPool.ThreadPool.TakeAfterWait` | code/include/rdb/concurrency/thread_pool.h:84-85 | The same, back from the wait. |
| `ThreadPool.ThreadPool.FinishTask` | code/include/rdb/concurrency/thread_pool.h:86-87 | The task has returned and is counted: a step of its own. |
| `ThreadPool.ThreadPool.RunOnce` | code/include/rdb/concurrency/thread_pool.h:82-89 | One round of the worker without interference: the object then holds the pool after taking and finishing the task. |
| `ThreadPool.ThreadPool.ClaimStop` | code/include/rdb/concurrency/thread_pool.h:66-67 | The exchange of the flag: only the first call goes on. |
| `ThreadPool.ThreadPool.ClearQueue` | code/include/rdb/concurrency/thread_pool.h:68 | Discards what is queued, as a step of the pool. |
| `ThreadPool.ThreadPool.CloseQueue` | code/include/rdb/concurrency/thread_pool.h:69 | Sets the flag of the queue, as a step of the pool. |
| `ThreadPool.ThreadPool.BeginStop` | code/include/rdb/concurrency/thread_pool.h:65-69 | Run without interference: only the first caller wins, clears only when not draining, and closes; the object then holds the pool after exactly the steps claim, clear, close. |
| `TopicBus.RequestedVersusOffered` | code/include/rdb/bus/qos.h:69-84 | Compatible means exactly that no policy requests more than is offered (RxO, section 2.2.3 of OMG DDS 1.4), and the mismatch reported is the first of reliability, durability, deadline that does; compatibility composes and every profile is compatible with itself. |
| `TopicBus.EveryPushIsAccountedFor` | code/include/rdb/bus/topic_bus.h:301-365 | In every reachable state each subscriber's attempted pushes are delivered, expired, evicted, refused, queued or in the worker's hand; a Reliable one loses nothing queued, an open BestEffort one refuses nothing, nothing expires without a lifespan, missed deadlines are fewer than deliveries; the bus mismatch count is the sum of all rejections; each subscription is reported at most once, and exactly if it had a rejection. |
| `TopicBus.NoGapNoDuplicate` | code/include/rdb/bus/topic_bus.h:155-166 | For every subscriber: each envelope published between joining and leaving is exactly one of rejected, tried once, or pending with the thread that published it; the backlog is tried in order, each entry once. |
| `TopicBus.LivePushesAreCompatible` | code/include/rdb/bus/topic_bus.h:302-314 | No live push, under any interleaving, carries an offer weaker than the subscriber requested. |
| `TopicBus.DeliveredOnceInOrder` | code/include/rdb/bus/topic_bus.h:323-365 | Each envelope is delivered at most once; envelopes of one publishing thread are delivered in increasing order despite eviction, refusal and expiry, unless a live push of a thread overtook an envelope of its own in the backlog; always in order to a volatile subscriber. |
| `TopicBus.NothingStaleIsDelivered` | code/include/rdb/bus/topic_bus.h:343-363 | In every run, from the recorded times alone: nothing is delivered after stamp plus lifespan, everything counted as expired was older than that, and `deadline_missed` is the number of consecutive deliveries further apart than the deadline. |
| `TopicBus.FinishExactly` | code/include/rdb/bus/topic_bus.h:343-363 | For the envelope in the worker's hand, in arithmetic: delivered if and only if the lifespan is 0 or `now` is at most stamp plus lifespan, otherwise `expired` grows by one; `deadline_missed` grows exactly when a delivery comes more than the deadline after the last; a dropped envelope leaves the time of the last delivery alone. |
| `TopicBus.OrderedUnlessOvertaken` | code/include/rdb/bus/topic_bus.h:159-166 | Over every run from a fresh bus: the pushes to a subscriber, the rest of its backlog included, respect each thread's order if and only if no thread's live push overtook an envelope of its own in the backlog. |
| `TopicBus.LosslessOrderExactly` | code/include/rdb/bus/topic_bus.h:159-166 | Where nothing was evicted, refused or expired, and all is delivered, the same if and only if holds of the deliveries. |
| `TopicBus.LivePushOrder` | code/include/rdb/bus/topic_bus.h:323-330 | Step form: a live push keeps the order exactly when it held and nothing by the same thread waits in the backlog. |
| `TopicBus.LateJoinerCanBeMisordered` | code/include/rdb/bus/topic_bus.h:165-166 | A complete run of a fresh bus that delivers two envelopes of one thread in the wrong order. |
| `TopicBus.OvertakenBacklogIsReordered` | code/include/rdb/bus/topic_bus.h:165-166 | Whenever a thread overtakes its own envelope at the front of the backlog and there is room, the queue holds them the wrong way round. |
| `TopicBus.LateJoinersGetTheNewest` | code/include/rdb/bus/topic_bus.h:155-163 | When all publishers of a topic are TransientLocal with depth d, `latched` is always the last d envelopes since the last shutdown, and every late joiner is offered exactly the last d at the time it joined. |
| `TopicBus.LatchedAlwaysTail` | code/include/rdb/bus/topic_bus.h:296-299 | Whatever mix of durabilities and depths the publishers offer, `latched` is in every run a tail of what was published TransientLocal since the last shutdown. |
| `TopicBus.RecordedTail` | code/include/rdb/bus/topic_bus.h:296-299 | A TransientLocal publication is latched last and cuts the tail to its own depth; a volatile one leaves it as it is. |
| `TopicBus.HeldUntilStart` | code/include/rdb/bus/topic_bus.h:165-169 | In every run, while the worker has not started and the queue is open: nothing is taken, and the queue holds exactly the first (Reliable) or last (BestEffort) pushes up to its capacity, of live pushes and backlog together in the order they came. |
| `TopicBus.BacklogRetention` | code/include/rdb/bus/topic_bus.h:165-169 | In every run, when the whole backlog has been pushed and the worker is about to start: a Reliable late joiner holds the newest entry, and then the whole backlog, if and only if the backlog and the live pushes ahead of its newest entry fit together; a BestEffort one holds the newest entry if and only if fewer live pushes than its capacity came after it, and the whole backlog if and only if that is so of all pushes after the oldest entry. |
| `TopicBus.EntryHeld` | code/include/rdb/bus/topic_bus.h:165-169 | For each backlog entry by itself: held exactly when its place among all pushes is one the queue keeps. |
| `TopicBus.PlaceCounts` | code/include/rdb/bus/topic_bus.h:165-166 | That place is its place in the backlog plus the number of live pushes ahead of it. |
| `TopicBus.AllHeld` | code/include/rdb/bus/topic_bus.h:165-169 | Everything tried so far is held if and only if it fits. |
| `TopicBus.BacklogCanBeDisplaced` | code/include/rdb/bus/topic_bus.h:165-169 | A run of a fresh bus in which a live push of another thread takes the only place of a Reliable late joiner of depth one, and its one backlog entry is refused. |
| `TopicBus.BlockKeepsOldest` | code/include/rdb/bus/topic_bus.h:166 | Pushed with nothing in between into an empty queue, a backlog that does not fit a Reliable late joiner keeps its oldest part. |
| `TopicBus.DropOldestKeepsNewest` | code/include/rdb/bus/topic_bus.h:166 | Pushed with nothing in between into an empty queue, a backlog that does not fit a BestEffort late joiner keeps its newest part. |
| `TopicBus.NewestBacklogIsKept` | code/include/rdb/bus/topic_bus.h:165-166 | Pushed with nothing in between, the newest backlog entry gets in exactly when the subscriber is BestEffort or its depth covers the backlog. |
| `TopicBus.ClosedRunsAreShort` | code/include/rdb/bus/topic_bus.h:367-370 | After the queue is closed the worker takes only a bounded number of further steps, whatever publishers do: the join in `unsubscribe` and `shutdown` ends. |
| `TopicBus.WorkerNeverStuck` | code/include/rdb/bus/topic_bus.h:338-341 | Until it has returned, the worker of a closed queue always has a step to take. |
| `TopicBus.NothingAfterExit` | code/include/rdb/bus/topic_bus.h:338-370 | When the worker has returned every attempted push is delivered, expired, evicted or refused, and nothing is delivered in any continuation. |
| `TopicBus.StepKeepsInv` | code/include/rdb/bus/topic_bus.h:139-365 | Every step of publishers, subscribers, workers, unsubscribe and shutdown keeps the invariant behind these laws. |
| `TopicBus.PublishExactly` | code/include/rdb/bus/topic_bus.h:286-316 | A publication is recorded, with the next number, exactly when the topic exists with its type; an unknown topic changes nothing, a type conflict is counted and changes nothing else. |
| `TopicBus.OthersPublishNothing` | code/include/rdb/bus/topic_bus.h:139-365 | No other step records an envelope, counts a type conflict or changes the type of a topic. |
| `TopicBus.SubscribeExactly` | code/include/rdb/bus/topic_bus.h:155-163 | A subscription joins exactly when the topic is new or has its type, with its own topic, type and quality of service; otherwise nothing changes. |
| `TopicBus.UnsubscribeExactly` | code/include/rdb/bus/topic_bus.h:176-188 | Afterwards the subscription is in no topic and has left; all other subscriptions stay in their topics, unchanged. |
| `TopicBus.ShutdownExactly` | code/include/rdb/bus/topic_bus.h:194-203 | Afterwards every subscription has left, no topic has a subscriber or a latched envelope, and topics and numbering stay. |
| `TopicBus.PublishersWait` | code/include/rdb/bus/topic_bus.h:323-330 | In every reachable state a publisher is held up exactly by the full open queue of a Reliable subscriber, and only until its timeout; a push is refused exactly by a closed queue, or by a full one after the timeout. |
| `TopicBus.AttemptExactly` | code/include/rdb/bus/topic_bus.h:323-330 | A decided push is refused exactly by a closed queue or the full one of a Reliable subscriber; otherwise the envelope is now the newest in the queue. |
| `TopicBus.CloseQueueCloses` | code/include/rdb/bus/topic_bus.h:367-370 | Stopping a subscription closes its queue and keeps what is queued, so that its worker drains it and returns. |
| `TopicBus.PublishLawHere` | code/include/rdb/bus/topic_bus.h:286-314 | One publication turns, for a present subscriber, into exactly one rejection or one pending push. |
| `TopicBus.ClassifyHasEffect` | code/include/rdb/bus/topic_bus.h:302-314 | The loop over subscribers charges exactly the incompatible ones, targets exactly the others, and counts as many mismatches as it charges. |
| `TopicBus.TopicBus.SubscribeLocked` | code/include/rdb/bus/topic_bus.h:155-163 | The locked part of `subscribe`, including the type conflict, is the step `Subscribed`. |
| `TopicBus.TopicBus.PublishLocked` | code/include/rdb/bus/topic_bus.h:286-316 | The locked part of `publish_erased`, with its error returns, is the step `Published`. |
| `TopicBus.TopicBus.Latch` | code/include/rdb/bus/topic_bus.h:296-299 | The trimming loop leaves the last `depth` envelopes. |
| `TopicBus.TopicBus.ClassifySubs` | code/include/rdb/bus/topic_bus.h:301-314 | The classification loop, in place. |
| `TopicBus.TopicBus.UnlinkLocked` | code/include/rdb/bus/topic_bus.h:176-188 | The search loop removes the first match only. |
| `TopicBus.TopicBus.ShutdownLocked` | code/include/rdb/bus/topic_bus.h:194-203 | Every topic loses its subscribers and latched envelopes, and exactly the subscribers that were linked are handed on to be closed. |
| `TopicBus.TopicBus.TakeEnvelope` | code/include/rdb/bus/topic_bus.h:340-341 | The worker takes the oldest queued envelope. |
| `TopicBus.TopicBus.FinishEnvelope` | code/include/rdb/bus/topic_bus.h:343-363 | In place: the lifespan test, the deadline test against the last delivery, and the delivery, as the step that `FinishExactly` and `NothingStaleIsDelivered` are about. |
| `Framing.EncodeFrame` | code/include/rdb/transport/framing.h:15-23 | Appends exactly one frame: prefix, truncated 32-bit length, payload. |
| `Framing.ParseExtend` | code/include/rdb/transport/framing.h:43-72 | Parsing a stream after more bytes have come equals continuing the parse of what was there. |
| `Framing.ChunkingIsInvisible` | code/include/rdb/transport/framing.h:37-72 | For any interleaving of `feed` and `next` that ends drained, the frames and the error flag depend only on the concatenated bytes and equal the recursive whole-stream parser. |
| `Framing.FrameRoundTrip` | code/include/rdb/transport/framing.h:15-23 | A frame decodes to exactly its payload if and only if the payload is at most the limit and below 2^32. |
| `Framing.ParseStream` | code/include/rdb/transport/framing.h:15-72 | A concatenation of frames parses to its payloads in order, followed by the parse of the rest. |
| `Framing.ParseRebuilds` | code/include/rdb/transport/framing.h:43-72 | For every byte string, from the encoder or not: the parsed frames put together again, followed by the rest, are the bytes; every frame is within the limit; the parse is an error if and only if the rest has the eight bytes of a prefix and these have the wrong magic or announce more than the limit; else the rest is an incomplete frame. |
| `Framing.ParseIsTheOnly` | code/include/rdb/transport/framing.h:43-72 | Conversely, any way to cut a byte string into frames within the limit and such a rest is the one that the parser finds. |
| `Framing.FrameMagicSpells` | code/include/rdb/transport/framing.h:12-19 | The magic on the wire is the bytes of "FRM1" in this order. |
| `Framing.ErrorIsFinal` | code/include/rdb/transport/framing.h:37-53 | After an error nothing that is fed or asked for changes the decoder or brings out a frame. |
| `Framing.PayloadsArrive` | code/include/rdb/transport/framing.h:15-72 | However the stream is cut into chunks, the payloads arrive in order and without error. |
| `Framing.PrefixYieldsCompleteFrames` | code/include/rdb/transport/framing.h:45-66 | On any prefix of a stream of frames exactly the complete frames come out, without error. |
| `Framing.FrameDecoder.Feed` | code/include/rdb/transport/framing.h:37-40 | In place: appends unless in error; storage stays within twice the unread bytes. |
| `Framing.FrameDecoder.Next` | code/include/rdb/transport/framing.h:43-72 | In place: the magic test, the limit and the frame, as the step behind `ParseRebuilds` and `ChunkingIsInvisible`; the frame counter; and (through `Valid`) total bytes moved at most total bytes consumed. |
| `Framing.FrameDecoder.Compact` | code/include/rdb/transport/framing.h:86-97 | Never changes the unread bytes, restores `head_ = 0` or `2 * head_ < size`, and moves the unread bytes exactly when half the buffer or more is consumed. |
| `Framing.FrameDecoder.Reset` | code/include/rdb/transport/framing.h:78-82 | Back to the empty decoder without error. |
| `Histogram.BucketsPartition` | code/include/rdb/metrics/histogram.h:87-94 | `index_of` maps every 64-bit value into 0..3775, and value v has index i exactly when v lies in the i-th of consecutive intervals. |
| `Histogram.BucketsCover` | code/include/rdb/metrics/histogram.h:18-22 | There are 3776 intervals; they start at 0 and end at 2^64. |
| `Histogram.IndexMonotone` | code/include/rdb/metrics/histogram.h:87-94 | `index_of` is monotone. |
| `Histogram.UpperMeetsNextLower` | code/include/rdb/metrics/histogram.h:96-104 | `bucket_upper(i) + 1` is the foot of the next interval, including the last bucket whose 64-bit sum wraps. |
| `Histogram.UpperIsGreatest` | code/include/rdb/metrics/histogram.h:87-104 | `index_of(bucket_upper(i)) = i`, and no value of bucket i is larger. |
| `Histogram.RelativeError` | code/include/rdb/metrics/histogram.h:87-104 | The top of the own bucket exceeds a value by at most 1/64 of it. |
| `Histogram.RelativeErrorIsTight` | code/include/rdb/metrics/histogram.h:18-22 | At the foot of every octave the error is (v - 64)/64 exactly, so no bound below 1/64 holds for all values. |
| `Histogram.CommentBoundHoldsExactly` | code/include/rdb/metrics/histogram.h:18-22 | Exactly the buckets whose values all meet the 1/128 of the comment: the linear range, and bucket 64 s + q when (128 - q) 2^s is at most 128. |
| `Histogram.PercentileError` | code/include/rdb/metrics/histogram.h:58-69 | The top of the bucket of the requested rank is at least the value of that rank and exceeds it by at most 1/64 of it. |
| `Histogram.BucketOfKth` | code/include/rdb/metrics/histogram.h:63-67 | The bucket whose boundaries enclose the rank is the bucket of the value of that rank. |
| `Histogram.RankInRange` | code/include/rdb/metrics/histogram.h:62 | For 0 < p the rank ceil(p n / 100) lies in 1..n and is the first count to reach the target. |
| `Histogram.RankExactly` | code/include/rdb/metrics/histogram.h:62 | The rank k that a percentile asks for satisfies 100 (k - 1) < p n <= 100 k. |
| `Histogram.Histogram.Record` | code/include/rdb/metrics/histogram.h:26-32 | All fields become those of the sample list extended by the value, the counters and the sum modulo 2^64. |
| `Histogram.ExtremesExactly` | code/include/rdb/metrics/histogram.h:30-31 | The values kept as smallest and largest are samples and bound all samples. |
| `Histogram.Histogram.Merge` | code/include/rdb/metrics/histogram.h:34-40 | The histogram becomes that of both sample lists together, also when merged with itself. |
| `Histogram.Histogram.Reset` | code/include/rdb/metrics/histogram.h:42-48 | The histogram of no samples. |
| `Histogram.Histogram.Percentile` | code/include/rdb/metrics/histogram.h:58-69 | The top of the bucket holding the sample of rank ceil(p n / 100), hence not below that sample and above it by at most 1/64 of it; 0 without samples or for p not above 0. |
| `Histogram.Histogram.Scan` | code/include/rdb/metrics/histogram.h:63-67 | The loop stops at the first bucket at which the running 64-bit count reaches the target. |
| `Histogram.BucketReached` | code/include/rdb/metrics/histogram.h:63-67 | Where the scan stops is the bucket of the sample of the requested rank. |
| `ApproxTimeSync.PairsDependOnStreamsOnly` | docs/chapter7.md:464-526 | For two in-order streams without overflow the emitted pairs depend only on the streams, not on how the pushes interleave, and no pairing within the window has more pairs. |
| `ApproxTimeSync.GreedyIsMaximum` | docs/chapter7.md:505-526 | Exchange argument: any pairing within the window, crossing or not, has at most as many pairs as the greedy one. |
| `ApproxTimeSync.GreedyIsPairing` | docs/chapter7.md:505-526 | The greedy pairs come from strictly increasing positions of both streams: no item is used twice. |
| `ApproxTimeSync.DrainOnline` | docs/chapter7.md:505-526 | Draining, then appending and draining again, equals draining everything at once. |
| `ApproxTimeSync.RunAccounts` | docs/chapter7.md:464-526 | After any pushes, late or overflowing: one queue is empty, both are sorted and bounded, every pair is within the window, and pushes = paired + dropped + overflow + queued on each side. |
| `ApproxTimeSync.InsertKeepsOrder` | docs/chapter7.md:492-500 | Insertion keeps the queue sorted. |
| `ApproxTimeSync.InsertKeepsItems` | docs/chapter7.md:492-500 | Insertion adds exactly the new item. |
| `ApproxTimeSync.InsertGoesBehindEquals` | docs/chapter7.md:493-500 | The new item goes behind everything that is not later, equal stamps included, and before everything later. |
| `ApproxTimeSync.LateExactly` | docs/chapter7.md:496-497 | An item counts as reordered exactly when a later one is already queued. |
| `ApproxTimeSync.TrimDropsOldest` | docs/chapter7.md:501-502 | Over the bound, exactly the oldest items go, as many as exceed it, and these are the overflow counted. |
| `ApproxTimeSync.MaxAbsIsLargest` | docs/chapter7.md:514-516 | `max_abs_dt` is the distance of some emitted pair and bounds that of all. |
| `ApproxTimeSync.SumIsWithinLargest` | docs/chapter7.md:514-516 | `sum_abs_dt` lies between the largest distance and the largest times the number of pairs. |
| `ApproxTimeSync.ApproxTimeSync.PushOnA` | docs/chapter7.md:464-472 | In place: insert, trim, drain, as the step `Push`. |
| `ApproxTimeSync.ApproxTimeSync.PushOnB` | docs/chapter7.md:474-482 | The same on the other side. |
| `ApproxTimeSync.ApproxTimeSync.InsertSorted` | docs/chapter7.md:492-502 | The sorted, trimmed queue, and exact counts of late and overflowing items. |
| `ApproxTimeSync.ApproxTimeSync.DrainQueues` | docs/chapter7.md:505-526 | The loop computes the recursive `Drain` and its statistics. |
| `DagExecutor.EveryFrameRunsTheGraph` | docs/chapter7.md:675-768 | Under any mix of exceptions, refused submits, cancels and deadlines: a frame that ended settled each node exactly once and after all its predecessors, frames in flight never exceed the limit, and accepted = in flight + completed + cancelled, the cancelled ones being exactly those that ended with the mark. That the node functions have run is `SettledNodesRan`. |
| `DagExecutor.SettledNodesRan` | docs/chapter7.md:726-760 | Over every run, from the events alone: a settled node of a frame in flight has had its function return exactly once and before it settled, unless its submit was refused or its start came after a hit or a passed deadline, and in these cases never; on a frame with no hit and no expired start every settled node has run. |
| `DagExecutor.EndedFrameRanEverything` | docs/chapter7.md:726-760 | A frame that ends with no hit and no expired start has run every node function exactly once. |
| `DagExecutor.DispatchExactly` | docs/chapter7.md:678-692 | A dispatch is accepted exactly when fewer frames than the limit are in flight; the new frame has all nodes pending, none settled and no mark; otherwise only the overload is counted. |
| `DagExecutor.RunCounts` | docs/chapter7.md:675-768 | `failed_` is exactly the number of exceptions and refused submissions; every dispatch is accepted or counted as overload. |
| `DagExecutor.CancelledWhenHit` | docs/chapter7.md:699-768 | A frame in flight is marked cancelled if and only if it was cancelled from outside or one of its nodes threw or was refused since its dispatch. |
| `DagExecutor.CancelledStartsNothing` | docs/chapter7.md:726-730 | Once a frame is cancelled no further node function of it begins, with the cancel flag read as up to date: the code loads it relaxed and outside the lock, so a task that reads an old value may still begin. |
| `DagExecutor.ErasedWithLastNode` | docs/chapter7.md:744-757 | On a nonempty graph a frame in flight always has an unsettled node: it is erased exactly with its last one. |
| `DagExecutor.FrameNeverStuck` | docs/chapter7.md:744-760 | In an acyclic graph some node of a frame in flight can always take its next step. |
| `DagExecutor.FrameRunsAreShort` | docs/chapter7.md:726-760 | The number of steps on the nodes of a frame in flight is bounded by a measure: submitted tasks that run end the frame. |
| `DagExecutor.NewFrameRunsAreShort` | docs/chapter7.md:675-760 | At most five steps per node from the dispatch of a frame to its end. |
| `DagExecutor.EndedFrameOrdersGraph` | docs/chapter7.md:744-760 | Conversely, the log of any ended frame is a topological numbering: frames end only on graphs without cycles. |
| `DagExecutor.EmptyGraphLeaks` | docs/chapter7.md:682-691 | On the empty graph a dispatched frame is in flight after every continuation of the run. |
| `DagExecutor.ExpiredFrameCountsAsCompleted` | docs/chapter7.md:726-757 | A concrete run: the deadline passed before the only task began, and the frame is counted as completed. |
| `DagExecutor.CompletedUnlessHit` | docs/chapter7.md:726-757 | In general: an ended frame counts as completed if and only if no cancel, exception or refused submit hit it since its dispatch, whatever its deadline made it skip; its outcome lists its nodes in the order they settled. |
| `DagExecutor.DecrementCounts` | docs/chapter7.md:751-752 | The decrement loop takes from each counter the number of edges from the settled node without underflow, and makes a node ready exactly once, when its counter reaches zero. |
| `DagExecutor.SettleKeepsFrame` | docs/chapter7.md:744-757 | Settling keeps: each counter is the number of edges from unsettled predecessors, `pending` the number of unsettled nodes, the log in dependency order. |
| `DagExecutor.AddEdgeKeepsGraph` | docs/chapter7.md:668-671 | `add_edge` keeps in-degrees equal to the edges that lead to each node. |
| `DagExecutor.AddEdgeAdds` | docs/chapter7.md:668-671 | Afterwards the edge is there and no other one is new or gone. |
| `DagExecutor.AddNodeKeepsGraph` | docs/chapter7.md:664-667 | `add_node` too. |
| `DagExecutor.RootsAreReady` | docs/chapter7.md:689-690 | The roots submitted first are exactly the ready nodes of a new frame, each once. |
| `DagExecutor.DagExecutor.AddNode` | docs/chapter7.md:664-667 | Appends a node without edges and returns its index. |
| `DagExecutor.DagExecutor.AddEdge` | docs/chapter7.md:668-671 | In place, the addition that `AddEdgeKeepsGraph` is about, also for an edge from a node to itself. |
| `DagExecutor.DagExecutor.DispatchLocked` | docs/chapter7.md:678-692 | In place: the back-pressure test, counters copied from in-degrees, and the roots in order; `emplace` does not replace a frame in flight. The object then holds the next state of the machine. |
| `DagExecutor.DagExecutor.OnDoneLocked` | docs/chapter7.md:746-758 | In place: counters, ready nodes, completion or cancellation count and erasure, and nothing for an unknown frame. The object then holds the next state of the machine. |
| `DagExecutor.DagExecutor.Fail` | docs/chapter7.md:762-768 | Counts and marks the frame, if it is there, as cancelled. The object then holds the next state of the machine. |
| `DagExecutor.DagExecutor.Cancel` | docs/chapter7.md:699-704 | Marks the frame, if it is there, as cancelled. The object then holds the next state of the machine. |
| `DagExecutor.SettleOnRecords` | docs/chapter7.md:744-757 | What the step does to records, counters and the ready list is what `on_done` does in place. |
| `DagExecutor.ReadyAreWoken` | docs/chapter7.md:751-759 | The list of nodes to submit is exactly those that the step takes from waiting to ready. |
| `DagExecutor.FailOnRecords` | docs/chapter7.md:762-768 | A refused submission or an exception does to the object what `fail` does. |
| `DagExecutor.OtherStepsKeepRecords` | docs/chapter7.md:726-742 | All other steps of a task leave the object as it is. |
| `Lease.AtMostOneHolder` | docs/chapter9.md:266-297 | However operations and time interleave, no two live grants (unexpired, unreleased, not replaced by the same holder) exist for one resource, given nonzero holder ids. |
| `Lease.ExclusionNeedsNonzeroHolder` | docs/chapter9.md:270-271 | Another caller gets the lease while its last grant is live if and only if that grant went to holder id 0; then both are live. |
| `Lease.HolderZeroIsNotExclusive` | docs/chapter9.md:270-276 | A concrete run with holder id 0 and two live grants. |
| `Lease.RenewRevivesNothing` | docs/chapter9.md:280-289 | Renewal succeeds only for the last grant of its resource and only before it expires, although the clock is read twice; no grant that is not live becomes live. |
| `Lease.EpochsIncrease` | docs/chapter9.md:266-277 | A grant carries an epoch above all earlier ones, which is its place in the log of grants, and expires one time to live after the clock. |
| `Lease.AcquireExactly` | docs/chapter9.md:266-277 | In every state of the log of grants the lease is given if and only if no live grant of the resource belongs to another holder; so to anyone at all once every grant of it has expired or was released. |
| `Lease.RenewExactly` | docs/chapter9.md:280-289 | Renewal succeeds if and only if the caller names the epoch of a live grant that it holds; then exactly that grant lasts for the time to live from the second reading of the clock. |
| `Lease.ReleaseExactly` | docs/chapter9.md:291-297 | Release ends exactly the live grant whose holder and epoch are named; all other grants stay live or dead as they were. |
| `Lease.FenceFiltersStale` | docs/chapter9.md:204-215 | For any order of arrival exactly those operations are applied that no earlier arrival outranks; all others are counted as stale. |
| `Lease.KeptAscends` | docs/chapter9.md:204-215 | The epochs of applied operations never go down. |
| `Lease.FenceKnowsLargest` | docs/chapter9.md:210-212 | `current_epoch_` is the largest epoch that has arrived. |
| `Lease.FormerHoldersAreFencedOff` | docs/chapter9.md:201-297 | Manager, holders, a network that drops, repeats and reorders, and fenced resources together: applied operations follow the order of the grants. |
| `Lease.LastHolderIsHeard` | docs/chapter9.md:204-215 | An operation under the last grant of its resource is always applied. |
| `Lease.LeaseManager.Acquire` | docs/chapter9.md:266-277 | In place, with the test on holder and expiry, as the step that `AcquireExactly` and `EpochsIncrease` are about. |
| `Lease.LeaseManager.Renew` | docs/chapter9.md:280-289 | In place, with every refusal. |
| `Lease.LeaseManager.Release` | docs/chapter9.md:291-297 | In place: only the matching holder and epoch release. |
| `Lease.FencedResource.Execute` | docs/chapter9.md:204-215 | In place: reject and count, or record the epoch and apply. |
| `StateReplica.ReplicaShowsAPastState` | docs/chapter9.md:550-584 | Owner, lossy network and replica together, for any loss, repetition and reordering: a replica with a baseline holds exactly the owner's state at the replica's incarnation and version. |
| `StateReplica.NeverGoesBack` | docs/chapter9.md:550-584 | For arbitrary updates (incarnation, version) never goes backwards in dictionary order. |
| `StateReplica.ReachesExactly` | docs/chapter9.md:560-583 | Within an incarnation the replica gets to version n if and only if the arriving updates contain, in order, some that lead there: greedy acceptance is optimal. |
| `StateReplica.SnapshotThenDeltas` | docs/chapter9.md:560-583 | A snapshot at v, then deltas v+1..n in order with arbitrary repetitions and old updates between, end at the owner's state n. |
| `StateReplica.RequestStands` | docs/chapter9.md:571-579 | No delta withdraws the request for a snapshot. |
| `StateReplica.BaselineExactly` | docs/chapter9.md:550-569 | In any order of arrival the replica follows the largest incarnation it has heard of, and has a baseline if and only if a snapshot of that incarnation has come, or it had one of it from the start. |
| `StateReplica.VerdictsTell` | docs/chapter9.md:550-584 | Each verdict is given exactly in its case and means what it says: stale and duplicate change nothing; a gap requests a snapshot and, from a newer incarnation, drops the baseline; applied brings the replica to the update's incarnation and version, and a snapshot settles the request. |
| `StateReplica.NoRequestNoGap` | docs/chapter9.md:571-579 | As long as no request is open the replica is at least as far as every delta that arrived. |
| `StateReplica.StateReplica.Apply` | docs/chapter9.md:550-584 | In place, verdict by verdict, as the step of the model. |
| `Header.OneCharacterApart` | code/include/rdb/msg/header.h:105-112 | Signatures of any equal length that differ in exactly one character get different fingerprints. |
| `Header.StepBijective` | code/include/rdb/msg/header.h:108-109 | For a fixed character one FNV-1a step is a bijection on 32-bit states, with an explicit inverse. |
| `Header.StepInjectiveInCharacter` | code/include/rdb/msg/header.h:108-109 | For a fixed state it is injective in the character. |
| `Header.FnvBijective` | code/include/rdb/msg/header.h:105-112 | A whole suffix is a bijection on states. |
| `Header.KnownFingerprints` | code/include/rdb/msg/header.h:105-112 | The fingerprints of "" and "a" are the published FNV-1a values. |
| `Header.SchemaFingerprint` | code/include/rdb/msg/header.h:105-112 | The loop computes the recursive fingerprint. |
| `Header.HeaderRoundTrip` | code/include/rdb/msg/header.h:72-101 | Encoding then reading gives every field back whatever follows, and the header is accepted exactly when magic and version are the supported ones. |
| `Header.LayoutOfFields` | code/include/rdb/msg/header.h:86-101 | Conversely, the 48 bytes are determined by the fields read from them. |
| `Header.LayoutOffsets` | code/include/rdb/msg/header.h:72-83 | Every field is at its offset, in its width, little-endian. |
| `Header.MessageMagicSpells` | code/include/rdb/msg/header.h:12 | The magic on the wire is the bytes of "RDB1" in this order. |
| `Header.EncodeHeader` | code/include/rdb/msg/header.h:72-83 | Writes exactly the 48-byte little-endian layout and nothing beyond. |
| `Header.DecodeHeader` | code/include/rdb/msg/header.h:86-101 | Succeeds exactly on long enough input with supported magic and version; a wrong magic leaves only the magic overwritten, a wrong version magic and version. |
| `Header.Put` | code/include/rdb/msg/header.h:44-50 | The writing loop: little-endian bytes at their place, nothing else touched. |
| `Header.Get` | code/include/rdb/msg/header.h:58-68 | The reading loop: the little-endian value. |

## Where the code and its documentation differ

- The comment on the histogram promises a relative error of about 1/128; the code's bound is 1/64
  (`Histogram.RelativeError`), and 1/128 holds exactly in the buckets that
  `Histogram.CommentBoundHoldsExactly` names.
- Chapter 7 says the greedy matching is not optimal. That is about closeness in time: in the number
  of pairs it is optimal (`ApproxTimeSync.GreedyIsMaximum`).
- The comment in `subscribe` says that pushing the backlog before starting the worker keeps the
  order. It does exactly unless a thread's push overtakes an envelope of its own that is still
  waiting (`TopicBus.OrderedUnlessOvertaken`, `TopicBus.LateJoinerCanBeMisordered`). Nor is a depth
  that covers the backlog enough to retain it: live pushes count too (`TopicBus.BacklogRetention`,
  `TopicBus.BacklogCanBeDisplaced`).
- A lease asked for by holder id 0 excludes nobody (`Lease.ExclusionNeedsNonzeroHolder`).
- `size()` of the ring as a third thread sees it is right exactly when the pops seen do not outnumber
  the pushes seen (`SpscRing.OutsiderSizeInRun`); for the owners it always is.
- A frame of an empty graph is never erased (`DagExecutor.EmptyGraphLeaks`), and a deadline skips
  work but does not cancel: a frame counts as completed exactly unless it was hit
  (`DagExecutor.CompletedUnlessHit`).

## Left out

- SpscRing.SpscRing.constructor: requires a capacity of at most 2^63, since above it `round_up_pow2` returns 0 and the code has no slots at all.
- SpscRing.RingIsFifo: the C++ memory model beyond stale monotone index loads and release/acquire publication is not modelled.
- Histogram.Histogram.Percentile: the rank is promised for fewer than 2^64 samples (beyond that the counters have wrapped), and the target is a real number, so the rounding of `double` is not modelled; `mean` and `summary` are left out.
- ApproxTimeSync.PairsDependOnStreamsOnly: stamps are unbounded, so overflow of an int64 stamp difference is not modelled.
- DagExecutor.EveryFrameRunsTheGraph: a frame id is not dispatched again while it is in flight; the in-place `DispatchLocked` shows what the code does then.
- DagExecutor.CancelledStartsNothing: stale values of the cancel flag are not modelled.
- DagExecutor.DagExecutor.OnDoneLocked: node functions, resource groups and the pools behind `submit` are events of the state machine, so this class holds only the stretches under the lock.
- ThreadPool.StopSettlesEveryTask: tasks do not throw, and the joining call of `stop` is not made from a worker; futures of `submit` are opaque.
- TopicBus.TopicBus.PublishLocked: requires the ids listed in a topic to be valid handles, which the state machine proves; the shared subscription objects are entries of one table.
- TopicBus.EveryPushIsAccountedFor: mismatch reports are counted when they are decided; the handler itself, `wait_for_idle` and the returned flag of `publish` are not modelled.
- TopicBus.DeliveredOnceInOrder: order between different publishing threads is not claimed, because the code does not keep it.
- TopicBus.ClosedRunsAreShort: callbacks return, and the clock of a worker does not go back.
- TopicBus.RequestedVersusOffered: deadlines are nonnegative.
- Lease.AtMostOneHolder: the 64-bit wrap of the epoch is not modelled, nor is a clock that runs at different speeds for manager and holder.
- StateReplica.ReplicaShowsAPastState: versions and incarnations do not wrap, and one owner is followed; `owner_id` is not read by the code either.
- Framing.FrameDecoder.Feed: an allocation failure is not modelled.
- Threads, condition variables, clocks and exceptions as such, templates and type erasure: payloads and tasks are opaque values.
- The buffer pool, the quality-of-service presets and the name functions: they would only add easy members.
- Benchmarks, the test framework and the other chapters, which repeat these components or show how to use them.
