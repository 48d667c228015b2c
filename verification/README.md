# Verified model of the koalaStreamer frame pipeline

koalaStreamer captures raw audio and video packets, encodes each stream on its own thread, and muxes the
encoded frames into one output on another thread. Frames are recycled through a bounded pool, queues are
bounded and time out, an overloaded queue is cleaned selectively, and a greedy merge decides what is written
next. This project models that logic in Dafny and proves what it keeps over whole runs.

How the files follow the repository:

| file | what it models |
|---|---|
| `MediaFrames.dfy` | the values that travel: frames, payload pointers, optional pointers |
| `RingBuffers.dfy` | `StreamerFiFo` and `StreamerStack` as classes over arrays, refined to sequences |
| `FrameQueues.dfy` | `mediaFrameQueue`, one method per critical section, `cleanIf` with its callbacks, the wait deadline |
| `QueueProtocol.dfy` | any number of threads on one queue: losslessness, FIFO history, the video drop policy |
| `Routing.dfy`, `Payloads.dfy`, `Pipeline.dfy` | reader, two encoders and muxer on the whole pipeline: ownership of frames and packets, and the proof that recycling is invisible |
| `PipelineOrder.dfy`, `Subsequences.dfy` | in what order packets cross that pipeline, from capture to the output |
| `PipelineDelivery.dfy`, `PoolUse.dfy` | that it delivers what it is given, and how many frames it allocates |
| `PipelineDrops.dfy` | the video drop policy across that pipeline: whether what is written can be decoded |
| `WorkerThreads.dfy` | `mediaThread`: status calls and the loop of `run` and `func` |
| `Timestamps.dfy`, `KoalaMuxers.dfy`, `MuxTheorems.dfy` | time origin, rescaling, `write_frame` and `mux_thread`, and their whole-run theorems |
| `StreamerLifecycle.dfy` | prepare, stop and release against the prepare thread and the mux thread |
| `StatisticianRuns.dfy` | the unlocked counters, statement by statement, while one thread counts and another resets |
| `WaitBounds.dfy` | the bandwidth factor over whole runs, and whom the program serves first |
| `PcmChunks.dfy` | the PCM accumulation of `encoderAudio` |
| `MuxerOptions.dfy` | the option list and its replay |

Objects that the source updates in place are classes whose methods are specified by functions on values; the
whole-run theorems are about those functions. Concurrency is a transition system: every critical section
(and without a lock, every access to a shared field that matters) is one step, a timed wait splits a call into two
steps, and the theorems quantify over all interleavings. Steps are assumed to be sequentially consistent.

What the environment supplies is a parameter: what the encoder makes of a frame, what each packet write
returns, when `end` is seen raised, what the clock reads, which sleeper a signal wakes.

Ten promises do not hold without a condition, and each has its exact condition:

- "`enqueue` returned 0, so the frame is in the queue" holds over every interleaving if and only if there is at
  most one producer, the capacity is not 0, no wait ends unsignalled, and no clean call keeps the head of a
  non-empty queue (`LosslessIff`). A wait also ends unsignalled when its deadline is malformed, which happens
  at exactly one value of the microseconds (`DeadlineAcceptedIff`). The callbacks the program uses always free a
  slot (`CleanFreesSlot`).
- A run of the video queue delivers a decodable stream, whenever it is drained, if and only if a key frame was
  offered each time one was needed: at the start, and once a clean has emptied the queue (`DecodableIff`). The
  source marks this as still to be done; `UndecodableRun` is a run of the program's own callbacks that fails.
- The same across the whole pipeline, with its own cleaner, encoders and muxer: if video packets are lost only to the
  cleaner, what is written on video is decodable, whatever of the packets under way is still written, if and only if
  a key packet is offered each time a gap has reached the end of the queue (`WrittenDecodableIff`). A first key packet
  and cleans that never empty the queue are enough (`NeverEmptiedOffersKey`).
- All runs of all sources that start at a given dts shift every frame of both streams by one amount if and only if
  that dts is not negative (`OriginIff`), and exactly then do their FLV outputs stay in sync (`FlvInSyncIff`). Sources
  without any positive dts have one origin as well (`OriginFromSources`).
- Packets of one size always fit the PCM buffer if and only if the size divides 8192 (`ConstantSizeFitsIff`).
- The counted waits fit in the period they are divided by, at every moment of every run, if and only if the
  statistics are reset only between frames and, of several streams, the one registered last is served first
  (`WaitBoundIff`). The program registers video last and serves it first (`VideoLastAndFirst`), but its
  keyboard command resets at any moment: a frame begun before the reset and ended after it counts a wait that is
  longer than its period (`ResetMidWait`), which can make the bandwidth factor negative.
- Across resets, the totals and the current period account for every frame, byte and wait that arrived, at every
  moment of every run, if and only if no counter is raised after a reset has summed it and before it clears it, as
  when resets come only between frames (`AccountsIff`). The keyboard command keeps neither rule: a frame that ends
  between the sums and `memset` is lost in all four counters (`LostFrame`).
- A period starts when its stream was last restarted, or without a restart since it was cleared at its first begin,
  if and only if no reset restarts a period that a begin has found unset and is about to start (`PeriodIff`);
  otherwise the begin overwrites the restart (`RestartOverwritten`).
- The koala handle is joined before it is freed if and only if callers stop a streamer that they have prepared
  before they release it (`JoinBeforeFreeIff`).
- A stopped worker joins a thread that exists if and only if its creation cannot fail (`JoinsItsThreadIff`): a start
  that reports an error has still set the status to Running. The same holds of the threads of a streamer
  (`CreatedBeforeJoinIff`): a prepare whose thread cannot be created leaves it Preparing.

Where comments and code differ, the model follows the code: the comment on `write_frame` promises 1 or 0, but the
function returns whatever the packet write returned, and any value but 0 ends that stream
(KoalaPlayer/src/koala_muxer.c:284-353, 370-372).

## Model

| member | source | states |
|---|---|---|
| `RingBuffers.StreamerFiFo.Put` | utils/StreamerStack.h:94-102 | -1 exactly when full, else the element is appended; with `Valid`, indices stay in range and mTail is mHeader + mSize modulo the capacity |
| `RingBuffers.StreamerFiFo.Get` | utils/StreamerStack.h:104-112 | the oldest element leaves, or NULL on an empty buffer |
| `RingBuffers.StreamerFiFo.Peak` | utils/StreamerStack.h:114-118 | the oldest element, or NULL |
| `RingBuffers.WindowAt` | utils/StreamerStack.h:97-110 | element i of the queue sits i places after the head, modulo the capacity |
| `RingBuffers.WindowGrows` | utils/StreamerStack.h:97-100 | writing at the tail extends the queue by one and keeps the tail congruent |
| `RingBuffers.WindowShrinks` | utils/StreamerStack.h:107-110 | advancing the head drops the oldest element and keeps the tail congruent |
| `RingBuffers.FifoHistory` | utils/StreamerStack.h:94-112 | for every capacity and history: what was stored is what was taken followed by what is left, never more than the capacity |
| `RingBuffers.StreamerStack.Push` | utils/StreamerStack.h:27-33 | -1 exactly when full, else pushed on top |
| `RingBuffers.StreamerStack.Pop` | utils/StreamerStack.h:39-44 | the top leaves, or NULL on an empty pool |
| `FrameQueues.MediaFrameQueue.EnqueueEnter` | utils/mediaThread.cpp:40-57 | appends and returns 0, or sleeps with the queue unchanged when it is full |
| `FrameQueues.MediaFrameQueue.EnqueueResume` | utils/mediaThread.cpp:46-56 | -ETIMEDOUT leaves the queue unchanged; any other wake returns 0 whether or not put had room |
| `FrameQueues.MediaFrameQueue.DequeueEnter` | utils/mediaThread.cpp:59-74 | hands out the oldest frame, or sleeps on an empty queue |
| `FrameQueues.MediaFrameQueue.DequeueResume` | utils/mediaThread.cpp:65-74 | NULL after a timeout or when the frame is gone, else the oldest frame |
| `FrameQueues.MediaFrameQueue.CleanIf` | utils/mediaThread.cpp:81-99 | takes exactly a prefix out and releases each of its frames once, in order; terminates for callbacks that clean or stop |
| `FrameQueues.CleanCountIs` | utils/mediaThread.cpp:86-98 | for every callback: all frames taken were asked for, only the last may have asked to stop, and taking ends only at a verdict not to clean, a verdict to stop, or the end of the queue |
| `FrameQueues.CleanAllTakesAll` | utils/mediaThread.cpp:77-84 | without a callback the whole queue goes |
| `FrameQueues.CleanVideoStopsAtKey` | MacRTMPStreamer.cpp:432-440 | the head goes, every later removed frame is a delta frame, and what is left is empty or starts with a key frame |
| `FrameQueues.CleanAudioTakesHundred` | MacRTMPStreamer.cpp:442-451 | exactly min(100, size) frames go |
| `FrameQueues.DeadlineAcceptedIff` | utils/mediaThread.cpp:11-21 | the deadline is exactly ms ahead; it is a valid timespec if and only if the microseconds do not sum to one second |
| `QueueProtocol.LosslessIff` | utils/mediaThread.cpp:40-99 | over all interleavings, "returned 0" means "stored" if and only if the environment is faithful |
| `QueueProtocol.WokenEnqueueAppends` | utils/mediaThread.cpp:46-56 | in a faithful environment the slot is still free when a woken producer re-enters |
| `QueueProtocol.DequeueWakesProducer` | utils/mediaThread.cpp:59-74 | a dequeue from a full queue, slept or not, hands out the oldest frame and wakes the sleeping producer its signal names, whose enqueue then appends its frame and returns 0 |
| `QueueProtocol.CleanWakesProducer` | utils/mediaThread.cpp:81-99 | so does a clean with any callback that takes a frame |
| `QueueProtocol.StoreWakesConsumer` | utils/mediaThread.cpp:51-56 | a store wakes the sleeping consumer its signal names, whose dequeue then gets the oldest frame |
| `QueueProtocol.WakesUnsignalled` | utils/mediaThread.cpp:43-50 | a sleeper that wakes without a signal goes on like a signalled one, and nothing else changes |
| `QueueProtocol.CallsPossible` | utils/mediaThread.cpp:40-74 | an idle thread may always call, a sleeping one time out or wake, and a woken one go on |
| `QueueProtocol.SleepsIff` | utils/mediaThread.cpp:40-74 | an enqueue sleeps exactly on a full queue, a dequeue exactly on an empty one, and a timeout only ends its call |
| `QueueProtocol.EnqueueOutcomes` | utils/mediaThread.cpp:40-57 | over all interleavings, every enqueue called has returned 0, has timed out, or is still waiting |
| `QueueProtocol.CleanTakes` | MacRTMPStreamer.cpp:432-451 | what each callback takes from the queue |
| `QueueProtocol.SlotStaysFree` | utils/mediaThread.cpp:40-99 | the invariant behind it: a woken producer always faces a free slot, whatever step comes next |
| `QueueProtocol.CleanFreesSlot` | utils/mediaThread.cpp:86-97 | every callback the program uses takes at least one frame from a non-empty queue |
| `QueueProtocol.LossyRun` | utils/mediaThread.cpp:42-56 | with any hypothesis dropped, a concrete run acknowledges a frame that was never stored |
| `QueueProtocol.FifoHistoryAlways` | utils/mediaThread.cpp:40-99 | over all interleavings: stored frames are the removed ones in removal order followed by the contents; delivered frames keep enqueue order |
| `QueueProtocol.KeyedRunStaysDecodable` | MacRTMPStreamer.cpp:432-440 | a run in which key frames are offered when needed delivers a delta frame only right after its predecessor |
| `QueueProtocol.DecodableIff` | MacRTMPStreamer.cpp:432-440 | over all interleavings with any number of threads: with only the video cleaner, what consumers get at any moment of a run is decodable if and only if the run offered a key frame each time one was needed |
| `QueueProtocol.UndecodableRun` | MacRTMPStreamer.cpp:482-489 | from the start state: a key frame, a clean that takes it, a delta frame, a dequeue; the delta frame arrives without its predecessor |
| `QueueProtocol.VideoStaysDecodable` | MacRTMPStreamer.cpp:482-488 | with one producer, true wakeups, a first key frame and no emptying clean, a delivered delta frame's predecessor in encoding order was delivered |
| `Routing.MovePreservesHolders` | MacRTMPStreamer.cpp:461-478 | no queue operation of any thread creates, duplicates or destroys a token |
| `Routing.MoveIsNatural` | utils/mediaThread.cpp:145-166 | routing does not depend on what is routed |
| `Routing.LostIff` | MacRTMPStreamer.cpp:470-476 | a frame is lost exactly by the reader's ignored timeout or by a put that finds its queue full after a wait |
| `Routing.ProducersCallQueues` | utils/mediaThread.cpp:40-57 | the producers' moves are the queue's calls: they sleep exactly when it is full, put what fits, and a timed-out encoder tries again |
| `Routing.ConsumersCallQueues` | utils/mediaThread.cpp:59-74 | the consumers' moves take the oldest frame of their own queue |
| `Payloads.ReaderCanMove` | MacRTMPStreamer.cpp:461-500 | the reader is never stuck, and asleep it may time out or be woken |
| `Payloads.EncoderCanMove` | utils/mediaThread.cpp:145-166 | an encoder waits only for a raw frame or for a clean of its queue to end |
| `Payloads.MuxCanMove` | KoalaPlayer/src/koala_muxer.c:287-303 | the mux thread waits only for an encoded frame or for a clean of that queue to end |
| `Payloads.PacketsStep` | MacRTMPStreamer.cpp:123-163 | every step keeps each packet in exactly one place: carried, produced, freed, leaked or lost |
| `Payloads.CleanTakesPrefix` | utils/mediaThread.cpp:86-98 | turn by turn, the reader's clean takes and frees exactly the prefix its callback asks for |
| `Payloads.CleanCall` | MacRTMPStreamer.cpp:432-496 | a whole clean of the reader, with the callback of that stream: video loses the head and the delta frames behind it, audio its oldest hundred, and those are freed |
| `Payloads.LockedQueueUntouched` | utils/mediaThread.cpp:85-98 | no other thread's step changes the queue or the counter of a clean in progress |
| `Pipeline.ReleaseHeld` | utils/mediaFrame.c:39-43 | releasing a held frame frees its packet through the stored function and puts the frame into a pool that has room, else gives it back to the allocator, nothing else |
| `Pipeline.TakeUnheld` | MacRTMPStreamer.cpp:113-118 | a frame is taken from the top of the pool, or created when that is empty, and is held by nobody else |
| `Pipeline.StepRefines` | MacRTMPStreamer.cpp:123-208 | every step of every thread keeps the ownership invariant and is a step of the frameless reference pipeline |
| `Pipeline.RunRefines` | MacRTMPStreamer.cpp:113-208 | whole schedules: the recycling pipeline runs exactly those of the reference pipeline, with the same packets in the same places |
| `Pipeline.OwnershipAlways` | MacRTMPStreamer.cpp:453-500 | over all interleavings each frame has exactly one holder, no release meets a wrong frame, and created = pooled + freed + queued + in hand + lost |
| `Pipeline.PacketsAlways` | MacRTMPStreamer.cpp:123-208 | over all interleavings no packet is freed twice or freed while carried |
| `Pipeline.PoolIsInvisible` | utils/mediaThread.cpp:183-196 | for any two pool sizes, including one that recycles nothing, the same schedules give the muxer the same output |
| `PoolUse.PoolRecycles` | utils/mediaThread.cpp:183-196 | over all interleavings: a pool as large as the most frames ever in use gives none back, and exactly that many frames are ever allocated, however long the run |
| `PoolUse.FramesBounded` | utils/mediaThread.cpp:183-196 | for any pool, at most those in use and a full pool of frames exist at a time |
| `PipelineDelivery.DeliversAll` | MacRTMPStreamer.cpp:113-208 | with room in every queue and any pool, any list of captured packets of both streams can be carried through: each comes out on its own stream, in order, with its own payload and timestamps, every packet is freed once, and the pipeline is empty again |
| `PipelineOrder.WrittenInOrder` | MacRTMPStreamer.cpp:113-208 | over all interleavings and pool sizes: what is written on a stream is, in encoding order, part of what its encoder produced; and the captured packets that went into the encoder for it (for audio, all packets of each chunk) are, in capture order, part of those captured for the stream |
| `PipelineOrder.UsedIsSplit` | MacRTMPStreamer.cpp:165-192 | all that went into an encoder is split, in order and without overlap, among the packets it produced: each gets what went in since the one before came out, up to what was being dealt with when it came out itself |
| `PipelineOrder.WrittenFaithful` | KoalaPlayer/src/koala_muxer.c:320-332 | over all interleavings and pool sizes, each written frame shows the packet it is numbered by: payload, size, key flag, and both its pts and its dts, relative to one origin: none before the first written packet with a non-negative dts, that dts from then on |
| `PipelineOrder.HeldFaithful` | MacRTMPStreamer.cpp:150-160 | over all interleavings, every encoded frame that is held or queued shows its packet with its own pts and dts, and every captured one carries a captured packet |
| `PipelineOrder.LeakedAre` | MacRTMPStreamer.cpp:188-208 | the packets never freed and carried by nothing are exactly those allocated for an encode call that yielded none |
| `PipelineOrder.EncodedStep` | utils/mediaThread.cpp:145-166 | one step leaves out at most one part of a stream's written, held and queued packets, and a new packet comes last |
| `PipelineDrops.WrittenDecodableIff` | MacRTMPStreamer.cpp:432-489 | over all interleavings of the pipeline that lose video packets only to the cleaner: at any moment, whatever drains from there, each delta packet written on video follows its predecessor in encoding order, if and only if a key packet was offered each time a gap had reached the end of the queue |
| `PipelineDrops.WrittenDecodable` | MacRTMPStreamer.cpp:113-208 | the same for the frames that the recycling pipeline writes, with any pool |
| `PipelineDrops.NeverEmptiedOffersKey` | MacRTMPStreamer.cpp:482-489 | a first key packet and cleans that never empty the video queue are enough |
| `PipelineDrops.LastWritten` | utils/mediaThread.cpp:145-166 | wherever the threads stand, the packet in the encoder's hand behind an empty queue can still be written next, with nothing else made or lost |
| `WorkerThreads.MediaThread.Start` | utils/mediaThread.cpp:123-129 | only from the initial status is a thread created and its creation's result returned, else -1; the status is Running even if the creation failed |
| `WorkerThreads.MediaThread.Pause` | utils/mediaThread.cpp:131-135 | only a running worker pauses |
| `WorkerThreads.MediaThread.Stop` | utils/mediaThread.cpp:137-143 | a running or paused worker is stopped and joined, once |
| `WorkerThreads.StepKeeps` | utils/mediaThread.cpp:111-166 | each step keeps the worker invariant, never moves the status back, and once stopping brings the worker closer to its end |
| `WorkerThreads.WorkerAlways` | utils/mediaThread.cpp:111-166 | over all interleavings, failed creations included: created and joined at most once, at most one more dequeue and one more enqueue after Stop, each dealt frame meets exactly one fate, in order, and the worker releases one itself only when stopping |
| `WorkerThreads.TimedOutKept` | utils/mediaThread.cpp:155-163 | a frame whose enqueue timed out is offered again unless the worker is stopping, and then it is released |
| `WorkerThreads.FatesAreAnswers` | utils/mediaThread.cpp:153-165 | over all interleavings, frames are stored as often as the output queue took one and refused as often as it refused one unnoticed |
| `WorkerThreads.FoundIsOffered` | utils/mediaThread.cpp:145-155 | a frame found in the queue is dealt with, and what that returns is offered to the output queue |
| `WorkerThreads.NothingFound` | utils/mediaThread.cpp:147-151 | on an empty queue the worker sleeps, and with nothing it goes back to its loop |
| `WorkerThreads.CallsAct` | utils/mediaThread.cpp:123-143 | over the worker's state, start, pause and stop change the status as the class does |
| `WorkerThreads.PausedRests` | utils/mediaThread.cpp:114-117 | while paused, a worker begins no dequeue but one it may have been about to begin |
| `WorkerThreads.RunningWorks` | utils/mediaThread.cpp:111-166 | from any point, a running worker by its own steps can store the frame in its hand and come to its next dequeue |
| `WorkerThreads.JoinsItsThreadIff` | utils/mediaThread.cpp:123-143 | over all interleavings, whoever is inside pthread_join has a thread to join, if and only if creation cannot fail |
| `WorkerThreads.StopIsPrompt` | utils/mediaThread.cpp:111-166 | after Stop the worker makes at most eight more steps and, once created, is never stuck before it has left run |
| `Timestamps.RescaleNearest` | KoalaPlayer/src/koala_muxer.c:334-339 | a rescaled timestamp is within half an output unit of the exact value, negative ones included |
| `Timestamps.RescaleTies` | KoalaPlayer/src/koala_muxer.c:334-339 | ties are rounded away from zero |
| `Timestamps.RescaleOdd` | KoalaPlayer/src/koala_muxer.c:334-339 | a negative timestamp comes out as the negative of its opposite |
| `Timestamps.RescaleMonotone` | KoalaPlayer/src/koala_muxer.c:334-339 | rescaling keeps order |
| `Timestamps.RescaleDistance` | KoalaPlayer/src/koala_muxer.c:334-339 | the distance of two timestamps is distorted by at most one output unit |
| `KoalaMuxers.KoalaMuxer.WriteFrame` | KoalaPlayer/src/koala_muxer.c:287-354 | one frame is fetched, stamped in place, rescaled, written and logged, and the right last timestamp moves; returns 1 and writes nothing at the end of the source, else what the packet write returned |
| `KoalaMuxers.KoalaMuxer.MuxThread` | KoalaPlayer/src/koala_muxer.c:355-378 | the loop terminates in the state that the turn function reaches; it has left early exactly if end was seen after its last turn, had not been seen before, and otherwise both streams are through |
| `KoalaMuxers.LoopEnds` | KoalaPlayer/src/koala_muxer.c:365-377 | at most one turn per frame and one more per stream |
| `MuxTheorems.MergeComplete` | KoalaPlayer/src/koala_muxer.c:287-380 | for all sources, write results and moments of end: what is written interleaves prefixes of the sources, each frame once and in order; a stream is cut short only by a write that failed on it, or by end seen raised after the loop's last turn |
| `MuxTheorems.EndLeaves` | KoalaPlayer/src/koala_muxer.c:375-376 | for all worlds, an end that is seen after turn k leaves the loop then, with at most k + 1 packets written, and nothing is written later |
| `MuxTheorems.FinalBrokenIff` | KoalaPlayer/src/koala_muxer.c:365-377 | the loop is left early if and only if end was seen after its last turn, and it was not seen before |
| `MuxTheorems.MergeAll` | KoalaPlayer/src/koala_muxer.c:287-380 | without failures and end, both sources are written completely |
| `MuxTheorems.OriginFromSources` | KoalaPlayer/src/koala_muxer.c:320-326 | if the first frame's dts is not negative, or no dts is positive, every frame of both streams is shifted by that one origin, in every run |
| `MuxTheorems.OriginIff` | KoalaPlayer/src/koala_muxer.c:320-326 | all runs of all sources whose first dts is d use one origin for both streams if and only if d is not negative |
| `MuxTheorems.LateOriginIff` | KoalaPlayer/src/koala_muxer.c:320-326 | run by run: all written frames are shifted by one amount if and only if the first non-negative dts came first, or is zero, or never came |
| `MuxTheorems.ShiftIs` | KoalaPlayer/src/koala_muxer.c:320-326 | frames before the first non-negative dts are not shifted, all others by that dts |
| `MuxTheorems.PacketsFaithful` | KoalaPlayer/src/koala_muxer.c:327-339 | payload, size and key flag pass through; on video pts and dts keep their distance to within a unit and their order; on audio dts is set to pts |
| `MuxTheorems.PacketTimes` | KoalaPlayer/src/koala_muxer.c:320-339 | every packet carries its frame's own timestamp relative to the origin in force, on its own stream's base, to within half a unit; on video its dts too |
| `MuxTheorems.SecondsKept` | KoalaPlayer/src/koala_muxer.c:176-242 | the bases count true time: whole seconds come out as that many times 1000 in an FLV output, else the sample rate on audio and a million on video |
| `MuxTheorems.SyncKept` | KoalaPlayer/src/koala_muxer.c:320-339 | for sources with one origin and one output base, the distance of any two written packets, across streams, is that of the captured frames to within one output unit, and their order is kept |
| `MuxTheorems.FlvInSync` | KoalaPlayer/src/koala_muxer.c:197-198 | in an FLV output of sources with one origin, any two packets of either stream keep their distance to within a millisecond |
| `MuxTheorems.FlvInSyncIff` | KoalaPlayer/src/koala_muxer.c:320-326 | all FLV outputs of sources whose first dts is d stay in sync to within a millisecond if and only if d is not negative |
| `MuxTheorems.BoundedSkew` | KoalaPlayer/src/koala_muxer.c:341-373 | if the stamped timestamps of a run advance by at most d and fall back by at most e, its streams are never more than d + e apart while both are active |
| `MuxTheorems.SkewBoundIff` | KoalaPlayer/src/koala_muxer.c:341-373 | d + e is the least such bound over all worlds and runs |
| `MuxTheorems.SourceSkew` | KoalaPlayer/src/koala_muxer.c:320-373 | the same bound from the sources alone, when they have one origin |
| `MuxTheorems.MonotoneSkew` | KoalaPlayer/src/koala_muxer.c:341-373 | for stamped timestamps that start at 0 and never fall the skew is at most d |
| `StreamerLifecycle.JoinBeforeFreeIff` | MediaStreamer.c:176-317 | over all interleavings, failed thread creations included, the koala handle is closed at most once and not before both threads are done with it, with one mux thread and no double join, if and only if callers stop a prepared streamer before they release it |
| `StreamerLifecycle.PrepareOutcome` | MediaStreamer.c:176-256 | over all interleavings, a prepare thread that is through has started exactly one mux thread and set Streaming if nothing failed; a failed opening leaves Preparing and nothing open, a failed preparation Error, and no mux thread |
| `StreamerLifecycle.StopOutcome` | MediaStreamer.c:268-317 | over all interleavings, a stop that has returned has joined the prepare thread once and each mux thread once, and the handle was closed once if it was opened; a release closes it after a failed prepare |
| `StreamerLifecycle.StopOnError` | MediaStreamer.c:268-276 | a stop on a streamer whose preparation has failed joins nothing and closes nothing |
| `StreamerLifecycle.WholeLife` | MediaStreamer.c:236-317 | prepare, stream, stop and release can be run through to the end |
| `StreamerLifecycle.CreatedBeforeJoinIff` | MediaStreamer.c:236-242 | over all interleavings, a stop joins only threads that exist if and only if thread creation does not fail |
| `StreamerLifecycle.StepKeeps` | MediaStreamer.c:268-276 | the invariant behind it, for a stop at any status, failed preparations and creations included |
| `StreamerLifecycle.UnstoppedRelease` | MediaStreamer.c:300-304 | a release without a stop closes the handle under the prepare thread |
| `Statisticians.StreamerStatistician.ResetAll` | streamStatistician.c:135-146 | each stream's period is added to its total and restarted |
| `Statisticians.StreamerStatistician.GetStreamBandWideFactor` | streamStatistician.c:121-133 | the factor from the summed waits and the last stream's start, exactly |
| `StatisticianRuns.RegisteredInOrder` | streamStatistician.c:52-59 | whatever is registered, the first eight streams are kept in order with zero counters, and the others are refused |
| `StatisticianRuns.BeginRun` | streamStatistician.c:61-74 | the uninterrupted statements of a begin do together what `OnFrameBegin` does, and nothing arrives by them |
| `StatisticianRuns.EndRun` | streamStatistician.c:76-94 | the statements of an end, with no reset of its stream in between, do together what `OnFrameEnd` does |
| `StatisticianRuns.ResetRun` | streamStatistician.c:135-146 | the statements of an uninterrupted reset do together what `ResetAll` does |
| `StatisticianRuns.LifetimeStep` | streamStatistician.c:76-146 | of all statements, but for a count between its sum and its clear, only the arrival of a frame changes what its stream has counted and has to count: one frame, its bytes, and its wait if it took ten milliseconds or more |
| `StatisticianRuns.LifetimeAccounts` | streamStatistician.c:76-146 | over all runs in which no counter is raised between its sum and its clear, totals and current period account for every frame, byte and counted wait that the events show |
| `StatisticianRuns.AccountsIff` | streamStatistician.c:76-146 | over all runs, that rule (or resets only between frames, or no stream) is exactly what conservation needs |
| `StatisticianRuns.LostFrame` | streamStatistician.c:138-143 | without it, for any number of streams, a concrete run loses a frame, its bytes and its wait |
| `StatisticianRuns.PeriodFromHistory` | streamStatistician.c:61-146 | over all runs in which no reset restarts a period that a begin is about to start, a period starts at its last restart, or at the first begin since the clear, and is 0 before both |
| `StatisticianRuns.PeriodIff` | streamStatistician.c:68-144 | over all runs, that rule (or resets only between frames, or no stream) is exactly what this needs |
| `StatisticianRuns.RestartOverwritten` | streamStatistician.c:70-144 | without it, a concrete run in which a begin overwrites the start that a reset has just set |
| `WaitBounds.WaitBound` | streamStatistician.c:61-133 | with resets between frames and the last-registered stream served first, waits fit in the period at every moment of every run and the factor is in [0,1] |
| `WaitBounds.WaitBoundIff` | streamStatistician.c:61-146 | over all runs, the waits fit in the period if and only if resets come between frames and, of several streams, the last-registered one is served first (or no stream exists) |
| `WaitBounds.ResetMidWait` | MacRTMPStreamer.cpp:543-556 | a concrete run in which a reset during a wait leaves more wait than period, for any number of streams |
| `WaitBounds.OtherServedFirst` | streamStatistician.c:68-72 | a concrete run in which another stream's wait precedes the last stream's period |
| `WaitBounds.VideoLastAndFirst` | MediaStreamer.c:193-221 | with audio registered before video, every run whose begins are those of a mux thread, for any sources, write results and moments of end, serves the last-registered stream first |
| `WaitBounds.ProgramFits` | KoalaPlayer/src/koala_muxer.c:355-378 | so those runs need only the rule on resets for waits that fit in the period |
| `PcmChunks.PcmAccumulator.EncoderAudio` | MacRTMPStreamer.cpp:165-192 | the packet is appended; a full buffer is handed on with this packet's pts and emptied; exactly a packet that does not fit is reported as an overrun |
| `PcmChunks.Lossless` | MacRTMPStreamer.cpp:165-192 | chunks followed by the buffer are all bytes in order, each chunk is 8192 bytes, the buffer is never full between calls |
| `PcmChunks.ChunkTimes` | MacRTMPStreamer.cpp:170-184 | each chunk holds its own 8192 bytes of the stream and carries the pts of the packet that completed it |
| `PcmChunks.ConstantSizeFitsIff` | MacRTMPStreamer.cpp:97-169 | packets of one size always find room if and only if the size divides 8192 |
| `MuxerOptions.Muxer.GetOpt` | MediaMuxer/MediaMuxer.c:18-27 | the first node with the key, up to case |
| `MuxerOptions.FoldIff` | MediaMuxer/MediaMuxer.c:22 | keys are the same exactly when they agree character by character up to ASCII case |
| `MuxerOptions.AtoiReads` | KoalaPlayer/src/koala_muxer.c:413-414 | a numeral is read back, behind spaces and one sign, up to the first character that is no digit |
| `MuxerOptions.AtoiNothing` | KoalaPlayer/src/koala_muxer.c:413-414 | text that starts with no digit, space or sign is read as 0, behind a sign as well |
| `MuxerOptions.KoalaSetIff` | KoalaPlayer/src/koala_muxer.c:405-422 | io_timeout_ms in any case sets the timeout to the number and returns 0; every other key changes nothing and returns -2 |
| `MuxerOptions.Muxer.SetOpt` | MediaMuxer/MediaMuxer.c:29-46 | a known key keeps its node and gets the value, a new one goes to the front; NULL is refused with -2 |
| `MuxerOptions.Muxer.Open` | MediaMuxer/MediaMuxer.c:95-99 | every option is passed on once, from the head |
| `MuxerOptions.ListIsMap` | MediaMuxer/MediaMuxer.c:18-46 | after any history keys are distinct up to case and lookup gives the last value set |
| `MuxerOptions.ReplayEqualsHistory` | KoalaPlayer/src/koala_muxer.c:405-422 | replaying the list in any order leaves the timeout that the history applied directly would |

## Left out

- FFmpeg: codec setup, stream parameters, device access and the encoders themselves; an encode call returns a packet or nothing, a packet write returns a number.
- pthread internals and the memory model: critical sections are atomic steps, and a signal wakes the one sleeper that the event names, if it sleeps; more wakes count as unsignalled ones.
- The unlocked `getSize` read that decides whether to clean: the reader may start a clean at any time.
- Liveness: no fairness or waiting times are claimed beyond the bound on a stopping worker's own steps.
- Teardown in `main` and `destroyMediaThread`, which deletes queues and encoders while other threads may still refer to them: the pipeline theorems stop before it.
- Frame and packet objects in `Pipeline`: entries of a heap sequence instead of objects, so that all threads' steps act on one value; their updates in place are updates of that sequence.
- A frame released by the default function while it has a payload: the pipeline never meets one, and the model flags it instead of freeing the payload.
- `releaseOpts`, which reads a node after freeing it, and list disposal in general.
- The window after a failed prepare in which the prepare thread still notifies while the streamer struct is freed: the lifecycle theorem is about the koala handle.
- `mediaStreamer_start` called by a user instead of by the prepare thread.
- The `req_i_frame` branch of `write_frame`, a flag that nothing sets.
- A muxer that is started again after `koala_muxer_end`, which never lowers `end`.
- PcmChunks.PcmAccumulator.EncoderAudio: does not say what a packet that overruns the buffer overwrites, which the source does not check; the model reports it and writes nothing.
- A join of a thread that was never created: it is undefined in pthreads; the model shows when it happens and lets it return.
- A failed creation of the mux thread leaves `mux_id` 0, which pthreads do not promise.
- Encoder delay: a packet that comes out late is attributed what went in since the packet before it, not the one frame it shows.
- Statisticians, interleaving: each `++` and `+=` is one step, so updates lost inside a single addition are not modelled; the factor is read in one step; and streams are registered before the run.
- Statisticians: counter wrap-around and float rounding; sizes are not negative, the clock is positive and does not go back.
- Integer widths elsewhere: timestamps and `atoi` are unbounded, and AV_NOPTS_VALUE has no special meaning to the rescaling.
- The bit-rate getter, logging, codec tables, host address and keyboard handling.
