# The worklet's ipc and its lifetime, verified

Bare Kit runs JavaScript in a worklet: a thread with its own libuv loop inside a
host process. Host and worklet talk over an in-process queue, and much of the
code that makes this safe is a protocol between threads: who wakes whom, who
frees what, and when a stream has ended. This project models that protocol and
proves what it promises.

The layers, from the bottom:

- **`Ring.dfy`** - the masked-index ring of owned messages, on an array, with the
  masked step `(i + 1) & (C - 1)` proved equal to `(i + 1) % C` for every power of
  two `C` (`src/queue.c`).
- **`QueueModel.dfy`, `QueueLaws.dfy`, `Queue.dfy`** - the queue. `QueueModel` gives each
  section of the queue's lock as a function on values, and proves what any
  interleaving of such sections keeps: first in, first out; exact and stable
  readiness; a final end of stream. `QueueLaws` says what each section means to the
  queue's users. `Queues.SharedQueue` is the object with its rings, end states and
  wake flags, and each of its methods is proved to be the function of the same name.
- **`HostModel.dfy`, `Ipc.dfy`** - the host end, which turns messages into bytes read
  in any sizes (`src/ipc.c`), again as functions and as the object that fills the
  caller's buffer.
- **`Stream.dfy`** - the worklet end, `IPCStream` (`src/worklet.js`), likewise.
- **`System.dfy`** - one worklet and its ipc with all threads running: each section
  of a lock and each atomic access is one step, and any thread may run between any
  two. `Refinement.dfy` shows that the calls on the host end and on the stream are these
  steps.
- **`Wakes.dfy`** - no wake is lost, on either end. **`Callbacks.dfy`** - what a poll's
  callback is called with. **`Conservation.dfy`** - bytes, messages and the end of the
  stream. **`Endings.dfy`** - what each end's end or close leads to.
  **`Buffers.dfy`** - each buffer is in one place and freed once. **`Release.dfy`** - all
  of them can be.
- **`Lifecycle.dfy`** - who owns the worklet object, its state, its thread's
  semaphore, the queue and the ipcs, and who lets go of them when
  (`src/worklet.c`). **`Finishing.dfy`** - from wherever they are, they all can.
  **`PollThread.dfy`** - the thread behind a poll, whose callback may destroy its own
  poll and ipc (`src/standalone/ipc.c`). **`Deadlock.dfy`** - the order of locks.
  **`Teardown.dfy`** - the barrier for any number of worklets.
  **`Suspension.dfy`** - the background task on iOS (`src/ios/suspension.m`).
- **`Extract.dfy`, `Disk.dfy`** - extraction of resources by worklets that may crash
  at any point (`src/worklet.js`).

What runs in a single thread is a class, whose methods carry loops and `modifies`
clauses and are proved against functions on values; every protocol is a state
machine over those values. Runs are sequences of steps of any length, so that a
lemma about `After(s, steps)` is about every reachable state. Capacities, chunk
sizes, read sizes, the number of threads, of worklets and of extractors are
parameters without bounds.

Four properties do not hold as one would wish, and each has its exact condition:

- A worklet chunk longer than `INT_MAX` leaves its rest parked with no wake to come
  for it, if the ring has room for a second message (`src/worklet.js:57`):
  `Wakes.WriterNeverMissesWakeExactly`.
- A listed key whose path is the listing's makes the listing appear before later
  resources: `Extract.ListingComesLastExactly`, for any way to join paths. Keys that begin
  with a slash are safe if the join appends them as they stand; one like
  `/../app.assets`, which `path.join` maps onto the listing of `app`, is not.
- An expiration handler ends its task whether or not its compare-exchange succeeds
  (`src/ios/suspension.m:38-40`). A task is ended twice exactly if that exchange is lost,
  which happens when an end, or the start of another task, takes the identifier out
  first, or when the handler runs before the start has stored the identifier at all:
  `Suspension.EndedTwiceExactly`, with `Suspension.EndBeatsHandler` and
  `Suspension.HandlerBeatsStore` for the two ways.
- Polls are not level-triggered, as `include/bare-kit.h:302-306` calls them. The poll's
  thread looks again exactly after a read that returned bytes, an end or a close, a start,
  or an event of the queue: `Wakes.SilentUntilRoused`, with the run
  `Wakes.NotLevelTriggered`. What holds instead is `Wakes.PollNeverMissesWake`.

Where code and documentation differ the code is followed. `src/queue.h:101-104` says that
a write of an ended end fails; one of zero length returns 0 before any check.

## Model

| member | source | states |
|---|---|---|
| `Bits.AndIsBitwise` | src/queue.c:9-18 | the model's `&` is the bitwise one: bit by bit it is the conjunction, for all operands |
| `Bits.MaskedStep` | src/queue.c:16-27 | for every power-of-two capacity the masked step of an index is the step modulo the capacity, and wraps exactly at it |
| `Rings.Ring.Empty` | src/queue.c:11-14 | head meets tail exactly when the ring holds no message |
| `Rings.Ring.Full` | src/queue.c:16-19 | the masked test is true exactly when the ring holds one message less than its slots |
| `Rings.Ring.Push` | src/queue.c:21-30 | appends to the contents unless full, across wrap-around, and changes nothing when it fails |
| `Rings.Ring.Shift` | src/queue.c:32-40 | takes the oldest message, and fails exactly on an empty ring |
| `Queues.SharedQueue.constructor` | src/queue.c:93-124 | both rings empty, both ends idle, nothing destroyed or woken |
| `Queues.SharedQueue.Create` | src/queue.h:17 | a queue of the source's capacity, whose mask has ten bits |
| `Queues.SharedQueue.SignalPeer` | src/queue.c:62-84 | wakes the peer exactly when it is open or ended |
| `Queues.SharedQueue.OpenUv` | src/queue.c:126-151 | the object's open is the model's, of which `QueueLaws.OpenCatchesUp` says that messages written before it leave a wake |
| `Queues.SharedQueue.OpenThread` | src/queue.c:153-172 | opens the host end once, with a wake if the worklet has written already; a second open fails and changes nothing |
| `Queues.SharedQueue.Write` | src/queue.c:174-205 | the object's write is the model's, of which the laws below say when it is rejected, when it blocks, what it takes and when it wakes |
| `Queues.SharedQueue.Read` | src/queue.c:207-238 | the object's read is the model's: a message before the end of the stream, and the wake only of a ring that was full |
| `Queues.SharedQueue.Take` | src/queue.c:217-218 | shifts the oldest message out of an end's inbox, and leaves all else as it was |
| `Queues.SharedQueue.Advance` | src/queue.c:260-277 | the object's end or close is the model's, of which the laws below say how far it moves, what fails from then on and who is woken |
| `Queues.SharedQueue.Destroy` | src/queue.c:315-326 | gives up the worklet's share and tells whether it was the last |
| `Queues.SharedQueue.Readable` | src/queue.c:289-300 | the predicate that readiness lemmas are about, read off the rings and states |
| `Queues.SharedQueue.Writable` | src/queue.c:302-313 | the same for writes |
| `Queues.SharedQueue.Free` | src/queue.c:240-252 | lets go of every message of both rings, each once and in order |
| `Queues.SharedQueue.Drain` | src/queue.c:244-247 | the loop empties the ring and yields exactly its contents |
| `QueueModel.Clamp` | src/queue.c:180-182 | the carried span is a prefix, fits an int, is all of what fits, and is empty only for empty data |
| `QueueModel.ReadableIsExact` | src/queue.h:125-128 | readable exactly when a read would not block |
| `QueueModel.WritableIsExact` | src/queue.h:125-128 | writable exactly when a write of at least one byte would not block |
| `QueueModel.WriteIsNoticed` | src/queue.c:192-198 | a write that makes the peer readable leaves it a wake, though it signals only on an empty ring |
| `QueueModel.ReadIsNoticed` | src/queue.c:215-223 | a read that makes the peer writable leaves it a wake, though it signals only from a full ring |
| `QueueModel.AdvanceIsNoticed` | src/queue.c:260-270 | an end or a close always wakes a listening peer |
| `QueueModel.PeerKeepsReadiness` | src/queue.c:289-313 | no single section of the peer makes a ready end unready |
| `QueueModel.ReadinessIsStable` | src/queue.h:125-128 | after any run of peer sections, an end that was ready still does not block |
| `QueueModel.FifoUnderInterleaving` | src/queue.c:174-238 | in every interleaving each accepted message is taken once, in order, or is still in the ring, in each direction |
| `QueueModel.EndsMoveForward` | src/queue.h:30-36 | in every run each end only moves forward through its states |
| `QueueModel.EndOfStreamIsFinal` | src/queue.h:108-112 | once an end has read the end of the stream, every later read in every interleaving reads it too |
| `QueueLaws.WriteIsRejectedExactly` | src/queue.h:101-104 | a write of a byte or more fails exactly if its own end has ended or the peer has closed; one that is not taken changes nothing |
| `QueueLaws.WriteIsWhole` | src/queue.c:180-197 | a write that is taken is the peer's last message, whole or up to `INT_MAX` bytes, and moves nothing else |
| `QueueLaws.EndReachesPeer` | src/queue.h:114-117 | after an end or a close, in any continuation, the peer's reads do not block and the end's own writes fail |
| `QueueLaws.CloseReachesPeer` | src/queue.h:119-123 | after a close, in any continuation, the peer's writes fail and leave the queue as it was |
| `QueueLaws.EndLeavesPeerWriting` | src/queue.h:114-117 | a half-close takes nothing from the peer's writing nor from the end's own reading |
| `QueueLaws.WakesAreExact` | src/queue.h:84-91 | an end has a wake pending exactly if it had one not taken, or listens and the section put its first message, took one from its full outbox, ended or closed its peer, or opened it on messages |
| `QueueLaws.OpenCatchesUp` | src/queue.h:88-96 | an open that finds messages leaves that end a wake, at either end, and they are what it reads next |
| `HostModel.FetchTakesPrefix` | src/ipc.c:120-149 | a read returns a non-empty prefix of what is unread, no longer than asked for, or nothing at all |
| `HostModel.FetchOutcomeIsExact` | src/ipc.c:129-155 | a read blocks exactly when the ipc is not readable, and returns 0 on an open ipc exactly when the worklet has ended and nothing is unread |
| `HostModel.FetchTakesAllThatFits` | src/ipc.c:137-149 | a read returns all of the next message that fits, keeps the rest of it pending, and lets go of it exactly when none is left |
| `HostModel.ReadAloneFollowsStream` | src/ipc.c:119-160 | one uninterrupted read, both sections, takes its bytes off the front of the stream |
| `Ipcs.Ipc.Create` | src/ipc.c:13-48 | null exactly if the host end was opened before, with the queue unchanged; else an open ipc with nothing pending |
| `Ipcs.Ipc.Read` | src/ipc.c:119-160 | the buffer gets the next bytes of the stream, at most as many as asked for and at most `INT_MAX`; 0 means ended and used up; would-block changes nothing unread |
| `Ipcs.Ipc.Refill` | src/ipc.c:131-135 | takes the next message as pending, or tells the end from would-block |
| `Ipcs.Ipc.CopyOut` | src/ipc.c:137-151 | moves bytes of the pending message to the caller and lets go of it exactly when used up |
| `Ipcs.Ipc.SignalRest` | src/ipc.c:153-154 | wakes the poll again exactly while more remains |
| `Ipcs.Ipc.Write` | src/ipc.c:162-174 | accepted bytes, would-block or error, with a closed ipc always failing |
| `Ipcs.Ipc.End` | src/ipc.c:69-81 | ends the host end and wakes the poll; a closed ipc is left alone; the queue is never freed here |
| `Ipcs.Ipc.Close` | src/ipc.c:50-67 | gives up the host's share once, lets go of the pending message, and of both rings if the share was the last |
| `Ipcs.ReadyIsExact` | src/ipc.c:104-114 | readable exactly if asked for and no read would block; writable exactly if asked for and the port is closed or no write of a byte or more would block |
| `Ipcs.Ipc.Dispatch` | src/ipc.c:104-114 | the object's dispatch tells each event exactly so |
| `StreamModel.SendStrandsExactly` | src/worklet.js:52-59 | a sent chunk stays parked on a writable queue exactly when it is longer than one message, with room for a second one |
| `StreamModel.DrainTakesFront` | src/worklet.js:30-46 | the read loop takes messages off the front and stops only at the reader's demand, the end, or an empty ring |
| `StreamModel.DrainWakesBlockedHost` | src/worklet.js:30-46 | draining a full ring leaves the host a wake and room to write |
| `Streams.IpcStream.Drain` | src/worklet.js:30-46 | does nothing unless reading; else is the whole loop, and a reader left waiting has nothing to read |
| `Streams.IpcStream.ReadLoop` | src/worklet.js:33-45 | the loop pushes each message once, in order, and the end once |
| `Streams.IpcStream.Turn` | src/worklet.js:34-44 | one turn: end, message with or without further demand, or nothing |
| `Streams.IpcStream.Read` | src/worklet.js:25-28 | afterwards the stream waits exactly if the ring held less than demanded and the host had not ended |
| `Streams.IpcStream.Send` | src/worklet.js:52-59 | closed fails the chunk, a full ring parks it, a partial write parks its rest |
| `Streams.IpcStream.Retry` | src/worklet.js:61-68 | sends the parked chunk, and does nothing without one |
| `Streams.IpcStream.OnSignal` | src/worklet.js:84-87 | a retry, then a drain; afterwards the reader has nothing to read, and a parked chunk that fits one message has no room |
| `System.RunKeepsShape` | src/queue.c:174-287 | in every run: no queued message is empty, a live pending message has bytes left, the port is open exactly while the host end listens, and only unowned queues are freed |
| `System.SeenPortStaysOpen` | src/ipc.c:107-114 | in every interleaving, a dispatch that has seen the port open finds it open at its second check too, as does a read at its last, and the queue is not freed in between |
| `System.SendLog` | src/worklet.js:52-59 | all that a worklet write changes, for each of its three outcomes |
| `Refinement.ReadIsItsSteps` | src/ipc.c:119-160 | the object's read is its two concurrent sections run without a pause |
| `Refinement.CloseIsItsSteps` | src/ipc.c:50-67 | and its close is its section, release and signal, with the same buffers freed |
| `Refinement.DispatchIsItsSteps` | src/ipc.c:107-116 | and its dispatch is the two readiness checks, calling back exactly if something is ready |
| `Refinement.DrainIsItsTurns` | src/worklet.js:30-46 | and the stream's drain is its turns, one read of the queue each |
| `Refinement.ReadIsItsTurns` | src/worklet.js:25-28 | the stream's read is a step that asks and the turns of a drain |
| `Refinement.WriteIsItsStep` | src/ipc.c:162-174 | the object's write is its one section, or none on a closed ipc, and its accepted message is the one recorded |
| `Refinement.EndIsItsSteps` | src/ipc.c:69-81 | the object's end is its section and its signal run without a pause |
| `Refinement.OnSignalIsItsSteps` | src/worklet.js:84-87 | the stream's signal handler is a retry and the turns of a drain, with the same queue, parked chunk and messages |
| `Wakes.ReaderNeverMissesWake` | src/worklet.js:25-46 | in every interleaving, a worklet reader that waits on a readable queue has a wake pending |
| `Wakes.WriterNeverMissesWakeExactly` | src/worklet.js:48-68 | a parked worklet write on a writable queue has a wake pending or is being retried, in every interleaving, exactly if chunks fit one message or the capacity is at most 2 |
| `Wakes.LongChunkStrands` | src/worklet.js:57 | after a longer chunk, its rest stays parked on a queue with room, with no wake pending, through any continuation without a host write, end or close and without the worklet's exit |
| `Wakes.PollNeverMissesWake` | src/ipc.c:95-117 | in every interleaving, a started poll whose ipc is ready has a signal pending or coming, is about to look, or was told: readable, and nothing was read since, or writable, and no write blocked or filled the ring since |
| `Wakes.SilentUntilRoused` | src/ipc.c:219-230 | a sleeping poll thread with nothing pending stays so exactly until a read that returns bytes, an end or close, a start, or an event of the queue, however long its events are ready |
| `Wakes.NotLevelTriggered` | include/bare-kit.h:302-306 | the run that ends so, with a poll started for readable whose callback has returned, on an ipc that is still readable |
| `Wakes.CallbackCanAct` | src/ipc.c:104-116 | in every interleaving, a callback told readable does not block its first read, nor one told writable its first write |
| `Callbacks.FirstCheckIsExact` | src/ipc.c:107-110 | the dispatch's first section keeps readable exactly if asked for and no read would block, and leaves writable to the second |
| `Callbacks.SecondCheckIsExact` | src/ipc.c:111-116 | the second settles writable likewise, and calls back with exactly what both found, if anything |
| `Callbacks.CalledOnlyAsAsked` | src/ipc.c:105-116 | in every interleaving a callback is called with some event, and only with events that its dispatch found asked for |
| `Callbacks.StoppedPollIsNotCalled` | src/ipc.c:195-238 | once a poll is detached, or either half of a stop is done, while the thread sleeps, no callback runs in any continuation without a start |
| `Wakes.HostKeepsWorkletAwake` | src/queue.c:192-223 | every host section keeps both wake invariants of the worklet end |
| `Wakes.HostReadKeepsPollAwake` | src/ipc.c:129-155 | a host read keeps the poll's invariant, thanks to the second signal after bytes |
| `Conservation.WorkletBytesReachHost` | src/worklet.js:48-68 | in every interleaving, until an end closes: bytes handed to the stream == bytes read, then the rest of pending, then the ring, then the parked rest |
| `Conservation.HostWritesReachWorklet` | src/worklet.js:30-46 | in every interleaving what the worklet's reader got is a prefix of the host's accepted messages, with boundaries and in order; until the queue is freed the ring holds exactly the others, and the reader is given its end only after the last |
| `Conservation.HostEofIsExact` | src/ipc.c:129-155 | in every interleaving, a read of an open ipc returns 0 exactly if the worklet has ended and every byte that it wrote was returned |
| `Conservation.HostEofIsFinal` | src/ipc.c:129-155 | after a read returned 0, every later read in every interleaving returns 0 |
| `Conservation.ClosedReadsEof` | src/ipc.c:50-67 | a closed ipc reads the end of the stream for good |
| `Conservation.AfterExitNothingBlocks` | src/worklet.c:637-638 | once the worklet end is closed no host read blocks and every non-empty host write fails |
| `Conservation.ReadsAfterExitAreCounted` | src/ipc.c:119-160 | from then on each read either sees the end or leaves at least one byte fewer, whatever else runs |
| `Endings.ExitIsSeen` | src/worklet.c:637-638 | once a run contains the worklet's exit, host reads never block and host writes of a byte or more fail |
| `Endings.ExitReachesHost` | include/bare-kit.h:147-152 | and a reading host reaches the end within as many reads as bytes remain, whatever else runs |
| `Endings.FinalIsSeen` | src/worklet.js:70-75 | once a run contains the stream's final, host reads never block and the worklet writes no more |
| `Endings.HostEndIsSeen` | src/ipc.c:50-81 | once a run contains the host's end or close, the worklet's reader never blocks and host writes fail |
| `Endings.CloseDropsChunks` | src/worklet.js:52-59 | once a run contains the host's close, a chunk handed over or parked is dropped, and neither accepted nor parked |
| `Endings.LastShareFrees` | src/queue.c:254-287 | once the worklet has given up its share, the queue and all that it held are gone exactly if the host end is closed or was never opened |
| `Endings.EarlyMessagesAreHeard` | src/queue.c:142-148 | in every interleaving, until the worklet takes its first wake it has one pending if messages wait, also those from before its open |
| `Buffers.BuffersFreedExactlyOnce` | src/queue.c:186-252 | in every interleaving each allocated buffer is in exactly one of: either ring, pending, JavaScript, freed; and is freed once the queue is gone and JavaScript holds none |
| `Release.EveryBufferCanBeFreed` | src/queue.c:240-287 | from every reachable state both sides can let go, whereupon every buffer that was ever allocated was freed exactly once |
| `Buffers.HostReadKeepsBuffer` | src/ipc.c:131-149 | a read moves a buffer from ring to pending to freed, and never copies or drops one |
| `Buffers.CloseKeepsBuffer` | src/ipc.c:54-60 | a close frees pending, and the rings' buffers exactly if the share was the last |
| `Lifecycle.OpenFollowsQueue` | src/queue.c:153-172 | the lifetime protocol's open decides as the queue's section does |
| `Lifecycle.CloseFollowsQueue` | src/queue.c:256-276 | and its close finds the last share gone exactly when the queue's section does |
| `Lifecycle.ThreadDropFollowsQueue` | src/worklet.c:675 | as does the thread's release of its share |
| `Lifecycle.HostDropFollowsQueue` | src/worklet.c:129-130 | and the host's, for a worklet that never started |
| `Lifecycle.HalfCloseFollowsQueue` | src/queue.c:279-282 | its half-close moves the host end as the queue's section does |
| `Lifecycle.ThreadEndsFollowQueue` | src/worklet.c:570-638 | its open and close by the worklet thread move the worklet end as the queue's sections do |
| `Lifecycle.HostEndFollowsQueue` | src/worklet.c:124-129 | and so does the host's close for a worklet that never started |
| `Lifecycle.StepKeepsInv` | src/worklet.c:115-136 | every step of the host calls and of the worklet thread keeps the ownership invariant |
| `Lifecycle.NothingUsedAfterRelease` | src/worklet.c:625-681 | in every interleaving no step touches the worklet, its state, the semaphore, `bare`, the queue, its async handle, an ipc or a signal after release; a call that has found `bare` under the state's lock may go on to use it |
| `Lifecycle.NoQueueUseOnceUnowned` | src/queue.c:254-287 | after the step that finds the last share gone, the only use of the queue is the one that frees it |
| `Lifecycle.ReleasedExactlyOnce` | src/worklet.c:115-136 | worklet, state and queue are freed at most once, and exactly once when all are done; the exit callback is called once for a started worklet |
| `Lifecycle.WorkletOutlivesBarrier` | src/worklet.c:563-625 | in every run the worklet object of a started thread is alive up to the barrier, with the host waiting there, and its release comes only after the barrier and the post |
| `Lifecycle.ThreadOutlivesPost` | src/worklet.c:670-681 | in every run the thread's semaphore and the state are alive from the barrier until the host's post, and the state is released only after it, with no host call in it or on its way |
| `Lifecycle.ExitComesAfterClose` | src/worklet.c:637-666 | the exit callback finds the worklet end closed, `bare` torn down and out of reach, and the async handle retired |
| `Lifecycle.EndIsClosedBeforeTheDrop` | src/worklet.c:124-130 | whoever gives up the worklet's share has closed its end, also for a worklet that never started, so that an open ipc reads the end |
| `Lifecycle.FirstIpcOpens` | src/ipc.c:32-40 | the first ipc to open gets the host end and every later one is refused, whatever happened before |
| `Lifecycle.CallsUseBareExactly` | src/worklet.c:728-810 | a call that takes the state's lock goes on to use `bare` exactly if it is there |
| `Finishing.EveryoneCanFinish` | src/worklet.c:115-136 | from every reachable state all calls, ipcs and threads can come to their end, with everything released once and a started worklet's exit callback called once |
| `PollThread.NothingUsedAfterRelease` | src/standalone/ipc.c:30-70 | in every interleaving neither signal, ipc nor poll is touched after release, also when a callback destroys its own poll or ipc |
| `PollThread.NoCallbackAfterDestroy` | src/standalone/ipc.c:150-159 | once a poll or the ipc was destroyed by another thread, no callback of it is running |
| `PollThread.DestroyedForGood` | include/bare-kit.h:275-280 | nor will one run, in any continuation |
| `PollThread.SignalFreedExactlyOnce` | src/standalone/ipc.c:126-145 | the signal is freed at most once, and exactly once on both the joining and the detached path |
| `PollThread.EveryoneCanFinish` | src/standalone/ipc.c:115-147 | from every reachable state whatever is in progress can finish, joins and destroys from callbacks included, and a destroy once begun leaves neither ipc nor signal |
| `PollThread.WakeGetsToCallback` | src/standalone/ipc.c:29-38 | a wake of the sleeping thread gets to a callback of the attached poll, under the lock |
| `PollThread.SignalObject.Attach` | src/standalone/ipc.c:150-159 | the poll is set under the lock; the method is a run of the protocol's steps |
| `PollThread.SignalObject.Detach` | src/ipc.c:195-202 | the poll is unset under the lock before it is freed |
| `PollThread.SignalObject.Unreach` | src/standalone/ipc.c:115-130 | the ipc is unreachable and the thread told to close, with the lock let go of |
| `PollThread.SignalObject.Leave` | src/standalone/ipc.c:131-136 | from a callback: the ipc is freed and the signal is left to its thread |
| `PollThread.SignalObject.Join` | src/standalone/ipc.c:137-145 | from another thread: both are freed, after the thread's exit |
| `PollThread.SignalObject.OnWake` | src/standalone/ipc.c:29-38 | calls the poll that is set exactly if the ipc is there, the poll has a callback, and something that it asked for is ready on the ipc; that poll is alive |
| `Deadlock.CallIsDisciplined` | src/ipc.c:13-202 | every call takes the locks in the order `running`, the ipc's, the queue's, whatever branches it takes, also nested in a callback; a join, or a refused create's wait for its own thread, holds nothing that the awaited thread takes |
| `Deadlock.DispatchIsDisciplined` | src/standalone/ipc.c:29-38 | a wake, whichever of its checks need the queue and whatever calls its callback makes, does too, with `running` taken again |
| `Deadlock.DeadlockFree` | src/standalone/ipc.c:115-147 | in every interleaving of any number of threads, if a call is unfinished then some thread can go on or the poll thread can exit, joins and refused creates included |
| `Deadlock.QueueLockIsLast` | src/queue.c:72-78 | who holds the queue's lock can always go on, so a signal callback waits for nobody |
| `Deadlock.DestroyWaits` | src/standalone/ipc.c:137-140 | in every interleaving, when a destroy by another thread is over the poll thread has exited, with no callback left and no lock held |
| `Deadlock.SectionsExclude` | src/ipc.c:50-174 | no two threads hold the same lock, and a host call enters the queue only with the ipc's lock held |
| `Teardown.CountIsExact` | src/worklet.c:694-716 | the counter is the number of starts admitted and not stopped, failed thread creations included |
| `Teardown.TeardownWaitsForAll` | src/worklet.c:274-287 | teardown passes only when every admitted worklet has stopped, and each has either returned from its exit callback or never had a thread |
| `Teardown.NoneAdmittedAfterTeardown` | src/worklet.c:694-702 | once a run contains a call of teardown, no continuation admits a start |
| `Teardown.StartsAreAdmitted` | src/worklet.c:694-702 | and before, every start is admitted and counted |
| `Teardown.WaiterIsNeverStranded` | src/worklet.c:265-272 | a sleeping teardown was signalled exactly if none is left, and will pass, or else some worklet has yet to stop |
| `Teardown.TeardownCanPass` | src/worklet.c:265-287 | from every reachable state all worklets can stop, whereupon a sleeping teardown passes at its next wake |
| `Teardown.Running.Admit` | src/worklet.c:694-702 | counts the start exactly if teardown was not called |
| `Teardown.Running.OnStopped` | src/worklet.c:265-272 | signals exactly when no admitted worklet is left |
| `Teardown.Running.Test` | src/worklet.c:280-287 | sets the flag and passes exactly when no admitted worklet is left |
| `Suspension.NoTaskLeaks` | src/ios/suspension.m:26-71 | in every interleaving a begun task that was not ended is stored or in the hands of a start, an end or a handler |
| `Suspension.NoTaskAfterClear` | src/worklet.c:640-649 | once a run contains the clear of `bare`, in any continuation no task can begin and none has, none is stored, and those not in hand were ended |
| `Suspension.EndedTwiceExactly` | src/ios/suspension.m:34-45 | in every run, a task that is neither stored nor in hand was ended twice exactly if its handler's compare-exchange lost, and once otherwise |
| `Suspension.EndsAreExact` | src/ios/suspension.m:26-71 | at every point of every run a task was ended at most twice, and twice exactly if nobody else owns it and its handler has finished after losing |
| `Suspension.EndBeatsHandler` | src/ios/suspension.m:66-68 | one way to lose: an end takes the task out before the handler's compare-exchange |
| `Suspension.HandlerBeatsStore` | src/ios/suspension.m:34-45 | the other: the handler runs before the exchange stores the task, which leaves a task stored that has ended already |
| `Suspension.BackgroundTask.Start` | src/ios/suspension.m:26-56 | stores the new task, or none if the system refused one, and ends exactly the one that it replaces |
| `Suspension.BackgroundTask.End` | src/ios/suspension.m:58-71 | takes the stored task, if any, and ends it; after the last one no task can begin |
| `Suspension.BackgroundTask.Expire` | src/ios/suspension.m:34-41 | unsets the identifier only if it is still this task's, and ends the task |
| `Extract.FinalPathsAreWhole` | src/worklet.js:156-164 | for any number of extractors that may each crash at any step, and any way to join paths, a final path holds the whole of a resource that goes there or is absent |
| `Extract.ListingComesLastExactly` | src/worklet.js:130-154 | in every such run the listing's presence means that every listed path is there, exactly if no key that is reached and that the join maps onto the listing precedes a new path |
| `Extract.DoneMeansListed` | src/worklet.js:143-153 | an extractor that is done has left the listing in place, if the application lists anything |
| `Extract.ListedIsLeftAlone` | src/worklet.js:137 | where the listing is there already nothing is written, however many extractors begin |
| `Extract.CompletesAlone` | src/worklet.js:132-154 | if everything is there to read, an extractor can run to its end, and then has placed everything |
| `Extract.SlashedKeysAreSafe` | src/worklet.js:143-151 | keys that begin with a slash, and that the join appends as they stand, meet that condition |
| `Extract.KeyOntoListingIsUnsafe` | src/worklet.js:150 | a key that the join maps onto the listing, such as one with `..` in it, does not, if a new path follows |
| `Extract.UnsafeRun` | src/worklet.js:143-151 | a run that shows the listing too early, for any package that does not |
| `Disks.Disk.WriteWhole` | src/worklet.js:156-164 | one file is replaced by its whole data, and no other path changes |
| `Disks.Disk.Extract` | src/worklet.js:132-154 | skipped exactly if the listing is there or nothing is listed; else missing at the first absent resource, or all in place: each with exactly the files that are there then, and where several names share a path, with the last |
| `Disks.InstallIsWhole` | src/worklet.js:143-153 | installing gives each final path the whole of the last resource that goes there, and leaves all others as they were |

## Left out

- JavaScript, the Bare runtime and bare-stream are not part of this model. Of the stream it is taken that one write is outstanding at a time, that `_final` comes after the writes have drained, and that `push` does not re-enter the read loop; `_read` and `push` results are arbitrary otherwise.
- Reference counts of the worklet's loop (`ref`, `unref`, `_destroy` in `src/worklet.js:77-97`): they decide when the loop may stop, which is Bare's to say.
- The flags `resuming`, `suspended` and `finished` of the worklet's state: what they mean depends on how Bare orders suspend, resume and idle, which is not part of this model. Any handler may end the background task at any time.
- libuv's primitives are modelled by their contracts: mutexes exclude, a recursive one counts, asyncs coalesce and their flag is cleared before the handler runs, a condition's signal may also come from nowhere, joins wait for the thread's last step, a barrier lets both sides leave together.
- Liveness under a fair scheduler: what is proved instead is that the wake is pending or on its way, that some thread can always go on, that from every reachable state there is a run on which everyone finishes, and that reads after exit count down.
- Wakes.PollNeverMissesWake: weaker than the level-triggering that `include/bare-kit.h:302-306` describes, because a callback that neither reads nor restarts its poll is not called again by the code.
- Ipcs.Ipc.Create: does not fail for a terminated worklet, as `include/bare-kit.h:222-226` says, because the code tests only for an earlier open.
- Allocation failures, and a queue opened with a NULL callback.
- Misuse that the documentation excludes: two polls of one ipc at once, calls on an ipc while another thread destroys it, an ipc created while its worklet is being destroyed.
- A write's copy of its data is one step with its queue section. The buffer is the writer's alone in between, so no other step could tell.
- `bare_queue_open_uv` sends its catch-up wake after letting go of the lock; in the model both are one step, which the worklet's own thread cannot tell apart as it only handles wakes later.
- Protocols whose every step interleaves (`src/worklet.c`'s hand-over, the whole system of `System.dfy`) are state machines on values, without an object: between any two steps of a method other threads run, so that no method's contract could speak of it alone. Aliasing is captured by which objects are alive, not by references.
- The lock of the worklet's state is modelled in `Lifecycle.dfy` and not in the lock order of `Deadlock.dfy`: it is held over calls into Bare, which are not part of this model.
- An exit callback that calls back into the host, and the platform thread that outlives worklets.
- Suspension.NoTaskLeaks: an expiration handler fires only once `next` is assigned, which it reads, though possibly before `next` is stored; the time that the system grants is not modelled.
- Extract.FinalPathsAreWhole: the random suffix is assumed to give a new name that is not itself a final path. How paths are joined is a parameter, and splitting the listing into lines is not modelled: any keys are allowed. Making directories is left out, and a rename is atomic as file systems promise.
- The meaning of addresses: a buffer's `id` stands for its address, and never repeats.
- Platform glue (`src/apple`, `src/android`, `src/unix`), option copying, setters and getters: no property of interest.
