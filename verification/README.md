# Verification of the serverlite core

serverlite is a reactor network library: every event loop is one thread that waits in
`epoll_wait`, handles a batch of events, and then runs a batch of queued tasks; other threads
reach it only through its task queue and an `eventfd`. On top of that sit TCP connections with
write buffering and half-close, a server that spreads connections over I/O loops, a bounded
thread pool, an asynchronous logger, a length-prefixed protobuf codec, an HTTP request parser
and an in-memory database that speaks RESP. This project models those parts in Dafny and proves
what they are for.

Run `dafny verify dfyconfig.toml` in this directory.

## How it is organised

| file | part of the system | form |
|---|---|---|
| `Adler32.dfy` | the checksum of RFC 1950 | functions and lemmas |
| `Streaming.dfy` | a receive buffer that grows by chunks, and any parser that consumes it from the front | functions and lemmas |
| `ProtobufCodec.dfy` | frame encoder and incremental decoder | methods for encoder and decoder loop, lemmas about the fold they compute |
| `EventLoopTasks.dfy` | task queue, `quit`, `eventfd` wakeups | class for the fields, step relation for the threads |
| `ThreadPool.dfy` | one mutex, two condition variables, stop and join | class for the locked sections, step relation for the threads |
| `TCPConnection.dfy` | send, write events, half-close | class for the connection, step relation for loop, kernel and other threads |
| `Registration.dfy` | `Channel` and the loop's channel map and epoll table | heap classes |
| `ConnectionLifetime.dfy` | accept, establish, close, remove and destroy across loops | step relation over all loops |
| `Revival.dfy` | what a send on a closed connection leads to | lemmas about every continuation of a loop |
| `LateShutdown.dfy` | runs in which a late store of `shutdown()` does harm | explicit runs |
| `Lines.dfy`, `Numbers.dfy`, `MemDb.dfy` | the RESP parser, its commands and the map | classes, lemmas |
| `AsyncLogger.dfy` | front end, backend and bounded dropping | class, step relation |
| `HTTPCodec.dfy` | request line, headers, dispatch | class, lemmas |
| `EventLoopThreadPool.dfy` | round-robin choice of a loop | class, lemmas |
| `Common.dfy` | options, octets, flattening | functions |

Concurrency is modelled by a step relation: `Enabled` says which thread can do what, `Apply`
does it, `Runs` chains steps, and the theorems quantify over every run from an initial state.
Steps interleave sequentially consistently and follow the order of operations of the code: a
`pushTask` is an enqueue followed later by a wakeup, a `quit` is a store, a look at `doingTask_`
and a wakeup, a condition-variable wait is asleep, notified or back at the lock. The kernel is a
nondeterministic participant: `::send` takes any prefix or fails with any of the errors that
the code tells apart, `epoll_wait` reports any selection of what the tables allow, timeouts and
spurious wakeups may happen at any time. Where the code updates an object in place, a class has
the same fields and its methods are proved against the same functions that the step relation
uses, so the theorems over runs are about what the methods do.

History that the code does not keep (pushes made, bytes taken on, tasks dequeued, UP and DOWN
callbacks) is recorded in the model's states; no step looks at it.

## Where the code does not do what one would expect

The code was kept as it is. For each of these there is a lemma that says exactly when the
expected property holds, or a run that shows it fail.

- `shutdown()` tests and stores `state_` without a lock. When another thread's test comes before
  a close and its store after it, a closed connection becomes DISCONNECTING again. Bytes can
  then be pending behind a half-close (`TCPConnection.StoreOvertakesClose`,
  `TCPConnection.AgreementBreaksExactly`, `TCPConnection.HalfCloseBreaksExactly`). For the life
  of connections the store alone does no harm; a send on the connection after it does: it can be
  closed twice, its removal fails an assertion, and it can take a descriptor away from another
  connection (`ConnectionLifetime.DisciplineBreaksExactly`, the runs in `LateShutdown.dfy`). No
  such send fails at once as long as something holds the connection
  (`ConnectionLifetime.HeldSendsFailNothing`), and every one of them can be continued to a
  failure (`Revival.RevivalIsFatal`). The results about ownership, teardown and registration are
  for runs up to the first such send.
- The codec accepts any byte as the end of a type name (`ProtobufCodec.TerminatorUnchecked`).
- The HTTP parser works on a local copy of the request, so a request split after its first line
  loses what came before (`HTTPCodec.SplitServes`, `HTTPCodec.SplitIntactExactly`). A header such as `Host:` makes it
  throw (`HTTPCodec.HeaderThrowsExactly`).
- A GET without a key leaves its command in the RESP context (`MemDb.IdleAgainExactly`) and is
  executed again by an empty read (`MemDb.RunsTwiceExactly`).
- A log longer than `kBufferSize` makes an unsigned difference wrap, after which the buffer
  never counts as full (`AsyncLogger.OversizeNeverFull`); the last buffers are lost at a stop
  (`AsyncLogger.CompleteAtExitExactly`). The notice about dropped buffers contains a literal
  `%zd`, as in the code. The backend holds the mutex while it writes, although an inner block
  suggests a shorter critical section; the model keeps producers out during a write.
- `setThreadNum` after `start` can make `getNextLoop` throw
  (`EventLoopThreadPool.NeverOutOfRangeExactly`).

## Model

| member | source | states |
|---|---|---|
| `ProtobufCodec.StreamRoundTripExactly` | src/slite/protobuf/ProtobufCodec.cc:138-172 | a list of encoded messages decodes to exactly that list, with no error and nothing left, if and only if every message is deliverable: known non-empty type name, payload that parses, frame of at most 64 MiB |
| `ProtobufCodec.ChunkedRoundTrip` | src/slite/protobuf/ProtobufCodec.cc:138-172 | the frames of deliverable messages, cut into any chunks, arrive as exactly those messages in order; no call on any prefix reports an error and the buffer ends empty |
| `ProtobufCodec.ReceiveIndependentOfChunks` | src/slite/TCPConnection.cc:151-152 | for every byte stream, valid or corrupt, and every way to cut it, messages delivered, residual buffer and the error after each chunk are those of one call on everything received so far |
| `ProtobufCodec.DecodeSound` | src/slite/protobuf/ProtobufCodec.cc:138-172 | converse of the round trip on every byte stream: what a call consumed is exactly the frames of the messages it delivered, up to the byte that ends each name, and all of those are deliverable |
| `ProtobufCodec.BadFrameSticks` | src/slite/protobuf/ProtobufCodec.cc:147-165 | once a bad frame is at the head, later bytes change neither what was delivered nor the error |
| `ProtobufCodec.OneByteCorruption` | src/slite/protobuf/ProtobufCodec.cc:195-237 | any one byte of a checksummed body changed (name length, name, payload or checksum) makes parse return kCheckSumError and no message, for bodies of any length |
| `ProtobufCodec.TwoByteCorruptionExactly` | src/slite/protobuf/ProtobufCodec.cc:195-237 | two changed bytes under the checksum go unnoticed if and only if the differences cancel and the positions are a multiple of 65521 apart; so two changes at most 256 apart are always caught |
| `ProtobufCodec.CorruptedFrameStops` | src/slite/protobuf/ProtobufCodec.cc:157-165 | in a stream, in any chunks: all messages before a frame with one corrupted body byte are delivered, that frame and everything after it stays in the buffer, and the last call reports kCheckSumError |
| `ProtobufCodec.TerminatorUnchecked` | src/slite/protobuf/ProtobufCodec.cc:207 | a frame whose name ends in a byte other than NUL is a different frame, yet is delivered like the encoder's: the terminator is not checked |
| `ProtobufCodec.ParseEncodedExactly` | src/slite/protobuf/ProtobufCodec.cc:191-240 | an encoded body parses back to its own message if and only if its name is non-empty, its type known and its payload valid; whenever there is no error the message is the encoded one |
| `ProtobufCodec.ParseSound` | src/slite/protobuf/ProtobufCodec.cc:191-240 | any body that parse accepts is the encoding of the message it returns |
| `ProtobufCodec.CheckSumErrorExactly` | src/slite/protobuf/ProtobufCodec.cc:196-201 | kCheckSumError is returned if and only if the last four bytes differ from the checksum of the rest, in spite of the signed comparison |
| `ProtobufCodec.UndeliverableStays` | src/slite/protobuf/ProtobufCodec.cc:147-165 | the frame of a message that is not deliverable blocks the stream: nothing is delivered and the frame stays at the head, whatever follows |
| `ProtobufCodec.FillEmptyBuffer` | src/slite/protobuf/ProtobufCodec.cc:26-77 | the appends and the final insert at the front leave exactly the frame layout: length, name length, name with NUL, payload, Adler-32 of what precedes |
| `ProtobufCodec.OnMessage` | src/slite/protobuf/ProtobufCodec.cc:138-172 | the loop over the shrinking buffer computes the fold that the theorems are about: messages delivered, bytes left, error reported; what that error is, HeadExactly and ErrorExactly say |
| `ProtobufCodec.HeadExactly` | src/slite/protobuf/ProtobufCodec.cc:138-172 | on every buffer: fewer than 14 bytes wait; kInvalidLength exactly when the length is outside 10 to 64 MiB; a frame that is not all there waits; otherwise the body's own error, or its message and the rest of the buffer |
| `ProtobufCodec.ErrorExactly` | src/slite/protobuf/ProtobufCodec.cc:191-240 | on every body: kCheckSumError, kInvalidNameLen, kUnknownMessageType, kParseError or none, each under its exact condition on checksum, name length, type and payload |
| `ProtobufCodec.ErrorOfEncoded` | src/slite/protobuf/ProtobufCodec.cc:191-240 | for every encoded body, whatever ends the name: kInvalidNameLen for an empty name, kUnknownMessageType for an unknown type, kParseError for a bad payload, in this order, else no error |
| `ProtobufCodec.AnswerToFrame` | src/slite/protobuf/ProtobufCodec.cc:138-172 | the answer to the frame of every encodable message, with anything behind it: kInvalidLength when it is too long, else the error of its body, else its delivery |
| `ProtobufCodec.FrameLayout` | src/slite/protobuf/ProtobufCodec.cc:26-77 | where each part of a frame lies, read as big-endian numbers: length of what follows, length of the name with its NUL, name, NUL, payload, checksum of what the checksum covers |
| `ProtobufCodec.BigEndianBytes` | src/slite/protobuf/ProtobufCodec.cc:131-136 | the four bytes written for a length are its big-endian digits |
| `ProtobufCodec.DecoderIncremental` | src/slite/protobuf/ProtobufCodec.cc:138-172 | a verdict on the head of the buffer is never changed by bytes that arrive later |
| `ProtobufCodec.Int32RoundTrip` | src/slite/protobuf/ProtobufCodec.cc:131-136 | htonl and asInt32 are inverse on all 32-bit values, with the reinterpretation of large unsigned values as negative |
| `ProtobufCodec.Int32BytesOfInt32` | src/slite/protobuf/ProtobufCodec.cc:131-136 | re-encoding what asInt32 read gives back the same four bytes |
| `Adler32.RunIsReduced` | src/slite/protobuf/ProtobufCodec.cc:69-72 | the running sums, reduced at every byte, are the two plain sums modulo 65521 (section 8.2 of RFC 1950) |
| `Adler32.KnownChecksum` | src/slite/protobuf/ProtobufCodec.cc:69-72 | the checksum of the three bytes abc is 0x024D0127, as RFC 1950 has it |
| `Adler32.OneByteDetected` | src/slite/protobuf/ProtobufCodec.cc:197-201 | changing any one byte of any data changes the checksum |
| `Adler32.TwoBytesDetectedExactly` | src/slite/protobuf/ProtobufCodec.cc:197-201 | changing two bytes keeps the checksum if and only if the differences cancel and 65521 divides the distance; rests on 65521 having no divisor below 256 |
| `Streaming.ChunkIndependence` | src/slite/TCPConnection.cc:151-152 | appending chunks to a buffer and running any incremental parser after each one ends where one run on the whole stream ends, and so does every prefix |
| `Streaming.ErrorSticks` | src/slite/protobuf/ProtobufCodec.cc:161-165 | after an error, more bytes only lengthen the buffer |
| `EventLoopTasks.NoLostWakeup` | src/slite/EventLoop.cc:77-138 | in every run from an empty queue: at epoll_wait with tasks queued the eventfd is readable or some thread is on its way to wakeup(); with quit_ set, also a thread that has stored quit_ and not yet looked at doingTask_ |
| `EventLoopTasks.QuitterWillWake` | src/slite/EventLoop.cc:77-83 | a thread that has stored quit_ while the loop polls does not skip its wakeup |
| `EventLoopTasks.SleepingMeansDone` | src/slite/EventLoop.cc:126-138 | if the loop sleeps with the eventfd unreadable and no thread between its store and its wakeup, every task ever pushed has run and quit_ is not set |
| `EventLoopTasks.TaskOrder` | src/slite/EventLoop.cc:204-218 | all pushes, in order, are the tasks started, then the rest of the current batch, then the queue; for each thread, those started are a prefix of its calls |
| `EventLoopTasks.BatchIsSnapshot` | src/slite/EventLoop.cc:206-217 | when a batch ends, exactly the tasks pushed before the queue was taken have run and the queue holds exactly the later ones |
| `EventLoopTasks.NextBatchRunsIt` | src/slite/EventLoop.cc:204-218 | a task pushed before the queue is taken has run by the end of that task phase |
| `EventLoopTasks.StepKeepsInv` | src/slite/EventLoop.cc:77-218 | every step of the loop thread, of pushers and of quitters keeps phases, pending wakeups, pending quits and queue order |
| `EventLoopTasks.DoTaskSummary` | src/slite/EventLoop.cc:204-218 | a task phase leaves in the queue exactly what its own tasks posted, in order, with one wakeup per post and none for a quit |
| `EventLoopTasks.DoTaskIsRun` | src/slite/EventLoop.cc:204-218 | the sequential doTask computes what the protocol's steps of an undisturbed task phase compute |
| `EventLoopTasks.EventLoop.PushTask` | src/slite/EventLoop.cc:126-138 | enqueues, and raises the eventfd's counter unless called from the loop thread outside a task phase |
| `EventLoopTasks.PushIsRun` | src/slite/EventLoop.cc:126-138 | pushTask in another thread, at any moment, is a run of the protocol: an enqueue and always a wakeup |
| `EventLoopTasks.PushInEventIsRun` | src/slite/EventLoop.cc:126-138 | pushTask in an event callback, in every run, is one step that enqueues and leaves the eventfd alone |
| `EventLoopTasks.EventLoop.Quit` | src/slite/EventLoop.cc:77-83 | sets quit_, and raises the eventfd's counter unless a task phase is going on |
| `EventLoopTasks.QuitIsRun` | src/slite/EventLoop.cc:77-83 | quit in another thread is a run of the protocol: the store, the look at doingTask_, and a wakeup unless a task phase was seen |
| `EventLoopTasks.QuitInEventIsRun` | src/slite/EventLoop.cc:77-83 | quit in an event callback, in every run: the store and a wakeup |
| `EventLoopTasks.EventLoop.DoTask` | src/slite/EventLoop.cc:204-218 | runs the tasks queued at its start, in order, and no others, although they may push and quit |
| `EventLoopTasks.EventLoop.RunFunctor` | src/slite/EventLoop.cc:213-215 | one task: its pushes and quits take effect in order, once |
| `EventLoopTasks.EventLoop.HandleRead` | src/slite/EventLoop.cc:186-193 | reads the eventfd's counter and resets it |
| `EventLoopTasks.HandleReadIsRun` | src/slite/EventLoop.cc:186-193 | reading the eventfd is the protocol's step: the counter is zero after it and nothing else has changed |
| `ThreadPool.BoundedFifo` | src/slite/ThreadPool.cc:63-103 | for any number of workers and callers and any interleaving: accepted tasks are the dequeued ones followed by the queue, each dequeued once, and a positive bound is never exceeded |
| `ThreadPool.CallersTasks` | src/slite/ThreadPool.cc:63-79 | in every run, for each caller: the tasks of its calls of run, in order, are those queued, then those refused after the stop, then the one it still carries; without workers run executes each of them itself; nothing is refused while the pool runs |
| `ThreadPool.WorkersTasks` | src/slite/ThreadPool.cc:81-120 | in every run, for each worker: what it has dequeued is what it has executed, in order, and the task in hand; all workers together have dequeued what has left the queue |
| `ThreadPool.SleepersAreCovered` | src/slite/ThreadPool.cc:63-97 | while running, if a worker sleeps un-notified then the queue is no longer than the notified workers; if a caller sleeps un-notified then the free slots are no more than the notified callers; spurious wakeups and barging included |
| `ThreadPool.NoDeadlock` | src/slite/ThreadPool.cc:63-97 | while running and with nobody notified, sleeping workers and blocked callers never coexist, and sleeping workers mean that every accepted task has been taken |
| `ThreadPool.StuckMeansFinished` | src/slite/ThreadPool.cc:63-97 | a running pool in which no thread can move except by a spurious wakeup has nothing left to do: queue empty, all workers asleep, no caller inside run |
| `ThreadPool.AfterTheStop` | src/slite/ThreadPool.cc:44-97 | in every continuation of a stop: nobody is asleep, run accepts nothing more, and each worker dequeues at most one more task |
| `ThreadPool.JoinCompletes` | src/slite/ThreadPool.cc:44-55 | after a stop the workers make at most three steps each, and as long as one of them has not returned some worker step is possible: all joins complete, given terminating tasks |
| `ThreadPool.StepKeepsInv` | src/slite/ThreadPool.cc:44-120 | every locked section, wakeup and return keeps order, coverage of sleepers, quiet after stop and the one-late-task bound |
| `ThreadPool.StepNearer` | src/slite/ThreadPool.cc:105-120 | after the stop every worker step brings the workers strictly nearer to having returned, and no other step moves them away |
| `ThreadPool.RunningNeverExits` | src/slite/ThreadPool.cc:113-120 | no worker returns while the pool is running |
| `ThreadPool.ThreadPool.Run` | src/slite/ThreadPool.cc:63-79 | the locked part of run: wait while a running pool is full, give up after a stop, or put the caller's own task at the end of the queue and notify one sleeping worker if there is one |
| `ThreadPool.RunFields` | src/slite/ThreadPool.cc:63-79 | the protocol's step field by field: the caller sleeps with its task on a full running pool, otherwise leaves; its own task is appended if and only if the pool runs and has room, and then one sleeping worker, if there is one, is notified |
| `ThreadPool.ThreadPool.Take` | src/slite/ThreadPool.cc:81-97 | the locked part of take: wait, or dequeue the front and notify one blocked caller when the queue is bounded, or return no task after a stop |
| `ThreadPool.TakeFields` | src/slite/ThreadPool.cc:81-97 | the protocol's step field by field: sleep on an empty queue unless stopped, or the front goes to the worker and one blocked caller of a bounded queue, if there is one, wakes with its own task |
| `ThreadPool.ThreadPool.StopAll` | src/slite/ThreadPool.cc:46-51 | clears running_ and notifies all sleepers of both conditions |
| `TCPConnection.ByteConservation` | src/slite/TCPConnection.cc:98-182 | in every run, also one that closes in the middle: bytes accepted by the kernel followed by sendBuffer_ are exactly the chunks taken on by sendInLoop, in execution order |
| `TCPConnection.ThreadSendOrder` | src/slite/TCPConnection.cc:89-138 | for each other thread: its chunks already executed followed by those still queued are its calls, in order |
| `TCPConnection.WriteInterest` | src/slite/TCPConnection.cc:133-170 | in every run write interest is never on without pending bytes; before a shutdown, and while DISCONNECTING unless a store has overtaken a close, it is on exactly while sendBuffer_ is non-empty |
| `TCPConnection.HalfCloseOrder` | src/slite/TCPConnection.cc:172-234 | in every run, when the socket has been shut down while DISCONNECTING, every chunk taken on so far is with the kernel, unless a store has overtaken a close |
| `TCPConnection.HalfCloseBreaksExactly` | src/slite/TCPConnection.cc:157-234 | in every run, a step leaves bytes pending behind a half-close if and only if it is a queued shutdownInLoop that finds bytes pending without write interest while DISCONNECTING, or a store on a DISCONNECTED, half-closed connection with bytes pending |
| `TCPConnection.HalfCloseBreaksLate` | src/slite/TCPConnection.cc:219-234 | so whenever that happens a store has overtaken a close, and unless it is that very store the agreement of buffer and write interest was broken before |
| `TCPConnection.NoStuckHalfClose` | src/slite/TCPConnection.cc:219-234 | while DISCONNECTING with no shutdownInLoop queued or about to be queued, write interest is on or the half-close has been issued |
| `TCPConnection.DrainHalfCloses` | src/slite/TCPConnection.cc:160-174 | in every run, draining the buffer of a connection that is half-closing does half-close it, with everything delivered |
| `TCPConnection.CompleteMeansDrained` | src/slite/TCPConnection.cc:114-117 | a write-complete callback is queued only when every chunk taken on is with the kernel |
| `TCPConnection.AgreementBreaksExactly` | src/slite/TCPConnection.cc:219-225 | in every run, a step breaks the agreement of buffer and write interest if and only if it is the store of another thread's shutdown on a connection that is DISCONNECTED with bytes pending |
| `TCPConnection.StoreOvertakesClose` | src/slite/TCPConnection.cc:219-225 | a run in which it happens: the state goes back from DISCONNECTED to DISCONNECTING and the socket is shut down with a byte still pending |
| `TCPConnection.StepKeepsOrdered` | src/slite/TCPConnection.cc:98-234 | every step keeps write interest, half-close order and the coming half-close |
| `TCPConnection.Connection.SendInLoop` | src/slite/TCPConnection.cc:98-138 | gives up exactly when DISCONNECTED; queues everything behind pending bytes or write interest; otherwise tries the kernel, keeps the unsent rest and asks for write events, or drops the data on EPIPE or ECONNRESET |
| `TCPConnection.EveryFate` | src/slite/TCPConnection.cc:98-138 | in every run, every chunk that sendInLoop was given is given up exactly on a DISCONNECTED connection, dropped exactly when tried at once with the peer gone, and otherwise goes to the kernel or to the end of sendBuffer_ as the state before it says |
| `TCPConnection.StepFate` | src/slite/TCPConnection.cc:98-138 | from any state: a step logs exactly the chunk it was given, with the fate of the state before it, and no other step logs anything |
| `TCPConnection.CompletesExactly` | src/slite/TCPConnection.cc:114-168 | in every run, a step queues a write-complete callback if and only if it is a direct send that the kernel takes whole or a write event that drains the buffer |
| `TCPConnection.ShutdownIsRun` | src/slite/TCPConnection.cc:219-234 | shutdown in another thread does nothing unless CONNECTED, and then is a run of the protocol: test, store and a queued shutdownInLoop |
| `TCPConnection.Connection.HandleSend` | src/slite/TCPConnection.cc:157-182 | removes what the kernel took from the front, turns write interest off when drained, completes a pending half-close |
| `TCPConnection.Connection.ShutdownInLoop` | src/slite/TCPConnection.cc:227-234 | half-closes unless bytes are still being written |
| `TCPConnection.Connection.HandleClose` | src/slite/TCPConnection.cc:184-195 | closes: DISCONNECTED with all interest off |
| `Registration.EventLoop.UpdateChannel` | src/slite/EventLoop.cc:140-169 | given the asserts, exactly one legal epoll operation: ADD of an absent descriptor, MOD or DEL of a present one, with map, table and channel state changed accordingly |
| `Registration.EventLoop.RemoveChannel` | src/slite/EventLoop.cc:171-184 | takes the channel out of the map, out of the kernel's table if it was watched, and makes it NEW |
| `Registration.Channel.SetInterest` | src/slite/Channel.h:50-59 | registration agreement kept by any interest change: the map holds exactly ADD and DELETE channels, the kernel watches exactly those in ADD with their own events_; also when an unwatched channel is given no interest |
| `Registration.Channel.EnableSend` | src/slite/Channel.h:52-53 | the channel is watched with write interest added and nothing else in either table changes |
| `Registration.Channel.EnableRecv` | src/slite/Channel.h:56-57 | the channel is watched with read interest added and nothing else in either table changes |
| `Registration.Channel.DisableAll` | src/slite/Channel.h:58-59 | a watched channel leaves the kernel's table; any other one is put into it with an empty interest |
| `Registration.Channel.Remove` | src/slite/Channel.cc:43-47 | given no interest, neither table knows the channel afterwards and everything else is unchanged |
| `ConnectionLifetime.OwnershipAcrossLoops` | src/slite/EventLoop.cc:140-184 | in every run of base loop and I/O loops in which no closed connection has been sent on: a channel in some channels_ map belongs to a connection with that descriptor, assigned to that loop, that is in connections_ or held by a destroy closure still to run there |
| `ConnectionLifetime.AssertionsHold` | src/slite/EventLoop.cc:150-174 | in such runs, late stores of shutdown() included, no assertion fails: no accepted descriptor collides with a registered one, nothing watched or unknown is removed, no event reaches a dead connection, handleRecv always finds its interest on |
| `ConnectionLifetime.DisciplineBreaksExactly` | src/slite/TCPConnection.cc:98-100 | from any state of such a run, a step ends the discipline (one UP, DOWN and destroy, no interest after the DOWN) if and only if it is a send that leaves bytes pending on a connection that has been closed and is DISCONNECTING |
| `ConnectionLifetime.RevivingNeedsLateStore` | src/slite/TCPConnection.cc:219-225 | a connection that is closed and yet DISCONNECTING is one that the store of a shutdown() has found DISCONNECTED |
| `ConnectionLifetime.HeldSendsFailNothing` | src/slite/EventLoop.cc:147-158 | from any state of such a run, no step fails an assertion at once, sends on any connection that list, closure, guard or a functor that has run still holds included: what a harmful send does comes out later |
| `ConnectionLifetime.AssertionFailsExactly` | src/slite/EventLoop.cc:147-158 | from any state of such a run, a step fails an assertion at once if and only if it is such a send on a destroyed connection whose descriptor is in its loop's map again; nothing holds that connection any more, so in the code this is a use after release, before any assertion |
| `ConnectionLifetime.RevivedDestroyFails` | src/slite/Channel.cc:43-47 | such a send just before the destroy closure runs always fails the assertion of remove |
| `ConnectionLifetime.RevivedClosesAgain` | src/slite/TCPConnection.cc:184-195 | after such a send at the end of a task phase there is always a continuation with a second DOWN |
| `Revival.RevivalIsFatal` | src/slite/TCPConnection.cc:98-100 | converse of the discipline: from any state of such a run and any phase of its loop, a send that leaves bytes pending on a connection that is closed, looks open and is still held has a continuation, by steps of that loop and one hang-up, that fails an assertion or makes a second DOWN |
| `Revival.Doom` | src/slite/EventLoop.cc:85-115 | the loop cannot reach epoll_wait again without running the destroy closure of such a connection, which fails, or being open to a hang-up that closes it again; every step of the loop on other connections leaves its entries alone |
| `ConnectionLifetime.EventsReachTheLiving` | src/slite/Channel.cc:49-63 | in the middle of an event batch every connection with a report to come, and the one in hand, is registered in that loop, not destroyed and held; what its callbacks then do, DispatchExactly and StepEffect say |
| `ConnectionLifetime.StepEffect` | src/slite/TCPConnection.cc:184-217 | in every run before a reviving send, for every step and every connection: an UP exactly when its establish closure runs, a DOWN exactly on a hang-up report without input or a read of the end of the stream, a destroy exactly when its destroy closure runs; state and interest change then, on a shutdown store, a send or a drain, and on nothing else |
| `ConnectionLifetime.DispatchExactly` | src/slite/Channel.cc:65-81 | a report with a hang-up and no input closes the connection at once; any report with input changes no connection and goes on to handleRecv; one with neither goes on to handleSend or ends |
| `ConnectionLifetime.DispatchGoesOn` | src/slite/Channel.cc:65-81 | reading the end of the stream leads on to the close callback; any other read, and a close callback, lead on to handleSend if write readiness was reported |
| `ConnectionLifetime.AcceptEffect` | src/slite/TCPServer.cc:45-67 | a new connection is listed and, in the base loop, up and watched at once; for another loop its establish closure is queued there |
| `ConnectionLifetime.QueueEffect` | src/slite/TCPServer.cc:45-90 | from any state: every step adds to each loop's queue exactly the establish, remove or destroy closure that is due, and only the start of a task phase takes from it |
| `ConnectionLifetime.ListEffect` | src/slite/TCPServer.cc:69-82 | from any state: a connection enters the list when it is accepted and leaves it exactly when the base loop removes it |
| `ConnectionLifetime.ShutdownEffect` | src/slite/TCPConnection.cc:219-225 | from any state: a thread comes to the store of shutdown() only through a test that found CONNECTED, and a store is late exactly when it finds DISCONNECTED |
| `ConnectionLifetime.DestroyedOnlyInTaskPhase` | src/slite/TCPServer.cc:84-89 | the step that destroys a connection is a closure run by that connection's own loop in its task phase |
| `ConnectionLifetime.ReleasedExactly` | src/slite/TCPServer.cc:45-90 | in such runs a connection is held by list, closure to run or guard until it is destroyed, and afterwards by nothing but functors that have run and whose batch is not over |
| `ConnectionLifetime.TeardownDiscipline` | src/slite/TCPConnection.cc:184-217 | in such runs: one UP, then at most one DOWN, then at most one connectDestroyed; registered from the first until the last, in no map after it |
| `ConnectionLifetime.RegistrationAgreement` | src/slite/EventLoop.cc:140-184 | over such runs of all loops: a connection's channel is in its loop's map exactly in ADD or DELETE and watched exactly in ADD, with its own interest and pointer |
| `ConnectionLifetime.IdleMeansSettled` | src/slite/TCPServer.cc:69-90 | in such runs, when all loops are idle every connection is either listed, up and watched, or destroyed, in no map and held by nothing |
| `ConnectionLifetime.LoopNeverStuck` | src/slite/EventLoop.cc:90-114 | in such runs every loop always has a step of its own: no condition of the model silently cuts runs off |
| `ConnectionLifetime.StepKeepsInv` | src/slite/TCPServer.cc:45-90 | each of accept, poll, event, close, task, test, store and send step, except a send on a closed connection that looks open, keeps the invariant that ties list, closures, guards, maps and kernel tables together |
| `LateShutdown.SecondDownRun` | src/slite/TCPConnection.cc:219-225 | a run from the start with a second DOWN: test, hang-up and close, store, send, hang-up |
| `LateShutdown.FailedRemoveRun` | src/slite/TCPConnection.cc:219-225 | a run from the start that fails the assertion of Channel::remove |
| `LateShutdown.CollisionRun` | src/slite/EventLoop.cc:150 | a run from the start in which a new connection, itself never shut down, fails the assertion on new descriptors: so the claims above cannot be made for each connection by itself |
| `MemDb.ArrayRoundTrip` | examples/memdb.cc:98-123 | a part of an encoded argument list leads from a fresh context to state 2 if and only if it is the whole encoding; then the arguments are exactly those, the buffer is empty and nothing failed |
| `MemDb.CommandOnce` | examples/memdb.cc:44-86 | however an encoded command is cut into chunks, empty ones included, it is executed once, with its arguments, on the chunk that completes it, and the connection is fresh again |
| `MemDb.CommandsInOrder` | examples/memdb.cc:44-86 | any sequence of commands, each sent when the one before is complete, is executed in order, each exactly once |
| `MemDb.IdleAgainExactly` | examples/memdb.cc:55-59 | the connection is fresh again after a command if and only if the command is not a GET without a key: that path returns before the context is cleared |
| `MemDb.RunsTwiceExactly` | examples/memdb.cc:50-59 | a chunk that ends no line, an empty one for instance, executes the command before it a second time if and only if that was a GET without a key |
| `MemDb.CutStream` | examples/memdb.cc:101-121 | a stream of well-formed lines cut anywhere has been consumed line by line up to the unfinished one |
| `MemDb.RespIncremental` | examples/memdb.cc:98-123 | a verdict on the first line is never changed by bytes that arrive later |
| `MemDb.Context.Parse` | examples/memdb.cc:98-123 | the erase-from-the-front loop computes the line-by-line fold, with the false return and the exception of stoi as failures |
| `MemDb.LineCases` | examples/memdb.cc:98-123 | what each kind of line does: count, length, argument of the right length, and any other, which is skipped |
| `MemDb.WrongLengthFails` | examples/memdb.cc:111-114 | an argument of the wrong length makes parse return false and stays in the buffer |
| `MemDb.BadNumberThrows` | examples/memdb.cc:106-109 | a count or length that is no int throws and stays in the buffer |
| `MemDb.MemoryDb.OnMessage` | examples/memdb.cc:44-87 | one chunk: parse, then run the completed command on the map and clear the context, except on the early return of GET; the exception of stoi leaves the function with map and answer untouched |
| `MemDb.MemoryDb.Execute` | examples/memdb.cc:51-83 | map and answer after each command, including wrong arity and unknown names |
| `MemDb.GetAnswers` | examples/memdb.cc:55-64 | after any sequence of commands a GET answers with the value of the last SET of its key, with nil if the last that named it was a DEL, and from the initial map if none did |
| `MemDb.OtherAnswers` | examples/memdb.cc:51-83 | the answers to SET, DEL, commands without their arguments and unknown ones, and what each does to the map |
| `MemDb.MemoryDb.Delete` | examples/memdb.cc:73-79 | DEL removes exactly the named keys and counts the distinct ones that were there, also with repeated names |
| `MemDb.LastWriteWins` | examples/memdb.cc:65-80 | after any sequence of commands a key has the value of the last SET that names it, or none if the last was a DEL |
| `Numbers.StoiDecimal` | examples/memdb.cc:106-109 | printing and parsing are inverse on everything an int holds; larger values throw |
| `Numbers.StoiSign` | examples/memdb.cc:106-109 | signs are read, down to the least int |
| `Numbers.StoiTail` | examples/memdb.cc:106-109 | what follows the digits is ignored, and without digits it throws |
| `AsyncLogger.Conservation` | src/slite/AsyncLogger.cc:40-113 | in every run: all logs appended are the batches taken, then the full buffers, then the current one; the file is the output of the batches written |
| `AsyncLogger.NothingDropped` | src/slite/AsyncLogger.cc:80-91 | while no batch exceeds 25 buffers, file, batch in hand, full buffers and current buffer together are all appended bytes in order |
| `AsyncLogger.FileIsBuffersExactly` | src/slite/AsyncLogger.cc:82-91 | the file holds the buffers just as they were filled if and only if no written batch exceeded 25; an oversized one leaves a notice and its first two buffers |
| `AsyncLogger.OutputText` | src/slite/AsyncLogger.cc:82-91 | what is written of a batch of more than 25 buffers: the notice with the number dropped, and the first two |
| `AsyncLogger.WholeLogs` | src/slite/AsyncLogger.cc:40-55 | no log is split: the sequence of all buffers ever is the sequence of logs cut between logs |
| `AsyncLogger.ShortExactly` | src/slite/AsyncLogger.cc:43-54 | every buffer stays below kBufferSize if and only if every log is |
| `AsyncLogger.OversizeNeverFull` | src/slite/AsyncLogger.cc:43 | once a buffer has outgrown kBufferSize the unsigned difference wraps, so it takes every further log and is never handed over by append |
| `AsyncLogger.CompleteAtExitExactly` | src/slite/AsyncLogger.cc:66-115 | after the backend has left with no batch too large, the file is complete if and only if nothing but empty logs was appended after the last collection |
| `AsyncLogger.UncollectedText` | src/slite/AsyncLogger.cc:40-78 | at every moment the buffers hold exactly the logs appended since the last collection |
| `AsyncLogger.LostAtStop` | src/slite/AsyncLogger.cc:66-115 | one line appended before a stop can be lost for good |
| `AsyncLogger.StepKeepsInv` | src/slite/AsyncLogger.cc:40-113 | every append, collection, write and stop keeps logs whole and in order across buffers, batches and file |
| `AsyncLogger.AsyncLogger.Append` | src/slite/AsyncLogger.cc:40-55 | appends in place or hands the buffer over; the spare buffer stays empty and the branch taken on it makes no difference |
| `AsyncLogger.AsyncLogger.Collect` | src/slite/AsyncLogger.cc:67-78 | the swaps hand over exactly the full buffers and the current one, leave both empty, and keep the spare buffers empty |
| `AsyncLogger.AsyncLogger.Write` | src/slite/AsyncLogger.cc:80-112 | writes the bounded batch and then recycles: no recycling branch discards text that was not written |
| `HTTPCodec.RequestRoundTrip` | src/slite/http/HTTPCodec.cc:18-86 | a printed request (GET or POST, path and version without spaces, non-empty names without colons, no CRLF inside a line; sections 3.1.1 and 3.2 of RFC 7230) is served as it was, and exactly what follows it stays in the buffer |
| `HTTPCodec.DistinctFields` | src/slite/http/HTTPCodec.cc:35-45 | with distinct names the header map holds every field with its value and nothing else that is new |
| `HTTPCodec.SplitIntactExactly` | src/slite/http/HTTPCodec.cc:49-69 | a request in any chunks is served intact if and only if the chunk that completes it starts within its first line, or the first line and the fields lost before that chunk are those of the request kept with the connection |
| `HTTPCodec.SplitServes` | src/slite/http/HTTPCodec.cc:49-69 | what is served of a request in any chunks: all of it, or the first line kept with the connection and only the fields whose lines were not whole before the last chunk |
| `HTTPCodec.HeaderThrowsExactly` | src/slite/http/HTTPCodec.cc:35-45 | parsing a header line throws out_of_range if and only if something precedes its first colon and nothing follows it |
| `HTTPCodec.BadHeaderThrows` | src/slite/http/HTTPCodec.cc:49-69 | while headers are read, a line that throws, behind any good fields, makes the whole call throw and stays at the head of the buffer |
| `HTTPCodec.VerbExactly` | src/slite/http/HTTPCodec.cc:18-33 | the method is GET exactly when the first word of the request line is GET, and POST otherwise |
| `HTTPCodec.ShortRequestLines` | src/slite/http/HTTPCodec.cc:18-33 | a request line of one word has it for path and version too, one of two words has the second for both |
| `HTTPCodec.HeaderCases` | src/slite/http/HTTPCodec.cc:35-45 | the headers end at an empty line or one that begins with a colon; a line without colon is a field without value |
| `HTTPCodec.ConnectionHeader` | src/slite/http/HTTPCodec.cc:71-83 | a printed request with distinct names is served with the value of its Connection field under that name, where reply and shutdown look, whatever the context held |
| `HTTPCodec.HTTPCodec.OnMessage` | src/slite/http/HTTPCodec.cc:47-86 | the state loop ends on every buffer, blocked, thrown or with one request served; the reply takes version and Connection from it, and only "close" shuts the connection down |
| `HTTPCodec.HTTPCodec.ParseRequestLine` | src/slite/http/HTTPCodec.cc:18-33 | with the wrap-around of npos: the word before the first space decides GET or POST, path is the second word, version the last one; no case throws |
| `HTTPCodec.HTTPCodec.ParseRequestHeader` | src/slite/http/HTTPCodec.cc:35-45 | name before the first colon, value from two characters after it; an empty name ends the headers, a line without colon gives an empty value |
| `EventLoopThreadPool.RoundRobin` | src/slite/EventLoopThreadPool.cc:34-43 | the n-th next answer is the loop at the current turn plus n, modulo the thread count |
| `EventLoopThreadPool.FairShare` | src/slite/EventLoopThreadPool.cc:34-43 | among any as many consecutive calls as there are threads, each loop is the answer to exactly one |
| `EventLoopThreadPool.NeverOutOfRangeExactly` | src/slite/EventLoopThreadPool.cc:38-41 | getNextLoop never throws, however often called, if and only if there are no loops or the thread count is positive, not more than the loops and not less than the turn |
| `EventLoopThreadPool.EventLoopThreadPool.Start` | src/slite/EventLoopThreadPool.cc:21-32 | appends the loops the new threads report, in order |
| `EventLoopThreadPool.EventLoopThreadPool.GetNextLoop` | src/slite/EventLoopThreadPool.cc:34-43 | answers with the base loop or the next one in turn and moves the turn on |

## Left out

- `forceClose` (`src/slite/TCPConnection.cc:236-242`) and the destructor of `TCPServer` (`src/slite/TCPServer.cc:27-36`): with them a `handleClose` can run twice, and the destructor uses a pointer it has just reset. The lifetime theorems are about runs without both.
- `ConnectionLifetime.StepKeepsInv`: says nothing about the states after a closed connection has been sent on; `Revival.RevivalIsFatal` and the runs in `LateShutdown.dfy` show that the results do fail there.
- Lifetime through raw pointers: `send` and `shutdown` from other threads queue closures that hold a bare `this`. They are not counted as references and may run after the release; which of them meet a live object is not part of this model. References held by user code are not modelled either, so objects are released at the earliest possible moment.
- `TCPConnection.HalfCloseOrder`: covers chunks already taken on. A send queued by another thread can come after the half-close of an earlier drain, because `handleSend` shuts down as soon as it sees DISCONNECTING.
- `TCPConnection.Connection.SendInLoop`: takes the class of error as an input. `TCPHandle::send` writes a log line after a failed `::send` (`src/slite/TCPHandle.cc:153-159`) and `sendInLoop` reads `errno` only after that, so the class it sees may differ from the kernel's; every outcome is covered, but which one the kernel meant is not.
- The write-complete callback is taken to be set in `TCPConnection.dfy`; without it the only difference is that none is queued.
- Tasks pushed from the loop's own thread before `loop()` starts: `pushTask` skips their wakeup. Runs start at `loop()` with an empty queue.
- Weak memory: `running_`, `quit_` and `doingTask_` are plain flags in the code; steps interleave sequentially consistently.
- `ThreadPool.JoinCompletes`: tasks terminate and do not throw; exceptions in workers, `start` and the init callback are not part of this model.
- Protobuf reflection and serialisation: a message is a type name and payload bytes; known types and payload validity are parameters.
- `ProtobufCodec.FillEmptyBuffer`: requires that the frame's length fits the `int` casts of the encoder; larger messages are not encodable.
- `ProtobufCodecLite` and the RPC channel: their length and tag handling does not round-trip.
- Several RESP commands in one chunk, and any chunk after a failed parse beyond what the fold says: `MemDb.CommandsInOrder` is about clients that wait for each command to be complete.
- The overflow of `count` in the RESP context: it is an unbounded integer here; only streams that are not argument lists could reach it.
- Strings that have been moved from are taken to be empty, as in common library implementations; the standard leaves their content open.
- `Logging`: rolling, flushing and partial writes; the file is the sequence of strings handed to it.
- The HTTP state `kRequestBody` is never entered by the code and has no step. `HTTPCodec.HTTPCodec.OnMessage` takes strings to be shorter than `npos`, and the callback's status and body are not modelled. One parser object shared by several connections is not modelled.
- `EventLoopThread`: the hand-over of the loop pointer is a parameter of `Start`.
- Sockets, epoll, eventfd and timerfd calls, time and log formatting: nondeterministic steps or small tables.
- `Acceptor`, `Connector`, `TCPClient`, `Timer`, the dispatcher, HTTP routing and file listing, and the other examples and benchmarks: thin, or without a property the code keeps.
