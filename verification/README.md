# A verified model of the reactor core

This project models the parts of the TCP library that hold state and must agree with one another:
the byte buffer, the registration of channels with epoll, the event loop's functor queue and its
wakeup, a connection's output path, and the life of connections between the server's loop and the
pool's loops. It is written for Dafny 4.11; `dafny verify dfyconfig.toml` verifies the whole project.

How it is built:

- Every component has a *specification module* of values and step functions (`BuffSpec`, `FramingSpec`,
  `PollerSpec`, `LoopSpec`, `LoopThreadSpec`, `ConnSpec`, `Naming`, `ServerSpec`), in which the
  properties of all runs are proved, and, where the program updates objects in place, an *imperative
  module* of classes with the program's fields and branches (`Buffer`, `Epoller`, `EventLoops`,
  `Connections`, `Servers`). Each method's contract ties its object's new abstract state to the
  specification's step.
- A run is a list of events, each allowed in the state it is reached in (`Legal`), and `Exec` is where
  it leads. An event is the smallest thing another thread can come in between: a functor pushed and the
  wakeup that follows are two events, so are setting `quit_` and its wakeup, and so are the look at `state_`
  and the store to it in `shutdown()` and in `connectDestroyed`. Where a thread's look at `state_` and what it
  guards are one event (`send`, `handleWrite`), only another thread's store of kDisconnecting could come in
  between, and that makes no difference to what follows. System calls return
  anything their documentation allows: `write` and `readv` outcomes are parameters, `epoll_wait` reports
  any registered channels, and the eventfd counter saturates.
- In `EventLoops` other threads act inside two methods, `Interfere` and `UserCode`, whose contracts
  allow any legal events of theirs and whose callers know nothing more about them.
- `Delivery` composes the loop with the connection: many threads call send, one stream comes out.
- `Lifecycle` and the modules after it compose several loops (`LoopSpec`), one poller per loop
  (`PollerSpec`) and the connection map (`ServerSpec`) with everything that can hold a connection: the map,
  pending functors, and what the running handler or functor of each thread has left to do. `LifecycleInv`
  reduces what matters to one connection to a small record, its view; `LifecycleSteps`, `LifecycleEvents`
  and `LifecycleAdmission` prove that every event of every thread keeps every view in order, and
  `LifecycleRuns` and `LifecycleSafety` draw the conclusions for all runs of a started server.
  `LifecycleProgress` shows that what has begun can be brought to its end, `LifecycleRefinement` ties the lifecycle's coarse view of a connection back to `ConnSpec`, and
  `LifecycleWitness` is a run in which what `LifecycleSafety` has to allow for happens.

Where the program differs from what one would expect, the model follows the program:

- `handleClose` leaves the state alone, may run many times, and clears the interest set each time; only
  `connectDestroyed` sets the state to disconnected, and only from connected (`src/tcpConnection.cc:278-287`,
  `src/tcpConnection.cc:339-346`).
- `shutdown()` and `connectDestroyed` each look at the state and store to it later. A shutdown by another thread
  may fall in between, and the user is then told of the disconnection after a completed `shutdown()`:
  `LifecycleWitness.ReportedAfterShutdown`. `LifecycleSafety.ReportAfterShutdownIff` says exactly when.
- `loop()` resets `quit_`, so a quit before that line is forgotten: `LoopSpec.QuitBeforeLoopIsLost` gives a run,
  `LoopSpec.QuitHonouredIffEntered` the exact condition.
- A close leaves the state connected, so a later `shutdown()` may cut off buffered output:
  `ConnSpec.ShutdownAfterCloseCutsOutput`, with the exact condition in `ConnSpec.ShutdownAfterDelivery`.
- The owner thread's `queueInloop` before `loop()` wakes nobody. `LoopSpec.OwnerPushBeforeLoopSleeps` gives the
  run, and `LoopSpec.SafeIffArmedAtEntry` the exact condition at entry.
- A repeated `disableAll` puts the descriptor back with an empty interest set: `PollerSpec.RepeatedDisableAll`.
- The 64-byte name buffer cuts long names, and a cut name is another connection's name:
  `Naming.NamesDistinctIffFit`, `ServerSpec.EntriesSurviveIffNameFits`. The lifecycle assumes names that fit.
- A `sendInLoop` queued by another thread may find the write side already shut and write nevertheless:
  `ConnSpec.ForeignSendAfterShutdown`, with the exact condition in `ConnSpec.LateFunctor`, and for whole runs in
  `ConnSpec.HalfCloseIffLateStepsOk`.
- `startRead` does not look at the state, and after `connectDestroyed` it registers the channel for good:
  `LifecycleWitness.StartReadAfterDestruction`. `LifecycleSafety.InterestChangeIsSafeIff` says exactly when it is harmless.
- `threadFunc` clears `loop_` without the mutex; `LoopThreadSpec.HandoverIffNotLeft` says when `startLoop` can
  still return.

## Model

| member | source | states |
|---|---|---|
| `BuffSpec.StepRefines` | src/buffer.h:99-216 | every buffer operation keeps 0 <= reader <= writer <= size and acts on the readable bytes as the same operation acts on a plain byte sequence |
| `BuffSpec.RunRefinesByteSequence` | src/buffer.h:99-216 | the same for every run of operations within their preconditions |
| `BuffSpec.EnsureWritableMakesRoom` | src/buffer.h:189-195 | growing or compacting leaves at least len writable bytes and the contents as they were |
| `BuffSpec.AppendContents` | src/buffer.h:166-171 | append puts the bytes after the contents, whichever branch made room |
| `BuffSpec.PrependContents` | src/buffer.h:211-216 | prepend puts the bytes before the contents |
| `BuffSpec.ReadFdContents` | src/buffer.cc:16-45 | bytes scattered over the tail and the spill area end up after the contents, in order |
| `BuffSpec.CompactionMovesLeft` | src/buffer.h:237-252 | the store grows exactly when prependable + writable < len + 8; otherwise the reader index is beyond 8 and the copy moves left |
| `BuffSpec.StorageBound` | src/buffer.h:237-252 | over any run that grows only by append and readFd, size <= max(8 + initial, peak + 8, 2 * peak + 6), peak being the most readable bytes seen |
| `BuffSpec.StorageBoundIsTight` | src/buffer.h:237-252 | for every peak of two or more some run reaches 2 * peak + 6 exactly |
| `BuffSpec.UnwriteUndone` | src/buffer.h:203-206 | writing the same bytes again undoes unwrite |
| `BuffSpec.FreshHolds` | src/buffer.h:23-28 | a new buffer is empty and takes exactly initialSize bytes before it grows |
| `BuffSpec.DefaultHolds` | src/buffer.h:19-23 | a default buffer takes 1024 bytes before it grows |
| `BuffSpec.RoomForRead` | src/buffer.cc:18-27 | one readv can take all the free bytes and 64 KiB at least, and more than the free bytes exactly if those are fewer than 64 KiB |
| `BuffSpec.RoomInFront` | src/buffer.h:237-252 | over every run without prepend eight bytes can be prepended, however the buffer grew, moved or drained |
| `BuffSpec.EmptiedIsFresh` | src/buffer.h:139-143 | an emptied buffer starts at 8 again and has all the rest free |
| `Buffer.Buff.constructor` | src/buffer.h:23-28 | 8 + initialSize zero bytes, both indices at 8 |
| `Buffer.Buff.Swap` | src/buffer.h:33-38 | the two buffers exchange storage and indices |
| `Buffer.Buff.ReadableBytes` | src/buffer.h:43 | the number of readable bytes |
| `Buffer.Buff.CopyTo` | src/buffer.h:169 | a forward copy into the storage overwrites exactly the target range with the data |
| `Buffer.Buff.Resize` | src/buffer.h:241 | the storage grows to the given size: the old bytes, then zeros |
| `Buffer.Buff.HasWritten` | src/buffer.h:181-184 | the writer index moves on, within the writable bytes |
| `Buffer.Buff.Unwrite` | src/buffer.h:203-206 | the writer index moves back, within the readable bytes |
| `Buffer.Buff.MakeSpace` | src/buffer.h:237-252 | the array and both indices become those of BuffSpec.MakeSpace, by a resize or by an in-place move |
| `Buffer.Buff.Compact` | src/buffer.h:246-250 | the overlapping forward copy within one array puts the old readable bytes at 8 and changes no other byte |
| `Buffer.Buff.EnsureWritableBytes` | src/buffer.h:189-195 | at least len writable bytes, contents unchanged |
| `Buffer.Buff.Append` | src/buffer.h:166-171 | contents become the old contents followed by the data |
| `Buffer.Buff.Prepend` | src/buffer.h:211-216 | contents become the data followed by the old contents |
| `Buffer.Buff.Retrieve` | src/buffer.h:99-109 | the first len bytes go, or all of them and both indices reset |
| `Buffer.Buff.RetrieveUntil` | src/buffer.h:111-114 | contents become what lay from the given position on |
| `Buffer.Buff.RetrieveAll` | src/buffer.h:139-143 | no contents, both indices at 8 |
| `Buffer.Buff.RetrieveAsString` | src/buffer.h:156-161 | the result followed by the new contents is the old contents |
| `Buffer.Buff.RetrieveAllAsString` | src/buffer.h:148-151 | the result is the old contents and nothing is left |
| `Buffer.Buff.ReadFd` | src/buffer.cc:16-45 | on success contents grow by exactly the bytes read and the count is returned; on failure -1 and no change |
| `Buffer.Buff.FindCrlfFrom` | src/buffer.h:72-76 | the leftmost CRLF at or after start, or nullptr exactly when there is none |
| `Buffer.Buff.FindCrlf` | src/buffer.h:64-67 | the leftmost CRLF of the contents, or nullptr exactly when there is none |
| `Buffer.Buff.FindEolFrom` | src/buffer.h:90-94 | the leftmost line feed at or after start, or nullptr exactly when there is none |
| `Buffer.TakeLine` | src/buffer.h:64-67 | findCRLF and retrieveUntil(crlf + 2) take exactly the first line of the framing |
| `Buffer.DrainLines` | src/buffer.h:111-114 | the client loop takes every complete line and leaves the remainder |
| `Buffer.FeedAndDrain` | src/buffer.h:166-171 | appending chunk by chunk and draining in between yields the lines and remainder of the whole stream |
| `FramingSpec.SplitIsTheFraming` | src/buffer.h:64-67 | Split is the one and only way to cut a stream at its line terminators |
| `FramingSpec.SplitAppend` | src/buffer.h:64-67 | later bytes never change lines already found; the remainder is completed by what follows |
| `FramingSpec.ChunkingIndependent` | src/buffer.h:64-76 | lines and remainder depend on the bytes only, not on how they were split into chunks |
| `PollerSpec.AgreementMeaning` | src/epoller.cc:77-115 | kAdded iff in the kernel's list, with the channel's own interest set; not kNew iff hasChannel; kDeleted only with an empty interest set |
| `PollerSpec.SetMaskAgrees` | src/epoller.cc:77-103 | any interest change keeps the three records in agreement, has no epoll_ctl call refused and touches no other channel |
| `PollerSpec.RemoveChannelAgrees` | src/epoller.cc:105-115 | so does removing a channel, also one removed before; afterwards hasChannel is false |
| `PollerSpec.AttachAgrees` | src/channel.cc:16-26 | so does a new channel on a descriptor no other channel holds |
| `PollerSpec.DetachAgrees` | src/channel.cc:28-34 | destroying a channel keeps agreement exactly when hasChannel is false |
| `PollerSpec.RunAgreesWithoutFaults` | src/epoller.cc:77-141 | over every run the records agree and no epoll_ctl call is refused |
| `PollerSpec.RepeatedDisableAll` | src/epoller.cc:80-101 | n calls of disableAll flip the descriptor's presence in the kernel's list n times |
| `PollerSpec.CtlMeaning` | src/epoller.cc:118-141 | epoll_ctl succeeds iff an ADD meets an absent and any other operation a present descriptor; what it then does, and that a refusal does nothing |
| `PollerSpec.RefusalsCounted` | src/epoller.cc:127-139 | exactly the refused calls are counted |
| `Epoller.CallbacksMeaning` | src/channel.cc:76-105 | close iff hung up without input, error iff an error or invalid descriptor, read iff any of three readable events, write iff writable; at most once each and in this order |
| `Epoller.CloseAndRead` | src/channel.cc:80-96 | when close and read happen in one dispatch |
| `Epoller.Channel.constructor` | src/channel.cc:16-26 | a fresh channel is in neither table nor kernel list |
| `Epoller.Channel.Tie` | src/channel.cc:36-40 | the channel is tied and nothing else changes |
| `Epoller.Channel.SetEvents` | src/channel.cc:51-55 | storing an interest set and reporting it is PollerSpec.SetMask, and nothing is refused |
| `Epoller.Channel.EnableReading` | src/channel.h:76 | read interest on, write interest kept, reported |
| `Epoller.Channel.DisableReading` | src/channel.h:77 | read interest off, write interest kept, reported |
| `Epoller.Channel.EnableWriting` | src/channel.h:78 | write interest on, read interest kept, reported |
| `Epoller.Channel.DisableWriting` | src/channel.h:79 | write interest off, read interest kept, reported |
| `Epoller.Channel.DisableAll` | src/channel.h:80 | no interest left, reported |
| `Epoller.Channel.Remove` | src/channel.cc:44-48 | the index is kNew and hasChannel is false afterwards |
| `Epoller.Channel.HandleEvent` | src/channel.cc:57-74 | nothing is called if the tie is dead; otherwise each callback exactly if the returned events ask for it |
| `Epoller.Channel.HandleEventWithGuard` | src/channel.cc:76-105 | each callback is called exactly if the returned events ask for it, in the order of Callbacks |
| `Epoller.Eepoller.Update` | src/epoller.cc:118-141 | one epoll_ctl call; a refusal changes no record |
| `Epoller.Eepoller.UpdateChannel` | src/epoller.cc:77-103 | table, index and kernel list become those of PollerSpec.UpdateChannel |
| `Epoller.Eepoller.RemoveChannel` | src/epoller.cc:105-115 | table, index and kernel list become those of PollerSpec.RemoveChannel |
| `Epoller.Eepoller.HasChannel` | src/poller.cc:15-19 | whether the table maps the descriptor to this very channel |
| `Epoller.Eepoller.FillActiveChannels` | src/epoller.cc:66-74 | the reported channels are appended in order, carry their own returned events, and are registered |
| `LoopSpec.StepInv` | src/eventLoop.cc:83-208 | every event of any thread keeps the loop's invariant |
| `LoopSpec.RunInv` | src/eventLoop.cc:83-208 | so does every run |
| `LoopSpec.ExactlyOnceInOrder` | src/eventLoop.cc:143-208 | started functors, the rest of the batch and the pending ones are always the queued ones in lock order |
| `LoopSpec.NoLostWakeup` | src/eventLoop.cc:143-156 | at poll with work pending, the eventfd is positive or a foreign thread holds the lock and its next event makes it so |
| `LoopSpec.SafeIffArmedAtEntry` | src/eventLoop.cc:83-106 | entering loop() keeps that safety for all runs exactly when the queue is empty or a wakeup is due at entry |
| `LoopSpec.OwnerPushBeforeLoopSleeps` | src/eventLoop.cc:152-155 | a run in which the owner queues before loop() and the poll blocks with the functor waiting |
| `LoopSpec.CounterIsUnread` | src/eventLoop.cc:120-185 | over every run the eventfd counter is the number of wakeups written since it was last read, up to saturation: by foreign pushes, by pushes from running functors and by quits, and no others |
| `LoopSpec.WakeupIsRead` | src/eventLoop.cc:95-99 | once poll has reported the wakeup channel the counter is read to zero within that dispatch, and stays zero until somebody writes it |
| `LoopSpec.ServedWithinOneIteration` | src/eventLoop.cc:188-208 | whatever is queued when the loop polls has been started when that iteration's functor phase ends |
| `LoopSpec.BatchIsFixed` | src/eventLoop.cc:197-205 | a running batch never grows, whatever is queued meanwhile |
| `LoopSpec.QuitIsNotMissed` | src/eventLoop.cc:86-103 | once quit_ is set inside loop(), it stays set, the loop polls at most once more and stops at its next test |
| `LoopSpec.QuitWakesThePoll` | src/eventLoop.cc:109-117 | at poll with quit_ set, the eventfd is positive or a quitting thread has yet to write it |
| `LoopSpec.QuitBeforeLoopIsLost` | src/eventLoop.cc:86 | a run in which a quit before loop() leaves the loop polling, unquit and unwoken |
| `LoopSpec.EntryForgetsQuit` | src/eventLoop.cc:86-93 | whatever was pending, a loop about to be entered can go on to test the flag and poll with it cleared |
| `LoopSpec.QuitHonouredIffEntered` | src/eventLoop.cc:83-117 | a quit that has been asked for stops every continuation at its next test exactly when loop() has been entered |
| `EventLoops.EventLoop.constructor` | src/eventLoop.cc:60-72 | a new loop: empty queue, no wakeup, not looping |
| `EventLoops.EventLoop.Wakeup` | src/eventLoop.cc:120-128 | the counter goes up by one unless it is saturated, and is positive either way |
| `EventLoops.EventLoop.HandleRead` | src/eventLoop.cc:177-185 | the counter is drained |
| `EventLoops.EventLoop.AwaitMutex` | src/eventLoop.cc:145 | whichever other thread holds the mutex finishes its critical section, wakeup included, and the mutex is free |
| `EventLoops.EventLoop.QueueInLoop` | src/eventLoop.cc:143-156 | whoever else holds the mutex, the call is a legal run of the protocol in which the functor is pushed and the lock released with or without a wakeup as LoopSpec demands; the owner's bookkeeping is untouched |
| `EventLoops.EventLoop.Call` | src/eventLoop.cc:135 | this very functor is the next to be run on the owner's thread |
| `EventLoops.EventLoop.RunInLoop` | src/eventLoop.cc:131-141 | on the owner's thread this very functor is run at once and nothing is run before it; elsewhere it is pushed and not run |
| `EventLoops.EventLoop.Quit` | src/eventLoop.cc:109-117 | quit_ is set, and from another thread the counter is positive afterwards |
| `EventLoops.EventLoop.TakeQueue` | src/eventLoop.cc:197-200 | with the lock held the whole queue becomes the batch and the queue is empty |
| `EventLoops.EventLoop.SwapFunctors` | src/eventLoop.cc:197-200 | the same after any interference and any wait for the mutex |
| `EventLoops.EventLoop.RunFunctors` | src/eventLoop.cc:202-205 | exactly the functors of the batch are started, each once and in order, whatever they queue |
| `EventLoops.EventLoop.DoPendingFunctors` | src/eventLoop.cc:188-208 | everything queued before the call has been started at its end |
| `EventLoops.EventLoop.Poll` | src/epoller.cc:39-64 | poll reports the wakeup channel iff its counter is positive, then whatever else is ready, and the dispatch phase begins |
| `EventLoops.EventLoop.DispatchActive` | src/eventLoop.cc:95-99 | every active channel is handled, as a legal run, under any interference |
| `EventLoops.EventLoop.Round` | src/eventLoop.cc:91-102 | one round under any interference is a legal run from poll to the loop test, starts everything queued before it, and leaves the eventfd read unless somebody wrote it meanwhile |
| `EventLoops.EventLoop.TestQuit` | src/eventLoop.cc:88-91 | the while test: the loop has stopped exactly if quit_ is set, and otherwise polls |
| `EventLoops.EventLoop.RunLoop` | src/eventLoop.cc:83-106 | loop() is a legal run for as many rounds as wanted; it has stopped exactly if quit_ is set; entered armed, it ends in the invariant |
| `LoopThreadSpec.PublishedUnlessLeft` | src/eventLoopThread.cc:30-50 | startLoop returns nullptr, or sleeps through the notification, only if the loop has been left already |
| `LoopThreadSpec.GetsLoop` | src/eventLoopThread.cc:54-71 | from any reachable point before the loop is left, the two threads' own next steps hand the loop over |
| `LoopThreadSpec.HandoverIffNotLeft` | src/eventLoopThread.cc:30-71 | some continuation hands the loop over exactly as long as it has not been left |
| `LoopThreadSpec.LeftTooSoonReturnsNull` | src/eventLoopThread.cc:42-49 | a run in which the loop is left between the starter's test and its copy, and startLoop returns nullptr |
| `LoopThreadSpec.LeftBeforeLookedWaitsForGood` | src/eventLoopThread.cc:42-45 | a run in which it is left before the starter looks, which then waits with nobody to notify it |
| `ConnSpec.StepKeepsStream` | src/tcpConnection.cc:116-171 | every step keeps: bytes taken by the kernel, then the buffer, are the accepted messages; and before a close, write interest is on iff the buffer is non-empty |
| `ConnSpec.StreamIntegrity` | src/tcpConnection.cc:116-171 | the same over every run of sends, writes, shutdowns, closes and late functors |
| `ConnSpec.AcceptedOrRefused` | src/tcpConnection.cc:122-152 | a message is accepted iff the connection is not down and its own direct write does not find the peer gone; a refused one leaves no byte behind |
| `ConnSpec.ShutdownIsFinal` | src/tcpConnection.cc:173-190 | in loop-thread runs the write side is shut at most once and nothing is written after it |
| `ConnSpec.ShutsWhenTold` | src/tcpConnection.cc:173-190 | which steps shut the write side, told from the state before |
| `ConnSpec.ShutdownAfterDelivery` | src/tcpConnection.cc:309-337 | when the write side is shut, all accepted bytes have left exactly if no close came first, or a writable event drained the buffer, or nothing was buffered |
| `ConnSpec.DeliveredIffNothingLeft` | src/tcpConnection.cc:173-190 | the same over every run of all threads |
| `ConnSpec.ShutdownAfterCloseCutsOutput` | src/tcpConnection.cc:339-346 | a loop-thread run in which a close comes first and the write side is then shut with a whole message still buffered |
| `ConnSpec.ForGoodIffHalfClosed` | src/tcpConnection.cc:173-190 | once shut, the write side stays shut and unwritten in every continuation on the loop's thread exactly if the connection is not connected and has no write interest |
| `ConnSpec.LateFunctor` | src/tcpConnection.cc:184-190 | after the shutdown a step of another thread leaves the write side shut and unwritten for good exactly when a late send finds the connection down, or has no bytes to add to a non-empty buffer; a late shutdown never does, a late store always |
| `ConnSpec.HalfCloseIffLateStepsOk` | src/tcpConnection.cc:89-190 | over every run of all threads the half-close is in order throughout exactly when each step of another thread meets that condition |
| `ConnSpec.ForeignSendAfterShutdown` | src/tcpConnection.cc:89-91 | a run that writes a whole message after the write side was shut |
| `ConnSpec.HighWaterMatchesCrossings` | src/tcpConnection.cc:154-164 | with the callback set, high-water notices are exactly as many as upward crossings of the mark |
| `ConnSpec.DipsBetweenNotices` | src/tcpConnection.cc:154-164 | between two high-water notices of a run the buffer was below the mark |
| `ConnSpec.NoticesAreDue` | src/tcpConnection.cc:128-164 | every step queues exactly the notice that is due: high-water, with the new length, iff that callback is set and the length crosses the mark; write-complete iff that callback is set and the step's write leaves nothing buffered |
| `ConnSpec.CallsAreDue` | src/tcpConnection.cc:116-337 | every step makes exactly the calls on the socket that are due: one write, failed or not, when a send finds nothing waiting or a writable event finds interest, and one shutdown of the write side when it is time |
| `ConnSpec.WriteCompleteIsAccurate` | src/tcpConnection.cc:128-140 | write-complete is queued by exactly those steps whose write succeeds and leaves nothing buffered, and all accepted bytes are out then |
| `ConnSpec.DrainsInTime` | src/tcpConnection.cc:309-337 | after as many progressing writable events as bytes buffered, the buffer is empty, interest is off, one write-complete is queued and a pending half-close is done |
| `Connections.TcpConnection.constructor` | src/tcpConnection.cc:34-59 | a new connection is disconnected, without interest, with empty buffers of its own |
| `Connections.TcpConnection.SendInLoop` | src/tcpConnection.cc:116-171 | over the real buffer and channel: the new state, socket calls, notices and interest are those of ConnSpec.AcceptMessage, and no epoll_ctl is refused |
| `Connections.TcpConnection.TryWrite` | src/tcpConnection.cc:128-152 | at most one write call, made only with nothing waiting; how much it took, whether the peer was gone, and a notice only if it took everything |
| `Connections.TcpConnection.BufferRest` | src/tcpConnection.cc:154-169 | the rest of a message is buffered, with the high-water notice if due and write interest on |
| `Connections.TcpConnection.Send` | src/tcpConnection.cc:79-94 | if connected: sendInLoop on the loop's thread, a functor bound to the message from another; otherwise nothing |
| `Connections.TcpConnection.ShutdownInLoop` | src/tcpConnection.cc:184-190 | the write side is shut unless there is write interest |
| `Connections.TcpConnection.Shutdown` | src/tcpConnection.cc:173-182 | from connected: disconnecting on the calling thread, then shutdownInLoop at once on the loop's thread and queued from another; otherwise nothing |
| `Connections.TcpConnection.ForceClose` | src/tcpConnection.cc:193-201 | if connected or disconnecting a forceCloseInLoop is queued, from any thread; nothing else happens |
| `Connections.TcpConnection.HandleWrite` | src/tcpConnection.cc:309-337 | the new state is that of ConnSpec.Drain: bytes out, interest off when empty, notice and half-close when due |
| `Connections.TcpConnection.HandleClose` | src/tcpConnection.cc:339-346 | interest is cleared, the state is not changed, both callbacks are made in order with the state they see |
| `Connections.TcpConnection.ForceCloseInLoop` | src/tcpConnection.cc:203-209 | handleClose if connected or disconnecting, otherwise nothing |
| `Connections.TcpConnection.HandleRead` | src/tcpConnection.cc:290-307 | bytes go to the input buffer and the message callback, end of stream closes, an error changes nothing |
| `Connections.TcpConnection.ConnectEstablished` | src/tcpConnection.cc:270-276 | connected, tied, reading, and the user told |
| `Connections.TcpConnection.ConnectDestroyed` | src/tcpConnection.cc:278-287 | disconnected only from connected, the user told only then, and the channel out of its poller in any case |
| `Connections.TcpConnection.StartReadInLoop` | src/tcpConnection.cc:243-250 | read interest and the flag are on unless both were |
| `Connections.TcpConnection.StopReadInLoop` | src/tcpConnection.cc:259-266 | read interest and the flag are off unless both were |
| `Delivery.LoopIsProtocolRun` | src/eventLoop.cc:143-156 | the loop inside the composed system goes through a legal run of LoopSpec |
| `Delivery.EndToEnd` | src/tcpConnection.cc:79-112 | over every interleaving the stream is the accepted messages, each whole, and any thread's messages among them are in that thread's call order |
| `Delivery.NothingMissing` | src/tcpConnection.cc:116-152 | if no queued send is refused, every send of another thread that has run is on the stream, in order |
| `Delivery.SentWithinOneIteration` | src/eventLoop.cc:188-208 | sends queued before a poll have been carried out when that iteration's functors are done |
| `Delivery.ForeignMessageArrives` | src/tcpConnection.cc:79-112 | for any message of any other thread a run from the start that puts it on the wire, whole |
| `Naming.DecimalInjective` | src/tcpServer.cc:65 | different ids print differently |
| `Naming.DecimalReadsBack` | src/tcpServer.cc:65 | ids are printed in decimal without leading zeros: reading the numeral back gives the id |
| `Naming.ConnNameMeaning` | src/tcpServer.cc:64-67 | a name is the server's name followed by "-name#id", cut to the 63 characters that fit |
| `Naming.FittingNamesDiffer` | src/tcpServer.cc:64-67 | uncut names of different ids differ |
| `Naming.CutNameCollides` | src/tcpServer.cc:64-67 | a cut name is also the name of an earlier connection |
| `Naming.NamesDistinctIffFit` | src/tcpServer.cc:64-67 | the first k names are pairwise distinct exactly when the k-th fits 63 characters, or k <= 1 |
| `ServerSpec.RoundRobin` | src/eventLoopThreadPool.cc:42-55 | over every history of accepts and erases, the connection accepted after k others goes to pool loop k mod n, or to the base loop if there is no pool |
| `ServerSpec.LoadFormula` | src/eventLoopThreadPool.cc:42-55 | how many of the first k connections each pool loop gets |
| `ServerSpec.BalancedHistory` | src/eventLoopThreadPool.cc:42-55 | over every history the numbers of connections given to two pool loops differ by at most one |
| `ServerSpec.HashSpread` | src/eventLoopThreadPool.cc:57-65 | among any n hash values in a row exactly one stands for each pool loop |
| `ServerSpec.AdmitFaithful` | src/tcpServer.cc:61-90 | an accept with a fitting name overwrites no entry and keeps every present connection registered |
| `ServerSpec.EraseFaithful` | src/tcpServer.cc:99-101 | an erase, repeated or not, removes that connection's entry and no other |
| `ServerSpec.MapIsFaithful` | src/tcpServer.cc:61-101 | over any history the map holds exactly the connections accepted and not erased, so its size is their number |
| `ServerSpec.EntriesSurviveIffNameFits` | src/tcpServer.cc:79 | with k accepted and none closed, each has its own entry exactly when the k-th name fits, or k <= 1 |
| `Servers.EventLoopThreadPool.constructor` | src/eventLoopThreadPool.cc:23-40 | a started pool: its loops, and the round robin at its beginning |
| `Servers.TcpServer.constructor` | src/tcpServer.cc:14-28 | an empty faithful map, and ids counted from one |
| `Servers.EventLoopThreadPool.GetNextLoop` | src/eventLoopThreadPool.cc:42-55 | the loop at the pool's index is returned, or the base loop of an empty pool, and the index advances and wraps |
| `Servers.EventLoopThreadPool.GetLoopForHash` | src/eventLoopThreadPool.cc:57-65 | the loop at the hash modulo the number of loops, the base loop only if there are none; which hash values share a loop, HashSpread tells |
| `Servers.LoopsInTurn` | src/eventLoopThreadPool.cc:42-55 | k requests in a row get the pool's own loops in turn, starting anew after the last, or the base loop if there are none |
| `Servers.TcpServer.NewConnection` | src/tcpServer.cc:61-90 | loop, id and map entry of a new connection; with a fitting name the map stays faithful |
| `Servers.TcpServer.RemoveConnectionInLoop` | src/tcpServer.cc:99-101 | the entry goes, and one is reported exactly the first time |
| `LifecycleSteps.ActionStep` | src/tcpConnection.cc:270-346 | every action of connectEstablished, handleClose, removeConnection, connectDestroyed (its look and its store apart) and handleWrite keeps the lifecycle invariant |
| `LifecycleEvents.ProtocolStep` | src/eventLoop.cc:83-208 | so does everything the loops and other threads do to queues, wakeups and quit flags |
| `LifecycleEvents.DispatchStep` | src/eventLoop.cc:95-99 | so does taking the next active channel and running whatever handlers its events call for |
| `LifecycleEvents.HandlersMeaning` | src/tcpConnection.cc:290-307 | a dispatch closes iff the close callback is made or a read finds the end of the stream, calls the user iff a read finds data, and writes iff the write callback is made |
| `LifecycleEvents.RunNamed` | src/eventLoop.cc:202-205 | so does starting a functor that holds a connection, which is where it belongs |
| `LifecycleEvents.LookStep` | src/tcpConnection.cc:175 | so does another thread's look at the state in shutdown() |
| `LifecycleEvents.WriteStateStep` | src/tcpConnection.cc:177 | and its store, however much has happened since |
| `LifecycleEvents.OwnLookStep` | src/tcpConnection.cc:175 | and a look by the connection's own thread, whose store comes before anything else it does |
| `LifecycleAdmission.AdmitStep` | src/tcpServer.cc:61-90 | so does accepting a connection for any loop |
| `LifecycleAdmission.UnheldIsUnregistered` | src/channel.cc:28-34 | a connection without shared pointers is neither registered nor about to be dispatched |
| `LifecycleAdmission.DropStep` | src/tcpConnection.cc:61-64 | so the destruction of the connection keeps the invariant |
| `LifecycleRuns.StepKeepsInv` | src/tcpServer.cc:61-106 | every event of the running server keeps the invariant |
| `LifecycleRuns.RunKeepsInv` | src/tcpServer.cc:61-106 | so does every run |
| `LifecycleRuns.ServersStart` | src/tcpServer.cc:47-59 | servers start with any number of loops and with functors waiting, so the claims about all runs are about all of these |
| `LifecycleRefinement.StepIsCovered` | src/tcpConnection.cc:116-346 | every loop-thread step of a ConnSpec connection, taken where the program takes it, is one or two lifecycle events or none, with the same phase and interest and the invariant kept |
| `LifecycleRefinement.StoreIsCovered` | src/tcpConnection.cc:177 | so is the store of another thread's shutdown() |
| `LifecycleSafety.Ownership` | src/tcpServer.cc:79-106 | a connection its poller knows is held by the map, by a close under way, or by a pending or running removeConnectionInLoop or connectDestroyed |
| `LifecycleSafety.DropIsSafe` | src/channel.cc:28-34 | when the last shared pointer goes, hasChannel is false and no table or kernel list mentions the channel |
| `LifecycleSafety.NoDanglingDispatch` | src/eventLoop.cc:91-102 | every connection channel in activeChannels_ is alive, held and registered when its turn comes |
| `LifecycleSafety.TeardownIsIdempotent` | src/tcpServer.cc:99-106 | one erase and at most one report of the disconnection whatever the triggers, none before the state leaves connected; nothing leaks before connectDestroyed, and what nothing holds is unregistered |
| `LifecycleSafety.EstablishedOnce` | src/tcpServer.cc:87-89 | connectEstablished is on its way exactly once until it has run, and never again |
| `LifecycleSafety.NoLoopSleepsOnWork` | src/eventLoop.cc:143-156 | on every loop of the server, pending work means the poll is or is being woken |
| `LifecycleSafety.NoRefusedCalls` | src/epoller.cc:118-141 | over every run of the server no epoll_ctl call is refused |
| `LifecycleSafety.MapEntriesLive` | src/tcpServer.cc:79 | every entry of the map is a live connection under its own name |
| `LifecycleSafety.InterestChangeIsSafeIff` | src/tcpConnection.cc:243-266 | changing the interest of an established connection registers it, and keeps it held and the server in order exactly when connectDestroyed has not run or another removal is on its way |
| `LifecycleSafety.PhaseIsFinal` | src/tcpConnection.cc:278-287 | in any run of all threads a connection that has left connected never returns to it |
| `LifecycleSafety.ReportAfterShutdownIff` | src/tcpConnection.cc:278-287 | a connection that has left connected is still to be reported down in some continuation exactly when connectDestroyed stands between its look and its store |
| `LifecycleSafety.ForeignShutdownReportedIff` | src/tcpConnection.cc:173-182 | so after another thread's shutdown() exactly when its store falls between those two |
| `LifecycleSafety.OwnShutdownIsNeverReported` | src/tcpConnection.cc:173-182 | and never after shutdown() on the connection's own thread |
| `LifecycleProgress.DispatchBegins` | src/channel.cc:76-105 | what a thread has to do after taking up an active channel, in order, told from the returned events and what the read finds |
| `LifecycleProgress.ComesToTurn` | src/eventLoop.cc:83-106 | whatever functor is queued on a loop that is not quitting comes to be the next to run, by the loops' own steps and without a poll timing out |
| `LifecycleProgress.RemovalCompletes` | src/tcpServer.cc:93-106 | every removal on its way can be carried through by the loops' own steps: entry erased, destroyed, unregistered |
| `LifecycleProgress.EndOfStreamRemoves` | src/tcpConnection.cc:290-307 | when the peer closes, poll, dispatch and the loops' own steps lead a registered connection out of the map and the poller |
| `LifecycleProgress.ForceCloseRemoves` | src/tcpConnection.cc:193-209 | so does forceClose() by any thread, whatever becomes of the connection before its functor's turn |
| `LifecycleProgress.ForceCloseLooksAgain` | src/tcpConnection.cc:203-209 | forceCloseInLoop leaves a connection alone that is down by the time it runs, and closes any other |
| `LifecycleProgress.AnyoneMayCall` | src/tcpConnection.cc:173-201 | forceClose() and shutdown() are open to any thread; only the mutex and the state keep it from getting on |
| `LifecycleProgress.AcceptIsPossible` | src/tcpServer.cc:61-90 | a connection can be accepted whenever the server's thread dispatches, whichever loop's turn it is |
| `LifecycleProgress.AcceptedOn` | src/tcpServer.cc:61-90 | and is then on that loop, down, with an unregistered channel of its own |
| `LifecycleProgress.AcceptedIsEstablished` | src/tcpServer.cc:87-89 | an accepted connection, for the server's own loop or another, can be established by the loops' own steps |
| `LifecycleWitness.ReportedAfterShutdown` | src/tcpConnection.cc:280-284 | a run of a started server in which the user is told of the disconnection after a completed shutdown() |
| `LifecycleWitness.ShutdownStoresLast` | src/tcpConnection.cc:175-177 | a run in which the store of shutdown() comes last and the state is disconnecting though the user has been told |
| `LifecycleWitness.StartReadAfterDestruction` | src/tcpConnection.cc:243-250 | a run in which startRead in a late callback leaves the channel registered when the last shared pointer is about to go |

## Left out

- Sockets, addresses, accept(2) itself, TCP_INFO, the logger, time stamps, thread ids and names: thin wrappers without state of interest.
- `~TcpServer`, `~EventLoopThread` and process teardown: the lifecycle claims are for a running server.
- The C++ memory model, real pointers and `vector::capacity()`: steps of different threads interleave one at a time, pointers into the buffer are indices, and `size_t` does not overflow.
- Connections.TcpConnection.Shutdown: nothing comes between its look and its store; `Lifecycle` has that interleaving.
- Foreign sends and shutdowns bind raw pointers: payload and connection are taken to stay valid until the functor runs.
- Lifecycle: sends, `startRead` and `stopRead` queued by other threads are not events of that system; `LifecycleSafety.InterestChangeIsSafeIff` says what they would have to respect, as would a `startRead` after `connectDestroyed`.
- Lifecycle: it is a step system over values, because what it is about is the interleaving of several threads. The handlers it names are proved as methods in `Connections`, `Epoller` and `Servers`; those methods are not themselves run inside it, so aliasing between the objects of different connections is not captured.
- Lifecycle: shared pointers the user keeps are not counted, which only makes the last one go earlier; the wakeup and acceptor channels are not in the modelled pollers.
- Lifecycle: names are assumed to fit the buffer and the kernel to hand out descriptors no live channel holds.
- User code is any sequence of loop-thread sends, shutdowns, forced closes, reads switched on or off and queued functors; writes through `outputBuffer()` are excluded.
- EventLoops.EventLoop.RunLoop: is cut off after a given number of polls, because the program's loop need not end.
- LifecycleProgress.RemovalCompletes: shows the steps that carry a removal through and that each is possible in its turn; that the operating system does schedule the threads is not modelled.
- `LoopThreadSpec` models the two threads of the handshake as values, since its point is their interleaving; `EventLoopThreadPool::start`, `getAllLoops` and `retrieveInt8` to `retrieveInt64` would add only easy members.
- Event bits are two flags (read with priority, write); `addedToLoop_` and `eventHandling_` are written but never read and are omitted.
- `len` in `send` is not negative, `nextConnId_` does not overflow, and server names hold no NUL character.
