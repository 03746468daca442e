# A verified model of the reactor server

The repository is a C++ network library in the reactor style. One `EventLoop` thread cycles through poll,
dispatch and a batch of queued functors, while other threads push functors and wake it through an eventfd. A
`TcpConnection` sends, drains, shuts down and closes on top of two `Buffer`s and a `Channel`. An `EPollPoller`
keeps the channels, their states and the kernel's interest set in step. A `TcpServer` owns the connections and
defers their destruction through the loop's queue. This project models those parts and proves what they keep.

| file | what it models |
|---|---|
| `Buffer.dfy` | the byte buffer: a value `Buf`, runs of its operations, and the class `Buffer` over an array |
| `Epoll.dfy` | interest masks, callback dispatch, the poller with the kernel's set, the classes `Channel` and `EPollPoller` |
| `EventLoop.dfy` | the queue and wakeup protocol as a state machine over all threads, and the class `EventLoop`, whose methods extend legal runs of it |
| `Connection.dfy` | one connection as a value, with the bytes accepted and the bytes on the wire; runs of its operations |
| `TcpConnection.dfy` | the classes `TcpConnection` and `TcpServer`, code as written, over the objects above |
| `Names.dfy` | connection names |
| `Reactor.dfy` | the whole server as one machine: loop, poller, connections, the server's map, shared pointers, other threads, user callbacks |
| `Ownership.dfy`, `ReactorInvariants.dfy`, `ReactorSteps.dfy` | the invariant of that machine and the proof that every step keeps it |
| `Runs.dfy`, `StepShapes.dfy` | runs of that machine; what each step is to one connection and to the queue |
| `Guarantees.dfy` | lifetime, kernel agreement, queue and names in every reachable state |
| `Machines.dfy` | each connection's run within the whole, and what it brings: stream, half-close, callbacks, interest, life cycle |
| `BareFunctors.dfy`, `Dangling.dfy` | functors that bind a bare `this`: exactly when they find their connection gone, and a run in which one does |
| `Dispatches.dfy` | what one dispatch executes by its return, and how often it closes its connection |
| `Payloads.dfy` | what becomes of each payload and `shutdown` of another thread, and that a connection accepts exactly what was sent |
| `Requests.dfy` | that no report of the kernel, queued functor or `quit` is lost |

In the reactor a step is one atomic piece of one thread's code. The kernel, the clients, the scheduler and the
users' callbacks choose the next step freely: any short write or refusal, any event masks for any channels the
kernel holds, any sequence of public operations inside a callback, any interleaving with other threads. A
`shared_ptr` is modelled by its holders: the server's map, queued and batched functors, executing frames, the
tie that a dispatch locks, calls that other threads are in, and user code. When library code is about to use a
connection that nobody holds, the run is undefined from there: the machine says so and stops.

The steps of `Reactors.Next` and the code they stand for:

| step | code |
|---|---|
| `LoopStep` | the phases of `loop` and `doPendingFunctor`, and the loop's `handleRead` (EventLoop.cc:55-76, EventLoop.cc:143-168) |
| `Wait` | `poll` returns with events on channels the kernel holds (EPollPoller.cc:30-59) |
| `Accept` | `newConnection` through `connectEstablished` up to its callback (TcpServer.cc:59-101, TcpConnection.cc:71-79) |
| `Dispatch` | `handleEvent` of the next active channel: the tie, then the callbacks of its mask (EventLoop.cc:67-70, Channel.cc:33-90) |
| `RunTask` | the next functor of the batch (EventLoop.cc:163-166) |
| `Exec` | the next piece of library code in the open frames: `handleClose`, `removeConnectionInLoop`, `handleRead`, `handleWrite`, `connectDestroyed` and its removal of the channel, `sendInLoop`, `shutdownInLoop` (TcpConnection.cc:81-250, TcpServer.cc:108-118) |
| `Return` | a callback or functor returns and its frame's shared pointers go |
| `ByUser` | user code called back in the loop's thread: `send`, `shutdown`, `queueInLoop`, `quit`, or return |
| `Acquire`, `Release` | user code keeps or drops a shared pointer |
| `Destruct` | one entry in `~TcpServer` (TcpServer.cc:28-41) |
| `ByOther` | one step of another thread: the test in `send`, the test and mark in `shutdown`, the push that follows, `queueInLoop` or `quit` up to the push or flag, or the write of the eventfd (EventLoop.cc:79-128, TcpConnection.cc:42-69) |

## Where the code departs from its intent

The model keeps the code as it is. Where both forms matter, `Connections.Code` selects one: `AS_WRITTEN` is
the source, `INTENDED` has the two repairs.

- `Buffer.cc:50` offers `writableBytes()` bytes to `write`; `handleWrite` then retrieves what was taken as if
  they had been readable. `StreamIsConservedExactlyWhenClean` says exactly when the stream survives,
  `AsWrittenDrainIsSafeExactlyWhen` when a single drain does, `StaleBytesCanReachTheWire` gives an input for
  which it does not.
- `TcpConnection.cc:118-149` never disables writing after a drain (`Channel.h:51` has no caller), so a
  half-close after a drain never comes: `AsWrittenHalfCloseExactly`, and `TheHalfCloseCanBeLost` gives an input.
  With the call restored it does: `HalfCloseFollowsTheDrain`. Safety holds for both: `HalfCloseOnlyWhenAllIsSent`.
- `EventLoop.cc:143-151` writes the eventfd where it should drain it. The protocol allows any effect on the
  counter there (`ReadWakeup`), so its theorems hold for both.
- `Channel.cc:75` tests `EPOLLIN || EPOLLPRI`, which is 1: urgent data alone is never read.
- `TcpConnection.cc:52-57` and `TcpConnection.cc:67` push a functor with a bare `this` some time after the test of
  `state_`, so the push can come after the connection's destruction. `BareThisCanDangle` is a run in which the
  functor then runs on a connection that is gone, for `send` and for `shutdown`. `BareThisDanglesExactlyWhen` says
  exactly when that happens: the push came late, and user code has not kept its pointer until the functor runs.
  Users who keep it are safe (`PatientUsersAreSafe`), and nothing else in the library dangles
  (`OnlyBareThisDangles`). Everything else below holds whether or not it happens.
- `TcpConnection.cc:30` binds errors to `handleClose`, which can therefore run more than once in a dispatch:
  `ADispatchClosesOnceExactlyWhen`. The second close registers the descriptor with the kernel again, with an empty
  mask, until the destruction removes it: `CloseLeavesTheKernel`.
- `TcpServer.cc:96` binds `removeConnectionInLoop` directly, and the guard in `EventLoopThreadPool.cc:39` is
  inverted, so the only defined outcome is that every connection lives in the base loop. A model with one loop
  is exact.
- `Buffer.h:18-19` ignores the size its constructor is given.
- The loop's own thread may queue before `loop()` without a wakeup: `BeginIsSafeExactlyWhenAnnounced`.

## Model

| member | source | states |
|---|---|---|
| `Buffers.MakeSpaceIsSafe` | Buffer.h:117-138 | both branches end with room for `len` bytes and the same readable bytes; the branch that moves is taken only when the copy goes strictly left; the size stays within readable + 2·len + 7 |
| `Buffers.EnsureWritableIsSafe` | Buffer.h:76-84 | afterwards `len` bytes fit, nothing readable changed, the size bound holds |
| `Buffers.AppendIsSafe` | Buffer.h:87-94 | the readable bytes afterwards are those before followed by the data, for every state of the indices; the size bound holds |
| `Buffers.RetrieveIsSafe` | Buffer.h:45-61 | exactly the first `len` readable bytes (or all) are dropped, and an emptied buffer is rewound to index 8 |
| `Buffers.ReadFdIsSafe` | Buffer.cc:12-45 | for every count `readv` may return, over one segment or two, the stream bytes are appended in order across the spill into `extrabuf` |
| `Buffers.SentThenRetrieved` | Buffer.cc:48-56 | writing `n` bytes from `peek()` and retrieving `n` conserves the stream if and only if `n` was readable; otherwise it adds bytes |
| `Buffers.RunIsFifo` | Buffer.h:45-94 | refinement: over every run of operations, old contents and input together equal output followed by new contents |
| `Buffers.SizeIsBounded` | Buffer.h:117-138 | over every run the vector never exceeds the larger of its first size and peak readable + largest append + 7 |
| `Buffers.Buffer.constructor` | Buffer.h:18-22 | a new buffer has 1032 cells, both indices at 8, and is empty |
| `Buffers.Buffer.ReadableBytes` | Buffer.h:24-27 | the length of the contents |
| `Buffers.Buffer.WritableBytes` | Buffer.h:29-32 | the cells free behind the write index |
| `Buffers.Buffer.Retrieve` | Buffer.h:45-55 | the object does to its indices what the value does, and drops exactly that prefix |
| `Buffers.Buffer.RetrieveAll` | Buffer.h:57-61 | empties and rewinds |
| `Buffers.Buffer.RetrieveAllAsString` | Buffer.h:64-67 | returns all readable bytes and leaves none |
| `Buffers.Buffer.RetrieveAsString` | Buffer.h:69-74 | the string returned followed by the new contents is the old contents |
| `Buffers.Buffer.EnsureWritableBytes` | Buffer.h:76-84 | makes room in place without touching the contents |
| `Buffers.Buffer.MakeSpace` | Buffer.h:117-138 | grows the array or moves the readable cells within it, contents unchanged |
| `Buffers.Buffer.CopyLeft` | Buffer.h:132-133 | the forward copy onto an overlapping range to the left moves every original byte |
| `Buffers.Buffer.Resize` | Buffer.h:125 | the old cells, then zeros |
| `Buffers.Buffer.CopyIn` | Buffer.h:92 | overwrites exactly the cells from the index on |
| `Buffers.Buffer.Append` | Buffer.h:87-94 | contents become the old ones followed by the bytes |
| `Buffers.Buffer.ReadFd` | Buffer.cc:12-45 | contents become the old ones followed by what the kernel delivered; returns its count |
| `Buffers.Buffer.WriteFd` | Buffer.cc:48-56 | puts the cells from the read index on the wire, up to `writableBytes()` of them, and moves neither index |
| `EpollPollers.WritingAfter` | Channel.h:48-57 | each enable and disable does to `isWriting()` what its name says; reading and writing are independent bits |
| `EpollPollers.ReadingAfter` | Channel.h:48-52 | likewise for interest in input: enabling sets both of its bits, disabling it or everything clears them, and changes of writing leave them |
| `EpollPollers.CallbacksFollowTheMask` | Channel.cc:54-90 | exactly which callbacks a mask runs, each once and in order; the read callback runs exactly for EPOLLIN, and urgent data alone runs nothing |
| `EpollPollers.AgreementMeans` | EPollPoller.cc:61-106 | kAdded holds iff the kernel maps the descriptor to exactly this channel and mask; kDeleted means listed, not in the kernel, mask empty; kNew holds iff not listed, and then not in the kernel |
| `EpollPollers.UpdateKeepsAgreement` | EPollPoller.cc:61-91 | every `updateChannel` keeps channel, map and kernel in agreement, and its `epoll_ctl` is accepted: ADD finds the descriptor absent, MOD and DEL present. A kAdded channel whose mask is now empty is out of the kernel and kDeleted; any other is kAdded and the kernel maps its descriptor to exactly this mask and channel |
| `EpollPollers.RemoveKeepsAgreement` | EPollPoller.cc:93-106 | `removeChannel` keeps the agreement, its DEL is accepted, and no trace of the channel is left |
| `EpollPollers.EveryRunAgrees` | EPollPoller.cc:61-143 | for every sequence of enables, disables and removals on channels with distinct descriptors the parties agree and no `epoll_ctl` is refused: the fatal branch is unreachable |
| `EpollPollers.Channel.constructor` | Channel.cc:11-18 | a new channel is unlisted, untied, without interest |
| `EpollPollers.Channel.Set` | Channel.h:48-52 | changes the mask and brings poller and kernel into agreement with it, by an accepted call; the descriptor leaves the kernel exactly when a kAdded channel's mask becomes empty |
| `EpollPollers.Channel.Update` | Channel.cc:28-31 | the poller's view after an update under the channel's mask |
| `EpollPollers.Channel.Remove` | Channel.cc:23-26 | afterwards kNew, in neither map nor kernel |
| `EpollPollers.Channel.Tie` | Channel.cc:94-98 | sets the tie |
| `EpollPollers.Channel.HandleEvent` | Channel.cc:33-51 | a tied channel whose owner is gone runs nothing; otherwise the callbacks of the mask |
| `EpollPollers.Channel.HandleEventWithGuard` | Channel.cc:54-90 | which callbacks a mask runs, in order |
| `EpollPollers.EPollPoller.UpdateChannel` | EPollPoller.cc:61-91 | the object's map, the channel's index and the modelled kernel set change as the value does; the index is kDeleted exactly when the channel was kAdded and asks for nothing, else kAdded |
| `EpollPollers.EPollPoller.RemoveChannel` | EPollPoller.cc:93-106 | likewise for removal |
| `EpollPollers.EPollPoller.FillActiveChannels` | EPollPoller.cc:109-118 | the active list holds the reported channels in order, each with the mask reported for it |
| `EventLoops.StepKeepsInv` | EventLoop.cc:55-168 | every step of every thread keeps the order of tasks, the phases, the announcement of queued tasks and the bound on polls after `quit_` |
| `EventLoops.NoLostWakeup` | EventLoop.cc:105-128 | for any number of threads and any interleaving, and any effect of `handleRead`: at a poll with tasks queued, the eventfd is positive or a thread is between its push and its wakeup |
| `EventLoops.BeginIsSafeExactlyWhenAnnounced` | EventLoop.cc:55-62 | the hypothesis is exact: no run from `loop()` on can sleep on a queued task if and only if the tasks queued before were announced |
| `EventLoops.TasksRunInOrder` | EventLoop.cc:105-168 | tasks run, then the rest of the batch, then the queue, equal the order of pushes: exactly once, first in first out |
| `EventLoops.QuitStopsTheLoop` | EventLoop.cc:79-89 | over every run: once `quit_` is set at most one poll begins, and at it the eventfd is positive or the quitting thread has yet to write it |
| `EventLoops.BatchIsFixedAtSwap` | EventLoop.cc:153-168 | one `doPendingFunctor` runs exactly the tasks queued at its swap, in order, whatever is queued meanwhile |
| `EventLoops.EventLoop.QueueInLoop` | EventLoop.cc:105-117 | pushes, and wakes just when called from another thread or during the batch; extends a legal run |
| `EventLoops.EventLoop.PushTask` | EventLoop.cc:107-110 | the push alone, under the mutex |
| `EventLoops.EventLoop.Wakeup` | EventLoop.cc:120-128 | the write alone |
| `EventLoops.EventLoop.RunInLoop` | EventLoop.cc:91-103 | runs at once in the loop's thread, else queues |
| `EventLoops.EventLoop.QuitLoop` | EventLoop.cc:79-89 | sets the flag, and from another thread wakes the loop afterwards |
| `EventLoops.EventLoop.HandleRead` | EventLoop.cc:143-151 | the eventfd is one higher, as written |
| `EventLoops.EventLoop.DoPendingFunctor` | EventLoop.cc:153-168 | with tasks that queue and quit, and other threads acting between any two statements of theirs: what was queued on entry is run first, exactly the batch taken at the swap is run, in order, and a `quit()` in any of its tasks is seen |
| `EventLoops.EventLoop.TakeBatch` | EventLoop.cc:156-161 | flag, then swap |
| `EventLoops.EventLoop.RunLoop` | EventLoop.cc:55-76 | the loop is a legal run of the protocol, with callbacks that queue and quit and other threads acting between their statements and the loop's; each round polls once, the first runs at least what was queued at entry, no round follows one whose dispatch called `quit()`, and the loop ends only with `quit_` set |
| `EventLoops.EventLoop.RunFunctor` | EventLoop.cc:163-166 | the functor counts as run, what its body queues by itself is queued in order, and a `quit()` in it is seen |
| `EventLoops.EventLoop.RunScript` | EventLoop.cc:67-70 | a callback that queues and quits, with other threads in between, leaves the loop's thread and batch where they were; what it queues alone is queued in order |
| `EventLoops.EventLoop.PollAndDispatch` | EventLoop.cc:62-70 | one poll, then the callbacks before and after the wakeup channel, which may queue and quit; nothing is run or forgotten, what the callbacks queue undisturbed is queued in order, and a `quit()` called there is seen |
| `Connections.SendSummary` | TcpConnection.cc:179-243 | what one `sendInLoop` does to wire, buffer, fault and mask, for every answer of the kernel; writing is armed afterwards iff it was or bytes had to wait, and the channel updates only then |
| `Connections.SendAccepts` | TcpConnection.cc:42-49 | `send` on a connected connection accepts exactly the payload, and unless a fault drops it the wire followed by the buffer grows by exactly the payload; in any other state nothing changes |
| `Connections.AcceptedIsWhatWasGiven` | TcpConnection.cc:42-69 | over every run, what is accepted is what was before followed by the payload of each `send` that found the connection connected and each `sendInLoop` that did not find it closed, in order |
| `Connections.DrainSummary` | TcpConnection.cc:118-149 | what one successful `handleWrite` does, and that the half-close comes just when it leaves writing disarmed on a connection shutting down |
| `Connections.StreamIsConservedExactlyWhenClean` | TcpConnection.cc:118-243 | over every fault-free run, with any short writes: wire followed by buffer equals the accepted payloads if and only if no `writeFd` took more than was readable; a violation is never made good |
| `Connections.OfferingReadableIsClean` | Buffer.cc:48-56 | with the readable length offered every run is such a run |
| `Connections.AsWrittenDrainIsSafeExactlyWhen` | Buffer.cc:48-56 | as written, one drain is safe against every kernel iff the free space is no larger than what waits; with no free space it makes no progress |
| `Connections.StaleBytesCanReachTheWire` | Buffer.cc:50 | a concrete run that puts a byte on the wire that was never sent |
| `Connections.WireIsAlwaysAPrefix` | TcpConnection.cc:207-218 | with sticky EPIPE and ECONNRESET the wire stays a prefix of the accepted payloads over every clean run |
| `Connections.HalfCloseOnlyWhenAllIsSent` | TcpConnection.cc:62-69 | a half-close in any run, as written or repaired, on an open fault-free connection comes only when every accepted payload is on the wire |
| `Connections.RunKeepsHalf` | TcpConnection.cc:225-250 | until the close, bytes wait only while writing is armed, and unarmed means all is sent |
| `Connections.HalfCloseFollowsTheDrain` | TcpConnection.cc:118-149 | repaired, with everything other threads may have queued: once `shutdownInLoop` has run, successful drains are bounded by the bytes that waited or came late, bytes wait until the half-close, and it comes at most once plus once for each further `shutdownInLoop` functor |
| `Connections.ShutdownActsAtOnce` | TcpConnection.cc:62-69 | `shutdown()` in the loop's thread on a connected connection starts the shutdown and half-closes then and there exactly when writing is not armed; in any other state nothing changes |
| `Connections.ShutdownLeadsToTheHalfClose` | TcpConnection.cc:62-69 | the same progress statement from `shutdown()` itself: at once if writing is not armed, else once the buffer has drained |
| `Connections.AsWrittenHalfCloseExactly` | TcpConnection.cc:244-250 | as written, with everything other threads may have queued: `shutdownInLoop` half-closes if and only if writing is not armed when it runs, at once and again for each further such functor; if armed, no half-close ever follows |
| `Connections.AsWrittenShutdownExactly` | TcpConnection.cc:62-69 | as written, from `shutdown()` on a connected connection: half-closed at once, and again for each further functor, if and only if writing was not armed; otherwise never |
| `Connections.TheHalfCloseCanBeLost` | TcpConnection.cc:118-149 | a concrete run, as written, with everything on the wire after `shutdown()` and no half-close |
| `Connections.AsWrittenArmedExactly` | TcpConnection.cc:237-241 | as written: writing is armed if and only if some payload ever had to be buffered |
| `Connections.CallbacksMeanWhatTheySay` | TcpConnection.cc:193-235 | at any point of any run: high-water is queued exactly on crossing the mark upwards, with the new length; write-complete exactly when a step leaves nothing to send, and on clean runs all accepted is then on the wire |
| `Connections.ListensUntilClosed` | Channel.h:48-52 | over every run an open connection asks for input whatever else it asks for, and a closed one asks for nothing |
| `Connections.HighWatersAreSeparated` | TcpConnection.cc:229-235 | between two high-water callbacks a drain took the buffer below the mark |
| `Connections.RankNeverDecreases` | TcpConnection.cc:62-90 | no operation moves the state back |
| `TcpConnections.TcpConnection.constructor` | TcpConnection.cc:8-34 | a new connection is connecting and unregistered, asks for nothing, has empty buffers, and has the descriptor, mark and callbacks it was given |
| `TcpConnections.TcpConnection.Send` | TcpConnection.cc:42-49 | in the loop's thread: a connected connection accepts exactly the payload, which goes to the wire or the buffer unless a fault drops it; otherwise nothing happens |
| `TcpConnections.TcpConnection.PushSend` | TcpConnection.cc:52-57 | the push in another thread: it queues whatever has become of the connection since the test |
| `TcpConnections.TcpConnection.SendInLoop` | TcpConnection.cc:179-243 | object, poller and queue change exactly as the value's `sendInLoop` says |
| `TcpConnections.TcpConnection.TryWrite` | TcpConnection.cc:193-219 | the direct write, if nothing is armed and nothing waits |
| `TcpConnections.TcpConnection.Keep` | TcpConnection.cc:225-242 | what is left waits in the buffer, writing is armed, the mark is reported |
| `TcpConnections.TcpConnection.HandleWrite` | TcpConnection.cc:118-149 | object, poller and queue change exactly as the value's `handleWrite` as written says |
| `TcpConnections.TcpConnection.ShutdownInLoop` | TcpConnection.cc:244-250 | half-closes unless writing is armed |
| `TcpConnections.TcpConnection.Shutdown` | TcpConnection.cc:62-69 | in the loop's thread: a connected connection is shutting down, with one more half-close exactly when writing is not armed; otherwise nothing happens |
| `TcpConnections.TcpConnection.TestShutdown` | TcpConnection.cc:64-66 | the test and the mark, in any thread |
| `TcpConnections.TcpConnection.PushShutdown` | TcpConnection.cc:67 | the push in another thread, whatever has become of the connection since the mark |
| `TcpConnections.TcpConnection.ConnectEstablished` | TcpConnection.cc:71-79 | connected, tied, registered for reading |
| `TcpConnections.TcpConnection.ConnectDestroyed` | TcpConnection.cc:81-90 | whatever the state, the channel ends in neither map nor kernel with index kNew, and every other channel is untouched |
| `TcpConnections.TcpConnection.HandleClose` | TcpConnection.cc:150-161 | closed, no interest, out of the kernel if it was in it, out of the server's map, destruction queued |
| `TcpConnections.TcpConnection.HandleRead` | TcpConnection.cc:92-117 | bytes reach the input buffer in order and the user; the end of the stream, and nothing else, closes, updates the channel and takes exactly this name out of the server's map |
| `TcpConnections.TcpServer.constructor` | TcpServer.cc:10-27 | no connections, ids from 1 |
| `TcpConnections.TcpServer.NewConnection` | TcpServer.cc:59-101 | the map gains the connection under a name it did not hold; the connection is connected, registered for reading alone, empty, and has the descriptor, mark and callbacks it was given |
| `TcpConnections.TcpServer.RemoveConnectionInLoop` | TcpServer.cc:108-118 | exactly that name leaves the map, and the destruction is queued, not run |
| `TcpConnections.TcpServer.Destruct` | TcpServer.cc:28-41 | every connection is destroyed on the spot, and of the poller's channels exactly the server's are gone |
| `TcpConnections.TcpServer.Reset` | TcpServer.cc:33-39 | one round of that loop leaves the other entries registered |
| `Names.DecimalReadsBack` | TcpServer.cc:64 | a number prints as digits that denote it, without leading zeros |
| `Names.DecimalIsInjective` | TcpServer.cc:64 | different numbers print differently |
| `Names.ShortNamesAreUncut` | TcpServer.cc:62-66 | with a short address the name is the server's name, dash, address, hash sign and number in full, and the number reads back as the id |
| `Names.NamesAreDistinct` | TcpServer.cc:62-66 | different ids give different names: the 64-byte buffer cuts nothing |
| `Names.NamesAreDistinctExactlyWhenShort` | TcpServer.cc:62-66 | for all ids an `int` counts, names are pairwise distinct if and only if the address text has at most 51 characters |
| `Ownership.OpenFunctor` | EventLoop.cc:163-166 | taking the next functor keeps who owns what |
| `Ownership.CloseOne` | TcpConnection.cc:150-161 | a close keeps a registered connection listed or on its way to destruction |
| `Ownership.EraseOne` | TcpServer.cc:108-118 | erasing from the map hands the connection over to the queued destruction |
| `Ownership.DestroyOne` | TcpConnection.cc:81-88 | `connectDestroyed` keeps the ownership while its callback runs |
| `Ownership.RemoveOne` | TcpConnection.cc:89 | the removal ends the registration that needed an owner |
| `Ownership.PushPlain` | EventLoop.cc:107-110 | any push but a destruction's, also one of a bare `this` that comes late, keeps who owns what |
| `ReactorInvariants.RegisteredIsOwned` | TcpServer.cc:88-118 | a registered connection is held by the map, a functor or a frame |
| `ReactorInvariants.EraseByName` | TcpServer.cc:113 | erasing by name takes out that connection and no other |
| `ReactorInvariants.CommitKeepsRest` | EventLoop.cc:131-138 | an operation's effect on connection, poller and queue keeps agreement, distinct descriptors, places and streams |
| `ReactorSteps.InvExec` | TcpConnection.cc:81-250 | every piece of library code a frame can run keeps the whole invariant |
| `ReactorSteps.InvDispatch` | EventLoop.cc:67-70 | a dispatch finds its tie alive, keeps the invariant, and opens a frame with exactly the work its mask asks for, holding its connection |
| `ReactorSteps.DispatchDoesWhatIsAsked` | TcpConnection.cc:23-30 | for every mask: `handleRead` is to be done exactly for EPOLLIN, `handleWrite` exactly for EPOLLOUT, `handleClose` once for a hang-up without input and once for an error, in that order |
| `ReactorSteps.InvRunTask` | EventLoop.cc:163-166 | running a functor keeps the invariant and opens a frame with exactly the one piece of work the functor binds, holding what it binds |
| `ReactorSteps.InvAccept` | TcpServer.cc:59-101 | so does a new connection on a descriptor that no live connection has |
| `ReactorSteps.InvOther` | TcpConnection.cc:42-69 | so does each step of another thread: test, mark, push at any later time, wakeup |
| `ReactorSteps.InvDestruct` | TcpServer.cc:28-41 | so does the server's destructor after the loop |
| `ReactorSteps.StepKeepsInv` | EventLoop.cc:55-168 | every step of the whole server keeps the invariant |
| `Guarantees.ChannelsBelongToLiveConnections` | Channel.cc:33-51 | lifetime: in every reachable state each channel in the poller's map, the kernel's set or the undispatched active list belongs to a connection the library itself keeps alive |
| `Guarantees.ClosedIsGoneAtThePoll` | TcpConnection.cc:150-161 | however often a dispatch closed it, between iterations a closed connection is in neither map nor kernel, with index kNew |
| `Machines.ClosedStaysGone` | EPollPoller.cc:61-106 | and no later step of any run registers it again |
| `Guarantees.DestructorLeavesNothing` | TcpServer.cc:28-41 | after the loop and the destructor, poller and kernel are empty |
| `Guarantees.KernelAlwaysAgrees` | EPollPoller.cc:132-142 | in the whole server the parties agree in every reachable state and no `epoll_ctl` was ever refused |
| `Guarantees.QueueIsSound` | EventLoop.cc:105-168 | in the whole server, too, tasks run in order and no wakeup or quit is lost |
| `Guarantees.NewConnectionsDisplaceNone` | TcpServer.cc:59-101 | in every reachable state a new connection's name is free; the map gains that connection only, it is open for reading with what it was given, and its connection callback is to run in a frame that holds it |
| `Machines.EachConnectionRunsItsMachine` | TcpServer.cc:59-118 | refinement: in every run of the server each connection is exactly what its own machine makes of it, constructed as the accept with its number says, established once, then put through the operations the steps performed on it, in order and no others |
| `Machines.CloseLeavesTheKernel` | TcpConnection.cc:150-161 | in every reachable state `handleClose` of an open connection, or the destruction of a connected one, takes it out of the kernel by one accepted DEL; a second `handleClose` finds kDeleted and registers the descriptor again with an empty mask |
| `Machines.DestructionTellsTheUser` | TcpConnection.cc:81-90 | in every reachable state: the destruction of a connected connection closes it and runs its callback before the channel is removed; of any other it only removes the channel; other connections are untouched |
| `Machines.OpenConnectionsAreWatched` | TcpConnection.cc:71-79 | in every run of the server, while the loop runs, the kernel watches every connection that is not closed, for its own channel and mask and with interest in input |
| `Machines.ConnectionsOnlyAdvance` | TcpConnection.cc:62-90 | life cycle: over every stretch of every run states do not go back, and nothing accepted or sent is taken back |
| `Machines.StreamsAreSound` | TcpConnection.cc:118-243 | in the server, with the readable length offered, the wire is a prefix of what was accepted, and without faults wire and buffer are all of it |
| `Machines.HalfClosesAreSound` | TcpConnection.cc:236-250 | in the server, as written or repaired, a half-close on an open fault-free connection comes only when all is sent |
| `Machines.DrainsTakeEffect` | TcpConnection.cc:118-149 | in every reachable state `handleWrite` with writing armed sends exactly what the kernel took, keeps the rest of what waited in order, queues write-complete exactly when nothing waits any more, and half-closes just when it leaves a connection shutting down unarmed |
| `Machines.ShutdownsTakeEffect` | TcpConnection.cc:62-69 | in the server a user's `shutdown()` in the loop's thread marks a connected connection, half-closes it at once unless writing is armed, and touches nothing else |
| `Machines.CallbacksAreSound` | TcpConnection.cc:126-235 | in the server a step pushes a high-water callback exactly when the buffer crosses the mark upwards, with the new length; and, with the readable length offered, a write-complete callback on a fault-free connection only when all accepted is on the wire |
| `BareFunctors.OnlyBareThisDangles` | TcpConnection.cc:52-67 | when a run becomes undefined, the code about to run is a bare-`this` functor's and neither library nor user code holds its connection; every other piece of library code in a frame has its connection kept alive by the library |
| `BareFunctors.KeptForStays` | EventLoop.cc:153-168 | whether the library keeps a connection for a functor on its way does not change until that functor has run |
| `BareFunctors.BareThisDanglesExactlyWhen` | TcpConnection.cc:52-67 | a bare-`this` functor finds its connection gone if and only if it was pushed when the connection had left the server's map and no functor waiting for the swap held it, and user code holds no pointer when it runs |
| `BareFunctors.PatientUsersAreSafe` | TcpConnection.cc:42-69 | a run in which nobody gives up the last user pointer to a connection with a call under way never becomes undefined |
| `Dangling.BareThisCanDangle` | TcpConnection.cc:42-69 | a run from the start in which it happens, for `send` with any payload and for `shutdown` |
| `Dispatches.ADispatchClosesUpTo` | Channel.cc:54-90 | until a dispatch returns, no run executes more `handleClose` calls than the mask has callbacks bound to or able to reach it, and some run executes that many |
| `Dispatches.ADispatchClosesOnceExactlyWhen` | TcpConnection.cc:28-30 | every run of a dispatch executes `handleClose` at most once if and only if the mask does not join an error to a hang-up or to input |
| `Dispatches.ADispatchDoesWhatIsAsked` | Channel.cc:54-90 | over all runs of a dispatch until its return: as many `handleRead`, `handleWrite`, `handleClose`, erasures and user callbacks are executed as the mask and the reads that met the end of the stream ask for, no more and no fewer |
| `Payloads.AcceptedIsWhatWasSent` | TcpConnection.cc:42-60 | in every run of the server, what a connection has accepted is the concatenation, in the order of execution, of the payloads of users' `send` calls that found it connected and of other threads' `send` calls whose functors ran before the close |
| `Payloads.CallsAreCarriedOut` | TcpConnection.cc:52-67 | in every run the functor of another thread's call does that call once: on a live connection a `send` that is not too late accepts exactly its payload, a `shutdown` performs one `shutdownInLoop`, and nothing else changes |
| `Requests.NothingAskedIsLost` | EventLoop.cc:55-117 | in every run: the channels reported by `poll` are those dispatched, once each and in order, then those the dispatch has still to come to; the user's queued functors are in the queue once each and in order; `quit_` is set exactly when some thread has called `quit` since `loop()` began |
| `Requests.ReportsAreDealtWith` | EventLoop.cc:62-76 | so outside a dispatch every report has been dispatched, and the user's functors that have run are the first ones queued |

## Left out

- System calls, logging, time, addresses, sockets, the acceptor and the thread wrappers: the kernel's answers are
  parameters within their documented ranges, and an accept is a step that brings a new descriptor.
- More than one loop: the guard in `EventLoopThreadPool.cc:39` leaves no defined outcome with several, so
  `TcpServer::removeConnection`, which has no caller, is not modelled either.
- The wakeup channel and the acceptor's channel as entries of the reactor's poller: they are registered once and
  never change.
- The growth of the event list in `EPollPoller::poll`, and its timeout: any set of ready channels may be returned.
- `size_t` overflow, exhaustion of memory and the overflow of `nextConnId_` past INT_MAX: numbers are natural
  numbers, and the server accepts while the id fits an `int`.
- Addresses of more than 51 characters in the reactor: `toIpPort` yields at most 21.
- The moment between the test and the mark of `state_` in `shutdown` (TcpConnection.cc:64-66): they are one step, so
  two threads cannot both pass the test and a close cannot fall between. Between mark or test and push, and between
  push and wakeup, any other step may come.
- What a run does after a bare `this` has dangled: it is undefined, and the machine stops.
- The pointer that `send` hands to the loop's thread (TcpConnection.cc:55): the payload is passed by value.
- A `~TcpServer` run inside the loop's own dispatch: the reactor destroys the server after `loop()` has returned,
  and an entry that is reset counts as removed.
- The input buffer inside the reactor: a read brings some bytes, none or an error there; its contents are proved
  for the classes.
- Repairing the disarming without the length: the reactor covers the code as written, the code with the length
  repaired, and the code with both repaired.
- Interference inside a method of the classes of `TcpConnection.dfy`: they are one thread at work, and the
  interleaving is in the reactor. In `EventLoop` other threads act between statements, by given scripts, but not
  between the push and the write inside one `queueInLoop`; the protocol itself allows that too.
- User callbacks in the classes: a class method goes on where the callback would return; in the reactor a callback
  is an arbitrary sequence of public operations.
- Empty callbacks: `handleWrite` queues the write-complete callback without testing it, and so does the model; what
  calling an empty one does is not modelled.
- EventLoops.EventLoop.RunLoop: cut off after a given number of polls, because a loop need not end; the theorems
  about runs have no such bound.
- EventLoops.NoLostWakeup: assumes that the loop's own thread queues nothing before `loop()`;
  BeginIsSafeExactlyWhenAnnounced says when that can be dropped.
- EventLoops.QuitStopsTheLoop: counts polls from `loop()` on, which resets `quit_`; a `quit()` before it is forgotten.
- EpollPollers.Channel.Tie: records that there is a tie, not the weak pointer itself.
- EpollPollers.Channel.HandleEvent: whether the tie can be locked is a parameter; the reactor computes it from the
  holders of the connection.
