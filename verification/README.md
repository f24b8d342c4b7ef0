# A verified model of a reactor TCP library

The repository is a small TCP server library in the reactor style: one event loop per thread,
non-blocking sockets watched by epoll, connections handed from a main loop to io loops, and
callbacks for everything the user does. This project models the five state machines that
library is made of and proves what holds in every run of each, whatever the kernel answers and
however the threads interleave.

| file | what it models |
|---|---|
| `Bytes.dfy` | byte strings, concatenation of messages, subsequences |
| `Buffer.dfy` | the two-index buffer: compaction in place, growth, scatter read |
| `Channel.dfy` | channels and their registration with the poller and the kernel |
| `Lifecycle.dfy` | the four states of a connection and their order |
| `Connection.dfy` | one connection: direct write, buffering, write interest, half-close, callbacks |
| `TcpConnection.dfy` | the connection object over real buffers and a real channel |
| `Echo.dfy` | the echo server on top of a connection |
| `EventLoop.dfy` | the task queue, the wakeup protocol and quit, under every interleaving |
| `Names.dfy`, `Pool.dfy` | connection names; round-robin placement |
| `TcpServer.dfy` | the server object: naming, placing, registering, erasing |
| `Server.dfy`, `Ownership.dfy`, `Teardown.dfy` | who keeps a connection alive, from accept to close |
| `Account.dfy` | what a run adds up to: lives, functors, handlers, kept pointers, told from its actions |
| `Harm.dfy` | which sends can leave a poller with a connection that is gone |

Functions on values say what an operation does and carry the theorems about all runs. Classes
hold the same fields as the C++ objects and change them in place, and their methods are proved
equal to those functions: for `Buffer`, `Channel`, `EpollPoller` and `TcpConnection` outright. The
concurrent parts (`EventLoop.dfy`, `Server.dfy`) are transition systems whose steps are the atomic
actions of single threads; a run is any sequence of enabled steps. There the object's methods are
tied to runs: `queueInLoop`, `quit` and `doPendingFunctors` of the loop object are runs of the
interleaving machine (`QueueCallIsARun`, `QuitCallIsARun`, `BatchIsARun`), and accepting and
erasing on the server object are the ownership machine's steps on what that object holds
(`AcceptMatches`, `RemoveMatches`). The rest of the ownership machine has no object of its own.

The kernel is a set of permitted answers: `write` takes any part of what it is given or fails,
and always fails after `SHUT_WR`; `readv` delivers at most what its segments hold; `epoll_ctl`
refuses to add what is present and to modify or delete what is absent; `epoll_wait` reports any
registered descriptors; an eventfd is a counter that a write increments, up to its maximum, and a
read clears; `accept` gives a descriptor that no live connection has.

## What the code does where its comments say otherwise

The model follows the code.

- `sendInLoop` starts `remaining` at zero (`TcpConnetion.cpp:87`), so a message sent while output
  is pending, or whose write fails, is dropped whole. The comment at `TcpConnetion.cpp:123-129`
  says it would be buffered. `KeptExactlyWhen` states which messages survive,
  `SecondMessageIsLost` gives one that does not, and `EchoTheorem` says exactly when an echo is
  complete.
- `disbaleAll` masks with the complement of zero (`Channel.h:73`), so it changes no interest:
  `DisableAllKeepsEvents`. `handleClose` can therefore run several times for one connection, and
  the teardown theorems hold for any number of times.
- A task queued by the loop's own thread before `loop()` does not wake the first poll
  (`EventLoop.cpp:133`): `StrandedExactlyWhen`, `EarlyPushIsStranded`. A `quit()` before `loop()`
  is erased (`EventLoop.cpp:65`): `QuitTakesEffectExactlyWhen`.
- `sendInLoop` goes on after "give up writing" (`TcpConnetion.cpp:90-93`), so a callback that sends
  after `connectDestroyed` can put the removed channel back. While another `connectDestroyed` is
  still due for the connection (queued on its loop, or to be queued by the main thread or by a
  removal waiting on the main loop) that does no harm; otherwise the poller can be left with a
  pointer to a connection that is gone. `HarmExactlyWhen` and `TeardownAliveExactlyWhen` say so of
  every step and every run, in both directions, `StepSafeExactlyWhen` and
  `TeardownSafeExactlyWhen` say when an owner is missing, and `RevivalDangles` is a run in which
  it happens. The other ownership theorems are about exactly the runs without such a send.
- A send from another thread has no effect on a connected connection (`TcpConnetion.cpp:70-76`);
  on any other it is queued as a length and a pointer (`TcpConnetion.cpp:79`), and the bytes sent
  are whatever the pointer leads to when the task runs.

## Model

| member | source | states |
|---|---|---|
| Buffers.MakeSpaceSpec | mylib/mylib/Buffer.h:83-102 | making space keeps the readable bytes in order and leaves the requested room; the resize always grows; the overlapping copy happens only with the reader index past the prepend area, so it moves strictly left |
| Buffers.AppendSpec | mylib/mylib/Buffer.h:64-69 | appending puts the bytes behind the readable ones, whether it compacts, grows or does neither |
| Buffers.RetrieveSpec | mylib/mylib/Buffer.h:28-43 | retrieving drops a prefix of the readable bytes, or all of them if fewer are left |
| Buffers.ReadFdSpec | mylib/mylib/Buffer.cpp:15-59 | for every answer of readv the readable bytes grow by exactly the delivered ones, in order across both segments; the overflow branch needs two segments, and then at most 131071 bytes arrive |
| Buffers.EveryRunIsGood | mylib/mylib/Buffer.h:28-102 | over every sequence of appends, retrieves and reads: indices in order, bytes out followed by bytes readable are the bytes in, and the storage stays within the bound |
| Buffers.BufferTheorem | mylib/mylib/Buffer.h:15-69 | from construction on, FIFO order; the storage does not grow at all while at most the initial size is readable, and afterwards has at most max(8 + peak, 2·peak + 6) bytes |
| Buffers.SizeBoundIsReached | mylib/mylib/Buffer.h:89-92 | that bound is exact: for every initial size and every peak some run reaches it |
| Buffers.CopyForward | mylib/mylib/Buffer.h:96-98 | the forward copy over overlapping storage leaves the old source bytes at the destination and everything outside untouched |
| Buffers.Buffer.constructor | mylib/mylib/Buffer.h:15-20 | a new buffer is empty, with the prepend area and the initial room zeroed |
| Buffers.Buffer.Drop | mylib/mylib/Buffer.h:28-43 | the object's retrieve is the function whose runs are proved FIFO |
| Buffers.Buffer.RetrieveAsString | mylib/mylib/Buffer.h:47-52 | the string is the front of the readable bytes, which are then gone |
| Buffers.Buffer.RetrieveAllAsString | mylib/mylib/Buffer.h:46 | the string is all readable bytes and the indices return to the prepend area |
| Buffers.Buffer.MakeRoom | mylib/mylib/Buffer.h:83-102 | the object's makeSpace, in place or on new storage, is the function |
| Buffers.Buffer.AppendBytes | mylib/mylib/Buffer.h:64-69 | the readable bytes afterwards are the old ones followed by the new |
| Buffers.Buffer.Read | mylib/mylib/Buffer.cpp:15-59 | the readable bytes afterwards are the old ones followed by what readv delivered; the result is the count, or -1 |
| Channels.DisableAllKeepsEvents | mylib/mylib/Channel.h:73 | disbaleAll leaves the channel's interest as it was |
| Channels.UpdateAgrees | mylib/mylib/EpollPoller.cpp:90-114 | after any change of interest, channel, poller map and kernel set agree again, the kernel refused nothing and no other channel was touched; the kernel has the new mask, unless it is empty and the channel was there before: then it is out |
| Channels.RemoveAgrees | mylib/mylib/EpollPoller.cpp:117-130 | after removal they agree, the channel is in neither map nor kernel, and no other channel was touched |
| Channels.StepAgrees | mylib/mylib/Channel.h:67-73 | every call on a channel, and opening and closing one, keeps the agreement |
| Channels.RegistrationTheorem | mylib/mylib/EpollPoller.cpp:67-130 | after any sequence of calls on channels with distinct descriptors: added exactly when the kernel maps the descriptor to this channel with its mask; deleted only with an empty mask and out of the kernel; known to the poller exactly when not new; no epoll_ctl ever refused |
| Channels.InterestTheorem | mylib/mylib/Channel.h:67-73 | in every run the kernel watches a registered channel for exactly what was last asked for: EPOLLIN and EPOLLPRI if reading was last enabled, EPOLLOUT if writing was, until the channel is removed |
| Channels.EpollPoller.Update | mylib/mylib/EpollPoller.cpp:90-114 | the poller's updateChannel is the function on the three copies |
| Channels.EpollPoller.Erase | mylib/mylib/EpollPoller.cpp:117-130 | the poller's removeChannel is the function on the three copies |
| Channels.EpollPoller.Has | mylib/mylib/Poller.cpp:8-16 | hasChannel answers whether the channel's index is not new |
| Channels.EpollPoller.Poll | mylib/mylib/EpollPoller.cpp:32-65 | the active list is the report, in order, each channel registered and carrying its events; the event list doubles exactly when it came back full |
| Channels.EpollPoller.FillActiveChannels | mylib/mylib/EpollPoller.cpp:135-145 | every reported channel is listed in order with the events reported for it |
| Channels.Channel.constructor | mylib/mylib/Channel.cpp:13-16 | a new channel is unregistered and changes nothing in the poller's map or the kernel |
| Channels.Channel.Change | mylib/mylib/Channel.h:67-73 | setting a mask and updating is the function on the three copies and keeps them agreed |
| Channels.Channel.StartReading | mylib/mylib/Channel.h:67 | EPOLLIN and EPOLLPRI on, EPOLLOUT as before, and the kernel has the channel with that mask |
| Channels.Channel.StartWriting | mylib/mylib/Channel.h:70 | EPOLLOUT on, EPOLLIN and EPOLLPRI as before, and the kernel has the channel with that mask |
| Channels.Channel.StopWriting | mylib/mylib/Channel.h:71 | EPOLLOUT off, EPOLLIN and EPOLLPRI as before; the kernel keeps the channel if any interest is left |
| Channels.Channel.DisbaleAll | mylib/mylib/Channel.h:73 | interest unchanged, in the channel and in the kernel |
| Channels.Channel.Detach | mylib/mylib/Channel.cpp:30-32 | the descriptor is in neither map nor kernel, and every other descriptor's entry is as it was |
| Connections.SendOutcome | mylib/mylib/TcpConnetion.cpp:84-146 | sendInLoop has two outcomes: with nothing pending and a successful write the message is split between wire and buffer; otherwise nothing of it is kept; write interest mirrors the buffer afterwards |
| Connections.SendQueues | mylib/mylib/TcpConnetion.cpp:102-139 | at most one callback is queued by a send: write-complete for a message taken whole, or high-water for a rest that reaches the mark |
| Connections.WriteOutcome | mylib/mylib/TcpConnetion.cpp:207-231 | a drain step moves a prefix of the buffer to the wire; the last byte ends the write interest, owes one write-complete and completes a pending half-close |
| Connections.SendKeepsInv | mylib/mylib/TcpConnetion.cpp:84-146 | every send keeps stream, interest, half-close and callback invariants, for every answer of write |
| Connections.WriteKeepsInv | mylib/mylib/TcpConnetion.cpp:207-241 | so does every writable event |
| Connections.StepKeepsInv | mylib/mylib/TcpConnetion.cpp:68-253 | so does every event of a connection |
| Connections.ConnectionTheorem | mylib/mylib/TcpConnetion.cpp:84-241 | in every run: wire followed by buffer is the concatenation of the accepted messages, an in-order subsequence of those sent; buffered bytes are a suffix of the last accepted message; write interest exactly when bytes are buffered; a disconnecting connection whose shutdown ran is half-closed or is still draining; one write-complete per accepted message except the one pending; high-water notices exactly at upward crossings of the mark |
| Connections.HalfCloseIsFinal | mylib/mylib/TcpConnetion.cpp:148-165 | once half-closed, all accepted bytes are on the wire and the wire never changes again |
| Connections.LifeForwardExactlyWhen | mylib/mylib/TcpConnetion.cpp:148-185 | with the calls in any order, the state of a connection only moves forward if and only if no connectEstablished comes after a shutdown or close |
| Connections.LifeAfter | mylib/mylib/TcpConnetion.cpp:148-185 | in every continuation: connected after connectEstablished until shut down, closed or destroyed; disconnecting after a shutdown that found it connected; disconnected after handleClose, and after a connectDestroyed that found it connected, until established again; otherwise shutdown and connectDestroyed leave the state alone |
| Connections.ShutdownOutcome | mylib/mylib/TcpConnetion.cpp:148-165 | shutdown of a connected connection makes it disconnecting and half-closes it at once in the loop thread with nothing pending, or owes one shutdownInLoop from another thread; on any other connection it does nothing |
| Connections.ShutdownTakesEffect | mylib/mylib/TcpConnetion.cpp:148-165 | after a shutdown of a connected connection, in every continuation without a close, the connection is half-closed once the queued calls have run and the output is drained |
| Connections.HalfCloseNeedsShutdown | mylib/mylib/TcpConnetion.cpp:159-165 | a run without a shutdown call never half-closes |
| Connections.CallsAccountedFor | mylib/mylib/TcpConnetion.cpp:68-81 | what reaches sendInLoop is, in order, what the loop thread sent and what queued calls found; every send and shutdown another thread queued is called once, in order, or still queued; its send on a connected connection reaches nothing |
| Connections.KeptExactlyWhen | mylib/mylib/TcpConnetion.cpp:86-108 | a non-empty message takes its place in the stream if and only if nothing was pending and the write succeeded |
| Connections.SecondMessageIsLost | mylib/mylib/TcpConnetion.cpp:87-96 | a run in which a message sent while a byte is pending disappears |
| Connections.NoNoticeWhileAbove | mylib/mylib/TcpConnetion.cpp:134-139 | along any run that stays at or above the mark no high-water notice is queued |
| TcpConnections.TcpConnection.constructor | mylib/mylib/TcpConnetion.cpp:29-59 | a new connection is connecting, unregistered, with empty buffers, nothing queued and nobody called |
| TcpConnections.TcpConnection.TryWrite | mylib/mylib/TcpConnetion.cpp:86-121 | the direct write of the object is the first half of the sendInLoop function |
| TcpConnections.TcpConnection.Enqueue | mylib/mylib/TcpConnetion.cpp:140-144 | the rest is behind the buffered bytes and write interest is registered |
| TcpConnections.TcpConnection.SendInLoop | mylib/mylib/TcpConnetion.cpp:84-146 | the object's sendInLoop is the function, and keeps buffers and registration valid |
| TcpConnections.TcpConnection.Send | mylib/mylib/TcpConnetion.cpp:68-81 | in the loop thread a send is sendInLoop in every state; from another thread it is nothing on a connected connection, and on any other its length is queued |
| TcpConnections.TcpConnection.RunSendTask | mylib/mylib/TcpConnetion.cpp:79 | the queued call is sendInLoop on characters of the queued length, whatever they are by then |
| TcpConnections.TcpConnection.ShutdownInLoop | mylib/mylib/TcpConnetion.cpp:159-165 | half-closes exactly when no write interest is set |
| TcpConnections.TcpConnection.Shutdown | mylib/mylib/TcpConnetion.cpp:148-157 | on a connected connection: disconnecting, and half-closed at once unless write interest is set, or one more shutdownInLoop queued; on any other nothing changes |
| TcpConnections.TcpConnection.HandleWrite | mylib/mylib/TcpConnetion.cpp:207-241 | the object's handleWrite is the function |
| TcpConnections.TcpConnection.ConnectEstablished | mylib/mylib/TcpConnetion.cpp:167-174 | connected, registered with the kernel for EPOLLIN and EPOLLPRI, and the connection callback called |
| TcpConnections.TcpConnection.HandleClose | mylib/mylib/TcpConnetion.cpp:243-253 | disconnected, with every interest still in place in the kernel, and the connection callback and then the close callback called |
| TcpConnections.TcpConnection.ConnectDestroyed | mylib/mylib/TcpConnetion.cpp:176-185 | the descriptor is out of the poller's map and the kernel; a connection still connected is disconnected and the connection callback called |
| Echo.EchoTheorem | src/server_00.cpp:43-48 | after any run the bytes sent back or pending are the concatenation of an in-order subsequence of the chunks read; they are all of them if and only if no chunk came while output was pending and no write failed |
| Echo.EchoRunLength | mylib/mylib/TcpConnetion.cpp:187-194 | a run that was busy at some chunk has lost at least one byte |
| Echo.OnMessage | src/server_00.cpp:43-48 | the handler empties the input buffer and sends exactly what was in it |
| Echo.HandleRead | mylib/mylib/TcpConnetion.cpp:187-205 | a read is echoed, an end of file disconnects and calls the close callback, an error changes nothing; the input buffer is empty again each time |
| EventLoops.EveryRunKeepsInv | mylib/mylib/EventLoop.cpp:62-190 | queue order, wakeup and quit invariants hold after every interleaving |
| EventLoops.TasksRunOnceInOrder | mylib/mylib/EventLoop.cpp:125-190 | tasks started, then the rest of the batch, then the queue, are exactly the tasks pushed by the actions of the run, in order; a batch is exactly what was queued at its swap |
| EventLoops.SignalsExactlyWhen | mylib/mylib/EventLoop.cpp:93-156 | in every run the eventfd is readable if and only if it was written since it was last read, and quit is set if and only if quit() was called since loop() began |
| EventLoops.WakeupIsConsumed | mylib/mylib/EventLoop.cpp:140-147 | after the wakeup handler, in every continuation without a write, the eventfd is empty and no poll returns because of it |
| EventLoops.ReportsNeedWrites | mylib/mylib/EventLoop.cpp:73-147 | between two polls that report the eventfd some thread wrote it, so the loop does not spin |
| EventLoops.StopsExactlyWhen | mylib/mylib/EventLoop.cpp:62-91 | the loop has stopped only after a quit() made since it began, and at its test it stops if and only if there was one |
| EventLoops.StrandedExactlyWhen | mylib/mylib/EventLoop.cpp:125-156 | a waiting loop has a queued task and nothing to wake it if and only if in the run so far its own thread queued before loop(), no other thread called in, and no batch was taken |
| EventLoops.NoLostWakeup | mylib/mylib/EventLoop.cpp:73-87 | in a run with no such early push, whenever the loop waits or is about to with a task queued, the eventfd is readable or a thread is between its push and its write |
| EventLoops.FlagsMeanActions | mylib/mylib/EventLoop.cpp:125-135 | the three conditions are about the run itself: a push by the loop thread before loop(), a call by another thread, a swap |
| EventLoops.EarlyPushIsStranded | mylib/mylib/EventLoop.cpp:133-135 | a run in which that happens |
| EventLoops.QuitEndsPolling | mylib/mylib/EventLoop.cpp:73-101 | after a quit made once loop() has begun no further poll begins, in any continuation |
| EventLoops.QuitTakesEffectExactlyWhen | mylib/mylib/EventLoop.cpp:62-101 | a quit ends polling in every continuation if and only if it was made after loop() began |
| EventLoops.QuitUnblocksPoll | mylib/mylib/EventLoop.cpp:93-101 | the poll in progress cannot stay blocked: the eventfd is readable or the quitting thread has yet to write it |
| EventLoops.BatchIsBounded | mylib/mylib/EventLoop.cpp:175-190 | between a swap and the next poll the loop starts exactly the batch, however much its functors queue |
| EventLoops.QueueCallIsARun | mylib/mylib/EventLoop.cpp:125-156 | a whole queueInLoop, by another thread, a handler or a functor, is a run of the interleaving machine |
| EventLoops.QuitCallIsARun | mylib/mylib/EventLoop.cpp:93-101 | so is a whole quit(); made from another thread during a poll it leaves that poll able to return, and none follows in any continuation |
| EventLoops.DoPendingSpec | mylib/mylib/EventLoop.cpp:175-190 | after a batch the queue is what arrived while it ran, in order, from its functors and from other threads, and if there is any the eventfd is readable |
| EventLoops.BatchIsARun | mylib/mylib/EventLoop.cpp:175-190 | doPendingFunctors, with whatever is queued meanwhile, is a run of the interleaving machine that starts exactly the tasks queued on entry |
| EventLoops.EventLoop.constructor | mylib/mylib/EventLoop.cpp:32-52 | the loop starts as the machine does |
| EventLoops.EventLoop.QueueInLoop | mylib/mylib/EventLoop.cpp:125-136 | pushes, and wakes unless the loop thread queues outside a batch: the call that is shown to be a run |
| EventLoops.EventLoop.DoPendingFunctors | mylib/mylib/EventLoop.cpp:175-190 | runs exactly the tasks queued on entry, in order; what they and other threads queue meanwhile stays for the next round with a wakeup written |
| Names.DecimalInjective | mylib/mylib/TcpServer.cpp:74-76 | the decimal form of an id determines it |
| Names.SuffixFits | mylib/mylib/TcpServer.cpp:74-75 | for every id an int holds the name suffix fits the 64-byte buffer, so nothing is cut off |
| Names.NamesInjective | mylib/mylib/TcpServer.cpp:74-77 | different ids give different connection names |
| Names.NameReadsBack | mylib/mylib/TcpServer.cpp:74-77 | the name is the server name, "-", the address, "#" and decimal digits that denote the id |
| Pools.CursorIsModulo | mylib/mylib/EventLoopThreadPool.cpp:45-58 | call number n finds the cursor at n mod k, in range |
| Pools.RoundRobinIsFair | mylib/mylib/EventLoopThreadPool.cpp:45-58 | after n calls each sub-loop was chosen floor(n/k) times, plus one for those whose turn in the round has come |
| Pools.EventLoopThreadPool.constructor | mylib/mylib/EventLoopThreadPool.cpp:6-14 | no sub-loops, cursor at the start |
| Pools.EventLoopThreadPool.Start | mylib/mylib/EventLoopThreadPool.cpp:25-42 | the loops are those of the new threads, in creation order |
| Pools.EventLoopThreadPool.GetNextLoop | mylib/mylib/EventLoopThreadPool.cpp:45-58 | returns the base loop without sub-loops, otherwise the one whose turn it is |
| TcpServers.AcceptMatches | mylib/mylib/TcpServer.cpp:70-97 | the accept step of the ownership machine changes map, id and cursor, and places the connection, as the server object does |
| TcpServers.RemoveMatches | mylib/mylib/TcpServer.cpp:111-123 | both erasing steps of the machine, from the main loop's batch and from a handler on it, change the map as the server object does |
| TcpServers.TcpServer.constructor | mylib/mylib/TcpServer.cpp:17-36 | no connections, first id 1, not started |
| TcpServers.TcpServer.Start | mylib/mylib/TcpServer.cpp:58-65 | however often it is called, the pool is started once and the loop is asked once to listen |
| TcpServers.TcpServer.NewConnection | mylib/mylib/TcpServer.cpp:70-109 | the name is new, no entry is overwritten, the loop is the one whose turn it is and is handed connectEstablished, and map, id and cursor change as in the accept step |
| TcpServers.TcpServer.RemoveConnectionInLoop | mylib/mylib/TcpServer.cpp:118-127 | the connection leaves the map and no other does, however often it is called, and each time its loop is handed connectDestroyed |
| Ownership.AddedIsHeld | mylib/mylib/TcpServer.cpp:97-127 | a registered connection is held: it is in the server's map, or its connectDestroyed is still to come (queued on its own loop, about to be queued by the main thread, or owed by a removal queued on the main loop) |
| Ownership.ActiveIsHeld | mylib/mylib/Channel.cpp:39-48 | an active channel's connection is held, so the guard is always obtained |
| Ownership.NextNameIsFree | mylib/mylib/TcpServer.cpp:74-97 | inserting a new connection never overwrites another |
| Ownership.EstablishKeeps | mylib/mylib/TcpConnetion.cpp:167-174 | connectEstablished runs once, on a connecting connection, and takes over no one's descriptor |
| Ownership.DestroyKeeps | mylib/mylib/TcpConnetion.cpp:176-185 | connectDestroyed always finds the connection disconnected, and removes no other connection's entry even when it runs again |
| Ownership.CloseKeeps | mylib/mylib/TcpConnetion.cpp:243-253 | handleClose, on any loop and any number of times, keeps the invariant, disconnects the connection and leaves its removal under way |
| Ownership.FinishKeeps | mylib/mylib/TcpServer.cpp:118-127 | so does the hand-over from the erased map entry to the queued destruction, with other threads in between |
| Ownership.RemoveTaskKeeps | mylib/mylib/TcpServer.cpp:118-123 | a removal run from the main loop's batch, the first or a repeated one, keeps the invariant |
| Ownership.ReviveKeeps | mylib/mylib/TcpConnetion.cpp:84-146 | a send that puts a removed channel back keeps the invariant while a connectDestroyed is still due |
| Ownership.AcceptOnIoLoop | mylib/mylib/TcpServer.cpp:70-109 | accepting onto another thread's loop keeps the invariant |
| Ownership.AcceptOnMainLoop | mylib/mylib/TcpServer.cpp:70-109 | accepting onto the main loop, where the connection is established at once, does too |
| Ownership.GuardsNeverBlock | mylib/mylib/EventLoop.cpp:73-87 | no step of the machine is held up by anything but the position of its thread |
| Ownership.StepKeeps | mylib/mylib/EventLoop.cpp:73-190 | every step of every thread, except a send that puts a removed channel back with no connectDestroyed due, keeps the invariant, moves lives forward only, and makes no reference out of nothing |
| Teardown.SafeTeardown | mylib/mylib/TcpServer.cpp:97-127 | in every run without such a send, with any number of loops and closes: all that is registered or active has an owner, and a connection that is gone is in no poller map and no kernel set |
| Teardown.LifeOnlyForward | mylib/mylib/TcpConnetion.cpp:167-185 | from any point of any such run every connection's state only moves forward, and one that is gone stays gone |
| Teardown.RegistryConserved | mylib/mylib/TcpServer.cpp:97-123 | the map holds exactly the accepted connections not yet erased, under their own names; a connecting one is in it, not registered, and no destruction is due for it |
| Accounts.LivesExactly | mylib/mylib/TcpConnetion.cpp:148-253 | in every run without such a send the state of every connection is what the actions did to it: connecting until connectEstablished, then connected until shut down, disconnected from the first handleClose on |
| Accounts.CloseOutcome | mylib/mylib/TcpConnetion.cpp:243-253 | handleClose disconnects its connection and no other; on an io loop it queues the removal on the main loop, on the main loop it erases at once and owes connectDestroyed |
| Accounts.ClosedExactlyWhenRemoved | mylib/mylib/TcpServer.cpp:111-127 | at every point of every such run exactly the connections for which handleClose was called are erased or have a removal queued, and only for those is a destruction due |
| Accounts.ClosedIsGone | mylib/mylib/TcpServer.cpp:111-127 | whenever all loops are at rest, exactly the connections for which handleClose was never called are alive, and exactly those are registered |
| Accounts.FunctorsCalledInOrder | mylib/mylib/TcpServer.cpp:107-127 | in every run, on every loop, the functors called followed by those waiting are the ones queued by accepts, closes, removals and sends, in order |
| Accounts.ReportsAreHandled | mylib/mylib/Channel.cpp:39-48 | every channel a poll reports has its handler called, once and in order; none is skipped for want of its guard |
| Accounts.KeptPointersCount | mylib/mylib/Callbacks.h:10-16 | the pointers user code holds are those it copied and did not give up, and each keeps its connection alive |
| Teardown.PlacedRoundRobin | mylib/mylib/TcpServer.cpp:70-73 | in every run connection number c is served by io loop c mod k, or by the main loop without io loops |
| Teardown.StepSafeExactlyWhen | mylib/mylib/TcpConnetion.cpp:84-146 | a step leaves something without an owner if and only if it is a send that puts a removed channel back while no further connectDestroyed is due |
| Teardown.TeardownSafeExactlyWhen | mylib/mylib/TcpConnetion.cpp:84-146 | every state of a run has an owner for all that is registered or active if and only if the run has no such send |
| Harm.LetGo | mylib/mylib/EventLoop.cpp:73-190 | once a connection is removed and no connectDestroyed is due, the threads can go on until nothing refers to it |
| Harm.LockStep | mylib/mylib/EventLoop.cpp:73-190 | on that way a run with the channel put back does the same as one without, step by step |
| Harm.HarmExactlyWhen | mylib/mylib/TcpConnetion.cpp:84-146 | after a step some continuation leaves a poller with a connection that is gone if and only if the step is such a send |
| Harm.TeardownAliveExactlyWhen | mylib/mylib/TcpConnetion.cpp:84-185 | a run never comes to a point from which that can happen if and only if it has no such send |
| Teardown.RevivalDangles | mylib/mylib/TcpConnetion.cpp:90-146 | a run in which such a send leaves the poller with a pointer to a connection that is gone |

## Left out

- Raw pointers in functors queued by another thread's `send` or `shutdown` (`this`, the caller's characters): `Connections` queues the tasks and lets the characters be anything, but a pointer to memory that is gone is not modelled. The ownership machine takes `shutdown`, test and set together, as one step on a live connection.
- Errors of `epoll_ctl` and `epoll_wait` other than an illegal operation, and allocation failure.
- Order and choice of callbacks inside `handleEventWithGuard`: the machines allow them in any order.
- `Buffer::writeFd` as a method of its own: the bytes it offers the kernel are the readable ones, inside `HandleWrite`.
- Bodies of user callbacks other than the echo handler: they appear as arbitrary sends, shutdowns and kept pointers.
- Functors whose destructors queue further tasks, and calling `loop()` a second time on the same loop.
- `EventLoop::loop` as one method: its iterations are steps of the interleaving machine; the object's methods are its atomic parts and `doPendingFunctors`.
- `Socket`, `Acceptor`, `InetAddress`, logging, time stamps, thread start-up: thin wrappers and plumbing; accepting is a step that supplies a fresh descriptor.
- Destruction of the server, the acceptor and the loops, and tasks still queued when a loop has quit.
- More than 2^31 - 3 accepted connections, where the int id overflows.
