# Reactor hand-off protocol: model and proofs

The program is a multi-threaded TCP server built on event loops. One thread accepts connections and
hands each to the next loop of a pool, round-robin; a loop's own thread then installs, serves and closes
its connections. All hand-overs go through a loop's task queue, which is filled under a mutex, woken
through an eventfd, and swapped out and run unlocked.

The project has four parts.

**Event loop** (`EventLoopModel`, `EventLoopInvariant`, `EventLoopTheorems`, `EventLoopProgress`,
`EventLoopEffects`, `Eventloop`). The protocol as atomic steps of the loop's thread and of any number of others: taking the
mutex, `push_back`, releasing, the wakeup test, the eventfd write, each stage of `loop` and
`doPendingFunctors`, `quit` and its wakeup. The counter is the eventfd's: a read zeroes it, a
non-blocking write at the maximum is ignored. `Next` gives each step; the class `Eventloop` performs the
same steps on its fields, and `Drive` runs any interleaving of them. The theorems are about every
reachable state, every run and every scheduler; those of `EventLoopEffects` count what calls and polls do
from the actions of a run.

**Server** (`ServerModel`, `ServerInvariant`, `ServerSteps`, `ServerTheorems`, `ServerEffects`,
`ServerWitness`, `TcpServer`). Accepting, handing over, installing, dispatching and closing, with the operating system's
table of open descriptor numbers. A number is free for another accept as soon as the last shared pointer
to its connection goes, on whichever thread. A loop's queue is the FIFO that
`EventLoopTheorems.RunRefinesFifo` shows the vector, the swap and the batch to be. Loops are named by their
position among those `getNextLoop` can return.

**Latch** (`CountLatch`): lock, test, sleep, wake, reacquire, with spurious wakeups.

**Channel and pool** (`Channel`, `ThreadPool`, `Modulo`): the interest mask, which callbacks an event
runs, the round-robin cursor. `Options` and `Sequences` hold what all parts share.

Environment assumptions: sequentially consistent memory; level-triggered poll; the thread that built a
loop is the one that calls `loop()`; accept returns a number that is not open; the poller reports
registered channels, each at most once, and must not be asked to remove a number it does not know;
`activationChannel` ties and registers a connection's channel, and nothing else registers one;
`handleClose` passes the bound `removeConnection` to `runInLoop` of the connection's loop, and its
connection is alive when it is called. Callbacks end; everything else they do, in a functor, a timer, an
event's callback or the callback for a new connection, is any mixture of calls of the model.

## What turned out false, and exactly when it holds

- **Wakeup.** "A queued functor is always picked up" is false for functors the loop thread itself queues
  from its timer phase or outside `loop()`: nobody writes the eventfd for them and no swap follows before
  the next poll (`UncoveredStrands` shows it for every such state, `StrandedIsReachable` reaches it both
  ways). `StrandedOnlyByUncovered` shows nothing else can strand the loop, and `EveryCoveredFunctorRuns`
  that every other functor runs, unless somebody sets `_quit` first.
- **Quit.** A functor that was handed over and woken for is abandoned when `_quit` is set at the wrong
  moment (`QuitAbandons`, `AbandonedIsReachable`). `RunsUnlessAbandoned` is the exact condition, for every
  functor: of what was pushed before `_quit` was set, exactly what had run, what was in the batch and, if
  the loop was then in poll or between poll and the swap, everything else still runs.
- **Close.** The source closes by descriptor number, which may have been reused. `CrashIff` shows that
  the poller is asked for a channel it does not have if and only if a removal starts for a connection
  that is not in its loop's table, which means that it was removed before, or that it is the one whose
  new-connection callback is running and which is registered only afterwards. Every other removal
  unregisters exactly the connection it was asked for. It never hits a later connection with the same
  number: the requester's pointer keeps the number open until the request is queued, and the queue is
  FIFO. `SecondCloseIsReachable` and `EarlyCloseIsReachable` are runs of the two kinds.
- **Dispatch.** `ActivityChannel` holds plain pointers. `DispatchIsSafe` shows that none dangles as long
  as no callback on the loop closes a connection that still waits there; a handler that closes its own
  does not (`OwnCloseStrikesNot`). `DanglesIff` is the exact condition at each turn: the waiting
  connection was removed and no other pointer to it is left. `StrikeDangles` shows it for every state
  with such a connection, `StrikeIsReachable` reaches one.
- **Latch.** With exactly as many `CountDown` calls as the initial count everyone returns; a waiter that
  gets the lock after the last `CountDown` returns if and only if the two numbers agree
  (`LateWaiterIff`); an extra call can strand a woken waiter (`ExtraCountStrandsWaiter`).
- **Events.** A reported event is answered by some callback if and only if it has input, output or
  hang-up; urgent data alone, which the read interest asks for, is not (`AnsweredIff`).

## Model

| member | source | states |
|---|---|---|
| EventLoopInvariant.NextInv | net/Eventloop.cpp:26-141 | every step of any thread keeps mutual exclusion, the flag's extent, exactly-once FIFO, wakeup, quit and program-order invariants |
| EventLoopTheorems.NoLostWakeup | net/Eventloop.cpp:131-141 | with a covered functor queued and the loop at or before poll, the counter is positive or the very thread that pushed that functor is between its push and its write |
| EventLoopTheorems.StrandedOnlyByUncovered | net/Eventloop.cpp:137-140 | a loop that blocks with work queued and no wakeup on its way has only timer-phase or outside-loop enqueues of its own queued |
| EventLoopTheorems.UncoveredStrands | net/Eventloop.cpp:40-41 | every such enqueue, left alone, does reach poll with the functor queued, a zero counter and nobody to wake |
| EventLoopTheorems.StrandedIsReachable | net/Eventloop.cpp:26-43 | both kinds of stranding are reachable from a fresh loop |
| EventLoopProgress.BlockedIff | net/Eventloop.cpp:61-78 | without a poll timeout, new calls or I/O, some run of the calls under way gets the loop out of poll if and only if the counter is positive or some thread is inside a call |
| EventLoopTheorems.ExactlyOnceInOrder | net/Eventloop.cpp:103-118 | executed ++ rest of batch ++ vector is the push history, and runInLoop runs nothing at once off the loop thread |
| EventLoopTheorems.ProgramOrder | net/Eventloop.cpp:150-160 | a thread's queueInLoop and runInLoop hand-overs execute as a prefix of its program order, and all of it once nothing is outstanding |
| EventLoopEffects.CallsArePushed | net/Eventloop.cpp:131-160 | over any run, the functors of a thread's queueInLoop calls and of its runInLoop calls off the loop thread, counted from the run's actions, are in that order exactly what is pushed for it |
| EventLoopEffects.EveryRunIsAsked | net/Eventloop.cpp:150-160 | each runInLoop on the loop thread runs its functor once and at once, and apart from these exactly what batches take runs |
| EventLoopTheorems.RefinesFifo | net/Eventloop.cpp:103-141 | every step leaves the abstract queue, appends the caller's functor, or takes the head and runs it on the loop thread |
| EventLoopTheorems.RunRefinesFifo | net/Eventloop.cpp:103-141 | over any run the puts and takes replay on a plain FIFO queue, each take finding its functor at the head, and end in what is outstanding |
| EventLoopTheorems.BoundedBatch | net/Eventloop.cpp:106-117 | whatever is enqueued meanwhile, a batch runs exactly what was there at the swap in a number of loop steps fixed at the swap; new functors stay in order |
| EventLoopTheorems.OwnBatchEnqueueWakes | net/Eventloop.cpp:137-140 | over the whole call, whatever other threads do meanwhile, a functor's own enqueue ends with the functor queued and the eventfd readable |
| EventLoopEffects.WritesExactlyWhenDue | net/Eventloop.cpp:87-141 | over any run a thread writes the eventfd once for each of its calls that has to, off the loop thread every queueing or quit, on it a queueInLoop from within a batch, and for no other |
| EventLoopEffects.CounterCountsWrites | net/Eventloop.cpp:70-78 | between turns of the wakeup channel the counter is the number of writes, up to its maximum |
| EventLoopEffects.DrainedUntilWritten | net/Eventloop.cpp:61-69 | after its turn the eventfd is unreadable until the next write |
| EventLoopEffects.WokenByWrites | net/Eventloop.cpp:61-78 | over any run the polls that the eventfd ends are at most the writes to it |
| EventLoopEffects.EveryReadyChannelIsHandled | net/Eventloop.cpp:36-39 | whatever is called meanwhile, the handlers entered are the I/O channels poll reported, in order, each once, and all of them before the functors |
| EventLoopEffects.PollReportsAnything | net/Eventloop.cpp:30-31 | the model's poll may report any I/O events in any order, the wakeup channel exactly if the counter is positive, and nothing exactly if it times out |
| EventLoopEffects.AnyoneMayCall | net/Eventloop.cpp:131-160 | any thread outside a call may start one in any state, the loop thread from any user code |
| EventLoopTheorems.NoSelfDeadlock | net/Eventloop.cpp:108-116 | in every reachable state whoever holds the mutex is at most two enabled steps of its own from its release, and nobody holds it while writing the eventfd, waiting for it or free to start a call |
| EventLoopTheorems.HolderUndisturbed | net/Eventloop.cpp:108-141 | any other thread's step leaves the holder the mutex and its next step enabled |
| EventLoopTheorems.QuitNotLost | net/Eventloop.cpp:87-94 | with _quit set, a loop in poll was woken or a quitter is about to write |
| EventLoopTheorems.QuitBounded | net/Eventloop.cpp:28-31 | after _quit is set, any run polls at most once more, and only if the loop was at poll |
| EventLoopTheorems.QuitOnLoopThread | net/Eventloop.cpp:87-94 | quit on the loop thread is followed by no poll in any run |
| EventLoopTheorems.RunsUnlessAbandoned | net/Eventloop.cpp:28-42 | in any run from a set _quit to the end of loop(), a functor pushed before has run if and only if it had run or was in the batch or a swap was still due |
| EventLoopTheorems.QuitAbandons | net/Eventloop.cpp:28-28 | from every state at the _quit test, a thread that hands over, wakes and then quits leaves its functor unrun |
| EventLoopTheorems.AbandonedIsReachable | net/Eventloop.cpp:87-94 | that happens from a fresh loop, with everybody idle at the end |
| EventLoopProgress.FunctorNearer | net/Eventloop.cpp:26-43 | every internal step lowers a well-founded measure of the distance to an unrun functor |
| EventLoopProgress.FunctorNotStuck | net/Eventloop.cpp:103-141 | while a covered functor has not run and _quit is unset, some internal step is enabled |
| EventLoopProgress.EveryCoveredFunctorRuns | net/Eventloop.cpp:26-43 | from any state of the protocol with _quit unset and loop() not over, any scheduler that starts no new call runs, in finitely many steps, a covered functor and everything pushed before it |
| EventLoopProgress.HandOverRuns | net/TCPserver.cpp:73-83 | so does the functor of a connection's hand-over, from another thread or from the loop's own accepting handler, once pushed |
| EventLoopProgress.QuitEndsLoop | net/Eventloop.cpp:28-42 | once _quit is set, any scheduler brings loop() to its return |
| EventLoopProgress.QuitDecides | net/Eventloop.cpp:28-42 | any scheduler then runs a pushed functor if and only if it was still to be taken when _quit was set |
| EventLoopObject.Eventloop.constructor | net/Eventloop.cpp:7-17 | a new loop is the protocol's initial state |
| EventLoopObject.Eventloop.Wakeup | net/Eventloop.cpp:70-78 | the counter goes up by one, or stays at its maximum; it is positive afterwards |
| EventLoopObject.Eventloop.HandleRead | net/Eventloop.cpp:61-69 | the counter is zero afterwards |
| EventLoopObject.Eventloop.CallStep | net/Eventloop.cpp:131-141 | lock, push, release, test and write follow the protocol and keep its invariant |
| EventLoopObject.Eventloop.LoopAdvance | net/Eventloop.cpp:26-43 | so does each stage of loop(); what the walk over ActivityChannel does is EveryReadyChannelIsHandled and DrainedUntilWritten |
| EventLoopObject.Eventloop.DoPendingFunctorsAdvance | net/Eventloop.cpp:103-118 | so do lock, swap, release, each functor and the end of the batch |
| EventLoopObject.Eventloop.Drive | net/Eventloop.cpp:26-160 | any interleaving of calls and stages takes the object where the protocol's run goes and keeps its invariant |
| ServerSteps.NextInv | net/TCPserver.cpp:44-83 | every step of any thread keeps the ownership, registration, table, queue and log invariants |
| ServerTheorems.OneOwner | net/TCPserver.cpp:44-83 | a number is open for a connection exactly while the connection has an owner, and the owner is unique |
| ServerTheorems.OpenIsAccepted | net/Channel.cpp:15-19 | every open number belongs to the connection accepted with it, which has an owner |
| ServerEffects.CopyKeepsAlive | net/Channel.cpp:15-17 | after a copy, and as long as there are no more drops than further copies, the connection is alive whatever happens to it, its number is open as its own and no accept can return it |
| ServerEffects.PointersCount | net/Channel.cpp:15-17 | over any run the pointers kept elsewhere are those copied and not dropped |
| ServerTheorems.TablesAreTheirLogs | net/TCPserver.cpp:44-49 | each shard is the fold of its installs and removals, and each removal took the connection whose close was asked for |
| ServerTheorems.InsertFindsAbsent | net/TCPserver.cpp:69-71 | insert always finds the number absent and the connection is in the table afterwards |
| ServerTheorems.ShardsFixed | net/TCPserver.cpp:108-123 | in every run the shards are exactly the ones created at start; operator[] never adds one |
| ServerTheorems.ShardsAreThreadLocal | net/TCPserver.cpp:44-72 | a loop's table and poller are changed by its own thread only; others only append to its queue |
| ServerTheorems.RegistrationFollowsOwnership | net/TCPserver.cpp:46-70 | except inside activation and removal the poller's channels are the table, in user code too; whatever is registered is open and is that connection |
| ServerTheorems.HandlerLifetime | net/Channel.cpp:49-78 | during handleEvent the connection is alive and its number open, even after removal |
| ServerTheorems.DispatchIsSafe | net/Eventloop.cpp:36-39 | in every run in which no callback closes a connection still waiting in its loop's ActivityChannel, everything waiting there is alive and mapped and no dispatch hits a dead channel |
| ServerEffects.EveryReadyConnectionIsHandled | net/Eventloop.cpp:36-39 | until its next poll a loop begins exactly the handlers of the connections reported, in order, and all of them before it takes a task |
| ServerTheorems.OwnCloseStrikesNot | net/TCPserver.cpp:44-49 | a handler's close of its own connection is never of a waiting one |
| ServerTheorems.DanglesIff | net/Eventloop.cpp:36-39 | a dispatch hits a dead channel if and only if its connection was removed since the poll and no other pointer to it is left |
| ServerTheorems.StrikeDangles | net/Eventloop.cpp:36-39 | from every handler with a waiting connection that only the table keeps, closing that one makes the next dispatch hit a dead channel |
| ServerTheorems.InstalledInAcceptOrder | net/TCPserver.cpp:73-83 | loop l has installed a prefix of connections l, l+n, l+2n, ... in that order, and all handed over once its queue has no install left |
| ServerTheorems.InstalledOnlyAtHome | net/EventLoopThreadpool.cpp:32-48 | an installed connection's accept number modulo the number of loops is the loop that installed it |
| ServerEffects.TasksConserved | net/Eventloop.cpp:103-141 | over any run what a loop takes and still has queued is what it had and what was queued on it, in order |
| ServerEffects.CloseTask | net/Eventloop.cpp:150-160 | a close asked for off the connection's loop goes to the end of that loop's queue and no other, on it none is queued |
| ServerEffects.EveryConnectionIsInstalled | net/TCPserver.cpp:60-83 | from any reachable state a loop rests after boundedly many steps of its own, and resting it has installed every connection handed to it, in accept order |
| ServerEffects.AnyHolderMayCopyAndClose | net/TCPserver.cpp:44-68 | whoever has a pointer to a connection may copy it and close the connection, from any thread and any user code |
| ServerEffects.AnyNumberMayBeAccepted | net/TCPserver.cpp:73-83 | accept may return exactly the numbers that are not open, reused ones included, and what is accepted can be handed over |
| ServerTheorems.CrashIff | net/TCPserver.cpp:44-49 | a removal asks the poller for a channel it does not have if and only if its connection is not in the table, that is, was removed before or is in its own new-connection callback; otherwise it unregisters exactly its own connection |
| ServerTheorems.OthersAreSafe | net/TCPserver.cpp:44-83 | no step but the start of a removal and a dispatch can use a channel that is not there |
| ServerWitness.SecondCloseIsReachable | net/TCPserver.cpp:44-49 | a second close of a connection, queued by another thread before the handler closed it, is reachable and finds no channel |
| ServerWitness.EarlyCloseIsReachable | net/TCPserver.cpp:67-69 | so is a first close from the new-connection callback, before activation |
| ServerWitness.StrikeIsReachable | net/Eventloop.cpp:36-39 | so is a handler about to close the next waiting connection, and the dead dispatch that follows |
| ServerSteps.QueuedCloseIsOwn | net/TCPserver.cpp:44-49 | a queued close by number finds its own connection or none, never a later one with the number |
| ServerSteps.RegisteredIffMapped | net/TCPserver.cpp:46-49 | a live connection's number is registered exactly while it is in the table, and then as itself |
| ServerSteps.ActiveIsHeld | net/Eventloop.cpp:36-39 | a pointer in ActivityChannel is of a connection of this loop that was mapped, and is alive unless that one was erased and released since |
| ServerInvariant.ReleasedInv | net/Channel.cpp:15-19 | dropping a pointer, with the close it may cause, restores every invariant |
| TcpServerObject.StartTables | net/TCPserver.cpp:109-123 | the keys created are exactly the loops getNextLoop can return, with empty tables |
| TcpServerObject.TcpServer.NewConnectionInLoop | net/TCPserver.cpp:73-83 | picks the next loop, queues the install there, advances the cursor |
| TcpServerObject.TcpServer.BeginNewConnection | net/TCPserver.cpp:60-68 | takes the task and constructs the connection under a local pointer; the user's callback may then make any call of the model, HandleClose included |
| TcpServerObject.TcpServer.InsertConnection | net/TCPserver.cpp:70-70 | inserts without overwriting |
| TcpServerObject.TcpServer.BeginHandleEvent | net/Channel.cpp:49-52 | locks the tie of the next active channel, which is dead exactly if its connection was destroyed meanwhile |
| TcpServerObject.TcpServer.HandleClose | net/Eventloop.cpp:150-160 | from any user code on the connection's loop it removes at once, elsewhere it queues the removal |
| TcpServerObject.TcpServer.FinishRemoveConnection | net/TCPserver.cpp:49-49 | erases by number in the loop's own shard and drops that pointer |
| TcpServerObject.TcpServer.ReleasePointer | net/Channel.cpp:15-17 | the connection is destroyed and its number closed if and only if no pointer is left; no other connection or number changes, and the invariant, broken for this connection alone, holds again |
| TcpServerObject.TcpServer.Drive | net/TCPserver.cpp:44-83 | any interleaving of the threads' steps takes the object where the model's run goes and keeps its invariant |
| ThreadPool.RoundRobinFair | net/EventLoopThreadpool.cpp:36-46 | from any cursor, m consecutive calls pick each of n loops floor(m/n) times, plus one exactly when it lies in the remainder ahead |
| ThreadPool.PickIsModulo | net/EventLoopThreadpool.cpp:36-46 | the k-th pick is position k modulo n |
| ThreadPool.EventLoopThreadpool.Start | net/EventLoopThreadpool.cpp:14-31 | the pool holds the started loops in start order |
| ThreadPool.EventLoopThreadpool.GetNextLoop | net/EventLoopThreadpool.cpp:32-48 | returns loops[next] of the pool, or the base loop of an empty pool; the cursor stays in range |
| ThreadPool.EventLoopThreadpool.NextLoops | net/EventLoopThreadpool.cpp:32-48 | from any cursor the j-th call returns loops[(next + j) % n], the positions the fairness theorem counts |
| CountLatchModel.NoEarlyReturn | base/CountLatch.h:8-13 | no wait returns before the count-th decrement, for any number of calls, waiters and spurious wakeups |
| CountLatchModel.ReleasedForGood | base/CountLatch.h:14-20 | with as many calls as the count, once they are over nobody sleeps, then or in any run from there, so no spurious wakeup occurs either |
| CountLatchModel.LateWaiterIff | base/CountLatch.h:8-20 | a waiter that gets the lock after the last CountDown returns if and only if the calls were as many as the count, else it sleeps |
| CountLatchModel.WokenOnlyAtZero | base/CountLatch.h:14-20 | over any run a sleeper sleeps on, spurious wakeups apart, unless the latch is at zero at some moment; below zero nobody is woken again |
| CountLatchModel.EveryoneReturns | base/Condition.h:15-33 | with as many calls as the count, any run's steps are bounded by the work at its start plus three per spurious wakeup, and when no thread can step everyone has returned |
| CountLatchModel.SchedulerFinishes | base/CountLatch.h:8-20 | any scheduler of the threads' own steps gets there from any state of the monitor |
| CountLatchModel.ExtraCountStrandsWaiter | base/CountLatch.h:14-20 | an extra CountDown can send a woken waiter back to sleep for ever |
| CountLatchObject.CountLatch.WaitStep | base/CountLatch.h:8-13 | lock, test, sleep or leave, each as the monitor's step |
| CountLatchObject.CountLatch.CountDownStep | base/CountLatch.h:14-20 | lock, decrement, test and broadcast, each as the monitor's step |
| CountLatchObject.CountLatch.NotifyAll | base/Condition.h:30-33 | nobody sleeps afterwards, every sleeper can go on exactly when the mutex is free, no other thread changes, the count still adds up and the invariant holds |
| CountLatchObject.CountLatch.Drive | base/CountLatch.h:8-20 | any interleaving keeps the invariant and follows the monitor's run |
| ChannelObject.MaskRefinesFlags | net/Channel.cpp:20-44 | over any sequence of calls the mask is two independent flags, and isWriting and isNoneEvent read them |
| ChannelObject.MaskAsksForWhatIsWanted | net/Channel.cpp:6-48 | after any calls the poller is asked for input and urgent data exactly if reading was last asked for, for output exactly if writing was, and for nothing else |
| ChannelObject.ReadyReachesCallback | net/Channel.cpp:20-78 | from the calls to the callbacks: of what is ready, reading and writing run exactly if there is such an event and it was last asked for, closing exactly on a hang-up without reported input |
| ChannelObject.Channel.Apply | net/Channel.cpp:20-48 | after each call the mask has the bits of what was last asked for, and the poller is handed that mask |
| ChannelObject.Channel.IsWriting | net/Channel.h:27-27 | true exactly if the last wish for writing was to enable it |
| ChannelObject.Channel.IsNoneEvent | net/Channel.h:28-28 | true exactly if neither flag is wished |
| ChannelObject.Channel.HandleEvent | net/Channel.cpp:49-78 | a set callback runs if and only if its event is reported and the tie, if set, is alive; each at most once, reading before writing before closing, and never both reading and closing |
| ChannelObject.AnsweredIff | net/Channel.cpp:55-75 | an event is answered by a callback if and only if it has input, output or hang-up |
| ChannelObject.DispatchedOrder | net/Channel.cpp:55-75 | no event runs both the read and the close callback, none runs a callback twice, and reading comes first |

## Left out

- Sockets, bind/listen, socket options, signal setup: only "accept yields a number that is not open" is kept.
- The poller's own bookkeeping: Poller.cpp is not part of this model; its calls are the assumptions above.
- Timers: a phase in which user code may run; the timer heap and poll timeouts are only "poll may return with nothing ready".
- Connection reading and writing, buffers, HTTP parsing: Connection.cpp and httpServer.cpp are not part of this model; only their calls of handleClose and the pointers they hold are.
- A change of interest outside a connection's registration: a send from the new-connection callback that is cut short, which registers the channel early, or a write that completes after its connection was removed.
- The eventfd read and write errors other than a full counter, and a failing accept.
- Epoller, the other poller, which the loop does not use, and the ring-buffer queue that is commented out.
- The hand-shake by which a new thread reports its loop, thread creation and the pool's thread-init callback.
- The `assertInLoopThread` checks, which end the process on the wrong thread: the model has each step on its own thread.
- Event loop destruction, and weak-memory effects on the plain boolean flags.
- Logging, time stamps and file helpers.
- Sequences stand for the program's vectors: reallocation and iterator validity are not modelled.
- That loop() runs on the thread that built the loop: the source does not check it either; it is assumed, and with it that a batch runs on the loop thread.
