# caimr: a verified model

caimr is a reactor TCP library with one event loop per thread. This project models its hard parts in
Dafny and proves what they promise, for every input, every run and every interleaving:

- **Connection stream** (`ConnStream`, `ConnProofs`, `TcpConnection`): one connection's handlers as a
  machine over its state, interest bits, buffers and a history of everything it does; the socket's
  answers are parameters, so a run is any sequence of operations with any partial writes and errors.
  No byte is lost, duplicated or reordered; write interest follows the backlog; the write half is
  closed once and last; notifications are exact. The object `TcpConn` works in place on real buffers,
  a channel and a poller and is proved to do the machine's steps.
- **Byte buffer** (`BufferLayout`, `NetBuffer`): the growable buffer as a value and in place, proved to
  be a byte queue over every run, with a bound on its memory.
- **Poller** (`Poller`): channels, the poller's map and the kernel's interest table, and how they agree.
- **Event loop** (`EventLoop`): the functor queue and its eventfd wakeup as steps of many threads.
- **Worker pool** (`ThreadPool`, `ThreadPoolDrain`): mutex, condition variable and workers as steps, with spurious wakeups,
  stolen tasks and throwing tasks.
- **Connection lifecycle** (`Lifecycle`, `LifecycleProofs`, `LifecycleProgress`): establish, close, remove and
  destroy hopping between a base loop and any number of home loops, who owns a connection meanwhile, and that
  from every reachable state each can still be closed, torn down and freed.
- **Composition** (`Composition`): in every run of the whole server the calls that reach one connection are
  a legal run of that connection's own machine, so every result about connections holds server-wide.
- **Log rendering** (`DecimalText`, `LogStream`): integers rendered digit by digit, reversed in place,
  inside a bounded buffer.
- **Loop pool** (`LoopPool`): round-robin choice of a home loop.

`BufferLayout`, `ConnStream`, `Lifecycle`, `EventLoop` and `ThreadPool` each define a `Step`, a `Run` and
the legal runs; the lemmas quantify over all of them. Sources of nondeterminism (socket results, which
waiter a notification reaches, what `epoll_wait` reports, when the last reference goes) are arguments
of the steps.

Assumptions, each taken from the code:

- `send` and `shutdown` are called on the connection's loop thread. Off-thread `send` binds a raw data
  pointer (`src/net/tcp_conn.cpp:58`), and off-thread `shutdown` tests and stores the state in two steps.
- Connection identifiers do not wrap around, and each worker pool is started once.
- A descriptor is given out again only after its socket was closed, which the connection's destructor does.
- Entering `loop()` and clearing the quit flag are one step, `Start`; a quit between the two counts as early.
- Integer sizes: buffer lengths and the eventfd counter are unbounded; log integers are the 64-bit types.

Results that are negative, or hold only under a condition the code does not enforce:

- A functor that the loop thread itself queues before `loop()` is not announced. `EventLoop.NoLostWakeupIff`
  gives the exact condition on the queue at the moment `loop()` is entered; `EventLoop.EarlyLoopPushIsLost`
  is the failing run.
- A `quit()` that comes before `loop()` is forgotten (`EventLoop.EarlyQuitIsForgotten`).
  `EventLoop.QuitHonouredIff`: a quit from any thread is honoured along every run if and only if `loop()` has
  already cleared the flag (`src/net/eloop.cpp:65`), be it blocked in poll or not.
- A task added after the last worker has returned stays in the queue (`ThreadPoolDrain.LateTaskIsStranded`), and
  so does a task still queued when the last worker dies of an exception (`ThreadPoolDrain.ThrowStrandsTask`).
  `ThreadPoolDrain.DrainComplete` says that nothing else is ever left behind. `ThreadPoolDrain.AlwaysDrainsIff` is
  the exact condition on what callers hand in: a non-empty sequence of tasks is sure to be taken whole if and
  only if nothing is added after stop, the init callback does not throw, and fewer tasks than there are workers
  may throw, the last task not counted. A throwing init callback is too much for a pool of any size.
- A functor queued after the last swap of a loop that has been told to quit is never run.
  `EventLoop.QueuedRunIff`: queued functors can still be run if and only if the loop has not returned and is not
  quitting with its last batch taken.
- The poller's own map misses a channel that is updated after its removal, although the kernel table has
  it (`Poller.EpollPoller.ReRegister`). `Poller.EpollPoller.UpdateChan` keeps the keys of the two equal if and
  only if the updated channel is not a removed one; `LifecycleProofs.NoUpdateAfterRemoval` shows that no run
  of the server makes such an update.

## Model

| member | source | states |
|---|---|---|
| `BufferLayout.Fresh` | include/net/buffer.h:14-17 | a new buffer is empty, with the prepend area in front of the initial size |
| `BufferLayout.Retrieve` | include/net/buffer.h:25-36 | drops a prefix of the readable bytes, or all of them, and never moves data; taking everything gives the whole vector behind the prepend area back for writing |
| `BufferLayout.MakeSpace` | include/net/buffer.h:68-78 | compaction and growth both keep the readable bytes and free at least the room asked for, within twice the new demand; the vector grows exactly when even without gaps there is no room, and then to exactly the room asked for |
| `BufferLayout.EnsureWritable` | include/net/buffer.h:48-50 | keeps the readable bytes and provides the room |
| `BufferLayout.Append` | include/net/buffer.h:52-56 | the readable bytes grow by exactly the appended ones; the index order is kept; the size grows only within the bound |
| `BufferLayout.ReadFd` | src/net/buffer.cpp:9-31 | a scatter read over the tail and the overflow area appends exactly the bytes delivered |
| `BufferLayout.StepContentsAndSize` | include/net/buffer.h:25-78 | every operation acts on the readable bytes as on a byte queue and respects the size bound |
| `BufferLayout.RunRefinesQueue` | include/net/buffer.h:25-78 | over every run of appends, retrieves, reads and reservations the readable bytes are those of a plain byte queue |
| `BufferLayout.SizeBound` | include/net/buffer.h:68-78 | a bound that covers the present vector and twice the peak content plus the prepend area covers every later vector |
| `BufferLayout.MemoryBound` | include/net/buffer.h:48-78 | the vector never exceeds 8 + max(initial size, 2 x the largest readable length, reservations counted as filled) |
| `BufferLayout.PeakIsReached` | include/net/buffer.h:52-56 | without bare reservations the peak in the bound is a length the queue really reaches |
| `NetBuffer.CopyDown` | include/net/buffer.h:73-74 | the forward overlapping copy is sound because it goes strictly to the left |
| `NetBuffer.CopyIn` | include/net/buffer.h:54 | copies the bytes in and changes nothing else |
| `NetBuffer.Buffer.constructor` | include/net/buffer.h:14-17 | the in-place buffer starts as the fresh layout |
| `NetBuffer.Buffer.ReadableBytes` | include/net/buffer.h:19 | the number of queued bytes |
| `NetBuffer.Buffer.Retrieve` | include/net/buffer.h:25-36 | leaves exactly the layout of the value-level retrieve |
| `NetBuffer.Buffer.RetrieveAsString` | include/net/buffer.h:38-46 | returns the bytes from the read index on, which together with the rest are the former contents, and drops them |
| `NetBuffer.Buffer.MakeSpace` | include/net/buffer.h:68-78 | in-place compaction or reallocation leaves exactly the layout of the value-level operation |
| `NetBuffer.Buffer.EnsureWritableBytes` | include/net/buffer.h:48-50 | as above, only when the room is short |
| `NetBuffer.Buffer.Append` | include/net/buffer.h:52-56 | leaves exactly the layout of the value-level append |
| `NetBuffer.Buffer.ReadFd` | src/net/buffer.cpp:9-31 | leaves exactly the layout of the value-level scatter read |
| `Poller.Chan.constructor` | src/net/chan.cpp:7-14 | a new channel has no events, none reported, and is unknown to the poller |
| `Poller.EpollPoller.UpdateChan` | src/net/epoll_poller.cpp:50-62 | from agreement everywhere but in this channel's mask it restores full agreement: the kernel row becomes this channel's mask and pointer, and no other row changes; afterwards the map has the kernel's keys if and only if it had them before and the channel was not a removed one |
| `Poller.EpollPoller.Register` | src/net/epoll_poller.cpp:52-58 | the adding branch: the kernel gets the row, the map only if the channel is new |
| `Poller.EpollPoller.KeysBeforeUpdate` | src/net/epoll_poller.cpp:54-56 | when the keys of map and kernel table will agree after an update, judged before it |
| `Poller.EpollPoller.ReRegister` | src/net/epoll_poller.cpp:52-69 | the failing case: remove, then update, and the kernel has a descriptor that the map lacks |
| `Poller.EpollPoller.RemoveChan` | src/net/epoll_poller.cpp:64-69 | the descriptor leaves the kernel table and the map, nothing else changes, and agreement is kept, also for a channel that was not registered |
| `Poller.EpollPoller.SetMask` | include/net/chan.h:41-60 | storing a mask and updating keeps agreement and registers the channel with that mask; the same condition for equal keys |
| `Poller.EpollPoller.EnableReading` | include/net/chan.h:41-44 | read interest on, write interest as before, kernel row equal to the mask |
| `Poller.EpollPoller.DisableReading` | include/net/chan.h:45-48 | read interest off, write interest as before, kernel row equal to the mask |
| `Poller.EpollPoller.EnableWriting` | include/net/chan.h:49-52 | write interest on, read interest as before, kernel row equal to the mask |
| `Poller.EpollPoller.DisableWriting` | include/net/chan.h:53-56 | write interest off, read interest as before, kernel row equal to the mask |
| `Poller.EpollPoller.DisableAll` | include/net/chan.h:57-60 | the mask is empty and the descriptor stays registered |
| `Poller.EpollPoller.Admit` | src/net/chan.cpp:7-14 | a new channel on a free descriptor keeps agreement |
| `Poller.EpollPoller.Retire` | src/net/tcp_conn.cpp:48-51 | an unregistered channel can go, and its descriptor is then free to be used again |
| `Poller.EpollPoller.FillActive` | src/net/epoll_poller.cpp:40-48 | each report is stored in the registered channel whose descriptor it names, these channels are the active ones in order, and no other channel changes |
| `Poller.EpollPoller.MapEqualsKernel` | src/net/poller.cpp:8-11 | the poller's map is part of the kernel table, and all of it exactly when no removed channel is registered again |
| `ConnProofs.StreamConservation` | src/net/tcp_conn.cpp:65-112 | over every run the bytes the socket took, then the output buffer, are the in-order concatenation of all sends not dropped whole; input bytes are conserved too |
| `ConnProofs.AnswersHonoured` | src/net/tcp_conn.cpp:164-186 | each step sends exactly what the socket took: `n` bytes of a direct write or a drain are the first `n`, and the rest stays buffered; a waiting or refused send is buffered whole; a broken peer or a connection that is not connected changes nothing; no other operation touches the output |
| `ConnProofs.InputHonoured` | src/net/tcp_conn.cpp:148-162 | a read's bytes are received and buffered, a callback gets as many bytes as it asks for or all there are, and no other operation touches the input |
| `ConnProofs.WriteInterestMatchesBacklog` | src/net/tcp_conn.cpp:77-111 | while open the channel wants reads, and wants writes exactly when the output buffer is not empty; otherwise it wants neither |
| `ConnProofs.HalfCloseOrder` | src/net/tcp_conn.cpp:114-125 | the write half is closed at most once, with every accepted byte sent, and nothing is accepted or sent after it |
| `ConnProofs.HalfCloseWhenDrained` | src/net/tcp_conn.cpp:168-179 | never before shutdown; after shutdown the write half is closed if and only if the output buffer is empty |
| `ConnProofs.WriteCompleteExact` | src/net/tcp_conn.cpp:79-85 | at every write-complete notification everything accepted so far has reached the socket |
| `ConnProofs.WriteCompleteIffDrained` | src/net/tcp_conn.cpp:168-175 | a step notifies exactly when the socket's answer leaves the output empty |
| `ConnProofs.HighWaterExact` | src/net/tcp_conn.cpp:98-106 | a high-water notification carries the true backlog, at or above the mark, and between two of them the backlog was below the mark |
| `ConnProofs.HighWaterIffCrossed` | src/net/tcp_conn.cpp:98-106 | a step notifies exactly when the output grows from below the mark to the mark or above |
| `ConnProofs.StepKeepsInv` | src/net/tcp_conn.cpp:53-200 | every operation keeps conservation, interest, half-close order and a justified history, and accepts exactly the undropped data |
| `ConnProofs.RunKeepsInv` | src/net/tcp_conn.cpp:53-200 | the same for every legal run |
| `ConnProofs.SendStep` | src/net/tcp_conn.cpp:65-112 | a send keeps the invariant and accepts its data whole unless it drops them whole |
| `ConnProofs.HandleWriteStep` | src/net/tcp_conn.cpp:164-186 | a drain keeps the invariant and accepts nothing |
| `ConnProofs.JustifiedAt` | src/net/tcp_conn.cpp:65-186 | every point of a justified history is justified by what came before it |
| `ConnProofs.StateChanges` | src/net/tcp_conn.cpp:114-200 | the transition table of the connection state, and destruction unregisters |
| `ConnProofs.StateMovesForward` | src/net/tcp_conn.cpp:114-200 | no enabled operation moves the state back; disconnected is final |
| `TcpConnection.TcpConn.constructor` | src/net/tcp_conn.cpp:24-46 | a new connection is connecting, unregistered and empty, with vectors of 1032 bytes |
| `TcpConnection.TcpConn.EstablishConn` | src/net/tcp_conn.cpp:127-135 | does the machine's establishment on channel and poller |
| `TcpConnection.TcpConn.Send` | src/net/tcp_conn.cpp:53-62 | does the machine's send, for any socket answer |
| `TcpConnection.TcpConn.SendInLoop` | src/net/tcp_conn.cpp:65-112 | does the machine's in-loop send on the real buffer, channel and poller |
| `TcpConnection.TcpConn.DirectWrite` | src/net/tcp_conn.cpp:76-95 | the direct-write branch: full, partial, refused or broken |
| `TcpConnection.TcpConn.Enqueue` | src/net/tcp_conn.cpp:96-111 | the buffering branch: notification, append and write interest |
| `TcpConnection.TcpConn.WatchOutput` | src/net/tcp_conn.cpp:107-111 | write interest is on afterwards, and registers the channel if it was off |
| `TcpConnection.TcpConn.Shutdown` | src/net/tcp_conn.cpp:114-119 | does the machine's shutdown |
| `TcpConnection.TcpConn.ShutdownInLoop` | src/net/tcp_conn.cpp:121-125 | closes the write half unless write interest is on |
| `TcpConnection.TcpConn.HandleWrite` | src/net/tcp_conn.cpp:164-186 | does the machine's drain on the real buffer |
| `TcpConnection.TcpConn.FinishWriting` | src/net/tcp_conn.cpp:170-179 | the drained branch: interest off, notification, deferred half-close |
| `TcpConnection.TcpConn.HandleRead` | src/net/tcp_conn.cpp:148-162 | does the machine's read: data, end of stream or error |
| `TcpConnection.TcpConn.Consume` | src/net/tcp_conn.cpp:151-154 | the message callback takes a prefix of the input and leaves the rest |
| `TcpConnection.TcpConn.HandleClose` | src/net/tcp_conn.cpp:188-200 | does the machine's close; the channel stays registered with an empty mask |
| `TcpConnection.TcpConn.DestroyConn` | src/net/tcp_conn.cpp:137-146 | does the machine's destruction; the channel is unregistered |
| `TcpConnection.TcpConn.HandleEvent` | src/net/chan.cpp:27-65 | without the tie to a living connection nothing happens; with it, what the last poll reported is handled as a run of the machine; for a registered channel that run is legal, keeps it registered and keeps the invariant of runs |
| `TcpConnection.TcpConn.HandleEventWithGuard` | src/net/chan.cpp:39-65 | hang-up, read and write handlers in this order are the machine run of the dispatched operations |
| `TcpConnection.DispatchLegal` | src/net/chan.cpp:39-65 | whatever a registered channel reports, its handlers are called when their machine allows them and keep the invariant |
| `TcpConnection.DispatchEffects` | src/net/chan.cpp:39-65 | a report closes the connection exactly on a hang-up without input or at the end of the peer's stream, delivers what the read delivers exactly when input is reported, and lets bytes out only when the socket is reported writable |
| `TcpConnection.DispatchSteps` | src/net/chan.cpp:39-65 | the dispatched operations run as hang-up, then read, then write |
| `TcpConnection.TcpConn.Perform` | src/net/tcp_conn.cpp:53-200 | any operation does the machine's step on the object, keeps the invariant of runs, and lets a vector grow to at most 8 + twice its contents |
| `TcpConnection.TcpConn.Continue` | include/net/buffer.h:68-78 | over every run of the object it is where the machine's run leads, and both vectors stay within 8 + max(1024, 2 x the most bytes held so far) |
| `ConnProofs.PeakOneMore` | src/net/tcp_conn.cpp:96-111 | one more operation raises the largest backlog of a run to what the connection then holds, if that is more |
| `TcpConnection.StillFits` | include/net/buffer.h:68-78 | a vector that grows only for its present contents stays within the bound of the run |
| `TcpConnection.TcpConn.KernelWatchesBacklog` | src/net/epoll_poller.cpp:71-90 | while open and registered the kernel's own table asks for both kinds of input, and for write events exactly when bytes are buffered |
| `EventLoop.NoLostWakeupIff` | src/net/eloop.cpp:63-117 | along all runs from entering the loop no wakeup is lost, if and only if the queue is announced on entry |
| `EventLoop.NoLostWakeupFromStart` | src/net/eloop.cpp:82-117 | over the whole life of a loop whose own thread queues nothing early, a poll with work or quit pending is about to be woken |
| `EventLoop.EarlyLoopPushIsLost` | src/net/eloop.cpp:97-109 | the run in which the loop thread's early functor meets an unwoken poll |
| `EventLoop.CounterExact` | src/net/eloop.cpp:55-61 | on every run the eventfd holds exactly the wakeups written since its last read, so a loop left alone sleeps |
| `EventLoop.CounterRun` | src/net/eloop.cpp:55-61 | the same from any state |
| `EventLoop.WakeupsExact` | src/net/eloop.cpp:82-117 | every push or quit from elsewhere, and every push by a running functor, is answered by exactly one wakeup, written or about to be, and there are no others |
| `EventLoop.WakeupsStep` | src/net/eloop.cpp:82-117 | one step's share in this |
| `EventLoop.EarlyQuitIsForgotten` | src/net/eloop.cpp:63-66 | the run in which a quit before the loop leaves the loop polling |
| `EventLoop.QuitStopsPolling` | src/net/eloop.cpp:68-87 | once a started loop's flag is set it stays set, the next test of it ends the loop, and the loop can be in poll only if it has not left the poll it was in, whose wakeup is then coming |
| `EventLoop.QuitHonouredIff` | src/net/eloop.cpp:63-87 | a quit from any thread is honoured in this sense along every run if and only if loop() has already cleared the flag |
| `EventLoop.DoneIsFinal` | src/net/eloop.cpp:76-80 | a loop that has returned stays returned |
| `EventLoop.WakeStep` | src/net/eloop.cpp:55-117 | every step of any thread keeps the wakeup invariant |
| `EventLoop.WakeRun` | src/net/eloop.cpp:55-117 | every run keeps it |
| `EventLoop.DisciplinedRun` | src/net/eloop.cpp:55-117 | every run from before the loop keeps it, if the loop thread queues nothing early |
| `EventLoop.FunctorsInOrder` | src/net/eloop.cpp:97-140 | executed, current batch and queue are all pushes of the run in push order, and a functor pushed while batch k runs is executed in batch k + 1 |
| `EventLoop.PushedRun` | src/net/eloop.cpp:97-101 | the recorded pushes are those of the run, each with the number of swaps before it |
| `EventLoop.ConcatStep` | src/net/eloop.cpp:125-140 | no step loses, repeats or reorders a functor |
| `EventLoop.StampStep` | src/net/eloop.cpp:125-140 | no step lets a functor run in a batch other than the next after its push |
| `EventLoop.OrderRun` | src/net/eloop.cpp:97-140 | every run keeps both |
| `EventLoop.QueuedRunIff` | src/net/eloop.cpp:63-80 | in every reachable state with functors queued they can still be run if and only if the loop has neither returned nor been told to quit after its last swap |
| `EventLoop.RunsAll` | src/net/eloop.cpp:68-76 | the loop thread alone gets to run its batch and its whole queue |
| `EventLoop.LeavingRun` | src/net/eloop.cpp:68-79 | a loop on its way out runs nothing beyond its present batch |
| `ThreadPool.SignalInvariant` | src/thread/tpool.cpp:44-76 | if a worker sleeps unwoken the queue is no longer than the number of woken workers, and after stop nobody sleeps |
| `ThreadPool.SignalStep` | src/thread/tpool.cpp:30-76 | every step keeps both |
| `ThreadPool.RunKeepsInv` | src/thread/tpool.cpp:30-76 | every run keeps all of it |
| `ThreadPool.NeverStalls` | src/thread/tpool.cpp:56-72 | with a task queued, or after stop, some living worker can move without a spurious wakeup |
| `ThreadPool.TakenInOrder` | src/thread/tpool.cpp:44-68 | the tasks taken, then the queue, are the tasks the run added, in order |
| `ThreadPool.TasksConserved` | src/thread/tpool.cpp:44-68 | the same from any state: no step loses, repeats or reorders a task |
| `ThreadPool.StopIsFinal` | src/thread/tpool.cpp:30-37 | once stopped the pool stays stopped |
| `ThreadPool.WorkerStepDecreases` | src/thread/tpool.cpp:50-76 | every worker step lowers the measure of remaining work, spurious wakeups in a running pool excepted |
| `ThreadPool.DrainTerminates` | src/thread/tpool.cpp:50-76 | with nothing added, any run of workers is no longer than the measure, not counting spurious wakeups before stop: an idle pool sleeps, and a stopped one comes to rest |
| `ThreadPoolDrain.DrainComplete` | src/thread/tpool.cpp:50-76 | when all have left, the queue is what the last worker to leave left behind, then what was added since; it left nothing behind, with every task so far taken, unless it threw |
| `ThreadPoolDrain.LastLeaves` | src/thread/tpool.cpp:59-75 | the last worker leaves by throwing, or because the pool is stopped and the queue empty |
| `ThreadPoolDrain.FindLeaving` | src/thread/tpool.cpp:50-76 | a run that ends with no worker has a step in which the last one leaves |
| `ThreadPoolDrain.StrandedForEver` | src/thread/tpool.cpp:44-76 | with no worker left nothing is taken any more and the queue only grows by what is added |
| `ThreadPoolDrain.ReturnedMeansDrained` | src/thread/tpool.cpp:59-62 | with nothing added after stop, a worker has returned only if the queue is empty |
| `ThreadPoolDrain.ThrewIff` | src/thread/tpool.cpp:73-75 | a worker is lost to an exception exactly when one was thrown in it |
| `ThreadPoolDrain.DrainsUnlessAllThrow` | src/thread/tpool.cpp:30-76 | with nothing added after stop, one worker that never throws is enough for every task to be taken |
| `ThreadPoolDrain.LateTaskIsStranded` | src/thread/tpool.cpp:44-48 | the run in which a task added after the last worker left stays queued |
| `ThreadPoolDrain.ThrowStrandsTask` | src/thread/tpool.cpp:69-75 | the run in which the only worker throws and leaves a task behind |
| `ThreadPoolDrain.AlwaysDrainsIff` | src/thread/tpool.cpp:30-76 | for every pool size and every sequence of tasks, all runs that end without workers have taken every task if and only if there is none, or nothing is added after stop, the init callback does not throw and fewer tasks than workers may throw, the last not counted; whether they may or must throw makes no difference |
| `ThreadPoolDrain.UnsafeRun` | src/thread/tpool.cpp:50-76 | otherwise there is a run that leaves a task behind |
| `ThreadPoolDrain.EnoughWorkers` | src/thread/tpool.cpp:59-75 | a task is left over only if every worker was lost, each to a bad task taken before it |
| `ThreadPoolDrain.DoomStep` | src/thread/tpool.cpp:66-75 | no step lets more workers be lost, or hold a bad task, than bad tasks were taken |
| `ThreadPoolDrain.WorkOff` | src/thread/tpool.cpp:56-75 | with at least as many bad tasks before the last as workers, worker after worker can be lost and leave a task |
| `ThreadPoolDrain.InitThrows` | src/thread/tpool.cpp:51-54 | if the init callback throws in every worker nothing is ever taken |
| `ThreadPoolDrain.ReturnThenAdd` | src/thread/tpool.cpp:44-62 | a stopped pool of any size can return all its workers and strand everything added then |
| `ThreadPoolDrain.StuckMeansLeft` | src/thread/tpool.cpp:56-76 | after stop the workers are at rest exactly when all of them have left |
| `ThreadPoolDrain.StopDrains` | src/thread/tpool.cpp:8-76 | after stop every run of the workers is bounded, it cannot be extended exactly when all have left, and under the condition above every task ever added has been taken by then |
| `LifecycleProofs.NoDanglingChannel` | src/net/tcp_server.cpp:75-102 | in every interleaving a registered or still active channel belongs to a living connection owned by the map, a queued removal or a queued destruction |
| `LifecycleProofs.NoDanglingFunctor` | src/net/tcp_server.cpp:88-102 | a queued functor never names a connection that is gone |
| `LifecycleProofs.HandlersCalledInTime` | src/net/tcp_conn.cpp:127-146 | establishment finds the connection connecting, destruction finds it disconnected, events find it registered |
| `LifecycleProofs.LifecycleOrder` | src/net/tcp_server.cpp:75-102 | established exactly once, with no establishment queued except at home, destroyed only after establishment and close and never while mapped, identifiers below the next |
| `LifecycleProofs.StateMovesForward` | src/net/tcp_conn.cpp:114-146 | in every reachable state no step of any loop moves a connection's state back |
| `LifecycleProofs.NoUpdateAfterRemoval` | src/net/epoll_poller.cpp:50-69 | in every reachable state no step updates a removed channel, and a channel's index only moves from new over added to deleted |
| `LifecycleProofs.DescriptorsDistinct` | src/net/tcp_server.cpp:75-78 | in every interleaving registered connections have different descriptors, and of two connections with the same one the earlier is unregistered and gone |
| `LifecycleProofs.FdStep` | src/net/tcp_conn.cpp:24-36 | every step keeps this: a connection's descriptor never changes and a new one is not in use |
| `LifecycleProofs.FreedIsUnregistered` | src/net/socket.cpp:12-14 | when the last reference goes, and with it the descriptor, no poller knows the channel any more |
| `LifecycleProofs.ClosedIsTornDown` | src/net/tcp_server.cpp:93-102 | a closed connection is unregistered or on its way; with empty queues it is unregistered and unowned |
| `LifecycleProofs.StepKeepsInv` | src/net/eloop.cpp:68-76 | every step of every loop keeps the lifecycle invariant |
| `LifecycleProofs.RunKeepsInv` | src/net/eloop.cpp:63-80 | every run keeps it |
| `LifecycleProofs.AcceptConnOk` | src/net/tcp_server.cpp:55-91 | a new connection is mapped, with its one establishment done or queued |
| `LifecycleProofs.CloseConnOk` | src/net/tcp_conn.cpp:188-200 | a close, first or repeated, on the base loop or elsewhere, leaves the connection on its way out |
| `LifecycleProofs.EstablishConnOk` | src/net/tcp_conn.cpp:127-135 | the queued establishment is the only one |
| `LifecycleProofs.RemoveConnOk` | src/net/tcp_server.cpp:97-102 | a removal hands ownership from the map to a destruction on the home loop |
| `LifecycleProofs.DestroyConnOk` | src/net/tcp_conn.cpp:137-146 | a destruction finds no active channel and leaves none registered |
| `LifecycleProofs.OneConnStep` | src/net/tcp_server.cpp:55-102 | a step about one connection cannot disturb another |
| `LifecycleProofs.LoopEventStep` | src/net/eloop.cpp:68-76 | polling, handling and batching move functors and channels without losing or inventing any |
| `LifecycleProgress.QueuesCanDrain` | src/net/eloop.cpp:68-76 | from every reachable state the loops by themselves can run every queued functor and come to rest |
| `LifecycleProgress.CanBeClosed` | src/net/tcp_conn.cpp:188-200 | every connection of every reachable state has a continuation that closes it |
| `LifecycleProgress.ClosedCanBeFreed` | src/net/tcp_server.cpp:93-102 | every closed connection can, by the loops alone, be unregistered, let go by every owner and freed |
| `LifecycleProgress.CanBeFreed` | src/net/tcp_server.cpp:93-102 | every connection can be closed, torn down and freed |
| `LifecycleProgress.DrainBatch` | src/net/eloop.cpp:135-137 | a loop can run the rest of its batch; it queues only destructions, and only for removals |
| `LifecycleProgress.FromHandling` | src/net/eloop.cpp:125-140 | from handling to the next poll the whole pending queue is run |
| `LifecycleProgress.RestBase` | src/net/tcp_server.cpp:93-102 | the base loop comes to rest: removals run, then the destructions they queue |
| `LifecycleProgress.RestOther` | src/net/eloop.cpp:68-76 | so does any other loop, without disturbing the rest |
| `LifecycleProgress.AcceptedAtHome` | src/net/tcp_server.cpp:55-91 | a new connection lives on the loop chosen for it, with the descriptor accepted; on the base loop it is connected at once, elsewhere its only functor is one establishment queued there |
| `LifecycleProgress.HomeIsFixed` | src/net/tcp_conn.cpp:24-36 | no run changes a connection's loop or descriptor |
| `LifecycleProgress.HandlersTakeEffect` | src/net/tcp_server.cpp:93-102 | a close runs or queues the removal by the loop it happens on; removal, destruction, establishment, shutdown and release do to the connection what they are for |
| `LifecycleProgress.NothingDropped` | src/net/eloop.cpp:68-76 | a poll's channels are its loop's active ones, they stay so until handled, and a queued functor stays queued until run |
| `LifecycleProgress.ReportedIsHandled` | src/net/eloop.cpp:70-75 | a loop begins no batch before every reported channel has been handled |
| `Composition.CallStep` | src/net/tcp_conn.cpp:53-200 | every call the server makes on a connection finds it in a state that allows it, and both sides change alike |
| `Composition.StepAgrees` | src/net/tcp_server.cpp:55-102 | each server step is at most one legal step of each connection |
| `Composition.RunAgrees` | src/net/tcp_server.cpp:55-102 | the same along every run |
| `Composition.ServerRunsConnections` | src/net/tcp_server.cpp:55-102 | in every server run every connection sees a legal run of its own machine, keeps its invariant, and agrees with the server's record on state and registration |
| `Composition.TrafficArrives` | src/net/tcp_conn.cpp:53-200 | the traffic of a connection in a server run is the traffic of its machine's run, in order |
| `Composition.ServerStreamConservation` | src/net/tcp_conn.cpp:65-112 | conservation and write interest for every connection of every server run |
| `DecimalText.DecimalRoundTrip` | src/log/logstream.cpp:10-31 | the text of every integer is canonical and parses back to it |
| `DecimalText.CanonicalRoundTrip` | src/log/logstream.cpp:10-31 | every canonical text is the text of the number it parses to |
| `DecimalText.MirrorLookup` | src/log/logstream.cpp:6-20 | the mirrored table gives the digit of a remainder of either sign |
| `DecimalText.EmittedIsDecimal` | src/log/logstream.cpp:15-28 | truncated division, the mirrored table, the sign and the reversal yield the canonical text, for the most negative value too |
| `DecimalText.EmittedStep` | src/log/logstream.cpp:18-22 | one turn of the digit loop |
| `DecimalText.EmittedIsDigits` | src/log/logstream.cpp:15-22 | the loop's digits read backwards are the decimal digits of the absolute value |
| `DecimalText.Length64` | src/log/logstream.cpp:10-31 | every 64-bit value takes at most 20 characters |
| `LogStream.EmitDigits` | src/log/logstream.cpp:13-22 | the do-while loop writes the digits, least significant first, and nothing before them |
| `LogStream.SignAndReverse` | src/log/logstream.cpp:24-28 | appends the sign and reverses the written range |
| `LogStream.ReverseRange` | src/log/logstream.cpp:28 | reverses a range in place and leaves what is before it |
| `LogStream.RenderInteger` | src/log/logstream.cpp:11-31 | leaves the canonical decimal text at the cursor |
| `LogStream.FixedBuffer.constructor` | include/log/fixedbuffer.h:17 | an empty buffer of the given size |
| `LogStream.FixedBuffer.Append` | include/log/fixedbuffer.h:19-24 | appends the text whole if more than its length is free, else nothing |
| `LogStream.FixedBuffer.Size` | include/log/fixedbuffer.h:28 | the free bytes |
| `LogStream.FixedBuffer.Reset` | include/log/fixedbuffer.h:34 | empties the buffer |
| `LogStream.Stream.FormatInteger` | src/log/logstream.cpp:10-31 | appends the canonical text if 48 bytes are free, else nothing |
| `LogStream.Stream.FormatFloating` | src/log/logstream.cpp:78-85 | appends the library's text if 48 bytes are free, else nothing |
| `LogStream.Stream.Shift` | src/log/logstream.cpp:33-123 | every shift operator appends its item whole or not at all: text if more than its length is free, numbers if 48 bytes are, (null) for a null pointer |
| `LogStream.Stream.StreamAll` | src/log/logstream.cpp:33-123 | a whole message leaves exactly the reference text |
| `LogStream.WholeItems` | src/log/logstream.cpp:87-123 | over every run the text is the in-order concatenation of the complete renderings of the items that found room |
| `LogStream.NeverFull` | include/log/fixedbuffer.h:19-32 | over every run at least one byte stays free |
| `LogStream.ShortMessageIsComplete` | src/log/logstream.cpp:11-31 | nothing is left out of a message that leaves the number reserve free |
| `LoopPool.Pool.Start` | src/net/eloop_tpool.cpp:15-26 | the loops in the order their threads were started |
| `LoopPool.Pool.GetNextLoop` | src/net/eloop_tpool.cpp:33-41 | the k-th answer is loop k mod N, or the base loop without threads |
| `LoopPool.Pool.HomesFor` | src/net/tcp_server.cpp:55-58 | the homes of consecutive connections go round the loops, and no two loops' numbers of homes differ by more than one |
| `LoopPool.ShareFormula` | src/net/eloop_tpool.cpp:33-41 | after q rounds and r more answers every loop has q, the first r one more |
| `LoopPool.HomeCount` | src/net/eloop_tpool.cpp:33-41 | a loop occurs among consecutive answers as often as its share grows |
| `LoopPool.RoundRobinFair` | src/net/eloop_tpool.cpp:33-41 | among any number of consecutive answers, from anywhere in the round, any two loops occur equally often give or take one |

## Left out

- Concurrent parts as objects: `eloop`, `tpool` and `tcp_server` are step machines on values; locking, atomics and update in place appear only through which steps are atomic.
- Queue order in `Lifecycle`: functors and reported channels are handled in any order there, which covers the order `EventLoop` proves; write-complete, high-water and user functors are not in its queues, they could only keep a connection alive longer. Sends, writes and reads appear in it as traffic.
- Callbacks: user callbacks appear as further operations that follow the handler calling them; the connection's error handler only logs and has no operation.
- Changing a connection's callbacks or its high-water mark while it lives: `Config` is fixed.
- Failing `epoll_ctl` calls and eventfd writes other than adding a present or touching an absent descriptor: the code logs them and goes on.
- Off-thread `send` and `shutdown` of a connection, which the assumptions above exclude.
- Calling `loop()` again after it has returned, and a home loop that quits while connections live on it: a loop in `EventLoop` is entered once, the loops in `Lifecycle` have no end.
- The server's destructor, restarting a worker pool, connection identifiers wrapping around.
- `socket`, `acceptor`, `address`, `thread`, `cthread` and `eloop_thread`: thin wrappers over system calls and the C++ runtime.
- Poll timeouts: a poll may return at any time, so nothing depends on the ten-second limit and no timing is claimed.
- Fairness of the scheduler: progress is stated as enabled steps and decreasing measures, not as eventual execution.
- Event bits other than in, priority, out, error and hang-up, which no code reads.
- Logging macros, time formatting and the C library's rendering of floating-point values, which enters as a text shorter than 48 characters.
- Allocation failure and vector capacity: only the vector's size is modelled.
