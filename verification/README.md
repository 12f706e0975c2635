# A verified model of the reactor

The repository is a small reactor library in the manner of muduo: one event loop per thread,
a server loop that accepts connections and hands each to a worker loop, buffered non-blocking
output, and a consistent-hash ring. This project models its core in Dafny and proves what the
code keeps over all runs and interleavings. Where the code does not meet what it evidently
promises, the model follows the code, a lemma gives an input on which the promise fails, and
another states exactly when it holds.

## Files

- `Buffer.dfy`: the byte buffer, as a class over an array. Pure `Shape`s carry the growth rule,
  the capacity bound and its sharpness. `readFd` is modelled as written and with line 57 repaired.
- `Poller.dfy`: channels and the epoll bookkeeping as classes. The kernel's interest set is a
  field that only `EpollCtl` changes, and `EpollCtl` refuses what epoll_ctl refuses. The
  callers only log a refusal, as LOG_FATAL does not end the process.
- `EventLoop.dfy`: the functor queue and the eventfd as a machine over atomic steps of the
  loop's thread and of any number of other threads, and a class whose methods are runs of it.
- `OutputPath.dfy`: sends, partial writes, half-close and high-water notices of one connection.
  A send on another thread is two steps, its test of the state and its push; a shutdown is
  three, its test, its store and its push; and a string passed to a cross-thread send has a
  lifetime of its own.
- `FileSend.dfy`: the rounds of `sendFileInLoop`, as written and with the remaining length
  passed on.
- `TcpConnection.dfy`: the connection as an object over a real buffer, channel and poller, each
  method proved equal to its function in `OutputPath.dfy`.
- `Lifecycle.dfy`: accept, establish, close, remove, destroy and destruct across all loops, with
  every reference (map, pending queue, batch kept until the end of its pass, user) explicit, and
  descriptors that may be reused. Queued sends, which can register a channel again, and the
  late store of `shutdown()` are steps of this machine too.
- `TcpServer.dfy`: the server's counter and its map from generated names, followed through every
  run of the machine in `Lifecycle.dfy`.
- `Decimal.dfy`, `ConsistentHash.dfy`: generated names, and the hash ring as a class.

System calls are parameters: the bytes `readv` stored, the result of `write` and `sendfile`,
what `epoll_wait` reports. After `shutdownWrite` a `write` can only fail, with EPIPE or with the
ECONNRESET of a pending reset. User callbacks appear as steps that may happen at any time.

## What the code does not promise

- `readFd` is right exactly when nothing reaches the 64 KiB spill: line 57 never computes the
  length of what the spill holds (`Buffers.SpillLengthIsNeverExact`, `Buffers.Buffer.ReadFd`).
- A request re-queued by `sendFileInLoop` repeats the full count, so it is delivered exactly only
  when no round but the last sends anything (`FileSend.AsWrittenDeliversExactly`), and one that
  fits in the file never ends once partial rounds have gone too far
  (`FileSend.CanFinishExactly`).
- One event with EPOLLHUP and EPOLLPRI but no EPOLLIN, whose read returns 0, closes the connection
  twice; the second `disableALL` puts the descriptor back into the kernel's set
  (`Polling.ClosesTwice`, `TcpConnections.TcpConnection.HandleEvent`).
- `shutdown()` tests and stores the state in two steps. If `handleClose` comes between them, the
  state moves backward, and a queued send can then register the closed connection again
  (`OutputPath.LateShutdownRevives`, exactly when: `OutputPath.RegistersAgainExactly`). It is
  then watched, and perhaps reported down, a second time (`Lifecycles.WatchedAgainExactly`,
  `Lifecycles.DisconnectedReportedOnceExactly`); and if `connectDestroyed` has already run, the
  object can be destroyed while its channel is registered (`Lifecycles.OwnershipExactly`,
  `Lifecycles.DestroyedWhileRegistered`). None of this comes of `shutdown()` where no other
  thread is inside it when a connection closes (`Lifecycles.RaceFreeIsSafe`).
- A shutdown queued from another thread can half-close with bytes unsent, once `handleClose` has
  run (`OutputPath.HalfClosingStep`; from which states: `OutputPath.HalfCloseTruncatesExactly`).
- A send from another thread passes a pointer to the caller's bytes without keeping them: what
  is sent is right exactly when every such send runs before its caller's string ends
  (`OutputPath.QueuedSendsExactly`, `OutputPath.DanglingSend`).
- A functor pushed by the loop's own thread before `loop()` wakes nobody, and a `quit()` before
  `loop()` is forgotten (`EventLoops.LostWakeupExactly`, `EventLoops.EarlyQuitIsForgotten`).
- Removing a node that was added more than once leaves stale hashes in the ring, and keys are
  then sent to hashes that belong to no node (`ConsistentHashing.LookupsAreMapped`,
  `ConsistentHashing.StaleAfterDoubleAdd`).

## Model

| member | source | states |
|---|---|---|
| Buffers.CompactionMovesLeft | include/ads_Buffer.h:57-61 | compaction is reached only with more than the 8 prepend bytes before the data, so the in-place forward copy moves strictly left |
| Buffers.GrowsExactly | include/ads_Buffer.h:86-100 | the vector grows exactly when contents, new bytes and prepend bytes do not fit into it together, and then only as far as the new bytes reach |
| Buffers.DrainedIsFresh | include/ads_Buffer.h:31-43 | emptied, the buffer has all its room again |
| Buffers.CapacityBound | include/ads_Buffer.h:86-100 | over any run of appends and retrieves the vector never exceeds the initial size or peak content + longest append + 7 |
| Buffers.CapacityBoundAttained | include/ads_Buffer.h:86-100 | for every longest append below the peak, some run reaches that bound |
| Buffers.SpillLengthIsNeverExact | src/ads_Buffer.cc:39-58 | when the spill holds bytes, at most 131071 arrived and line 57's length is too short or, wrapped around, longer than the spill |
| Buffers.Buffer.constructor | include/ads_Buffer.h:13-18 | an empty buffer with the requested room behind 8 prepend bytes |
| Buffers.Buffer.ReadableBytes | include/ads_Buffer.h:21 | the length of the abstract byte queue |
| Buffers.Buffer.RetrieveAll | include/ads_Buffer.h:40-43 | the queue becomes empty |
| Buffers.Buffer.Retrieve | include/ads_Buffer.h:31-38 | drops a prefix of the queue, or all of it when asked for as much or more |
| Buffers.Buffer.RetrieveAsString | include/ads_Buffer.h:48-54 | up to the readable length, the string and what stays make up the old queue |
| Buffers.Buffer.RetrieveAllAsString | include/ads_Buffer.h:46 | returns the whole queue and empties it |
| Buffers.Buffer.CopyDown | include/ads_Buffer.h:94-96 | the overlapping copy within the vector leaves the old readable bytes at the left end |
| Buffers.Buffer.MakeSpace | include/ads_Buffer.h:86-100 | both branches keep the queue and make the requested room |
| Buffers.Buffer.EnsureWriteable | include/ads_Buffer.h:57-61 | keeps the queue, and room follows the growth rule |
| Buffers.Buffer.Append | include/ads_Buffer.h:64-68 | extends the queue by exactly the bytes given |
| Buffers.Buffer.ReadFd | src/ads_Buffer.cc:17-61 | what is stored in every case; all bytes delivered are stored if and only if they fit in the tail |
| Buffers.Buffer.ReadFdRepaired | src/ads_Buffer.cc:17-61 | with n - writeable on line 57, all bytes delivered are stored, in order |
| Polling.DispatchOrder | src/ads_Channel.cc:65-95 | each at most once, close before error before read before write |
| Polling.ClosesTwice | src/ads_Channel.cc:71-88 | one event calls handleClose once for each of the handlers that do, and twice with exactly these event bits and read result |
| Polling.Channel.SetEvents | src/ads_Channel.cc:42-45 | the poller agrees and epoll_ctl succeeds if and only if no other channel is registered under the fd; and the new table and kernel set |
| Polling.Channel.EnableReading | include/ads_Channel.h:42 | the kernel is asked for EPOLLIN and for EPOLLPRI, and for everything else as before |
| Polling.Channel.DisableReading | include/ads_Channel.h:43 | the kernel is asked for neither EPOLLIN nor EPOLLPRI, and for everything else as before |
| Polling.Channel.EnableWriting | include/ads_Channel.h:44 | the kernel is asked for EPOLLOUT, and for everything else as before |
| Polling.Channel.DisableWriting | include/ads_Channel.h:45 | the kernel is not asked for EPOLLOUT, and for everything else as before |
| Polling.Channel.DisableAll | include/ads_Channel.h:46 | no interest left; the fd leaves the kernel set if it was in it and enters it if it was not |
| Polling.Channel.Remove | src/ads_Channel.cc:48-50 | the fd is out of the table and out of the kernel set |
| Polling.EPollPoller.EpollCtl | src/ads_EPollPoller.cc:135-155 | ADD succeeds only on an absent fd, MOD and DEL only on a present one, and a failure changes nothing |
| Polling.EPollPoller.UpdateChannel | src/ads_EPollPoller.cc:69-95 | table, indices and kernel set agree afterwards, with no failed epoll_ctl, if and only if the fd is not registered to another channel |
| Polling.EPollPoller.RemoveChannel | src/ads_EPollPoller.cc:97-110 | the same equivalence for removal |
| Polling.EPollPoller.Poll | src/ads_EPollPoller.cc:30-66 | every active channel is registered, in the reported order, with its own event bits; a full event list doubles |
| Polling.EPollPoller.FillActiveChannels | src/ads_EPollPoller.cc:125-132 | the list and the revents, event by event |
| EventLoops.LostWakeupExactly | src/ads_EventLoop.cc:80-178 | over all interleavings, a wakeup is lost if and only if the loop's thread pushed before loop(), no poll has returned and no other thread has pushed or quit |
| EventLoops.LostWakeupExample | src/ads_EventLoop.cc:168-178 | a three-step run that loses one |
| EventLoops.QuitIsNoticed | src/ads_EventLoop.cc:120-126 | at the poll with quit_ set, the counter is positive or a wakeup is on its way |
| EventLoops.QuitSinceStart | src/ads_EventLoop.cc:80-86 | once loop() has begun, quit_ is set exactly if somebody called quit() since |
| EventLoops.EarlyQuitIsForgotten | src/ads_EventLoop.cc:82 | calls of quit() before loop() have no effect |
| EventLoops.ExactlyOnceInOrder | src/ads_EventLoop.cc:168-216 | executed, rest of batch and queue are the push history; between batches exactly the pushes before the last swap have run |
| EventLoops.ServedAloneExactly | src/ads_EventLoop.cc:80-106 | at a poll with work queued, the loop by itself, without timeout or other events and with at most one wakeup that is already owed, comes to run everything pushed if and only if the wakeup is not lost |
| EventLoops.EveryRunServes | src/ads_EventLoop.cc:86-106 | in every interleaving, whatever else is pushed, four steps of the loop and one per functor queued at a poll have run everything pushed before that poll |
| EventLoops.QuitStops | src/ads_EventLoop.cc:86-109 | from a poll with quit_ set the loop by itself runs what was queued and stops |
| EventLoops.NoPollAfterQuit | src/ads_EventLoop.cc:86 | once quit_ is set in a running loop, no interleaving polls again, but for the poll it may be in |
| EventLoops.CounterCountsWakeups | src/ads_EventLoop.cc:138-155 | in every run the counter is the number of wakeups since the loop last read it, up to the largest an eventfd holds |
| EventLoops.EventLoop.QueueInLoop | src/ads_EventLoop.cc:168-178 | the functor is last in the queue; the counter rises unless the caller is the loop's thread outside a batch |
| EventLoops.EventLoop.RunInLoop | src/ads_EventLoop.cc:158-165 | on the loop's thread the functor runs at once, so what it pushes is queued and not the functor itself; from any other it is queued and the counter rises |
| EventLoops.EventLoop.Quit | src/ads_EventLoop.cc:120-126 | quit_ is set, and the counter rises for other threads |
| EventLoops.EventLoop.Wakeup | src/ads_EventLoop.cc:138-146 | the counter rises, up to its maximum |
| EventLoops.EventLoop.HandleRead | src/ads_EventLoop.cc:149-155 | the counter is reset |
| EventLoops.EventLoop.RunBatch | src/ads_EventLoop.cc:210-212 | the batch runs once each, in order, and what it pushes stays queued in order |
| EventLoops.EventLoop.DoPendingFunctors | src/ads_EventLoop.cc:191-216 | runs exactly the functors queued on entry; those pushed meanwhile stay queued |
| EventLoops.EventLoop.OnePass | src/ads_EventLoop.cc:86-106 | one pass runs the queue and the handlers' pushes, and nothing else; a reported eventfd has been read, and every push made while functors ran has raised it again |
| EventLoops.EventLoop.Loop | src/ads_EventLoop.cc:80-109 | whole passes run up to the first that quits; what has been executed, and what is left queued, is settled pass by pass |
| OutputPath.StreamConserved | src/ads_TcpConnection.cc:95-257 | on every run and interleaving, the wire followed by the buffer is the accepted payloads, whole and in order |
| OutputPath.SendConserves | src/ads_TcpConnection.cc:197-257 | one sendInLoop adds its payload whole, or nothing when disconnected or on EPIPE or ECONNRESET of its own write |
| OutputPath.WriteConserves | src/ads_TcpConnection.cc:95-128 | handleWrite moves bytes from the buffer to the wire without loss |
| OutputPath.WireCountsWrites | src/ads_TcpConnection.cc:95-257 | on every run the wire grows by exactly the counts that the writes returned |
| OutputPath.StreamIsCut | src/ads_TcpConnection.cc:95-257 | so wire and buffer are the accepted payloads, cut at the number of bytes the socket has taken |
| OutputPath.QueuedSendsInOrder | src/ads_TcpConnection.cc:174-193 | over any run, the payloads that the loop takes up followed by those still queued are those that were queued, in order |
| OutputPath.QueuedSendsExactly | src/ads_TcpConnection.cc:186 | whatever stands in memory that callers have given up, the loop hands on exactly the payloads it takes up if and only if each nonempty one is taken up before its string ends |
| OutputPath.DanglingSend | src/ads_TcpConnection.cc:186 | a run in which the peer gets arbitrary other bytes |
| OutputPath.InterestFollowsBuffer | src/ads_TcpConnection.cc:95-257 | in every run, until handleClose the channel is writing exactly while bytes are buffered, and the connection is connected or disconnecting |
| OutputPath.StateFollowsEvents | src/ads_TcpConnection.cc:131-148 | in every run the state is connected until the first shutdown() or handleClose, and disconnected from each handleClose to the next late store |
| OutputPath.ShutdownReachesSocket | src/ads_TcpConnection.cc:113-118 | in every run, a disconnecting connection with nothing buffered and no shutdown still on its way has half-closed |
| OutputPath.DisconnectIsFinalExactly | src/ads_TcpConnection.cc:312-317 | kDisconnected stays in every continuation if and only if no other thread is between the test and the store of shutdown() |
| OutputPath.LateShutdownRevives | src/ads_TcpConnection.cc:312-317 | a run in which such a store re-registers the channel for writing after handleClose |
| OutputPath.RegistersAgainExactly | src/ads_TcpConnection.cc:197-257 | a silent connection that is disconnecting or disconnected can come to register for writing again if and only if a payload is queued, or on its way to the queue, where the buffer can still get it, and once disconnected a shutdown() is under way |
| OutputPath.QuietWithoutRace | src/ads_TcpConnection.cc:131-148 | if no shutdown() of another thread is under way when handleClose runs, nothing is accepted and nothing registered afterwards |
| OutputPath.BufferDrains | src/ads_TcpConnection.cc:95-120 | positive writes empty the buffer in at most as many rounds as it holds bytes |
| OutputPath.HalfCloseTruncatesExactly | src/ads_TcpConnection.cc:312-323 | from any reachable state, some continuation half-closes with bytes unsent if and only if the connection is connected, or a shutdown is queued or under way and bytes are buffered or can still get into the buffer |
| OutputPath.HalfClosingStep | src/ads_TcpConnection.cc:95-128 | a half-closing step leaves bytes unsent, and then all of them, if and only if it is a queued shutdown behind handleClose with bytes buffered; any other that finds bytes is the write that empties the buffer |
| OutputPath.HalfCloseTruncatesExample | src/ads_TcpConnection.cc:312-323 | a run that does so |
| OutputPath.HalfCloseIsFinal | src/ads_TcpConnection.cc:113-118 | with send and shutdown on the loop's thread, at most one half-close, and then everything ever accepted is on the wire |
| OutputPath.AcceptsAfterShutdownExactly | src/ads_TcpConnection.cc:174-257 | under the same condition, and no other, a connection no longer connected can still accept a payload: queued in any order while bytes are buffered, and with an empty buffer only before the half-close and ahead of every queued shutdown |
| OutputPath.HighWaterCountsCrossings | src/ads_TcpConnection.cc:241-250 | over any run the high-water callback is queued once per upward crossing of the mark if it is set, and never otherwise |
| OutputPath.CompletionExactly | src/ads_TcpConnection.cc:105-112 | over any run the callbacks queued are, in order, a write-complete per step that empties the buffer or writes a payload whole, and a high-water with the buffered length per crossing, each only if it is set |
| OutputPath.CompletionMeansWritten | src/ads_TcpConnection.cc:212-219 | a write-complete finds nothing buffered and everything accepted so far on the wire |
| FileSend.DeliversInOrder | src/ads_TcpConnection.cc:275-310 | in either form the rounds deliver one contiguous piece of the file, in order |
| FileSend.RepairedDelivery | src/ads_TcpConnection.cc:306-309 | passing on what remains, a finished request delivered exactly the bytes asked for, in at most count progressing rounds |
| FileSend.RepairedDeliversExactly | src/ads_TcpConnection.cc:306-309 | and it is finished if and only if everything asked for was sent |
| FileSend.AsWrittenDeliversExactly | src/ads_TcpConnection.cc:308 | as written, a finished request is exact if and only if no round before the last sent anything |
| FileSend.CanFinishExactly | src/ads_TcpConnection.cc:285-309 | after any rounds, a request can still come to an end if and only if, as written, a whole count fits in the file behind what has gone out, and passing on what remains, the request itself fits |
| FileSend.RequestSurvives | src/ads_TcpConnection.cc:275-310 | amid any other steps on the connection and from any state, a request ends exactly by a round that sent all it was asked for, found the connection disconnected, or met EPIPE or ECONNRESET; until then the queued round asks from where the last piece stopped |
| FileSend.TransferConserved | src/ads_TcpConnection.cc:275-310 | amid any other steps, wire and buffer together are the accepted payloads and the pieces sent, in order |
| FileSend.AsWrittenExample | src/ads_TcpConnection.cc:308 | a two-byte request that sends three |
| FileSend.RoundsExtendWire | src/ads_TcpConnection.cc:285-303 | on an idle connection the wire grows by exactly what the rounds deliver |
| TcpConnections.TcpConnection.constructor | src/ads_TcpConnection.cc:30-63 | a connecting connection with two empty buffers of its own |
| TcpConnections.TcpConnection.KernelFollowsBuffer | src/ads_TcpConnection.cc:97-112 | while live, the kernel reports EPOLLIN and EPOLLPRI for the fd always, and writability exactly when bytes are buffered |
| TcpConnections.TcpConnection.ConnectEstablished | src/ads_TcpConnection.cc:327-338 | connected, reading, one callback |
| TcpConnections.TcpConnection.KeepRest | src/ads_TcpConnection.cc:241-256 | buffer, interest and notice follow the machine's step |
| TcpConnections.TcpConnection.SendInLoop | src/ads_TcpConnection.cc:197-257 | the object follows the machine's step in every state, and the channel is in the kernel's set whenever it starts to want writing |
| TcpConnections.TcpConnection.Send | src/ads_TcpConnection.cc:174-193 | only when connected: carried out at once on the loop's thread, queued from any other |
| TcpConnections.TcpConnection.ShutdownInLoop | src/ads_TcpConnection.cc:319-323 | the object follows the machine's step |
| TcpConnections.TcpConnection.Shutdown | src/ads_TcpConnection.cc:312-317 | only when connected: the state is stored, and the half-close tried at once on the loop's thread and queued from any other |
| TcpConnections.TcpConnection.ShutdownStore | src/ads_TcpConnection.cc:314-315 | the rest of a shutdown() whose test came earlier, in any state |
| TcpConnections.TcpConnection.RunJob | src/ads_TcpConnection.cc:186 | the oldest queued send or shutdown leaves the queue and follows the machine's step |
| TcpConnections.TcpConnection.HandleWrite | src/ads_TcpConnection.cc:95-128 | the object follows the machine's step |
| TcpConnections.TcpConnection.HandleClose | src/ads_TcpConnection.cc:131-148 | disconnected and without interest, one callback; the fd is withdrawn from the kernel on the first call and put back by a second |
| TcpConnections.TcpConnection.HandleRead | src/ads_TcpConnection.cc:72-93 | by the sign of the count exactly one of message callback, handleClose and handleError: data is stored and shown, the end of the stream closes, a failure is logged and changes nothing |
| TcpConnections.TcpConnection.HandleEvent | src/ads_Channel.cc:65-95 | one event's whole effect in any state: data is stored and shown exactly with EPOLLIN or EPOLLPRI; a live connection is still watched afterwards unless the event closed it exactly once, and a closed one changes sides with every close |
| TcpConnections.TcpConnection.SendFile | src/ads_TcpConnection.cc:259-272 | only when connected: the round is run at once on the loop's thread and queued from any other |
| TcpConnections.TcpConnection.SendFileInLoop | src/ads_TcpConnection.cc:275-310 | the object follows the round function |
| TcpConnections.TcpConnection.ConnectDestroyed | src/ads_TcpConnection.cc:340-353 | the channel is out of the poller; a connected connection is disconnected, wants nothing and is reported, and any other keeps its state |
| Lifecycles.StepKeepsInvariant | src/ads_TcpServer.cc:81-143 | every step of every thread keeps shapes, queues, ownership, records, registrations and departures in order, up to the connection that the step makes a stray |
| Lifecycles.RegisteredIsSafe | src/ads_TcpServer.cc:81-143 | in every reachable state a registered channel's connection, unless it is a stray, is owned by the map or a functor of its loop, its fd is open, and no other such connection has that fd |
| Lifecycles.OwnershipExactly | src/ads_TcpConnection.cc:197-257 | over any run, a registered connection is at some point neither in the map nor has a connectDestroyed queued if and only if it is a stray: a queued send enabled writing on it after connectDestroyed, while no other was queued |
| Lifecycles.DestroyedWhileRegistered | src/ads_TcpConnection.cc:253-255 | a run after which the object can be destroyed, and its fd closed, with its channel registered |
| Lifecycles.EventsFindTheirConnection | src/ads_Channel.cc:52-63 | every event meets a channel in the kernel's set and on its own loop, and unless it is a stray its connection is alive, so that tie_.lock() does not fail |
| Lifecycles.CloseAfterRemove | src/ads_TcpConnection.cc:340-353 | unless it is a stray, a connection's fd is closed only after removeChannel |
| Lifecycles.DestructClosesFd | src/ads_TcpConnection.cc:65-68 | with the object its fd is closed, and no other in use |
| Lifecycles.DestroyFindsClosed | src/ads_TcpConnection.cc:340-350 | connectDestroyed never finds a connected connection while the server lives |
| Lifecycles.DepartsCompletely | src/ads_TcpServer.cc:134-143 | once no functor of a closed connection waits, it is out of the map and, unless it is a stray, out of the poller |
| Lifecycles.FunctorsAreServed | src/ads_EventLoop.cc:86-216 | a queued functor stays queued until it is run, and is run once its loop has taken as many polls, swaps and functors as stand before it, whatever the other threads do |
| Lifecycles.DepartsEventually | src/ads_TcpServer.cc:129-143 | under every interleaving, a closed connection that is no stray comes to be out of the map and out of the poller once loop 0, and then its own loop, have come round to what they had queued |
| Lifecycles.EstablishIsQueued | src/ads_TcpServer.cc:126 | in every reachable state, a connection still connecting belongs to a worker loop and its connectEstablished waits there |
| Lifecycles.EstablishedEventually | src/ads_TcpServer.cc:126 | under every interleaving, an accepted connection is established, and reported connected once, when its loop has come round to what it had queued |
| Lifecycles.CallbackRuns | src/ads_TcpConnection.cc:111 | so is a queued callback run |
| Lifecycles.StatesMoveForward | src/ads_TcpConnection.cc:312-317 | no thread moves a state backward except shutdown()'s store after handleClose |
| Lifecycles.ConnectedReportedOnce | src/ads_TcpConnection.cc:327-338 | the connection callback reports a connection up exactly once, when it leaves kConnecting, and until it is reported down the kernel watches it |
| Lifecycles.DisconnectedReportedOnceExactly | src/ads_TcpConnection.cc:131-148 | over any run some connection is reported down more than once if and only if one event closes a connection twice, or an event closes one that a queued send has revived |
| Lifecycles.ReportedTwiceWithoutDoubleClose | src/ads_TcpConnection.cc:131-148 | a run of the second kind |
| Lifecycles.WatchedAgainExactly | src/ads_TcpConnection.cc:131-148 | over any run a closed connection comes into the kernel's set again, or asks for EPOLLOUT, if and only if one event closes a connection twice, or a queued send enables writing on one that a late store has made kDisconnecting |
| Lifecycles.SendAsksOnce | src/ads_TcpConnection.cc:241-256 | a send that leaves something to write makes the channel ask for EPOLLOUT; one that asks already is not registered again |
| Lifecycles.DrainStopsWatching | src/ads_TcpConnection.cc:105-107 | emptying the buffer withdraws a closed connection from the kernel, and leaves a live one reading |
| Lifecycles.CallersOnlyLeave | src/ads_TcpConnection.cc:174-176 | once a connection has left kConnected, no thread gets past the test of send() or shutdown() on it |
| Lifecycles.RaceFreeIsSafe | src/ads_TcpConnection.cc:312-317 | if no shutdown() of another thread stands between test and store whenever an event closes its connection, no connection is revived and none becomes a stray |
| TcpServers.TcpServer.NewConnection | src/ads_TcpServer.cc:81-127 | the generated name is fresh, so no entry is overwritten, and the machine accepts |
| TcpServers.TcpServer.Follow | src/ads_TcpServer.cc:81-143 | through any run of all loops and threads, from the constructor on, the map holds exactly the machine's connections, each under its own name |
| TcpServers.EveryRunIsFollowed | src/ads_TcpServer.cc:81-143 | every run of the machine is one that the server can be taken through |
| TcpServers.TcpServer.OtherStep | src/ads_TcpServer.cc:81-143 | every step but an accept, a close and a removal leaves the map alone and the server in order |
| TcpServers.TcpServer.RemoveConnectionInLoop | src/ads_TcpServer.cc:134-143 | for a closed connection whose removal is not, or no longer, queued: erasing by name removes exactly this one, and the server is in order again |
| TcpServers.TcpServer.RemoveConnection | src/ads_TcpServer.cc:129-132 | at once on the server's loop, queued there from any other |
| TcpServers.TcpServer.ConnectionClosed | src/ads_TcpConnection.cc:131-148 | handleClose with its close callback is the machine's step, from any state in order |
| TcpServers.TcpServer.ClosingEvent | src/ads_Channel.cc:52-88 | so is a whole event that closes its connection, once or twice |
| TcpServers.TcpServer.RunRemoval | src/ads_TcpServer.cc:134-143 | so is the server loop's running of a queued removal |
| Decimal.VirtualNameInjective | include/ads_ConsistenHash.h:33 | node name and replica number can be read back from the hashed name, whatever the node name contains |
| Decimal.VirtualNameExample | include/ads_ConsistenHash.h:32-33 | replica 3 of "server1" is hashed as "server1_03" |
| Decimal.ToStringReadsBack | include/ads_ConsistenHash.h:33 | the decimal numeral of n reads as n and has no leading zero |
| Decimal.ConnectionNameInjective | src/ads_TcpServer.cc:86-90 | two connections never get the same name |
| Decimal.ConnectionNameExample | src/ads_TcpServer.cc:86-90 | the twelfth connection of server "chat" at 127.0.0.1:8000 is "chat-127.0.0.1:8000#12" |
| ConsistentHashing.AddMovesOnlyToNew | include/ads_ConsistenHash.h:27-40 | after addNode a key that moves, moves to one of the new node's hashes |
| ConsistentHashing.RemoveMovesOnlyOld | include/ads_ConsistenHash.h:43-56 | after removeNode a key keeps its hash and owner unless that hash was one of the removed node's |
| ConsistentHashing.AddedMeans | include/ads_ConsistenHash.h:30-37 | addNode puts the hash of every replica into the vector once more and maps it to the node, and touches no other |
| ConsistentHashing.RemovedMeans | include/ads_ConsistenHash.h:45-55 | removeNode leaves no replica's hash mapped, takes each from the vector, and touches no other |
| ConsistentHashing.AddTakesOwnership | include/ads_ConsistenHash.h:27-40 | a key that had an owner keeps it or goes to the new node, even with colliding hashes |
| ConsistentHashing.AddThenRemove | include/ads_ConsistenHash.h:27-56 | adding and removing a node restores the ring if and only if none of its hashes was mapped before |
| ConsistentHashing.AddThenRemoveRestores | include/ads_ConsistenHash.h:27-56 | the sorted vector is the same sequence again in every case, and the map is the same under that condition |
| ConsistentHashing.MinimalDisruption | include/ads_ConsistenHash.h:27-74 | for every key, getNode after addNode answers as before or with one of the new node's hashes; after removeNode it answers as before unless that was one of the removed node's, and throws only if nothing is mapped |
| ConsistentHashing.CallsKeepMapped | include/ads_ConsistenHash.h:27-56 | addNode keeps every lookup on a mapped hash; removeNode does if and only if the vector holds no more copies of the node's hashes than the call erases |
| ConsistentHashing.AlwaysMappedExactly | include/ads_ConsistenHash.h:27-74 | the same over any sequence of calls |
| ConsistentHashing.LookupsAreMapped | include/ads_ConsistenHash.h:27-74 | from the empty ring, with no two virtual names colliding, every lookup lands on a mapped hash if and only if no node is removed while it has been added more than once |
| ConsistentHashing.StaleAfterDoubleAdd | include/ads_ConsistenHash.h:27-74 | a node added twice and removed once beside another one: getNode answers with a hash that belongs to nobody |
| ConsistentHashing.SuccessorUnique | include/ads_ConsistenHash.h:66-73 | the clockwise successor is unique |
| ConsistentHashing.UpperBound | include/ads_ConsistenHash.h:68 | the first position above the key |
| ConsistentHashing.ConsistentHash.AddNode | include/ads_ConsistenHash.h:27-40 | the ring gains the node's hashes, sorted, each mapped to it |
| ConsistentHashing.ConsistentHash.RemoveNode | include/ads_ConsistenHash.h:43-56 | one occurrence of each hash goes from the vector and its mapping from the map |
| ConsistentHashing.ConsistentHash.EraseHash | include/ads_ConsistenHash.h:47-54 | the loop body's effect on both |
| ConsistentHashing.ConsistentHash.GetNode | include/ads_ConsistenHash.h:59-74 | throws exactly on an empty map, and otherwise returns the key's clockwise successor; the answer is the one of which minimal disruption is proved |

## Left out

- TcpServer's destructor and the shutdown of loops: functors queued around quit may never run, so the lifecycle theorems hold while the server lives.
- EventLoopThreadPool's round robin: any choice of worker loop is allowed.
- EventLoopThread and Thread start and join: the machines begin with running or startable loops.
- Logger, Timestamp, InetAddress, CurrentThread, Acceptor's socket options and the chat demo: formatting and platform calls.
- handleError: it only logs.
- The raw `this` bound by cross-thread send and shutdown jobs: in the lifecycle machine a queued send owns its connection, and shutdownInLoop, which changes nothing there, has no functor; the output machine takes the connection to exist when its jobs run.
- Errors of a `write` after `shutdownWrite` other than EPIPE and ECONNRESET, such as a pending timeout: the code would keep the payload.
- Relative order of send and sendFile on one connection: a re-queued file round stands outside the output buffer, and the code gives no order.
- ConsistentHashing.ConsistentHash.AddNode: the mutex is not modelled, each call being one step; `std::finde` is read as `std::find` and the default argument as a value of `std::hash`.
- Buffers.Buffer.Append: size_t wrap-around of the indices and exhaustion of memory are not modelled; only line 57's subtraction is.
- TcpServers.TcpServer.NewConnection: the counter is unbounded, so its wrap-around after 2^31 connections is not modelled.
- Decimal.VirtualNameInjective: is about names; hash values may collide, and the ring lemmas allow it.
