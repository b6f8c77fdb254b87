# EduMuduo: a verified model of a reactor TCP library

EduMuduo is a multi-threaded TCP library built on one event loop per thread. The project
models the five pieces of state that it has to keep in agreement and proves what each of
them promises, over every interleaving and every answer of the kernel.

- **Event loop** (`EventLoopProtocol.dfy`, `EventLoop.dfy`): the functor queue, the wakeup
  descriptor and the quit flag as a step system with any number of other threads, and
  `EventLoop` as a class whose methods are proved to be steps of it.
- **Sending side of a connection** (`Output.dfy`, `OutputLaws.dfy`, `SendOrder.dfy`,
  `HalfClose.dfy`, `TcpConnection.dfy`): direct writes, the backlog, draining, message
  order, notifications and the half-close. `TcpConnection` is a class over its buffers and its channel, proved against
  the step system.
- **Life cycle** (`Lifecycle.dfy` and the files `Lifecycle*.dfy`, `TcpServer.dfy`):
  connections across the base loop and the I/O loops, their functors, the server's map,
  the pollers and descriptor reuse, as one step system over any number of loops.
- **Pollers** (`Poller.dfy`, `Channels.dfy`): a channel's index, the poller's map and the
  kernel's interest list.
- **Buffer** (`Buffer.dfy`): the growing byte array as a byte queue.
- **Round robin** (`EventLoopThreadPool.dfy`): assignment with a wrapping counter.

## How to read it

A run is a sequence of steps. `CanExec(s, steps)` says that each step is possible where it
is taken and `Exec(s, steps)` is the state afterwards; theorems quantify over all of them.
Atomic loads, stores and exchanges and the mutex sections are single steps in one global
order. The kernel appears as its answers: how many bytes a `write` took or how it failed,
what `readv` delivered, which descriptors `epoll_wait` reports, which `epoll_ctl` calls it
refuses (adding a descriptor twice, changing or deleting an absent one), and the eventfd
counter.

Where the code and its evident intent differ, the model follows the code:

- `handleWrite` retrieves again what `writeFd` has consumed. `Output.Config.retrieveAgain`
  selects the code as written (true, and what the class `TcpConnection` is proved to do) or
  a version that consumes once. Conservation is proved for the latter; for the code as
  written the exact loss is proved, and that conservation holds exactly on runs without a
  partial drain (`OutputLaws.ConservedIffNoPartialDrain`, example `OutputLaws.OneByteLost`).
- `quit()` before the reset at the top of `loop()` is overwritten: `QuitHeardIffAfterReset`
  says exactly when it is heard, `EarlyQuitIsLost` shows a loss.
- `queueInLoop` on the loop's own thread before `loop()` sends no wakeup:
  `NoLostWakeup` says exactly when a loop can sit in poll without one, `EarlyPushIsStuck`
  shows it. The functor then waits until the poll times out after `kPollTimeMs`, ten
  seconds, or returns for another descriptor.
- `send(); shutdown();` from another thread is not ordered: `FinOvertakesIffInFlight`,
  example `FinOvertakesSend`.
- Two half-closes are possible: `HalfClosesTwiceIff` says exactly when, example `TwoFins`.
- `shutdown` exchanges the state whatever it finds, so states are not ordered:
  `EarlyShutdownsForgotten` and `LateShutdownsShow` say what a call before establishing or
  after the close does.
- A second `disableAll` puts a channel back into the interest list with an empty mask:
  `Poller.DisableAllTwice`. It happens when `handleClose` runs twice in a dispatch
  (`Channels.DoubleClose`).
- Connection names come from a 32-bit counter, and send functors hold a bare pointer. The
  life-cycle invariant survives a step exactly when the step neither meets a name that is
  somebody else's nor registers a destroyed connection again
  (`LifecycleLaws.StepKeepsInvIffClean`). Up to 2^32 names only such a registration can
  happen (`LifecycleLaws.CleanUnlessNamesWrap`). Each of the three failures is reached by a
  run from the start: `LifecycleWitnesses.LateSendRegisters`, `NameIsTaken`, `EntryIsStolen`.
- The round robin starts over at loop 0 when its counter wraps: assignment is fair over every
  window exactly when the number of loops divides 2^32 (`AlwaysFairIff`).

## Model

| member | source | states |
|---|---|---|
| EventLoopProtocol.NoLostWakeup | src/EventLoop.cpp:77-86 | in every interleaving a loop in poll with pending functors finds the eventfd readable or has a producer about to write it, except exactly before its first batch when only the loop thread queued before loop() |
| EventLoopProtocol.EarlyPushIsStuck | src/EventLoop.cpp:83-85 | a functor queued on the loop's own thread before loop() leaves the loop in poll with it pending, and that poll can only return without a wakeup |
| EventLoopProtocol.FunctorLedger | src/EventLoop.cpp:127-142 | functors in lock order are those executed, the rest of the batch and those pending, and executed plus rest are exactly those queued by the last swap |
| EventLoopProtocol.ProducerOrder | src/EventLoop.cpp:77-81 | each producer's functors run in the order it queued them, none twice |
| EventLoopProtocol.QueuedBeforeSwapHasRun | src/EventLoop.cpp:131-139 | whatever was queued before a swap has run when that batch or a later one is over |
| EventLoopProtocol.QueuedAfterSwapWaits | src/EventLoop.cpp:128-139 | a swap fixes its batch: what is queued later, also by the batch itself, does not run before the next swap |
| EventLoopProtocol.QuitHeardIffAfterReset | src/EventLoop.cpp:41-67 | past the reset the flag is set iff some quit() came after the reset, and then the loop is not blocked in poll without a wakeup written or about to be |
| EventLoopProtocol.QuitIsPrompt | src/EventLoop.cpp:47-60 | after quit() the loop starts at most one more batch, does not poll again after it, and has ended, with looping_ cleared, once it has tested the flag again |
| EventLoopProtocol.QuitEnds | src/EventLoop.cpp:47-60 | from any state past the reset with the flag set, every run that tests the flag ends the loop for good |
| EventLoopProtocol.EndsOnlyOnQuit | src/EventLoop.cpp:41-60 | the loop ends only because of a quit() after its reset; otherwise each test of the flag leads to poll |
| EventLoopProtocol.EventsHandledInOrder | src/EventLoop.cpp:48-53 | what a poll delivers is handled once each and in order, all of it by the end of the dispatch |
| EventLoopProtocol.EarlyQuitIsLost | src/EventLoopThread.cpp:38-44 | a quit() between publishing the loop and its reset is overwritten and the loop polls on |
| EventLoopProtocol.StepKeepsInv | src/EventLoop.cpp:41-142 | every step of every thread keeps the ledger, the program points and the wakeup obligation |
| EventLoopProtocol.HistoryGrows | src/EventLoop.cpp:131-139 | histories only grow and a later swap takes in everything queued before |
| EventLoopProtocol.QuitBound | src/EventLoop.cpp:47-56 | the number of batches a quitting loop can still start never increases |
| EventLoops.EventLoop.EnterLoop | src/EventLoop.cpp:41-43 | the two stores at the top of loop() are the protocol's Begin and ResetQuit |
| EventLoops.EventLoop.QueueInLoop | src/EventLoop.cpp:77-86 | is the protocol's push and wake steps; one functor more at the back, one eventfd write iff from another thread or during a batch |
| EventLoops.EventLoop.Quit | src/EventLoop.cpp:62-67 | is the protocol's quit steps, with a wakeup only from another thread |
| EventLoops.EventLoop.HandleRead | src/EventLoop.cpp:111-117 | reading the eventfd leaves its counter at zero and nothing else changed |
| EventLoops.EventLoop.DoPendingFunctors | src/EventLoop.cpp:127-142 | runs exactly the functors pending at the swap, in order, also when one of them quits the loop, and leaves exactly those they queue, each with a wakeup |
| EventLoops.EventLoop.TakeBatch | src/EventLoop.cpp:128-134 | the flag is set and the pending functors become the batch |
| OutputLaws.BytesConserved | include/muduo/TcpConnection.hpp:150-191 | consuming once, the bytes the kernel took followed by the backlog are the kept messages in order, over every run of partial, blocked and failed writes |
| OutputLaws.LedgerBalance | include/muduo/TcpConnection.hpp:219-244 | in both versions the kept messages are the kernel's bytes and the vanished bytes interleaved, followed by the backlog |
| OutputLaws.LedgerReadsBack | include/muduo/TcpConnection.hpp:219-244 | the ledger's kernel chunks are the bytes on the socket and its vanished chunks add up to the min(n, r - n) of all partial drains |
| OutputLaws.ExactLoss | include/muduo/TcpConnection.hpp:224-228 | as written, draining n of r bytes loses exactly min(n, r - n) more |
| OutputLaws.ConservedIffNoPartialDrain | include/muduo/TcpConnection.hpp:224-228 | as written, conservation holds exactly on the runs without a partial drain |
| OutputLaws.OneByteLost | src/Buffer.cpp:62-71 | two bytes wait, one is written, the other vanishes and the connection half-closes |
| OutputLaws.StepBalance | include/muduo/TcpConnection.hpp:150-191 | one step balances what waited and was accepted against what was written, lost and waits |
| SendOrder.ThreadOrder | include/muduo/TcpConnection.hpp:68-81 | the messages of each thread reach sendInLoop in the order that thread sent them, each once, and the rest is queued or about to be |
| SendOrder.WireKeepsThreadOrder | include/muduo/TcpConnection.hpp:150-191 | consuming once, the kernel's bytes and the backlog are whole messages one after the other, those of each thread in the order that thread sent them |
| HalfClose.InterestFollowsBacklog | include/muduo/TcpConnection.hpp:187-198 | until handleClose, writing interest is on after any handler iff bytes wait, and SHUT_WR is issued only when none do |
| HalfClose.HalfCloseLast | include/muduo/TcpConnection.hpp:68-89 | whoever sends and whenever the connection closes, with a kernel that refuses to write after SHUT_WR the wire is data, then half-closes and nothing more; a half-close before the close means nothing waits, and when consuming once the data is every kept message |
| HalfClose.HalfClosesTwiceIff | include/muduo/TcpConnection.hpp:193-198 | with such a kernel there are at most two half-closes, and two exactly when a drain empties the backlog of a Disconnecting connection before the functor of another thread's shutdown has run, and it runs later; at most one if shutdown is on the loop thread |
| HalfClose.LoopSendsNeedNoRefusal | include/muduo/TcpConnection.hpp:68-81 | with all sends on the loop thread no half-close overtakes a message and no write follows one, so both hold with any kernel |
| HalfClose.HalfClosesLeft | include/muduo/TcpConnection.hpp:228-238 | even if the kernel took bytes after SHUT_WR, past Connected the half-closes to come are at most those scheduled, the messages in flight and one for a backlog being drained |
| HalfClose.TwoFins | include/muduo/TcpConnection.hpp:235-237 | the run in which a drain and the functor of another thread's shutdown both half-close |
| HalfClose.LateSends | include/muduo/TcpConnection.hpp:68-81 | once past Connected, the messages still sent plus those in flight are those that were in flight |
| HalfClose.FinOvertakesIffInFlight | include/muduo/TcpConnection.hpp:77-89 | some message is sent after a half-close iff one was in flight when it was issued |
| HalfClose.FinOvertakesSend | include/muduo/TcpConnection.hpp:235-237 | a queued send followed by shutdown from another thread is overtaken by a drain and refused |
| HalfClose.ShutdownDecidedOnce | include/muduo/TcpConnection.hpp:85-89 | all shutdown calls of all threads together decide to half-close at most once |
| HalfClose.HalfCloseIssuedIffDecided | include/muduo/TcpConnection.hpp:85-89 | on a connection that stays open, once no shutdown functor is left and nothing waits, SHUT_WR was issued exactly if some shutdown decided on it |
| HalfClose.EarlyShutdownsForgotten | include/muduo/TcpConnection.hpp:86 | before establishing, shutdown moves Connecting to Disconnecting, and establishing forgets it |
| HalfClose.LateShutdownsShow | include/muduo/TcpConnection.hpp:86 | after the close, shutdown moves Disconnected back to Disconnecting and does nothing else |
| HalfClose.StepNotifies | include/muduo/TcpConnection.hpp:175-185 | a step queues one high-water notification iff a callback is set and it lifts the backlog to the mark, and it carries the length reached |
| HalfClose.NotificationsFollowFalls | include/muduo/TcpConnection.hpp:175-185 | over any run the notifications are the falls below the mark, plus one if the run ends at or above the mark and less one if it starts there |
| HalfClose.FallsBetweenNotifications | include/muduo/TcpConnection.hpp:175-185 | between two consecutive notifications the backlog fell below the mark exactly once |
| HalfClose.StepCompletes | include/muduo/TcpConnection.hpp:157-166 | a step queues one write-complete notification iff a callback is set, the kernel took all it was offered and nothing waits |
| HalfClose.WriteCompleteMeansWritten | include/muduo/TcpConnection.hpp:228-234 | consuming once, a write-complete notification means the kernel has every kept byte |
| HalfClose.WriteCompleteAsWritten | include/muduo/TcpConnection.hpp:226-234 | as written it means so exactly on runs without a partial drain |
| HalfClose.StepOk | include/muduo/TcpConnection.hpp:150-254 | every step keeps interest, backlog, state and scheduled half-closes in agreement |
| TcpConnections.TcpConnection.constructor | include/muduo/TcpConnection.hpp:41-57 | starts Connecting with empty buffers both ways and an unregistered channel |
| TcpConnections.TcpConnection.Send | include/muduo/TcpConnection.hpp:68-81 | on the loop thread sends at once, elsewhere queues, unless not connected |
| TcpConnections.TcpConnection.SendInLoop | include/muduo/TcpConnection.hpp:150-191 | refines the step system's send; what goes on the wire, into the backlog and into the functor queue for each answer of the kernel, with and without callbacks |
| TcpConnections.TcpConnection.Enqueue | include/muduo/TcpConnection.hpp:175-190 | appends the rest, notifies at the mark, turns writing interest on |
| TcpConnections.TcpConnection.Shutdown | include/muduo/TcpConnection.hpp:85-89 | always leaves Disconnecting; from Connected half-closes at once on the loop thread unless writing interest is on, and queues the half-close elsewhere |
| TcpConnections.TcpConnection.ShutdownInLoop | include/muduo/TcpConnection.hpp:193-198 | half-closes unless writing interest is on |
| TcpConnections.TcpConnection.HandleWrite | include/muduo/TcpConnection.hpp:219-244 | refines the step system's drain as written: twice the bytes taken leave the backlog, and once it is empty interest goes off, a set callback is queued and a Disconnecting connection half-closes |
| TcpConnections.TcpConnection.WriteBacklog | include/muduo/TcpConnection.hpp:224-227 | the buffer loses twice what the kernel took, as far as it reaches |
| TcpConnections.TcpConnection.FinishWrite | include/muduo/TcpConnection.hpp:228-238 | when nothing waits, interest goes off, the completion is queued and a waiting shutdown half-closes |
| TcpConnections.TcpConnection.HandleRead | include/muduo/TcpConnection.hpp:200-217 | appends what arrived; a zero read closes, with the registers and callbacks of a close; otherwise nothing else changes |
| TcpConnections.TcpConnection.HandleClose | include/muduo/TcpConnection.hpp:246-254 | Disconnected, no interest left, one down callback and one close callback |
| TcpConnections.TcpConnection.ConnectEstablished | include/muduo/TcpConnection.hpp:117-122 | Connected, tied, reading, one up callback |
| TcpConnections.TcpConnection.ConnectDestroyed | include/muduo/TcpConnection.hpp:124-130 | is the step system's destruction: Disconnected and removed, interest off and a down callback only if it was still Connected |
| TcpConnections.DestroyedIsGone | include/muduo/TcpConnection.hpp:124-130 | after connectDestroyed the channel is in neither map nor interest list, watched or not before |
| LifecycleLaws.StepKeepsInvIffClean | include/muduo/TcpServer.hpp:112-153 | a step of any loop or thread keeps the life-cycle invariant exactly when it is clean |
| LifecycleLaws.CleanUnlessNamesWrap | include/muduo/TcpServer.hpp:115-117 | while at most 2^32 names were handed out a run is clean exactly when no send registers a destroyed connection |
| LifecycleLaws.DifferentNames | include/muduo/TcpServer.hpp:115-117 | 2^32 names in a row are different |
| LifecycleLaws.AcceptedIsMapped | include/muduo/TcpServer.hpp:115-131 | without a late registration each of up to 2^32 accepts puts its own connection into the map under a name of its own |
| LifecycleLaws.NameTaken | include/muduo/TcpServer.hpp:131 | an accept whose name is in the map breaks the map |
| LifecycleLaws.EntryStolen | include/muduo/TcpServer.hpp:149 | a removal that finds another connection under its name breaks the map |
| LifecycleLaws.RegisteredAgain | include/muduo/TcpConnection.hpp:187-189 | a send functor after connectDestroyed that leaves bytes waiting registers the channel again |
| LifecycleWitnesses.LateSendRegisters | include/muduo/TcpConnection.hpp:187-189 | a run from the start in which a queued send runs after connectDestroyed and registers the channel again |
| LifecycleWitnesses.NameIsTaken | include/muduo/TcpServer.hpp:115-131 | a run from the start, one accept per turn of the loop, in which after exactly 2^32 names an accept finds the name of an open connection in the map |
| LifecycleWitnesses.EntryIsStolen | include/muduo/TcpServer.hpp:142-153 | a run from the start in which a connection 2^32 names old closes twice, an accept gets its name after the first removal, and the second removal erases the new entry |
| LifecycleTheorems.ExactlyOneStage | include/muduo/TcpServer.hpp:127-153 | every accepted connection is in exactly one of five stages told apart by its functors, and the map has exactly the first three |
| LifecycleTheorems.StagesAdvance | include/muduo/TcpServer.hpp:127-153 | a connection's stage never goes back |
| LifecycleTheorems.DestroyQueuedOnce | include/muduo/TcpServer.hpp:146-153 | connectDestroyed is queued at most once, only on the home loop, only after establishing and a close |
| LifecycleTheorems.BatchRunsTask | include/muduo/TcpServer.hpp:137-151 | a functor queued when its loop starts a batch has done its work when the batch is used up, whatever other loops do |
| LifecycleTheorems.ClosedIsDestroyed | include/muduo/TcpServer.hpp:142-153 | a closed connection is destroyed, once, after one batch of the base loop and then one of its own loop, whatever else runs |
| LifecycleTheorems.DispatchIsSafe | src/EventLoop.cpp:48-55 | every active channel stays in the poller's map, its connection referenced and its descriptor open, until it is dispatched |
| LifecycleTheorems.PolledAreDispatched | src/EventLoop.cpp:48-53 | the channels that poll delivers are dispatched once each and in order, all of them before the functors run |
| LifecycleTheorems.FdReuseNeverCollides | include/muduo/TcpConnection.hpp:124-130 | a descriptor is closed only when no map and no interest list has it, and a reused number finds nothing stale |
| LifecycleTheorems.ReleasedIffDestroyed | include/muduo/TcpServer.hpp:146-153 | the last reference goes and the descriptor is closed exactly once the connection is destroyed and no removal of it is pending, and its number is then free again |
| LifecycleTheorems.PollersAgree | src/EpollPoller.cpp:100-127 | in every run no epoll_ctl call of any loop fails |
| LifecycleTheorems.CallbackCounts | include/muduo/TcpConnection.hpp:117-130 | one up callback, one down callback per handleClose, none from connectDestroyed, at most one half-close decision |
| LifecycleInterest.OpenMeansListening | include/muduo/TcpConnection.hpp:117-121 | from establishing to the first close a connection is watched for input, and never before or after |
| LifecycleInterest.StepListens | include/muduo/TcpConnection.hpp:246-254 | every step keeps what a channel listens to in line with its connection's progress |
| LifecycleInterest.StepMask | src/Channel.cpp:35-63 | every step changes a connection's mask exactly so: establishing asks for input, a send that leaves bytes for output, a drain and a close take interest away |
| LifecycleTasks.StepTasks | include/muduo/TcpServer.hpp:112-153 | every clean step keeps functors, map and progress in agreement |
| LifecyclePollers.StepRegistered | src/EpollPoller.cpp:54-87 | every clean step keeps connections registered exactly from establishing to destruction |
| LifecyclePollers.OpenFdIsFree | src/EpollPoller.cpp:61-66 | an open connection's descriptor is not held by another live channel |
| LifecyclePollers.StepCallbacks | include/muduo/TcpConnection.hpp:85-130 | every step keeps the callback counts in line with the progress |
| TcpServers.TcpServer.NewConnection | include/muduo/TcpServer.hpp:112-140 | is the life cycle's accept step: the 32-bit counter goes on by one, also when getsockname fails, the name is entered unless taken, and the establishing is queued on another loop |
| TcpServers.TcpServer.RemoveConnection | include/muduo/TcpServer.hpp:142-144 | removes at once on the base loop and queues there otherwise |
| TcpServers.TcpServer.RemoveConnectionInLoop | include/muduo/TcpServer.hpp:146-153 | erases the name and queues connectDestroyed on the home loop, only if the name was there |
| Poller.ApplyKeepsCoherence | src/EpollPoller.cpp:54-87 | a channel call keeps index, map and interest list in agreement, without a failing epoll_ctl, exactly when no other live channel has the descriptor |
| Poller.RefusedIff | src/EpollPoller.cpp:100-127 | an epoll_ctl is refused exactly when a new channel asks for a descriptor that is watched already |
| Poller.CallsKeepAgreement | src/EpollPoller.cpp:54-87 | after any calls with distinct live descriptors Added means watched with the channel's own mask, not New means found by hasChannel, Deleted means an empty mask |
| Poller.DisableAllTwice | src/EpollPoller.cpp:61-70 | the second disableAll puts the channel back into the interest list with an empty mask |
| Poller.IndexAfter | src/EpollPoller.cpp:61-74 | the index that each call leaves |
| Poller.ApplyFrame | src/EpollPoller.cpp:54-87 | a call leaves other channels and other descriptors alone |
| Channels.EPollPoller.UpdateChannel | src/EpollPoller.cpp:54-75 | refines the register update |
| Channels.EPollPoller.RemoveChannel | src/EpollPoller.cpp:77-87 | refines the register removal |
| Channels.EPollPoller.UpdateOperation | src/EpollPoller.cpp:100-127 | changes the interest list if the kernel accepts; a refusal is counted, and on ADD or MOD ends the process |
| Channels.EPollPoller.HasChannel | src/Poller.cpp:8-18 | is the map lookup on any registers, and on registers in agreement answers yes iff the channel's index is not New |
| Channels.EPollPoller.Poll | src/EpollPoller.cpp:25-52 | delivers every ready channel in order with its own events and doubles a full event list |
| Channels.Channel.EnableReading | src/Channel.cpp:35-39 | sets the read bits and updates the registers |
| Channels.Channel.DisableReading | src/Channel.cpp:41-45 | clears the read bits and updates the registers |
| Channels.Channel.EnableWriting | src/Channel.cpp:47-51 | sets the write bit and updates the registers |
| Channels.Channel.DisableWriting | src/Channel.cpp:53-57 | clears the write bit and updates the registers |
| Channels.Channel.DisableAll | src/Channel.cpp:59-63 | clears the mask and updates the registers |
| Channels.Channel.Remove | src/Channel.cpp:65-68 | removes the channel from the registers |
| Channels.Channel.HandleEvent | src/Channel.cpp:16-28 | a tied channel without owner runs nothing, otherwise the selected callbacks run in order |
| Channels.DoubleClose | src/Channel.cpp:74-96 | a dispatch closes a connection at most twice, and twice exactly on hang-up with urgent data, no input and a zero read |
| Buffers.Buffer.Append | src/Buffer.cpp:35-39 | appends at the back; storage grows exactly when contents and data exceed it from the front |
| Buffers.Buffer.MakeSpace | src/Buffer.cpp:79-89 | makes room by moving or growing, growing only if moving cannot help, within twice the largest readable length plus 7 |
| Buffers.Buffer.CopyDown | src/Buffer.cpp:83-88 | the overlapping copy keeps the contents |
| Buffers.Buffer.Resize | src/Buffer.cpp:81 | growing keeps the old bytes in place |
| Buffers.Buffer.Retrieve | src/Buffer.cpp:14-18 | drops from the front, at most everything |
| Buffers.Buffer.RetrieveAll | src/Buffer.cpp:20-22 | drops everything |
| Buffers.Buffer.RetrieveAsString | src/Buffer.cpp:24-29 | returns what it drops |
| Buffers.Buffer.RetrieveAllAsString | src/Buffer.cpp:31-33 | returns everything |
| Buffers.Buffer.ReadFd | src/Buffer.cpp:41-60 | a scatter read of any length appends exactly what arrived |
| Buffers.Buffer.HandleReadResult | src/Buffer.cpp:91-98 | joins the direct part and the spill, which fits the extra buffer |
| Buffers.Buffer.WriteFd | src/Buffer.cpp:62-71 | consumes what the kernel took |
| Buffers.FirstInFirstOut | src/Buffer.cpp:14-39 | over any interleaving, what was dropped and what is left are what was there and what was pushed |
| EventLoopThreadPools.EventLoopThreadPool.GetNextLoop | src/EventLoopThreadPool.cpp:37-42 | the base loop if there are no others, otherwise the loop at the counter modulo their number, and the counter goes on by one modulo 2^32 |
| EventLoopThreadPools.OneRound | src/EventLoopThreadPool.cpp:37-42 | up to the wrap call a goes to loop a mod n, and any n calls in a row serve every loop once |
| EventLoopThreadPools.FairWithoutWrap | src/EventLoopThreadPool.cpp:37-42 | any k consecutive calls of getNextLoop without a wrap give each loop floor or ceiling of k / n, the ceiling to those next in rotation |
| EventLoopThreadPools.FairUpToWraps | src/EventLoopThreadPool.cpp:37-42 | over any consecutive calls with w wraps two loops differ by at most w + 1 |
| EventLoopThreadPools.FairWhenLoopsDivideWrap | src/EventLoopThreadPool.cpp:37-42 | if the number of loops divides 2^32, any window at all is fair |
| EventLoopThreadPools.AlwaysFairIff | src/EventLoopThreadPool.cpp:37-42 | two loops differ by at most one over every window exactly when the number of loops divides 2^32 |
| EventLoopThreadPools.UnfairAcrossWrap | src/EventLoopThreadPool.cpp:37-42 | otherwise a window across the wrap gives one loop two calls and another none, the difference that one wrap allows |
| EventLoopThreadPools.RotationSurvivesWrapIff | src/EventLoopThreadPool.cpp:37-42 | the rotation goes on across the wrap exactly when the number of loops divides 2^32 |

## Left out

- Logging, time stamps, socket options, address handling, the acceptor's error paths: no
  state that anything here depends on.
- C++ memory orderings, thread creation, the start semaphore and the condition variable of
  `startLoop`: steps are atomic and in one order; publishing a loop is one step.
- The destructors of `TcpServer`, `EventLoop` and `TcpConnection`, and functors that outlive
  their object: the last reference going away is the step `Release`, which closes the
  descriptor; nothing runs on a freed object.
- User callbacks: they return, and call the public interface through the steps given for it.
- The wakeup and acceptor channels in the life cycle: their descriptors are never reused, so
  only connection channels are followed there.
- The error callback: reading the pending socket error changes no modelled state.
- A second call of `loop()` after it has returned: a loop is entered once, so what its own
  thread queues after the return is not followed.
- Changing the high-water mark or the callbacks while a connection runs: they are fixed.
- The limits of `size_t` and of the eventfd counter: lengths and the counter are unbounded.
- The bits of an event mask: a mask is the set of its epoll flags.
- `EventLoop`, `TcpConnection` and `TcpServer` under interference: their classes describe a
  call that no other thread interrupts; interruptions are covered by the step systems.
- EventLoopThreadPools.EventLoopThreadPool.Start: the loops are given; creating their
  threads is not modelled.
