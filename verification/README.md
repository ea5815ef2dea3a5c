# A verified model of the fiber runtime, the caching file layer, replication and two cxxtest routines

Eight parts of the repository are modelled and proved here, each in its own modules. `dafny verify
dfyconfig.toml` checks all of them.

**Termination detection** (`Consensus`, `TerminationDetection`, `TerminationProof`, `TerminationTheorems`,
`TerminationProgress`, `SlowestRun`, `FirstLap`, `LocalTests`, `WeakestTest`, `ConsensusSteps`, `ClusterWork`,
`CompletionSpreads`). `fiber_async_consensus` runs Misra's marker algorithm over the machines of a cluster with
several fibers on each. `Consensus` has what one machine does under its mutex, as functions on values and as a
class that updates the fields in place and is proved to compute those functions. `TerminationDetection`
interleaves the machines: calls are counted sent before they go on the wire and counted received only after
their handler has run (oss_src/rpc/dc_dist_object.hpp:343 and :368, oss_src/rpc/object_call_dispatch.hpp:68),
and the token's two counter reads are two steps with other machines and handlers running between them;
`ConsensusSteps` says that where nothing comes between, they do what the class does. The main results:
`CompletionIsSafe` (a completion by a machine that has passed the token before, or has sent nothing it has not
folded in, means the whole cluster has terminated, for good), `CompletionWithinTwoRounds` and
`CompletionWithinOneMore` (termination is found within 2n visits of the token, one more if a pass was
overtaken), `BoundsAreReached` (for every n above 1 a run that needs all of them), `TokenAccounting`.

Completion on the token's first lap is not safe without that condition: the constructor names the last machine
as the last to change before it has folded anything in. `FirstLapCanFail` gives a bad run for every cluster
size, `FirstLapCanSucceed` a good one. The condition is the right one. A machine alone can test exactly
(`AloneIsExact`: it has terminated if it has received all it has sent). In any larger cluster no test that the
completing machine could make on what it sees is exact: `NoLocalTestIsExact` has two runs, for every size, that
look alike to it and differ in the outcome. And of the tests that are safe this one is the weakest:
`VouchedIsWeakest` says that what the machine sees proves termination if and only if the condition holds, by
building for every other view a run with that view that has not terminated.

A completion reaches everybody. `NobodyIsForgotten` says that in every later state each machine says done or has
`force_done` on its way, and that where it has been told and its waiters have been cancelled, whoever waits can
go on and quits. `EveryMachineFinishes` bounds what is left after a vouched completion: two steps for each other
machine and one for each fiber, and no run can stop before all have quit.

`ClusterWork` puts the sleep handshake below and the token together: work is inserted on any machine at any
time, and `CompletionSeesAllWork` says that at such a completion every fiber of every machine has looked at its
queues since every insertion whose cancel has returned.

**The sleep handshake** (`SleepHandshake`). On one machine, `begin`/`end`/`cancel_done_critical_section` against
`cancel`, `cancel_one` and `force_done`, one memory access at a time where the guards are read without the
mutex. `NoLostWork` says no fiber waits on a look at its queues older than an insertion whose cancel has
returned, and `ForceDoneReleases` that nobody waits once a `force_done` has returned.

**The fiber scheduler** (`FiberControl`, `FiberControlProof`, `FiberControlTheorems`, `FiberOrder`,
`StaleHandle`, `FiberScheduler`). Workers, their two queues with the list already popped off each, the hand-over
of `prev_fiber` and `cur_fiber` across a switch, descheduling with a mutex that the worker releases afterwards,
and threads that wake fibers, as interleaved steps. The root loop is taken apart at every write that others can
see: a worker raises `waiting`, takes `active_lock`, looks at its queues, and sleeps or lets go of the lock and
lowers the flag again; an enqueuer puts the fiber on the queue, reads the flag without a lock, and signals under
`active_lock` only if it was set. `NoWorkerOversleeps` rests on that order: a sleeping worker's flag is set, so
whoever has enqueued and not read it yet will signal, and with all enqueuers through nothing is queued there.

A woken fiber may take its mutex again, as the barrier and the consensus object do, or go straight on, as in the
promise that the header gives as its example; wakers then have no use for its handle any more. That is the
condition on wakers, and `StaleHandleFails` is the state in which one that kept the handle would fail the
assertion of `schedule_tid`. An event has one waiter. An object with several handles under one mutex, as the
barrier and the consensus object are, is one event for each handle: a section that goes through several handles
is then several sections, and the model has more interleavings than the code.

The other main results are `SingleOwnership` (each fiber in one place, and only on workers of the affinity set
it was launched with), `NoLostWakeup`, `AssertionsHold`, `WokenOncePerBlock`, and in `FiberOrder` the order in
which a worker runs its fibers: `RoundRobin` for those that yield, `LaunchJoins` and `WokenJoins` for those that
come in. `FiberScheduler` is the same code as an object that updates its queues and flags in place; each method,
run without interruption, is proved to be the model's steps.

**The barrier** (`FiberBarrier`). The sense-reversing barrier, for any number of fibers waiting any number of
times.

**Cached remote reads** (`BlockCache`, `ReadCaching`, with `Decimal` and `Memory`). A device that reads through
64 MB blocks kept in a write-once block cache. What the file system does (files that cannot be opened, streams
that break, short remote reads, handles dropped from the bounded set) are parameters, so the contracts hold for
every such behaviour. `Read` either throws or gives the file's bytes. `CloseWritten` evicts the run of cached
blocks from 0 and clears the file exactly when the cached blocks have no gap and can all be deleted. Then a
device opened on the rewritten file reads the new bytes only: `RewriteThenRead`. `OldBlockSurvives` is the other
case: a reader that went straight to a later block, a rewrite, and a new device that reads the old byte. A
stored block goes on serving reads without the remote file as long as no stream breaks: `ReadTwice`.

**The in-memory cache** (`CacheManager`, `CacheStreams`). Blocks live in memory under a global budget or in a
temporary file. Every operation keeps utilization equal to the sum of the capacities of the live blocks and
within the maximum (`BudgetIsLive`): a block that nothing points to any more has given back its memory and its
file. `WriteThenRead` follows a stream under a new or an overwritten name through any writes, allocation
failures, spills, evictions and other users, who open, write, read and remove streams of their own, and reads
back what was written. An overwritten name may still be held by others. The overwriting takes the memory or the
file from under a reader that is already open on it, which is why `CacheStreamSource.Read` asks for a source
that is `Current`. The one thing that cannot be read is a stream nothing was written to, under a name for which
there was no memory (`GetsMemory`, which looks at the manager before the first call): reading it goes through a
null stream pointer. `WriteThenRead` says that this happens exactly then, and `NullStreamHappens` is a run of
that kind.

**Deferred deletion** (`FileHandlePool`). Files in use are deleted when their last user lets go, if marked by
then; cache files are marked from the start.

**Replication** (`QueryObject`, `Replication`). A master publishes each change under the version before it; a
replica buffers, installs a snapshot, plays the buffer back and follows. The object is deterministic, and an
update that reports no change has made none (`Honest`), since the master publishes only reported changes.
`PublishesWhatChanged` says what a master publishes: exactly the updates that reported a change, numbered.
`PrefixConsistency` holds if nothing older than the snapshot was still on its way when the snapshot was
installed. Otherwise `subscribe_callback` applies those late messages a second time, since it only prints a
message when the version is not the expected one: `LateMessagesCountTwice` says the replica is then ahead for
good by exactly their number, so with updates that always report a change the replica meets the master again if
and only if it had caught up, and `LateMessageHappens` is the shortest run of that kind. The buffer is filtered
by version; the path for messages that come later is not.

**Paths** (`Paths`). Making a path relative to a directory and absolute again, with both exact conditions: the
relative text leads back to the path unless the path is the root with one closing slash more, and the round trip
gives the original text unless the root closes with a second `://`. A path of another protocol, or with no
element in common, is left alone, and comes back if and only if it says itself where it starts (`ForeignPath`).

**Two cxxtest routines** (`Primes`, `FactorText`, `Factorisation`, `LastPrime`, `NumberPrinting`). Prime
factorisation of the test count in 32-bit unsigned arithmetic: although `factor * factor` wraps around for
factors above 65535, the loop ends and the answer is right for every 32-bit number. A prime gets a smiley if and
only if it is not 4294967291, the last one below 2^32: no square of an odd number is above 2^32 - 7 after
wrapping around, so only that prime, 2^32 - 5, lets the loop run on until it finds the prime itself. `LastPrime`
proves it a prime. `FactorText` reads the text of a factorisation back, exponents included, and finds the
factors. Number printing: the leading power of ten never overflows the number type, and three digits a byte are
enough.

Interleaved parts are state machines: an `Action` datatype, an `Enabled` guard and a `Step` function whose cases
follow the code's critical sections and unlocked reads; `Reachable` is any finite run from the constructor's
state. Where the code is one object's methods, there is a class.

## Model

| member | source | states |
|---|---|---|
| Consensus.OthersAreAllButMe | oss_src/fiber/fiber_async_consensus.cpp:229-233 | completion is broadcast to every machine but the one that completes |
| Consensus.WakeAllAccounted | oss_src/fiber/fiber_async_consensus.cpp:164-179 | the waking loop leaves every fiber active, none flagged and all else alone, and active plus sleeping stays the number of fibers |
| Consensus.WakeOneAccounted | oss_src/fiber/fiber_async_consensus.cpp:184-202 | waking one fiber clears its flag alone, keeps active plus sleeping equal to the number of fibers and leaves the machine active |
| Consensus.FallAsleepAccounted | oss_src/fiber/fiber_async_consensus.cpp:107-121 | a fiber falling asleep is counted out exactly once, even when its token completes and wakes the others in between |
| Consensus.FiberAsyncConsensus.constructor | oss_src/fiber/fiber_async_consensus.cpp:35-52 | the fresh state: all fibers active, token at machine 0, last change at the last machine, nobody inside a critical section, no handles |
| Consensus.FiberAsyncConsensus.Reset | oss_src/fiber/fiber_async_consensus.cpp:54-66 | reset gives the constructor's state again, but for the handles, which stay |
| Consensus.FiberAsyncConsensus.WakeLoop | oss_src/fiber/fiber_async_consensus.cpp:164-179 | the loop computes WakeAll and schedules exactly the sleeping fibers that wait |
| Consensus.FiberAsyncConsensus.CancelOne | oss_src/fiber/fiber_async_consensus.cpp:186-200 | the locked section computes WakeOne and schedules the fiber if it waits |
| Consensus.FiberAsyncConsensus.PassTheToken | oss_src/fiber/fiber_async_consensus.cpp:217-290 | completion or a folded token to the next machine, new state and message; completion schedules exactly the waiters |
| Consensus.FiberAsyncConsensus.ReceiveTheToken | oss_src/fiber/fiber_async_consensus.cpp:204-215 | the token is kept while fibers are active and passed on at once otherwise |
| Consensus.FiberAsyncConsensus.LookAndCancel | oss_src/fiber/fiber_async_consensus.cpp:80-91 | a fiber that begins its section and cancels it leaves everything as it was |
| Consensus.FiberAsyncConsensus.EndDoneCriticalSection | oss_src/fiber/fiber_async_consensus.cpp:93-121 | if done, the fiber is out of the section again and quits, else it is counted out, the token handled and the fiber flagged, keeping the count |
| ConsensusSteps.TokenReceivedAtOnce | oss_src/fiber/fiber_async_consensus.cpp:204-290 | a TakeToken step and the pass it begins, with nothing in between, are receive_the_token of the class |
| ConsensusSteps.AsleepAtOnce | oss_src/fiber/fiber_async_consensus.cpp:93-121 | an EndDone step and the pass it begins, with nothing in between, are end_done_critical_section of the class |
| TerminationTheorems.TokenAccounting | oss_src/fiber/fiber_async_consensus.cpp:93-290 | one token, held or in flight; its totals are the sums of what the machines folded in; numactive plus sleeping flags is ncpus whenever the mutex is free |
| TerminationTheorems.DoneMeansCompleted | oss_src/fiber/fiber_async_consensus.cpp:73-78 | no machine says done before the completion branch has run on some machine |
| TerminationTheorems.InvStep | oss_src/fiber/fiber_async_consensus.cpp:73-290 | every step of every machine keeps the protocol's invariant |
| TerminationTheorems.StillAtCompletion | oss_src/fiber/fiber_async_consensus.cpp:222-236 | when a vouched machine completes, nothing is in flight and no other machine is active |
| TerminationTheorems.QuiescentAtCompletion | oss_src/fiber/fiber_async_consensus.cpp:222-251 | after a vouched completion no fiber anywhere can produce work |
| TerminationTheorems.QuiescentForever | oss_src/fiber/fiber_async_consensus.cpp:73-290 | termination is permanent: sleepers waking, force_done and the token undo nothing |
| TerminationTheorems.CompletionIsSafe | oss_src/fiber/fiber_async_consensus.cpp:204-290 | in every run, a completion by a vouched machine means the cluster has terminated and stays so |
| TerminationProgress.OnlyTheTokenMoves | oss_src/fiber/fiber_async_consensus.cpp:204-290 | in a terminated cluster nothing but the token moves until completion |
| TerminationProgress.TokenNeverStuck | oss_src/fiber/fiber_async_consensus.cpp:117-120 | in a terminated cluster the token can always move |
| TerminationProgress.FuelBound | oss_src/fiber/fiber_async_consensus.cpp:217-288 | each visit of the token uses up one unit of a measure, so completion comes in time |
| TerminationProgress.CompletionWithinTwoRounds | oss_src/fiber/fiber_async_consensus.cpp:217-288 | from every reachable terminated state with no overtaken pass, completion within 2n visits and 4n - 1 steps |
| TerminationProgress.CompletionWithinOneMore | oss_src/fiber/fiber_async_consensus.cpp:255-289 | from every reachable terminated state, completion within 2n + 1 visits and 4n steps |
| SlowestRun.BoundsAreReached | oss_src/fiber/fiber_async_consensus.cpp:255-289 | for every n above 1 a terminated state and a run from it for which one visit or one step less is not enough |
| FirstLap.FirstLapCanFail | oss_src/fiber/fiber_async_consensus.cpp:49-51 | for every cluster size a run whose first completion leaves a call in flight |
| FirstLap.FirstLapCanSucceed | oss_src/fiber/fiber_async_consensus.cpp:217-252 | for every cluster size a run whose first completion is vouched for, and safe |
| LocalTests.AloneIsExact | oss_src/fiber/fiber_async_consensus.cpp:222-223 | in a cluster of one machine a completion is right if and only if the machine has received all it has sent |
| LocalTests.NoLocalTestIsExact | oss_src/fiber/fiber_async_consensus.cpp:222-223 | for every larger cluster two runs alike to the completing machine, one terminated and one not |
| WeakestTest.UnvouchedView | oss_src/fiber/fiber_async_consensus.cpp:217-223 | what a machine sees that completes without being vouched for: the last machine, on the first lap, with calls sent |
| WeakestTest.UnsafeTwin | oss_src/fiber/fiber_async_consensus.cpp:204-252 | for every such view, in every larger cluster, a run with that view and a call still waiting |
| WeakestTest.VouchedIsWeakest | oss_src/fiber/fiber_async_consensus.cpp:222-223 | in every larger cluster what the completing machine sees proves termination if and only if it is vouched for |
| ClusterWork.WorkKeeps | oss_src/fiber/fiber_async_consensus.cpp:73-290 | every insertion, every step of the protocol and every needless cancel keep: a sleeping fiber has seen all settled work |
| ClusterWork.CompletionSeesAllWork | oss_src/fiber/fiber_async_consensus.cpp:204-252 | at a vouched completion no work whose cancel has returned is left unseen on any machine |
| ClusterWork.WakeSettles | oss_src/fiber/fiber_async_consensus.cpp:145-202 | a cancel settles the insertion before it for the fibers it covers and for no other |
| CompletionSpreads.ToldStep | oss_src/fiber/fiber_async_consensus.cpp:73-290 | every step keeps: after completion each machine is done or still to be told, and no waiter is left flagged once told |
| CompletionSpreads.NobodyIsForgotten | oss_src/fiber/fiber_async_consensus.cpp:73-78 | after any completion every machine is done or has force_done on its way, and every waiter that has been told can go on and quits |
| CompletionSpreads.OneLess | oss_src/fiber/fiber_async_consensus.cpp:73-78 | after a vouched completion every step uses up one unit of what is left to do |
| CompletionSpreads.EveryMachineFinishes | oss_src/fiber/fiber_async_consensus.cpp:222-251 | after a vouched completion every run ends within 2(n - 1) steps and one for each fiber, and only with every machine done and every fiber gone |
| SleepHandshake.WakeFromWakes | oss_src/fiber/fiber_async_consensus.cpp:239-251 | completion's waking loop wakes every waiter and counts every cleared flag |
| SleepHandshake.NobodyInside | oss_src/fiber/fiber_async_consensus.cpp:80-91 | trying_to_sleep read as 0 means no fiber is between begin and the end of its critical section |
| SleepHandshake.InvStep | oss_src/fiber/fiber_async_consensus.cpp:73-202 | every memory access of fibers and cancellers keeps the invariant |
| SleepHandshake.NoLostWork | oss_src/fiber/fiber_async_consensus.cpp:80-202 | no fiber waits on a look at its queues older than an insertion whose cancel for it has returned |
| SleepHandshake.ReturnedMeansSeen | oss_src/fiber/fiber_async_consensus.cpp:145-202 | when a cancel returns, every covered fiber still waiting has seen the insertion |
| SleepHandshake.WaitersCanBeWoken | oss_src/fiber/fiber_async_consensus.cpp:121-138 | every waiter has its flag and handle where cancel looks, and numactive counts the rest |
| SleepHandshake.QuietCancel | oss_src/fiber/fiber_async_consensus.cpp:145-182 | with nobody inside and all fibers active, a cancel is two reads and touches nothing |
| SleepHandshake.CancelOneIsOne | oss_src/fiber/fiber_async_consensus.cpp:184-202 | cancel_one outside the section is one read, inside it wakes that one fiber alone |
| SleepHandshake.ForceDoneReleases | oss_src/fiber/fiber_async_consensus.cpp:73-78 | once a force_done has returned no fiber waits, then or later |
| FiberControl.RemoveLine | oss_src/fiber/fiber_control.cpp:151-188 | a worker takes the first of its line: priority fibers first, each queue in arrival order |
| FiberControl.EnqueueLine | oss_src/fiber/fiber_control.cpp:122-149 | an ordinary fiber joins the end of the line, a priority fiber goes before the affinity queue |
| FiberControlProof.InvStep | oss_src/fiber/fiber_control.cpp:122-528 | every step of workers, fibers and wakers keeps the scheduler's invariant |
| FiberControlTheorems.StepAffinity | oss_src/fiber/fiber_control.cpp:278-298 | a launch adds a fiber with the affinity asked for, and no step changes any fiber's |
| FiberControlTheorems.SingleOwnership | oss_src/fiber/fiber_control.cpp:278-435 | each live fiber is in exactly one place, queued at most once, and only on workers of the affinity set given at its launch |
| FiberControlTheorems.NeverOnTwoWorkers | oss_src/fiber/fiber_control.cpp:338-398 | no fiber runs on two workers |
| FiberControlTheorems.AssertionsHold | oss_src/fiber/fiber_control.cpp:473-528 | the assertions of schedule_tid and deschedule_self hold, and reschedule_fiber always finds a fiber it can enqueue |
| FiberControlTheorems.NoLostWakeup | oss_src/fiber/fiber_control.hpp:368-401 | with the condition set and the mutex free, the fiber that left its handle is not blocked, whether woken fibers take the mutex again or go straight on |
| FiberControlTheorems.BlockedCanBeFound | oss_src/fiber/fiber_control.cpp:400-435 | a blocked fiber's handle is where a waker looks; its mutex is held until it is off the CPU |
| FiberControlTheorems.WokenOncePerBlock | oss_src/fiber/fiber_control.cpp:508-528 | each time a fiber blocks, wakers enqueue it exactly once |
| FiberControlTheorems.NoWorkerOversleeps | oss_src/fiber/fiber_control.cpp:122-251 | a worker asleep has nothing queued, or an enqueuer that will find its flag set or has found it and signals; the signal wakes it |
| FiberOrder.LoneYield | oss_src/fiber/fiber_control.cpp:338-386 | a yield with nothing queued changes nothing |
| FiberOrder.YieldTakesTurns | oss_src/fiber/fiber_control.cpp:338-446 | otherwise the first of the line gets the CPU and the fiber that yielded goes behind everyone |
| FiberOrder.RoundRobin | oss_src/fiber/fiber_control.cpp:437-446 | undisturbed yields go round all fibers of the worker, one after the other |
| FiberOrder.RotatedIs | oss_src/fiber/fiber_control.cpp:437-446 | so the i-th in line has the CPU after i yields, and after a full round all is as it was |
| FiberOrder.LaunchJoins | oss_src/fiber/fiber_control.cpp:314-319 | a launched fiber goes behind everyone at its worker |
| FiberOrder.WokenJoins | oss_src/fiber/fiber_control.cpp:508-528 | a woken fiber goes before the affinity queue if its waker says so, else behind everyone |
| StaleHandle.StaleHandleFails | oss_src/fiber/fiber_control.cpp:508-528 | a reachable state in which the fiber has gone on from one event and is leaving the CPU for another: schedule_tid on the old handle would fail its assertion |
| FiberScheduler.Scheduler.ActiveQueueInsertTail | oss_src/fiber/fiber_control.cpp:122-134 | a schedulable fiber joins the affinity queue, and a signal is due exactly if the worker's flag is set; any other fiber is ignored |
| FiberScheduler.Scheduler.ActiveQueueInsertHead | oss_src/fiber/fiber_control.cpp:137-149 | the same for the priority queue |
| FiberScheduler.Scheduler.SignalWorker | oss_src/fiber/fiber_control.cpp:129-131 | the signal under active_lock is the model's Signal: a sleeping worker goes for its lock |
| FiberScheduler.Scheduler.TryPopQueue | oss_src/fiber/fiber_control.cpp:151-172 | the first of the popped list, refilled from the queue when empty |
| FiberScheduler.Scheduler.ActiveQueueRemove | oss_src/fiber/fiber_control.cpp:174-188 | the fiber RemoveLine describes, priority queue first |
| FiberScheduler.Scheduler.PickFiberWorker | oss_src/fiber/fiber_control.cpp:321-336 | the caller's own worker if the affinity allows it, else the one drawn from it |
| FiberScheduler.Scheduler.LaunchFiber | oss_src/fiber/fiber_control.cpp:278-319 | one fiber more, with the affinity asked for, at the end of the line of a worker in it; the others as they were |
| FiberScheduler.Scheduler.ReturnToRoot | oss_src/fiber/fiber_control.cpp:226-227 | the flag goes up, then the lock is taken |
| FiberScheduler.Scheduler.RootLoopTurn | oss_src/fiber/fiber_control.cpp:228-251 | a fiber to run, the lock released and then the flag lowered, or sleep exactly when nothing is queued |
| FiberScheduler.Scheduler.Yield | oss_src/fiber/fiber_control.cpp:437-446 | the next fiber is taken off the queues before the switch |
| FiberScheduler.Scheduler.SwitchTo | oss_src/fiber/fiber_control.cpp:338-386 | yield_to up to the switch: current becomes previous, the next current, or back to the root when terminated or descheduled |
| FiberScheduler.Scheduler.RescheduleFiber | oss_src/fiber/fiber_control.cpp:400-435 | a fiber that goes on is queued, one that has descheduled itself is taken off and its mutex released, a dead one is gone |
| FiberScheduler.Scheduler.AfterSwitch | oss_src/fiber/fiber_control.cpp:387-435 | reschedule_fiber on the fiber just left is the model's Settle and, if it goes on, Requeue |
| FiberScheduler.Scheduler.DescheduleCurrent | oss_src/fiber/fiber_control.cpp:473-483 | the current fiber is flagged descheduled, its mutex left for the worker to release |
| FiberScheduler.Scheduler.WakeWaiter | oss_src/fiber/fiber_control.cpp:508-528 | schedule_tid with either priority is the model's ScheduleTid and, for a blocked fiber, one EnqueueWoken with its look at the flag |
| FiberBarrier.FiberBarrier.constructor | oss_src/fiber/fiber_barrier.hpp:35-42 | nobody has called, sense and release differ |
| FiberBarrier.FiberBarrier.EnterWait | oss_src/fiber/fiber_barrier.hpp:52-76 | the first critical section of wait: place taken, round closed by the last, everyone before it scheduled |
| FiberBarrier.CloseKeeps | oss_src/fiber/fiber_barrier.hpp:57-68 | closing a round schedules every other fiber and keeps the round invariant |
| FiberBarrier.NobodyLeavesEarly | oss_src/fiber/fiber_barrier.hpp:49-77 | no fiber leaves its k-th wait before all have entered their k-th; rounds differ by at most one |
| FiberBarrier.ClosedRoundIsWoken | oss_src/fiber/fiber_barrier.hpp:64-68 | a fiber asleep waits for one that has not entered that round: all waiters of closed rounds have been woken |
| FiberBarrier.WokenFiberLeaves | oss_src/fiber/fiber_barrier.hpp:69-75 | a scheduled fiber leaves when it gets the mutex, although the next round may be filling |
| FiberBarrier.NeverStuck | oss_src/fiber/fiber_barrier.hpp:54-57 | the handle index is always in range and some fiber can always move on |
| BlockCache.BlockCache.Write | oss_src/fileio/block_cache.cpp:31-62 | write-once: fails on an existing key, a broken write leaves a prefix |
| BlockCache.BlockCache.Read | oss_src/fileio/block_cache.cpp:95-167 | the whole range asked for or -1, and what is left for the next read: a good stream after a success, none or a bad one after a failure, no other stream touched but those dropped |
| BlockCache.BlockCache.EvictKey | oss_src/fileio/block_cache.cpp:169-181 | the block goes if it is there and can be deleted, and true says so; its stream and its record go in any case |
| Decimal.ValueOfString | cxxtest/cxxtest/ValueTraits.h:171-184 | reading decimal digits back gives the number |
| ReadCaching.KeysDistinct | oss_src/fileio/read_caching_device.hpp:188-191 | different files or blocks never share a key, whatever characters the names hold |
| ReadCaching.ReadCachingDevice.constructor | oss_src/fileio/read_caching_device.hpp:49-68 | a reader remembers the file's size, a writer does not; with the right sizes remembered the reader has the file's size, and is Valid if the cache agrees with the files |
| ReadCaching.ReadCachingDevice.FetchCached | oss_src/fileio/read_caching_device.hpp:196-202 | a part of a stored block, with a good stream left; the file's bytes if the cache agrees with it |
| ReadCaching.ReadCachingDevice.FetchRemote | oss_src/fileio/read_caching_device.hpp:204-228 | fails exactly if the remote file falls short, else gives its bytes and stores the block if it can |
| ReadCaching.ReadCachingDevice.FetchBlock | oss_src/fileio/read_caching_device.hpp:196-229 | stored bytes if the cache can serve them, whatever they are, else the remote file's, stored now; the file's bytes in every case if the cache agrees with it |
| ReadCaching.ReadCachingDevice.FetchNext | oss_src/fileio/read_caching_device.hpp:107-121 | one turn of the loop stays inside one block and makes progress |
| ReadCaching.ReadCachingDevice.Read | oss_src/fileio/read_caching_device.hpp:100-126 | throws only if the remote file falls short, else exactly bytes pos to min(pos + n, size), position advanced by that count |
| ReadCaching.ReadTwice | oss_src/fileio/read_caching_device.hpp:100-126 | two reads of a stored block are both served from it, whatever the remote file delivers, if no stream breaks |
| ReadCaching.ReadCachingDevice.Seek | oss_src/fileio/read_caching_device.hpp:139-155 | the position for each of the three directions; it stays in the file if and only if it is not a negative offset from the start |
| ReadCaching.ReadCachingDevice.EvictRun | oss_src/fileio/read_caching_device.hpp:78-86 | the loop ends and evicts exactly the run of blocks from 0 up to the first that is missing or cannot be deleted |
| ReadCaching.ReadCachingDevice.CloseWritten | oss_src/fileio/read_caching_device.hpp:73-95 | the size is forgotten too; no block of the file is left exactly if the cached blocks had no gap and each could be deleted |
| ReadCaching.EvictionIsExact | oss_src/fileio/read_caching_device.hpp:78-86 | evicting the run from 0 clears the file if and only if there is no gap and nothing fails |
| ReadCaching.RewriteIsClean | oss_src/fileio/read_caching_device.hpp:73-95 | with no block left, the cache agrees with the rewritten file, whatever it holds |
| ReadCaching.RewriteThenRead | oss_src/fileio/read_caching_device.hpp:73-126 | closed after a rewrite, opened again and read anywhere: no old byte comes back, if the cached blocks had no gap and could be deleted |
| ReadCaching.OldBlockSurvives | oss_src/fileio/read_caching_device.hpp:73-95 | a reader caches one block after the first, the file is rewritten and closed, and a newly opened device reads the old byte, for any file and any position past the first block |
| CacheManager.CacheBlock.ExtendCapacity | oss_src/fileio/fixed_size_cache_manager.cpp:32-67 | grows exactly when in memory, within its maximum, the budget and the allocator; doubled if it may, else to just what is asked; the budget is kept |
| CacheManager.CacheBlock.WriteBytesToMemoryCache | oss_src/fileio/fixed_size_cache_manager.hpp:106-118 | appends all bytes or none, exactly when there is room |
| CacheManager.CacheBlock.WriteToFile | oss_src/fileio/fixed_size_cache_manager.cpp:70-78 | the bytes move to a new file, the memory is given back, no other block changes |
| CacheManager.CacheBlock.Clear | oss_src/fileio/fixed_size_cache_manager.cpp:105-121 | memory or file is given back, no other block loses its file |
| CacheManager.CacheBlock.InitializeMemory | oss_src/fileio/fixed_size_cache_manager.cpp:80-92 | empty, with the initial capacity its maximum allows |
| CacheManager.CacheManager.SetCapacity | oss_src/fileio/fixed_size_cache_manager.cpp:60-62 | capacity and utilization move together |
| CacheManager.CacheManager.ReleaseMemory | oss_src/fileio/fixed_size_cache_manager.cpp:94-103 | the block's capacity comes off the utilization |
| CacheManager.CacheManager.LargestEvictable | oss_src/fileio/fixed_size_cache_manager.cpp:225-238 | the largest block in memory nobody holds, or none exactly if there is none |
| CacheManager.CacheManager.TryCacheEvict | oss_src/fileio/fixed_size_cache_manager.cpp:222-246 | that block is spilled; no block stands for other bytes, and none that is open is touched |
| CacheManager.CacheManager.MakeRoom | oss_src/fileio/fixed_size_cache_manager.cpp:159-160 | evicts only when the budget is used up, and then makes room if anything can be evicted |
| CacheManager.CacheManager.NewMaximum | oss_src/fileio/fixed_size_cache_manager.cpp:164-171 | a new entry's maximum is as large as what is left of the budget and the maximum for one file allow |
| CacheManager.CacheManager.CreateBlock | oss_src/fileio/fixed_size_cache_manager.cpp:173-179 | a new block under the name with the maximum computed, the others kept |
| CacheManager.CacheManager.Overwrite | oss_src/fileio/fixed_size_cache_manager.cpp:183-192 | the block is emptied; in memory it keeps its maximum, from disk it gets the new one |
| CacheManager.CacheManager.NewCache | oss_src/fileio/fixed_size_cache_manager.cpp:156-194 | an empty held block under the name, with memory exactly if GetsMemory said so; every other block's bytes kept, budget kept |
| CacheManager.CacheManager.GetCache | oss_src/fileio/fixed_size_cache_manager.cpp:205-212 | the block of that name or out_of_range |
| CacheManager.CacheManager.Free | oss_src/fileio/fixed_size_cache_manager.cpp:196-203 | the name goes, with whatever block has it by then; the assertion fails exactly if there is none |
| CacheManager.CacheManager.Drop | oss_src/fileio/fixed_size_cache_manager.cpp:123-125 | the last pointer takes the block's memory or file with it, any other leaves it alone |
| CacheManager.CacheManager.BudgetIsLive | oss_src/fileio/fixed_size_cache_manager.cpp:94-125 | utilization is the sum of the capacities of the blocks something points to, within the maximum, and every block is within its own |
| CacheStreams.CacheStreamSink.constructor | oss_src/fileio/cache_stream_sink.cpp:13-21 | an empty held block without a file, with memory exactly if GetsMemory said so |
| CacheStreams.CacheStreamSink.Write | oss_src/fileio/cache_stream_sink.cpp:27-41 | the block's bytes grow by the chunk in every case; it switches to a file exactly when memory has no room |
| CacheStreams.CacheStreamSource.constructor | oss_src/fileio/cache_stream_source.cpp:18-33 | reads from memory or the file, wherever the block is when opened |
| CacheStreams.OpenSource | oss_src/fileio/cache_stream_source.cpp:18-22 | the block of that name with one holder more, or out_of_range; there is something to read exactly if the block has memory or a file |
| CacheStreams.CacheStreamSource.Read | oss_src/fileio/cache_stream_source.cpp:35-44 | the next bytes of the block; the null stream is read exactly for a block without memory and file |
| CacheStreams.Disturb | oss_src/fileio/fixed_size_cache_manager.cpp:156-246 | whatever streams others open, write, read, let go and remove under other names, a held block is untouched and any block keeps its bytes |
| CacheStreams.FillOther | oss_src/fileio/cache_stream_sink.cpp:13-41 | a whole stream written under another name and let go takes nothing from a block |
| CacheStreams.WriteAll | oss_src/fileio/cache_stream_sink.cpp:27-41 | after any writes with others acting in between the block holds the concatenation |
| CacheStreams.WriteThenRead | oss_src/fileio/cache_stream_source.cpp:18-44 | a new or overwritten name, held by others or not, written, let go, perhaps evicted, opened again: the bytes written come back, and the null stream exactly if nothing was written and the name got no memory |
| CacheStreams.NullStreamHappens | oss_src/fileio/cache_stream_source.cpp:35-44 | with a budget of 0, a stream not written to reads through the null stream |
| FileHandlePool.FileHandlePool.GetFileHandle | oss_src/fileio/file_handle_pool.cpp:100-111 | the live handle or none, expired entries dropped |
| FileHandlePool.FileHandlePool.RegisterFile | oss_src/fileio/file_handle_pool.cpp:25-61 | the one live handle with one more user, or a new one; after every 16384th call no expired entry is left |
| FileHandlePool.FileHandlePool.Sweep | oss_src/fileio/file_handle_pool.cpp:49-58 | exactly the expired entries go |
| FileHandlePool.FileHandlePool.MarkFileForDelete | oss_src/fileio/file_handle_pool.cpp:63-79 | marks the live handle, true exactly if the file is in use |
| FileHandlePool.FileHandlePool.UnmarkFileForDelete | oss_src/fileio/file_handle_pool.cpp:82-98 | unmarks it, true exactly if the file is in use |
| FileHandlePool.FileHandlePool.Release | oss_src/fileio/file_ownership_handle.hpp:61-78 | the last user deletes the file exactly if the latest flag says so; no file in use goes |
| FileHandlePool.FileHandlePool.UseOnce | oss_src/fileio/file_handle_pool.cpp:25-46 | a file registered and let go is deleted if its name starts with cache:// and stays if not |
| FileHandlePool.FileHandlePool.DeletePath | oss_src/fileio/fs_utils.cpp:271-291 | a regular file in use is marked and stays, anything else goes now |
| QueryObject.QueryObject.ProcessMessage | oss_src/fault/query_object.cpp:21-63 | only an update without the contents flag is applied; changed, and one version more, exactly if that update reported a change; the reply that goes with it |
| Replication.Master.ReplyCallback | oss_src/fault/query_object_server_master.cpp:50-87 | exactly an update that reports a change is published, under the version before it |
| Replication.Replica.HandOver | oss_src/fault/query_object_server_replica.cpp:74-77 | the snapshot with the buffer played back over it |
| Replication.Replica.PlaybackRecordedMessages | oss_src/fault/query_object_server_replica.cpp:127-139 | the loop computes Playback and empties the buffer |
| Replication.Replica.SubscribeCallback | oss_src/fault/query_object_server_replica.cpp:172-211 | buffers while waiting, else applies every message and only reports a wrong version |
| Replication.PlaybackSkips | oss_src/fault/query_object_server_replica.cpp:127-139 | whatever the overlap, playback skips what the snapshot has and applies the rest once |
| Replication.StepKeeps | oss_src/fault/query_object_server_replica.cpp:57-210 | every step of master and replica keeps the invariant |
| Replication.MasterIsTheFold | oss_src/fault/query_object_server_master.cpp:67-77 | the master is the fold of what it published, under versions 0, 1, 2 and so on |
| Replication.PublishesWhatChanged | oss_src/fault/query_object_server_master.cpp:50-87 | over any run the publications are the requests whose update reported a change, in order, numbered from 0; the master is the object after all updates |
| Replication.TakenWhen | oss_src/fault/query_object_server_replica.cpp:57-78 | the subscription starts at what was published by then, and the contents are the master's when served |
| Replication.PrefixConsistency | oss_src/fault/query_object_server_replica.cpp:57-78 | a replica that had caught up at the hand-over is at version v the fold of the first v changes, in every later state |
| Replication.CaughtUpBeforeInstall | oss_src/fault/query_object_server_replica.cpp:74-77 | whether it has caught up can be read off the buffer and the snapshot before installing |
| Replication.LateMessagesCountTwice | oss_src/fault/query_object_server_replica.cpp:176-201 | otherwise it is ahead by the late messages for good; equal again if and only if caught up; the message printed exactly then |
| Replication.LateMessageHappens | oss_src/fault/query_object_server_replica.cpp:172-201 | a run in which one update is applied twice |
| Paths.SplitJoin | oss_src/fileio/fs_utils.cpp:450-485 | splitting what was joined gives the elements back |
| Paths.JoinSplit | oss_src/fileio/fs_utils.cpp:450-485 | joining what was split gives the text back |
| Paths.FindProtocol | oss_src/fileio/fs_utils.cpp:386-402 | the first "://", if there is one |
| Paths.MakeRelativePath | oss_src/fileio/fs_utils.cpp:432-487 | the loops compute RelativePath |
| Paths.WalkRelativeElements | oss_src/fileio/fs_utils.cpp:461-484 | walking the relative elements from the root ends at the path's elements |
| Paths.RelativePathLeadsBack | oss_src/fileio/fs_utils.cpp:432-487 | the relative text leads back to the path's elements if and only if the path is not the root with one closing slash more |
| Paths.LoneSlash | oss_src/fileio/fs_utils.cpp:461-484 | the relative elements are a single empty one exactly for that path |
| Paths.RelativeIs | oss_src/fileio/fs_utils.cpp:432-487 | what lies below a directory is its own relative path |
| Paths.RoundTrip | oss_src/fileio/fs_utils.cpp:489-515 | made absolute again it is the original text if and only if the root has no second closing "://" |
| Paths.TwoProtocolsHappens | oss_src/fileio/fs_utils.cpp:432-515 | such a root and a path below it that does not come back |
| Paths.ProtocolsIgnoreCase | oss_src/fileio/fs_utils.cpp:386-393 | protocols agree if and only if they differ in the case of letters at most |
| Paths.ForeignPath | oss_src/fileio/fs_utils.cpp:432-515 | a path of another protocol or without a common element is its own relative path, and comes back if and only if it is empty or has a protocol or a leading slash |
| Primes.SmallestDivisor | cxxtest/cxxtest/Descriptions.cpp:45-67 | trial division up to the square root proves a prime |
| Primes.SkipEven | cxxtest/cxxtest/Descriptions.cpp:45-45 | skipping even candidates misses no divisor |
| Factorisation.WrappedExit | cxxtest/cxxtest/Descriptions.cpp:45-45 | no square near the end of the range wraps around to 0 or 1, so a finished loop stops |
| Factorisation.OddSquare | cxxtest/cxxtest/Descriptions.cpp:45-45 | a wrapped square of an odd factor is at most 2^32 - 7 |
| Factorisation.PastTurn | cxxtest/cxxtest/Descriptions.cpp:45-45 | a prime not yet stopped at factor 479772853 is 2^32 - 5 |
| Factorisation.Iteration | cxxtest/cxxtest/Descriptions.cpp:45-65 | every candidate keeps: increasing primes found so far, times what is left, is the total |
| Factorisation.DivideOut | cxxtest/cxxtest/Descriptions.cpp:47-52 | the inner loop takes the factor out as often as it goes |
| Factorisation.LoopEnd | cxxtest/cxxtest/Descriptions.cpp:67-77 | what is left is 1 or one larger prime |
| Factorisation.TrialDivision | cxxtest/cxxtest/Descriptions.cpp:42-65 | the outer loop ends for every 32-bit number although the square wraps around, and finds nothing exactly for primes other than 4294967291 |
| Factorisation.StrTotalTests | cxxtest/cxxtest/Descriptions.cpp:33-79 | the text is the number and, for a prime other than 4294967291, the smiley of the mood, for any other number a text that reads back as its prime factorisation |
| FactorText.ReadsBack | cxxtest/cxxtest/Descriptions.cpp:55-77 | a strict reader of " = p^a * q" finds the factors and exponents that were written |
| FactorText.SmileyIsNoFactor | cxxtest/cxxtest/Descriptions.cpp:69-77 | smiley and factorisation are never the same text |
| LastPrime.LastPrimeIsPrime | cxxtest/cxxtest/Descriptions.cpp:45-65 | 4294967291 is a prime |
| LastPrime.PrimeWithoutSmiley | cxxtest/cxxtest/Descriptions.cpp:33-79 | so there is a prime that is printed as its own factor and gets no smiley |
| NumberPrinting.DigitsAreToString | cxxtest/cxxtest/ValueTraits.h:159-188 | digits without a superfluous zero are the only decimal notation of their value |
| NumberPrinting.BytesToDigits | cxxtest/cxxtest/ValueTraits.h:302-309 | a k-byte number is below 10 to the 3k |
| NumberPrinting.FirstDigit | cxxtest/cxxtest/ValueTraits.h:171-175 | the leading power of ten, computed without overflow in the number's own type |
| NumberPrinting.WriteNext | cxxtest/cxxtest/ValueTraits.h:177-185 | one turn of the loop writes the next digit of the notation and leaves the rest |
| NumberPrinting.NumberToString | cxxtest/cxxtest/ValueTraits.h:159-188 | the number's decimal notation and a terminator, at most three digits a byte, nothing else written |

## Left out

- TerminationTheorems.CompletionIsSafe: the counters are unbounded numbers; 64-bit wrap-around is not modelled, and calls_sent() and calls_received(), sums over machines in the code, are each read as one value.
- TerminationTheorems.TokenAccounting: every machine has at least one fiber in the critical sections, as the constructor's argument asks for.
- Consensus.FiberAsyncConsensus.EndDoneCriticalSection: stops before the waiting loop, which SleepHandshake models; set_nfibers, which does not resize the vectors, is not modelled.
- FiberControlTheorems.SingleOwnership: stated of the interleaved steps, which are on values; the class has the methods of one worker or waker at a time, with fibers as numbers instead of pointers. join, exit callbacks, worker shutdown and thread-local storage are left out.
- FiberControlTheorems.NoLostWakeup: for fibers and wakers that follow the documented mutex protocol, one waiter for each event; a waker does not use a handle once its fiber has gone on.
- SleepHandshake.NoLostWork: stated of steps on values, since the guards are read between other fibers' writes; the locked sections are in the class of Consensus.
- FiberScheduler.Scheduler.RootLoopTurn: the count of active workers, the periodic callback and the stopping of workers are left out.
- FiberControlTheorems.NoWorkerOversleeps: memory accesses take effect one at a time, in program order.
- ClusterWork.CompletionSeesAllWork: a look and the sleep that follows are one step here, under the mutex, and see all that has settled; SleepHandshake takes them apart.
- FiberBarrier.NobodyLeavesEarly: for exactly as many fibers as the barrier needs; resize_unsafe is not modelled, and nothing clears `alive`.
- ReadCaching.ReadCachingDevice.Read: write and block sizes other than the built-in one are not modelled; m_file_size is the size remembered when the file was opened.
- BlockCache.BlockCache.Read: keys name files directly; the md5 file names, the locks by hash and the hit and miss counters are left out, and so are value_length, the default end of a read and an end before the start, which the reading device does not use.
- BlockCache.BlockCache.EvictKey: delete_path also answers true for a file that the handle pool only marks and keeps; block files belong to the cache alone and are not registered there, so that case is not modelled.
- CacheManager.CacheManager.NewCache: operations come one at a time; the overcommit the header admits under races is not modelled.
- CacheManager.CacheBlock.InitializeMemory: a failing malloc, which throws bad_alloc, is not modelled.
- CacheStreams.CacheStreamSink.Write: one writer for a block at a time, and writes to files reach the disk at once; gzip and stream status flags are left out.
- CacheStreams.Disturb: others write a whole stream in one go, and do not come back to one they keep.
- CacheStreams.CacheStreamSource.Read: while nobody writes to the block; seek is left out.
- FileHandlePool.FileHandlePool.Release: a deletion that fails in the file system, and delete_path_recursive, which removes the path even after marking it, are left out.
- Replication.PrefixConsistency: publications arrive in order and none is lost after the subscription; the hand-over is one step; the object is deterministic and Honest. Election, process management and the sockets are left out.
- QueryObject.QueryObject.ProcessMessage: the text of replies to queries and updates belongs to the object and is left out; versions do not wrap around.
- Paths.RoundTrip: convert_to_generic is the identity, as it is where paths use slashes.
- NumberPrinting.NumberToString: unsigned types in base 10 with the default skipDigits and maxDigits; signed numbers are left out.
- buffered_writer, fiber_group, fiber_conditional and the file download cache would only repeat these properties.
