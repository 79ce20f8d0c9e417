# Phantom's concurrent engine

A Dafny model of the parts of Phantom that are hard to get right by testing: the worker pool and its
execution windows, the transfer of control between Shadow and the shim in a managed process, the token
buckets and queuing disciplines of a network interface, futex wakeups, and the emulated clocks.
`dafny verify dfyconfig.toml` checks everything.

Concurrent code is modelled as a state machine with one step per access to shared state, any number of
threads and every interleaving. Beside each machine stands a class with the fields of the C or Rust
structure; its methods update them in place and are proved to be the machine's steps, so what every run of
the machine keeps holds of the object. IpcBlock.dfy and IpcDeath.dfy combine or restrict the machines of
objects that stand elsewhere.

What a machine computes is stated of the schedule that drove it: the answers, messages, queued events,
reports and blocks of every run are functions of its actions, written without a look at the machine's state.

| file | what it models |
|---|---|
| ShadowSem.dfy, SemaphoreCalls.dfy | the futex semaphore with its waiter count, and the bounded spin before it; what each call does by the time it returns |
| WorkerPool.dfy, WorkerPoolSteps.dfy, WorkerPoolRuns.dfy, WorkerPoolSchedule.dfy, WorkerPoolObject.dfy | W workers that share L logical processors through ready and done queues; state and steps, what each step keeps, what every run keeps, what the schedule decides, and the object |
| Rounds.dfy, RoundSchedule.dfy | whole simulations in conservative rounds over per-host event queues, and the conservation of their events |
| Controller.dfy | the choice of windows and the round loop in 64-bit arithmetic |
| Ipc.dfy, IpcSchedule.dfy, IpcObject.dfy | the two-party protocol over one IPC block as a machine, as a function of its inputs, and as objects |
| IpcBlock.dfy | the same block with its two real semaphores, down to their atomic accesses |
| IpcDeath.dfy | what becomes of Shadow when the plugin dies |
| ThreadStart.dfy, ThreadSchedule.dfy | the start of threads under a spin lock, with a handshake by semaphore, and the blocks they use |
| Buckets.dfy | token buckets: bandwidth, and lazy refills against eager ones |
| PriorityQueue.dfy | the binary heap of the FIFO queue, whose keys may change while it holds them |
| SocketQueues.dfy | round robin and FIFO over the output buffers of sockets |
| NetworkInterface.dfy | the interface that uses both, its loops, and whole runs of it |
| Futex.dfy, FutexSchedule.dfy | listeners, conditions of blocked system calls, signal tasks, and the wake loop; timers and the order in which threads are continued |
| Composition.dfy | the posts of the IPC block, the pool's minimum as the start of the next round, and the controller that starts it |
| Clocks.dfy | the timestamp counter and the time calls that the shim answers |

Some claims are false of the code as they are usually made, and are stated with the exact condition under
which they hold:

- A semaphore loses no wake-up: exactly if its callers keep the value at 1 or below, or at most two threads
  use it (NoLostWakeupExactly). The programs of an IPC block are such callers (BlockRefinesProtocol).
- A thread start completes: exactly if the native clone did not fail; otherwise the parent waits for ever
  and holds the start lock (CompletesExactly), and any thread can get there (FailureIsReachable).
- When the plugin dies Shadow can clean up: exactly if it does not wait for the answer to a request, where an
  assertion fails; in builds without assertions also if that answer has been posted, or the call can block
  without a message (CleanupPossibleExactly; at any later time, CleanupLostExactly). It is certain to stay
  possible exactly if Shadow waits for an event, has yet to start the thread, or lets it exit
  (CleanupCertainExactly). StopIsDropped is the run in which the STOP is read and dropped
  (thread_preload.c:271): a stop of the process still cleans up, but once the thread is resumed Shadow waits
  for ever.
- The FIFO discipline pops a least head packet: exactly if no control packet overtakes in a socket that is
  queued already, or there are not two sockets (FifoPopsLeastExactly; for one packet, OfferKeepsLeastExactly).
- A host executes its events in order: exactly if the 64-bit sum of the time and the delay of its own next
  event does not wrap around (WrapBreaksOrder).
- A status filter fires when a monitored bit rises or falls: exactly for listeners of at most one bit
  (FilterMeansExactly).
- The emulated counter is monotone: exactly while the cycles fit in 64 bits (MonotoneExactly).

Where code and comment disagree the model follows the code: packets to the own address are charged to the
send bucket (network_interface.c:616-621) although the comment at 601-602 says that they use no bandwidth.

Assumptions about code that is not modelled: the latch is a counter, a host's event queue pops a least
event, atomics are sequentially consistent, every path delay is a parameter, and a socket's packets change
only by the operations shown. A pending refill task runs at the time it was scheduled for: while the CPU of a
host is blocked its events are put off (event.c:70-82), so a refill can then run off the grid, and the
comparison with buckets that tick on it (LazyRefinesEager, NetworkInterface.Run) is for hosts without CPU
delays.

## Model

| member | source | states |
|---|---|---|
| ShadowSemaphore.NoLostWakeupExactly | phantom/src/lib/shim/shadow_sem.c:53-149 | No schedule of these threads loses a wake-up if and only if the callers keep the value at 1 or below, or there are at most two threads; for any number of threads, spurious exchange failures and early ends of a sleep included |
| ShadowSemaphore.TwoPostsLose | phantom/src/lib/shim/shadow_sem.c:71-79 | With two sleepers and two overlapping posts a token stays unused while a thread sleeps on: the reachable state that shows it |
| ShadowSemaphore.EveryRun | phantom/src/lib/shim/shadow_sem.c:53-149 | In every run the waiter count is the number of threads between their add and their subtract, every unit raised is still there or was taken once, nobody spins beyond its bound, a thread panics exactly if a sleep of its BinarySpinningSem::wait ended with an error or its BinarySpinningSem::post found the greatest value, and under the binary discipline somebody always owes the sleepers a wake-up |
| ShadowSemaphore.TokenIsTaken | phantom/src/lib/shim/shadow_sem.c:53-149 | Under the discipline that loses no wake-up, whenever the value is positive while a thread sleeps, at most five steps of one thread that is up and of the sleeper it wakes take a token |
| SemaphoreCalls.WhatCallsDo | phantom/src/lib/shim/binary_spinning_sem.cc:19-39 | Whatever other threads do, a post of BinarySpinningSem that has returned raised the value by exactly one and a wait lowered it by exactly one; plain calls did so or returned an error and changed nothing; a trywait never blocks, and a spinning wait only after as many attempts as its bound |
| SemaphoreCalls.FailsExactly | phantom/src/lib/shim/shadow_sem.c:93-109 | A trywait fails exactly if its thread last saw the value 0, a post exactly if it saw the greatest |
| ShadowSemaphore.NotLostStep | phantom/src/lib/shim/binary_spinning_sem.h:38-45 | Under the documented binary discipline no step turns a state without a lost wake-up into one with |
| ShadowSemaphore.PairStep | phantom/src/lib/shim/shadow_sem.c:53-149 | With two threads and any value, whenever the value is positive and one sleeps the other still owes it the wake-up |
| ShadowSemaphore.InvStep | phantom/src/lib/shim/shadow_sem.c:53-149 | Every step of every thread keeps the exact waiter count and the conservation of units |
| ShadowSemaphore.SpinStep | phantom/src/lib/shim/binary_spinning_sem.cc:26-37 | No step of another thread changes whether a thread panics or how long it may spin |
| ShadowSemaphore.Semaphore.ExchangeWeak | phantom/src/lib/shim/shadow_sem.c:62-70 | A weak exchange changes the value only if it saw the expected one and did not fail spuriously; a failure hands back the current value |
| ShadowSemaphore.Semaphore.Post | phantom/src/lib/shim/shadow_sem.c:53-91 | Each atomic access of a post is the step of the machine: raise, read of the waiter count only after a raise from 0, wake of one sleeper |
| ShadowSemaphore.Semaphore.TryWait | phantom/src/lib/shim/binary_spinning_sem.cc:26-37 | Each atomic access of a trywait, alone or in the bounded spin, is the step of the machine |
| ShadowSemaphore.Semaphore.TimedWait | phantom/src/lib/shim/shadow_sem.c:111-149 | Each atomic access of the blocking wait is the step of the machine: add, futex call, subtract, reload |
| ShadowSemaphore.Semaphore.Run | phantom/src/lib/shim/shadow_sem.c:53-149 | The object driven along any schedule stays in a reachable state and never loses a wake-up under the binary discipline |
| WorkerPoolRuns.PoolSafety | phantom/src/main/core/worker.c:203-232 | In every interleaving each worker is in exactly one place (one ready queue, one done queue, popped, posted, running), at most one agent acts for a processor, and a processor without a holder means that no ready worker is left anywhere |
| WorkerPoolRuns.OnePlace | phantom/src/main/core/worker.c:431-457 | Occurrences in the queues, carriers, the begin semaphore and running sum to one for every worker |
| WorkerPoolRuns.TaskComplete | phantom/src/main/core/worker.c:292-303 | When the latch opens every worker has run every task started so far exactly once, all ready queues are empty, and the swap makes every worker ready again, once |
| WorkerPoolRuns.GlobalMinimum | phantom/src/main/core/worker.c:332-363 | The unlocked compare and store loses no report: the least of the per-processor minima is the least time reported since the last collection that was not before the end of its round |
| WorkerPoolRuns.LeastToldIsLeast | phantom/src/main/core/worker.c:332-348 | That least reported time is a lower bound of all such reports and is one of them, or SIMTIME_MAX if there is none |
| WorkerPoolRuns.PoolProgress | phantom/src/main/core/worker.c:446-456 | In every reachable state of a task some continuation opens the latch, and unless it is open some one or two steps use up budget |
| WorkerPoolRuns.PoolAdvances | phantom/src/main/core/worker.c:446-456 | A step that uses up budget is possible, or the store of a reporting worker after which one is |
| WorkerPoolRuns.TaskCanFinish | phantom/src/main/core/worker.c:431-457 | From any state of a task some continuation opens the latch |
| WorkerPoolRuns.BudgetShrinks | phantom/src/main/core/worker.c:431-457 | Every step of a task other than a report uses up some of a budget on ready, posted and running workers |
| WorkerPoolRuns.TaskEnds | phantom/src/main/core/worker.c:431-457 | However the threads are scheduled a task takes at most that budget of steps besides its reports |
| WorkerPoolSchedule.ScheduleDecides | phantom/src/main/core/worker.c:203-457 | The end of the round and the order to exit are those of the task started last, the minimum is the least of exactly the reports that were made, and at the open latch every worker has begun as many tasks as were started and waits, or has exited if told to |
| WorkerPoolSchedule.WorkersStayHome | phantom/src/main/core/worker.c:431-457 | A worker that waits in a queue waits in that of the processor that it ran on last |
| WorkerPoolSteps.StepInv | phantom/src/main/core/worker.c:203-457 | Every step of main and workers keeps all invariants of the pool, the queue scan being one step per queue |
| WorkerPoolSteps.GiveUpWork | phantom/src/main/core/logical_processor.rs:43-54 | A processor that finishes its scan empty-handed goes idle only when every ready queue is empty, although the scan is not atomic |
| WorkerPoolSteps.StoreMinima | phantom/src/main/core/worker.c:357-362 | A store after a possibly stale read still leaves the minimum of all reports |
| WorkerPoolRuns.DealtToOne | phantom/src/main/core/worker.c:176-180 | The initial deal puts every worker into exactly one ready queue, that of its processor |
| WorkerPoolObject.LogicalProcessors.ReadyPush | phantom/src/main/core/logical_processor.rs:37-41 | The worker is appended to the ready queue of its processor and nothing else changes |
| WorkerPoolObject.LogicalProcessors.DonePush | phantom/src/main/core/logical_processor.rs:58-60 | The worker is appended to the done queue of its processor and nothing else changes |
| WorkerPoolObject.LogicalProcessors.PopWorkerToRunOn | phantom/src/main/core/logical_processor.rs:43-54 | Undisturbed, the scan takes the oldest worker of the first nonempty queue going round from its own, and finds none exactly if all queues are empty |
| WorkerPoolObject.LogicalProcessors.FinishTask | phantom/src/main/core/logical_processor.rs:64-68 | The loop of swaps exchanges all ready queues with all done queues |
| WorkerPoolObject.WorkerPool.constructor | phantom/src/main/core/worker.c:132-182 | A new pool is in the initial state of the machine: the workers dealt to the processors in turn, all minima at SIMTIME_MAX |
| WorkerPoolObject.WorkerPool.ScanNext | phantom/src/main/core/logical_processor.rs:43-54 | One queue of a scan, or its end, on the shared queues is the step of the machine |
| WorkerPoolObject.WorkerPool.PostBegin | phantom/src/main/core/worker.c:446-451 | The post of the next worker, by main or by a worker, is the step of the machine |
| WorkerPoolObject.WorkerPool.LatchCountDown | phantom/src/main/utility/count_down_latch.c:47-58 | A worker counts the latch down and waits again, or exits when the pool is joined |
| WorkerPoolObject.WorkerPool.SetMinEventTimeNextRound | phantom/src/main/core/worker.c:350-357 | A report before the end of the round is ignored; otherwise the minimum of the own processor is read |
| WorkerPoolObject.WorkerPool.StoreMinEventTime | phantom/src/main/core/worker.c:360-362 | The minimum of the own processor is overwritten if the reported time was below the value read |
| WorkerPoolObject.WorkerPool.PushOnDone | phantom/src/main/core/worker.c:442-444 | A worker that ran the task queues itself as done on its processor and starts to look for the next worker |
| WorkerPoolObject.WorkerPool.StartTaskFn | phantom/src/main/core/worker.c:205-232 | A task is started by a scan for processor 0 |
| WorkerPoolObject.WorkerPool.AwaitTaskFn | phantom/src/main/core/worker.c:292-303 | Past the latch, the latch is reset and the queues are swapped |
| WorkerPoolObject.WorkerPool.GetGlobalNextEventTime | phantom/src/main/core/worker.c:332-348 | Returns the least of the per-processor minima and sets them all back to SIMTIME_MAX |
| WorkerPoolObject.WorkerPool.Run | phantom/src/main/core/worker.c:203-457 | The object driven along any schedule stays in a reachable state and holds the exact least report |
| Rounds.Causality | phantom/src/main/core/scheduler/scheduler_policy_host_single.c:222-287 | In every run in which no sum of a host's own next event wraps around, whatever the order of the hosts, an event that a host executes is never earlier than one it has executed and lies in the current window |
| Rounds.WrapBreaksOrder | phantom/src/main/core/worker.c:497-510 | A host's own event keeps its queue in order exactly if the 64-bit sum of time and delay does not wrap around |
| RoundSchedule.OwnEventQueued | phantom/src/main/core/worker.c:497-510 | An event that a host schedules for itself before the end is queued at its time plus the delay, inside the current round or not, and no other queue changes |
| RoundSchedule.RemoteEventQueued | phantom/src/main/core/scheduler/scheduler_policy_host_single.c:174-208 | One for another host is queued there at the same sum or at the end of the round, whichever is later, and no other queue changes |
| RoundSchedule.EventsAreConserved | phantom/src/main/core/scheduler/scheduler_policy_host_single.c:174-287 | In every run, for every host, what is queued and what was executed are together what it began with and what was pushed for it, each event at the time that follows from the schedule; the counters are the numbers of pushes before the end and of pops |
| RoundSchedule.HostsRunInOrder | phantom/src/main/core/scheduler/scheduler_policy_host_single.c:222-287 | Whatever the order of the hosts, the pops of each host in the schedule are of increasing time, one at a time, and the host pushes only between a pop and the end of that event |
| RoundSchedule.NextRoundHasWork | phantom/src/main/core/controller.c:392-424 | The round that the loop goes on with starts at the least queued time, is one jump long, and some host can execute an event in it |
| Rounds.CrossHostDelivery | phantom/src/main/core/scheduler/scheduler_policy_host_single.c:174-192 | No event for another host is queued before the end of the round that sends it, hence none before an event its receiver has executed |
| Rounds.Lookahead | phantom/src/main/core/worker.c:550-575 | If the path delay is at least the jump in force the event is queued exactly that delay after it was sent, past the end of the window |
| Rounds.ReportExact | phantom/src/main/core/worker.h:56-69 | When all hosts have left the round the report is the least queued time, or SIMTIME_MAX if nothing is queued |
| Rounds.WindowsSound | phantom/src/main/core/controller.c:392-424 | The next window starts at or after the end of the last, is no longer than the jump, lies within the simulation, skips no queued event, and rounds never outnumber nanoseconds |
| Rounds.StopsExactly | phantom/src/main/core/controller.c:403-423 | The loop goes on exactly while an event before the end is queued and the 64-bit sum of its time and the jump does not wrap around; events pushed are those executed and those queued |
| Rounds.StepInv | phantom/src/main/core/scheduler/scheduler.c:232-255 | Every pop, push, end of event, leave and new round keeps the invariants of the whole simulation |
| ControllerModel.Controller.GetMinTimeJump | phantom/src/main/core/controller.c:125-139 | The jump is positive, never below the configured runahead, and the detected latency, the default or the configured value |
| ControllerModel.Controller.ManagerFinishedCurrentRound | phantom/src/main/core/controller.c:392-424 | The new window in 64-bit arithmetic, and that the loop goes on exactly if it starts before the end time and the sum does not wrap around |
| ControllerModel.ManagerRun | phantom/src/main/core/manager.c:615-649 | The windows are nonempty, disjoint and increasing, each starts at what the round before reported and is one jump long or cut at the end, there are at most endTime + 1 of them, and the loop ends |
| Composition.PoolMinimumStartsNextRound | phantom/src/main/core/worker.h:56-69 | If what the workers of a pool reported stands for what the hosts of a round had to tell, in any order, the pool's lock-free minimum is the least report of the round and, once all hosts left, the least queued time |
| Composition.WorkersReport | phantom/src/main/core/scheduler/scheduler.c:90-94 | One time per worker, the least head of its hosts, with every push of the round, stands for all that the round has to tell |
| Composition.StartNextRound | phantom/src/main/core/controller.c:392-424 | The window and the decision to go on that the controller computes are those of the next round of the simulation |
| Composition.RoundTells | phantom/src/main/core/scheduler/scheduler.c:232-255 | The report that a round keeps is the least of all that its pushes and leftover queue heads told |
| Composition.OrderDoesNotMatter | phantom/src/main/core/worker.c:350-363 | The least report depends on which reports were made, not on their order |
| IpcProtocol.SingleToken | phantom/src/lib/shim/ipc.cc:58-80 | In every run the two semaphores and the two holders sum to one; neither semaphore exceeds one; both sides wait only while a message is in flight; every message is read once, as it was sent |
| Composition.IpcPostsAreBinary | phantom/src/lib/shim/binary_spinning_sem.h:38-45 | Every post of either side finds its semaphore at 0 and raises it to 1 |
| IpcBlock.BlockRefinesProtocol | phantom/src/lib/shim/ipc.cc:58-80 | However the atomic accesses of the two semaphores and the two programs interleave, with no discipline imposed, the programs make a run of the protocol, the values are its tokens, both semaphores are in states of the binary discipline, and no wake-up is lost |
| IpcBlock.BlockNeverStuck | phantom/src/lib/shim/binary_spinning_sem.cc:19-37 | Unless an error made a thread panic, and until the thread has exited, some access of one side is possible, however deep both are in their calls |
| IpcBlock.SemaphoreStep | phantom/src/lib/shim/shadow_sem.c:53-149 | An access by the one that posts or the one that waits raises the value from 0 to 1, lowers it, or leaves it, and the raise is never a second one |
| IpcProtocol.Dialogues | phantom/src/main/host/thread_preload.c:219-310 | The messages of every run parse as a dialogue; every syscall gets exactly one final reply; what the application sees is what the handler decided, in order, and its clock shows the time told last |
| IpcSchedule.ScheduleDecides | phantom/src/main/host/thread_preload.c:219-310 | All messages, all results of the handler and all answers are the function of the calls, requests, results and native values that direct calls would compute; whenever the application runs it has exactly the handler's answers, and its clock shows the time that the last of them told |
| IpcSchedule.ResultIsAnswer | phantom/src/main/host/thread_preload.c:278-295 | The value and time with which the handler finishes are what is sent and recorded for the application's last call |
| IpcSchedule.NativeResultIsRead | phantom/src/main/host/thread_preload.c:394-413 | The value of a native call that the handler asks for is what Shadow reads next, and the handler goes on with the same call |
| IpcProtocol.OneFinalReplyEach | phantom/src/lib/shim/preload_syscall.c:91-175 | In any dialogue that parses, invocations equal final replies, save the one syscall that is open |
| IpcProtocol.BlockedIsRetried | phantom/src/main/host/syscall_handler.c:264-268 | The panic for an unexpected syscall is unreachable, and a blocked syscall is the next one served, with the same number and arguments |
| IpcProtocol.NeverStuck | phantom/src/main/host/thread_preload.c:245-295 | No run ends in an unexpected event, a failed assertion or a mutual wait before the thread has exited: the token always gives somebody a step |
| IpcProtocol.StepInv | phantom/src/main/host/thread_preload.c:394-413 | Every half of a send and of a receive, and every turn of both programs, keeps the token ring, the dialogue, the delivery and the blocked call |
| IpcProtocol.RequestIs | phantom/src/lib/shim/preload_syscall.c:131-163 | A request that the plugin handles is the very one that Shadow waits for, inside the call that is open |
| IpcProtocol.HandleRequestKeeps | phantom/src/lib/shim/preload_syscall.c:131-163 | The reply to a nested request is the kind that Shadow asserts, and puts the dialogue back into the open call |
| IpcProtocol.FinishBlockKeeps | phantom/src/main/host/syscall_handler.c:513-522 | A call that blocks, with or without the explicit message, stays the current one and keeps the dialogue |
| IpcObject.IpcData.MarkPluginExited | phantom/src/lib/shim/ipc.cc:41-56 | The death mark is set and the semaphore posted, so that the next receive does not block |
| IpcObject.IpcData.RecvEventFromPlugin | phantom/src/lib/shim/ipc.h:26-28 | A receive past its wait returns STOP exactly if the plugin was marked dead, and the message in the slot otherwise |
| IpcObject.IpcData.TryRecvEventFromPlugin | phantom/src/lib/shim/ipc.cc:91-105 | Nothing is taken and nothing returned exactly if the semaphore is zero |
| IpcObject.IpcData.SendEventToShadow | phantom/src/lib/shim/ipc.cc:58-61 | The slot holds the message and the semaphore went up by one |
| IpcObject.IpcData.SendEventToPlugin | phantom/src/lib/shim/ipc.cc:63-66 | The slot holds the message and the semaphore went up by one |
| IpcObject.IpcData.RecvEventFromShadow | phantom/src/lib/shim/ipc.cc:68-71 | The message is that of the slot and the semaphore went down by one |
| IpcDeath.CleanupPossibleExactly | phantom/src/main/host/thread_preload.c:394-413 | After the death mark Shadow can still reach its cleanup, by STOP, by the exit call or by the exit of the process, if and only if it does not wait for the answer to a request; without assertions also if the answer was posted or the call can rest without a message |
| IpcDeath.CleanupLostExactly | phantom/src/main/host/thread_preload.c:219-332 | At any time after the mark the cleanup is out of reach exactly in the named places: a receive for which no post is left or will be, or a failed assertion; never while the thread rests |
| IpcDeath.CleanupCertainExactly | phantom/src/main/host/thread_preload.c:240-260 | The cleanup stays possible whatever happens if and only if Shadow waits for an event, has yet to start the thread, or lets it exit; with and without assertions |
| IpcDeath.StopIsDropped | phantom/src/main/host/thread_preload.c:263-276 | A run in which the plugin dies while Shadow awaits the acknowledgement: the STOP is read there and dropped; a stop of the process can still clean up, but not once the thread has been resumed |
| IpcDeath.DoomedStays | phantom/src/main/host/thread_preload.c:394-413 | Once every way on leads to a receive without a post or to the failed assertion, that stays so in every continuation |
| IpcDeath.HopefulCanClean | phantom/src/main/host/thread_preload.c:312-332 | In every other place, the steps that lead to the cleanup |
| IpcObject.Conversation.DispatchEvent | phantom/src/main/host/thread_preload.c:228-258 | The switch on the current event is the step of the machine, the exit call included |
| IpcObject.Conversation.RecordResult | phantom/src/main/host/syscall_handler.c:513-522 | The number of a blocked call is remembered and forgotten as the handler does |
| IpcObject.Conversation.FinishBlocked | phantom/src/main/host/thread_preload.c:263-276 | A blocked call sends and awaits the explicit message only if configured |
| IpcObject.Conversation.FinishSyscall | phantom/src/main/host/thread_preload.c:278-295 | A result that blocks is handled as configured; every other one goes out as the final reply |
| IpcObject.Conversation.HandleEvent | phantom/src/lib/shim/preload_syscall.c:112-173 | The switch on the received event is the step of the machine |
| IpcObject.Conversation.Run | phantom/src/main/host/thread_preload.c:219-310 | Both programs driven along any schedule of possible steps end in a state that keeps every invariant |
| ThreadStart.StartsArePaired | phantom/src/lib/shim/shim.c:82-119 | With any number of parents at most one start is in progress, its own parent waits for the one child that has yet to post, every child has read its own parent's block, and the semaphore is initialised only when nobody is left to post it |
| ThreadSchedule.BlocksAreThoseWanted | phantom/src/lib/shim/preload_syscall.c:155-163 | A thread that starts another uses the block with which it was last told to, and the block that the k-th cloned thread reads is the one with which its parent was last told to before that clone |
| ThreadStart.CompletesExactly | phantom/src/lib/shim/preload_syscall.c:37-62 | A start in progress can be completed if and only if its clone has not failed |
| ThreadStart.FailedCloneHangs | phantom/src/lib/shim/preload_syscall.c:53-61 | After a failed clone the parent waits and holds the lock in every later state, and no thread is ever added |
| ThreadStart.FailureIsReachable | phantom/src/lib/shim/preload_syscall.c:37-62 | From any initial state any thread reaches, in six steps, a failed clone that blocks every later start |
| ThreadStart.NextOfStart | phantom/src/lib/shim/shim.c:104-119 | Unless the clone failed, the start in progress has a next step, and it comes closer to its end |
| ThreadStart.OthersDoNotHinder | phantom/src/lib/shim/shadow_spinlock.c:17-36 | No step of another thread undoes what the start in progress has done |
| ThreadStart.StepInv | phantom/src/lib/shim/shim.c:290-316 | Every atomic access keeps the lock, the deposit and the semaphore in step |
| ThreadStart.Shim.SpinLock | phantom/src/lib/shim/shadow_spinlock.c:17-29 | The load, and the weak exchange that may fail spuriously, are the steps of the machine |
| ThreadStart.Shim.NewThreadStart | phantom/src/lib/shim/shim.c:88-96 | The semaphore is initialised, then the block deposited |
| ThreadStart.Shim.ChildInit | phantom/src/lib/shim/shim.c:290-310 | A child reads the deposited block, then posts |
| ThreadStart.Shim.NewThreadFinish | phantom/src/lib/shim/shim.c:104-119 | The parent takes the post of its child, then releases the lock |
| Buckets.LazyRefinesEager | phantom/src/main/host/network_interface.c:135-187 | Whatever an observer sees of the lazily scheduled buckets, buckets that tick on every grid point show the same, with the same bytes at the same time |
| Buckets.EagerTicksOnGrid | phantom/src/main/host/network_interface.c:139-146 | The buckets it is compared with tick exactly once on every grid point |
| Buckets.SkipTicks | phantom/src/main/host/network_interface.c:151-164 | Full buckets let any number of grid points pass without a change |
| Buckets.SimulateStep | phantom/src/main/host/network_interface.c:166-187 | Every use, passing of time and refill of the lazy buckets is matched by the eager ones |
| Buckets.NextGridIsNextTick | phantom/src/main/host/network_interface.c:135-149 | The refill time computed from the offset is the next grid point after now, at most one interval away |
| Buckets.BandwidthBound | phantom/src/main/host/network_interface.c:108-125 | Over any span with k refills at most the capacity and k refills are spent, (k + 1) refills and one MTU |
| Buckets.SpanBalance | phantom/src/main/host/network_interface.c:108-125 | All bytes granted over a span were spent, remain, or were discarded at the cap |
| Buckets.ConsumeBalanced | phantom/src/main/host/network_interface.c:117-125 | A packet keeps the books exactly if it is no longer than what the bucket holds |
| Buckets.RefillsGiveBandwidth | phantom/src/main/host/network_interface.c:196-218 | The refills of a second are the configured KiB per second, short by less than a byte each |
| Buckets.RefilledExactly | phantom/src/main/host/network_interface.c:108-115 | An undrained bucket holds after k refills what it held and k refills, up to its capacity |
| Buckets.WasteFills | phantom/src/main/host/network_interface.c:108-115 | A span that loses bytes has a refill that left the bucket at its capacity |
| Buckets.BandwidthReached | phantom/src/main/host/network_interface.c:108-125 | A sender that never runs out of packets gets all bytes of all refills, save what the bucket still holds |
| Buckets.RefillsReachMtu | phantom/src/main/host/network_interface.c:108-115 | With some bandwidth a bucket that nobody drains holds an MTU after at most MTU refills |
| Buckets.ScheduleLate | phantom/src/main/host/network_interface.c:166-187 | Scheduling a refill before the packets of an instant or after them comes to the same |
| Buckets.UsesCovered | phantom/src/main/host/network_interface.c:151-164 | Packets accounted for leave a refill pending whenever a bucket is below its capacity |
| Buckets.TicksBounded | phantom/src/main/host/network_interface.c:135-149 | The refills that a span of time holds are bounded by its grid points |
| Buckets.FollowsEager | phantom/src/main/host/network_interface.c:135-187 | What follows the lazy buckets shows what buckets that tick on every grid point show, and had no more refills than grid points |
| SocketQueues.RunGood | phantom/src/main/host/network_queuing_disciplines.c:50-159 | Under both disciplines, the FIFO heap being in order or not, no socket is queued twice, exactly the sockets with packets are queued, and the packets of each class of each socket leave in their own order, none lost and none twice |
| SocketQueues.RunHistories | phantom/src/main/host/descriptor/socket.c:398-434 | A run buffers exactly the packets of its moves, in order, and sends one packet for each selection |
| SocketQueues.ServedAtItsTurn | phantom/src/main/host/network_interface.c:498-531 | A socket at position p is served by exactly the selection p + 1 from now, whatever is buffered and whoever joins |
| SocketQueues.FairShare | phantom/src/main/host/network_interface.c:498-531 | Two sockets that stay backlogged differ by at most one packet served over any span |
| SocketQueues.FifoKeepsOrder | phantom/src/main/host/network_interface.c:534-569 | If every buffered packet has a larger priority than all that were buffered before it, the FIFO discipline sends the packets of all sockets exactly in the order they were buffered; TCP, which holds packets back and retransmits them after they got their priority (packet.c:114), need not buffer that way |
| SocketQueues.FifoMerges | phantom/src/main/host/network_interface.c:534-569 | If each socket by itself buffers in the order of priorities and no control packet overtakes, every packet that is sent is the least of all that wait in any socket |
| SocketQueues.MergesExactly | phantom/src/main/host/network_queuing_disciplines.c:76-99 | The next packet is the least of all that wait if and only if the root's head packet is the least head, for sockets that each buffer in the order of priorities |
| SocketQueues.SelectInOrder | phantom/src/main/host/network_queuing_disciplines.c:76-99 | If the root of the heap has a least head packet, that is the very next packet in the order of buffering |
| SocketQueues.FifoPopsLeastExactly | phantom/src/main/host/network_queuing_disciplines.c:76-99 | Every pop of every run takes a least head packet if and only if no control packet may overtake in a queued socket, or there are not two sockets |
| SocketQueues.OfferKeepsLeastExactly | phantom/src/main/host/network_interface.c:633-663 | While the heap is in order, buffering a packet leaves the next pop least if and only if the packet does not overtake in a socket behind a root without control packets |
| SocketQueues.OvertakingBreaksExactly | phantom/src/main/host/network_queuing_disciplines.c:76-99 | After an overtaking packet the heap is in order exactly if its socket is the root or its parent has a control packet too |
| SocketQueues.ControlPacketOvertakes | phantom/src/main/host/network_interface.c:651-657 | Three buffered packets after which the root of the heap is not least |
| SocketQueues.HeapStays | phantom/src/main/host/network_queuing_disciplines.c:135-159 | Without overtaking the heap is in order, and its root least, in every state of every run |
| PriorityQueues.PushOrder | phantom/src/main/utility/priority_queue.c:115-140 | A push onto an ordered heap leaves it ordered |
| PriorityQueues.PopOrder | phantom/src/main/utility/priority_queue.c:156-175 | A pop from an ordered heap leaves it ordered |
| PriorityQueues.PushContents | phantom/src/main/utility/priority_queue.c:115-140 | A push adds exactly its element |
| PriorityQueues.PopContents | phantom/src/main/utility/priority_queue.c:156-175 | A pop removes exactly the first element |
| PriorityQueues.RootIsLeast | phantom/src/main/utility/priority_queue.c:156-175 | What a pop takes from an ordered heap has a least key |
| PriorityQueues.FallenKey | phantom/src/main/utility/priority_queue.c:87-113 | If the key of a queued element falls and nothing is moved, the heap stays ordered exactly if it is the root or not below its parent, and the root least exactly if it is the root or not below the root |
| PriorityQueues.PriorityQueue.HeapifyUp | phantom/src/main/utility/priority_queue.c:91-97 | The loop of swaps with the parent |
| PriorityQueues.PriorityQueue.HeapifyDown | phantom/src/main/utility/priority_queue.c:99-113 | The loop of swaps with the smaller child |
| SocketQueues.PullTakesHead | phantom/src/main/host/descriptor/socket.c:439-445 | Control packets leave before data packets, each kind from its head |
| NetworkInterfaceModel.TokenBucket.constructor | phantom/src/main/host/network_interface.c:196-218 | A bucket holds one refill and an MTU at most, and starts empty |
| NetworkInterfaceModel.TokenBucket.Refill | phantom/src/main/host/network_interface.c:108-115 | The bytes of one refill are added up to the capacity |
| NetworkInterfaceModel.TokenBucket.Consume | phantom/src/main/host/network_interface.c:117-125 | The bytes are taken, down to zero |
| NetworkInterfaceModel.NetworkInterface.ScheduleNextRefill | phantom/src/main/host/network_interface.c:135-149 | A refill is pending at the next grid point |
| NetworkInterfaceModel.NetworkInterface.ScheduleNextRefillIfNeeded | phantom/src/main/host/network_interface.c:151-164 | A refill is pending whenever a bucket is below its capacity |
| NetworkInterfaceModel.NetworkInterface.PopSocket | phantom/src/main/host/network_queuing_disciplines.c:50-61 | The first socket of the list, or the root of the heap, leaves the queue |
| NetworkInterfaceModel.NetworkInterface.PushSocket | phantom/src/main/host/network_queuing_disciplines.c:63-68 | The socket joins the end of the list, or the heap |
| NetworkInterfaceModel.NetworkInterface.SelectPacket | phantom/src/main/host/network_interface.c:498-569 | The packet is the head packet of the socket that the discipline pops, which is pushed back if it has more; none exactly if no socket is queued |
| NetworkInterfaceModel.NetworkInterface.SendPackets | phantom/src/main/host/network_interface.c:571-631 | The loop ends with no socket waiting or less than an MTU in the bucket; what it sent are selections of the discipline, charged one by one outside bootstrapping, looped back or forwarded by destination |
| NetworkInterfaceModel.NetworkInterface.ReceivePackets | phantom/src/main/host/network_interface.c:448-482 | A prefix of the router's packets is received in order, until the router is empty or less than an MTU is left; what sockets send from inside the loop is sent and charged in between, in the order of the code, and each direction is charged for exactly its packets |
| NetworkInterfaceModel.NetworkInterface.RefillTokenBucketsCB | phantom/src/main/host/network_interface.c:166-187 | Never stalls, leaves a refill pending if one is needed, and is the refill move of the lazy buckets followed by the packets it lets through in both directions, interleaved as the code does |
| NetworkInterfaceModel.NetworkInterface.StartRefillingTokenBuckets | phantom/src/main/host/network_interface.c:189-194 | The grid starts now, and the state is that of the lazy buckets after their boot, which it follows from then on |
| NetworkInterfaceModel.NetworkInterface.WantsSend | phantom/src/main/host/network_interface.c:633-663 | A socket without packets is refused; otherwise it is tracked once and the interface sends until it stalls for bytes |
| NetworkInterfaceModel.NetworkInterface.AddToOutputBuffer | phantom/src/main/host/descriptor/socket.c:398-434 | A buffered packet is tracked at once and sent if possible |
| NetworkInterfaceModel.NetworkInterface.Perform | phantom/src/main/host/network_interface.c:448-663 | Whatever happens to the interface it does not stall, a refill is on its way, the lazy buckets are followed, the uses of both buckets are allowed spans of exactly the packets sent and received, what arrived is received in order or waits, and what is buffered is what the operation buffers |
| NetworkInterfaceModel.NetworkInterface.Run | phantom/src/main/host/network_interface.c:108-663 | Any run after bootstrapping never stalls and is a run of the lazy buckets, matched by buckets that tick on every grid point; with packets of at most an MTU, the bytes sent, and the bytes received, are at most one refill for every grid point passed, two more, and an MTU |
| FutexWaits.Futex.Wake | phantom/src/main/host/futex.c:70-107 | Wakes exactly min(n, listeners not yet woken), each once and none other, whatever the order of the table; the count returned is theirs |
| FutexWaits.CallsReachDistinct | phantom/src/main/host/futex.c:70-107 | Any calls of wake in a row reach together exactly as many distinct waiters as one call with their sum; k calls of wake(1) reach k |
| FutexWaits.WakesAreNotLost | phantom/src/main/host/syscall_condition.c:286-355 | In every run no listener is notified twice between add and remove, a condition has at most one signal task queued, as its flag says, whoever refers to a condition keeps it alive, and a notified waiter has a signal queued or its thread was continued after the notification |
| FutexSchedule.ScheduleDecides | phantom/src/main/host/syscall_condition.c:357-443 | The tasks queued, the order in which threads are continued, and each condition's timeout, listener and pending signal are functions of the schedule; a listener is in the table exactly while its condition waits with it, and marked exactly if notified |
| FutexSchedule.TimerArmedExactly | phantom/src/main/host/syscall_condition.c:367-382 | A timeout can fire exactly for a condition that was made with one and waits |
| FutexSchedule.CauseContinues | phantom/src/main/host/syscall_condition.c:280-335 | From any state in which a condition waits with no signal pending, the expiry of its timer, or the wake-up of its listener, and then the signal tasks continue the threads before it in line and then its own |
| FutexWaits.StepInv | phantom/src/main/host/syscall_condition.c:357-443 | Waiting, cancelling, waking, timing out, signalling and dropping keep all of that |
| FutexWaits.FilterMeansExactly | phantom/src/main/host/status_listener.c:88-109 | An edge filter means what its documentation says if and only if the listener monitors at most one status bit |
| FutexWaits.ManyBitsDiffer | phantom/src/main/host/status_listener.c:94-99 | For any listener of two or more bits, a status change on which code and documentation differ |
| FutexWaits.UnwokenAfter | phantom/src/main/host/futex.c:82-99 | A call leaves exactly the listeners it did not wake |
| FutexWaits.Futex.WakeListener | phantom/src/main/host/futex.c:90-95 | The notification queues a signal unless one is pending, and marks the listener |
| FutexWaits.Futex.ScheduleSignalTask | phantom/src/main/host/syscall_condition.c:308-341 | One task and one reference unless a signal is pending |
| FutexWaits.Futex.WaitNonblock | phantom/src/main/host/syscall_condition.c:357-437 | The old listeners go, a new one is in the table, and each holds a reference |
| FutexWaits.Futex.CancelCondition | phantom/src/main/host/syscall_condition.c:83-129 | The listeners leave the table and give their references back |
| FutexWaits.Futex.SignalTask | phantom/src/main/host/syscall_condition.c:286-306 | The flag is cleared, the thread continued, and the reference of the task given back |
| Clocks.MonotoneExactly | phantom/src/lib/tsc/tsc.c:188-197 | The emulated counter never goes back up to some time if and only if it has not overflowed 64 bits by then |
| Clocks.CounterIsExact | phantom/src/lib/tsc/tsc.c:192-194 | The counter is the floor of frequency times nanoseconds over 10^9, hence within a cycle of the true rate, exactly if that fits in 64 bits |
| Clocks.ProductFits128 | phantom/src/lib/tsc/tsc.c:192-193 | The product of any two 64-bit words fits in 128 bits |
| Clocks.FirstOverflowFalls | phantom/src/lib/tsc/tsc.c:188-197 | Past its overflow the counter has fallen at some nanosecond |
| Clocks.Tsc.EmulateRdtsc | phantom/src/lib/tsc/tsc.c:199-205 | rdx:rax reassembles the counter from two 32-bit halves and the instruction pointer moves by 2 modulo 2^64 |
| Clocks.Tsc.EmulateRdtscp | phantom/src/lib/tsc/tsc.c:207-227 | The same, with rcx set to the constant and the instruction pointer moved by 3 |
| Clocks.SplitAndBack | phantom/src/lib/shim/shim_syscall.c:23-31 | Seconds and nanoseconds give back every 64-bit time exactly |
| Clocks.ShimClock.SetSimtimeNanos | phantom/src/lib/shim/shim_syscall.c:23-26 | The cached time is a normal one of the given nanoseconds |
| Clocks.ShimClock.GetSimtimeNanos | phantom/src/lib/shim/shim_syscall.c:28-31 | The nanoseconds of the cached time, in 64-bit arithmetic, exact for every normal time |
| Clocks.ShimClock.GetTime | phantom/src/lib/shim/shim_syscall.c:33-56 | Shared memory comes before the cached time, and time 0 means that no time is known |
| Clocks.ShimClock.ShimSyscall | phantom/src/lib/shim/shim_syscall.c:58-134 | The three time calls agree on the instant to the nanosecond, microsecond and second; a null pointer gives EFAULT for clock_gettime only; nothing is handled while no time is known |
| Clocks.ReadClocks | phantom/src/lib/shim/shim.c:525-545 | After the time was set the emulated counter and the cached time speak of the same instant |

## Left out

- IpcProtocol.SingleToken: runs without plugin death only; the mark of the watcher posts a second token. What then becomes of Shadow is IpcDeath.dfy, and the block's own contract on death is stated by IpcObject.IpcData.
- IpcDeath.CleanupPossibleExactly: speaks of threads that still run when the mark comes; a process that is stopped before its plugin is marked is cleaned up there and then. The reply slots that are read after a STOP have no contents here.
- IpcProtocol.Dialogues: the spin flag of the plugin's receive and the contents of the memory requests are not modelled; the spin itself is part of ShadowSem.dfy, and IpcBlock.dfy allows any spin at every receive.
- ThreadStart.CompletesExactly: a clone for which no instruction pointer was saved takes the plain path (preload_syscall.c:37) and never calls shim_newThreadFinish; it is not modelled, and neither is its child, which returns on a foreign stack.
- ThreadStart.StartsArePaired: the read of the waiter count that follows the child's exchange in its post is left out; it can overlap the next initialisation, but nobody ever sleeps on this semaphore.
- FutexWaits.WakesAreNotLost: says that a notified waiter is continued, not which of a wake and a timeout it will report, and nothing about a signal task delivered after its condition was cancelled: the code supports neither.
- SocketQueues.FifoKeepsOrder: control packets have priority 0 and overtake by design, so a history with them is not in buffered order; their order within a socket is part of SocketQueues.RunGood.
- NetworkInterfaceModel.NetworkInterface.SendPackets: the assertion that a remote packet has a router is not modelled. The pull of a packet buffers none: it marks the socket writable, and what listens to that is scheduled (socket.c:440-471).
- NetworkInterfaceModel.TokenBucket.Refill: byte counts are unbounded integers; an overflow of 64 bits is not modelled.
- Rounds.Lookahead: takes the jump in force as a parameter; controller_updateMinTimeJump compares milliseconds with a nanosecond field (controller.c:143-146), so it is not claimed to keep a minimum.
- ControllerModel.ManagerRun: takes the workers' reports as a function that is never before the end of its round; Rounds.ReportExact and Composition.PoolMinimumStartsNextRound prove that of the rounds and of the pool.
- PriorityQueues.PriorityQueue.PushEntry: the growth of the heap's memory, its index by element, and the push of an element that is queued already are not modelled; no caller makes the last.
- The other scheduler policies, routers, TCP, topology and DNS.
- Weak memory orders, memory freeing, magic numbers, perf timers, logging and the tracker.
- CPU affinity, and the search for a free port, which need not end when none is free.
- A pool without workers, which runs its task on the main thread; the pool always has at least one.
- seccomp, signal handlers, inline assembly, ptrace, and the parsing of the CPU frequency.
- Descriptor and file triggers of conditions; only futex triggers and timers are modelled.
- The tables that find a futex by address and a socket by port.
