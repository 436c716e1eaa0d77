# ARCOS kernel: a verified model

ARCOS is a small teaching kernel. This project models its hardest parts in Dafny and
proves what they promise, over every call and every run.

* **Scheduler** (`base/ke/scheduler.c`). `SchedulerSpec` gives every operation as a
  function on an abstract state: control blocks, 32 ready queues, blocked list, timer
  list, current process, tick counter. `KeScheduler` is the code itself, process objects
  threaded through `NextPCB`; each method is proved to have the effect of its function
  (`SchedulerLinks` says what the links of an abstract state are). `SchedulerRuns` proves
  the partition of processes over any run and exactly when an operation ends in
  `KeBugCheck`; `SchedulerTiming` proves the timing bounds: priority inversion, sleep,
  CPU time, round robin. `SchedulerTurns` proves that a process keeps the processor for
  its quantum and no longer, and where every operation puts a process in the queues.
* **Dining philosophers** (`base/apps/philosopher.c`, `base/apps/waiter.c`).
  `Philosophers` is the asynchronous protocol for any number n >= 2 of philosophers, with
  an unbounded mailbox and requests that may be repeated at any time; its invariant
  describes what each sender's messages in the mailbox look like. `PhilosopherRuns` has
  mutual exclusion, harmless duplicates, deadlock freedom, and that everybody can still
  come to eat from every reachable state; `PhilosopherProgress` has that everybody does
  in fair runs in which nobody starts anew, and `Starvation` that somebody can starve
  otherwise. `WaiterProgram` ties the two programs to it.
* **Objects and processes** (`base/ob/ob.c`, `base/ps/ps.c`). `ObSpec` and `ObProcesses`
  give handle tables, counters and type lists as functions, `ObjectManager` the code on
  headers, tables and linked lists. `Pids` is PID allocation. `System` puts object
  manager, scheduler, process creation and killing, and waiting for objects together, and
  `SystemRuns` proves conservation of references, the life of process objects, distinct
  PIDs and that no wake-up is lost, over every run from boot. `Shortfalls` has runs that
  show what the code does not do.
* **Smaller pieces.** `Strings` is the bounded formatter and the decimal parser,
  `Mailbox` the message queue of a process, `Serial` the serial transmit queue.

`Lists` holds what is needed about lists without repetition, `Words` the ULONG. An
operation that reaches `KeBugCheck` or fails an assertion yields `Halts`; a method returns
`alive == false`.

## What the code does not do

Some of what one would expect is not so. The model follows the code, and states exactly
when the expectation is met.

* Process creation that fails on a full handle table leaves the counters of inherited
  objects raised, by as many handles as were inherited. They are as before exactly when
  the parent has no inheritable handle (`System.CreateProcessOk`; a run in
  `Shortfalls.FailedCreationLeaks`).
* Killing a process never closes its handles (`System.KillLeavesHandlesOpen`).
  `ObKillProcess` closes handles of the current process, and by then the victim is not
  current: the process that is, once the victim is stopped and its supervisor was sent a
  message, loses exactly the handles whose numbers are open in the victim's table
  (`System.KillOk`; a run in `Shortfalls.KillClosesWrongHandle`).
* A process that is stopped while it waits for an object stays on the wait queue, and the
  next signal reaches KeBugCheck (`System.StoppedWaiterBreaksSignal`; exactly when a signal
  does, `System.SignalHalts`).
* The waiter is not fair: a philosopher can ask forever while its neighbour eats again and
  again (`Starvation.Starves`).
* So HandleCount also counts handles that freed processes left open, and they are never
  closed (`SystemRuns.CountsAreConserved`, `SystemRuns.LostHandlesStay`).
* `%d` prints -2^31 with a second minus sign and a wrong last digit; every other number is
  printed right (`Strings.LongTextIsSigned`, `Strings.ExpansionIsIdeal`). With a size of 0
  `RtlFormatString` still writes a null.
* `MessDeleteMessage` deletes a message at the head of the queue and reports that it is
  not there; a comment in the source takes the status to mean that it is missing
  (`Mailbox.Mailbox.DeleteMessage`).
* `KeStartSchedulingProcess` and `KeChangeProcessPriority` do not preempt: a process that
  outranks the running one, or a running one that is outranked, stays so until the quantum
  ends (`SchedulerTiming.StartInverts` and `ChangeInverts` say exactly when,
  `SchedulerTiming.InversionIsBounded` for how long; inputs in
  `Shortfalls.StartingCanInvert` and `Shortfalls.ChangingCanInvert`).

## Model

| member | source | states |
|---|---|---|
| `KeScheduler.Scheduler.constructor` | base/ps/ps.c:65-100 | the kernel variables after start-up are the state Boot, with the boot process current |
| `KeScheduler.Scheduler.KepEnqueueProcess` | base/ke/scheduler.c:55-84 | the process ends at the tail of the ready queue of its own priority, marked ready; its link is null before (line 60) and the links of all other processes are what their lists call for |
| `KeScheduler.Scheduler.OffList` | base/ke/scheduler.c:60 | the link of a process that is on no list is null, which is what lines 60, 226 and 496 assert |
| `KeScheduler.Scheduler.KepDequeueProcess` | base/ke/scheduler.c:92-151 | the process leaves its ready queue and nothing else moves; head, tail and links fit, and the bugcheck at line 150 is not reached |
| `KeScheduler.Scheduler.Predecessor` | base/ke/scheduler.c:120-148 | the walk finds the process exactly when it is on the list, with the node in front of it |
| `KeScheduler.Scheduler.KepRemoveFromProcessList` | base/ke/scheduler.c:248-306 | true exactly for a process on the list, which is then off it, with the one link to it redirected |
| `KeScheduler.Scheduler.RemoveWaiting` | base/ke/scheduler.c:344-349 | off the timer list or, failing that, the blocked list |
| `KeScheduler.Scheduler.Scan` | base/ke/scheduler.c:170-175 | the highest non-empty ready queue not below the bottom level, or one below the bottom |
| `KeScheduler.Scheduler.KepReschedule` | base/ke/scheduler.c:153-208 | the resulting state is that of Reschedule; it reaches KeBugCheck exactly when Reschedule halts |
| `KeScheduler.Scheduler.CreateProcess` | base/ps/ps.c:196-228 | a new zeroed object with a priority, on no list, with no other object touched |
| `KeScheduler.Scheduler.KeStartSchedulingProcess` | base/ke/scheduler.c:216-239 | the new state is that of Start, which halts for priorities of 32 and more; the object gains the reference of the scheduler |
| `KeScheduler.Scheduler.KeStopSchedulingProcess` | base/ke/scheduler.c:314-363 | the new state is that of Stop, and the object loses the reference of the scheduler; for a scheduled process the bugcheck at line 348 is not reached |
| `KeScheduler.Scheduler.KeBlockProcess` | base/ke/scheduler.c:372-391 | the current process heads the blocked list and another one runs |
| `KeScheduler.Scheduler.KeResumeProcess` | base/ke/scheduler.c:400-431 | the ResumeMethod is called if there is one, and a waiting process becomes ready and preempts a weaker current one; any other argument reaches KeBugCheck |
| `KeScheduler.Scheduler.KeChangeProcessPriority` | base/ke/scheduler.c:439-464 | the new priority, with a ready process moved to the tail of its new queue |
| `KeScheduler.Scheduler.KepWakeUpSleepers` | base/ke/scheduler.c:473-481 | the loop terminates and has the effect of WakeUp, although every turn may change the current process; the ResumeMethod of every process it wakes is called once, and no other |
| `KeScheduler.Scheduler.FindTimerSlot` | base/ke/scheduler.c:504-519 | the walk along the timer list stops where TimerSlot says |
| `KeScheduler.Scheduler.KeSuspendProcess` | base/ke/scheduler.c:490-531 | the current process goes to its place in the timer list and another one runs; its link is null before (line 496) |
| `KeScheduler.Scheduler.KeHandleTimer` | base/ke/scheduler.c:588-621 | clocks, quantum, woken sleepers and rescheduling as HandleTimer has them; what that comes to is in `SchedulerTurns.QuantumCounts` and `SchedulerTurns.LastTick` |
| `SchedulerSpec.HighestReady` | base/ke/scheduler.c:170-175 | the greatest level with a ready process, and None only if there is none |
| `SchedulerSpec.RescheduleOk` | base/ke/scheduler.c:153-208 | halts exactly when the current process is blocked and nothing is ready; otherwise nothing ready outranks the process picked, it has a full quantum, and nobody enters or leaves the schedule but a blocked current process |
| `SchedulerSpec.EnqueueOk` | base/ke/scheduler.c:55-84 | the lists stay well formed and exactly one process is added |
| `SchedulerSpec.DequeueOk` | base/ke/scheduler.c:92-151 | the lists stay well formed and exactly one process is removed |
| `SchedulerSpec.ResumeOk` | base/ke/scheduler.c:400-431 | never halts for a waiting process; the invariant, the clocks and everybody's being scheduled are kept, and the process ends running or in the ready queue of its priority |
| `SchedulerSpec.SlotAfter` | base/ke/scheduler.c:513-515 | entries before the slot are due earlier, the entry at it is not |
| `SchedulerLinks.EnqueueLinks` | base/ke/scheduler.c:66-80 | linking behind the tail is the only change of links that the new queue calls for |
| `SchedulerLinks.DequeueEffect` | base/ke/scheduler.c:109-139 | redirecting the predecessor's link, head and tail gives the links of the queue without the process; only the predecessor links to it |
| `SchedulerLinks.UnblockLinks` | base/ke/scheduler.c:265-298 | the same for the timer and blocked lists |
| `SchedulerLinks.SleepLinks` | base/ke/scheduler.c:504-524 | inserting at the slot changes the links of the current process and its predecessor only |
| `SchedulerLinks.BlockLinks` | base/ke/scheduler.c:384-385 | pushing on the blocked list changes the link of the current process only |
| `SchedulerLinks.RescheduleIs` | base/ke/scheduler.c:164-207 | scan, requeueing, taking the head and marking it running make up Reschedule |
| `SchedulerRuns.StepOk` | base/ke/scheduler.c:216-621 | every public operation keeps the invariant, halts exactly when HaltsOn says, and changes who is scheduled only by starting and stopping |
| `SchedulerRuns.StopOk` | base/ke/scheduler.c:314-363 | stopping removes exactly the process and halts exactly when it is current and was never dispatched or nothing else is ready |
| `SchedulerRuns.WakeUpTakesPrefix` | base/ke/scheduler.c:473-481 | exactly the expired prefix leaves the timer list, the suffix stays untouched |
| `SchedulerRuns.WakeUpOk` | base/ke/scheduler.c:473-481 | the invariant and everybody's being scheduled survive the loop, and priorities are not inverted by it |
| `SchedulerRuns.WokenUpIsAwake` | base/ke/scheduler.c:473-481 | every process of the removed prefix ends running or in the ready queue of its priority |
| `SchedulerRuns.HandleTimerOk` | base/ke/scheduler.c:588-621 | a timer interrupt never halts from a valid state (so line 594 holds) and keeps the invariant |
| `SchedulerRuns.ExactlyOnePlace` | base/ke/scheduler.c:19-42 | in a valid state a process is in exactly one place if it is scheduled and in none otherwise, and its State tells the place |
| `SchedulerRuns.PartitionAlways` | base/ke/scheduler.c:55-621 | the same after every legal run from boot, for exactly the processes started and not stopped since |
| `SchedulerRuns.RunScheduled` | base/ke/scheduler.c:216-239 | who is scheduled after a run is decided by the last start or stop of the process |
| `SchedulerRuns.IdleStaysAwake` | base/ke/scheduler.c:164-198 | while the idle process is not blocked, suspended or stopped it stays running or ready |
| `SchedulerRuns.IdleRunNeverHalts` | base/ke/scheduler.c:193-198 | in such runs, with well-called operations, KepReschedule always finds a process, so line 197 is unreachable |
| `SchedulerTiming.InversionIsBounded` | base/ke/scheduler.c:153-208 | after at most Quantum further timer ticks without a start or a priority change no ready process outranks the running one, whatever else is called |
| `SchedulerTiming.StepSettles` | base/ke/scheduler.c:314-621 | operations other than start and priority change never create an inversion and never lengthen one |
| `SchedulerTiming.StartInverts` | base/ke/scheduler.c:216-239 | starting a process inverts priorities exactly when it outranks the running one |
| `SchedulerTiming.ChangeInverts` | base/ke/scheduler.c:439-464 | the exact condition under which a change of priority leaves no inversion: of a running, a ready and a waiting process |
| `SchedulerTiming.StepSorted` | base/ke/scheduler.c:490-531 | the timer list stays sorted with no entry overdue, as long as the counter does not wrap |
| `SchedulerTiming.TimerTakesDue` | base/ke/scheduler.c:588-611 | a timer interrupt takes off the timer list exactly the entries whose time has passed |
| `SchedulerTiming.SleeperWokenOnTime` | base/ke/scheduler.c:473-481 | a sleeper due at w leaves the timer list at the first tick past w, in any run that leaves it alone |
| `SchedulerTiming.SuspensionIsBounded` | base/ke/scheduler.c:490-531 | a process suspended at tick t for m ms is woken at a tick in (t + m, t + m + 10] |
| `SchedulerTiming.RunCharges` | base/ke/scheduler.c:600-606 | over any run without wrap-around the CPU times of all processes ever created add up to the tick counter |
| `SchedulerTiming.BootCharges` | base/ps/ps.c:89-98 | which holds from boot |
| `SchedulerTiming.HeadIsDispatched` | base/ke/scheduler.c:170-191 | with no higher queue in use, KepReschedule runs the head of the queue and puts an unblocked equal behind it |
| `SchedulerTiming.TimerApproaches` | base/ke/scheduler.c:588-621 | every timer tick brings a queued process one tick closer to being run, whoever wakes up meanwhile |
| `SchedulerTiming.StepApproaches` | base/ke/scheduler.c:216-621 | no other operation by processes of at most its priority sets it back |
| `SchedulerTiming.WaitingIsBounded` | base/ke/scheduler.c:153-208 | a queued process is dispatched within its bound of ticks in any run without higher processes |
| `SchedulerTiming.RoundRobin` | base/ke/scheduler.c:153-208 | at index i of its queue it is dispatched within q + 5 i timer ticks, q being the current quantum |
| `SchedulerTurns.QuantumCounts` | base/ke/scheduler.c:594-606 | a timer interrupt takes one tick off the quantum of the current process; while some is left and no sleeper that becomes due outranks it, it runs on, and those who wake up go behind the others of their queues in the order of the timer list |
| `SchedulerTurns.LastTick` | base/ke/scheduler.c:606-619 | at its last tick a process that nothing outranks gives way to the first of its equals and goes behind them all, those just woken included; without equals it gets another 5 ticks |
| `SchedulerTurns.KeepsProcessor` | base/ke/scheduler.c:606-619 | in any run in which it neither blocks nor is stopped or outranked a process is current for as many ticks as its quantum says, less one |
| `SchedulerTurns.FullTurn` | base/ke/scheduler.c:202-207 | a dispatched process is still current after 4 further ticks in any such run, and gives way to an equal at the 5th |
| `SchedulerTurns.ResumeSpares` | base/ke/scheduler.c:423-430 | a resumed process that does not outrank the current one goes behind the others of its queue, and the current process runs on with the quantum it had |
| `SchedulerTurns.ResumePreempts` | base/ke/scheduler.c:423-430 | a resumed process that outranks the current one and all that is ready runs at once for 5 ticks, and the preempted process goes behind the others of its queue |
| `SchedulerTurns.WakeUpSpares` | base/ke/scheduler.c:473-481 | sleepers that do not outrank the current process become ready in the order of the timer list |
| `SchedulerTurns.LeavingDispatches` | base/ke/scheduler.c:170-207 | when the current process blocks, goes to sleep or stops itself, the head of the highest queue in use runs for 5 ticks and no other ready process moves |
| `SchedulerTurns.SleepersInOrder` | base/ke/scheduler.c:504-524 | a process that goes to sleep comes before every sleeper due at the same time or later, except that a head due at the same time stays the head |
| `SchedulerTurns.StartGoesBehind` | base/ke/scheduler.c:216-239 | a started process is the last of its queue, and the current process runs on |
| `SchedulerTurns.ChangeMoves` | base/ke/scheduler.c:439-464 | a ready process leaves its queue for the tail of that of its new priority, even if that is the one it has; no other process moves |
| `Philosophers.StepOk` | base/apps/waiter.c:48-102 | every turn of a philosopher or the waiter keeps the invariant: forks, counter, grants and the shape of every sender's messages |
| `Philosophers.TurnOk` | base/apps/philosopher.c:69-125 | a philosopher's turn, a repeated request included, changes nothing about who holds what |
| `Philosophers.GrantIsCurrent` | base/apps/waiter.c:64-91 | a request the waiter grants is the one its sender is waiting for, and no other grant is under way to it |
| `Philosophers.ServeForks` | base/apps/waiter.c:64-91 | serving a message moves exactly the fork in question, and forksInUse keeps counting the forks that are not free |
| `Philosophers.ServeSpares` | base/apps/waiter.c:85 | the limit on left forks leaves somebody without one |
| `Philosophers.StartOk` | base/apps/waiter.c:24-27 | the invariant holds at the start |
| `PhilosopherRuns.ForksAreExclusive` | base/apps/waiter.c:48-102 | in every reachable state no fork is in two hands and none in use is free |
| `PhilosopherRuns.NeighboursDoNotEat` | base/apps/philosopher.c:105-106 | neighbours never eat at the same time |
| `PhilosopherRuns.WaiterCountsForks` | base/apps/waiter.c:64-69 | forksInUse is the number of forks not free and never underflows; each philosopher has at most one grant waiting, for the fork it asks for |
| `PhilosopherRuns.StaleRequestsAreHarmless` | base/apps/philosopher.c:82-85 | a request its sender no longer waits for finds the fork taken, because the sender holds it or its drop message comes later |
| `PhilosopherRuns.GrantsAreAwaited` | base/apps/waiter.c:71-91 | a grant goes to a philosopher that asks for that fork and has no other grant |
| `PhilosopherRuns.HolderCanGoOn` | base/apps/waiter.c:64-91 | the ring argument: among those that hold left forks and ask for right ones somebody can go on |
| `PhilosopherRuns.NeverStuck` | base/apps/waiter.c:48-102 | in no reachable state is everybody stuck |
| `PhilosopherRuns.GoOn` | base/apps/philosopher.c:79-123 | a philosopher that can go on comes closer to thinking again while the others stay put |
| `PhilosopherRuns.EveryoneCanEat` | base/apps/philosopher.c:69-125 | from every reachable state, for every philosopher, some continuation lets it eat |
| `PhilosopherRuns.RequestsAreAnswered` | base/apps/waiter.c:71-91 | a request for a left fork is answered exactly if the fork is free and fewer than n - 1 are in use, one for a right fork exactly if it is free; the fork is then in use, and otherwise nothing happens |
| `PhilosopherRuns.DropsAreServed` | base/apps/waiter.c:64-69 | a drop message frees its fork, lowers the number of forks in use by one, and nobody is sent anything |
| `PhilosopherRuns.MostHoldLeftForks` | base/apps/waiter.c:83-91 | for every n of at least 2 a run at whose end n - 1 philosophers hold their left forks |
| `PhilosopherProgress.StepTotal` | base/apps/philosopher.c:69-125 | no turn but waking up brings anybody farther from thinking again, and only asking and serving in vain bring nobody closer |
| `PhilosopherProgress.RequestIsServed` | base/apps/waiter.c:48-102 | a request in the mailbox that can be granted is granted when it is served, unless somebody comes closer before |
| `PhilosopherProgress.FairRoundsProgress` | base/apps/philosopher.c:79-123 | no livelock: a round in which everybody acts or asks and the waiter serves its mailbox brings somebody closer, unless everybody thinks |
| `PhilosopherProgress.FairRoundExists` | base/apps/philosopher.c:79-123 | there is such a round from every state |
| `PhilosopherProgress.EverybodyFinishes` | base/apps/philosopher.c:69-125 | from every reachable state, 6 n fair rounds in which nobody starts anew see everybody through its meal |
| `Starvation.Starves` | base/apps/waiter.c:83-91 | for any m a run in which a philosopher asks m times, has every request served and stays hungry, while its neighbour eats m times |
| `WaiterProgram.Waiter.constructor` | base/apps/waiter.c:24-27 | all forks free, none in use |
| `WaiterProgram.Waiter.Handle` | base/apps/waiter.c:64-91 | the waiter's variables and its reply are those of the protocol, on which `PhilosopherRuns.RequestsAreAnswered` says exactly what is granted |
| `WaiterProgram.Waiter.AppWaiter` | base/apps/waiter.c:48-102 | so are they after any number of messages, with all replies in order |
| `WaiterProgram.RequestFork` | base/apps/philosopher.c:81-85 | the request is sent once before every receive until one succeeds |
| `WaiterProgram.AppPhilosopher` | base/apps/philosopher.c:69-125 | what the program sends, for any outcomes of its receives, is exactly what a philosopher of the protocol sends in the turns that belong to them |
| `WaiterProgram.RunsFollowTheProgram` | base/apps/philosopher.c:69-125 | in every run a philosopher's phase and messages are those its turns lead to; what it sent is what the waiter received and what is queued |
| `WaiterProgram.ServingIsAppWaiter` | base/apps/waiter.c:48-102 | in every run the waiter's variables are those AppWaiter has after the messages received |
| `ObSpec.FreeFrom` | base/ob/ob.c:347-352 | the first free slot, or None only if the table is full |
| `ObSpec.CreateObjectOk` | base/ob/ob.c:31-85 | the invariant is kept with the new object on the list of its type |
| `ObSpec.AddHandleOk` | base/ob/ob.c:357-363 | the invariant is kept: HandleCount is again the number of slots |
| `ObSpec.DereferenceOk` | base/ob/ob.c:192-252 | giving up an owned reference never halts, frees the object exactly if it was the last one and the object is not permanent, and concerns no other object |
| `ObSpec.FreeOk` | base/ob/ob.c:136-190 | an object without handles can be freed: it is on its list and no slot names it |
| `ObSpec.CloseOk` | base/ob/ob.c:454-479 | closing an open handle empties its slot and gives up one reference; otherwise nothing changes |
| `ObSpec.OpenCloseRoundTrip` | base/ob/ob.c:316-374 | opening and closing again restores the state |
| `ObSpec.OpenOk` | base/ob/ob.c:316-374 | another type and a full table are told apart and change nothing; otherwise the least free handle names the object and both its counters are one more |
| `ObSpec.ReferenceOk` | base/ob/ob.c:376-406 | exactly the PointerCount of the object is one more, or it has another type and nothing changes; dereferencing it again restores the state |
| `ObSpec.ReferenceByHandleOk` | base/ob/ob.c:408-452 | exactly the PointerCount of the object that the handle names is one more, or nothing changes; dereferencing restores the state, and closing the handle first does not free the object |
| `ObProcesses.InheritOk` | base/ob/ob.c:266-287 | exactly the inheritable handles of the parent appear in the same slots, with their objects' counters raised and no other change |
| `ObProcesses.InitProcessOk` | base/ob/ob.c:254-290 | the same for the whole of ObInitProcess |
| `ObProcesses.InheritCounts` | base/ob/ob.c:278-279 | every inherited handle raises the counter of its object |
| `ObProcesses.CloseAllOk` | base/ob/ob.c:292-314 | never halts and frees nothing that is referenced otherwise; in the table of the current process exactly the handles are closed whose numbers are open in the victim's, and no other table changes |
| `ObProcesses.KillProcessOk` | base/ob/ob.c:292-314 | the tables after ObKillProcess; a victim that is current ends with an empty one |
| `ObProcesses.InheritExact` | base/ob/ob.c:266-279 | inheriting raises each HandleCount by the number of inheritable handles to the object |
| `ObProcesses.InitKillRoundTrip` | base/ob/ob.c:254-314 | inheriting and then closing all handles restores every counter |
| `ObjectManager.Manager.constructor` | base/ps/ps.c:93-94 | no objects and one process with an empty handle table satisfy the invariant |
| `ObjectManager.Manager.ObCreateObject` | base/ob/ob.c:31-85 | the header is filled in and linked at the head of the list of its type; without memory nothing changes |
| `ObjectManager.Manager.ObCreateObjectType` | base/ob/ob.c:87-134 | a permanent object with an empty list, at the head of the list of all types; without memory nothing changes |
| `ObjectManager.Manager.FindOnList` | base/ob/ob.c:151-189 | the walk finds the object in front of the one to unlink, and the bugcheck at line 189 is not reached |
| `ObjectManager.Manager.UnlinkAndFree` | base/ob/ob.c:136-190 | the object leaves its list and is gone, the other links being those of the list without it |
| `ObjectManager.Manager.ObDereferenceObject` | base/ob/ob.c:192-252 | the new state is that of Dereference, the assertions fail exactly when that halts, and the Delete method of the type is called once if the object is freed |
| `ObjectManager.Manager.ObReferenceObject` | base/ob/ob.c:376-406 | the state and status are those of Reference, whose effect `ObSpec.ReferenceOk` states |
| `ObjectManager.Manager.ObReferenceObjectByHandle` | base/ob/ob.c:408-452 | the state, status and object are those of ReferenceByHandle, whose effect `ObSpec.ReferenceByHandleOk` states |
| `ObjectManager.Manager.ObOpenObjectByPointer` | base/ob/ob.c:316-374 | the state, status and handle are those of Open, whose effect `ObSpec.OpenOk` states |
| `ObjectManager.Manager.ObCloseHandle` | base/ob/ob.c:454-479 | the state and status are those of Close; Delete is called once for every object freed |
| `ObjectManager.Manager.ObInitProcess` | base/ob/ob.c:254-290 | the loop gives the state of InitProcess |
| `ObjectManager.Manager.ObKillProcess` | base/ob/ob.c:292-314 | the loop gives the state of KillProcess and never reaches an assertion; Delete is called once for every object freed |
| `ObjectManager.Manager.ObGetFirstObjectOfType` | base/ob/ob.c:481-500 | the first object on the list of the type |
| `ObjectManager.Manager.ObGetNextObjectOfType` | base/ob/ob.c:502-522 | the next object on the list of its type |
| `Pids.LeastUnused` | base/ps/ps.c:118-126 | not in use, and everything between the start and it is |
| `Pids.LeastUnusedBound` | base/ps/ps.c:118-126 | at most the number of IDs in use above the start |
| `Pids.PIDInUse` | base/ps/ps.c:102-116 | true exactly for a PID some process has |
| `Pids.GetNewPID` | base/ps/ps.c:118-126 | terminates with the least positive PID not in use, at most one more than the number of positive PIDs in use |
| `System.ObStepOk` | base/ob/ob.c:316-479 | a step of the object manager that moves references and ownership together keeps the invariant of the kernel |
| `System.KeStepOk` | base/ke/scheduler.c:314-621 | so does a step of the scheduler that leaves everybody scheduled and the waiters blocked |
| `System.DropRefOk` | base/ob/ob.c:192-252 | a client that gives up a reference it owns never halts, and frees the object exactly if that was the last one |
| `System.ResumeAllOk` | base/ob/ob.c:605-616 | every process of the queue is resumed once although each resumption may preempt, and nobody else is touched |
| `System.SignalOk` | base/ob/ob.c:592-619 | a signal never halts, empties the queue, leaves exactly its processes running or ready and keeps the scheduler invariant |
| `System.SignalSpares` | base/ob/ob.c:605-616 | waiters that do not outrank the current process become ready in the order of the wait queue, and the current process runs on |
| `System.SignalHalts` | base/ob/ob.c:605-616 | a signal reaches KeBugCheck exactly if somebody on the queue is neither on the timer list nor on the blocked list |
| `System.StoppedWaiterBreaksSignal` | base/ob/ob.c:605-616 | which is so once a waiter was stopped, whatever the object |
| `System.WaitOk` | base/ob/ob.c:549-590 | waiting for a signaled object, or without memory for the queue entry, changes nothing; otherwise the process is blocked at the head of the queue without changing a counter, which halts exactly when nothing is ready |
| `System.NewProcessOk` | base/ps/ps.c:197-240 | a process object with its PID, control block and inherited handles keeps the invariant |
| `System.NewPidDiffers` | base/ps/ps.c:223 | no existing process has the new PID |
| `System.NewPidIsLeast` | base/ps/ps.c:116-126 | the new PID is the least positive one that no process has |
| `System.StartProcessOk` | base/ke/scheduler.c:216-239 | starting takes a reference for the scheduler and halts exactly for a priority of 32 or more |
| `System.CreateProcessOk` | base/ps/ps.c:178-276 | success leaves one handle, two references, the inherited table, the counters raised by what is inherited, the least unused PID, and a ready process of the given priority at the tail of its queue; without memory nothing changes; with a full handle table the object is freed, lists, tables and queues are as before, each counter is raised by the handles inherited, and the counters are as before exactly when nothing is inheritable |
| `System.StopProcessOk` | base/ke/scheduler.c:314-363 | stopping gives the scheduler's reference back |
| `System.CloseHandlesOk` | base/ob/ob.c:292-314 | closing handles never halts and never frees a process that is scheduled |
| `System.KillOk` | base/ps/ps.c:311-361 | the process is not scheduled any more, everybody who waited for it and its supervisor are running or ready, and nobody else enters or leaves the schedule; the process is freed unless a handle or a reference of somebody else is left, and nobody's references change; the process current by then, its supervisor told, loses exactly the handles whose numbers are open in the victim's table; it halts only if stopping does |
| `System.KillLeavesHandlesOpen` | base/ob/ob.c:304-313 | killing never closes a handle of the victim |
| `SystemRuns.BootKernelOk` | base/ps/ps.c:65-100 | the invariant of the kernel holds at boot |
| `SystemRuns.DoOk` | base/ps/ps.c:178-361 | every allowed call keeps the invariant of the kernel and halts exactly when HaltsIn says: never because of the object manager |
| `SystemRuns.CountsAreConserved` | base/ob/ob.c:192-452 | after any allowed run HandleCount is the number of slots that name the object, in the tables of existing processes and in those of freed ones, and PointerCount that number plus the references owned by clients and the scheduler |
| `SystemRuns.RunGoesOn` | base/ps/ps.c:178-361 | a run can be continued with any allowed call of which HaltsIn does not say that it halts |
| `SystemRuns.LostHandlesStay` | base/ob/ob.c:292-314 | the handles in the table of a freed process are never closed |
| `SystemRuns.NothingFreedIsReachable` | base/ob/ob.c:136-522 | no slot names a freed object, nothing scheduled is freed, and each type list holds exactly the objects of its type, once each |
| `SystemRuns.PidsDiffer` | base/ps/ps.c:102-126 | after any run the process objects that exist have different PIDs |
| `SystemRuns.WaitersAreSafe` | base/ob/ob.c:549-619 | nobody waits for a signaled object; a waiter is blocked, scheduled and on one queue, and its object is not freed |
| `SystemRuns.WaiterUntilSignal` | base/ob/ob.c:592-619 | a waiter stays blocked and queued through every call until its object is signaled, and is then resumed, once, to running or ready |
| `Shortfalls.FailedCreationLeaks` | base/ps/ps.c:252-258 | a run at whose end a failed creation leaves 512 handles counted instead of 256 |
| `Shortfalls.KillClosesWrongHandle` | base/ob/ob.c:304-313 | a run at whose end a kill leaves the victim's handle open and closes that of the current process |
| `Shortfalls.ChangingCanInvert` | base/ke/scheduler.c:439-464 | a run at whose end the running process is given a priority below that of a ready one, and runs on |
| `Shortfalls.StartingCanInvert` | base/ke/scheduler.c:216-239 | a process of priority 5, started while the idle process runs, has to wait |
| `Strings.LongTextIsSigned` | base/rtl/string.c:90-109 | what is printed for a LONG is its decimal text if and only if it is not -2^31 |
| `Strings.LeastLongText` | base/rtl/string.c:97-106 | what is printed for -2^31: two minus signs and a wrong last digit |
| `Strings.Output.PrintChar` | base/rtl/string.c:62-75 | one character is written if there is room, and counted anyway |
| `Strings.Output.PrintString` | base/rtl/string.c:77-88 | the string is written as far as there is room |
| `Strings.Output.PrintLong` | base/rtl/string.c:90-109 | the text LongText is written as far as there is room, through all levels of the recursion |
| `Strings.Output.PrintUlong` | base/rtl/string.c:111-125 | the decimal text is written as far as there is room |
| `Strings.Output.PrintHex` | base/rtl/string.c:127-146 | the hexadecimal text is written as far as there is room |
| `Strings.HexadecimalStandsFor` | base/rtl/string.c:127-146 | read in base 16 the hexadecimal text of n is n, without leading zeros |
| `Strings.RtlFormatString` | base/rtl/string.c:148-202 | the first min(length, size - 1) characters of the whole text, then a null, nothing else touched, and the length of the whole text returned |
| `Strings.ExpansionIsIdeal` | base/rtl/string.c:166-195 | the whole text is the ideal one if and only if -2^31 is not printed with %d; each time it is costs one character |
| `Strings.FormatMeans` | base/rtl/string.c:164-195 | for every list of pieces (literals, signed, hexadecimal and unsigned numbers, characters, strings, percent pairs) the format and arguments made from it expand to its text, exactly if -2^31 is not among them |
| `Strings.FormatHasPieces` | base/rtl/string.c:164-195 | every format with matching arguments is made from such a list |
| `Strings.ToLongIs` | base/rtl/string.c:170 | an argument of %d is the number in the range of LONG that is congruent to its word |
| `Strings.RtlAtoUL` | base/rtl/string.c:204-217 | the value of what follows the leading spaces, in ULONG arithmetic |
| `Strings.ParsingIsExact` | base/rtl/string.c:212-215 | parsing what is printed for n is exact and at most n after every digit |
| `Strings.DecimalRoundTrip` | base/rtl/string.c:111-125 | any number of spaces and the printed digits of n are read back as n |
| `Strings.SignedRoundTrip` | base/rtl/string.c:90-109 | the signed text of n is a minus sign if n is negative, and digits that are read back as its absolute value |
| `Strings.ValueIsWhole` | base/rtl/string.c:212-215 | on every string the result is the number its characters make, digits or not, modulo 2^32 |
| `Strings.SpacesSkipped` | base/rtl/string.c:209-210 | exactly the leading spaces are skipped |
| `Mailbox.Mailbox.SendMessage` | base/mess/mess.c:164-195 | the message is queued last, and handed to a receiver that waits for any message or for its type; the effect is that of Step |
| `Mailbox.MessSendMessage` | base/mess/mess.c:112-155 | without memory, or a receiver with that PID, the status says so and nothing changes |
| `Mailbox.Mailbox.StopWaiting` | base/mess/mess.c:95-110 | a receiver whose time is up waits no more |
| `Mailbox.Mailbox.ReceiveFirst` | base/mess/mess.c:201-222 | the first message is taken off the queue, or the receiver waits, unlisted if memory is short; the effect is that of Step |
| `Mailbox.Mailbox.DeleteMessage` | base/mess/mess.c:317-353 | the message is taken off the queue if it is there and nothing else is, as Step has it; the status of each case |
| `Mailbox.ExactlyOnceInOrder` | base/mess/mess.c:164-353 | under receive-then-delete, with any sends and timeouts in between, messages are received exactly once in the order of sending |
| `Mailbox.MailboxIsFifo` | base/mess/mess.c:201-222 | the same from an empty mailbox |
| `Mailbox.WaitsWhenEmpty` | base/mess/mess.c:201-222 | a receiver waits exactly if the last thing that happened was that it asked for a message when there was none: any message and any timeout ends the wait |
| `Mailbox.MailboxDrains` | base/mess/mess.c:201-222 | receiving and deleting as often as there are messages gets all of them in order |
| `Serial.Node.constructor` | base/io/io.c:174-181 | the node holds the string and its null |
| `Serial.Output.IoWriteSerial` | base/io/io.c:169-192 | the string is queued last; outputPointer is not null exactly when the queue is not empty, and points into its first node |
| `Serial.Output.IoTransmitterInterruptHandler` | base/io/io.c:272-300 | the next character is displayed, or the queue moves on to the next string |
| `Serial.OutputIsInOrder` | base/io/io.c:272-300 | over any interleaving what was sent and what remains is what was to be sent and what was written |
| `Serial.DisplayIsPrefix` | base/io/io.c:169-192 | the characters displayed are a prefix of the strings in the order of writing, all of them once the queue is empty |
| `Serial.DrainTime` | base/io/io.c:272-300 | the queue is empty after m interrupts exactly if m is at least the sum of the lengths plus one for each string |
| `Serial.Fifo.AddCharToBuffer` | base/io/io.c:36-43 | the character is buffered unless there are fifteen already |
| `Serial.Fifo.GetFirstCharFromBuffer` | base/io/io.c:48-60 | the first character is taken out by shifting the others |

## Left out

- KeScheduler.Scheduler.KeResumeProcess: counts the calls of a ResumeMethod but not what it does, which is to edit the list of waiting receivers in base/mess/mess.c.
- KeScheduler.Scheduler.KeStopSchedulingProcess: does not free the object when that was the last reference; `System.StopProcess` does.
- AddHandleOk: the counters are unbounded; that they stay below 2^32 is not shown.
- SuspensionIsBounded: assumes that the tick counter does not wrap around, after about 49.7 days; so do the other timing results that say so.
- WaitOk: the wait queue of an object is a sequence, not a linked list of entries, and a process that waits is neither killed nor resumed by somebody else.
- System.CreateProcessOk: process creation and killing work on the abstract state, not on the classes; arguments, program lookup, message queues and the exit status are not modelled.
- NothingFreedIsReachable: the handle table of a freed process counts as if it still existed, since its open handles are never closed.
- Pids.GetNewPID: PIDs are unbounded, and the list of process objects is the sequence of their PIDs.
- RtlFormatString: arguments that do not match the format and a format that ends in a lone percent sign are excluded; both read memory that is not the caller's.
- RtlFormatString: a C string is its characters before the null, and words are stored with the low byte first.
- AppWaiter: the limit of 300 messages is not kept; the results hold for any number of messages.
- ObDereferenceObject: counts the calls of a Delete method but not what it does; no type of the kernel itself has one.
- Mailbox.Mailbox.SendMessage: the list of waiting receivers is one optional entry for each mailbox. MessReceiveType is not modelled: it clears the link of a message before it reads it.
- IoWriteSerial: strings are shorter than 512 characters, as the buffer requires.
- Reading from the serial line, the LCD, files and their handles.
- The reference that PsChangePriority keeps.
- Hardware, context switching, system calls, the debugger, the allocator, and the other applications.
