// The scheduler of base/ke/scheduler.c on process objects: 32 ready queues, the
// blocked list and the timer list, all threaded through NextPCB. Ghost fields
// hold the abstract state, in which a process is known by its id; every method
// is proved against SchedulerSpec.

module KeScheduler {
  import opened Lists
  import opened Words
  import opened SchedulerSpec
  import opened SchedulerLinks

  class Process {
    ghost const id: nat
    var State: ProcessState
    var Priority: nat
    var Quantum: nat
    var WakeUpTime: nat
    var CPUTime: nat
    var NextPCB: Process?
    var ResumeMethod: bool           // whether there is one
    ghost var calls: nat             // how often it was called
    var PointerCount: nat            // in the header of the object

    // A zeroed process object with the given priority, as PsCreateProcess leaves it.
    constructor (ghost id: nat, priority: nat)
      ensures this.id == id && Shows(Pcb(Created, priority, 0, 0, 0)) && NextPCB == null
      ensures !ResumeMethod && calls == 0 && PointerCount == 1
    {
      this.id := id;
      State, Priority, Quantum, WakeUpTime, CPUTime := Created, priority, 0, 0, 0;
      NextPCB, ResumeMethod, calls, PointerCount := null, false, 0, 1;
    }

    ghost predicate Shows(b: Pcb)
      reads this`State, this`Priority, this`Quantum, this`WakeUpTime, this`CPUTime
    {
      b == Pcb(State, Priority, Quantum, WakeUpTime, CPUTime)
    }
  }

  // pointer is null, or the object with the given id.
  ghost predicate Refers(objs: set<Process>, pointer: Process?, o: Option<nat>) {
    match o
    case None => pointer == null
    case Some(i) => pointer != null && pointer in objs && pointer.id == i
  }

  lemma {:induction false} ReferenceHolds(objs: set<Process>, more: set<Process>)
    requires objs <= more
    ensures forall pointer, o {:trigger Refers(objs, pointer, o)} ::
              Refers(objs, pointer, o) ==> Refers(more, pointer, o)
  {
  }

  lemma {:induction false} NullRefers(objs: set<Process>)
    ensures Refers(objs, null, None)
  {
  }

  class Scheduler {
    const readyFirst: array<Process?>    // KepReadyQueues[k].First
    const readyLast: array<Process?>     // KepReadyQueues[k].Last
    var blockedList: Process?            // KepBlockedList
    var timerList: Process?              // KepTimerList
    var current: Process                 // KeCurrentProcess
    var tickCount: nat                   // KepTickCount

    // All process objects, the abstract state, and the links it calls for.
    ghost var objs: set<Process>
    ghost var pcb: map<nat, Pcb>
    ghost var ready: seq<seq<nat>>
    ghost var blocked: seq<nat>
    ghost var timer: seq<nat>
    ghost var links: Links<nat>

    ghost function S(): Sched<nat>
      reads this
    {
      Sched(pcb, ready, blocked, timer, current.id, tickCount)
    }

    ghost predicate Distinct()
      reads this`objs
    {
      forall p, q {:trigger p.id, q.id} | p in objs && q in objs :: p.id == q.id ==> p == q
    }

    ghost predicate Records()
      reads this`objs, this`pcb, objs`State, objs`Priority, objs`Quantum, objs`WakeUpTime, objs`CPUTime
    {
      forall p | p in objs :: p.id in pcb && p.Shows(pcb[p.id])
    }

    ghost predicate Chained()
      reads this`objs, this`links, objs`NextPCB
    {
      && (forall p | p in objs :: p.id in links)
      && (forall p {:trigger p.NextPCB} | p in objs :: Refers(objs, p.NextPCB, links[p.id]))
    }

    // Last is meaningful only while First is not null.
    ghost predicate QueueHeads()
      reads this`objs, this`ready, readyFirst, readyLast
    {
      && readyFirst.Length == readyLast.Length == LEVELS == |ready| && readyFirst != readyLast
      && (forall k :: 0 <= k < LEVELS ==> Refers(objs, readyFirst[k], First(ready[k])))
      && (forall k :: 0 <= k < LEVELS && ready[k] != [] ==> Refers(objs, readyLast[k], Some(ready[k][|ready[k]| - 1])))
    }

    // Records, links, heads and tails are those of the abstract state.
    ghost predicate Valid()
      reads this, readyFirst, readyLast, objs
    {
      && Distinct()
      && current in objs
      && Records()
      && Chained()
      && QueueHeads()
      && LinksOk(S(), links)
      && Refers(objs, blockedList, First(blocked))
      && Refers(objs, timerList, First(timer))
    }

    // The zeroed kernel variables, with the boot process of PsInitialize current.
    constructor (idle: Process)
      requires idle.Shows(Pcb(Created, 0, 1, 0, 0)) && idle.NextPCB == null
      ensures Valid() && S() == Boot(idle.id) && objs == {idle}
      ensures fresh(readyFirst) && fresh(readyLast)
    {
      readyFirst := new Process?[LEVELS](_ => null);
      readyLast := new Process?[LEVELS](_ => null);
      blockedList, timerList, current, tickCount := null, null, idle, 0;
      objs := {idle};
      pcb, ready, blocked, timer := map[idle.id := Pcb(Created, 0, 1, 0, 0)], seq(LEVELS, _ => []), [], [];
      links := map[idle.id := None];
    }

    lemma {:induction false} Shown(process: Process)
      requires Records() && process in objs
      ensures process.id in pcb && process.Shows(pcb[process.id])
    {
    }

    // The link of a process that is on no list is null.
    lemma {:induction false} OffList(process: Process)
      requires Valid() && process in objs && Unlisted(S(), process.id)
      ensures process.NextPCB == null
    {
      hide ListsOk, QueueHeads, Records, Distinct;
      assert Next(S(), process.id) == None;
    }

    // process->State = st
    method MarkState(process: Process, st: ProcessState)
      requires Valid() && process in objs
      modifies process`State, this`pcb
      ensures Valid() && S() == SetState(old(S()), process.id, st)
    {
      SameLinks(S(), SetState(S(), process.id, st), links);
      hide LinksOk;
      process.State := st;
      pcb := pcb[process.id := pcb[process.id].(state := st)];
    }

    // process->NextPCB = next
    method SetLink(process: Process, next: Process?, ghost o: Option<nat>)
      requires Distinct() && Chained() && process in objs && Refers(objs, next, o)
      modifies process`NextPCB, this`links
      ensures Chained() && links == old(links)[process.id := o]
    {
      process.NextPCB := next;
      links := links[process.id := o];
    }

    // The ready queue k, empty so far, becomes [process].
    method SetOnly(k: nat, process: Process)
      requires QueueHeads() && k < LEVELS && ready[k] == [] && process in objs
      modifies this`ready, readyFirst, readyLast
      ensures QueueHeads() && ready == old(ready)[k := old(ready)[k] + [process.id]]
    {
      readyFirst[k] := process;
      readyLast[k] := process;
      ready := ready[k := ready[k] + [process.id]];
    }

    // process becomes the last of ready queue k.
    method SetTail(k: nat, process: Process)
      requires QueueHeads() && k < LEVELS && ready[k] != [] && process in objs
      modifies this`ready, readyLast
      ensures QueueHeads() && ready == old(ready)[k := old(ready)[k] + [process.id]]
    {
      readyLast[k] := process;
      ready := ready[k := ready[k] + [process.id]];
    }

    // process behind the last process of ready queue k.
    method Hook(k: nat, process: Process)
      requires Distinct() && Chained() && QueueHeads() && k < LEVELS && process in objs
      requires ready[k] != [] ==> ready[k][|ready[k]| - 1] in links && links[ready[k][|ready[k]| - 1]] == None
      modifies this`ready, this`links, readyFirst, readyLast, objs`NextPCB
      ensures Chained() && QueueHeads() && ready == old(ready)[k := old(ready)[k] + [process.id]]
      ensures var l := old(ready)[k];
              links == if l == [] then old(links) else old(links)[l[|l| - 1] := Some(process.id)]
    {
      if readyFirst[k] != null {
        assert readyLast[k].NextPCB == null;
        SetLink(readyLast[k], process, Some(process.id));
        SetTail(k, process);
      } else {
        SetOnly(k, process);
      }
    }

    // The pointer part of KepEnqueueProcess.
    method LinkAtTail(process: Process)
      requires Valid() && ListsOk(S()) && process in objs && Unlisted(S(), process.id) && process.Priority < LEVELS
      modifies this`ready, this`links, readyFirst, readyLast, objs`NextPCB
      ensures Valid() && S() == Append(old(S()), process.Priority, process.id)
    {
      hide ListsOk, LinksOk, Next, Succ, NoDup, Records, Chained, QueueHeads, Distinct, Refers;
      Shown(process);
      EnqueueLinks(S(), links, process.id);
      Hook(process.Priority, process);
    }

    // KepEnqueueProcess
    method KepEnqueueProcess(process: Process)
      requires Valid() && ListsOk(S()) && process in objs && Unlisted(S(), process.id) && process.Priority < LEVELS
      modifies this`pcb, this`ready, this`links, readyFirst, readyLast, objs`NextPCB, process`State
      ensures Valid() && S() == Enqueue(old(S()), process.id)
    {
      hide ListsOk, LinksOk, NoDup, Records, Chained, QueueHeads, Distinct, Refers;
      Shown(process);
      OffList(process);
      assert process.NextPCB == null;
      LinkAtTail(process);
      MarkState(process, Ready);
    }

    // Unlinking process: previous, if there is one, links past it.
    method Bypassed(process: Process, previous: Process?, ghost before: Option<nat>)
      requires Distinct() && Chained() && process in objs && Refers(objs, previous, before)
      requires LinkedFrom(links, process.id, before) && before != Some(process.id)
      modifies this`links, objs`NextPCB
      ensures Chained() && links == Bypass(old(links), process.id)
    {
      BypassIs(links, process.id, before);
      hide LinkedFrom, Bypass;
      if previous != null {
        SetLink(previous, process.NextPCB, links[process.id]);
      }
      SetLink(process, null, None);
    }

    // Ready queue k becomes l, from which process was unlinked: at the head
    // when previous is null, and behind previous otherwise.
    method Shorten(k: nat, process: Process, previous: Process?, ghost l: seq<nat>)
      requires Distinct() && QueueHeads() && k < LEVELS && ready[k] != [] && process in objs
      requires if previous == null then Refers(objs, process.NextPCB, First(l))
               else previous in objs && l != [] && First(l) == First(ready[k])
      requires l != [] ==> var z := ready[k][|ready[k]| - 1];
                           l[|l| - 1] == if z == process.id && previous != null then previous.id else z
      modifies this`ready, readyFirst, readyLast
      ensures QueueHeads() && ready == old(ready)[k := l]
    {
      if previous == null {
        readyFirst[k] := process.NextPCB;
      } else if readyLast[k] == process {
        readyLast[k] := previous;
      }
      ready := ready[k := l];
    }

    // Both at once, with the abstract effect given.
    method Splice(k: nat, process: Process, previous: Process?, ghost before: Option<nat>, ghost l: seq<nat>)
      requires Distinct() && Chained() && QueueHeads() && k < LEVELS && ready[k] != [] && process in objs
      requires Refers(objs, previous, before) && LinkedFrom(links, process.id, before) && before != Some(process.id)
      requires First(l) == if before.None? then links[process.id] else First(ready[k])
      requires before.Some? ==> l != []
      requires l != [] ==> var z := ready[k][|ready[k]| - 1];
                           l[|l| - 1] == if z == process.id && before.Some? then before.value else z
      modifies this`ready, this`links, readyFirst, readyLast, objs`NextPCB
      ensures Chained() && QueueHeads() && links == Bypass(old(links), process.id) && ready == old(ready)[k := l]
    {
      assert Refers(objs, process.NextPCB, links[process.id]);
      Shorten(k, process, previous, l);
      hide LinkedFrom, Bypass;
      Bypassed(process, previous, before);
    }

    // KepDequeueProcess, given the process in front of process, if any.
    method Unlink(process: Process, previous: Process?, ghost before: Option<nat>)
      requires Valid() && ListsOk(S()) && process in objs && process.Priority < LEVELS
      requires Precedes(ready[process.Priority], before, process.id) && Refers(objs, previous, before)
      modifies this`ready, this`links, readyFirst, readyLast, objs`NextPCB
      ensures Valid() && S() == Dequeue(old(S()), process.id)
    {
      hide LinksOk, Next, Succ, NoDup, Records, Chained, QueueHeads, Remove, LinkedFrom, Bypass, Distinct, Refers;
      var k := process.Priority;
      Shown(process);
      DequeueEffect(S(), links, process.id, before);
      Splice(k, process, previous, before, Remove(ready[k], process.id));
    }

    // The walk along a list in search of process, and the process in front of it.
    method Predecessor(head: Process?, process: Process, ghost l: seq<nat>)
      returns (found: bool, previous: Process?, ghost before: Option<nat>)
      requires Distinct() && Chained() && process in objs && Refers(objs, head, First(l)) && Threads(links, l)
      ensures found <==> process.id in l
      ensures found ==> Precedes(l, before, process.id) && Refers(objs, previous, before)
    {
      if head == null {
        return false, null, None;
      }
      if head == process {
        return true, null, None;
      }
      var c: Process := head;
      ghost var j := 0;
      assert c.NextPCB != null ==> c.NextPCB in objs;
      SuccAt(l, j);
      while c.NextPCB != null
        invariant j < |l| && c in objs && c.id == l[j] && process.id !in l[..j + 1]
        invariant Refers(objs, c.NextPCB, if j + 1 < |l| then Some(l[j + 1]) else None)
        decreases |l| - j
      {
        if c.NextPCB == process {
          RemoveAt(l, j + 1);
          SuccAt(l, j);
          return true, c, Some(c.id);
        }
        c := c.NextPCB;
        j := j + 1;
        SuccAt(l, j);
        assert l[..j + 1] == l[..j] + [l[j]];
      }
      assert l[..j + 1] == l;
      return false, null, None;
    }

    // KepDequeueProcess
    method KepDequeueProcess(process: Process)
      requires Valid() && ListsOk(S()) && process in objs && process.Priority < LEVELS
      requires process.id in ready[process.Priority]
      modifies this`ready, this`links, readyFirst, readyLast, objs`NextPCB
      ensures Valid() && S() == Dequeue(old(S()), process.id)
    {
      var k := process.Priority;
      QueueLinks(S(), links, k);
      ghost var before;
      var found, previous;
      found, previous, before := Predecessor(readyFirst[k], process, ready[k]);
      hide *;
      assert found;  // KeBugCheck is not reached
      Unlink(process, previous, before);
    }

    // KepRemoveFromProcessList on the list that starts at head: the new head.
    method KepRemoveFromProcessList(head: Process?, process: Process, ghost l: seq<nat>)
      returns (found: bool, first: Process?)
      requires Distinct() && Chained() && process in objs && Refers(objs, head, First(l)) && Threads(links, l)
      modifies this`links, objs`NextPCB
      ensures found <==> process.id in l
      ensures Chained() && Refers(objs, first, First(Remove(l, process.id)))
      ensures links == if found then Bypass(old(links), process.id) else old(links)
    {
      ghost var before;
      var previous;
      found, previous, before := Predecessor(head, process, l);
      first := head;
      if found {
        OnlyPredecessor(links, l, process.id, before);
        RemoveEnds(l, process.id);
        SuccInjective(l, process.id, process.id);
        assert First(Remove(l, process.id)) == if before.None? then links[process.id] else First(l);
        if previous == null {
          first := process.NextPCB;
        }
        hide NoDup, Succ, Remove, LinkedFrom, Bypass, Precedes, Threads;
        Bypassed(process, previous, before);
      }
    }

    // KepRemoveFromProcessList(&KepTimerList, process)
    method CutSleeper(process: Process) returns (found: bool)
      requires Distinct() && Chained() && process in objs
      requires Refers(objs, timerList, First(timer)) && Threads(links, timer)
      modifies this`timerList, this`timer, this`links, objs`NextPCB
      ensures found <==> process.id in old(timer)
      ensures Chained() && Refers(objs, timerList, First(timer)) && timer == Remove(old(timer), process.id)
      ensures links == if found then Bypass(old(links), process.id) else old(links)
    {
      found, timerList := KepRemoveFromProcessList(timerList, process, timer);
      timer := Remove(timer, process.id);
    }

    method RemoveSleeper(process: Process) returns (found: bool)
      requires Valid() && ListsOk(S()) && process in objs
      modifies this`timerList, this`timer, this`links, objs`NextPCB
      ensures found <==> process.id in old(timer)
      ensures Valid() && S() == old(S()).(timer := Remove(old(timer), process.id))
    {
      hide ListsOk, LinksOk, Next, Succ, NoDup, Bypass, Remove, Records, Chained, QueueHeads, Threads, Distinct, Refers;
      ListLinks(S(), links);
      TimerLinks(S(), links, process.id);
      found := CutSleeper(process);
    }

    // KepRemoveFromProcessList(&KepBlockedList, process)
    method CutBlocked(process: Process) returns (found: bool)
      requires Distinct() && Chained() && process in objs
      requires Refers(objs, blockedList, First(blocked)) && Threads(links, blocked)
      modifies this`blockedList, this`blocked, this`links, objs`NextPCB
      ensures found <==> process.id in old(blocked)
      ensures Chained() && Refers(objs, blockedList, First(blocked)) && blocked == Remove(old(blocked), process.id)
      ensures links == if found then Bypass(old(links), process.id) else old(links)
    {
      found, blockedList := KepRemoveFromProcessList(blockedList, process, blocked);
      blocked := Remove(blocked, process.id);
    }

    method RemoveBlocked(process: Process) returns (found: bool)
      requires Valid() && ListsOk(S()) && process in objs && process.id !in timer
      modifies this`blockedList, this`blocked, this`links, objs`NextPCB
      ensures found <==> process.id in old(blocked)
      ensures Valid() && S() == old(S()).(blocked := Remove(old(blocked), process.id))
    {
      hide ListsOk, LinksOk, Next, Succ, NoDup, Bypass, Remove, Records, Chained, QueueHeads, Threads, Distinct, Refers;
      ListLinks(S(), links);
      BlockedLinks(S(), links, process.id);
      found := CutBlocked(process);
    }

    // Off the timer list or, failing that, the blocked list.
    method RemoveWaiting(process: Process) returns (found: bool)
      requires Valid() && ListsOk(S()) && process in objs
      modifies this`timerList, this`blockedList, this`timer, this`blocked, this`links, objs`NextPCB
      ensures found <==> process.id in old(timer) || process.id in old(blocked)
      ensures Valid() && S() == Unblock(old(S()), process.id)
    {
      found := RemoveSleeper(process);
      if !found {
        found := RemoveBlocked(process);
      }
    }

    // KeCurrentProcess->Quantum = 5 and KeCurrentProcess->State = running
    method MarkRunning()
      requires Valid()
      modifies current`State, current`Quantum, this`pcb
      ensures Valid() && S() == Dispatch(old(S()), current.id)
    {
      SameLinks(S(), Dispatch(S(), current.id), links);
      hide LinksOk, QueueHeads, Chained;
      current.Quantum := FULL_QUANTUM;
      current.State := Running;
      pcb := pcb[current.id := pcb[current.id].(quantum := FULL_QUANTUM, state := Running)];
    }

    // KeCurrentProcess = KepReadyQueues[i].First
    method MakeCurrent(i: nat)
      requires Valid() && i < LEVELS && ready[i] != []
      modifies this`current
      ensures Valid() && current.id == ready[i][0] && S() == old(S()).(current := ready[i][0])
    {
      SameLinks(S(), S().(current := ready[i][0]), links);
      hide LinksOk, Records, Chained;
      current := readyFirst[i];
    }

    // The current process goes back to its ready queue unless it got blocked.
    method Requeue()
      requires Valid() && QueuesOk(S())
      modifies this`pcb, this`ready, this`links, readyFirst, readyLast, objs`NextPCB, current`State
      ensures Valid() && ListsOk(S()) && S() == Requeued(old(S()))
    {
      UnlistedIs(S(), current.id);
      assert current.State == pcb[current.id].state && current.Priority == pcb[current.id].priority;
      if current.State != Blocked {
        EnqueueOk(S(), current.id);
        hide ListsOk, Unlisted;
        KepEnqueueProcess(current);
      }
    }

    // The head of ready queue i becomes current.
    method TakeHead(i: nat)
      requires Valid() && ListsOk(S()) && i < LEVELS && ready[i] != []
      modifies this`current, this`ready, this`links, readyFirst, readyLast, objs`NextPCB
      ensures Valid() && S() == TakeFirst(old(S()), i)
    {
      HeadIs(S(), i);
      MakeCurrent(i);
      assert current.Priority == pcb[current.id].priority;
      hide ListsOk;
      KepDequeueProcess(current);
    }

    // The highest non-empty ready queue, down to level bottom.
    method Scan(bottom: nat) returns (i: int)
      requires QueueHeads() && bottom < LEVELS
      ensures bottom - 1 <= i < LEVELS && (i >= bottom ==> ready[i] != [])
      ensures forall k :: i < k < LEVELS ==> ready[k] == []
    {
      i := LEVELS - 1;
      while i >= bottom && readyFirst[i] == null
        invariant bottom - 1 <= i < LEVELS
        invariant forall k :: i < k < LEVELS ==> ready[k] == []
      {
        i := i - 1;
      }
    }

    // KepReschedule
    method KepReschedule() returns (alive: bool)
      requires Valid() && QueuesOk(S())
      modifies this`current, this`pcb, this`ready, this`links, readyFirst, readyLast
      modifies objs`NextPCB, objs`State, objs`Quantum
      ensures alive <==> Reschedule(old(S())).Continues?
      ensures alive ==> Valid() && S() == Reschedule(old(S())).value
    {
      hide ListsOk, LinksOk, NoDup, Records, Chained, QueueHeads, Distinct, Refers, Requeued, TakeFirst, Dispatch,
        Reschedule;
      Shown(current);
      var bottom := if current.State == Blocked then 0 else current.Priority;
      var i := Scan(bottom);
      RescheduleIs(S(), i);
      if i >= bottom {
        Requeue();
        TakeHead(i);
      } else if current.State == Blocked {
        return false;
      }
      MarkRunning();
      return true;
    }

    // A new process object, as PsCreateProcess fills it in.
    method CreateProcess(ghost id: nat, priority: nat) returns (process: Process)
      requires Valid() && id !in pcb && !Listed(S(), id) && ListsOk(S())
      modifies this`objs, this`pcb, this`links
      ensures fresh(process) && process.id == id && objs == old(objs) + {process}
      ensures Valid() && S() == Create(old(S()), id, priority)
    {
      hide ListsOk, LinksOk, NoDup, Listed, First, Refers;
      CreateLinks(S(), links, id, priority);
      process := new Process(id, priority);
      ReferenceHolds(objs, objs + {process});
      NullRefers(objs + {process});
      objs := objs + {process};
      pcb := pcb[id := Pcb(Created, priority, 0, 0, 0)];
      links := links[id := None];
    }

    // KeStartSchedulingProcess takes a reference for the scheduler.
    method KeStartSchedulingProcess(process: Process) returns (alive: bool)
      requires Valid() && Core(S()) && process in objs && !Scheduled(S(), process.id)
      modifies this`pcb, this`ready, this`links, readyFirst, readyLast, objs`NextPCB, process`State
      modifies process`PointerCount
      ensures alive <==> Start(old(S()), process.id).Continues?
      ensures process.PointerCount == old(process.PointerCount) + 1
      ensures alive ==> Valid() && S() == Start(old(S()), process.id).value
    {
      hide ListsOk, LinksOk, NoDup, Records, Chained, QueueHeads, Distinct, Refers, Enqueue, Unlisted, Listed;
      Shown(process);
      process.PointerCount := process.PointerCount + 1;
      if process.Priority >= LEVELS {
        return false;
      }
      UnlistedIs(S(), process.id);
      KepEnqueueProcess(process);
      return true;
    }

    // KeCurrentProcess at the head of the blocked list.
    method PushBlocked()
      requires Distinct() && Chained() && current in objs && Refers(objs, blockedList, First(blocked))
      modifies this`blockedList, this`blocked, this`links, current`NextPCB
      ensures Chained() && Refers(objs, blockedList, First(blocked))
      ensures blocked == [current.id] + old(blocked) && links == old(links)[current.id := First(old(blocked))]
    {
      SetLink(current, blockedList, First(blocked));
      blockedList := current;
      blocked := [current.id] + blocked;
    }

    method LinkBlocked()
      requires Valid() && Core(S())
      modifies this`blockedList, this`blocked, this`pcb, this`links, current`State, current`NextPCB
      ensures Valid()
      ensures S() == SetState(old(S()).(blocked := [current.id] + old(blocked)), current.id, Blocked)
    {
      hide ListsOk, LinksOk, NoDup, Records, Chained, QueueHeads, Distinct, Refers, First;
      BlockLinks(S(), links);
      MarkState(current, Blocked);
      PushBlocked();
    }

    // KeBlockProcess
    method KeBlockProcess() returns (alive: bool)
      requires Valid() && Core(S())
      modifies this`current, this`pcb, this`ready, this`blocked, this`timer, this`links
      modifies this`blockedList, this`timerList
      modifies readyFirst, readyLast, objs`NextPCB, objs`State, objs`Quantum, current`ResumeMethod
      ensures !old(current).ResumeMethod && (alive <==> Block(old(S())).Continues?)
      ensures alive ==> Valid() && S() == Block(old(S())).value
    {
      hide ListsOk, LinksOk, NoDup, Records, Chained, QueueHeads, Distinct, Refers, Reschedule;
      BlockedIsOk(S());
      current.ResumeMethod := false;
      LinkBlocked();
      alive := KepReschedule();
    }

    // KeStopSchedulingProcess gives up the reference of the scheduler.
    method KeStopSchedulingProcess(process: Process) returns (alive: bool)
      requires Valid() && Core(S()) && process in objs && Scheduled(S(), process.id)
      modifies this`current, this`pcb, this`ready, this`blocked, this`timer, this`links
      modifies this`blockedList, this`timerList
      modifies readyFirst, readyLast, objs`NextPCB, objs`State, objs`Quantum, process`PointerCount
      ensures alive <==> Stop(old(S()), process.id).Continues? && old(process.PointerCount) > 0
      ensures alive ==> Valid() && S() == Stop(old(S()), process.id).value
      ensures alive ==> process.PointerCount == old(process.PointerCount) - 1
    {
      hide ListsOk, LinksOk, NoDup, Records, Chained, QueueHeads, Distinct, Refers, Reschedule, Listed, Remove;
      Shown(process);
      WhereScheduled(S(), process.id);
      match process.State {
        case Running =>
          MarkState(process, Blocked);
          alive := KepReschedule();
        case Ready =>
          KepDequeueProcess(process);
          alive := true;
        case Blocked =>
          alive := RemoveWaiting(process);
          assert alive;  // KeBugCheck is not reached
        case _ =>
          alive := false;
      }
      if alive {
        alive := process.PointerCount > 0;
        process.PointerCount := if alive then process.PointerCount - 1 else 0;
      }
    }

    // From the waiting lists to the ready queue.
    method MoveToReady(process: Process) returns (found: bool)
      requires Valid() && Core(S()) && process in objs
      modifies this`timerList, this`blockedList, this`timer, this`blocked, this`pcb, this`ready, this`links
      modifies readyFirst, readyLast, objs`NextPCB, process`State
      ensures found <==> process.id in old(timer) || process.id in old(blocked)
      ensures found ==> Valid() && S() == MakeReady(old(S()), process.id) && Core(S())
    {
      hide LinksOk, NoDup, Records, Chained, QueueHeads, Distinct, Refers, Unblock, Unlisted, Listed;
      Shown(process);
      if process.id in timer || process.id in blocked {
        MakeReadyOk(S(), process.id);
        UnblockOk(S(), process.id);
      }
      found := RemoveWaiting(process);
      if found {
        UnlistedIs(S(), process.id);
        KepEnqueueProcess(process);
      }
    }

    // KeResumeProcess calls the ResumeMethod of the process, if there is one.
    method KeResumeProcess(process: Process) returns (alive: bool)
      requires Valid() && Core(S()) && process in objs
      modifies this`current, this`pcb, this`ready, this`blocked, this`timer, this`links
      modifies this`blockedList, this`timerList
      modifies readyFirst, readyLast, objs`NextPCB, objs`State, objs`Quantum, process`calls
      ensures alive <==> Resume(old(S()), process.id).Continues?
      ensures alive ==> Valid() && S() == Resume(old(S()), process.id).value
      ensures alive ==> process.calls == old(process.calls) + if process.ResumeMethod then 1 else 0
    {
      hide ListsOk, LinksOk, NoDup, Records, Chained, QueueHeads, Distinct, Refers, Reschedule, MakeReady, Unblock,
        Enqueue;
      Shown(process);
      if process.State != Blocked {
        return false;
      }
      if process.ResumeMethod {
        process.calls := process.calls + 1;
      }
      alive := MoveToReady(process);
      if alive {
        Shown(process);
        Shown(current);
        if process.Priority > current.Priority {
          alive := KepReschedule();
        }
      }
    }

    // process->Priority = priority, for a process in no ready queue
    method MarkPriority(process: Process, priority: nat)
      requires Valid() && ListsOk(S()) && process in objs && priority < LEVELS
      requires forall k :: 0 <= k < LEVELS ==> process.id !in ready[k]
      modifies process`Priority, this`pcb
      ensures Valid() && S() == SetPriority(old(S()), process.id, priority)
    {
      hide ListsOk, LinksOk, NoDup, Chained, QueueHeads, Refers;
      PriorityLinks(S(), links, process.id, priority);
      process.Priority := priority;
      pcb := pcb[process.id := pcb[process.id].(priority := priority)];
    }

    // KeChangeProcessPriority
    method KeChangeProcessPriority(process: Process, priority: nat) returns (alive: bool)
      requires Valid() && Core(S()) && process in objs && Scheduled(S(), process.id)
      modifies this`pcb, this`ready, this`links, readyFirst, readyLast, objs`NextPCB, process`State, process`Priority
      ensures alive <==> ChangePriority(old(S()), process.id, priority).Continues?
      ensures alive ==> Valid() && S() == ChangePriority(old(S()), process.id, priority).value
    {
      hide LinksOk, NoDup, Records, Chained, QueueHeads, Distinct, Refers, Remove, Enqueue;
      Shown(process);
      if priority >= LEVELS {
        return false;
      }
      match process.State {
        case Running | Blocked =>
          MarkPriority(process, priority);
          alive := true;
        case Ready =>
          DequeueOk(S(), process.id);
          KepDequeueProcess(process);
          assert forall k :: 0 <= k < LEVELS ==> process.id !in ready[k];
          RepriorityOk(S(), process.id, priority);
          MarkPriority(process, priority);
          Shown(process);
          KepEnqueueProcess(process);
          alive := true;
        case _ =>
          alive := false;
      }
    }

    // How often p has been called if exactly the processes that left the timer list
    // `from` were resumed, once each.
    ghost function CallsAfter(p: Process, before: nat, from: seq<nat>): nat
      reads this`timer, p`ResumeMethod
    {
      before + if p.id in from && p.id !in timer && p.ResumeMethod then 1 else 0
    }

    lemma {:induction false} SameNumber(process: Process)
      requires Distinct() && process in objs
      ensures forall p | p in objs && p != process :: p.id != process.id
    {
    }

    // KepWakeUpSleepers
    method KepWakeUpSleepers()
      requires Valid() && Core(S())
      modifies this`current, this`pcb, this`ready, this`blocked, this`timer, this`links
      modifies this`blockedList, this`timerList
      modifies readyFirst, readyLast, objs`NextPCB, objs`State, objs`Quantum, objs`calls
      ensures Valid() && S() == WakeUp(old(S())).value
      ensures forall p | p in objs :: p.calls == CallsAfter(p, old(p.calls), old(timer))
    {
      hide LinksOk, NoDup, Records, Chained, QueueHeads, Distinct, Resume, ListsOk, SameClocks, Core, HeadDue, Refers;
      while timerList != null && timerList.WakeUpTime < tickCount
        invariant Valid() && Core(S()) && WakeUp(S()) == WakeUp(old(S()))
        invariant forall x | x in timer :: x in old(timer)
        invariant forall p | p in objs :: p.calls == CallsAfter(p, old(p.calls), old(timer))
        decreases |timer|
      {
        HeadWakes();
        ResumeHead();
      }
      HeadWakes();
    }

    // The guard of the loop is that of the abstract state.
    lemma {:induction false} HeadWakes()
      requires Valid() && Core(S())
      ensures (timerList != null && timerList.WakeUpTime < tickCount) <==> HeadDue(S())
    {
      hide LinksOk, NoDup, Records, Chained, QueueHeads, Distinct, QueuesOk;
      if timerList != null {
        Shown(timerList);
      }
    }

    // The head of the timer list is resumed.
    method ResumeHead()
      requires Valid() && Core(S()) && timerList != null
      modifies this`current, this`pcb, this`ready, this`blocked, this`timer, this`links
      modifies this`blockedList, this`timerList
      modifies readyFirst, readyLast, objs`NextPCB, objs`State, objs`Quantum, objs`calls
      ensures Valid() && Core(S()) && old(timer) != [] && timer == old(timer)[1..] && old(timer)[0] !in timer
      ensures Resume(old(S()), old(timer)[0]) == Continues(S())
      ensures forall p | p in objs :: p.calls == old(p.calls) + if p.id == old(timer)[0] && p.ResumeMethod then 1 else 0
    {
      hide ListsOk, LinksOk, NoDup, Records, Chained, QueueHeads, Distinct, Resume;
      HeadResumes(S());
      SameNumber(timerList);
      var alive := KeResumeProcess(timerList);
    }

    // KeCurrentProcess->WakeUpTime = w and KeCurrentProcess->State = blocked
    method MarkSleeping(w: nat)
      requires Valid()
      modifies current`WakeUpTime, current`State, this`pcb
      ensures Valid()
      ensures var b := old(pcb)[current.id].(wakeUp := w, state := Blocked);
              S() == old(S()).(pcb := old(pcb)[current.id := b])
    {
      hide ListsOk, LinksOk, NoDup, Chained, QueueHeads, Refers;
      Shown(current);
      SameLinks(S(), S().(pcb := pcb[current.id := pcb[current.id].(wakeUp := w, state := Blocked)]), links);
      current.WakeUpTime := w;
      current.State := Blocked;
      pcb := pcb[current.id := pcb[current.id].(wakeUp := w, state := Blocked)];
    }

    // The walk along the timer list to the entry behind which a process due at w belongs.
    method FindTimerSlot(w: nat) returns (previous: Process?, ghost i: nat)
      requires Distinct() && Records() && Chained() && Refers(objs, timerList, First(timer)) && Threads(links, timer)
      requires forall p | p in timer :: p in pcb
      ensures i == TimerSlot(pcb, timer, w)
      ensures if i == 0 then previous == null else Refers(objs, previous, Some(timer[i - 1]))
    {
      if timerList != null {
        Shown(timerList);
      }
      if timerList == null || timerList.WakeUpTime > w {
        return null, 0;
      }
      var c: Process := timerList;
      i := 0;
      SuccAt(timer, i);
      assert c.id == timer[0] && c.id in links;
      while c.NextPCB != null && c.NextPCB.WakeUpTime < w
        invariant i < |timer| && c in objs && c.id == timer[i]
        invariant Refers(objs, c.NextPCB, if i + 1 < |timer| then Some(timer[i + 1]) else None)
        invariant SlotAfter(pcb, timer, w, i) == SlotAfter(pcb, timer, w, 0)
        decreases |timer| - i
      {
        Shown(c.NextPCB);
        c := c.NextPCB;
        i := i + 1;
        SuccAt(timer, i);
      }
      if c.NextPCB != null {
        Shown(c.NextPCB);
      }
      return c, i + 1;
    }

    // KeCurrentProcess behind previous on the timer list, or at its head.
    method LinkTimerEntry(previous: Process?, ghost i: nat)
      requires Distinct() && Chained() && current in objs && Refers(objs, timerList, First(timer))
      requires Threads(links, timer) && i <= |timer| && current.id !in timer
      requires if i == 0 then previous == null else Refers(objs, previous, Some(timer[i - 1]))
      modifies this`timerList, this`timer, this`links, objs`NextPCB
      ensures Chained() && Refers(objs, timerList, First(timer)) && timer == InsertAt(old(timer), i, current.id)
      ensures var links1 := old(links)[current.id := if i < |old(timer)| then Some(old(timer)[i]) else None];
              links == if i == 0 then links1 else links1[old(timer)[i - 1] := Some(current.id)]
    {
      hide NoDup;
      if previous == null {
        SetLink(current, timerList, First(timer));
        timerList := current;
      } else {
        SuccAt(timer, i - 1);
        assert links[previous.id] == if i < |timer| then Some(timer[i]) else None;
        SetLink(current, previous.NextPCB, links[previous.id]);
        SetLink(previous, current, Some(current.id));
      }
      timer := InsertAt(timer, i, current.id);
    }

    // The part of KeSuspendProcess before it reschedules.
    method GoToSleep(ms: nat)
      requires Valid() && Core(S())
      modifies this`timerList, this`timer, this`links, this`pcb, objs`NextPCB, current`State, current`WakeUpTime
      ensures Valid() && S() == Sleep(old(S()), ms)
    {
      hide LinksOk, NoDup, Records, Chained, QueueHeads, Distinct, Refers, Threads, TimerSlot, InsertAt;
      var w := AddWord(tickCount, ms);
      ListLinks(S(), links);
      SleepLinks(S(), links, w);
      TimerSlotIs(S(), w);
      MarkSleeping(w);
      ghost var i;
      var previous;
      previous, i := FindTimerSlot(w);
      LinkTimerEntry(previous, i);
    }

    lemma {:induction false} CurrentOffList()
      requires Valid() && Core(S())
      ensures current.NextPCB == null
    {
      hide LinksOk, Records, Chained, QueueHeads, Distinct, Refers;
      OffList(current);
    }

    // KeSuspendProcess; resumeMethod tells whether there is one.
    method KeSuspendProcess(ms: nat, resumeMethod: bool) returns (alive: bool)
      requires Valid() && Core(S())
      modifies this`current, this`pcb, this`ready, this`blocked, this`timer, this`links
      modifies this`blockedList, this`timerList
      modifies readyFirst, readyLast, objs`NextPCB, objs`State, objs`Quantum, current`WakeUpTime, current`ResumeMethod
      ensures old(current).ResumeMethod == resumeMethod && (alive <==> Suspend(old(S()), ms).Continues?)
      ensures alive ==> Valid() && S() == Suspend(old(S()), ms).value
    {
      hide ListsOk, LinksOk, NoDup, Records, Chained, QueueHeads, Distinct, Refers, Reschedule, Sleep;
      SleepOk(S(), ms);
      CurrentOffList();
      assert current.NextPCB == null;
      current.ResumeMethod := resumeMethod;
      GoToSleep(ms);
      alive := KepReschedule();
    }

    // The clocks and the quantum at a timer interrupt.
    method CountTime()
      requires Valid() && current.Quantum > 0
      modifies this`tickCount, this`pcb, current`CPUTime, current`Quantum
      ensures old(pcb[current.id].quantum) > 0 && Valid() && S() == CountTick(old(S()))
    {
      hide ListsOk, LinksOk, NoDup, Chained, QueueHeads, Refers;
      Shown(current);
      SameLinks(S(), CountTick(S()), links);
      tickCount := AddWord(tickCount, TICK);
      current.CPUTime := AddWord(current.CPUTime, TICK);
      current.Quantum := current.Quantum - 1;
      pcb := pcb[current.id := pcb[current.id].(cpuTime := current.CPUTime, quantum := current.Quantum)];
    }

    // KeHandleTimer
    method KeHandleTimer() returns (alive: bool)
      requires Valid() && Core(S())
      modifies this`current, this`pcb, this`ready, this`blocked, this`timer, this`links
      modifies this`blockedList, this`timerList, this`tickCount
      modifies readyFirst, readyLast, objs`NextPCB, objs`State, objs`Quantum, objs`calls, current`CPUTime
      ensures alive <==> HandleTimer(old(S())).Continues?
      ensures alive ==> Valid() && S() == HandleTimer(old(S())).value
      ensures alive ==> forall p | p in objs :: p.calls == CallsAfter(p, old(p.calls), old(timer))
    {
      hide ListsOk, LinksOk, NoDup, Records, Chained, QueueHeads, Distinct, Refers, Reschedule, WakeUp;
      Shown(current);
      if current.Quantum == 0 {
        return false;
      }
      CountTickCore(S());
      CountTime();
      KepWakeUpSleepers();
      Shown(current);
      alive := true;
      if current.Quantum == 0 {
        alive := KepReschedule();
      }
    }
  }
}
