// The scheduler of base/ke/scheduler.c as functions on an abstract state.
//
// A process is any value of type P. The state holds the control block of every
// process object, the 32 ready queues, the blocked list, the timer list, the
// current process and the tick counter. An operation that reaches KeBugCheck
// yields Halts: KeBugCheck never returns.

module SchedulerSpec {
  import opened Lists
  import opened Words

  const LEVELS: nat := 32          // PROCESS_PRIORITY_LEVELS
  const FULL_QUANTUM: nat := 5     // timer ticks granted by KepReschedule
  const TICK: nat := 10            // milliseconds per timer interrupt

  datatype ProcessState = Created | Running | Ready | Blocked | Done

  datatype Pcb = Pcb(state: ProcessState, priority: nat, quantum: nat, wakeUp: nat, cpuTime: nat)

  datatype Sched<P(==)> = Sched(
    pcb: map<P, Pcb>,
    ready: seq<seq<P>>,
    blocked: seq<P>,
    timer: seq<P>,
    current: P,
    tick: nat)

  datatype Outcome<+T> = Continues(value: T) | Halts

  // ---------------------------------------------------------------------------
  // Invariants
  // ---------------------------------------------------------------------------

  // Every listed process is where its State and Priority say, on one list only.
  ghost predicate ListsOk<P>(s: Sched<P>) {
    && |s.ready| == LEVELS
    && (forall k, p {:trigger p in s.ready[k]} | 0 <= k < LEVELS && p in s.ready[k] ::
          p in s.pcb && s.pcb[p].state == Ready && s.pcb[p].priority == k)
    && (forall p | p in s.blocked :: p in s.pcb && s.pcb[p].state == Blocked && s.pcb[p].priority < LEVELS)
    && (forall p | p in s.timer :: p in s.pcb && s.pcb[p].state == Blocked && s.pcb[p].priority < LEVELS)
    && (forall p | p in s.blocked :: p !in s.timer)
    && (forall k | 0 <= k < LEVELS :: NoDup(s.ready[k]))
    && NoDup(s.blocked)
    && NoDup(s.timer)
  }

  // In the middle of an operation the current process may already be marked
  // blocked, and then it may or may not be on a list.
  ghost predicate QueuesOk<P>(s: Sched<P>) {
    && ListsOk(s)
    && s.current in s.pcb
    && s.pcb[s.current].priority < LEVELS
    && s.pcb[s.current].state in {Created, Running, Blocked}
  }

  // What holds between any two operations, and inside the timer handler. The
  // boot process is current while its State is still created.
  ghost predicate Core<P>(s: Sched<P>) {
    && QueuesOk(s)
    && s.pcb[s.current].state != Blocked
    && s.pcb[s.current].quantum <= FULL_QUANTUM
  }

  // What holds between any two operations.
  ghost predicate Inv<P>(s: Sched<P>) {
    Core(s) && s.pcb[s.current].quantum >= 1
  }

  // The state PsInitialize leaves: one zeroed process with quantum 1.
  function Boot<P>(idle: P): Sched<P> {
    Sched(map[idle := Pcb(Created, 0, 1, 0, 0)], seq(LEVELS, _ => []), [], [], idle, 0)
  }

  ghost predicate Listed<P>(s: Sched<P>, p: P) {
    || (exists k :: 0 <= k < |s.ready| && p in s.ready[k])
    || p in s.blocked
    || p in s.timer
  }

  // Started and not yet stopped (the boot process counts from the beginning).
  ghost predicate Scheduled<P>(s: Sched<P>, p: P) {
    p == s.current || Listed(s, p)
  }

  // Running, or in the ready queue of its own priority.
  ghost predicate Awake<P>(s: Sched<P>, p: P) {
    p == s.current || (p in s.pcb && s.pcb[p].priority < |s.ready| && p in s.ready[s.pcb[p].priority])
  }

  // ---------------------------------------------------------------------------
  // List surgery and dispatching
  // ---------------------------------------------------------------------------

  function SetState<P>(s: Sched<P>, p: P, st: ProcessState): Sched<P>
    requires p in s.pcb
  {
    s.(pcb := s.pcb[p := s.pcb[p].(state := st)])
  }

  // p behind the last process of ready queue k.
  function Append<P>(s: Sched<P>, k: nat, p: P): Sched<P>
    requires k < |s.ready|
  {
    s.(ready := s.ready[k := s.ready[k] + [p]])
  }

  // KepEnqueueProcess
  function Enqueue<P>(s: Sched<P>, p: P): Sched<P>
    requires p in s.pcb && s.pcb[p].priority < |s.ready|
  {
    SetState(Append(s, s.pcb[p].priority, p), p, Ready)
  }

  // KepDequeueProcess
  function Dequeue<P>(s: Sched<P>, p: P): Sched<P>
    requires p in s.pcb && s.pcb[p].priority < |s.ready|
  {
    var k := s.pcb[p].priority;
    s.(ready := s.ready[k := Remove(s.ready[k], p)])
  }

  // The greatest level in [bottom, n) whose queue is not empty.
  function HighestReady<P>(ready: seq<seq<P>>, bottom: nat, n: nat): (r: Option<nat>)
    requires n <= |ready|
    ensures r.None? ==> forall k :: bottom <= k < n ==> ready[k] == []
    ensures r.Some? ==> bottom <= r.value < n && ready[r.value] != []
    ensures r.Some? ==> forall k :: r.value < k < n ==> ready[k] == []
  {
    if n <= bottom then None
    else if ready[n - 1] != [] then Some(n - 1)
    else HighestReady(ready, bottom, n - 1)
  }

  // The end of KepReschedule: p runs with a full quantum.
  function Dispatch<P>(s: Sched<P>, p: P): Sched<P>
    requires p in s.pcb
  {
    s.(current := p, pcb := s.pcb[p := s.pcb[p].(quantum := FULL_QUANTUM, state := Running)])
  }

  // KepReschedule
  function Reschedule<P>(s: Sched<P>): Outcome<Sched<P>>
    requires QueuesOk(s)
  {
    var cur := s.pcb[s.current];
    var bottom := if cur.state == Blocked then 0 else cur.priority;
    match HighestReady(s.ready, bottom, LEVELS)
    case Some(i) =>
      var s1 := if cur.state == Blocked then s else Enqueue(s, s.current);
      assert s1.ready[i][0] in s1.ready[i];
      Continues(Dispatch(Dequeue(s1, s1.ready[i][0]), s1.ready[i][0]))
    case None =>
      if cur.state == Blocked then Halts else Continues(Dispatch(s, s.current))
  }

  // ---------------------------------------------------------------------------
  // Public operations
  // ---------------------------------------------------------------------------

  // A new process object, as PsCreateProcess fills it in.
  function Create<P>(s: Sched<P>, p: P, priority: nat): Sched<P> {
    s.(pcb := s.pcb[p := Pcb(Created, priority, 0, 0, 0)])
  }

  // KeStartSchedulingProcess
  function Start<P>(s: Sched<P>, p: P): Outcome<Sched<P>>
    requires p in s.pcb && QueuesOk(s)
  {
    if s.pcb[p].priority < LEVELS then Continues(Enqueue(s, p)) else Halts
  }

  // Unlinking from the timer list or, failing that, from the blocked list.
  function Unblock<P>(s: Sched<P>, p: P): Sched<P> {
    if p in s.timer then s.(timer := Remove(s.timer, p))
    else s.(blocked := Remove(s.blocked, p))
  }

  // KeStopSchedulingProcess
  function Stop<P>(s: Sched<P>, p: P): Outcome<Sched<P>>
    requires p in s.pcb && Core(s) && Scheduled(s, p)
  {
    match s.pcb[p].state
    case Running => Reschedule(SetState(s, p, Blocked))
    case Ready => Continues(Dequeue(s, p))
    case Blocked => Continues(Unblock(s, p))
    case _ => Halts
  }

  // KeBlockProcess
  function Block<P>(s: Sched<P>): Outcome<Sched<P>>
    requires Core(s)
  {
    Reschedule(SetState(s.(blocked := [s.current] + s.blocked), s.current, Blocked))
  }

  // Moving a waiting process to its ready queue.
  function MakeReady<P>(s: Sched<P>, p: P): Sched<P>
    requires p in s.pcb && s.pcb[p].priority < |s.ready|
  {
    Enqueue(Unblock(s, p), p)
  }

  // KeResumeProcess
  function Resume<P>(s: Sched<P>, p: P): Outcome<Sched<P>>
    requires p in s.pcb && Core(s)
  {
    if s.pcb[p].state != Blocked || (p !in s.timer && p !in s.blocked) then Halts
    else
      MakeReadyOk(s, p);
      var s1 := MakeReady(s, p);
      if s1.pcb[p].priority > s1.pcb[s1.current].priority then Reschedule(s1) else Continues(s1)
  }

  // KeChangeProcessPriority
  function ChangePriority<P>(s: Sched<P>, p: P, priority: nat): Outcome<Sched<P>>
    requires p in s.pcb && Core(s) && Scheduled(s, p)
  {
    if priority >= LEVELS then Halts
    else match s.pcb[p].state
      case Running | Blocked => Continues(SetPriority(s, p, priority))
      case Ready => Continues(Enqueue(SetPriority(Dequeue(s, p), p, priority), p))
      case _ => Halts
  }

  function SetPriority<P>(s: Sched<P>, p: P, priority: nat): Sched<P>
    requires p in s.pcb
  {
    s.(pcb := s.pcb[p := s.pcb[p].(priority := priority)])
  }

  // Where KeSuspendProcess links a process due at time w: the head when the
  // list is empty or its first entry is due later, and otherwise behind the
  // first entry and every following entry due before w.
  function TimerSlot<P>(pcb: map<P, Pcb>, timer: seq<P>, w: nat): (i: nat)
    requires forall p | p in timer :: p in pcb
    ensures i <= |timer|
  {
    if timer == [] || pcb[timer[0]].wakeUp > w then 0 else SlotAfter(pcb, timer, w, 0)
  }

  function SlotAfter<P>(pcb: map<P, Pcb>, timer: seq<P>, w: nat, i: nat): (j: nat)
    requires forall p | p in timer :: p in pcb
    requires i < |timer|
    ensures i < j <= |timer|
    ensures forall k :: i < k < j ==> pcb[timer[k]].wakeUp < w
    ensures j < |timer| ==> pcb[timer[j]].wakeUp >= w
    decreases |timer| - i
  {
    if i + 1 < |timer| && pcb[timer[i + 1]].wakeUp < w then SlotAfter(pcb, timer, w, i + 1) else i + 1
  }

  function LinkTimer<P>(s: Sched<P>, i: nat, b: Pcb): Sched<P>
    requires i <= |s.timer|
  {
    s.(pcb := s.pcb[s.current := b], timer := InsertAt(s.timer, i, s.current))
  }

  // The part of KeSuspendProcess before it reschedules, for a process due at w.
  function SleepUntil<P>(s: Sched<P>, w: nat): Sched<P>
    requires Core(s)
  {
    LinkTimer(s, TimerSlot(s.pcb, s.timer, w), s.pcb[s.current].(wakeUp := w, state := Blocked))
  }

  function Sleep<P>(s: Sched<P>, ms: nat): Sched<P>
    requires Core(s)
  {
    SleepUntil(s, AddWord(s.tick, ms))
  }

  // KeSuspendProcess
  function Suspend<P>(s: Sched<P>, ms: nat): Outcome<Sched<P>>
    requires Core(s)
  {
    SleepOk(s, ms);
    Reschedule(Sleep(s, ms))
  }

  // The guard of the loop in KepWakeUpSleepers.
  predicate HeadDue<P>(s: Sched<P>)
    requires forall p | p in s.timer :: p in s.pcb
  {
    s.timer != [] && s.pcb[s.timer[0]].wakeUp < s.tick
  }

  // KepWakeUpSleepers
  function WakeUp<P>(s: Sched<P>): (r: Outcome<Sched<P>>)
    requires Core(s)
    ensures r.Continues? && Core(r.value)
    decreases |s.timer|
  {
    if !HeadDue(s) then Continues(s)
    else
      ResumeOk(s, s.timer[0]);
      WakeUp(Resume(s, s.timer[0]).value)
  }

  // The part of KeHandleTimer before it wakes up sleepers.
  function CountTick<P>(s: Sched<P>): Sched<P>
    requires s.current in s.pcb && s.pcb[s.current].quantum > 0
  {
    var b := s.pcb[s.current];
    s.(tick := AddWord(s.tick, TICK),
       pcb := s.pcb[s.current := b.(cpuTime := AddWord(b.cpuTime, TICK), quantum := b.quantum - 1)])
  }

  // KeHandleTimer
  function HandleTimer<P>(s: Sched<P>): Outcome<Sched<P>>
    requires Core(s)
  {
    if s.pcb[s.current].quantum == 0 then Halts
    else match WakeUp(CountTick(s))
      case Halts => Halts
      case Continues(s1) =>
        if s1.pcb[s1.current].quantum == 0 then Reschedule(s1) else Continues(s1)
  }

  // ---------------------------------------------------------------------------
  // Every step keeps the lists well formed
  // ---------------------------------------------------------------------------

  lemma {:induction false} EnqueueOk<P>(s: Sched<P>, p: P)
    requires ListsOk(s) && p in s.pcb && s.pcb[p].priority < LEVELS && !Listed(s, p)
    ensures ListsOk(Enqueue(s, p))
    ensures forall q :: Listed(Enqueue(s, p), q) <==> Listed(s, q) || q == p
  {
    var k := s.pcb[p].priority;
    var s1 := Enqueue(s, p);
    assert p !in s.ready[k];
    NoDupAppend(s.ready[k], p);
    forall q ensures Listed(s1, q) <==> Listed(s, q) || q == p {
      if Listed(s, q) && q !in s.blocked && q !in s.timer {
        var j :| 0 <= j < LEVELS && q in s.ready[j];
        assert q in s1.ready[j];
      }
      assert p in s1.ready[k];
    }
  }

  lemma {:induction false} DequeueOk<P>(s: Sched<P>, p: P)
    requires ListsOk(s) && p in s.pcb && s.pcb[p].priority < LEVELS && p in s.ready[s.pcb[p].priority]
    ensures ListsOk(Dequeue(s, p))
    ensures forall q :: Listed(Dequeue(s, p), q) <==> Listed(s, q) && q != p
  {
    var k := s.pcb[p].priority;
    var s1 := Dequeue(s, p);
    RemoveMembers(s.ready[k], p);
    forall q ensures Listed(s1, q) <==> Listed(s, q) && q != p {
      if Listed(s, q) && q != p && q !in s.blocked && q !in s.timer {
        var j :| 0 <= j < LEVELS && q in s.ready[j];
        assert q in s1.ready[j];
      }
    }
  }

  lemma {:induction false} UnblockOk<P>(s: Sched<P>, p: P)
    requires ListsOk(s) && (p in s.timer || p in s.blocked)
    ensures ListsOk(Unblock(s, p))
    ensures forall q :: Listed(Unblock(s, p), q) <==> Listed(s, q) && q != p
  {
    RemoveMembers(s.timer, p);
    RemoveMembers(s.blocked, p);
  }

  lemma {:induction false} LinkTimerOk<P>(s: Sched<P>, i: nat, b: Pcb)
    requires Core(s) && i <= |s.timer| && b.state == Blocked && b.priority < LEVELS
    ensures QueuesOk(LinkTimer(s, i, b))
    ensures forall q :: Listed(LinkTimer(s, i, b), q) <==> Listed(s, q) || q == s.current
  {
    InsertMembers(s.timer, i, s.current);
    var s1 := LinkTimer(s, i, b);
    assert s1.ready == s.ready && s1.blocked == s.blocked;
  }

  lemma {:induction false} SleepOk<P>(s: Sched<P>, ms: nat)
    requires Core(s)
    ensures QueuesOk(Sleep(s, ms))
    ensures forall q :: Listed(Sleep(s, ms), q) <==> Listed(s, q) || q == s.current
  {
    var w := AddWord(s.tick, ms);
    var i := TimerSlot(s.pcb, s.timer, w);
    var b := s.pcb[s.current].(wakeUp := w, state := Blocked);
    assert Sleep(s, ms) == LinkTimer(s, i, b);
    assert i <= |s.timer|;
    LinkTimerOk(s, i, b);
  }

  // No ready process has a higher priority than the running one.
  ghost predicate NoInversion<P>(s: Sched<P>)
    requires s.current in s.pcb
  {
    forall k :: s.pcb[s.current].priority < k < |s.ready| ==> s.ready[k] == []
  }

  // Neither time nor the priority, wake-up time and CPU time of any process changes.
  ghost predicate SameClocks<P>(s: Sched<P>, t: Sched<P>) {
    && t.pcb.Keys == s.pcb.Keys
    && t.tick == s.tick
    && forall q | q in s.pcb :: q in t.pcb
          && t.pcb[q].priority == s.pcb[q].priority
          && t.pcb[q].wakeUp == s.pcb[q].wakeUp
          && t.pcb[q].cpuTime == s.pcb[q].cpuTime
  }

  // KepReschedule: it halts exactly when the current process is blocked and
  // nothing is ready. Otherwise nothing ready outranks the process it picks,
  // which has a full quantum, and only a blocked current process leaves the
  // schedule.
  lemma {:induction false} RescheduleOk<P>(s: Sched<P>)
    requires QueuesOk(s)
    ensures Reschedule(s).Halts? <==>
            s.pcb[s.current].state == Blocked && forall k :: 0 <= k < LEVELS ==> s.ready[k] == []
    ensures Reschedule(s).Continues? ==>
            var t := Reschedule(s).value;
            && Inv(t) && NoInversion(t) && SameClocks(s, t)
            && t.timer == s.timer && t.blocked == s.blocked
            && t.pcb[t.current].quantum == FULL_QUANTUM && t.pcb[t.current].state == Running
            && (forall q :: Scheduled(t, q) <==> Listed(s, q) || (q == s.current && s.pcb[q].state != Blocked))
  {
    hide NoDup, Remove;
    var cur := s.pcb[s.current];
    var bottom := if cur.state == Blocked then 0 else cur.priority;
    match HighestReady(s.ready, bottom, LEVELS) {
      case Some(i) =>
        if cur.state != Blocked {
          EnqueueOk(s, s.current);
          TakeOk(Enqueue(s, s.current), i);
        } else {
          TakeOk(s, i);
        }
      case None =>
        if cur.state != Blocked {
          DispatchOk(s, s.current);
        }
    }
  }

  // The head of ready queue i starts to run.
  lemma {:induction false} TakeOk<P>(s: Sched<P>, i: nat)
    requires ListsOk(s) && i < LEVELS && s.ready[i] != []
    ensures s.ready[i][0] in s.pcb && s.pcb[s.ready[i][0]].priority == i
    ensures var p := s.ready[i][0]; var t := Dispatch(Dequeue(s, p), p);
            && Inv(t) && SameClocks(s, t)
            && t.timer == s.timer && t.blocked == s.blocked
            && (forall k :: i < k < LEVELS ==> t.ready[k] == s.ready[k])
            && (forall q :: Scheduled(t, q) <==> Listed(s, q))
  {
    var p := s.ready[i][0];
    assert p in s.ready[i];
    DequeueOk(s, p);
    DispatchOk(Dequeue(s, p), p);
    assert Listed(s, p);
  }

  lemma {:induction false} DispatchOk<P>(s: Sched<P>, p: P)
    requires ListsOk(s) && p in s.pcb && !Listed(s, p) && s.pcb[p].priority < LEVELS
    ensures Inv(Dispatch(s, p)) && SameClocks(s, Dispatch(s, p))
    ensures forall q :: Listed(Dispatch(s, p), q) <==> Listed(s, q)
  {
    var t := Dispatch(s, p);
    assert t.ready == s.ready && t.blocked == s.blocked && t.timer == s.timer;
    forall q ensures Listed(t, q) <==> Listed(s, q) {
    }
  }

  lemma {:induction false} ResumeOk<P>(s: Sched<P>, p: P)
    requires Core(s) && (p in s.timer || p in s.blocked)
    ensures Resume(s, p).Continues?
    ensures var t := Resume(s, p).value;
            && Core(t) && (Inv(s) ==> Inv(t)) && SameClocks(s, t)
            && (NoInversion(s) ==> NoInversion(t))
            && t.timer == Remove(s.timer, p) && t.blocked == Remove(s.blocked, p)
            && (forall q :: Scheduled(t, q) <==> Scheduled(s, q))
            && Awake(t, p)
  {
    hide Reschedule, NoDup, Remove;
    MakeReadyOk(s, p);
    var s1 := MakeReady(s, p);
    assert Listed(s1, p) by {
      assert p in s1.ready[s1.pcb[p].priority];
    }
    if s1.pcb[p].priority > s1.pcb[s1.current].priority {
      PreemptOk(s1);
      WhereAwake(s, Reschedule(s1).value, p);
    }
  }

  // Rescheduling while the current process is not blocked.
  lemma {:induction false} PreemptOk<P>(s: Sched<P>)
    requires Core(s)
    ensures Reschedule(s).Continues?
    ensures var t := Reschedule(s).value;
            && Inv(t) && NoInversion(t) && SameClocks(s, t)
            && t.timer == s.timer && t.blocked == s.blocked
            && (forall q :: Scheduled(t, q) <==> Scheduled(s, q))
  {
    RescheduleOk(s);
  }

  // A scheduled process that is on neither waiting list is running or ready.
  lemma {:induction false} WhereAwake<P>(s: Sched<P>, t: Sched<P>, p: P)
    requires Core(s) && Core(t) && Scheduled(t, p)
    requires t.timer == Remove(s.timer, p) && t.blocked == Remove(s.blocked, p)
    ensures p in t.pcb && t.pcb[p].priority < LEVELS && Awake(t, p)
  {
    RemoveMembers(s.timer, p);
    RemoveMembers(s.blocked, p);
  }

  lemma {:induction false} ScheduledIsAwake<P>(s: Sched<P>, p: P)
    requires Core(s) && Scheduled(s, p) && p !in s.timer && p !in s.blocked
    ensures Awake(s, p)
  {
  }

  lemma {:induction false} MakeReadyOk<P>(s: Sched<P>, p: P)
    requires Core(s) && (p in s.timer || p in s.blocked)
    ensures var t := MakeReady(s, p);
            && Core(t) && (Inv(s) ==> Inv(t)) && SameClocks(s, t)
            && t.current == s.current && t.pcb[t.current] == s.pcb[s.current]
            && t.timer == Remove(s.timer, p) && t.blocked == Remove(s.blocked, p)
            && (forall k :: 0 <= k < LEVELS ==>
                  t.ready[k] == if k == s.pcb[p].priority then s.ready[k] + [p] else s.ready[k])
            && (forall q :: Listed(t, q) <==> Listed(s, q))
  {
    UnblockOk(s, p);
    EnqueueOk(Unblock(s, p), p);
  }
}
