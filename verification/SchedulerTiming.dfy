// Timing of the scheduler over whole runs: how long a priority inversion lasts,
// how late a sleeper is woken up, how long a ready process waits, and where the
// CPU time goes.

module SchedulerTiming {
  import opened Lists
  import opened Words
  import opened SchedulerSpec
  import opened SchedulerRuns

  function Timers<P>(es: seq<Event<P>>): (n: nat)
    ensures n <= |es|
  {
    if es == [] then 0 else (if es[0].TimerE? then 1 else 0) + Timers(es[1..])
  }

  // ---------------------------------------------------------------------------
  // Bounded priority inversion
  // ---------------------------------------------------------------------------

  // Nothing outranks the current process, or the current process and its
  // quantum are as in s, less the given number of ticks.
  ghost predicate Settling<P>(s: Sched<P>, t: Sched<P>, ticks: nat)
    requires s.current in s.pcb && t.current in t.pcb
  {
    NoInversion(t) || (t.current == s.current && t.pcb[t.current].quantum + ticks == s.pcb[s.current].quantum)
  }

  lemma {:induction false} ResumeSettles<P>(s: Sched<P>, p: P)
    requires Core(s) && (p in s.timer || p in s.blocked)
    ensures Resume(s, p).Continues? && Core(Resume(s, p).value) && Settling(s, Resume(s, p).value, 0)
  {
    ResumeOk(s, p);
    MakeReadyOk(s, p);
    var s1 := MakeReady(s, p);
    if s1.pcb[p].priority > s1.pcb[s1.current].priority {
      RescheduleOk(s1);
    }
  }

  lemma {:induction false} WakeUpSettles<P>(s: Sched<P>)
    requires Core(s)
    ensures Settling(s, WakeUp(s).value, 0)
    decreases |s.timer|
  {
    if HeadDue(s) {
      WakeUpTurn(s);
      var s1 := Resume(s, s.timer[0]).value;
      ResumeSettles(s, s.timer[0]);
      WakeUpSettles(s1);
      WakeUpOk(s1);
    }
  }

  lemma {:induction false} TimerSettles<P>(s: Sched<P>)
    requires Inv(s)
    ensures HandleTimer(s).Continues? && Inv(HandleTimer(s).value) && Settling(s, HandleTimer(s).value, 1)
  {
    HandleTimerOk(s);
    CountTickOk(s);
    var c := CountTick(s);
    WakeUpSettles(c);
    var w := WakeUp(c).value;
    if w.pcb[w.current].quantum == 0 {
      RescheduleOk(w);
    }
  }

  // Only starting a process and changing a priority can let a ready process
  // outrank the running one.
  ghost predicate Disturbs<P>(e: Event<P>) {
    e.StartE? || e.ChangeE?
  }

  lemma {:induction false} StepSettles<P>(s: Sched<P>, e: Event<P>)
    requires Inv(s) && Legal(s, e) && !Disturbs(e) && Step(s, e).Continues?
    ensures Inv(Step(s, e).value)
    ensures Settling(s, Step(s, e).value, if e.TimerE? then 1 else 0)
    ensures NoInversion(s) ==> NoInversion(Step(s, e).value)
  {
    StepOk(s, e);
    match e {
      case CreateE(p, priority) =>
      case StopE(p) =>
        StopOk(s, p);
        if s.pcb[p].state == Running { StopCurrentOk(s); }
      case BlockE => BlockOk(s);
      case SuspendE(ms) => SuspendOk(s, ms);
      case ResumeE(p) => ResumeOk(s, p); ResumeSettles(s, p);
      case TimerE => TimerSettles(s); HandleTimerOk(s);
    }
  }

  // Whatever else happens, once no process is started or reprioritised an
  // inversion lasts for at most as many timer interrupts as the running process
  // has quantum left (at most five), and none appears.
  lemma {:induction false} InversionIsBounded<P>(s: Sched<P>, es: seq<Event<P>>)
    requires Inv(s) && LegalRun(s, es) && Run(s, es).Continues?
    requires forall i :: 0 <= i < |es| ==> !Disturbs(es[i])
    requires NoInversion(s) || Timers(es) >= s.pcb[s.current].quantum
    ensures NoInversion(Run(s, es).value)
    decreases |es|
  {
    if es != [] {
      StepOk(s, es[0]);
      StepSettles(s, es[0]);
      InversionIsBounded(Step(s, es[0]).value, es[1..]);
    }
  }

  // When starting a process creates an inversion.
  lemma {:induction false} StartInverts<P>(s: Sched<P>, p: P)
    requires Inv(s) && p in s.pcb && !Scheduled(s, p) && s.pcb[p].priority < LEVELS
    ensures NoInversion(Start(s, p).value) <==>
            NoInversion(s) && s.pcb[p].priority <= s.pcb[s.current].priority
  {
    var t := Start(s, p).value;
    var k := s.pcb[p].priority;
    assert p in t.ready[k];
    if NoInversion(t) {
      forall j | s.pcb[s.current].priority < j < LEVELS ensures s.ready[j] == [] {
        assert t.ready[j] == [];
      }
    }
  }

  // When changing the priority of p leaves no inversion: of the running process,
  // when no queue above its new priority is in use; of a ready process, when it
  // does not outrank the current one and nobody else does; and of a waiting
  // process, when there was none.
  lemma {:induction false} ChangeInverts<P>(s: Sched<P>, p: P, priority: nat)
    requires Inv(s) && p in s.pcb && Scheduled(s, p) && ChangePriority(s, p, priority).Continues?
    ensures var t := ChangePriority(s, p, priority).value; var c := s.pcb[s.current].priority;
            t.current in t.pcb &&
            (NoInversion(t) <==>
             match s.pcb[p].state
             case Running => forall k :: priority < k < LEVELS ==> s.ready[k] == []
             case Ready => priority <= c && forall k :: c < k < LEVELS ==> Remove(s.ready[k], p) == []
             case _ => NoInversion(s))
  {
    ChangeOk(s, p, priority);
    var t, c := ChangePriority(s, p, priority).value, s.pcb[s.current].priority;
    if s.pcb[p].state == Ready {
      var l := Dequeue(s, p).ready;
      assert forall k :: 0 <= k < LEVELS ==> l[k] == Remove(s.ready[k], p);
      assert forall k :: 0 <= k < LEVELS ==> t.ready[k] == if k == priority then l[k] + [p] else l[k];
      assert t.ready[priority] != [];
      assert t.pcb[t.current].priority == c;
    }
  }

  // ---------------------------------------------------------------------------
  // Sleeping
  // ---------------------------------------------------------------------------

  ghost predicate Sorted<P>(pcb: map<P, Pcb>, l: seq<P>)
    requires forall p | p in l :: p in pcb
  {
    forall i, j :: 0 <= i < j < |l| ==> pcb[l[i]].wakeUp <= pcb[l[j]].wakeUp
  }

  // Between events the timer list is sorted and nothing on it is overdue.
  ghost predicate TimerOk<P>(s: Sched<P>)
    requires Inv(s)
  {
    && Sorted(s.pcb, s.timer)
    && (forall p | p in s.timer :: s.tick <= s.pcb[p].wakeUp)
  }

  // The ULONG tick counter does not wrap around at this event.
  ghost predicate NoWrap<P>(s: Sched<P>, e: Event<P>) {
    match e
    case SuspendE(ms) => s.tick + ms < WORD
    case TimerE => s.tick + TICK < WORD
    case _ => true
  }

  // The slot KeSuspendProcess picks in a sorted list: nothing before it is due
  // later, nothing behind it earlier.
  lemma {:induction false} SlotSplits<P>(pcb: map<P, Pcb>, l: seq<P>, w: nat)
    requires (forall p | p in l :: p in pcb) && Sorted(pcb, l)
    ensures var i := TimerSlot(pcb, l, w);
            && (forall j :: 0 <= j < i ==> pcb[l[j]].wakeUp <= w)
            && (forall j :: i <= j < |l| ==> pcb[l[j]].wakeUp >= w)
  {
  }

  lemma {:induction false} InsertSorted<P>(a: map<P, Pcb>, b: map<P, Pcb>, l: seq<P>, i: nat, x: P)
    requires forall p | p in l :: p in a && p in b && b[p].wakeUp == a[p].wakeUp
    requires x in b && i <= |l| && Sorted(a, l)
    requires forall j :: 0 <= j < i ==> a[l[j]].wakeUp <= b[x].wakeUp
    requires forall j :: i <= j < |l| ==> a[l[j]].wakeUp >= b[x].wakeUp
    ensures forall p | p in InsertAt(l, i, x) :: p in b
    ensures Sorted(b, InsertAt(l, i, x))
  {
    var r := InsertAt(l, i, x);
    assert forall j :: 0 <= j < |l| ==> l[j] in l;
  }

  // A list stays sorted as long as no wake-up time on it changes.
  lemma {:induction false} SameWakesSorted<P>(a: map<P, Pcb>, b: map<P, Pcb>, l: seq<P>)
    requires forall p | p in l :: p in a && p in b && b[p].wakeUp == a[p].wakeUp
    requires Sorted(a, l)
    ensures Sorted(b, l)
  {
    assert forall j :: 0 <= j < |l| ==> l[j] in l;
  }

  lemma {:induction false} SleepUntilSorted<P>(s: Sched<P>, w: nat)
    requires Inv(s) && TimerOk(s) && s.tick <= w
    ensures var t := SleepUntil(s, w);
            && t.tick == s.tick
            && (forall p :: p in t.timer <==> p in s.timer || p == s.current)
            && (forall p | p in t.timer :: p in t.pcb && t.tick <= t.pcb[p].wakeUp)
            && Sorted(t.pcb, t.timer)
  {
    var i := TimerSlot(s.pcb, s.timer, w);
    var t := SleepUntil(s, w);
    assert t.timer == InsertAt(s.timer, i, s.current);
    SlotSplits(s.pcb, s.timer, w);
    InsertMembers(s.timer, i, s.current);
    InsertSorted(s.pcb, t.pcb, s.timer, i, s.current);
  }

  lemma {:induction false} SuspendSorted<P>(s: Sched<P>, ms: nat)
    requires Inv(s) && TimerOk(s) && s.tick + ms < WORD && Suspend(s, ms).Continues?
    ensures Inv(Suspend(s, ms).value) && TimerOk(Suspend(s, ms).value)
  {
    var w := AddWord(s.tick, ms);
    SuspendOk(s, ms);
    SleepUntilSorted(s, w);
    SameWakesSorted(SleepUntil(s, w).pcb, Suspend(s, ms).value.pcb, SleepUntil(s, w).timer);
  }

  lemma {:induction false} RemoveSorted<P>(pcb: map<P, Pcb>, l: seq<P>, x: P)
    requires (forall p | p in l :: p in pcb) && Sorted(pcb, l) && NoDup(l)
    ensures (forall p | p in Remove(l, x) :: p in pcb) && Sorted(pcb, Remove(l, x))
  {
    RemoveMembers(l, x);
    hide NoDup, IndexOf, Remove;
    if x in l {
      var i, r := IndexOf(l, x), Remove(l, x);
      forall j | 0 <= j < |r| ensures r[j] == if j < i then l[j] else l[j + 1] {
        RemovedAt(l, x, j);
      }
    }
  }

  // Cutting a sorted list behind its expired prefix leaves exactly the entries
  // that are not due.
  lemma {:induction false} CutAtExpired<P>(pcb: map<P, Pcb>, l: seq<P>, now: nat)
    requires (forall p | p in l :: p in pcb) && Sorted(pcb, l)
    ensures var r := l[Expired(pcb, l, now)..];
            && (forall p :: p in r <==> p in l && pcb[p].wakeUp >= now)
            && Sorted(pcb, r)
  {
    var n := Expired(pcb, l, now);
    if n == 0 {
      assert l[n..] == l;
      assert forall j :: 0 <= j < |l| ==> pcb[l[0]].wakeUp <= pcb[l[j]].wakeUp;
    } else {
      assert l == [l[0]] + l[1..];
      assert l[1..][n - 1..] == l[n..];
      CutAtExpired(pcb, l[1..], now);
    }
  }

  lemma {:induction false} TimerKeepsWakes<P>(s: Sched<P>)
    requires Inv(s) && s.tick + TICK < WORD
    ensures var t := HandleTimer(s).value;
            && HandleTimer(s).Continues? && Inv(t) && t.tick == s.tick + TICK
            && t.timer == s.timer[Expired(s.pcb, s.timer, s.tick + TICK)..]
            && (forall p | p in s.pcb :: p in t.pcb && t.pcb[p].wakeUp == s.pcb[p].wakeUp)
  {
    hide ListsOk, HandleTimer, AddWord;
    HandleTimerOk(s);
    assert AddWord(s.tick, TICK) == s.tick + TICK;
  }

  // A timer interrupt takes a sleeper off the timer list exactly when its
  // wake-up time has passed.
  lemma {:induction false} TimerTakesDue<P>(s: Sched<P>)
    requires Inv(s) && TimerOk(s) && s.tick + TICK < WORD
    ensures var t := HandleTimer(s).value;
            && HandleTimer(s).Continues? && Inv(t) && TimerOk(t)
            && t.tick == s.tick + TICK
            && (forall p :: p in t.timer <==> p in s.timer && s.pcb[p].wakeUp >= t.tick)
            && (forall p | p in s.timer :: p in t.pcb && t.pcb[p].wakeUp == s.pcb[p].wakeUp)
  {
    hide NoDup, HandleTimer;
    TimerKeepsWakes(s);
    CutAtExpired(s.pcb, s.timer, s.tick + TICK);
    var t := HandleTimer(s).value;
    SameWakesSorted(s.pcb, t.pcb, t.timer);
  }

  lemma {:induction false} StepSorted<P>(s: Sched<P>, e: Event<P>)
    requires Inv(s) && Legal(s, e) && TimerOk(s) && NoWrap(s, e) && Step(s, e).Continues?
    ensures Inv(Step(s, e).value) && TimerOk(Step(s, e).value)
  {
    StepOk(s, e);
    var t := Step(s, e).value;
    match e {
      case CreateE(p, priority) => SameWakesSorted(s.pcb, t.pcb, s.timer);
      case StartE(p) => StartOk(s, p); SameWakesSorted(s.pcb, t.pcb, s.timer);
      case StopE(p) =>
        StopOk(s, p);
        RemoveSorted(s.pcb, s.timer, p);
        RemoveMembers(s.timer, p);
        SameWakesSorted(s.pcb, t.pcb, t.timer);
      case BlockE => BlockOk(s); SameWakesSorted(s.pcb, t.pcb, s.timer);
      case SuspendE(ms) => SuspendSorted(s, ms);
      case ResumeE(p) =>
        ResumeOk(s, p);
        RemoveSorted(s.pcb, s.timer, p);
        RemoveMembers(s.timer, p);
        SameWakesSorted(s.pcb, t.pcb, t.timer);
      case ChangeE(p, priority) => ChangeOk(s, p, priority); SameWakesSorted(s.pcb, t.pcb, s.timer);
      case TimerE => TimerTakesDue(s);
    }
  }

  ghost predicate NoWrapRun<P>(s: Sched<P>, es: seq<Event<P>>)
    requires Inv(s) && LegalRun(s, es)
    decreases |es|
  {
    es == [] ||
    (NoWrap(s, es[0]) &&
     (StepOk(s, es[0]); Step(s, es[0]).Continues? ==> NoWrapRun(Step(s, es[0]).value, es[1..])))
  }

  // Nobody stops or resumes p before its time.
  ghost predicate LeavesAlone<P>(e: Event<P>, p: P) {
    e != StopE(p) && e != ResumeE(p)
  }

  // Along the run p stays on the timer list until a timer interrupt moves the
  // tick counter to some T with w < T <= w + TICK, and that interrupt leaves p
  // running or ready.
  ghost predicate SleepsUntil<P>(s: Sched<P>, es: seq<Event<P>>, p: P, w: nat)
    requires Inv(s) && LegalRun(s, es)
    decreases |es|
  {
    && p in s.timer && s.tick <= w
    && es != []
    && (StepOk(s, es[0]);
        && Step(s, es[0]).Continues?
        && var t := Step(s, es[0]).value;
           if p in t.timer then SleepsUntil(t, es[1..], p, w)
           else es[0].TimerE? && w < t.tick <= w + TICK && Awake(t, p))
  }

  lemma {:induction false} StepSleeper<P>(s: Sched<P>, e: Event<P>, p: P)
    requires Inv(s) && Legal(s, e) && TimerOk(s) && NoWrap(s, e) && Step(s, e).Continues?
    requires p in s.timer && LeavesAlone(e, p)
    ensures var t := Step(s, e).value;
            && Inv(t) && p in t.pcb && t.pcb[p].wakeUp == s.pcb[p].wakeUp
            && t.tick == s.tick + (if e.TimerE? then TICK else 0)
            && (p in t.timer <==> (e.TimerE? ==> s.pcb[p].wakeUp >= t.tick))
            && (p in t.timer || Awake(t, p))
  {
    hide NoDup, Reschedule, Resume, HandleTimer, Block, Sorted;
    StepOk(s, e);
    match e {
      case CreateE(q, priority) =>
      case StartE(q) => StartOk(s, q);
      case StopE(q) => StopOk(s, q); RemoveMembers(s.timer, q);
      case BlockE => BlockOk(s);
      case SuspendE(ms) => SuspendOk(s, ms); SleepUntilSorted(s, AddWord(s.tick, ms));
      case ResumeE(q) => ResumeOk(s, q); RemoveMembers(s.timer, q);
      case ChangeE(q, priority) => ChangeOk(s, q, priority);
      case TimerE =>
        TimerTakesDue(s);
        HandleTimerOk(s);
        assert Scheduled(s, p) && p !in s.blocked;
    }
  }

  // A sleeper due at w is woken up by the first timer interrupt past w, never
  // before and never more than one tick late, whatever else happens meanwhile.
  lemma {:induction false} SleeperWokenOnTime<P>(s: Sched<P>, es: seq<Event<P>>, p: P, w: nat)
    requires Inv(s) && LegalRun(s, es) && Run(s, es).Continues? && NoWrapRun(s, es)
    requires TimerOk(s) && p in s.timer && s.pcb[p].wakeUp == w
    requires forall i :: 0 <= i < |es| ==> LeavesAlone(es[i], p)
    requires s.tick + TICK * Timers(es) > w
    ensures SleepsUntil(s, es, p, w)
    decreases |es|
  {
    if es != [] {
      StepOk(s, es[0]);
      StepSorted(s, es[0]);
      StepSleeper(s, es[0], p);
      var t := Step(s, es[0]).value;
      if p in t.timer {
        SleeperWokenOnTime(t, es[1..], p, w);
      }
    }
  }

  // KeSuspendProcess(m) at tick t: awake again at a tick T with t + m < T <= t + m + TICK.
  lemma {:induction false} SuspensionIsBounded<P>(s: Sched<P>, ms: nat, t: Sched<P>, es: seq<Event<P>>, p: P, w: nat)
    requires Inv(s) && TimerOk(s) && s.current == p && s.tick + ms == w < WORD
    requires Suspend(s, ms) == Continues(t) && Inv(t)
    requires LegalRun(t, es) && Run(t, es).Continues? && NoWrapRun(t, es)
    requires forall i :: 0 <= i < |es| ==> LeavesAlone(es[i], p)
    requires TICK * Timers(es) > ms
    ensures SleepsUntil(t, es, p, w)
  {
    SuspendSorted(s, ms);
    SuspendedAt(s, ms);
    SleeperWokenOnTime(t, es, p, w);
  }

  lemma {:induction false} SuspendedAt<P>(s: Sched<P>, ms: nat)
    requires Inv(s) && TimerOk(s) && s.tick + ms < WORD && Suspend(s, ms).Continues?
    ensures var t := Suspend(s, ms).value;
            t.tick == s.tick && s.current in t.timer && s.current in t.pcb && t.pcb[s.current].wakeUp == s.tick + ms
  {
    SuspendOk(s, ms);
    SleepUntilSorted(s, AddWord(s.tick, ms));
  }

  // ---------------------------------------------------------------------------
  // CPU time
  // ---------------------------------------------------------------------------

  ghost function TotalTime<P>(pcb: map<P, Pcb>): nat
    decreases |pcb|
  {
    if pcb == map[] then 0
    else
      var p :| p in pcb;
      pcb[p].cpuTime + TotalTime(pcb - {p})
  }

  lemma {:induction false} TotalTimeOf<P>(pcb: map<P, Pcb>, p: P)
    requires p in pcb
    ensures TotalTime(pcb) == pcb[p].cpuTime + TotalTime(pcb - {p})
    decreases |pcb|
  {
    var q :| q in pcb && TotalTime(pcb) == pcb[q].cpuTime + TotalTime(pcb - {q});
    if q != p {
      TotalTimeOf(pcb - {q}, p);
      TotalTimeOf(pcb - {p}, q);
      assert pcb - {q} - {p} == pcb - {p} - {q};
    }
  }

  lemma {:induction false} TotalTimeSame<P>(a: map<P, Pcb>, b: map<P, Pcb>)
    requires a.Keys == b.Keys && forall p | p in a :: p in b && a[p].cpuTime == b[p].cpuTime
    ensures TotalTime(a) == TotalTime(b)
    decreases |a|
  {
    if a != map[] {
      var p :| p in a;
      TotalTimeOf(a, p);
      TotalTimeOf(b, p);
      TotalTimeSame(a - {p}, b - {p});
    } else {
      assert b == map[];
    }
  }

  lemma {:induction false} TotalTimeUpdate<P>(a: map<P, Pcb>, p: P, b: Pcb)
    requires p in a
    ensures TotalTime(a[p := b]) + a[p].cpuTime == TotalTime(a) + b.cpuTime
  {
    TotalTimeOf(a, p);
    TotalTimeOf(a[p := b], p);
    assert a[p := b] - {p} == a - {p};
  }

  // Every tick so far has been charged to exactly one process.
  ghost predicate AllTimeCharged<P>(s: Sched<P>) {
    TotalTime(s.pcb) == s.tick
  }

  lemma {:induction false} StepCharges<P>(s: Sched<P>, e: Event<P>)
    requires Inv(s) && Legal(s, e) && NoWrap(s, e) && Step(s, e).Continues? && AllTimeCharged(s)
    ensures AllTimeCharged(Step(s, e).value)
  {
    hide NoDup, Reschedule, Resume, HandleTimer, Block, Suspend, Stop, TotalTime;
    StepOk(s, e);
    var t := Step(s, e).value;
    match e {
      case CreateE(p, priority) =>
        TotalTimeOf(t.pcb, p);
        assert t.pcb - {p} == s.pcb;
      case StartE(p) => StartOk(s, p); TotalTimeSame(s.pcb, t.pcb);
      case StopE(p) => StopOk(s, p); TotalTimeSame(s.pcb, t.pcb);
      case BlockE => BlockOk(s); TotalTimeSame(s.pcb, t.pcb);
      case SuspendE(ms) => SuspendOk(s, ms); TotalTimeSame(s.pcb, t.pcb);
      case ResumeE(p) => ResumeOk(s, p); TotalTimeSame(s.pcb, t.pcb);
      case ChangeE(p, priority) => ChangeOk(s, p, priority); TotalTimeSame(s.pcb, t.pcb);
      case TimerE =>
        HandleTimerOk(s);
        TotalTimeOf(s.pcb, s.current);
        var c := CountTick(s);
        TotalTimeUpdate(s.pcb, s.current, c.pcb[s.current]);
        TotalTimeSame(c.pcb, t.pcb);
    }
  }

  // Over any run from boot in which the tick counter does not wrap around, the
  // CPU times of all processes ever created add up to the tick counter, the
  // timer list stays sorted, and nothing on it is overdue.
  lemma {:induction false} RunCharges<P>(s: Sched<P>, es: seq<Event<P>>)
    requires Inv(s) && LegalRun(s, es) && NoWrapRun(s, es) && Run(s, es).Continues?
    requires AllTimeCharged(s) && TimerOk(s)
    ensures AllTimeCharged(Run(s, es).value) && TimerOk(Run(s, es).value)
    decreases |es|
  {
    if es != [] {
      StepOk(s, es[0]);
      StepCharges(s, es[0]);
      StepSorted(s, es[0]);
      RunCharges(Step(s, es[0]).value, es[1..]);
    }
  }

  lemma {:induction false} BootCharges<P>(idle: P)
    ensures Inv(Boot(idle)) && AllTimeCharged(Boot(idle)) && TimerOk(Boot(idle))
  {
    TotalTimeOf(Boot(idle).pcb, idle);
    assert Boot(idle).pcb - {idle} == map[];
  }

  // ---------------------------------------------------------------------------
  // Bounded waiting
  // ---------------------------------------------------------------------------

  // No process of a priority above k is running, ready or asleep.
  ghost predicate NoneAbove<P>(s: Sched<P>, k: nat)
    requires Core(s)
  {
    && s.pcb[s.current].priority <= k
    && (forall j :: k < j < LEVELS ==> s.ready[j] == [])
    && (forall q | q in s.timer :: s.pcb[q].priority <= k)
  }

  ghost predicate Queued<P>(s: Sched<P>, p: P, k: nat)
    requires |s.ready| == LEVELS
  {
    k < LEVELS && p in s.ready[k]
  }

  // An upper bound on the timer interrupts before p is dispatched.
  ghost function Wait<P>(s: Sched<P>, p: P, k: nat): nat
    requires Core(s) && Queued(s, p, k)
  {
    s.pcb[s.current].quantum + FULL_QUANTUM * IndexOf(s.ready[k], p)
  }

  // p was dispatched with a full quantum, or still waits for at most w ticks.
  ghost predicate Approaches<P>(s: Sched<P>, p: P, k: nat, w: int)
    requires Core(s)
  {
    if s.current == p then s.pcb[p].quantum == FULL_QUANTUM && s.pcb[p].priority == k
    else Queued(s, p, k) && Wait(s, p, k) <= w
  }

  // With nothing ready above k, rescheduling dispatches the head of queue k;
  // a current process that still can run goes to the tail of its queue.
  lemma {:induction false} HeadIsDispatched<P>(s: Sched<P>, k: nat)
    requires QueuesOk(s) && k < LEVELS && s.ready[k] != []
    requires s.pcb[s.current].priority <= k && forall j :: k < j < LEVELS ==> s.ready[j] == []
    ensures Reschedule(s).Continues?
    ensures var t := Reschedule(s).value; var cur := s.pcb[s.current];
            var back := if cur.state != Blocked && cur.priority == k then [s.current] else [];
            && t.current == s.ready[k][0]
            && |t.ready| == LEVELS && t.ready[k] == s.ready[k][1..] + back
            && (forall j :: k < j < LEVELS ==> t.ready[j] == [])
  {
    hide NoDup, Remove;
    var s1 := if s.pcb[s.current].state == Blocked then s else Enqueue(s, s.current);
    assert s1.ready[k][0] == s.ready[k][0];
    assert s.ready[k][0] in s.ready[k];
    RemoveFirst(s1.ready[k]);
    assert HighestReady(s.ready, if s.pcb[s.current].state == Blocked then 0 else s.pcb[s.current].priority, LEVELS)
        == Some(k);
  }

  // Rescheduling brings p to the front or up one place, for which the new
  // current process gets one full quantum.
  lemma {:induction false} RescheduleApproaches<P>(s: Sched<P>, p: P, k: nat)
    requires QueuesOk(s) && k < LEVELS && p in s.ready[k]
    requires s.pcb[s.current].priority <= k && forall j :: k < j < LEVELS ==> s.ready[j] == []
    ensures Reschedule(s).Continues?
    ensures var t := Reschedule(s).value;
            && Core(t) && t.pcb[t.current].priority == k
            && (forall j :: k < j < LEVELS ==> t.ready[j] == [])
            && Approaches(t, p, k, FULL_QUANTUM * IndexOf(s.ready[k], p))
  {
    hide Reschedule, NoDup, HighestReady, Dispatch;
    RescheduleOk(s);
    HeadIsDispatched(s, k);
    var t := Reschedule(s).value;
    assert t.current in s.ready[k];
    if t.current != p {
      IndexOfTail(s.ready[k], p);
      IndexOfAppend(s.ready[k][1..], t.ready[k][|s.ready[k]| - 1..], p);
      assert t.ready[k] == s.ready[k][1..] + t.ready[k][|s.ready[k]| - 1..];
    }
  }

  // A process that becomes ready goes behind p.
  lemma {:induction false} MakeReadyApproaches<P>(s: Sched<P>, x: P, p: P, k: nat)
    requires Core(s) && k < LEVELS && NoneAbove(s, k) && p in s.ready[k]
    requires (x in s.timer || x in s.blocked) && s.pcb[x].priority <= k
    ensures var t := MakeReady(s, x);
            && Core(t) && NoneAbove(t, k) && p in t.ready[k]
            && t.current == s.current && t.pcb[t.current] == s.pcb[s.current]
            && IndexOf(t.ready[k], p) == IndexOf(s.ready[k], p)
  {
    MakeReadyOk(s, x);
    RemoveMembers(s.timer, x);
    IndexOfAppend(s.ready[k], [x], p);
  }

  lemma {:induction false} MakeReadyKeeps<P>(s: Sched<P>, x: P, k: nat)
    requires Core(s) && k < LEVELS && NoneAbove(s, k)
    requires (x in s.timer || x in s.blocked) && s.pcb[x].priority <= k
    ensures var t := MakeReady(s, x); Core(t) && NoneAbove(t, k) && t.current == s.current && t.pcb[x].priority <= k
    ensures var t := MakeReady(s, x); t.pcb[t.current] == s.pcb[s.current]
  {
    MakeReadyOk(s, x);
    RemoveMembers(s.timer, x);
  }

  lemma {:induction false} ResumeApproaches<P>(s: Sched<P>, x: P, p: P, k: nat, w: int)
    requires Core(s) && k < LEVELS && NoneAbove(s, k) && Approaches(s, p, k, w)
    requires (x in s.timer || x in s.blocked) && s.pcb[x].priority <= k
    requires s.current != p ==> FULL_QUANTUM * IndexOf(s.ready[k], p) <= w
    ensures Resume(s, x).Continues?
    ensures var t := Resume(s, x).value;
            Core(t) && NoneAbove(t, k) && Approaches(t, p, k, w)
  {
    hide Reschedule, NoDup, HighestReady, Remove;
    var s1 := MakeReady(s, x);
    if s.current == p {
      MakeReadyKeeps(s, x, k);
    } else {
      MakeReadyApproaches(s, x, p, k);
      assert s1.pcb[x].priority == s.pcb[x].priority && s1.current == s.current;
      if s1.pcb[x].priority > s1.pcb[s1.current].priority {
        RescheduleApproaches(s1, p, k);
        PreemptOk(s1);
      }
    }
  }

  lemma {:induction false} WakeUpApproaches<P>(s: Sched<P>, p: P, k: nat, w: int)
    requires Core(s) && k < LEVELS && NoneAbove(s, k) && Approaches(s, p, k, w)
    ensures var t := WakeUp(s).value;
            Core(t) && NoneAbove(t, k) && Approaches(t, p, k, w)
    decreases |s.timer|
  {
    if HeadDue(s) {
      WakeUpTurn(s);
      ResumeApproaches(s, s.timer[0], p, k, w);
      WakeUpApproaches(Resume(s, s.timer[0]).value, p, k, w);
    }
  }

  // Each timer interrupt brings p one tick closer, or dispatches it.
  lemma {:induction false} TimerApproaches<P>(s: Sched<P>, p: P, k: nat, w: int)
    requires Inv(s) && k < LEVELS && NoneAbove(s, k) && s.current != p && Approaches(s, p, k, w)
    ensures HandleTimer(s).Continues?
    ensures var t := HandleTimer(s).value;
            Core(t) && NoneAbove(t, k) && Approaches(t, p, k, w - 1)
  {
    HandleTimerOk(s);
    CountTickOk(s);
    var c := CountTick(s);
    WakeUpApproaches(c, p, k, w - 1);
    var m := WakeUp(c).value;
    if m.pcb[m.current].quantum == 0 {
      RescheduleApproaches(m, p, k);
      RescheduleOk(m);
    }
  }

  // Nothing above k enters the schedule, and p is neither stopped nor moved to
  // another priority.
  ghost predicate Respects<P>(s: Sched<P>, e: Event<P>, p: P, k: nat) {
    match e
    case StartE(q) => q in s.pcb && s.pcb[q].priority <= k
    case StopE(q) => q != p
    case ResumeE(q) => q in s.pcb && s.pcb[q].priority <= k
    case ChangeE(q, priority) => q != p && priority <= k
    case _ => true
  }

  // What p sees of the schedule while it waits in queue k.
  ghost predicate Waits<P>(s: Sched<P>, p: P, k: nat, w: int)
    requires Inv(s)
  {
    k < LEVELS && NoneAbove(s, k) && s.current != p && Approaches(s, p, k, w)
  }

  lemma {:induction false} StartApproaches<P>(s: Sched<P>, q: P, p: P, k: nat, w: int)
    requires Inv(s) && Waits(s, p, k, w) && q in s.pcb && !Scheduled(s, q) && s.pcb[q].priority <= k
    ensures var t := Enqueue(s, q); Inv(t) && NoneAbove(t, k) && Approaches(t, p, k, w)
  {
    StartOk(s, q);
    IndexOfAppend(s.ready[k], [q], p);
  }

  lemma {:induction false} DequeueApproaches<P>(s: Sched<P>, q: P, p: P, k: nat, w: int)
    requires Inv(s) && Waits(s, p, k, w) && q != p
    requires q in s.pcb && s.pcb[q].state == Ready && Scheduled(s, q)
    ensures var t := Dequeue(s, q);
            && Inv(t) && NoneAbove(t, k) && p in t.ready[k]
            && IndexOf(t.ready[k], p) <= IndexOf(s.ready[k], p)
  {
    StopReadyOk(s, q);
    RemoveKeepsIndex(s.ready[k], q, p);
    assert forall j :: k < j < LEVELS ==> q !in s.ready[j];
  }

  lemma {:induction false} StopApproaches<P>(s: Sched<P>, q: P, p: P, k: nat, w: int)
    requires Inv(s) && Waits(s, p, k, w) && q != p && q in s.pcb && Scheduled(s, q) && Stop(s, q).Continues?
    ensures var t := Stop(s, q).value; Inv(t) && NoneAbove(t, k) && Approaches(t, p, k, w)
  {
    hide NoDup, Reschedule;
    StopOk(s, q);
    RemoveMembers(s.timer, q);
    match s.pcb[q].state {
      case Running =>
        assert ListsOk(SetState(s, q, Blocked));
        RescheduleApproaches(SetState(s, q, Blocked), p, k);
      case Ready => DequeueApproaches(s, q, p, k, w);
      case Blocked =>
    }
  }

  lemma {:induction false} BlockApproaches<P>(s: Sched<P>, p: P, k: nat, w: int)
    requires Inv(s) && Waits(s, p, k, w)
    ensures Block(s).Continues?
    ensures var t := Block(s).value; Inv(t) && NoneAbove(t, k) && Approaches(t, p, k, w)
  {
    BlockOk(s);
    var s1 := SetState(s.(blocked := [s.current] + s.blocked), s.current, Blocked);
    assert QueuesOk(s1);
    RescheduleApproaches(s1, p, k);
  }

  lemma {:induction false} SuspendApproaches<P>(s: Sched<P>, ms: nat, p: P, k: nat, w: int)
    requires Inv(s) && Waits(s, p, k, w)
    ensures Suspend(s, ms).Continues?
    ensures var t := Suspend(s, ms).value; Inv(t) && NoneAbove(t, k) && Approaches(t, p, k, w)
  {
    hide NoDup, Reschedule, SlotAfter, InsertAt;
    SuspendOk(s, ms);
    SleepOk(s, ms);
    var m := Sleep(s, ms);
    RescheduleApproaches(m, p, k);
    InsertMembers(s.timer, TimerSlot(s.pcb, s.timer, AddWord(s.tick, ms)), s.current);
  }

  lemma {:induction false} ChangeApproaches<P>(s: Sched<P>, q: P, priority: nat, p: P, k: nat, w: int)
    requires Inv(s) && Waits(s, p, k, w) && q != p && priority <= k
    requires q in s.pcb && Scheduled(s, q) && ChangePriority(s, q, priority).Continues?
    ensures var t := ChangePriority(s, q, priority).value; Inv(t) && NoneAbove(t, k) && Approaches(t, p, k, w)
  {
    hide NoDup, HighestReady;
    ChangeOk(s, q, priority);
    if s.pcb[q].state == Ready {
      DequeueApproaches(s, q, p, k, w);
      IndexOfAppend(Dequeue(s, q).ready[k], [q], p);
    }
  }

  // Every call leaves p as close to the processor as it was, and every timer
  // interrupt brings it one tick closer, until it is dispatched.
  lemma {:induction false} StepApproaches<P>(s: Sched<P>, e: Event<P>, p: P, k: nat, w: int)
    requires Inv(s) && Legal(s, e) && Waits(s, p, k, w) && Respects(s, e, p, k) && Step(s, e).Continues?
    ensures var t := Step(s, e).value;
            Inv(t) && NoneAbove(t, k) && Approaches(t, p, k, if e.TimerE? then w - 1 else w)
  {
    StepOk(s, e);
    match e {
      case CreateE(q, priority) =>
      case StartE(q) => StartApproaches(s, q, p, k, w);
      case StopE(q) => StopApproaches(s, q, p, k, w);
      case BlockE => BlockApproaches(s, p, k, w);
      case SuspendE(ms) => SuspendApproaches(s, ms, p, k, w);
      case ResumeE(q) => ResumeApproaches(s, q, p, k, w);
      case ChangeE(q, priority) => ChangeApproaches(s, q, priority, p, k, w);
      case TimerE => TimerApproaches(s, p, k, w);
    }
  }

  ghost predicate RespectsRun<P>(s: Sched<P>, es: seq<Event<P>>, p: P, k: nat)
    requires Inv(s) && LegalRun(s, es)
    decreases |es|
  {
    es == [] ||
    (Respects(s, es[0], p, k) &&
     (StepOk(s, es[0]); Step(s, es[0]).Continues? ==> RespectsRun(Step(s, es[0]).value, es[1..], p, k)))
  }

  // In some state of the run p is the current process.
  ghost predicate Dispatched<P>(s: Sched<P>, es: seq<Event<P>>, p: P)
    requires Inv(s) && LegalRun(s, es)
    decreases |es|
  {
    || s.current == p
    || (es != [] && (StepOk(s, es[0]); Step(s, es[0]).Continues? && Dispatched(Step(s, es[0]).value, es[1..], p)))
  }

  // Round robin: with nothing of a higher priority around, a process at index i
  // of its ready queue is dispatched within quantum + 5 i timer interrupts,
  // whatever the other processes do meanwhile.
  lemma {:induction false} WaitingIsBounded<P>(s: Sched<P>, es: seq<Event<P>>, p: P, k: nat, w: int)
    requires Inv(s) && LegalRun(s, es) && Run(s, es).Continues? && RespectsRun(s, es, p, k)
    requires k < LEVELS && NoneAbove(s, k) && Approaches(s, p, k, w)
    requires Timers(es) >= w
    ensures Dispatched(s, es, p)
    decreases |es|
  {
    if s.current != p && es != [] {
      StepOk(s, es[0]);
      StepApproaches(s, es[0], p, k, w);
      WaitingIsBounded(Step(s, es[0]).value, es[1..], p, k, if es[0].TimerE? then w - 1 else w);
    }
  }

  lemma {:induction false} RoundRobin<P>(s: Sched<P>, es: seq<Event<P>>, k: nat, i: nat)
    requires Inv(s) && LegalRun(s, es) && Run(s, es).Continues?
    requires k < LEVELS && NoneAbove(s, k) && i < |s.ready[k]| && RespectsRun(s, es, s.ready[k][i], k)
    requires Timers(es) >= s.pcb[s.current].quantum + FULL_QUANTUM * i
    ensures Dispatched(s, es, s.ready[k][i])
  {
    var p := s.ready[k][i];
    RemoveAt(s.ready[k], i);
    assert p in s.ready[k];
    WaitingIsBounded(s, es, p, k, s.pcb[s.current].quantum + FULL_QUANTUM * i);
  }
}
