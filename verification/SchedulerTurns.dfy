// What each process gets: how long a dispatched process runs, to whom it gives
// way, and where every operation puts a process in the queues.

module SchedulerTurns {
  import opened Lists
  import opened Words
  import opened SchedulerSpec
  import opened SchedulerRuns
  import opened SchedulerTiming

  // The current process, its quantum and its priority are as before.
  ghost predicate SameCurrent<P>(s: Sched<P>, t: Sched<P>)
    requires s.current in s.pcb
  {
    && t.current == s.current && t.current in t.pcb
    && t.pcb[t.current].quantum == s.pcb[s.current].quantum
    && t.pcb[t.current].priority == s.pcb[s.current].priority
  }

  // ---------------------------------------------------------------------------
  // Resuming
  // ---------------------------------------------------------------------------

  // The ready queues of t are those of s with p behind the others in queue k.
  ghost predicate Behind<P>(s: seq<seq<P>>, t: seq<seq<P>>, p: P, k: nat) {
    && |t| == |s|
    && forall j :: 0 <= j < |s| ==> t[j] == if j == k then s[j] + [p] else s[j]
  }

  // A resumed process that does not outrank the current one goes to the tail of
  // its queue, and the current process runs on with the quantum it had.
  lemma {:induction false} ResumeSpares<P>(s: Sched<P>, p: P)
    requires Core(s) && (p in s.timer || p in s.blocked)
    requires s.pcb[p].priority <= s.pcb[s.current].priority
    ensures Resume(s, p).Continues?
    ensures var t := Resume(s, p).value;
            && SameCurrent(s, t) && t.pcb[t.current] == s.pcb[s.current]
            && Behind(s.ready, t.ready, p, s.pcb[p].priority)
  {
    MakeReadyOk(s, p);
  }

  // A resumed process that outranks the current one and everything ready runs at
  // once with a quantum of 5, and the process it preempts goes to the tail of
  // its own queue.
  lemma {:induction false} ResumePreempts<P>(s: Sched<P>, p: P)
    requires Core(s) && (p in s.timer || p in s.blocked)
    requires s.pcb[p].priority > s.pcb[s.current].priority
    requires forall k :: s.pcb[p].priority <= k < |s.ready| ==> s.ready[k] == []
    ensures Resume(s, p).Continues?
    ensures var t := Resume(s, p).value;
            && t.current == p && p in t.pcb && t.pcb[p].quantum == 5 && t.pcb[p].state == Running
            && Behind(s.ready, t.ready, s.current, s.pcb[s.current].priority)
  {
    hide Reschedule, ListsOk, MakeReady, Scheduled, Listed, Remove;
    Waiting(s);
    MakeReadyOk(s, p);
    var s1, k := MakeReady(s, p), s.pcb[p].priority;
    Waiting(s1);
    assert s1.ready[k] == [p];
    RescheduleOk(s1);
    Rescheduled(s1, k);
  }

  lemma {:induction false} Waiting<P>(s: Sched<P>)
    requires Core(s)
    ensures |s.ready| == LEVELS
    ensures forall p | p in s.timer || p in s.blocked ::
              p in s.pcb && s.pcb[p].priority < LEVELS && s.pcb[p].state == Blocked
  {
  }

  // Rescheduling a process that can still run, in terms of the queues alone.
  lemma {:induction false} Rescheduled<P>(s: Sched<P>, k: nat)
    requires Core(s) && k < LEVELS && s.ready[k] != []
    requires s.pcb[s.current].priority <= k && forall j :: k < j < LEVELS ==> s.ready[j] == []
    ensures Reschedule(s).Continues?
    ensures var t := Reschedule(s).value; var c := s.pcb[s.current].priority;
            && t.current == s.ready[k][0]
            && |t.ready| == LEVELS
            && t.ready[k] == s.ready[k][1..] + (if c == k then [s.current] else [])
            && forall j :: 0 <= j < LEVELS && j != k ==>
                 t.ready[j] == if j == c then s.ready[j] + [s.current] else s.ready[j]
  {
    hide NoDup, Remove;
    HeadIsDispatched(s, k);
    var s1 := Enqueue(s, s.current);
    assert s1.ready[k][0] == s.ready[k][0];
    assert s.ready[k][0] in s.ready[k];
  }

  // ---------------------------------------------------------------------------
  // The quantum
  // ---------------------------------------------------------------------------

  // The processes at the head of the timer list that are due before `now`.
  function Due<P>(s: Sched<P>, now: nat): seq<P>
    requires forall p | p in s.timer :: p in s.pcb
  {
    s.timer[..Expired(s.pcb, s.timer, now)]
  }

  // The processes of priority k on a list, in its order.
  function AtLevel<P>(pcb: map<P, Pcb>, l: seq<P>, k: nat): (r: seq<P>)
    requires forall p | p in l :: p in pcb
    ensures forall p | p in r :: p in l && pcb[p].priority == k
    ensures r == [] <==> forall p | p in l :: pcb[p].priority != k
  {
    if l == [] then [] else (if pcb[l[0]].priority == k then [l[0]] else []) + AtLevel(pcb, l[1..], k)
  }

  // No process due before `now` outranks the current process.
  ghost predicate NoneDueAbove<P>(s: Sched<P>, now: nat)
    requires Core(s)
  {
    forall p | p in Due(s, now) :: s.pcb[p].priority <= s.pcb[s.current].priority
  }

  lemma {:induction false} AtLevelSame<P>(a: map<P, Pcb>, b: map<P, Pcb>, l: seq<P>, k: nat)
    requires forall p | p in l :: p in a && p in b && a[p].priority == b[p].priority
    ensures AtLevel(a, l, k) == AtLevel(b, l, k)
  {
    if l != [] {
      AtLevelSame(a, b, l[1..], k);
    }
  }

  // The due processes are the head of the timer list and those of the rest.
  lemma {:induction false} DueTurn<P>(s: Sched<P>, t: Sched<P>)
    requires Core(s) && HeadDue(s)
    requires Core(t) && SameClocks(s, t) && t.timer == s.timer[1..]
    ensures Due(s, s.tick) == [s.timer[0]] + Due(t, t.tick)
    ensures forall p | p in Due(t, t.tick) :: p in s.pcb && p in t.pcb && s.pcb[p].priority == t.pcb[p].priority
  {
    hide ListsOk;
    Waiting(s);
    ExpiredSame(s.pcb, t.pcb, t.timer, s.tick);
    var n := Expired(t.pcb, t.timer, t.tick);
    assert Expired(s.pcb, s.timer, s.tick) == n + 1;
    assert s.timer[..n + 1] == [s.timer[0]] + s.timer[1..][..n];
  }

  // Waking up sleepers that do not outrank the current process puts them, in the
  // order of the timer list, behind the others of their queues, and leaves the
  // current process running.
  lemma {:induction false} WakeUpSpares<P>(s: Sched<P>)
    requires Core(s) && NoneDueAbove(s, s.tick)
    ensures var t := WakeUp(s).value;
            && SameCurrent(s, t) && t.pcb[t.current] == s.pcb[s.current]
            && |t.ready| == |s.ready| == LEVELS
            && forall k :: 0 <= k < LEVELS ==> t.ready[k] == s.ready[k] + AtLevel(s.pcb, Due(s, s.tick), k)
    decreases |s.timer|
  {
    hide Resume, ListsOk, Scheduled, Due, AtLevel;
    Waiting(s);
    if HeadDue(s) {
      var p := s.timer[0];
      WakeUpTurn(s);
      var s1 := Resume(s, p).value;
      DueTurn(s, s1);
      ResumeSpares(s, p);
      WakeUpSpares(s1);
      Waiting(s1);
      BehindAll(s.pcb, s1.pcb, p, Due(s1, s1.tick), s.ready, s1.ready, WakeUp(s).value.ready);
    } else {
      NothingDue(s);
    }
  }

  // p behind the others of its queue, and then those of l behind those of theirs.
  lemma {:induction false} BehindAll<P>(a: map<P, Pcb>, b: map<P, Pcb>, p: P, l: seq<P>,
                                        s: seq<seq<P>>, m: seq<seq<P>>, t: seq<seq<P>>)
    requires p in a && Behind(s, m, p, a[p].priority) && |t| == |m|
    requires forall q | q in l :: q in a && q in b && a[q].priority == b[q].priority
    requires forall k :: 0 <= k < |m| ==> t[k] == m[k] + AtLevel(b, l, k)
    ensures forall q | q in [p] + l :: q in a
    ensures forall k :: 0 <= k < |s| ==> t[k] == s[k] + AtLevel(a, [p] + l, k)
  {
    hide AtLevel;
    forall k | 0 <= k < |s| ensures t[k] == s[k] + AtLevel(a, [p] + l, k) {
      AtLevelSame(a, b, l, k);
      AtLevelStep(a, p, l, k);
    }
  }

  lemma {:induction false} AtLevelStep<P>(pcb: map<P, Pcb>, p: P, l: seq<P>, k: nat)
    requires p in pcb && forall q | q in l :: q in pcb
    ensures forall q | q in [p] + l :: q in pcb
    ensures AtLevel(pcb, [p] + l, k) == (if pcb[p].priority == k then [p] else []) + AtLevel(pcb, l, k)
  {
    assert ([p] + l)[1..] == l;
  }

  lemma {:induction false} NothingDue<P>(s: Sched<P>)
    requires Core(s) && !HeadDue(s)
    ensures Due(s, s.tick) == [] && forall k :: AtLevel(s.pcb, Due(s, s.tick), k) == []
  {
  }

  // The processes due at the next timer interrupt.
  function DueNext<P>(s: Sched<P>): seq<P>
    requires forall p | p in s.timer :: p in s.pcb
  {
    Due(s, AddWord(s.tick, 10))
  }

  // A timer interrupt takes one tick off the quantum of the current process. As
  // long as some is left, and nobody who wakes up outranks it, it runs on.
  lemma {:induction false} QuantumCounts<P>(s: Sched<P>)
    requires Inv(s) && s.pcb[s.current].quantum > 1 && NoneDueAbove(s, AddWord(s.tick, 10))
    ensures HandleTimer(s).Continues?
    ensures var t, b := HandleTimer(s).value, s.pcb[s.current];
            && t.tick == AddWord(s.tick, 10)
            && t.current == s.current && t.current in t.pcb
            && t.pcb[t.current] == b.(quantum := b.quantum - 1, cpuTime := AddWord(b.cpuTime, 10))
            && |t.ready| == |s.ready| == LEVELS
            && forall k :: 0 <= k < LEVELS ==> t.ready[k] == s.ready[k] + AtLevel(s.pcb, DueNext(s), k)
  {
    hide ListsOk, Scheduled, AtLevel, WakeUp;
    TickWakes(s);
  }

  // What the timer interrupt does before it looks at the quantum.
  lemma {:induction false} TickWakes<P>(s: Sched<P>)
    requires Inv(s) && NoneDueAbove(s, AddWord(s.tick, 10))
    ensures var c := CountTick(s);
            && Core(c) && c.tick == AddWord(s.tick, 10)
            && var t, b := WakeUp(c).value, s.pcb[s.current];
            && t.tick == c.tick && SameClocks(c, t)
            && t.current == s.current && t.current in t.pcb
            && t.pcb[t.current] == b.(quantum := b.quantum - 1, cpuTime := AddWord(b.cpuTime, 10))
            && |t.ready| == |s.ready| == LEVELS
            && forall k :: 0 <= k < LEVELS ==> t.ready[k] == s.ready[k] + AtLevel(s.pcb, DueNext(s), k)
  {
    hide ListsOk, Scheduled, AtLevel, WakeUp;
    CountTickOk(s);
    Waiting(s);
    var c := CountTick(s);
    ExpiredSame(s.pcb, c.pcb, s.timer, c.tick);
    WakeUpSpares(c);
    WakeUpTakesPrefix(c);
    forall k | 0 <= k < LEVELS ensures AtLevel(c.pcb, DueNext(s), k) == AtLevel(s.pcb, DueNext(s), k) {
      AtLevelSame(c.pcb, s.pcb, DueNext(s), k);
    }
  }

  // At its last tick a process that nothing ready outranks gives way to the
  // first of its equals, those that wake up at this tick being last, and goes
  // behind them all. Without equals it gets another 5 ticks.
  lemma {:induction false} LastTick<P>(s: Sched<P>)
    requires Inv(s) && NoInversion(s) && s.pcb[s.current].quantum == 1
    requires NoneDueAbove(s, AddWord(s.tick, 10))
    ensures HandleTimer(s).Continues? && s.pcb[s.current].priority < |s.ready|
    ensures var t, k := HandleTimer(s).value, s.pcb[s.current].priority;
            var equals := s.ready[k] + AtLevel(s.pcb, DueNext(s), k);
            && |t.ready| == LEVELS
            && t.current == (if equals == [] then s.current else equals[0])
            && t.ready[k] == (if equals == [] then [] else equals[1..] + [s.current])
            && t.current in t.pcb && t.pcb[t.current].quantum == 5
  {
    hide ListsOk, Scheduled, AtLevel, WakeUp, NoneDueAbove, DueNext;
    TickWakes(s);
    var m, k := WakeUp(CountTick(s)).value, s.pcb[s.current].priority;
    NothingAbove(s, m);
    RescheduleOk(m);
    if m.ready[k] == [] {
      OnlyCurrent(m);
    } else {
      Rescheduled(m, k);
    }
  }

  // Nobody outranks a process that nothing ready and nobody due outranks.
  lemma {:induction false} NothingAbove<P>(s: Sched<P>, m: Sched<P>)
    requires Inv(s) && NoInversion(s) && NoneDueAbove(s, AddWord(s.tick, 10)) && |m.ready| == LEVELS
    requires forall k :: 0 <= k < LEVELS ==> m.ready[k] == s.ready[k] + AtLevel(s.pcb, DueNext(s), k)
    ensures forall k :: s.pcb[s.current].priority < k < LEVELS ==> m.ready[k] == []
  {
    hide ListsOk;
    Waiting(s);
    forall k | s.pcb[s.current].priority < k < LEVELS ensures m.ready[k] == [] {
      assert AtLevel(s.pcb, DueNext(s), k) == [];
    }
  }

  lemma {:induction false} OnlyCurrent<P>(s: Sched<P>)
    requires Core(s) && forall k :: s.pcb[s.current].priority <= k < LEVELS ==> s.ready[k] == []
    ensures Reschedule(s).Continues? && Reschedule(s).value.current == s.current
    ensures Reschedule(s).value.ready == s.ready
  {
  }

  // The call does not take the processor away from the current process.
  ghost predicate Stays<P>(s: Sched<P>, e: Event<P>)
    requires Core(s)
  {
    match e
    case StopE(p) => p != s.current
    case BlockE | SuspendE(_) => false
    case ResumeE(p) => p in s.pcb && s.pcb[p].priority <= s.pcb[s.current].priority
    case TimerE => NoneDueAbove(s, AddWord(s.tick, 10))
    case _ => true
  }

  ghost predicate StaysRun<P>(s: Sched<P>, es: seq<Event<P>>)
    requires Inv(s) && LegalRun(s, es)
    decreases |es|
  {
    es == [] ||
    (Stays(s, es[0]) &&
     (StepOk(s, es[0]); Step(s, es[0]).Continues? ==> StaysRun(Step(s, es[0]).value, es[1..])))
  }

  lemma {:induction false} StepStays<P>(s: Sched<P>, e: Event<P>)
    requires Inv(s) && Legal(s, e) && Stays(s, e) && Step(s, e).Continues?
    requires e.TimerE? ==> s.pcb[s.current].quantum > 1
    ensures var t := Step(s, e).value;
            && t.current == s.current && t.current in t.pcb
            && t.pcb[t.current].quantum + (if e.TimerE? then 1 else 0) == s.pcb[s.current].quantum
  {
    hide HandleTimer, Resume, Reschedule, NoneDueAbove;
    StepOk(s, e);
    match e {
      case CreateE(_, _) | StartE(_) | StopE(_) =>
      case ResumeE(p) => ResumeOk(s, p); ResumeSpares(s, p);
      case ChangeE(_, _) =>
      case TimerE => QuantumCounts(s);
    }
  }

  // Whatever the other processes do, a process that neither blocks nor is
  // stopped or outranked keeps the processor until its quantum is used up.
  lemma {:induction false} KeepsProcessor<P>(s: Sched<P>, es: seq<Event<P>>)
    requires Inv(s) && LegalRun(s, es) && Run(s, es).Continues? && StaysRun(s, es)
    requires Timers(es) < s.pcb[s.current].quantum
    ensures var t := Run(s, es).value;
            && t.current == s.current && t.current in t.pcb
            && t.pcb[t.current].quantum + Timers(es) == s.pcb[s.current].quantum
    decreases |es|
  {
    hide Stays;
    if es != [] {
      StepOk(s, es[0]);
      StepStays(s, es[0]);
      KeepsProcessor(Step(s, es[0]).value, es[1..]);
    }
  }

  // A process with a quantum of 5 is still current after 4 further ticks, and at
  // the next one, unless it gets outranked, the first of its equals runs for 5
  // ticks and it goes behind them.
  lemma {:induction false} FullTurn<P>(s: Sched<P>, es: seq<Event<P>>)
    requires Inv(s) && LegalRun(s, es) && Run(s, es).Continues? && StaysRun(s, es)
    requires s.pcb[s.current].quantum == 5 && Timers(es) == 4
    ensures var u := Run(s, es).value;
            && Inv(u) && u.current == s.current && u.pcb[u.current].priority < |u.ready|
            && var k := u.pcb[u.current].priority;
               (NoInversion(u) && NoneDueAbove(u, AddWord(u.tick, 10)) && u.ready[k] != [] ==>
                  && HandleTimer(u).Continues?
                  && var t := HandleTimer(u).value;
                     && t.current == u.ready[k][0] && t.current in t.pcb && t.pcb[t.current].quantum == 5
                     && |t.ready| == LEVELS
                     && t.ready[k] == u.ready[k][1..] + AtLevel(u.pcb, DueNext(u), k) + [s.current])
  {
    hide ListsOk, NoInversion, NoneDueAbove, Run, LegalRun, StaysRun, HandleTimer, AtLevel, DueNext;
    KeepsProcessor(s, es);
    var u := Run(s, es).value;
    Waiting(u);
    var k := u.pcb[u.current].priority;
    if NoInversion(u) && NoneDueAbove(u, AddWord(u.tick, 10)) && u.ready[k] != [] {
      LastTick(u);
    }
  }

  // ---------------------------------------------------------------------------
  // Giving up the processor, and moving between queues
  // ---------------------------------------------------------------------------

  // The current process blocks, goes to sleep, or stops itself.
  ghost predicate Leaves<P>(s: Sched<P>, e: Event<P>) {
    e.BlockE? || e.SuspendE? || e == StopE(s.current)
  }

  // The process at the head of the highest ready queue in use runs next, for 5
  // ticks, and no other ready process moves.
  lemma {:induction false} LeavingDispatches<P>(s: Sched<P>, e: Event<P>, k: nat)
    requires Inv(s) && Legal(s, e) && Leaves(s, e) && Step(s, e).Continues?
    requires k < LEVELS == |s.ready| && s.ready[k] != [] && forall j :: k < j < LEVELS ==> s.ready[j] == []
    ensures var t := Step(s, e).value;
            && t.current == s.ready[k][0] && t.current in t.pcb && t.pcb[t.current].quantum == 5
            && t.ready == s.ready[k := s.ready[k][1..]]
  {
    hide Reschedule, NoDup;
    match e {
      case BlockE =>
        BlockOk(s);
        GiveWay(s, SetState(s.(blocked := [s.current] + s.blocked), s.current, Blocked), k);
      case SuspendE(ms) =>
        SleepOk(s, ms);
        GiveWay(s, Sleep(s, ms), k);
      case StopE(_) => GiveWay(s, SetState(s, s.current, Blocked), k);
    }
  }

  lemma {:induction false} GiveWay<P>(s: Sched<P>, m: Sched<P>, k: nat)
    requires Inv(s) && ListsOk(m) && m.current == s.current && m.ready == s.ready && m.pcb.Keys == s.pcb.Keys
    requires m.pcb[m.current].state == Blocked && m.pcb[m.current].priority < LEVELS
    requires k < LEVELS && s.ready[k] != [] && forall j :: k < j < LEVELS ==> s.ready[j] == []
    ensures Reschedule(m).Continues?
    ensures var t := Reschedule(m).value;
            && t.current == s.ready[k][0] && t.current in t.pcb && t.pcb[t.current].quantum == 5
            && t.ready == s.ready[k := s.ready[k][1..]]
  {
    hide NoDup, Remove;
    RescheduleOk(m);
    assert HighestReady(m.ready, 0, LEVELS) == Some(k);
    assert m.ready[k][0] in m.ready[k];
    RemoveFirst(m.ready[k]);
  }

  // A process that goes to sleep until w comes before every sleeper that is due
  // at w or later, except that a head due at w stays the head. So sleepers due at
  // the same time are not served first come, first served.
  lemma {:induction false} SleepersInOrder<P>(s: Sched<P>, ms: nat) returns (i: nat)
    requires Inv(s) && TimerOk(s) && Suspend(s, ms).Continues?
    ensures var w, t := AddWord(s.tick, ms), Suspend(s, ms).value;
            && i <= |s.timer| && t.timer == s.timer[..i] + [s.current] + s.timer[i..]
            && s.current in t.pcb && t.pcb[s.current].wakeUp == w
            && (forall j :: 0 < j < i ==> s.pcb[s.timer[j]].wakeUp < w)
            && (forall j :: i <= j < |s.timer| ==> s.pcb[s.timer[j]].wakeUp >= w)
            && (s.timer != [] ==> (i == 0 <==> s.pcb[s.timer[0]].wakeUp > w))
  {
    SuspendOk(s, ms);
    i := TimerSlot(s.pcb, s.timer, AddWord(s.tick, ms));
    SlotSplits(s.pcb, s.timer, AddWord(s.tick, ms));
  }

  // Starting a process puts it behind the others of its priority.
  lemma {:induction false} StartGoesBehind<P>(s: Sched<P>, p: P)
    requires Inv(s) && p in s.pcb && !Scheduled(s, p) && s.pcb[p].priority < LEVELS
    ensures Start(s, p).Continues?
    ensures var t := Start(s, p).value;
            && SameCurrent(s, t) && t.blocked == s.blocked && t.timer == s.timer
            && Behind(s.ready, t.ready, p, s.pcb[p].priority)
  {
  }

  // A ready process given a priority, be it the one it has, leaves its queue and
  // goes to the tail of that of its new priority. Any other process stays where
  // it is.
  lemma {:induction false} ChangeMoves<P>(s: Sched<P>, p: P, priority: nat)
    requires Inv(s) && p in s.pcb && Scheduled(s, p) && ChangePriority(s, p, priority).Continues?
    ensures var t := ChangePriority(s, p, priority).value;
            && |t.ready| == |s.ready|
            && forall j :: 0 <= j < |s.ready| ==>
                 t.ready[j] == if s.pcb[p].state == Ready
                               then (if j == s.pcb[p].priority then Remove(s.ready[j], p) else s.ready[j])
                                    + (if j == priority then [p] else [])
                               else s.ready[j]
  {
    hide NoDup, Remove;
  }
}
