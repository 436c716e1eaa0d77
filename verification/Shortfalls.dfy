// Runs of the kernel at the end of which it does not do what one would expect.

module Shortfalls {
  import opened Lists
  import opened SchedulerSpec
  import opened SchedulerRuns
  import opened SchedulerTiming
  import opened ObSpec
  import opened ObProcesses
  import opened System
  import opened SystemRuns

  // The numbers of the process type, the idle process, and a new process.
  const TYPE: nat := 0
  const IDLE: nat := 1
  const CHILD: nat := 2

  // The idle process opens an inheritable handle to the process type.
  const OPEN: Call := OpenC(TYPE, true, None)

  // The kernel after boot and m times OPEN.
  ghost predicate Opened(k: Kernel, m: nat) {
    && m <= MAX_HANDLE_COUNT
    && k.ob.header.Keys == {TYPE, IDLE} && k.ob.header[TYPE].handles == m
    && k.ob.lists.Keys == {TYPE} && k.ptype == TYPE
    && k.ob.tables == map[IDLE := seq(MAX_HANDLE_COUNT, j => if j < m then Holds(TYPE, true) else Empty)]
    && k.ke == Boot(IDLE) && k.signaled == {} && k.waiters == map[]
  }

  lemma {:induction false} OpenMore(k: Kernel, m: nat)
    requires KernelOk(k) && Opened(k, m) && m < MAX_HANDLE_COUNT
    ensures Allowed(k, OPEN) && !HaltsIn(k, OPEN) && Do(k, OPEN).Continues? && Opened(Do(k, OPEN).value, m + 1)
  {
    hide KernelOk;
    var t := k.ob.tables[IDLE];
    var f := FreeFrom(t, 0);
    assert t[m] == Empty;
    assert f == Some(m);
    var u := Do(k, OPEN).value;
    assert u.ob == AddHandle(k.ob, IDLE, m, TYPE, true);
    assert u.ob.tables[IDLE] == seq(MAX_HANDLE_COUNT, j => if j < m + 1 then Holds(TYPE, true) else Empty);
  }

  lemma {:induction false} OpenRun(m: nat)
    requires m <= MAX_HANDLE_COUNT
    ensures AllowedRun(BootKernel(TYPE, IDLE), seq(m, _ => OPEN))
    ensures Opened(DoAll(BootKernel(TYPE, IDLE), seq(m, _ => OPEN)), m)
  {
    hide KernelOk, Do, Allowed, HaltsIn;
    var k := BootKernel(TYPE, IDLE);
    if m == 0 {
      assert seq(m, _ => OPEN) == [];
      assert k.ob.tables[IDLE] == seq(MAX_HANDLE_COUNT, j => if j < m then Holds(TYPE, true) else Empty);
      assert k.ob.tables == map[IDLE := seq(MAX_HANDLE_COUNT, j => if j < m then Holds(TYPE, true) else Empty)];
    } else {
      OpenRun(m - 1);
      var cs := seq(m - 1, _ => OPEN);
      OpenMore(DoAll(k, cs), m - 1);
      RunGoesOn(k, cs, OPEN);
      assert cs + [OPEN] == seq(m, _ => OPEN);
    }
  }

  lemma {:induction false} ChildIsNew(k: Kernel, m: nat)
    requires Opened(k, m)
    ensures Unused(k, CHILD)
  {
  }

  // ---------------------------------------------------------------------------
  // Creation that fails leaves counters raised
  // ---------------------------------------------------------------------------

  lemma {:induction false} AllToInherit(t: seq<Slot>, i: nat)
    requires i <= |t| && forall j :: i <= j < |t| ==> t[j] == Holds(TYPE, true)
    ensures ToInherit(t, TYPE, i) == |t| - i
    decreases |t| - i
  {
    if i < |t| {
      AllToInherit(t, i + 1);
    }
  }

  // With all 256 slots open for a child to inherit, creating one fails. The child
  // is gone, and yet 512 handles are counted instead of 256.
  lemma {:induction false} FailedCreationLeaks()
    ensures var cs := seq(MAX_HANDLE_COUNT, _ => OPEN);
            && AllowedRun(BootKernel(TYPE, IDLE), cs)
            && var k := DoAll(BootKernel(TYPE, IDLE), cs); var c := CreateC(CHILD, 0, Enough);
               && TYPE in k.ob.header && k.ob.header[TYPE].handles == 256
               && Allowed(k, c) && Do(k, c).Continues?
               && var t := Do(k, c).value;
                  CHILD !in t.ob.header && TYPE in t.ob.header && t.ob.header[TYPE].handles == 512
  {
    hide KernelOk, CreateProcess, Do, Allowed, Unused, AllowedRun, DoAll;
    OpenRun(MAX_HANDLE_COUNT);
    CreationLeaks(DoAll(BootKernel(TYPE, IDLE), seq(MAX_HANDLE_COUNT, _ => OPEN)));
  }

  lemma {:induction false} CreationLeaks(k: Kernel)
    requires KernelOk(k) && Opened(k, MAX_HANDLE_COUNT)
    ensures var c := CreateC(CHILD, 0, Enough);
            && Allowed(k, c) && Do(k, c).Continues?
            && var t := Do(k, c).value;
               CHILD !in t.ob.header && TYPE in t.ob.header && t.ob.header[TYPE].handles == 512
  {
    hide KernelOk, CreateProcess, Unused;
    ChildIsNew(k, MAX_HANDLE_COUNT);
    CreateProcessOk(k, CHILD, 0, Enough);
    assert TableFull(k);
    AllToInherit(k.ob.tables[IDLE], 0);
  }

  // ---------------------------------------------------------------------------
  // Killing closes the wrong handles
  // ---------------------------------------------------------------------------

  lemma {:induction false} StopKeepsCurrent(s: Sched<nat>, p: nat)
    requires Inv(s) && p in s.pcb && Scheduled(s, p) && p != s.current
    ensures !HaltsOn(s, StopE(p)) && Stop(s, p).Continues? && Stop(s, p).value.current == s.current
  {
    StopOk(s, p);
  }

  // The idle process, with one handle in slot 0, creates a child that inherits it,
  // and kills it. The child's handle stays open; that of the idle process is closed.
  lemma {:induction false} KillClosesWrongHandle()
    ensures var cs := seq(1, _ => OPEN) + [CreateC(CHILD, 0, Enough)];
            && AllowedRun(BootKernel(TYPE, IDLE), cs)
            && var k := DoAll(BootKernel(TYPE, IDLE), cs);
               && k.ke.current == IDLE && IDLE in k.ob.tables && CHILD in k.ob.tables
               && |k.ob.tables[IDLE]| == |k.ob.tables[CHILD]| == MAX_HANDLE_COUNT
               && k.ob.tables[IDLE][0] == k.ob.tables[CHILD][0] == Holds(TYPE, true)
               && Allowed(k, KillC(CHILD, None)) && Do(k, KillC(CHILD, None)).Continues?
               && var t := Do(k, KillC(CHILD, None)).value;
                  && IDLE in t.ob.tables && CHILD in t.ob.tables
                  && |t.ob.tables[IDLE]| == |t.ob.tables[CHILD]| == MAX_HANDLE_COUNT
                  && t.ob.tables[IDLE][0] == Empty && t.ob.tables[CHILD][0] == Holds(TYPE, true)
  {
    hide CreateProcess, KillScheduled, Stop;
    OpenRun(1);
    var k1 := DoAll(BootKernel(TYPE, IDLE), seq(1, _ => OPEN));
    ChildIsNew(k1, 1);
    ChildCreated(k1);
    RunGoesOn(BootKernel(TYPE, IDLE), seq(1, _ => OPEN), CreateC(CHILD, 0, Enough));
    var k := Do(k1, CreateC(CHILD, 0, Enough)).value;
    ChildKilled(k);
  }

  // The state in which the child is killed.
  ghost predicate BeforeKill(k: Kernel) {
    && KernelOk(k) && k.ke.current == IDLE && IDLE in k.ob.tables && CHILD in k.ob.tables
    && |k.ob.tables[IDLE]| == |k.ob.tables[CHILD]| == MAX_HANDLE_COUNT
    && k.ob.tables[IDLE][0] == k.ob.tables[CHILD][0] == Holds(TYPE, true)
    && Scheduled(k.ke, CHILD) && !IsWaiter(k, CHILD)
  }

  lemma {:induction false} ChildCreated(k: Kernel)
    requires KernelOk(k) && Opened(k, 1) && Unused(k, CHILD)
    ensures var c := CreateC(CHILD, 0, Enough);
            Allowed(k, c) && !HaltsIn(k, c) && Do(k, c).Continues? && BeforeKill(Do(k, c).value)
  {
    hide KernelOk, CreateProcess;
    var c := CreateC(CHILD, 0, Enough);
    CreateProcessOk(k, CHILD, 0, Enough);
    assert k.ob.tables[IDLE][1] == Empty;
    DoOk(k, c);
    var t := Do(k, c).value;
    assert forall o :: Waiters(t, o) == [];
  }

  lemma {:induction false} ChildKilled(k: Kernel)
    requires BeforeKill(k)
    ensures Allowed(k, KillC(CHILD, None)) && Do(k, KillC(CHILD, None)).Continues?
    ensures var t := Do(k, KillC(CHILD, None)).value;
            && IDLE in t.ob.tables && CHILD in t.ob.tables
            && |t.ob.tables[IDLE]| == |t.ob.tables[CHILD]| == MAX_HANDLE_COUNT
            && t.ob.tables[IDLE][0] == Empty && t.ob.tables[CHILD][0] == Holds(TYPE, true)
  {
    hide CountsOk, TypeListsOk, RefsOk, ProcessesOk, WaitsOk, Slots, KillScheduled, Stop;
    KillOk(k, CHILD, None);
    StopKeepsCurrent(k.ke, CHILD);
  }

  // ---------------------------------------------------------------------------
  // Starting a process does not preempt
  // ---------------------------------------------------------------------------

  // A process of priority 5, started while the idle process runs, has to wait.
  lemma {:induction false} StartingCanInvert()
    ensures var s := Create(Boot(IDLE), CHILD, 5);
            && Inv(s) && CHILD in s.pcb && !Scheduled(s, CHILD) && NoInversion(s)
            && Start(s, CHILD).Continues?
            && Start(s, CHILD).value.current == IDLE && !NoInversion(Start(s, CHILD).value)
  {
    BootOk(IDLE);
    CreateStep(Boot(IDLE), CHILD, 5);
    StartInverts(Create(Boot(IDLE), CHILD, 5), CHILD);
  }

  // ---------------------------------------------------------------------------
  // Nor does changing a priority
  // ---------------------------------------------------------------------------

  const OTHER: nat := 3

  // A process of priority 7 is started, and runs from the next timer interrupt on;
  // then one of priority 5 is started.
  function Preparation(): seq<Event<nat>> {
    [CreateE(CHILD, 7), StartE(CHILD), TimerE, CreateE(OTHER, 5), StartE(OTHER)]
  }

  lemma {:induction false} ChildStarted()
    ensures var s := Create(Boot(IDLE), CHILD, 7);
            && Inv(s) && CHILD in s.pcb && !Scheduled(s, CHILD) && Start(s, CHILD).Continues?
            && var t := Start(s, CHILD).value;
               && Inv(t) && t.current == IDLE && t.pcb.Keys == {IDLE, CHILD} && t.pcb[CHILD].priority == 7
               && t.pcb[IDLE].quantum == 1 && t.pcb[IDLE].priority == 0 && t.timer == [] && t.blocked == []
               && (forall k :: 0 <= k < LEVELS ==> t.ready[k] == if k == 7 then [CHILD] else [])
               && (forall q :: Scheduled(t, q) <==> q in {IDLE, CHILD})
  {
    BootOk(IDLE);
    CreateStep(Boot(IDLE), CHILD, 7);
    StartIs(Create(Boot(IDLE), CHILD, 7), CHILD);
    OnlyIdle(IDLE);
  }

  lemma {:induction false} ChildRuns(s: Sched<nat>)
    requires Inv(s) && s.current == IDLE && s.pcb.Keys == {IDLE, CHILD} && s.pcb[CHILD].priority == 7
    requires s.pcb[IDLE].quantum == 1 && s.pcb[IDLE].priority == 0 && s.timer == []
    requires forall k :: 0 <= k < LEVELS ==> s.ready[k] == if k == 7 then [CHILD] else []
    ensures HandleTimer(s).Continues?
    ensures var t := HandleTimer(s).value;
            && Inv(t) && t.current == CHILD && t.pcb.Keys == {IDLE, CHILD}
            && t.pcb[CHILD].state == Running && t.pcb[CHILD].priority == 7
            && NoInversion(t) && (forall q :: Scheduled(t, q) <==> Scheduled(s, q))
  {
    hide NoDup, WakeUp, ListsOk;
    HandleTimerOk(s);
    var c := CountTick(s);
    CountTickOk(s);
    NobodyDue(c);
    HeadIsDispatched(c, 7);
    RescheduleOk(c);
  }

  lemma {:induction false} NobodyDue(s: Sched<nat>)
    requires Core(s) && s.timer == []
    ensures WakeUp(s) == Continues(s)
  {
  }

  // One of priority 5 is started, and the running process of priority 7 is given
  // priority 3.
  lemma {:induction false} OtherWaits(s: Sched<nat>)
    requires Inv(s) && s.current == CHILD && s.pcb.Keys == {IDLE, CHILD} && NoInversion(s) && !Scheduled(s, OTHER)
    requires s.pcb[CHILD].state == Running && s.pcb[CHILD].priority == 7
    ensures var t := Create(s, OTHER, 5);
            && Inv(t) && OTHER in t.pcb && !Scheduled(t, OTHER) && Start(t, OTHER).Continues?
            && var u := Start(t, OTHER).value;
               && Inv(u) && u.current == CHILD && CHILD in u.pcb && NoInversion(u)
               && Scheduled(u, CHILD) && ChangePriority(u, CHILD, 3).Continues?
               && var v := ChangePriority(u, CHILD, 3).value; v.current in v.pcb && !NoInversion(v)
  {
    hide NoDup;
    CreateStep(s, OTHER, 5);
    var t := Create(s, OTHER, 5);
    StartIs(t, OTHER);
    StartInverts(t, OTHER);
    var u := Start(t, OTHER).value;
    assert OTHER in u.ready[5];
    ChangeOk(u, CHILD, 3);
    ChangeInverts(u, CHILD, 3);
  }

  // A process that outranks the running one has to wait: the running process of
  // priority 7 is given priority 3, while one of priority 5 is ready.
  lemma {:induction false} ChangingCanInvert()
    ensures Inv(Boot(IDLE)) && LegalRun(Boot(IDLE), Preparation()) && Run(Boot(IDLE), Preparation()).Continues?
    ensures var s := Run(Boot(IDLE), Preparation()).value;
            && Inv(s) && s.current == CHILD && CHILD in s.pcb && NoInversion(s)
            && Scheduled(s, CHILD) && ChangePriority(s, CHILD, 3).Continues?
            && var t := ChangePriority(s, CHILD, 3).value; t.current in t.pcb && !NoInversion(t)
  {
    hide ListsOk, NoInversion, Scheduled, Start, HandleTimer, ChangePriority, LegalRun, Run;
    BootOk(IDLE);
    ChildStarted();
    var s1 := Create(Boot(IDLE), CHILD, 7);
    var s2 := Start(s1, CHILD).value;
    ChildRuns(s2);
    var s3 := HandleTimer(s2).value;
    OtherWaits(s3);
    var s4 := Create(s3, OTHER, 5);
    var s5 := Start(s4, OTHER).value;
    NoMore(s5);
    OneStep(s4, StartE(OTHER), [], s5);
    OneStep(s3, CreateE(OTHER, 5), [StartE(OTHER)] + [], s4);
    OneStep(s2, TimerE, [CreateE(OTHER, 5)] + ([StartE(OTHER)] + []), s3);
    OneStep(s1, StartE(CHILD), [TimerE] + ([CreateE(OTHER, 5)] + ([StartE(OTHER)] + [])), s2);
    OneStep(Boot(IDLE), CreateE(CHILD, 7),
            [StartE(CHILD)] + ([TimerE] + ([CreateE(OTHER, 5)] + ([StartE(OTHER)] + []))), s1);
    assert Preparation() == [CreateE(CHILD, 7)]
        + ([StartE(CHILD)] + ([TimerE] + ([CreateE(OTHER, 5)] + ([StartE(OTHER)] + []))));
  }

  lemma {:induction false} NoMore(s: Sched<nat>)
    requires Inv(s)
    ensures LegalRun(s, []) && Run(s, []) == Continues(s)
  {
  }

  // The first event of a run, and the rest.
  lemma {:induction false} OneStep(s: Sched<nat>, e: Event<nat>, es: seq<Event<nat>>, t: Sched<nat>)
    requires Inv(s) && Legal(s, e) && Step(s, e) == Continues(t)
    ensures Inv(t)
    ensures LegalRun(t, es) ==> LegalRun(s, [e] + es)
    ensures LegalRun(t, es) && LegalRun(s, [e] + es) ==> Run(s, [e] + es) == Run(t, es)
  {
    StepOk(s, e);
    assert ([e] + es)[1..] == es;
  }
}
