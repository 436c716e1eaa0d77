// Runs of the kernel: every sequence of calls that keeps to the rules.

module SystemRuns {
  import opened Lists
  import opened SchedulerSpec
  import opened SchedulerRuns
  import opened ObSpec
  import opened ObProcesses
  import opened System

  datatype Call =
    | CreateC(o: nat, priority: nat, memory: Memory)    // PsCreateProcess
    | KillC(p: nat, boss: Option<nat>)                  // PsKillProcess
    | TypeC(o: nat)                                     // ObCreateObjectType
    | ObjectC(o: nat, permanent: bool, of: nat)        // ObCreateObject
    | OpenC(o: nat, inherit: bool, typ: Option<nat>)    // ObOpenObjectByPointer
    | ReferenceC(o: nat, typ: Option<nat>)              // ObReferenceObject
    | ByHandleC(h: nat, typ: Option<nat>)               // ObReferenceObjectByHandle
    | DereferenceC(o: nat)                              // ObDereferenceObject
    | CloseC(h: nat)                                    // ObCloseHandle
    | WaitC(h: nat, entry: bool)                        // ObWaitForSingleObject
    | SignalC(o: nat)                                   // ObSignalObject
    | BlockC                                            // KeBlockProcess
    | SuspendC(ms: nat)                                 // KeSuspendProcess
    | ResumeC(p: nat)                                   // KeResumeProcess
    | ChangeC(p: nat, priority: nat)                    // KeChangeProcessPriority
    | TimerC                                            // KeHandleTimer

  // The rules: numbers of new objects are new, references that are given up are
  // owned, and processes that wait for an object are neither resumed by somebody
  // else nor killed.
  ghost predicate Allowed(k: Kernel, c: Call) {
    match c
    case CreateC(o, _, _) => Unused(k, o)
    case KillC(p, boss) => Scheduled(k.ke, p) && !IsWaiter(k, p) && (boss.Some? ==> !IsWaiter(k, boss.value))
    case TypeC(o) => Unused(k, o)
    case ObjectC(o, _, of) => Unused(k, o) && of in k.ob.lists && of != k.ptype
    case OpenC(o, _, _) => o in k.ob.header
    case ReferenceC(o, _) => o in k.ob.header
    case DereferenceC(o) => o in k.ob.header && Own(k.own, o) > 0
    case SignalC(o) => o in k.ob.header
    case ResumeC(p) => (p in k.ke.timer || p in k.ke.blocked) && !IsWaiter(k, p)
    case ChangeC(p, _) => Scheduled(k.ke, p)
    case _ => true
  }

  ghost function ByScheduler(k: Kernel, r: Outcome<Sched<nat>>): Outcome<Kernel> {
    match r
    case Halts => Halts
    case Continues(ke) => Continues(k.(ke := ke))
  }

  ghost function StateOnly<A, B>(r: Outcome<(A, B)>): Outcome<A> {
    match r
    case Halts => Halts
    case Continues(x) => Continues(x.0)
  }

  // Calls of the scheduler.
  ghost function Schedule(k: Kernel, c: Call): Outcome<Sched<nat>>
    requires Inv(k.ke) && (c.ChangeC? || c.ResumeC? ==> c.p in k.ke.pcb) && (c.ChangeC? ==> Scheduled(k.ke, c.p))
    requires c.BlockC? || c.SuspendC? || c.ResumeC? || c.ChangeC? || c.TimerC?
  {
    match c
    case BlockC => Block(k.ke)
    case SuspendC(ms) => Suspend(k.ke, ms)
    case ResumeC(p) => Resume(k.ke, p)
    case ChangeC(p, priority) => ChangePriority(k.ke, p, priority)
    case TimerC => HandleTimer(k.ke)
  }

  ghost function ReferenceHandle(k: Kernel, h: nat, typ: Option<nat>): Kernel
    requires KernelOk(k)
  {
    CurrentOk(k);
    var r := ReferenceByHandle(k.ob, k.ke.current, h, typ);
    if r.1 == Success then Given(k, r.0, r.2.value) else k.(ob := r.0)
  }

  predicate OfObjects(c: Call) {
    c.TypeC? || c.ObjectC? || c.OpenC? || c.ReferenceC? || c.ByHandleC? || c.DereferenceC? || c.CloseC?
  }

  // Calls of the object manager, but for waiting and signaling.
  ghost function Manage(k: Kernel, c: Call): Outcome<Kernel>
    requires KernelOk(k) && Allowed(k, c) && OfObjects(c)
  {
    CurrentOk(k);
    match c
    case TypeC(o) => Continues(NewType(k, o))
    case ObjectC(o, permanent, of) => Continues(NewObject(k, o, permanent, of))
    case OpenC(o, inherit, typ) => Continues(OpenObject(k, o, inherit, typ).0)
    case ReferenceC(o, typ) =>
      var r := Reference(k.ob, o, typ);
      Continues(if r.1 == Success then Given(k, r.0, o) else k.(ob := r.0))
    case ByHandleC(h, typ) => Continues(ReferenceHandle(k, h, typ))
    case DereferenceC(o) => DropRef(k, o)
    case CloseC(h) => StateOnly(CloseHandle(k, h))
  }

  // The state after a call; what it returns is left to the lemmas about it.
  ghost function Do(k: Kernel, c: Call): Outcome<Kernel>
    requires KernelOk(k) && Allowed(k, c)
  {
    match c
    case CreateC(o, priority, memory) => StateOnly3(CreateProcess(k, o, priority, memory))
    case KillC(p, boss) => KillScheduled(k, p, boss)
    case WaitC(h, entry) => CurrentOk(k); StateOnly(Wait(k, h, entry))
    case SignalC(o) => Signal(k, o)
    case BlockC | SuspendC(_) | ResumeC(_) | ChangeC(_, _) | TimerC => KnownOk(k, c); ByScheduler(k, Schedule(k, c))
    case _ => Manage(k, c)
  }

  lemma {:induction false} KnownOk(k: Kernel, c: Call)
    requires KernelOk(k) && Allowed(k, c)
    ensures c.ChangeC? || c.ResumeC? || c.KillC? ==> c.p in k.ke.pcb
  {
    hide Scheduled, ObOk, RefsOk, ProcessesOk, WaitsOk, NoDup;
    if c.ChangeC? || c.KillC? {
      ScheduledOk(k, c.p);
    }
  }

  ghost function StateOnly3<A, B, C>(r: Outcome<(A, B, C)>): Outcome<A> {
    match r
    case Halts => Halts
    case Continues(x) => Continues(x.0)
  }

  function NewType(k: Kernel, o: nat): Kernel {
    k.(ob := CreateType(k.ob, o), own := k.own[o := 1])
  }

  lemma {:induction false} NewTypeOk(k: Kernel, o: nat)
    requires KernelOk(k) && Unused(k, o)
    ensures KernelOk(NewType(k, o))
  {
    hide Scheduled, CountsOk, TablesOk, WaitsOn, Inv, TypeListsOk;
    CreateTypeOk(k.ob, o);
    SameWaits(k, NewType(k, o));
  }

  // The current process would have to block, and nothing else is ready.
  ghost predicate WaitHalts(k: Kernel, h: nat, entry: bool)
    requires KernelOk(k)
  {
    CurrentOk(k);
    && entry && h < MAX_HANDLE_COUNT && k.ob.tables[k.ke.current][h].Holds?
    && k.ob.tables[k.ke.current][h].target !in k.signaled && NothingReady(k.ke)
  }

  // There would be a new process, but its priority is not one.
  ghost predicate CreateHalts(k: Kernel, priority: nat, memory: Memory)
    requires KernelOk(k)
  {
    CurrentOk(k);
    memory == Enough && priority >= LEVELS && !TableFull(k)
  }

  // Stopping p, or changing its priority, reaches KeBugCheck.
  ghost predicate HaltsFor(k: Kernel, e: Event<nat>)
    requires KernelOk(k) && (e.StopE? || e.ChangeE?) && Scheduled(k.ke, e.p)
  {
    ScheduledOk(k, e.p);
    HaltsOn(k.ke, e)
  }

  // Exactly when a call ends in KeBugCheck: never because of the object manager.
  ghost predicate HaltsIn(k: Kernel, c: Call)
    requires KernelOk(k) && Allowed(k, c)
  {
    match c
    case CreateC(_, priority, memory) => CreateHalts(k, priority, memory)
    case KillC(p, _) => HaltsFor(k, StopE(p))
    case WaitC(h, entry) => WaitHalts(k, h, entry)
    case BlockC => NothingReady(k.ke)
    case SuspendC(_) => NothingReady(k.ke)
    case ChangeC(p, priority) => HaltsFor(k, ChangeE(p, priority))
    case _ => false
  }

  lemma {:induction false} ObjectCallOk(k: Kernel, c: Call)
    requires KernelOk(k) && Allowed(k, c)
    requires OfObjects(c)
    ensures Do(k, c).Continues? && KernelOk(Do(k, c).value)
  {
    hide CountsOk, TypeListsOk, RefsOk, ProcessesOk, WaitsOk, Scheduled, Inv, Slots, DropRef, CloseHandle, Close,
      Dereference, CreateProcess, KillScheduled, Wait, Signal, Unused;
    CurrentOk(k);
    match c {
      case TypeC(o) => NewTypeOk(k, o);
      case ObjectC(o, permanent, typ) => NewObjectOk(k, o, permanent, typ);
      case OpenC(o, inherit, typ) => OpenObjectOk(k, o, inherit, typ);
      case ReferenceC(o, typ) => TakeRefOk(k, o);
      case ByHandleC(h, typ) =>
        var r := ReferenceByHandle(k.ob, k.ke.current, h, typ);
        if r.1 == Success {
          TakeRefOk(k, r.2.value);
        }
      case DereferenceC(o) => DropRefOk(k, o);
      case CloseC(h) => CloseHandleOk(k, h);
    }
  }

  lemma {:induction false} SchedulerCallOk(k: Kernel, c: Call)
    requires KernelOk(k) && Allowed(k, c)
    requires c.BlockC? || c.SuspendC? || c.ResumeC? || c.ChangeC? || c.TimerC?
    ensures Do(k, c).Halts? <==> HaltsIn(k, c)
    ensures Do(k, c).Continues? ==> KernelOk(Do(k, c).value)
  {
    hide ObOk, RefsOk, ProcessesOk, WaitsOk, Scheduled, Block, Suspend, Resume, ChangePriority, HandleTimer,
      CreateProcess, KillScheduled, Wait, Signal, Manage, WaitHalts, Unused;
    CurrentOk(k);
    match c {
      case BlockC =>
        BlockOk(k.ke);
        if Block(k.ke).Continues? { BlockStep(k); }
      case SuspendC(ms) =>
        SuspendOk(k.ke, ms);
        if Suspend(k.ke, ms).Continues? { SuspendStep(k, ms); }
      case ResumeC(p) => ResumeStep(k, p);
      case ChangeC(p, priority) =>
        ScheduledOk(k, p);
        ChangeOk(k.ke, p, priority);
        if ChangePriority(k.ke, p, priority).Continues? { ChangeStep(k, p, priority); }
      case TimerC => TimerStep(k);
    }
  }

  lemma {:induction false} ProcessCallOk(k: Kernel, c: Call)
    requires KernelOk(k) && Allowed(k, c)
    requires c.CreateC? || c.KillC? || c.WaitC? || c.SignalC?
    ensures Do(k, c).Halts? <==> HaltsIn(k, c)
    ensures Do(k, c).Continues? ==> KernelOk(Do(k, c).value)
  {
    hide CountsOk, TypeListsOk, RefsOk, ProcessesOk, WaitsOk, Scheduled, Slots, Wait, Signal, KillScheduled,
      CreateProcess, Manage, Unused, HaltsOn;
    CurrentOk(k);
    match c {
      case CreateC(o, priority, memory) => CreateProcessOk(k, o, priority, memory);
      case KillC(p, boss) => KillOk(k, p, boss);
      case WaitC(h, entry) => WaitOk(k, h, entry);
      case SignalC(o) => SignalOk(k, o);
    }
  }

  lemma {:induction false} DoOk(k: Kernel, c: Call)
    requires KernelOk(k) && Allowed(k, c)
    ensures Do(k, c).Halts? <==> HaltsIn(k, c)
    ensures Do(k, c).Continues? ==> KernelOk(Do(k, c).value)
  {
    hide KernelOk, Do, Allowed;
    if c.BlockC? || c.SuspendC? || c.ResumeC? || c.ChangeC? || c.TimerC? {
      SchedulerCallOk(k, c);
    } else if c.CreateC? || c.KillC? || c.WaitC? || c.SignalC? {
      ProcessCallOk(k, c);
    } else {
      ObjectCallOk(k, c);
    }
  }

  // ---------------------------------------------------------------------------
  // Every run from the boot of the kernel
  // ---------------------------------------------------------------------------

  // PsInitialize: the process type, and the idle process with PID 0 and no handles.
  ghost function BootKernel(ptype: nat, idle: nat): (k: Kernel)
    requires ptype != idle
    ensures KernelOk(k)
  {
    BootKernelOk(ptype, idle);
    Initial(ptype, idle)
  }

  function Initial(ptype: nat, idle: nat): Kernel {
    var ob := CreateObject(CreateType(Objects(map[], map[], map[]), ptype), idle, false, ptype);
    Kernel(WithTable(ob, idle), Boot(idle), map[ptype := 1], ptype, map[idle := 0], {}, map[])
  }

  lemma {:induction false} InitialObjects(ptype: nat, idle: nat)
    requires ptype != idle
    ensures var ob := Initial(ptype, idle).ob;
            && ObOk(ob) && ob.lists == map[ptype := [idle]] && ob.tables.Keys == {idle}
            && ob.header == map[ptype := Entry(0, 1, true, None), idle := Entry(0, 1, false, Some(ptype))]
  {
    hide CountsOk, TypeListsOk, TablesOk;
    var none := Objects(map[], map[], map[]);
    NoObjects();
    CreateTypeOk(none, ptype);
    CreateObjectOk(CreateType(none, ptype), idle, false, ptype);
    WithTableOk(CreateObject(CreateType(none, ptype), idle, false, ptype), idle);
    assert [idle] + [] == [idle];
  }

  lemma {:induction false} NoObjects()
    ensures ObOk(Objects(map[], map[], map[]))
  {
  }

  lemma {:induction false} BootKernelOk(ptype: nat, idle: nat)
    requires ptype != idle
    ensures KernelOk(Initial(ptype, idle))
  {
    hide ObOk, Inv;
    InitialObjects(ptype, idle);
    BootOk(idle);
    OnlyIdle(idle);
  }

  lemma {:induction false} OnlyIdle(idle: nat)
    ensures forall p :: Scheduled(Boot(idle), p) <==> p == idle
  {
  }

  // Any sequence of calls that keep to the rules and do not end in KeBugCheck.
  ghost predicate AllowedRun(k: Kernel, cs: seq<Call>)
    requires KernelOk(k)
    decreases |cs|
  {
    cs == [] ||
    (Allowed(k, cs[0]) && !HaltsIn(k, cs[0]) && (DoOk(k, cs[0]); AllowedRun(Do(k, cs[0]).value, cs[1..])))
  }

  ghost function DoAll(k: Kernel, cs: seq<Call>): (t: Kernel)
    requires KernelOk(k) && AllowedRun(k, cs)
    ensures KernelOk(t)
    decreases |cs|
  {
    if cs == [] then k
    else
      DoOk(k, cs[0]);
      DoAll(Do(k, cs[0]).value, cs[1..])
  }

  // A run may go on with any allowed call that does not halt.
  lemma {:induction false} RunGoesOn(k: Kernel, cs: seq<Call>, c: Call)
    requires KernelOk(k) && AllowedRun(k, cs) && Allowed(DoAll(k, cs), c) && !HaltsIn(DoAll(k, cs), c)
    ensures AllowedRun(k, cs + [c])
    ensures Do(DoAll(k, cs), c).Continues? && DoAll(k, cs + [c]) == Do(DoAll(k, cs), c).value
    decreases |cs|
  {
    hide KernelOk, Do, Allowed, HaltsIn;
    DoOk(DoAll(k, cs), c);
    if cs == [] {
      assert [c][1..] == [] && [] + [c] == [c];
    } else {
      DoOk(k, cs[0]);
      RunGoesOn(Do(k, cs[0]).value, cs[1..], c);
      assert (cs + [c])[1..] == cs[1..] + [c];
    }
  }

  // The slots that name o in the tables of processes that exist, and in those of
  // processes that were freed.
  ghost function LiveSlots(k: Kernel, o: nat): set<(nat, nat)> {
    set x | x in Slots(k.ob, o) && x.0 in k.ob.header
  }

  ghost function LostSlots(k: Kernel, o: nat): set<(nat, nat)> {
    set x | x in Slots(k.ob, o) && x.0 !in k.ob.header
  }

  // Conservation of references, for every object that is not freed. HandleCount is
  // the number of handles of the processes that exist, and of those that freed
  // processes left open.
  lemma {:induction false} CountsAreConserved(ptype: nat, idle: nat, cs: seq<Call>, o: nat)
    requires ptype != idle && AllowedRun(BootKernel(ptype, idle), cs)
    requires o in DoAll(BootKernel(ptype, idle), cs).ob.header
    ensures var k := DoAll(BootKernel(ptype, idle), cs);
            && k.ob.header[o].handles == |Slots(k.ob, o)| == |LiveSlots(k, o)| + |LostSlots(k, o)|
            && k.ob.header[o].pointers == k.ob.header[o].handles + Own(k.own, o) + if Scheduled(k.ke, o) then 1 else 0
  {
    hide Scheduled, Slots, Inv, WaitsOk, RefsOk, ProcessesOk, TypeListsOk, TablesOk;
    var k := DoAll(BootKernel(ptype, idle), cs);
    OwnCounts(k, o);
    assert Slots(k.ob, o) == LiveSlots(k, o) + LostSlots(k, o);
  }

  // The handles in the table of a freed process are never closed, nor its number
  // used again.
  lemma {:induction false} LostHandlesStay(k: Kernel, cs: seq<Call>, q: nat)
    requires KernelOk(k) && AllowedRun(k, cs) && q in k.ob.tables && q !in k.ob.header
    ensures var t := DoAll(k, cs); q in t.ob.tables && t.ob.tables[q] == k.ob.tables[q] && q !in t.ob.header
    decreases |cs|
  {
    hide KernelOk, Do, Allowed, HaltsIn;
    if cs != [] {
      DoOk(k, cs[0]);
      FreedTableStays(k, cs[0], q);
      LostHandlesStay(Do(k, cs[0]).value, cs[1..], q);
    }
  }

  lemma {:induction false} KillKeepsFreedTables(k: Kernel, p: nat, boss: Option<nat>, q: nat)
    requires KernelOk(k) && Scheduled(k.ke, p) && !IsWaiter(k, p) && (boss.Some? ==> !IsWaiter(k, boss.value))
    requires KillScheduled(k, p, boss).Continues? && q in k.ob.tables && q !in k.ob.header
    ensures var t := KillScheduled(k, p, boss).value;
            q in t.ob.tables && t.ob.tables[q] == k.ob.tables[q] && q !in t.ob.header
  {
    hide ObOk, RefsOk, ProcessesOk, WaitsOk, Scheduled, KillScheduled, Stop, Heir;
    KillOk(k, p, boss);
    KnownProcess(k, p);
    ScheduledOk(k, Heir(k.ke, p, boss));
  }

  lemma {:induction false} ManageKeepsFreedTables(k: Kernel, c: Call, q: nat)
    requires KernelOk(k) && Allowed(k, c) && OfObjects(c) && Manage(k, c).Continues?
    requires q in k.ob.tables && q !in k.ob.header
    ensures var t := Manage(k, c).value; q in t.ob.tables && t.ob.tables[q] == k.ob.tables[q] && q !in t.ob.header
  {
    hide RefsOk, ProcessesOk, WaitsOk, Inv, Scheduled, ObOk, Dereference, Close;
    CurrentOk(k);
    if c.DereferenceC? {
      DropRefOk(k, c.o);
    } else if c.CloseC? {
      CloseOk(k.ob, k.ke.current, c.h);
    }
  }

  lemma {:induction false} FreedTableStays(k: Kernel, c: Call, q: nat)
    requires KernelOk(k) && Allowed(k, c) && Do(k, c).Continues? && q in k.ob.tables && q !in k.ob.header
    ensures var t := Do(k, c).value; q in t.ob.tables && t.ob.tables[q] == k.ob.tables[q] && q !in t.ob.header
  {
    hide ObOk, RefsOk, ProcessesOk, WaitsOk, Scheduled, Inv, Manage, Wait, Signal, KillScheduled, CreateProcess,
      Schedule;
    CurrentOk(k);
    if OfObjects(c) {
      ManageKeepsFreedTables(k, c, q);
    } else {
      match c {
        case CreateC(o, priority, memory) => CreateProcessOk(k, o, priority, memory);
        case KillC(p, boss) => KillKeepsFreedTables(k, p, boss, q);
        case WaitC(h, entry) => WaitOk(k, h, entry);
        case SignalC(o) => SignalOk(k, o);
        case _ =>
      }
    }
  }

  // No handle, no type list and no scheduler list leads to a freed object, and the
  // type lists hold every other object with a type exactly once.
  lemma {:induction false} NothingFreedIsReachable(ptype: nat, idle: nat, cs: seq<Call>, p: nat, i: nat, t: nat)
    requires ptype != idle && AllowedRun(BootKernel(ptype, idle), cs)
    ensures var k := DoAll(BootKernel(ptype, idle), cs);
            && (p in k.ob.tables ==> |k.ob.tables[p]| == MAX_HANDLE_COUNT)
            && (p in k.ob.tables && i < MAX_HANDLE_COUNT && k.ob.tables[p][i].Holds? ==>
                  k.ob.tables[p][i].target in k.ob.header)
            && (Scheduled(k.ke, p) ==> p in k.ob.header && k.ob.header[p].pointers > 0)
            && (t in k.ob.lists ==> NoDup(k.ob.lists[t]))
            && (t in k.ob.lists ==>
                  forall o :: o in k.ob.lists[t] <==> o in k.ob.header && k.ob.header[o].typ == Some(t))
            && (p in k.ob.header && k.ob.header[p].pointers == 0 ==> k.ob.header[p].permanent)
  {
    hide Scheduled, Slots, Inv, WaitsOk;
    var k := DoAll(BootKernel(ptype, idle), cs);
    if Scheduled(k.ke, p) {
      ScheduledOk(k, p);
    }
  }

  // The processes that exist have different PIDs.
  lemma {:induction false} PidsDiffer(ptype: nat, idle: nat, cs: seq<Call>, p: nat, q: nat)
    requires ptype != idle && AllowedRun(BootKernel(ptype, idle), cs) && p != q
    requires var k := DoAll(BootKernel(ptype, idle), cs);
             && p in k.ob.header && k.ob.header[p].typ == Some(k.ptype)
             && q in k.ob.header && k.ob.header[q].typ == Some(k.ptype)
    ensures var k := DoAll(BootKernel(ptype, idle), cs);
            p in k.pid && q in k.pid && k.pid[p] != k.pid[q]
  {
    hide Scheduled, CountsOk, Inv, WaitsOk;
    var k := DoAll(BootKernel(ptype, idle), cs);
    assert p in k.ob.lists[k.ptype] && q in k.ob.lists[k.ptype];
  }

  // No wake-up is lost: nobody waits for a signaled object, every waiter is blocked
  // and scheduled and waits once, and the object it waits for is not freed although
  // the wait itself holds no reference.
  lemma {:induction false} WaitersAreSafe(ptype: nat, idle: nat, cs: seq<Call>, o: nat, w: nat)
    requires ptype != idle && AllowedRun(BootKernel(ptype, idle), cs)
    ensures var k := DoAll(BootKernel(ptype, idle), cs);
            && (o in k.signaled ==> Waiters(k, o) == [])
            && NoDup(Waiters(k, o))
            && (w in Waiters(k, o) ==>
                  && w in k.ke.blocked && Scheduled(k.ke, w) && o in k.ob.header && k.ob.header[o].handles > 0
                  && forall x :: x != o ==> w !in Waiters(k, x))
  {
    var k := DoAll(BootKernel(ptype, idle), cs);
    if Waiters(k, o) != [] {
      assert Waiters(k, o)[0] in Waiters(k, o);
    }
    if w in Waiters(k, o) {
      WaiterScheduled(k, o, w);
      assert WaitsOn(k, o, w);
      var i :| 0 <= i < |k.ob.tables[w]| && Names(k.ob.tables[w][i], o);
      SomeSlotNames(k.ob, w, i, o);
    }
  }

  // Most calls leave the wait queues alone.
  lemma {:induction false} QueuesKept(k: Kernel, c: Call)
    requires KernelOk(k) && Allowed(k, c) && Do(k, c).Continues?
    requires !c.KillC? && !c.WaitC? && !c.SignalC?
    ensures Do(k, c).value.waiters == k.waiters
  {
    hide ObOk, RefsOk, ProcessesOk, WaitsOk, Scheduled, Inv, Unused, Open, Close, ReferenceByHandle, Dereference,
      Start, IsWaiter, CreateProcess, KillScheduled, Wait, Signal;
    hide InitProcess, CreateObject;
    if c.CreateC? {
      CreateProcessOk(k, c.o, c.priority, c.memory);
    }
  }

  // The calls that signal an object: ObSignalObject, and killing the process it is.
  predicate Signals(c: Call, o: nat) {
    c == SignalC(o) || (c.KillC? && c.p == o)
  }

  lemma {:induction false} SignalEmpties(k: Kernel, c: Call, o: nat)
    requires KernelOk(k) && Allowed(k, c) && Do(k, c).Continues? && Signals(c, o)
    ensures Waiters(Do(k, c).value, o) == [] && forall x :: x != o ==> Waiters(Do(k, c).value, x) == Waiters(k, x)
    ensures forall w | w in Waiters(k, o) :: Awake(Do(k, c).value.ke, w)
  {
    hide ObOk, RefsOk, ProcessesOk, WaitsOk, Inv, Scheduled, Signal, KillScheduled, Manage, CreateProcess, Wait;
    match c {
      case SignalC(x) => SignalOk(k, x);
      case KillC(x, boss) => KillOk(k, x, boss);
    }
  }

  // No other call takes anybody off a wait queue.
  lemma {:induction false} OthersKeepQueues(k: Kernel, c: Call, o: nat, w: nat)
    requires KernelOk(k) && Allowed(k, c) && Do(k, c).Continues? && !Signals(c, o) && w in Waiters(k, o)
    ensures w in Waiters(Do(k, c).value, o)
  {
    hide ObOk, RefsOk, ProcessesOk, WaitsOk, Inv, Scheduled, Signal, KillScheduled, Manage, CreateProcess, Wait;
    match c {
      case SignalC(x) => SignalOk(k, x);
      case KillC(x, boss) => KillOk(k, x, boss);
      case WaitC(h, entry) => CurrentOk(k); WaitOk(k, h, entry);
      case _ => QueuesKept(k, c);
    }
  }

  // Whoever waits keeps waiting until the object is signaled, and is then resumed,
  // once: it is running or ready, and on no wait queue.
  lemma {:induction false} WaiterUntilSignal(k: Kernel, c: Call, o: nat, w: nat)
    requires KernelOk(k) && Allowed(k, c) && Do(k, c).Continues? && w in Waiters(k, o)
    ensures var t := Do(k, c).value;
            if Signals(c, o) then !IsWaiter(t, w) && w !in t.ke.blocked && Awake(t.ke, w)
            else w in Waiters(t, o) && w in t.ke.blocked
  {
    hide ObOk, RefsOk, ProcessesOk, Scheduled, Do, Allowed, HaltsIn;
    DoOk(k, c);
    var t := Do(k, c).value;
    WaitersBlocked(t);
    if Signals(c, o) {
      SignalEmpties(k, c, o);
      assert forall x :: x != o ==> w !in Waiters(k, x);
      AwakeIsUnblocked(t.ke, w);
    } else {
      OthersKeepQueues(k, c, o, w);
    }
  }

  lemma {:induction false} AwakeIsUnblocked(s: Sched<nat>, p: nat)
    requires Inv(s) && Awake(s, p)
    ensures p !in s.blocked
  {
  }
}
