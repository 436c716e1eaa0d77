// The kernel as a whole: the object manager of base/ob/ob.c and the scheduler of
// base/ke/scheduler.c together, with process creation and killing of base/ps/ps.c
// and waiting on objects. A process has the number of its process object.

module System {
  import opened Lists
  import opened SchedulerSpec
  import opened SchedulerRuns
  import opened SchedulerTurns
  import opened ObSpec
  import opened ObProcesses
  import opened Pids

  datatype Kernel = Kernel(
    ob: Objects,
    ke: Sched<nat>,
    own: map<nat, nat>,           // references that clients were given and have not given up
    ptype: nat,                   // processType
    pid: map<nat, nat>,           // PID of every process object
    signaled: set<nat>,           // objects whose SignalState is 1
    waiters: map<nat, seq<nat>>)  // WaitQueue of every object, if it ever had one

  function Own(own: map<nat, nat>, o: nat): nat {
    if o in own then own[o] else 0
  }

  function Waiters(k: Kernel, o: nat): seq<nat> {
    if o in k.waiters then k.waiters[o] else []
  }

  // ---------------------------------------------------------------------------
  // The invariant
  // ---------------------------------------------------------------------------

  // Every reference to an object is a handle, owned by a client, or that of the
  // scheduler to a process it schedules. What is scheduled is not freed.
  ghost predicate RefsOk(k: Kernel) {
    && (forall o | o in k.ob.header ::
          Outstanding(k.ob, o) == Own(k.own, o) + if Scheduled(k.ke, o) then 1 else 0)
    && (forall p :: Scheduled(k.ke, p) ==> p in k.ob.header && k.ob.header[p].typ == Some(k.ptype))
  }

  // Process objects have a control block, a handle table and a PID of their own, and
  // are not permanent.
  ghost predicate ProcessesOk(k: Kernel) {
    && k.ptype in k.ob.lists
    && (forall p | p in k.ob.lists[k.ptype] :: p in k.ke.pcb && p in k.ob.tables && p in k.pid)
    && (forall p | p in k.ob.header && k.ob.header[p].typ == Some(k.ptype) :: !k.ob.header[p].permanent)
    && (forall p, q | p in k.ob.lists[k.ptype] && q in k.ob.lists[k.ptype] && p in k.pid && q in k.pid ::
          k.pid[p] == k.pid[q] ==> p == q)
  }

  // A waiter is blocked, waits once and for one object, which it has a handle to
  // and which is not signaled.
  ghost predicate WaitsOn(k: Kernel, o: nat, w: nat) {
    && w in k.ke.blocked
    && w in k.ob.tables
    && exists i :: 0 <= i < |k.ob.tables[w]| && Names(k.ob.tables[w][i], o)
  }

  ghost predicate WaitsOk(k: Kernel) {
    && (forall o :: NoDup(Waiters(k, o)))
    && (forall o, w {:trigger w in Waiters(k, o)} :: w in Waiters(k, o) ==> o !in k.signaled && WaitsOn(k, o, w))
    && (forall o, x, w {:trigger w in Waiters(k, o), w in Waiters(k, x)} ::
          w in Waiters(k, o) && w in Waiters(k, x) ==> o == x)
  }

  ghost predicate KernelOk(k: Kernel) {
    && Inv(k.ke) && ObOk(k.ob)
    && RefsOk(k) && ProcessesOk(k) && WaitsOk(k)
  }

  // What everything else needs to know about a process that exists.
  lemma {:induction false} ScheduledOk(k: Kernel, p: nat)
    requires RefsOk(k) && ProcessesOk(k) && ObOk(k.ob) && Scheduled(k.ke, p)
    ensures p in k.ob.header && p in k.ob.lists[k.ptype] && p in k.ob.tables && p in k.ke.pcb
    ensures k.ob.header[p].typ == Some(k.ptype)
    ensures Outstanding(k.ob, p) > 0
  {
  }

  lemma {:induction false} CurrentOk(k: Kernel)
    requires KernelOk(k)
    ensures k.ke.current in k.ob.tables && k.ke.current in k.ob.header && k.ke.current !in k.ke.blocked
    ensures TablesOk(k.ob) && |k.ob.tables[k.ke.current]| == MAX_HANDLE_COUNT
  {
    assert Scheduled(k.ke, k.ke.current);
    ScheduledOk(k, k.ke.current);
  }

  // ---------------------------------------------------------------------------
  // Steps of the object manager
  // ---------------------------------------------------------------------------

  // A step of the object manager in the current process, in which references and
  // ownership change together, keeps the invariant of the kernel.
  ghost predicate ObStep(k: Kernel, ob: Objects, own: map<nat, nat>) {
    && ObOk(ob)
    && ob.lists.Keys == k.ob.lists.Keys && ob.tables.Keys == k.ob.tables.Keys
    && (forall q | q in k.ob.tables && q != k.ke.current :: ob.tables[q] == k.ob.tables[q])
    && (forall x | x in ob.header ::
          && x in k.ob.header && ob.header[x].typ == k.ob.header[x].typ
          && ob.header[x].permanent == k.ob.header[x].permanent
          && Outstanding(ob, x) - Own(own, x) == Outstanding(k.ob, x) - Own(k.own, x))
    && (forall x | x in k.ob.header && Outstanding(k.ob, x) > Own(k.own, x) :: x in ob.header)
  }

  lemma {:induction false} ObStepRefs(k: Kernel, ob: Objects, own: map<nat, nat>)
    requires RefsOk(k) && ObStep(k, ob, own)
    ensures RefsOk(k.(ob := ob, own := own))
  {
    hide Scheduled, ObOk;
  }

  lemma {:induction false} ObStepProcesses(k: Kernel, ob: Objects, own: map<nat, nat>)
    requires ProcessesOk(k) && TypeListsOk(k.ob) && ObStep(k, ob, own)
    ensures ProcessesOk(k.(ob := ob, own := own))
  {
    hide CountsOk, TablesOk, NoDup;
    forall p | p in ob.lists[k.ptype] ensures p in k.ob.lists[k.ptype] {
    }
  }

  lemma {:induction false} ObStepWaits(k: Kernel, ob: Objects, own: map<nat, nat>)
    requires WaitsOk(k) && k.ke.current !in k.ke.blocked && ObStep(k, ob, own)
    ensures WaitsOk(k.(ob := ob, own := own))
  {
    hide ObOk, NoDup;
    var k' := k.(ob := ob, own := own);
    assert forall o :: Waiters(k', o) == Waiters(k, o);
    forall o, w | w in Waiters(k', o) ensures o !in k.signaled && WaitsOn(k', o, w) {
      assert w in Waiters(k, o);
    }
  }

  lemma {:induction false} ObStepOk(k: Kernel, ob: Objects, own: map<nat, nat>)
    requires KernelOk(k) && ObStep(k, ob, own)
    ensures KernelOk(k.(ob := ob, own := own))
  {
    hide Scheduled, RefsOk, ProcessesOk, WaitsOk, CountsOk, TablesOk, TypeListsOk, Inv;
    CurrentOk(k);
    ObStepRefs(k, ob, own);
    ObStepProcesses(k, ob, own);
    ObStepWaits(k, ob, own);
  }

  // The object manager in state ob, in which a client has a reference more to o.
  function Given(k: Kernel, ob: Objects, o: nat): Kernel {
    k.(ob := ob, own := k.own[o := Own(k.own, o) + 1])
  }

  // ObReferenceObject, for a client that does not ask for a type.
  function TakeRef(k: Kernel, o: nat): Kernel
    requires o in k.ob.header
  {
    Given(k, Reference(k.ob, o, None).0, o)
  }

  lemma {:induction false} TakeRefOk(k: Kernel, o: nat)
    requires KernelOk(k) && o in k.ob.header
    ensures KernelOk(TakeRef(k, o))
  {
    hide ObStep, RefsOk, ProcessesOk, WaitsOk, ObOk, Inv;
    TakeRefStep(k, o);
    ObStepOk(k, TakeRef(k, o).ob, TakeRef(k, o).own);
  }

  lemma {:induction false} TakeRefStep(k: Kernel, o: nat)
    requires ObOk(k.ob) && o in k.ob.header
    ensures ObStep(k, TakeRef(k, o).ob, TakeRef(k, o).own)
  {
    hide CountsOk, TypeListsOk, TablesOk;
    AddReferenceOk(k.ob, o);
  }

  // ObDereferenceObject, for a client.
  function DropRef(k: Kernel, o: nat): Outcome<Kernel>
    requires o in k.ob.header && Own(k.own, o) > 0
  {
    match Dereference(k.ob, o)
    case Halts => Halts
    case Continues(ob) => Continues(k.(ob := ob, own := k.own[o := Own(k.own, o) - 1]))
  }

  lemma {:induction false} DropRefOk(k: Kernel, o: nat)
    requires KernelOk(k) && o in k.ob.header && Own(k.own, o) > 0
    ensures DropRef(k, o).Continues? && KernelOk(DropRef(k, o).value)
    ensures DropRef(k, o).value.ob.header ==
            if k.ob.header[o].pointers > 1 || k.ob.header[o].permanent
            then k.ob.header[o := k.ob.header[o].(pointers := k.ob.header[o].pointers - 1)]
            else k.ob.header - {o}
    ensures DropRef(k, o).value == k.(ob := DropRef(k, o).value.ob, own := k.own[o := Own(k.own, o) - 1])
    ensures DropRef(k, o).value.ob.tables == k.ob.tables
    ensures var e := k.ob.header[o];
            if e.pointers > 1 || e.permanent then DropRef(k, o).value.ob.lists == k.ob.lists
            else e.typ.Some? && e.typ.value in k.ob.lists
                 && DropRef(k, o).value.ob.lists == k.ob.lists[e.typ.value := Remove(k.ob.lists[e.typ.value], o)]
  {
    hide ObStep, RefsOk, ProcessesOk, WaitsOk, ObOk, Inv, Scheduled;
    OwnCounts(k, o);
    DereferenceOk(k.ob, o);
    DropRefStep(k, o);
    ObStepOk(k, DropRef(k, o).value.ob, DropRef(k, o).value.own);
  }

  lemma {:induction false} DropRefStep(k: Kernel, o: nat)
    requires ObOk(k.ob) && o in k.ob.header && Outstanding(k.ob, o) >= Own(k.own, o) > 0
    ensures DropRef(k, o).Continues? && ObStep(k, DropRef(k, o).value.ob, DropRef(k, o).value.own)
  {
    hide CountsOk, TypeListsOk, TablesOk;
    DereferenceOk(k.ob, o);
  }

  lemma {:induction false} OwnCounts(k: Kernel, o: nat)
    requires KernelOk(k) && o in k.ob.header
    ensures Outstanding(k.ob, o) == Own(k.own, o) + if Scheduled(k.ke, o) then 1 else 0
    ensures k.ob.header[o].pointers == k.ob.header[o].handles + Own(k.own, o) + if Scheduled(k.ke, o) then 1 else 0
  {
  }

  // ObOpenObjectByPointer
  function OpenObject(k: Kernel, o: nat, inherit: bool, typ: Option<nat>): (Kernel, Status, nat)
    requires k.ke.current in k.ob.tables && o in k.ob.header
  {
    var (ob, status, h) := Open(k.ob, k.ke.current, o, inherit, typ);
    (k.(ob := ob), status, h)
  }

  lemma {:induction false} OpenObjectOk(k: Kernel, o: nat, inherit: bool, typ: Option<nat>)
    requires KernelOk(k) && o in k.ob.header
    ensures k.ke.current in k.ob.tables
    ensures var (t, status, h) := OpenObject(k, o, inherit, typ);
            && KernelOk(t)
            && (status == Success <==>
                  && TypeFits(k.ob, o, typ)
                  && exists i :: 0 <= i < MAX_HANDLE_COUNT && k.ob.tables[k.ke.current][i] == Empty)
  {
    hide ObStep, RefsOk, ProcessesOk, WaitsOk, ObOk, Inv, Scheduled;
    CurrentOk(k);
    OpenStep(k, o, inherit, typ);
    ObStepOk(k, OpenObject(k, o, inherit, typ).0.ob, k.own);
  }

  lemma {:induction false} OpenStep(k: Kernel, o: nat, inherit: bool, typ: Option<nat>)
    requires ObOk(k.ob) && k.ke.current in k.ob.tables && o in k.ob.header
    ensures ObStep(k, OpenObject(k, o, inherit, typ).0.ob, k.own)
  {
    hide CountsOk, TypeListsOk, TablesOk, AddHandle, ObStep;
    var (t, status, h) := OpenObject(k, o, inherit, typ);
    if status == Success {
      AddHandleStep(k, h, o, inherit);
    } else {
      SameStep(k);
    }
  }

  lemma {:induction false} AddHandleStep(k: Kernel, i: nat, o: nat, inherit: bool)
    requires ObOk(k.ob) && k.ke.current in k.ob.tables && o in k.ob.header
    requires i < |k.ob.tables[k.ke.current]| && k.ob.tables[k.ke.current][i] == Empty
    ensures ObStep(k, AddHandle(k.ob, k.ke.current, i, o, inherit), k.own)
  {
    hide CountsOk, TypeListsOk, TablesOk;
    AddHandleOk(k.ob, k.ke.current, i, o, inherit);
  }

  lemma {:induction false} SameStep(k: Kernel)
    requires ObOk(k.ob)
    ensures ObStep(k, k.ob, k.own)
  {
    hide CountsOk, TypeListsOk, TablesOk;
  }

  // ObCloseHandle
  ghost function CloseHandle(k: Kernel, h: nat): Outcome<(Kernel, Status)>
    requires k.ke.current in k.ob.tables && TablesOk(k.ob)
  {
    match Close(k.ob, k.ke.current, h)
    case Halts => Halts
    case Continues((ob, status)) => Continues((k.(ob := ob), status))
  }

  lemma {:induction false} CloseHandleOk(k: Kernel, h: nat)
    requires KernelOk(k)
    ensures k.ke.current in k.ob.tables
    ensures CloseHandle(k, h).Continues? && KernelOk(CloseHandle(k, h).value.0)
  {
    hide Scheduled, CountsOk, TypeListsOk, TablesOk, Close;
    CurrentOk(k);
    CloseOk(k.ob, k.ke.current, h);
    ObStepOk(k, CloseHandle(k, h).value.0.ob, k.own);
  }

  // ---------------------------------------------------------------------------
  // Steps of the scheduler
  // ---------------------------------------------------------------------------

  // A step of the scheduler that leaves everybody scheduled and the waiters blocked.
  ghost predicate KeStep(k: Kernel, t: Sched<nat>) {
    && Inv(t) && k.ke.pcb.Keys <= t.pcb.Keys
    && (forall p :: Scheduled(t, p) <==> Scheduled(k.ke, p))
    && (forall o, w | w in Waiters(k, o) :: w in t.blocked)
  }

  lemma {:induction false} KeStepOk(k: Kernel, t: Sched<nat>)
    requires KernelOk(k) && KeStep(k, t)
    ensures KernelOk(k.(ke := t))
  {
    hide Scheduled, ObOk, NoDup, Inv;
    var k' := k.(ke := t);
    assert forall o :: Waiters(k', o) == Waiters(k, o);
    forall o, w | w in Waiters(k', o) ensures o !in k.signaled && WaitsOn(k', o, w) {
      assert w in Waiters(k, o);
    }
  }

  ghost predicate IsWaiter(k: Kernel, p: nat) {
    exists o :: p in Waiters(k, o)
  }

  lemma {:induction false} BlockStep(k: Kernel)
    requires KernelOk(k) && Block(k.ke).Continues?
    ensures KernelOk(k.(ke := Block(k.ke).value))
  {
    hide Scheduled, ObOk, RefsOk, ProcessesOk, NoDup, Block;
    BlockOk(k.ke);
    WaitersBlocked(k);
    KeStepOk(k, Block(k.ke).value);
  }

  lemma {:induction false} SuspendStep(k: Kernel, ms: nat)
    requires KernelOk(k) && Suspend(k.ke, ms).Continues?
    ensures KernelOk(k.(ke := Suspend(k.ke, ms).value))
  {
    hide Scheduled, ObOk, RefsOk, ProcessesOk, NoDup, Suspend;
    SuspendOk(k.ke, ms);
    WaitersBlocked(k);
    KeStepOk(k, Suspend(k.ke, ms).value);
  }

  lemma {:induction false} ResumeStep(k: Kernel, p: nat)
    requires KernelOk(k) && (p in k.ke.timer || p in k.ke.blocked) && !IsWaiter(k, p)
    ensures Resume(k.ke, p).Continues?
    ensures KernelOk(k.(ke := Resume(k.ke, p).value))
  {
    hide Scheduled, ObOk, RefsOk, ProcessesOk, Resume;
    ResumeOk(k.ke, p);
    WaitersBlocked(k);
    RemoveMembers(k.ke.blocked, p);
    KeStepOk(k, Resume(k.ke, p).value);
  }

  lemma {:induction false} ChangeStep(k: Kernel, p: nat, priority: nat)
    requires KernelOk(k) && p in k.ke.pcb && Scheduled(k.ke, p) && ChangePriority(k.ke, p, priority).Continues?
    ensures KernelOk(k.(ke := ChangePriority(k.ke, p, priority).value))
  {
    hide Scheduled, ObOk, RefsOk, ProcessesOk, NoDup, ChangePriority;
    ChangeOk(k.ke, p, priority);
    WaitersBlocked(k);
    KeStepOk(k, ChangePriority(k.ke, p, priority).value);
  }

  lemma {:induction false} TimerStep(k: Kernel)
    requires KernelOk(k)
    ensures HandleTimer(k.ke).Continues? && KernelOk(k.(ke := HandleTimer(k.ke).value))
  {
    hide Scheduled, ObOk, RefsOk, ProcessesOk, NoDup, HandleTimer;
    HandleTimerOk(k.ke);
    WaitersBlocked(k);
    KeStepOk(k, HandleTimer(k.ke).value);
  }

  lemma {:induction false} WaitersBlocked(k: Kernel)
    requires WaitsOk(k)
    ensures forall o, w | w in Waiters(k, o) :: w in k.ke.blocked && o !in k.signaled
  {
    forall o, w | w in Waiters(k, o) ensures w in k.ke.blocked && o !in k.signaled {
      assert WaitsOn(k, o, w);
    }
  }

  // ---------------------------------------------------------------------------
  // Waiting and signaling
  // ---------------------------------------------------------------------------

  // Resuming the processes of a wait queue, from its head.
  function ResumeAll(s: Sched<nat>, q: seq<nat>): Outcome<Sched<nat>>
    requires Core(s)
    decreases |q|
  {
    if q == [] then Continues(s)
    else if q[0] !in s.timer && q[0] !in s.blocked then Halts
    else
      ResumeOk(s, q[0]);
      ResumeAll(Resume(s, q[0]).value, q[1..])
  }

  // Each blocked process of the queue is resumed once, although every resumption
  // may preempt the running process, and nothing else happens to anybody.
  lemma {:induction false} ResumeAllOk(s: Sched<nat>, q: seq<nat>)
    requires Inv(s) && NoDup(q) && forall p :: p in q ==> p in s.blocked
    ensures ResumeAll(s, q).Continues?
    ensures var t := ResumeAll(s, q).value;
            && Inv(t) && SameClocks(s, t) && t.timer == s.timer
            && (NoInversion(s) ==> NoInversion(t))
            && (forall p :: Scheduled(t, p) <==> Scheduled(s, p))
            && (forall p :: p in t.blocked <==> p in s.blocked && p !in q)
    decreases |q|
  {
    hide Resume, Scheduled, NoInversion;
    if q != [] {
      ResumeOk(s, q[0]);
      var t := Resume(s, q[0]).value;
      RemoveMembers(s.blocked, q[0]);
      assert q[0] !in s.timer;
      ResumeAllOk(t, q[1..]);
      assert forall p :: p in q <==> p == q[0] || p in q[1..];
    }
  }

  // Waiters that do not outrank the current process go behind the others of their
  // ready queues, in the order of the wait queue, and the current process runs on.
  lemma {:induction false} ResumeAllSpares(s: Sched<nat>, q: seq<nat>)
    requires Inv(s) && NoDup(q) && forall p :: p in q ==> p in s.blocked
    requires forall p | p in q :: p in s.pcb && s.pcb[p].priority <= s.pcb[s.current].priority
    ensures ResumeAll(s, q).Continues?
    ensures var t := ResumeAll(s, q).value;
            && SameCurrent(s, t) && t.pcb[t.current] == s.pcb[s.current]
            && |t.ready| == |s.ready|
            && forall k :: 0 <= k < |s.ready| ==> t.ready[k] == s.ready[k] + AtLevel(s.pcb, q, k)
    decreases |q|
  {
    hide Resume, Scheduled, NoInversion, ListsOk, AtLevel, Remove, NoDup, Behind;
    Waiting(s);
    if q != [] {
      ResumeOk(s, q[0]);
      ResumeSpares(s, q[0]);
      var t := Resume(s, q[0]).value;
      StillBlocked(s, t, q);
      ResumeAllSpares(t, q[1..]);
      assert q == [q[0]] + q[1..];
      BehindAll(s.pcb, t.pcb, q[0], q[1..], s.ready, t.ready, ResumeAll(t, q[1..]).value.ready);
    } else {
      assert forall k :: AtLevel(s.pcb, q, k) == [];
    }
  }

  lemma {:induction false} StillBlocked(s: Sched<nat>, t: Sched<nat>, q: seq<nat>)
    requires Inv(s) && NoDup(q) && q != [] && t.blocked == Remove(s.blocked, q[0])
    requires forall p :: p in q ==> p in s.blocked
    ensures NoDup(q[1..]) && forall p :: p in q[1..] ==> p in q && p in t.blocked
  {
    RemoveMembers(s.blocked, q[0]);
  }

  // Exactly when resuming a queue reaches KeBugCheck: somebody on it does not wait.
  lemma {:induction false} ResumeAllHalts(s: Sched<nat>, q: seq<nat>)
    requires Core(s) && NoDup(q)
    ensures ResumeAll(s, q).Halts? <==> exists p :: p in q && p !in s.timer && p !in s.blocked
    decreases |q|
  {
    hide Resume, Scheduled, NoInversion;
    if q != [] && (q[0] in s.timer || q[0] in s.blocked) {
      ResumeOk(s, q[0]);
      var t := Resume(s, q[0]).value;
      RemoveMembers(s.blocked, q[0]);
      RemoveMembers(s.timer, q[0]);
      ResumeAllHalts(t, q[1..]);
      assert forall p :: p in q <==> p == q[0] || p in q[1..];
      assert forall p :: p in q[1..] ==> p != q[0];
    }
  }

  // ObSignalObject
  function Signal(k: Kernel, o: nat): Outcome<Kernel>
    requires Core(k.ke)
  {
    match ResumeAll(k.ke, Waiters(k, o))
    case Halts => Halts
    case Continues(ke) => Continues(k.(ke := ke, signaled := k.signaled + {o}, waiters := k.waiters[o := []]))
  }

  // A signal never halts and wakes every waiter: each ends up running or ready.
  lemma {:induction false} SignalOk(k: Kernel, o: nat)
    requires KernelOk(k)
    ensures Signal(k, o).Continues? && KernelOk(Signal(k, o).value)
    ensures var t := Signal(k, o).value;
            && o in t.signaled && Waiters(t, o) == [] && t.ob == k.ob && t.own == k.own
            && t.ptype == k.ptype
            && (forall x :: x != o ==> Waiters(t, x) == Waiters(k, x))
            && (forall p :: Scheduled(t.ke, p) <==> Scheduled(k.ke, p))
            && (forall p :: p in t.ke.blocked <==> p in k.ke.blocked && p !in Waiters(k, o))
            && t.ke.timer == k.ke.timer
            && (forall w | w in Waiters(k, o) :: Awake(t.ke, w))
  {
    hide Scheduled, ObOk, RefsOk, ProcessesOk, NoDup, ResumeAll;
    WaitersBlocked(k);
    ResumeAllOk(k.ke, Waiters(k, o));
    var t := Signal(k, o).value;
    ClearedOk(k, o);
    KeStepOk(k.(signaled := k.signaled + {o}, waiters := k.waiters[o := []]), t.ke);
    forall w | w in Waiters(k, o) ensures Awake(t.ke, w) {
      WaiterScheduled(k, o, w);
      ScheduledIsAwake(t.ke, w);
    }
  }

  // The waiters become ready in the order of the wait queue: the last to have
  // started to wait comes first.
  lemma {:induction false} SignalSpares(k: Kernel, o: nat)
    requires KernelOk(k)
    requires forall w | w in Waiters(k, o) :: w in k.ke.pcb && k.ke.pcb[w].priority <= k.ke.pcb[k.ke.current].priority
    ensures Signal(k, o).Continues?
    ensures var t := Signal(k, o).value.ke;
            && SameCurrent(k.ke, t) && t.pcb[t.current] == k.ke.pcb[k.ke.current]
            && |t.ready| == |k.ke.ready|
            && (forall w | w in Waiters(k, o) :: w in k.ke.pcb)
            && forall j :: 0 <= j < |t.ready| ==> t.ready[j] == k.ke.ready[j] + AtLevel(k.ke.pcb, Waiters(k, o), j)
  {
    hide ObOk, RefsOk, ProcessesOk, NoDup, ResumeAll, ListsOk, AtLevel;
    WaitersBlocked(k);
    ResumeAllSpares(k.ke, Waiters(k, o));
  }

  lemma {:induction false} SignalHalts(k: Kernel, o: nat)
    requires Core(k.ke) && NoDup(Waiters(k, o))
    ensures Signal(k, o).Halts? <==> exists p :: p in Waiters(k, o) && p !in k.ke.timer && p !in k.ke.blocked
  {
    hide ResumeAll;
    ResumeAllHalts(k.ke, Waiters(k, o));
  }

  // A waiter that is stopped stays on the wait queue, and the signal that comes
  // later reaches the bugcheck of KeResumeProcess.
  lemma {:induction false} StoppedWaiterBreaksSignal(k: Kernel, o: nat, w: nat)
    requires KernelOk(k) && w in Waiters(k, o)
    ensures w in k.ke.pcb && Scheduled(k.ke, w) && Stop(k.ke, w).Continues? && Core(Stop(k.ke, w).value)
    ensures Signal(k.(ke := Stop(k.ke, w).value), o).Halts?
  {
    hide ObOk, RefsOk, ProcessesOk, Scheduled, Stop, Signal, ResumeAll;
    WaitersBlocked(k);
    WaiterScheduled(k, o, w);
    KnownProcess(k, w);
    StopOk(k.ke, w);
    var ke := Stop(k.ke, w).value;
    RemoveMembers(k.ke.blocked, w);
    RemoveMembers(k.ke.timer, w);
    assert Waiters(k.(ke := ke), o) == Waiters(k, o);
    SignalHalts(k.(ke := ke), o);
  }

  lemma {:induction false} KnownProcess(k: Kernel, p: nat)
    requires KernelOk(k) && Scheduled(k.ke, p)
    ensures p in k.ke.pcb
  {
    hide Scheduled;
    ScheduledOk(k, p);
  }

  // The object is marked and its queue taken away.
  lemma {:induction false} ClearedOk(k: Kernel, o: nat)
    requires KernelOk(k)
    ensures KernelOk(k.(signaled := k.signaled + {o}, waiters := k.waiters[o := []]))
    ensures forall x, w | w in Waiters(k, x) && x != o :: w !in Waiters(k, o)
  {
    hide Scheduled, ObOk;
    var t := k.(signaled := k.signaled + {o}, waiters := k.waiters[o := []]);
    assert forall x :: Waiters(t, x) == if x == o then [] else Waiters(k, x);
    forall x, w | w in Waiters(t, x) ensures x !in t.signaled && WaitsOn(t, x, w) {
      assert w in Waiters(k, x) && WaitsOn(k, x, w);
    }
  }

  // The current process on the wait queue of an object, and blocked.
  function Enlist(k: Kernel, o: nat): Outcome<Kernel>
    requires Core(k.ke)
  {
    match Block(k.ke)
    case Halts => Halts
    case Continues(ke) => Continues(k.(ke := ke, waiters := k.waiters[o := [k.ke.current] + Waiters(k, o)]))
  }

  lemma {:induction false} EnlistWaits(k: Kernel, t: Kernel, o: nat, p: nat, h: nat)
    requires WaitsOk(k) && p !in k.ke.blocked && p in k.ob.tables && h < |k.ob.tables[p]| && Names(k.ob.tables[p][h], o)
    requires o !in k.signaled && t.ob == k.ob && t.signaled == k.signaled
    requires t.ke.blocked == [p] + k.ke.blocked && t.waiters == k.waiters[o := [p] + Waiters(k, o)]
    ensures WaitsOk(t)
  {
    hide Waiters, WaitsOn, NoDup;
    WaitersBlocked(k);
    EnlistQueues(k, t, o, p);
    assert WaitsOn(t, o, p) by {
      StillWaits(k, t, o, p, p, h);
    }
    forall x, w | w in Waiters(t, x) ensures x !in t.signaled && WaitsOn(t, x, w) {
      if w in Waiters(k, x) {
        StillWaits(k, t, x, w, p, h);
      }
    }
  }

  lemma {:induction false} EnlistQueues(k: Kernel, t: Kernel, o: nat, p: nat)
    requires p !in Waiters(k, o) && NoDup(Waiters(k, o)) && t.waiters == k.waiters[o := [p] + Waiters(k, o)]
    ensures NoDup(Waiters(t, o))
    ensures forall w :: w in Waiters(t, o) <==> w == p || w in Waiters(k, o)
    ensures forall x :: x != o ==> Waiters(t, x) == Waiters(k, x)
  {
    InsertMembers(Waiters(k, o), 0, p);
    assert InsertAt(Waiters(k, o), 0, p) == Waiters(t, o);
  }

  lemma {:induction false} StillWaits(k: Kernel, t: Kernel, x: nat, w: nat, p: nat, h: nat)
    requires t.ob == k.ob && t.ke.blocked == [p] + k.ke.blocked
    requires || WaitsOn(k, x, w)
             || (w == p && p in k.ob.tables && h < |k.ob.tables[p]| && Names(k.ob.tables[p][h], x))
    ensures WaitsOn(t, x, w)
  {
    assert w == p || w in k.ke.blocked;
  }

  lemma {:induction false} EnlistOk(k: Kernel, o: nat, h: nat)
    requires KernelOk(k) && k.ke.current in k.ob.tables && h < |k.ob.tables[k.ke.current]|
    requires Names(k.ob.tables[k.ke.current][h], o) && o !in k.signaled && Enlist(k, o).Continues?
    ensures KernelOk(Enlist(k, o).value) && Enlist(k, o).value.ob == k.ob && Enlist(k, o).value.own == k.own
  {
    hide Scheduled, ObOk, RefsOk, ProcessesOk, WaitsOk, Block;
    BlockStep(k);
    BlockOk(k.ke);
    CurrentOk(k);
    var t := Enlist(k, o).value;
    SameParts(k.(ke := Block(k.ke).value), t);
    EnlistWaits(k, t, o, k.ke.current, h);
  }

  lemma {:induction false} SameParts(k: Kernel, t: Kernel)
    requires RefsOk(k) && ProcessesOk(k) && t == k.(waiters := t.waiters)
    ensures RefsOk(t) && ProcessesOk(t)
  {
  }

  // ObWaitForSingleObject; memory tells whether there is some for the queue entry.
  // The reference is given up as soon as the process is on the wait queue, before it
  // is resumed.
  function Wait(k: Kernel, h: nat, memory: bool): Outcome<(Kernel, Status)>
    requires Core(k.ke) && k.ke.current in k.ob.tables && TablesOk(k.ob)
  {
    var r := ReferenceByHandle(k.ob, k.ke.current, h, None);
    if r.1 != Success then Continues((k.(ob := r.0), r.1))
    else WaitFor(Given(k, r.0, r.2.value), r.2.value, memory)
  }

  function WaitFor(k: Kernel, o: nat, memory: bool): Outcome<(Kernel, Status)>
    requires Core(k.ke) && o in k.ob.header && Own(k.own, o) > 0
  {
    if o in k.signaled || !memory then
      match DropRef(k, o)
      case Halts => Halts
      case Continues(t) => Continues((t, if o in k.signaled then Success else NoMemory))
    else match Enlist(k, o)
      case Halts => Halts
      case Continues(t) =>
        match DropRef(t, o)
        case Halts => Halts
        case Continues(u) => Continues((u, Success))
  }

  // What waiting for object o comes to. Waiting for a signaled object, or without
  // memory for the entry, changes nothing at all. Otherwise the process is put at
  // the head of the wait queue and blocked, and no reference count changes; this
  // halts only when no process is ready to run instead.
  ghost predicate WaitsFor(k: Kernel, o: nat, memory: bool, r: Outcome<(Kernel, Status)>)
    requires Core(k.ke)
  {
    if o in k.signaled || !memory then
      r == Continues((k.(own := k.own[o := Own(k.own, o)]), if o in k.signaled then Success else NoMemory))
    else
      && (r.Halts? <==> NothingReady(k.ke))
      && (r.Continues? ==>
            var t := r.value.0;
            && t.ob == k.ob && t.signaled == k.signaled && r.value.1 == Success
            && t.waiters == k.waiters[o := [k.ke.current] + Waiters(k, o)]
            && Block(k.ke) == Continues(t.ke))
  }

  lemma {:induction false} WaitOk(k: Kernel, h: nat, memory: bool)
    requires KernelOk(k)
    ensures k.ke.current in k.ob.tables && TablesOk(k.ob)
    ensures Wait(k, h, memory).Continues? ==> KernelOk(Wait(k, h, memory).value.0)
    ensures var table := k.ob.tables[k.ke.current];
            if h >= MAX_HANDLE_COUNT || table[h].Empty? then Wait(k, h, memory) == Continues((k, InvalidHandle))
            else WaitsFor(k, table[h].target, memory, Wait(k, h, memory))
  {
    hide Scheduled, CountsOk, TypeListsOk, RefsOk, ProcessesOk, WaitsOk, Block, Enlist, DropRef, WaitsFor, WaitFor;
    CurrentOk(k);
    if h < MAX_HANDLE_COUNT && k.ob.tables[k.ke.current][h].Holds? {
      WaitForOk(k, h, memory);
    }
  }

  lemma {:induction false} WaitForOk(k: Kernel, h: nat, memory: bool)
    requires KernelOk(k) && k.ke.current in k.ob.tables && h < |k.ob.tables[k.ke.current]|
    requires k.ob.tables[k.ke.current][h].Holds?
    ensures k.ob.tables[k.ke.current][h].target in k.ob.header
    ensures var o := k.ob.tables[k.ke.current][h].target; var r := WaitFor(TakeRef(k, o), o, memory);
            WaitsFor(k, o, memory, r) && (r.Continues? ==> KernelOk(r.value.0))
  {
    hide Scheduled, CountsOk, TypeListsOk, RefsOk, ProcessesOk, WaitsOk, Block, DropRef, NothingReady;
    var o := k.ob.tables[k.ke.current][h].target;
    TakeRefOk(k, o);
    var k1 := TakeRef(k, o);
    BlockOk(k1.ke);
    if o in k.signaled || !memory {
      RefUndone(k, k1, o);
      DropRefOk(k1, o);
    } else if Enlist(k1, o).Continues? {
      EnlistOk(k1, o, h);
      RefUndone(k, Enlist(k1, o).value, o);
      DropRefOk(Enlist(k1, o).value, o);
    }
  }

  // Taking a reference and dropping it again undoes it.
  lemma {:induction false} RefUndone(k: Kernel, t: Kernel, o: nat)
    requires KernelOk(k) && o in k.ob.header && t.ob == AddReference(k.ob, o) && t.own == k.own[o := Own(k.own, o) + 1]
    requires exists p, i :: p in k.ob.tables && 0 <= i < |k.ob.tables[p]| && Names(k.ob.tables[p][i], o)
    ensures DropRef(t, o) == Continues(t.(ob := k.ob, own := k.own[o := Own(k.own, o)]))
  {
    hide Scheduled, Slots, TypeListsOk, TablesOk, Inv, RefsOk, ProcessesOk, WaitsOk;
    var p, i :| p in k.ob.tables && 0 <= i < |k.ob.tables[p]| && Names(k.ob.tables[p][i], o);
    SomeSlotNames(k.ob, p, i, o);
    assert k.ob.header[o].handles > 0;
    assert t.ob.header[o := k.ob.header[o]] == k.ob.header;
    assert t.own[o := Own(k.own, o)] == k.own[o := Own(k.own, o)];
  }

  // ---------------------------------------------------------------------------
  // Creating and killing
  // ---------------------------------------------------------------------------

  // A number that was never used for an object.
  ghost predicate Unused(k: Kernel, o: nat) {
    && o !in k.ob.header && o !in k.ob.lists && o !in k.ob.tables
    && o !in k.ke.pcb && o !in k.signaled && Waiters(k, o) == []
  }

  // ObCreateObject by a client, for a type other than that of processes.
  function NewObject(k: Kernel, o: nat, permanent: bool, typ: nat): Kernel
    requires typ in k.ob.lists
  {
    k.(ob := CreateObject(k.ob, o, permanent, typ), own := k.own[o := 1])
  }

  lemma {:induction false} NewObjectOk(k: Kernel, o: nat, permanent: bool, typ: nat)
    requires KernelOk(k) && Unused(k, o) && typ in k.ob.lists && typ != k.ptype
    ensures KernelOk(NewObject(k, o, permanent, typ))
  {
    hide Scheduled, CountsOk, TablesOk, WaitsOn, Inv, TypeListsOk;
    CreateObjectOk(k.ob, o, permanent, typ);
    SameWaits(k, NewObject(k, o, permanent, typ));
  }

  // Waiting concerns the tables, the blocked list and the queues only.
  lemma {:induction false} SameWaits(k: Kernel, t: Kernel)
    requires WaitsOk(k) && t.waiters == k.waiters && t.signaled == k.signaled && t.ke.blocked == k.ke.blocked
    requires forall q | q in k.ob.tables :: q in t.ob.tables && t.ob.tables[q] == k.ob.tables[q]
    ensures WaitsOk(t)
  {
    assert forall o :: Waiters(t, o) == Waiters(k, o);
    forall o, w | w in Waiters(t, o) ensures o !in t.signaled && WaitsOn(t, o, w) {
      assert w in Waiters(k, o) && WaitsOn(k, o, w);
    }
  }

  // The PIDs of all process objects, in the order of their list.
  function PidsOf(k: Kernel): seq<nat>
    requires k.ptype in k.ob.lists && forall p | p in k.ob.lists[k.ptype] :: p in k.pid
  {
    var l := k.ob.lists[k.ptype];
    seq(|l|, i requires 0 <= i < |l| => k.pid[l[i]])
  }

  // The first half of PsCreateProcess: an object with a control block, a PID and
  // the handles inherited from the current process. While its PID is chosen, the
  // new process is on the list with PID 0.
  ghost function NewProcess(k: Kernel, o: nat, priority: nat): Kernel
    requires KernelOk(k) && Unused(k, o)
  {
    CurrentOk(k);
    CreateObjectOk(k.ob, o, false, k.ptype);
    k.(ob := InitProcess(CreateObject(k.ob, o, false, k.ptype), Some(k.ke.current), o),
       ke := Create(k.ke, o, priority),
       own := k.own[o := 1],
       pid := k.pid[o := LeastUnused([0] + PidsOf(k), 1)])
  }

  lemma {:induction false} CreateStep(s: Sched<nat>, o: nat, priority: nat)
    requires Inv(s) && o !in s.pcb
    ensures Inv(Create(s, o, priority))
    ensures forall q :: Scheduled(Create(s, o, priority), q) <==> Scheduled(s, q)
  {
    var t := Create(s, o, priority);
    assert t.ready == s.ready && t.blocked == s.blocked && t.timer == s.timer;
    assert forall q :: Listed(t, q) <==> Listed(s, q);
  }

  lemma {:induction false} NewPidDiffers(k: Kernel, p: nat)
    requires k.ptype in k.ob.lists && forall p | p in k.ob.lists[k.ptype] :: p in k.pid
    requires p in k.ob.lists[k.ptype]
    ensures k.pid[p] != LeastUnused([0] + PidsOf(k), 1)
  {
    var l := k.ob.lists[k.ptype];
    var i :| 0 <= i < |l| && l[i] == p;
    assert PidsOf(k)[i] == k.pid[p];
    assert ([0] + PidsOf(k))[i + 1] == k.pid[p];
  }

  lemma {:induction false} NewPidIsLeast(k: Kernel)
    requires k.ptype in k.ob.lists && forall p | p in k.ob.lists[k.ptype] :: p in k.pid
    ensures var n := LeastUnused([0] + PidsOf(k), 1);
            n >= 1 && !PidTaken(k, n) && forall m | 1 <= m < n :: PidTaken(k, m)
  {
    var l, n := k.ob.lists[k.ptype], LeastUnused([0] + PidsOf(k), 1);
    forall p | p in l ensures k.pid[p] != n {
      NewPidDiffers(k, p);
    }
    forall m | 1 <= m < n ensures PidTaken(k, m) {
      assert m in [0] + PidsOf(k) && m != 0;
      var i :| 0 <= i < |l| && PidsOf(k)[i] == m;
      assert l[i] in l && k.pid[l[i]] == m;
    }
  }

  // What the new process is made of.
  lemma {:induction false} NewProcessParts(k: Kernel, o: nat, priority: nat)
    requires KernelOk(k) && Unused(k, o)
    ensures k.ke.current in k.ob.tables
    ensures var t := NewProcess(k, o, priority); var ob1 := CreateObject(k.ob, o, false, k.ptype);
            && ObOk(t.ob) && SameClaims(ob1, t.ob) && t.ob.tables.Keys == k.ob.tables.Keys + {o}
            && Inv(t.ke) && (forall q :: Scheduled(t.ke, q) <==> Scheduled(k.ke, q))
            && (forall q | q in k.ob.tables :: t.ob.tables[q] == k.ob.tables[q])
            && (forall j :: 0 <= j < MAX_HANDLE_COUNT ==>
                  t.ob.tables[o][j] == if Inheritable(k.ob.tables[k.ke.current][j])
                                       then k.ob.tables[k.ke.current][j] else Empty)
  {
    hide CountsOk, TypeListsOk, WaitsOk, Scheduled, Inv, SameClaims;
    CurrentOk(k);
    CreateObjectOk(k.ob, o, false, k.ptype);
    InitProcessOk(CreateObject(k.ob, o, false, k.ptype), Some(k.ke.current), o);
    CreateStep(k.ke, o, priority);
  }

  lemma {:induction false} NewProcessPids(k: Kernel, o: nat, priority: nat)
    requires KernelOk(k) && Unused(k, o)
    ensures ProcessesOk(NewProcess(k, o, priority))
  {
    hide CountsOk, TypeListsOk, TablesOk, RefsOk, WaitsOk, Inv, InitProcess, LeastUnused, PidsOf;
    NewProcessParts(k, o, priority);
    var t := NewProcess(k, o, priority);
    forall p | p in k.ob.lists[k.ptype] ensures k.pid[p] != t.pid[o] {
      NewPidDiffers(k, p);
    }
  }

  lemma {:induction false} NewProcessRefs(k: Kernel, o: nat, priority: nat)
    requires KernelOk(k) && Unused(k, o)
    ensures var t := NewProcess(k, o, priority);
            RefsOk(t) && o in t.ob.header && t.ob.header[o].typ == Some(k.ptype) && !t.ob.header[o].permanent
  {
    hide CountsOk, TypeListsOk, TablesOk, WaitsOk, Scheduled, Inv, InitProcess, LeastUnused, PidsOf, ProcessesOk;
    NewProcessParts(k, o, priority);
  }

  lemma {:induction false} NewProcessOk(k: Kernel, o: nat, priority: nat)
    requires KernelOk(k) && Unused(k, o)
    ensures k.ke.current in k.ob.tables
    ensures var t := NewProcess(k, o, priority);
            && KernelOk(t) && !Scheduled(t.ke, o) && o in t.ob.lists[k.ptype] && Own(t.own, o) == 1
            && o in t.ob.header && t.ob.header[o].typ == Some(k.ptype) && !t.ob.header[o].permanent
  {
    hide CountsOk, TypeListsOk, TablesOk, WaitsOk, Scheduled, Inv, InitProcess, LeastUnused, PidsOf, ProcessesOk;
    NewProcessParts(k, o, priority);
    NewProcessPids(k, o, priority);
    NewProcessRefs(k, o, priority);
    SameWaits(k, NewProcess(k, o, priority));
  }

  // Nothing in the table of the current process is for its children.
  ghost predicate NothingInheritable(k: Kernel)
    requires k.ke.current in k.ob.tables && TablesOk(k.ob)
  {
    forall j :: 0 <= j < MAX_HANDLE_COUNT ==> !Inheritable(k.ob.tables[k.ke.current][j])
  }

  // The counters after the first half of PsCreateProcess.
  lemma {:induction false} NewProcessHeader(k: Kernel, o: nat, priority: nat)
    requires KernelOk(k) && Unused(k, o)
    ensures k.ke.current in k.ob.tables && k.ptype in k.ob.lists
    ensures var t := NewProcess(k, o, priority);
            && o in t.ob.header && t.ob.header[o] == Entry(0, 1, false, Some(k.ptype))
            && t.ob.lists == k.ob.lists[k.ptype := [o] + k.ob.lists[k.ptype]]
            && (t.ob.header - {o} == k.ob.header <==> NothingInheritable(k))
  {
    hide CountsOk, TypeListsOk, RefsOk, WaitsOk, Scheduled, Inv, Slots;
    CurrentOk(k);
    var cur := k.ke.current;
    CreateObjectOk(k.ob, o, false, k.ptype);
    var ob1 := CreateObject(k.ob, o, false, k.ptype);
    WithTableOk(ob1, o);
    var ob2 := WithTable(ob1, o);
    InheritOk(ob2, cur, o, 0);
    InheritSpares(ob2, cur, o, 0, o);
    assert ob1.header - {o} == k.ob.header;
    if NothingInheritable(k) {
      InheritNothing(ob2, cur, o, 0);
    } else {
      var j :| 0 <= j < MAX_HANDLE_COUNT && Inheritable(k.ob.tables[cur][j]);
      InheritCounts(ob2, cur, o, 0, j);
      var x := k.ob.tables[cur][j].target;
      assert NewProcess(k, o, priority).ob.header[x] != k.ob.header[x];
    }
  }

  // KeStartSchedulingProcess
  function StartProcess(k: Kernel, p: nat): Outcome<Kernel>
    requires p in k.ob.header && p in k.ke.pcb && QueuesOk(k.ke)
  {
    match Start(k.ke, p)
    case Halts => Halts
    case Continues(ke) => Continues(k.(ob := Reference(k.ob, p, None).0, ke := ke))
  }

  // The started state, with a reference for the scheduler.
  lemma {:induction false} StartedRefs(k: Kernel, t: Kernel, p: nat)
    requires RefsOk(k) && ProcessesOk(k) && p in k.ob.header && k.ob.header[p].typ == Some(k.ptype)
    requires t == k.(ob := AddReference(k.ob, p), ke := t.ke) && t.ke.pcb.Keys == k.ke.pcb.Keys
    requires !Scheduled(k.ke, p) && forall q :: Scheduled(t.ke, q) <==> q == p || Scheduled(k.ke, q)
    ensures RefsOk(t) && ProcessesOk(t)
  {
    hide Scheduled;
  }

  lemma {:induction false} StartProcessOk(k: Kernel, p: nat)
    requires KernelOk(k) && p in k.ob.lists[k.ptype] && !Scheduled(k.ke, p)
    ensures p in k.ob.header && p in k.ke.pcb && QueuesOk(k.ke)
    ensures StartProcess(k, p).Halts? <==> k.ke.pcb[p].priority >= LEVELS
    ensures StartProcess(k, p).Continues? ==>
            && KernelOk(StartProcess(k, p).value) && StartProcess(k, p).value.ke.current == k.ke.current
            && QueuedLast(k.ke, StartProcess(k, p).value.ke, p)
            && (forall q :: Scheduled(StartProcess(k, p).value.ke, q) <==> q == p || Scheduled(k.ke, q))
  {
    hide CountsOk, TablesOk, RefsOk, WaitsOk, WaitsOn, Scheduled, Slots, Enqueue, Start, NoDup;
    StartIs(k.ke, p);
    AddReferenceOk(k.ob, p);
    if k.ke.pcb[p].priority < LEVELS {
      var t := StartProcess(k, p).value;
      StartedRefs(k, t, p);
      SameWaits(k, t);
    }
  }

  // p is ready, behind all others of its priority.
  ghost predicate QueuedLast(s: Sched<nat>, t: Sched<nat>, p: nat) {
    && p in s.pcb && s.pcb[p].priority < |s.ready|
    && t == s.(pcb := s.pcb[p := s.pcb[p].(state := Ready)],
               ready := s.ready[s.pcb[p].priority := s.ready[s.pcb[p].priority] + [p]])
  }

  lemma {:induction false} StartIs(s: Sched<nat>, p: nat)
    requires Inv(s) && p in s.pcb && !Scheduled(s, p)
    ensures Start(s, p).Halts? <==> s.pcb[p].priority >= LEVELS
    ensures Start(s, p).Continues? ==>
            var t := Start(s, p).value;
            && Inv(t) && t.blocked == s.blocked && t.pcb.Keys == s.pcb.Keys && t.current == s.current
            && (forall q :: Scheduled(t, q) <==> q == p || Scheduled(s, q))
            && QueuedLast(s, t, p)
  {
    if s.pcb[p].priority < LEVELS {
      StartOk(s, p);
    }
  }

  // Which allocations of PsCreateProcess succeed: not even that of the object, not
  // that of the memory block, or both.
  datatype Memory = NoObject | NoBlock | Enough

  // PsCreateProcess: the state, the status and the handle.
  ghost function CreateProcess(k: Kernel, o: nat, priority: nat, memory: Memory): Outcome<(Kernel, Status, nat)>
    requires KernelOk(k) && Unused(k, o)
  {
    match memory
    case NoObject => Continues((k, InsufficientResources, 0))
    case NoBlock =>
      CurrentOk(k);
      match Dereference(CreateObject(k.ob, o, false, k.ptype), o)
      { case Halts => Halts case Continues(ob) => Continues((k.(ob := ob), NoMemory, 0)) }
    case Enough => CreateWithMemory(k, o, priority)
  }

  ghost function CreateWithMemory(k: Kernel, o: nat, priority: nat): Outcome<(Kernel, Status, nat)>
    requires KernelOk(k) && Unused(k, o)
  {
    NewProcessOk(k, o, priority);
    Publish(NewProcess(k, o, priority), o)
  }

  // A handle for the creator, and the new process gets scheduled.
  ghost function Publish(k: Kernel, o: nat): Outcome<(Kernel, Status, nat)>
    requires KernelOk(k) && o in k.ob.lists[k.ptype] && o in k.ob.header && Own(k.own, o) > 0 && o in k.ke.pcb
  {
    CurrentOk(k);
    var (k2, status, h) := OpenObject(k, o, false, Some(k.ptype));
    if status != Success then
      match DropRef(k, o)
      case Halts => Halts
      case Continues(t) => Continues((t, status, 0))
    else match StartProcess(k2, o)
      case Halts => Halts
      case Continues(k3) =>
        match DropRef(k3, o)
        case Halts => Halts
        case Continues(t) => Continues((t, Success, h))
  }

  ghost predicate TableFull(k: Kernel)
    requires k.ke.current in k.ob.tables && TablesOk(k.ob)
  {
    forall j :: 0 <= j < MAX_HANDLE_COUNT ==> k.ob.tables[k.ke.current][j] != Empty
  }

  // The handle table of a child: what it inherits.
  function Inherited(t: seq<Slot>): seq<Slot> {
    seq(|t|, j requires 0 <= j < |t| => if Inheritable(t[j]) then t[j] else Empty)
  }

  ghost predicate PidTaken(k: Kernel, n: nat) {
    k.ptype in k.ob.lists && exists p :: p in k.ob.lists[k.ptype] && p in k.pid && k.pid[p] == n
  }

  // The PID and the control block of a new process: the least positive PID that no
  // process has, and a zeroed block with the given priority, behind all others that
  // are ready with that priority.
  ghost predicate CreatedProcess(k: Kernel, o: nat, priority: nat, t: Kernel) {
    && o in t.pid && t.pid == k.pid[o := t.pid[o]]
    && t.pid[o] >= 1 && !PidTaken(k, t.pid[o]) && (forall n | 1 <= n < t.pid[o] :: PidTaken(k, n))
    && priority < |k.ke.ready|
    && t.ke == k.ke.(pcb := k.ke.pcb[o := Pcb(Ready, priority, 0, 0, 0)],
                     ready := k.ke.ready[priority := k.ke.ready[priority] + [o]])
  }

  // The references to the objects that were there before; the creator keeps none to
  // the new one.
  ghost predicate CreatedCounts(k: Kernel, o: nat, t: Kernel)
    requires k.ke.current in k.ob.tables
  {
    && (forall x | x in k.ob.header :: x in t.ob.header
          && t.ob.header[x].handles == k.ob.header[x].handles + ToInherit(k.ob.tables[k.ke.current], x, 0)
          && Outstanding(t.ob, x) == Outstanding(k.ob, x))
    && (forall x :: Own(t.own, x) == if x == o then 0 else Own(k.own, x))
  }

  // Creation succeeds unless memory is short or the handle table of the current
  // process is full. It leaves the new process ready, with what it inherits, one
  // handle and two references.
  ghost predicate Created(k: Kernel, o: nat, priority: nat, t: Kernel, h: nat) {
    && k.ke.current in k.ob.tables && CreatedProcess(k, o, priority, t) && CreatedCounts(k, o, t)
    && k.ptype in k.ob.lists && t.ob.lists == k.ob.lists[k.ptype := [o] + k.ob.lists[k.ptype]]
    && o in t.ob.header && t.ob.header[o] == Entry(1, 2, false, Some(k.ptype))
    && t.ob.header.Keys == k.ob.header.Keys + {o}
    && h < MAX_HANDLE_COUNT == |k.ob.tables[k.ke.current]|
    && k.ob.tables[k.ke.current][h] == Empty
    && t.ob.tables == k.ob.tables[o := Inherited(k.ob.tables[k.ke.current])]
                                 [k.ke.current := k.ob.tables[k.ke.current][h := Holds(o, false)]]
    && t.ke.current == k.ke.current && t.signaled == k.signaled && t.waiters == k.waiters && t.ptype == k.ptype
    && (forall q :: Scheduled(t.ke, q) <==> q == o || Scheduled(k.ke, q))
  }

  // Creation that fails on a full handle table frees the object and schedules
  // nothing. But the handles that were inherited stay counted, so that all counters
  // are as before exactly when there is nothing to inherit.
  ghost predicate NotCreated(k: Kernel, o: nat, t: Kernel)
    requires k.ke.current in k.ob.tables && TablesOk(k.ob)
  {
    && o !in t.ob.header && t.ob.header.Keys == k.ob.header.Keys && t.ob.lists == k.ob.lists
    && t.ob.tables == k.ob.tables[o := Inherited(k.ob.tables[k.ke.current])]
    && (forall x | x in k.ob.header :: x in t.ob.header
          && t.ob.header[x].handles == k.ob.header[x].handles + ToInherit(k.ob.tables[k.ke.current], x, 0)
          && Outstanding(t.ob, x) == Outstanding(k.ob, x))
    && (t.ob.header == k.ob.header <==> NothingInheritable(k))
    && t.signaled == k.signaled && t.waiters == k.waiters && t.ptype == k.ptype
  }

  lemma {:induction false} CreateProcessOk(k: Kernel, o: nat, priority: nat, memory: Memory)
    requires KernelOk(k) && Unused(k, o)
    ensures k.ke.current in k.ob.tables && TablesOk(k.ob)
    ensures CreateProcess(k, o, priority, memory).Halts? <==> memory == Enough && !TableFull(k) && priority >= LEVELS
    ensures memory != Enough ==>
            CreateProcess(k, o, priority, memory)
            == Continues((k, if memory == NoObject then InsufficientResources else NoMemory, 0))
    ensures memory == Enough && !TableFull(k) && priority < LEVELS ==>
            var (t, status, h) := CreateProcess(k, o, priority, memory).value;
            KernelOk(t) && status == Success && Created(k, o, priority, t, h)
    ensures memory == Enough && TableFull(k) ==>
            var (t, status, _) := CreateProcess(k, o, priority, memory).value;
            KernelOk(t) && status == HandleLimitReached && NotCreated(k, o, t) && t.ke == Create(k.ke, o, priority)
  {
    hide CountsOk, TypeListsOk, RefsOk, ProcessesOk, WaitsOk, Scheduled, Inv, Slots, NewProcess, DropRef, StartProcess;
    hide CreateWithMemory, Created, NotCreated;
    CurrentOk(k);
    if memory == NoBlock {
      CreateUndone(k, o);
    } else if memory == Enough && TableFull(k) {
      CreateFails(k, o, priority);
    } else if memory == Enough {
      CreateSucceeds(k, o, priority);
    }
  }

  // Creating an object and giving it up at once leaves no trace.
  lemma {:induction false} CreateUndone(k: Kernel, o: nat)
    requires KernelOk(k) && Unused(k, o)
    ensures k.ptype in k.ob.lists
    ensures Dereference(CreateObject(k.ob, o, false, k.ptype), o) == Continues(k.ob)
  {
    hide Inv, WaitsOk, RefsOk;
    var l := k.ob.lists[k.ptype];
    var ob := CreateObject(k.ob, o, false, k.ptype);
    RemoveFirst([o] + l);
    assert ob.lists[k.ptype := l] == k.ob.lists;
    assert ob.header - {o} == k.ob.header;
  }

  // What inheriting does, with the counters of all other objects.
  lemma {:induction false} NewProcessCounts(k: Kernel, o: nat, priority: nat)
    requires KernelOk(k) && Unused(k, o)
    ensures k.ke.current in k.ob.tables && TablesOk(k.ob)
    ensures var t := NewProcess(k, o, priority);
            && t.ob.header.Keys == k.ob.header.Keys + {o}
            && t.ob.tables == k.ob.tables[o := Inherited(k.ob.tables[k.ke.current])]
            && (forall x | x in k.ob.header :: x in t.ob.header
                  && t.ob.header[x].handles == k.ob.header[x].handles + ToInherit(k.ob.tables[k.ke.current], x, 0)
                  && Outstanding(t.ob, x) == Outstanding(k.ob, x))
  {
    hide CountsOk, TypeListsOk, RefsOk, WaitsOk, Scheduled, Inv, Slots;
    CurrentOk(k);
    NewProcessParts(k, o, priority);
    var cur, t := k.ke.current, NewProcess(k, o, priority);
    CreateObjectOk(k.ob, o, false, k.ptype);
    var ob1 := CreateObject(k.ob, o, false, k.ptype);
    WithTableOk(ob1, o);
    forall x | x in k.ob.header
      ensures t.ob.header[x].handles == k.ob.header[x].handles + ToInherit(k.ob.tables[cur], x, 0)
    {
      InheritExact(WithTable(ob1, o), cur, o, 0, x);
    }
    assert t.ob.tables[o] == Inherited(k.ob.tables[cur]);
    assert t.ob.tables == k.ob.tables[o := Inherited(k.ob.tables[cur])];
  }

  lemma {:induction false} CreateFails(k: Kernel, o: nat, priority: nat)
    requires KernelOk(k) && Unused(k, o) && k.ke.current in k.ob.tables && TableFull(k)
    ensures CreateWithMemory(k, o, priority).Continues?
    ensures var (t, status, _) := CreateWithMemory(k, o, priority).value;
            KernelOk(t) && status == HandleLimitReached && NotCreated(k, o, t) && t.ke == Create(k.ke, o, priority)
  {
    hide KernelOk, CountsOk, TypeListsOk, RefsOk, ProcessesOk, WaitsOk, Scheduled, Inv, Slots, DropRef, SameClaims,
      Inherited, InitProcess, NothingInheritable;
    NewProcessOk(k, o, priority);
    NewProcessParts(k, o, priority);
    NewProcessHeader(k, o, priority);
    NewProcessCounts(k, o, priority);
    var k1 := NewProcess(k, o, priority);
    OpenObjectOk(k1, o, false, Some(k.ptype));
    DropRefOk(k1, o);
    RemoveFirst(k1.ob.lists[k.ptype]);
    assert k1.ob.lists[k.ptype := k.ob.lists[k.ptype]] == k.ob.lists;
  }

  lemma {:induction false} PublishOk(k: Kernel, o: nat)
    requires KernelOk(k) && o in k.ob.lists[k.ptype] && o in k.ob.header && o in k.ke.pcb && !Scheduled(k.ke, o)
    requires k.ob.header[o] == Entry(0, 1, false, Some(k.ptype)) && Own(k.own, o) == 1
    requires k.ke.current in k.ob.tables && !TableFull(k)
    ensures Publish(k, o).Halts? <==> k.ke.pcb[o].priority >= LEVELS
    ensures Publish(k, o).Continues? ==>
            var (t, status, h) := Publish(k, o).value;
            && KernelOk(t) && status == Success
            && t.ob.header == k.ob.header[o := Entry(1, 2, false, Some(k.ptype))]
            && h < MAX_HANDLE_COUNT == |k.ob.tables[k.ke.current]| && k.ob.tables[k.ke.current][h] == Empty
            && t.ob.tables == k.ob.tables[k.ke.current := k.ob.tables[k.ke.current][h := Holds(o, false)]]
            && t.ke.current == k.ke.current && t.signaled == k.signaled && t.waiters == k.waiters && t.ptype == k.ptype
            && t.ob.lists == k.ob.lists && t.pid == k.pid && QueuedLast(k.ke, t.ke, o)
            && t.own == k.own[o := 0]
            && (forall q :: Scheduled(t.ke, q) <==> q == o || Scheduled(k.ke, q))
  {
    hide CountsOk, TypeListsOk, RefsOk, ProcessesOk, WaitsOk, Scheduled, Inv, DropRef, Enqueue;
    OpenObjectOk(k, o, false, Some(k.ptype));
    var (k2, status, h) := OpenObject(k, o, false, Some(k.ptype));
    StartProcessOk(k2, o);
    if k.ke.pcb[o].priority < LEVELS {
      DropRefOk(StartProcess(k2, o).value, o);
    }
  }

  lemma {:induction false} CreateSucceeds(k: Kernel, o: nat, priority: nat)
    requires KernelOk(k) && Unused(k, o) && k.ke.current in k.ob.tables && !TableFull(k)
    ensures CreateWithMemory(k, o, priority).Halts? <==> priority >= LEVELS
    ensures CreateWithMemory(k, o, priority).Continues? ==>
            var (t, status, h) := CreateWithMemory(k, o, priority).value;
            KernelOk(t) && status == Success && Created(k, o, priority, t, h)
  {
    hide ObOk, RefsOk, WaitsOk, Scheduled, Inv, Publish, SameClaims, Inherited, InitProcess, ToInherit;
    hide ProcessesOk, PidTaken, LeastUnused, PidsOf, QueuedLast, CreatedProcess, CreateObject, FreeFrom;
    NewProcessOk(k, o, priority);
    NewProcessParts(k, o, priority);
    NewProcessHeader(k, o, priority);
    NewProcessCounts(k, o, priority);
    PublishOk(NewProcess(k, o, priority), o);
    if CreateWithMemory(k, o, priority).Continues? {
      CreatedParts(k, NewProcess(k, o, priority), o, priority, CreateWithMemory(k, o, priority).value.0);
    }
  }

  lemma {:induction false} CreatedParts(k: Kernel, k1: Kernel, o: nat, priority: nat, t: Kernel)
    requires ProcessesOk(k)
    requires k1 == k.(ob := k1.ob, ke := Create(k.ke, o, priority), own := k.own[o := 1], pid := k1.pid)
    requires k1.pid == k.pid[o := LeastUnused([0] + PidsOf(k), 1)]
    requires QueuedLast(k1.ke, t.ke, o) && t.pid == k1.pid && t.own == k1.own[o := 0]
    ensures CreatedProcess(k, o, priority, t)
    ensures forall x :: Own(t.own, x) == if x == o then 0 else Own(k.own, x)
  {
    hide PidTaken, LeastUnused, PidsOf;
    NewPidIsLeast(k);
  }

  // KeStopSchedulingProcess
  function StopProcess(k: Kernel, p: nat): Outcome<Kernel>
    requires p in k.ob.header && p in k.ke.pcb && Core(k.ke) && Scheduled(k.ke, p)
  {
    match Stop(k.ke, p)
    case Halts => Halts
    case Continues(ke) =>
      match Dereference(k.ob, p)
      case Halts => Halts
      case Continues(ob) => Continues(k.(ob := ob, ke := ke))
  }

  // The stopped state, with the reference of the scheduler gone.
  lemma {:induction false} StoppedRefs(k: Kernel, t: Kernel, p: nat)
    requires RefsOk(k) && ProcessesOk(k) && ObOk(t.ob) && p in k.ob.header && Scheduled(k.ke, p)
    requires t == k.(ob := t.ob, ke := t.ke) && t.ke.pcb.Keys == k.ke.pcb.Keys
    requires t.ob.tables == k.ob.tables && t.ob.lists == k.ob.lists
    requires t.ob.header == k.ob.header[p := k.ob.header[p].(pointers := k.ob.header[p].pointers - 1)]
    requires k.ob.header[p].pointers > 0
    requires forall q :: Scheduled(t.ke, q) <==> q != p && Scheduled(k.ke, q)
    ensures RefsOk(t) && ProcessesOk(t)
  {
    hide Scheduled, ObOk;
  }

  // A reference of which there are others: only the counter changes.
  lemma {:induction false} NotTheLast(s: Objects, o: nat)
    requires ObOk(s) && o in s.header && Outstanding(s, o) > 1
    ensures s.header[o].pointers > 1 && Dereference(s, o).Continues? && ObOk(Dereference(s, o).value)
    ensures Dereference(s, o).value == s.(header := s.header[o := s.header[o].(pointers := s.header[o].pointers - 1)])
  {
    hide Slots, TypeListsOk;
    DereferenceOk(s, o);
  }

  lemma {:induction false} StopProcessOk(k: Kernel, p: nat)
    requires KernelOk(k) && Scheduled(k.ke, p) && !IsWaiter(k, p) && p in k.ob.header && Own(k.own, p) > 0
    ensures p in k.ke.pcb
    ensures StopProcess(k, p).Halts? <==> HaltsOn(k.ke, StopE(p))
    ensures StopProcess(k, p).Continues? ==>
            var t := StopProcess(k, p).value;
            && KernelOk(t) && t == k.(ob := t.ob, ke := t.ke)
            && p in t.ob.header && t.ob.tables == k.ob.tables && Stop(k.ke, p) == Continues(t.ke)
            && t.ob.header[p].typ == k.ob.header[p].typ
            && t.ob.header.Keys <= k.ob.header.Keys
            && (forall q :: Scheduled(t.ke, q) <==> q != p && Scheduled(k.ke, q))
  {
    hide ObOk, RefsOk, ProcessesOk, WaitsOk, Scheduled, Slots, Stop, Dereference, HaltsOn;
    ScheduledOk(k, p);
    StopOk(k.ke, p);
    OwnCounts(k, p);
    NotTheLast(k.ob, p);
    if Stop(k.ke, p).Continues? {
      var t := StopProcess(k, p).value;
      StoppedRefs(k, t, p);
      StoppedWaits(k, t, p);
    }
  }

  lemma {:induction false} StoppedWaits(k: Kernel, t: Kernel, p: nat)
    requires WaitsOk(k) && !IsWaiter(k, p) && NoDup(k.ke.blocked)
    requires t.waiters == k.waiters && t.signaled == k.signaled && t.ob.tables == k.ob.tables
    requires t.ke.blocked == Remove(k.ke.blocked, p)
    ensures WaitsOk(t)
  {
    RemoveMembers(k.ke.blocked, p);
    assert forall o :: Waiters(t, o) == Waiters(k, o);
    forall o, w | w in Waiters(t, o) ensures o !in t.signaled && WaitsOn(t, o, w) {
      assert w in Waiters(k, o) && WaitsOn(k, o, w);
    }
  }

  // ObKillProcess
  function CloseHandlesOf(k: Kernel, victim: nat): Outcome<Kernel>
    requires ObOk(k.ob) && victim in k.ob.tables && k.ke.current in k.ob.tables
  {
    match KillProcess(k.ob, victim, k.ke.current)
    case Halts => Halts
    case Continues(ob) => Continues(k.(ob := ob))
  }

  lemma {:induction false} CloseHandlesOk(k: Kernel, victim: nat)
    requires KernelOk(k) && victim in k.ob.tables
    ensures k.ke.current in k.ob.tables
    ensures CloseHandlesOf(k, victim).Continues? && KernelOk(CloseHandlesOf(k, victim).value)
    ensures var t := CloseHandlesOf(k, victim).value;
            && t == k.(ob := t.ob) && t.ob.header.Keys <= k.ob.header.Keys
            && (forall x | x in t.ob.header :: t.ob.header[x].typ == k.ob.header[x].typ)
            && |k.ob.tables[k.ke.current]| == |k.ob.tables[victim]|
            && t.ob.tables == k.ob.tables[k.ke.current := Stripped(k.ob.tables[k.ke.current], k.ob.tables[victim])]
            && (forall x | x in k.ob.header && Outstanding(k.ob, x) > 0 :: x in t.ob.header)
  {
    hide Scheduled, CountsOk, TypeListsOk, TablesOk, CloseAll;
    CurrentOk(k);
    CloseAllOk(k.ob, victim, k.ke.current, 0);
    KillProcessOk(k.ob, victim, k.ke.current);
    ObStepOk(k, CloseHandlesOf(k, victim).value.ob, k.own);
  }

  // The end of PsKillProcess: the handles, the signal, and the reference it took.
  ghost function Bury(k: Kernel, p: nat): Outcome<Kernel>
    requires KernelOk(k) && p in k.ob.header && p in k.ob.tables && Own(k.own, p) > 0
  {
    CloseHandlesOk(k, p);
    OwnCounts(k, p);
    match CloseHandlesOf(k, p)
    case Halts => Halts
    case Continues(t) =>
      SignalOk(t, p);
      match Signal(t, p)
      case Halts => Halts
      case Continues(u) => DropRef(u, p)
  }

  lemma {:induction false} BuryOk(k: Kernel, p: nat)
    requires KernelOk(k) && p in k.ob.header && p in k.ob.tables && Own(k.own, p) > 0
    ensures Bury(k, p).Continues?
    ensures var t := Bury(k, p).value;
            && KernelOk(t) && p in t.signaled && Waiters(t, p) == [] && t.ob.header.Keys <= k.ob.header.Keys
            && (forall x :: x != p ==> Waiters(t, x) == Waiters(k, x))
            && (forall x :: Own(t.own, x) == if x == p then Own(k.own, p) - 1 else Own(k.own, x))
            && (Own(k.own, p) > 1 ==> p in t.ob.header)
            && t.ptype == k.ptype && (p in t.ob.header ==> t.ob.header[p].typ == k.ob.header[p].typ)
            && (forall q :: Scheduled(t.ke, q) <==> Scheduled(k.ke, q))
            && t.ke.timer == k.ke.timer
            && k.ke.current in k.ob.tables && |k.ob.tables[k.ke.current]| == |k.ob.tables[p]|
            && t.ob.tables == k.ob.tables[k.ke.current := Stripped(k.ob.tables[k.ke.current], k.ob.tables[p])]
            && (forall q :: q in t.ke.blocked <==> q in k.ke.blocked && q !in Waiters(k, p))
            && (forall w | w in Waiters(k, p) :: Awake(t.ke, w))
  {
    hide CountsOk, TypeListsOk, TablesOk, RefsOk, ProcessesOk, WaitsOk, Scheduled, CloseHandlesOf, Signal, DropRef;
    CloseHandlesOk(k, p);
    OwnCounts(k, p);
    var t := CloseHandlesOf(k, p).value;
    SignalOk(t, p);
    OwnCounts(Signal(t, p).value, p);
    DropRefOk(Signal(t, p).value, p);
    assert forall x :: Waiters(Bury(k, p).value, x) == Waiters(Signal(t, p).value, x);
  }

  // The message to the supervisor of a stopped process resumes the supervisor if it
  // is waiting for one.
  function Notified(s: Sched<nat>, boss: Option<nat>): Sched<nat>
    requires Core(s)
  {
    if boss.Some? && (boss.value in s.timer || boss.value in s.blocked) then
      ResumeOk(s, boss.value);
      Resume(s, boss.value).value
    else s
  }

  lemma {:induction false} NotifiedOk(k: Kernel, boss: Option<nat>)
    requires KernelOk(k) && (boss.Some? ==> !IsWaiter(k, boss.value))
    ensures KernelOk(k.(ke := Notified(k.ke, boss)))
    ensures forall q :: Scheduled(Notified(k.ke, boss), q) <==> Scheduled(k.ke, q)
    ensures boss.Some? ==> boss.value !in Notified(k.ke, boss).timer && boss.value !in Notified(k.ke, boss).blocked
  {
    hide ObOk, RefsOk, ProcessesOk, WaitsOk, Scheduled, Resume, NoDup, Remove;
    if boss.Some? && (boss.value in k.ke.timer || boss.value in k.ke.blocked) {
      ResumeOk(k.ke, boss.value);
      RemoveMembers(k.ke.timer, boss.value);
      RemoveMembers(k.ke.blocked, boss.value);
      ResumeStep(k, boss.value);
    } else {
      assert k.(ke := k.ke) == k;
    }
  }

  // PsKillProcess, with the supervisor of p, if it has one that waits for messages.
  // By the time the victim's handles are to be closed another process may be
  // current, and it is in its table that they are closed.
  ghost function KillScheduled(k: Kernel, p: nat, boss: Option<nat>): Outcome<Kernel>
    requires KernelOk(k) && Scheduled(k.ke, p) && !IsWaiter(k, p) && (boss.Some? ==> !IsWaiter(k, boss.value))
  {
    TakeRefScheduled(k, p);
    StopProcessOk(TakeRef(k, p), p);
    match StopProcess(TakeRef(k, p), p)
    case Halts => Halts
    case Continues(t) =>
      SameWaiters(k, t);
      NotifiedOk(t, boss);
      var u := t.(ke := Notified(t.ke, boss));
      assert p in u.ob.header && p in u.ob.tables && Own(u.own, p) > 0;
      Bury(u, p)
  }

  lemma {:induction false} SameWaiters(k: Kernel, t: Kernel)
    requires t.waiters == k.waiters
    ensures forall o :: Waiters(t, o) == Waiters(k, o)
    ensures forall p :: IsWaiter(t, p) <==> IsWaiter(k, p)
  {
    assert forall o :: Waiters(t, o) == Waiters(k, o);
  }

  lemma {:induction false} CurrentIsScheduled(s: Sched<nat>)
    ensures Scheduled(s, s.current)
  {
  }

  lemma {:induction false} TakeRefScheduled(k: Kernel, p: nat)
    requires KernelOk(k) && Scheduled(k.ke, p) && !IsWaiter(k, p)
    ensures p in k.ob.header && p in k.ob.tables && p in k.ke.pcb
    ensures KernelOk(TakeRef(k, p)) && !IsWaiter(TakeRef(k, p), p)
    ensures p in TakeRef(k, p).ob.header && TakeRef(k, p).ob.header[p].typ == Some(k.ptype)
  {
    hide Scheduled, ObOk, RefsOk, ProcessesOk, WaitsOk, Inv;
    ScheduledOk(k, p);
    TakeRefOk(k, p);
    assert forall o :: Waiters(TakeRef(k, p), o) == Waiters(k, o);
  }

  // The process that is current when the victim's handles are to be closed.
  function Heir(s: Sched<nat>, p: nat, boss: Option<nat>): nat
    requires Inv(s) && p in s.pcb && Scheduled(s, p) && Stop(s, p).Continues?
  {
    StopOk(s, p);
    Notified(Stop(s, p).value, boss).current
  }

  // What killing p comes to: p is off the schedule and signaled, those who waited
  // for it are running or ready, and no reference to it is left behind.
  ghost predicate Killed(k: Kernel, t: Kernel, p: nat) {
    && p in t.signaled && Waiters(t, p) == [] && t.ob.header.Keys <= k.ob.header.Keys
    && (forall x :: x != p ==> Waiters(t, x) == Waiters(k, x))
    && (forall q :: Scheduled(t.ke, q) <==> q != p && Scheduled(k.ke, q))
    && (forall w | w in Waiters(k, p) :: w !in t.ke.blocked && Awake(t.ke, w))
    && (forall x :: Own(t.own, x) == Own(k.own, x))
    && (p in t.ob.header <==> |Slots(t.ob, p)| > 0 || Own(k.own, p) > 0)
    && (p in t.ob.header ==> t.ob.header[p].pointers == |Slots(t.ob, p)| + Own(k.own, p))
  }

  // In the table of c the handles are closed whose numbers are open in that of p,
  // and no other table changes.
  ghost predicate ClosedIn(k: Kernel, t: Kernel, p: nat, c: nat) {
    && c in k.ob.tables && p in k.ob.tables && |k.ob.tables[c]| == |k.ob.tables[p]|
    && t.ob.tables == k.ob.tables[c := Stripped(k.ob.tables[c], k.ob.tables[p])]
  }

  // Killing halts only if stopping the process does. Afterwards the process is not
  // scheduled, everybody who waited for it is running or ready, and nobody else
  // enters or leaves the schedule. No reference is left behind: the process is freed
  // unless somebody else has a handle or a reference to it. Its supervisor, if it waited
  // for a message, waits no more. But the process that is current once the victim
  // is stopped and its supervisor told loses the handles whose numbers are open in
  // the victim's table.
  lemma {:induction false} KillOk(k: Kernel, p: nat, boss: Option<nat>)
    requires KernelOk(k) && Scheduled(k.ke, p) && !IsWaiter(k, p) && (boss.Some? ==> !IsWaiter(k, boss.value))
    ensures p in k.ke.pcb && (KillScheduled(k, p, boss).Halts? <==> HaltsOn(k.ke, StopE(p)))
    ensures KillScheduled(k, p, boss).Continues? ==>
            var t := KillScheduled(k, p, boss).value;
            && KernelOk(t) && Killed(k, t, p) && Stop(k.ke, p).Continues?
            && (boss.Some? && boss.value != p && Scheduled(k.ke, boss.value) ==> Awake(t.ke, boss.value))
            && var c := Heir(k.ke, p, boss); c != p && Scheduled(k.ke, c) && ClosedIn(k, t, p, c)
  {
    hide ObOk, RefsOk, ProcessesOk, WaitsOk, Scheduled, StopProcess, Bury, Stop, Notified, HaltsOn, IsWaiter, Waiters;
    TakeRefScheduled(k, p);
    StopProcessOk(TakeRef(k, p), p);
    if StopProcess(TakeRef(k, p), p).Continues? {
      var k2 := StopProcess(TakeRef(k, p), p).value;
      SameWaiters(k, k2);
      NotifiedOk(k2, boss);
      var k3 := k2.(ke := Notified(k2.ke, boss));
      SameWaiters(k, k3);
      BuryOk(k3, p);
      KilledOk(k, k3, p);
      if boss.Some? && boss.value != p && Scheduled(k.ke, boss.value) {
        ScheduledIsAwake(Bury(k3, p).value.ke, boss.value);
      }
      CurrentIsScheduled(k3.ke);
    }
  }

  // k3 is the state in which p is stopped, and PsKillProcess has a reference to it.
  lemma {:induction false} KilledOk(k: Kernel, k3: Kernel, p: nat)
    requires KernelOk(k) && KernelOk(k3) && p in k3.ob.header && p in k3.ob.tables && Own(k3.own, p) > 0
    requires k3.ptype == k.ptype && k3.ob.header[p].typ == Some(k.ptype) && k3.waiters == k.waiters
    requires k3.ob.header.Keys <= k.ob.header.Keys
    requires k3.own == k.own[p := Own(k.own, p) + 1]
    requires forall q :: Scheduled(k3.ke, q) <==> q != p && Scheduled(k.ke, q)
    ensures Bury(k3, p).Continues? && Killed(k, Bury(k3, p).value, p)
  {
    hide ObOk, RefsOk, ProcessesOk, WaitsOk, Scheduled, Inv, Bury, Waiters, Slots;
    SameWaiters(k, k3);
    BuryOk(k3, p);
    WhenFreed(Bury(k3, p).value, p);
  }

  // A process that is not scheduled is there as long as there are handles to it or
  // references that clients own, and PointerCount is their number.
  lemma {:induction false} WhenFreed(k: Kernel, p: nat)
    requires KernelOk(k) && !Scheduled(k.ke, p)
    requires p in k.ob.header ==> k.ob.header[p].typ == Some(k.ptype)
    requires Own(k.own, p) > 0 ==> p in k.ob.header
    ensures p in k.ob.header <==> |Slots(k.ob, p)| > 0 || Own(k.own, p) > 0
    ensures p in k.ob.header ==> k.ob.header[p].pointers == |Slots(k.ob, p)| + Own(k.own, p)
  {
    hide Scheduled, Slots, Inv, WaitsOk;
    if p in k.ob.header {
      OwnCounts(k, p);
    } else {
      NoSlots(k.ob, p);
    }
  }

  // ObKillProcess is meant to close the victim's handles. It never does, since the
  // victim is not current any more: its table stays as it is, and the handles of
  // the same numbers are closed in the process that is current by then.
  lemma {:induction false} KillLeavesHandlesOpen(k: Kernel, p: nat, boss: Option<nat>)
    requires KernelOk(k) && Scheduled(k.ke, p) && !IsWaiter(k, p) && (boss.Some? ==> !IsWaiter(k, boss.value))
    requires KillScheduled(k, p, boss).Continues?
    ensures var t := KillScheduled(k, p, boss).value;
            p in k.ob.tables && p in t.ob.tables && t.ob.tables[p] == k.ob.tables[p]
  {
    hide KernelOk, Scheduled, KillScheduled, Stop;
    KillOk(k, p, boss);
  }

  lemma {:induction false} WaiterScheduled(k: Kernel, o: nat, w: nat)
    requires KernelOk(k) && w in Waiters(k, o)
    ensures Scheduled(k.ke, w) && IsWaiter(k, w) && w != k.ke.current
  {
    assert WaitsOn(k, o, w);
  }
}
