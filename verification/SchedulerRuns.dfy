// Runs of the scheduler: every sequence of calls of its public operations.

module SchedulerRuns {
  import opened Lists
  import opened Words
  import opened SchedulerSpec

  datatype Event<P> =
    | CreateE(p: P, priority: nat)
    | StartE(p: P)
    | StopE(p: P)
    | BlockE
    | SuspendE(ms: nat)
    | ResumeE(p: P)
    | ChangeE(p: P, priority: nat)
    | TimerE

  // What the kernel demands of its callers: an object is created once, started
  // when it is not scheduled, and stopped or reprioritised while it is.
  ghost predicate Legal<P>(s: Sched<P>, e: Event<P>) {
    match e
    case CreateE(p, _) => p !in s.pcb
    case StartE(p) => p in s.pcb && !Scheduled(s, p)
    case StopE(p) => p in s.pcb && Scheduled(s, p)
    case ChangeE(p, _) => p in s.pcb && Scheduled(s, p)
    case ResumeE(p) => p in s.pcb
    case _ => true
  }

  ghost function Step<P>(s: Sched<P>, e: Event<P>): Outcome<Sched<P>>
    requires Inv(s) && Legal(s, e)
  {
    match e
    case CreateE(p, priority) => Continues(Create(s, p, priority))
    case StartE(p) => Start(s, p)
    case StopE(p) => Stop(s, p)
    case BlockE => Block(s)
    case SuspendE(ms) => Suspend(s, ms)
    case ResumeE(p) => Resume(s, p)
    case ChangeE(p, priority) => ChangePriority(s, p, priority)
    case TimerE => HandleTimer(s)
  }

  ghost predicate NothingReady<P>(s: Sched<P>) {
    forall k :: 0 <= k < |s.ready| ==> s.ready[k] == []
  }

  // Exactly when a call ends in KeBugCheck.
  ghost predicate HaltsOn<P>(s: Sched<P>, e: Event<P>)
    requires Inv(s) && Legal(s, e)
  {
    match e
    case StartE(p) => s.pcb[p].priority >= LEVELS
    case StopE(p) => p == s.current && (s.pcb[p].state == Created || NothingReady(s))
    case BlockE => NothingReady(s)
    case SuspendE(_) => NothingReady(s)
    case ResumeE(p) => p !in s.timer && p !in s.blocked
    case ChangeE(p, priority) => priority >= LEVELS || s.pcb[p].state == Created
    case _ => false
  }

  // The processes scheduled after a call that was made while `before` were.
  ghost predicate ScheduledAfter<P>(s: Sched<P>, e: Event<P>, q: P) {
    match e
    case StartE(p) => q == p || Scheduled(s, q)
    case StopE(p) => q != p && Scheduled(s, q)
    case _ => Scheduled(s, q)
  }

  // What the calls that do not touch the clocks keep.
  ghost predicate Kept<P>(s: Sched<P>, t: Sched<P>) {
    && Inv(t) && SameClocks(s, t)
    && (s.current in s.pcb && NoInversion(s) ==> NoInversion(t))
  }

  lemma {:induction false} StopCurrentOk<P>(s: Sched<P>)
    requires Inv(s)
    ensures var r := Reschedule(SetState(s, s.current, Blocked));
            && (r.Halts? <==> NothingReady(s))
            && (r.Continues? ==>
                  && Kept(s, r.value) && NoInversion(r.value)
                  && (forall q :: Scheduled(r.value, q) <==> q != s.current && Scheduled(s, q))
                  && r.value.timer == s.timer && r.value.blocked == s.blocked)
  {
    hide NoDup, Reschedule;
    var s1 := SetState(s, s.current, Blocked);
    assert s1.ready == s.ready && s1.blocked == s.blocked && s1.timer == s.timer;
    assert forall q :: Listed(s1, q) <==> Listed(s, q);
    RescheduleOk(s1);
  }

  lemma {:induction false} StopReadyOk<P>(s: Sched<P>, p: P)
    requires Inv(s) && p in s.pcb && Scheduled(s, p) && s.pcb[p].state == Ready
    ensures Kept(s, Dequeue(s, p))
    ensures forall q :: Scheduled(Dequeue(s, p), q) <==> q != p && Scheduled(s, q)
  {
    DequeueOk(s, p);
  }

  lemma {:induction false} StopBlockedOk<P>(s: Sched<P>, p: P)
    requires Inv(s) && p in s.pcb && Scheduled(s, p) && s.pcb[p].state == Blocked
    ensures Kept(s, Unblock(s, p))
    ensures forall q :: Scheduled(Unblock(s, p), q) <==> q != p && Scheduled(s, q)
  {
    UnblockOk(s, p);
  }

  lemma {:induction false} StopOk<P>(s: Sched<P>, p: P)
    requires Inv(s) && p in s.pcb && Scheduled(s, p)
    ensures Stop(s, p).Halts? <==> HaltsOn(s, StopE(p))
    ensures Stop(s, p).Continues? ==>
            var t := Stop(s, p).value;
            && Kept(s, t)
            && (forall q :: Scheduled(t, q) <==> ScheduledAfter(s, StopE(p), q))
            && t.timer == Remove(s.timer, p) && t.blocked == Remove(s.blocked, p)
  {
    match s.pcb[p].state {
      case Running => StopCurrentOk(s);
      case Ready => StopReadyOk(s, p);
      case Blocked => StopBlockedOk(s, p);
      case _ =>
    }
  }

  lemma {:induction false} BlockOk<P>(s: Sched<P>)
    requires Inv(s)
    ensures Block(s).Halts? <==> NothingReady(s)
    ensures Block(s).Continues? ==>
            var t := Block(s).value;
            && Kept(s, t) && NoInversion(t)
            && (forall q :: Scheduled(t, q) <==> Scheduled(s, q))
            && t.timer == s.timer && t.blocked == [s.current] + s.blocked
  {
    hide Reschedule;
    var s1 := SetState(s.(blocked := [s.current] + s.blocked), s.current, Blocked);
    assert s1.ready == s.ready && s1.timer == s.timer;
    assert forall q :: Listed(s1, q) <==> Listed(s, q) || q == s.current;
    RescheduleOk(s1);
  }

  // Suspension sets the wake-up time of the current process and nothing else.
  lemma {:induction false} SuspendOk<P>(s: Sched<P>, ms: nat)
    requires Inv(s)
    ensures Suspend(s, ms).Halts? <==> NothingReady(s)
    ensures Suspend(s, ms).Continues? ==>
            var t := Suspend(s, ms).value;
            && Inv(t) && NoInversion(t) && SameClocks(Sleep(s, ms), t)
            && (forall q :: Scheduled(t, q) <==> Scheduled(s, q))
            && t.timer == Sleep(s, ms).timer && t.blocked == s.blocked
  {
    SleepOk(s, ms);
    RescheduleOk(Sleep(s, ms));
  }

  lemma {:induction false} StartOk<P>(s: Sched<P>, p: P)
    requires Inv(s) && p in s.pcb && !Scheduled(s, p) && s.pcb[p].priority < LEVELS
    ensures Inv(Enqueue(s, p)) && SameClocks(s, Enqueue(s, p))
    ensures forall q :: Scheduled(Enqueue(s, p), q) <==> q == p || Scheduled(s, q)
  {
    EnqueueOk(s, p);
  }

  lemma {:induction false} ChangeReadyOk<P>(s: Sched<P>, p: P, priority: nat)
    requires Inv(s) && p in s.pcb && Scheduled(s, p) && s.pcb[p].state == Ready && priority < LEVELS
    ensures var t := Enqueue(SetPriority(Dequeue(s, p), p, priority), p);
            Inv(t) && forall q :: Scheduled(t, q) <==> Scheduled(s, q)
  {
    DequeueOk(s, p);
    var s1 := Dequeue(s, p);
    var s2 := SetPriority(s1, p, priority);
    assert s2.ready == s1.ready && s2.blocked == s1.blocked && s2.timer == s1.timer;
    assert forall q :: Listed(s2, q) <==> Listed(s1, q);
    EnqueueOk(s2, p);
  }

  lemma {:induction false} ChangeOk<P>(s: Sched<P>, p: P, priority: nat)
    requires Inv(s) && p in s.pcb && Scheduled(s, p)
    ensures ChangePriority(s, p, priority).Halts? <==> HaltsOn(s, ChangeE(p, priority))
    ensures ChangePriority(s, p, priority).Continues? ==>
            var t := ChangePriority(s, p, priority).value;
            && Inv(t) && t.current == s.current && t.tick == s.tick
            && t.timer == s.timer && t.blocked == s.blocked
            && t.pcb.Keys == s.pcb.Keys
            && (forall q | q in s.pcb ::
                  q in t.pcb && t.pcb[q] == if q == p then s.pcb[q].(priority := priority) else s.pcb[q])
            && (forall q :: Scheduled(t, q) <==> Scheduled(s, q))
  {
    if priority < LEVELS {
      match s.pcb[p].state {
        case Running | Blocked =>
          var t := SetPriority(s, p, priority);
          assert t.ready == s.ready && t.blocked == s.blocked && t.timer == s.timer;
        case Ready => ChangeReadyOk(s, p, priority);
        case _ =>
      }
    }
  }

  // ---------------------------------------------------------------------------
  // The timer interrupt
  // ---------------------------------------------------------------------------

  // The length of the longest prefix of the timer list that is due before `now`.
  function Expired<P>(pcb: map<P, Pcb>, timer: seq<P>, now: nat): (n: nat)
    requires forall p | p in timer :: p in pcb
    ensures n <= |timer|
    ensures forall i :: 0 <= i < n ==> pcb[timer[i]].wakeUp < now
    ensures n < |timer| ==> pcb[timer[n]].wakeUp >= now
  {
    if timer == [] || pcb[timer[0]].wakeUp >= now then 0 else 1 + Expired(pcb, timer[1..], now)
  }

  lemma {:induction false} ExpiredSame<P>(a: map<P, Pcb>, b: map<P, Pcb>, timer: seq<P>, now: nat)
    requires forall p | p in timer :: p in a && p in b && a[p].wakeUp == b[p].wakeUp
    ensures Expired(a, timer, now) == Expired(b, timer, now)
  {
    if timer != [] && a[timer[0]].wakeUp < now {
      ExpiredSame(a, b, timer[1..], now);
    }
  }

  lemma {:induction false} ExpiredTail<P>(a: map<P, Pcb>, b: map<P, Pcb>, timer: seq<P>, now: nat)
    requires forall p | p in timer :: p in a && p in b && a[p].wakeUp == b[p].wakeUp
    requires timer != [] && a[timer[0]].wakeUp < now
    ensures timer[1..][Expired(b, timer[1..], now)..] == timer[Expired(a, timer, now)..]
  {
    ExpiredSame(a, b, timer[1..], now);
    var n := Expired(b, timer[1..], now);
    assert timer[1..][n..] == timer[n + 1..];
  }

  // The first turn of the loop in KepWakeUpSleepers.
  lemma {:induction false} WakeUpTurn<P>(s: Sched<P>)
    requires Core(s) && HeadDue(s)
    ensures var r := Resume(s, s.timer[0]);
            && r.Continues? && Core(r.value) && (Inv(s) ==> Inv(r.value)) && SameClocks(s, r.value)
            && (NoInversion(s) ==> NoInversion(r.value))
            && r.value.timer == s.timer[1..] && r.value.blocked == s.blocked
            && (forall q :: Scheduled(r.value, q) <==> Scheduled(s, q))
            && WakeUp(s) == WakeUp(r.value)
  {
    ResumeOk(s, s.timer[0]);
    RemoveFirst(s.timer);
  }

  // KepWakeUpSleepers takes exactly the expired prefix off the timer list and
  // leaves the rest of it, and the blocked list, alone.
  lemma {:induction false} WakeUpTakesPrefix<P>(s: Sched<P>)
    requires Core(s)
    ensures var t := WakeUp(s).value;
            && SameClocks(s, t)
            && t.timer == s.timer[Expired(s.pcb, s.timer, s.tick)..] && t.blocked == s.blocked
    decreases |s.timer|
  {
    if HeadDue(s) {
      WakeUpTurn(s);
      var s1 := Resume(s, s.timer[0]).value;
      WakeUpTakesPrefix(s1);
      ExpiredTail(s.pcb, s1.pcb, s.timer, s.tick);
    }
  }

  // KepWakeUpSleepers keeps the invariants and the set of scheduled processes,
  // although each turn of its loop may change the current process.
  lemma {:induction false} WakeUpOk<P>(s: Sched<P>)
    requires Core(s)
    ensures var t := WakeUp(s).value;
            && Core(t) && (Inv(s) ==> Inv(t))
            && (NoInversion(s) ==> NoInversion(t))
            && (forall q :: Scheduled(t, q) <==> Scheduled(s, q))
    decreases |s.timer|
  {
    if HeadDue(s) {
      WakeUpTurn(s);
      WakeUpOk(Resume(s, s.timer[0]).value);
    }
  }

  // Every process woken up is running or in its own ready queue afterwards.
  lemma {:induction false} WokenUpIsAwake<P>(s: Sched<P>, i: nat)
    requires Core(s) && i < Expired(s.pcb, s.timer, s.tick)
    ensures Awake(WakeUp(s).value, s.timer[i])
  {
    var t := WakeUp(s).value;
    var p := s.timer[i];
    var n := Expired(s.pcb, s.timer, s.tick);
    assert Scheduled(t, p) by {
      WakeUpOk(s);
      assert p in s.timer;
    }
    assert p !in t.timer && p !in t.blocked by {
      WakeUpTakesPrefix(s);
      NotInSuffix(s.timer, i, n);
    }
    assert Core(t);
  }

  lemma {:induction false} NotInSuffix<T>(l: seq<T>, i: nat, n: nat)
    requires NoDup(l) && i < n <= |l|
    ensures l[i] !in l[n..]
  {
  }

  lemma {:induction false} CountTickOk<P>(s: Sched<P>)
    requires Inv(s)
    ensures var t := CountTick(s);
            && Core(t)
            && (NoInversion(s) ==> NoInversion(t))
            && (forall q :: Scheduled(t, q) <==> Scheduled(s, q))
  {
    var t := CountTick(s);
    assert t.ready == s.ready && t.blocked == s.blocked && t.timer == s.timer && t.current == s.current;
    assert forall q :: Listed(t, q) <==> Listed(s, q);
  }

  // KeHandleTimer never halts between operations. It charges one tick to the
  // process that was running, wakes up exactly the expired prefix, and leaves a
  // process with a positive quantum running.
  lemma {:induction false} HandleTimerOk<P>(s: Sched<P>)
    requires Inv(s)
    ensures HandleTimer(s).Continues?
    ensures var t := HandleTimer(s).value; var c := CountTick(s);
            && Inv(t) && SameClocks(c, t)
            && (NoInversion(s) ==> NoInversion(t))
            && t.timer == s.timer[Expired(s.pcb, s.timer, c.tick)..] && t.blocked == s.blocked
            && (forall q :: Scheduled(t, q) <==> Scheduled(s, q))
  {
    var c := CountTick(s);
    CountTickOk(s);
    WakeUpOk(c);
    WakeUpTakesPrefix(c);
    ExpiredSame(s.pcb, c.pcb, s.timer, c.tick);
    var w := WakeUp(c).value;
    if w.pcb[w.current].quantum == 0 {
      RescheduleOk(w);
    }
  }

  // ---------------------------------------------------------------------------
  // Any run: the partition of the scheduled processes
  // ---------------------------------------------------------------------------

  // Every call keeps the invariant, halts exactly when HaltsOn says so, and
  // changes the set of scheduled processes by what it starts or stops only.
  lemma {:induction false} StepOk<P>(s: Sched<P>, e: Event<P>)
    requires Inv(s) && Legal(s, e)
    ensures Step(s, e).Halts? <==> HaltsOn(s, e)
    ensures Step(s, e).Continues? ==> Inv(Step(s, e).value)
    ensures Step(s, e).Continues? ==>
            forall q :: Scheduled(Step(s, e).value, q) <==> ScheduledAfter(s, e, q)
  {
    match e {
      case CreateE(p, priority) => CreateOk(s, p, priority);
      case StartE(p) => if s.pcb[p].priority < LEVELS { StartOk(s, p); }
      case StopE(p) => StopOk(s, p);
      case BlockE => BlockOk(s);
      case SuspendE(ms) => SuspendOk(s, ms);
      case ResumeE(p) => if p in s.timer || p in s.blocked { ResumeOk(s, p); }
      case ChangeE(p, priority) => ChangeOk(s, p, priority);
      case TimerE => HandleTimerOk(s);
    }
  }

  lemma {:induction false} CreateOk<P>(s: Sched<P>, p: P, priority: nat)
    requires Inv(s) && p !in s.pcb
    ensures Inv(Create(s, p, priority))
    ensures forall q :: Scheduled(Create(s, p, priority), q) <==> Scheduled(s, q)
  {
    var t := Create(s, p, priority);
    assert t.ready == s.ready && t.blocked == s.blocked && t.timer == s.timer && t.current == s.current;
    assert forall q :: Listed(t, q) <==> Listed(s, q);
  }

  // The callers respect Legal in every state the run reaches.
  ghost predicate LegalRun<P>(s: Sched<P>, es: seq<Event<P>>)
    requires Inv(s)
    decreases |es|
  {
    es == [] ||
    (Legal(s, es[0]) &&
     (StepOk(s, es[0]); Step(s, es[0]).Continues? ==> LegalRun(Step(s, es[0]).value, es[1..])))
  }

  ghost function Run<P>(s: Sched<P>, es: seq<Event<P>>): (r: Outcome<Sched<P>>)
    requires Inv(s) && LegalRun(s, es)
    ensures r.Continues? ==> Inv(r.value)
    decreases |es|
  {
    if es == [] then Continues(s)
    else
      StepOk(s, es[0]);
      match Step(s, es[0])
      case Halts => Halts
      case Continues(t) => Run(t, es[1..])
  }

  lemma {:induction false} BootOk<P>(idle: P)
    ensures Inv(Boot(idle)) && NoInversion(Boot(idle)) && |Boot(idle).ready| == 32
    ensures forall q :: Scheduled(Boot(idle), q) <==> q == idle
  {
  }

  ghost function CountReady<P>(ready: seq<seq<P>>, p: P): nat {
    if ready == [] then 0 else multiset(ready[0])[p] + CountReady(ready[1..], p)
  }

  // How many of the places a process can be in hold p.
  ghost function Places<P>(s: Sched<P>, p: P): nat {
    (if p == s.current then 1 else 0) + CountReady(s.ready, p) + multiset(s.blocked)[p] + multiset(s.timer)[p]
  }

  lemma {:induction false} CountNoDup<T>(l: seq<T>, x: T)
    requires NoDup(l)
    ensures multiset(l)[x] == if x in l then 1 else 0
  {
    if l != [] {
      assert l == [l[0]] + l[1..];
      CountNoDup(l[1..], x);
    }
  }

  lemma {:induction false} CountReadyIs<P>(ready: seq<seq<P>>, p: P, k: nat)
    requires forall j :: 0 <= j < |ready| ==> NoDup(ready[j])
    requires forall j :: 0 <= j < |ready| && p in ready[j] ==> j == k
    ensures CountReady(ready, p) == if k < |ready| && p in ready[k] then 1 else 0
  {
    if ready != [] {
      CountNoDup(ready[0], p);
      if k == 0 {
        CountReadyIs(ready[1..], p, |ready|);
      } else {
        CountReadyIs(ready[1..], p, k - 1);
      }
    }
  }

  // State says where p is.
  ghost predicate StateTells<P>(s: Sched<P>, p: P)
    requires |s.ready| == LEVELS
  {
    && p in s.pcb
    && match s.pcb[p].state
       case Running | Created => p == s.current
       case Ready => s.pcb[p].priority < LEVELS && p in s.ready[s.pcb[p].priority]
       case Blocked => p in s.blocked || p in s.timer
       case Done => false
  }

  // In every reachable state a scheduled process is in exactly one place, and
  // its State says which; any other process is in none.
  lemma {:induction false} ExactlyOnePlace<P>(s: Sched<P>, p: P)
    requires Inv(s)
    ensures Places(s, p) == if Scheduled(s, p) then 1 else 0
    ensures Scheduled(s, p) ==> StateTells(s, p)
  {
    CountNoDup(s.blocked, p);
    CountNoDup(s.timer, p);
    var k := if p in s.pcb then s.pcb[p].priority else LEVELS;
    CountReadyIs(s.ready, p, k);
  }

  // Over any legal run from boot no process is lost, duplicated or misplaced.
  lemma {:induction false} PartitionAlways<P>(idle: P, es: seq<Event<P>>, p: P)
    requires Inv(Boot(idle)) && LegalRun(Boot(idle), es)
    ensures Run(Boot(idle), es).Continues? ==>
            var s := Run(Boot(idle), es).value;
            && Places(s, p) == (if Scheduled(s, p) then 1 else 0)
            && (Scheduled(s, p) <==> StartedAndNotStopped(idle, es, p))
  {
    BootOk(idle);
    if Run(Boot(idle), es).Continues? {
      ExactlyOnePlace(Run(Boot(idle), es).value, p);
      RunScheduled(Boot(idle), es, p);
    }
  }

  // Whether p is started last, or stopped last, by the calls of es.
  ghost predicate LastStarted<P>(before: bool, es: seq<Event<P>>, p: P)
    decreases |es|
  {
    if es == [] then before
    else
      match es[|es| - 1]
      case StartE(q) => q == p || LastStarted(before, es[..|es| - 1], p)
      case StopE(q) => q != p && LastStarted(before, es[..|es| - 1], p)
      case _ => LastStarted(before, es[..|es| - 1], p)
  }

  ghost predicate StartedAndNotStopped<P>(idle: P, es: seq<Event<P>>, p: P) {
    LastStarted(p == idle, es, p)
  }

  lemma {:induction false} LastStartedHead<P>(before: bool, es: seq<Event<P>>, p: P)
    requires es != []
    ensures LastStarted(before, es, p) ==
            LastStarted(
              match es[0] case StartE(q) => q == p || before case StopE(q) => q != p && before case _ => before,
              es[1..], p)
    decreases |es|
  {
    if |es| > 1 {
      var init := es[..|es| - 1];
      LastStartedHead(before, init, p);
      assert init[1..] == es[1..][..|es[1..]| - 1];
    }
  }

  lemma {:induction false} RunScheduled<P>(s: Sched<P>, es: seq<Event<P>>, p: P)
    requires Inv(s) && LegalRun(s, es) && Run(s, es).Continues?
    ensures Scheduled(Run(s, es).value, p) <==> LastStarted(Scheduled(s, p), es, p)
    decreases |es|
  {
    if es != [] {
      StepOk(s, es[0]);
      LastStartedHead(Scheduled(s, p), es, p);
      RunScheduled(Step(s, es[0]).value, es[1..], p);
    }
  }

  // ---------------------------------------------------------------------------
  // Runs that leave the idle process alone never halt on rescheduling
  // ---------------------------------------------------------------------------

  ghost predicate IdleAwake<P>(s: Sched<P>, idle: P) {
    Scheduled(s, idle) && idle !in s.blocked && idle !in s.timer
  }

  // The idle process is not stopped, and does not block or suspend itself.
  ghost predicate SparesIdle<P>(s: Sched<P>, e: Event<P>, idle: P) {
    match e
    case StopE(p) => p != idle
    case BlockE => s.current != idle
    case SuspendE(_) => s.current != idle
    case _ => true
  }

  lemma {:induction false} IdleStaysAwake<P>(s: Sched<P>, e: Event<P>, idle: P)
    requires Inv(s) && Legal(s, e) && IdleAwake(s, idle) && SparesIdle(s, e, idle)
    ensures NothingReady(s) ==> s.current == idle
    ensures Step(s, e).Continues? ==> IdleAwake(Step(s, e).value, idle)
  {
    StepOk(s, e);
    match e {
      case CreateE(p, priority) =>
      case StartE(p) =>
      case StopE(p) => StopOk(s, p); RemoveMembers(s.timer, p); RemoveMembers(s.blocked, p);
      case BlockE => BlockOk(s);
      case SuspendE(ms) =>
        SuspendOk(s, ms);
        InsertMembers(s.timer, TimerSlot(s.pcb, s.timer, AddWord(s.tick, ms)), s.current);
      case ResumeE(p) =>
        if p in s.timer || p in s.blocked {
          ResumeOk(s, p);
          RemoveMembers(s.timer, p);
          RemoveMembers(s.blocked, p);
        }
      case ChangeE(p, priority) => ChangeOk(s, p, priority);
      case TimerE => HandleTimerOk(s);
    }
  }

  // The argument checks of the calls (the ASSERTs and bugchecks on arguments).
  ghost predicate WellCalled<P>(s: Sched<P>, e: Event<P>)
    requires Inv(s) && Legal(s, e)
  {
    match e
    case StartE(p) => s.pcb[p].priority < LEVELS
    case StopE(p) => s.pcb[p].state != Created
    case ResumeE(p) => p in s.timer || p in s.blocked
    case ChangeE(p, priority) => priority < LEVELS && s.pcb[p].state != Created
    case _ => true
  }

  ghost predicate SparesIdleRun<P>(s: Sched<P>, es: seq<Event<P>>, idle: P)
    requires Inv(s) && LegalRun(s, es)
    decreases |es|
  {
    es == [] ||
    (WellCalled(s, es[0]) && SparesIdle(s, es[0], idle) &&
     (StepOk(s, es[0]); Step(s, es[0]).Continues? ==> SparesIdleRun(Step(s, es[0]).value, es[1..], idle)))
  }

  // No run that spares the idle process and checks its arguments ever halts.
  lemma {:induction false} IdleRunNeverHalts<P>(s: Sched<P>, es: seq<Event<P>>, idle: P)
    requires Inv(s) && LegalRun(s, es) && IdleAwake(s, idle) && SparesIdleRun(s, es, idle)
    ensures Run(s, es).Continues? && IdleAwake(Run(s, es).value, idle)
    decreases |es|
  {
    if es != [] {
      StepOk(s, es[0]);
      IdleStaysAwake(s, es[0], idle);
      IdleRunNeverHalts(Step(s, es[0]).value, es[1..], idle);
    }
  }
}
