// What the link field NextPCB of a process holds in an abstract state, and how
// each list operation changes it.

module SchedulerLinks {
  import opened Lists
  import opened SchedulerSpec

  // The process linked behind p, on whichever list p is.
  function Next<P(==)>(s: Sched<P>, p: P): Option<P>
    requires p in s.pcb
  {
    var k := s.pcb[p].priority;
    if k < |s.ready| && p in s.ready[k] then Succ(s.ready[k], p)
    else if p in s.timer then Succ(s.timer, p)
    else Succ(s.blocked, p)
  }

  ghost predicate Unlisted<P>(s: Sched<P>, p: P)
    requires p in s.pcb
  {
    (s.pcb[p].priority < |s.ready| ==> p !in s.ready[s.pcb[p].priority]) && p !in s.timer && p !in s.blocked
  }

  lemma {:induction false} UnlistedIs<P>(s: Sched<P>, p: P)
    requires ListsOk(s) && p in s.pcb
    ensures Unlisted(s, p) <==> !Listed(s, p)
  {
  }

  // Links stay within a list.
  lemma {:induction false} NextIsNear<P>(s: Sched<P>, q: P)
    requires q in s.pcb
    ensures Next(s, q).Some? ==>
            var p := Next(s, q).value; var k := s.pcb[q].priority;
            || (k < |s.ready| && q in s.ready[k] && p in s.ready[k])
            || (!(k < |s.ready| && q in s.ready[k]) && q in s.timer && p in s.timer)
            || (!(k < |s.ready| && q in s.ready[k]) && q !in s.timer && q in s.blocked && p in s.blocked)
  {
    var k := s.pcb[q].priority;
    if k < |s.ready| {
      SuccMember(s.ready[k], q);
    }
    SuccMember(s.timer, q);
    SuccMember(s.blocked, q);
  }

  // The last process of a ready queue gets the new one as its successor.
  lemma {:induction false} EnqueueNext<P>(s: Sched<P>, p: P, q: P)
    requires ListsOk(s) && p in s.pcb && q in s.pcb && Unlisted(s, p) && s.pcb[p].priority < LEVELS
    ensures var l := s.ready[s.pcb[p].priority];
            Next(Enqueue(s, p), q) == if l != [] && q == l[|l| - 1] then Some(p) else Next(s, q)
  {
    var k := s.pcb[p].priority;
    SuccAppend(s.ready[k], p, q);
  }

  lemma {:induction false} DequeueNext<P>(s: Sched<P>, p: P, q: P)
    requires ListsOk(s) && p in s.pcb && q in s.pcb
    requires s.pcb[p].priority < LEVELS && p in s.ready[s.pcb[p].priority]
    ensures Next(Dequeue(s, p), q) ==
            if q == p then None else if Next(s, q) == Some(p) then Next(s, p) else Next(s, q)
  {
    var k := s.pcb[p].priority;
    RemoveMembers(s.ready[k], p);
    NextIsNear(s, q);
    if q != p {
      SuccRemove(s.ready[k], p, q);
    }
  }

  lemma {:induction false} UnblockNext<P>(s: Sched<P>, p: P, q: P)
    requires ListsOk(s) && p in s.pcb && q in s.pcb && (p in s.timer || p in s.blocked)
    ensures Next(Unblock(s, p), q) ==
            if q == p then None else if Next(s, q) == Some(p) then Next(s, p) else Next(s, q)
  {
    var l := if p in s.timer then s.timer else s.blocked;
    RemoveMembers(l, p);
    NextIsNear(s, q);
    if q != p {
      SuccRemove(l, p, q);
    }
  }

  lemma {:induction false} SleepNext<P>(s: Sched<P>, w: nat, q: P)
    requires Core(s) && q in s.pcb
    ensures var i := TimerSlot(s.pcb, s.timer, w);
            Next(SleepUntil(s, w), q) ==
            if q == s.current then (if i < |s.timer| then Some(s.timer[i]) else None)
            else if i > 0 && q == s.timer[i - 1] then Some(s.current)
            else Next(s, q)
  {
    var i := TimerSlot(s.pcb, s.timer, w);
    SuccInsert(s.timer, i, s.current, q);
    InsertMembers(s.timer, i, s.current);
  }

  lemma {:induction false} BlockNext<P>(s: Sched<P>, q: P)
    requires Core(s) && q in s.pcb
    ensures var t := SetState(s.(blocked := [s.current] + s.blocked), s.current, Blocked);
            Next(t, q) == if q == s.current then First(s.blocked) else Next(s, q)
  {
    SuccInsert(s.blocked, 0, s.current, q);
    assert InsertAt(s.blocked, 0, s.current) == [s.current] + s.blocked;
  }

  // ---------------------------------------------------------------------------
  // The link fields of all processes at once
  // ---------------------------------------------------------------------------

  type Links<!P> = map<P, Option<P>>

  ghost predicate LinksOk<P>(s: Sched<P>, links: Links<P>) {
    links.Keys == s.pcb.Keys && forall p {:trigger Next(s, p)} | p in s.pcb :: links[p] == Next(s, p)
  }

  // Unlinking p redirects the link to p, if there is one, and clears its own.
  function Bypass<P(==)>(links: Links<P>, p: P): Links<P>
    requires p in links
  {
    map q | q in links :: if q == p then None else if links[q] == Some(p) then links[p] else links[q]
  }

  lemma {:induction false} EnqueueLinks<P>(s: Sched<P>, links: Links<P>, p: P)
    requires ListsOk(s) && LinksOk(s, links) && p in s.pcb && Unlisted(s, p) && s.pcb[p].priority < LEVELS
    ensures var l := s.ready[s.pcb[p].priority];
            && links[p] == None
            && LinksOk(Append(s, s.pcb[p].priority, p), if l == [] then links else links[l[|l| - 1] := Some(p)])
            && (l != [] ==> l[|l| - 1] in s.pcb && l[|l| - 1] in links && links[l[|l| - 1]] == None)
  {
    var l := s.ready[s.pcb[p].priority];
    var t := Enqueue(s, p);
    assert Next(s, p) == None;
    if l != [] {
      var z := l[|l| - 1];
      assert z in l;
      SuccAt(l, |l| - 1);
      assert Next(s, z) == None;
    }
    forall q | q in t.pcb ensures Next(t, q) == if l != [] && q == l[|l| - 1] then Some(p) else Next(s, q) {
      EnqueueNext(s, p, q);
    }
    SameLinks(t, Append(s, s.pcb[p].priority, p), if l == [] then links else links[l[|l| - 1] := Some(p)]);
  }

  lemma {:induction false} DequeueLinks<P>(s: Sched<P>, links: Links<P>, p: P)
    requires ListsOk(s) && LinksOk(s, links) && p in s.pcb
    requires s.pcb[p].priority < LEVELS && p in s.ready[s.pcb[p].priority]
    ensures LinksOk(Dequeue(s, p), Bypass(links, p))
  {
    var t := Dequeue(s, p);
    assert links[p] == Next(s, p);
    forall q | q in t.pcb ensures Next(t, q) == Bypass(links, p)[q] {
      DequeueNext(s, p, q);
    }
  }

  lemma {:induction false} UnblockLinks<P>(s: Sched<P>, links: Links<P>, p: P)
    requires ListsOk(s) && LinksOk(s, links) && (p in s.timer || p in s.blocked)
    ensures LinksOk(Unblock(s, p), Bypass(links, p))
  {
    var t := Unblock(s, p);
    assert links[p] == Next(s, p);
    forall q | q in t.pcb ensures Next(t, q) == Bypass(links, p)[q] {
      UnblockNext(s, p, q);
    }
  }

  // Taking p off the timer list, where it may not be, or off the blocked list.
  lemma {:induction false} TimerLinks<P>(s: Sched<P>, links: Links<P>, p: P)
    requires ListsOk(s) && LinksOk(s, links)
    ensures p in s.timer ==> p in links
    ensures LinksOk(s.(timer := Remove(s.timer, p)), if p in s.timer then Bypass(links, p) else links)
  {
    if p in s.timer {
      UnblockLinks(s, links, p);
    } else {
      assert s.(timer := Remove(s.timer, p)) == s;
    }
  }

  lemma {:induction false} BlockedLinks<P>(s: Sched<P>, links: Links<P>, p: P)
    requires ListsOk(s) && LinksOk(s, links) && p !in s.timer
    ensures p in s.blocked ==> p in links
    ensures LinksOk(s.(blocked := Remove(s.blocked, p)), if p in s.blocked then Bypass(links, p) else links)
  {
    if p in s.blocked {
      UnblockLinks(s, links, p);
    } else {
      assert s.(blocked := Remove(s.blocked, p)) == s;
    }
  }

  lemma {:induction false} SleepLinks<P>(s: Sched<P>, links: Links<P>, w: nat)
    requires Core(s) && LinksOk(s, links)
    ensures var i := TimerSlot(s.pcb, s.timer, w);
            var links1 := links[s.current := if i < |s.timer| then Some(s.timer[i]) else None];
            LinksOk(SleepUntil(s, w), if i == 0 then links1 else links1[s.timer[i - 1] := Some(s.current)])
  {
    var i := TimerSlot(s.pcb, s.timer, w);
    var t := SleepUntil(s, w);
    assert i > 0 ==> s.timer[i - 1] in s.timer;
    forall q | q in t.pcb ensures Next(t, q) ==
      if q == s.current then (if i < |s.timer| then Some(s.timer[i]) else None)
      else if i > 0 && q == s.timer[i - 1] then Some(s.current)
      else Next(s, q)
    {
      SleepNext(s, w, q);
    }
  }

  lemma {:induction false} BlockLinks<P>(s: Sched<P>, links: Links<P>)
    requires Core(s) && LinksOk(s, links)
    ensures var t := SetState(s.(blocked := [s.current] + s.blocked), s.current, Blocked);
            LinksOk(t, links[s.current := First(s.blocked)])
  {
    var t := SetState(s.(blocked := [s.current] + s.blocked), s.current, Blocked);
    forall q | q in t.pcb ensures Next(t, q) == if q == s.current then First(s.blocked) else Next(s, q) {
      BlockNext(s, q);
    }
  }

  // Links depend on the lists and priorities only.
  lemma {:induction false} SameLinks<P>(s: Sched<P>, t: Sched<P>, links: Links<P>)
    requires LinksOk(s, links) && t.ready == s.ready && t.timer == s.timer && t.blocked == s.blocked
    requires t.pcb.Keys == s.pcb.Keys && forall p | p in s.pcb :: p in t.pcb && t.pcb[p].priority == s.pcb[p].priority
    ensures LinksOk(t, links)
  {
    forall p | p in t.pcb ensures Next(t, p) == Next(s, p) {
    }
  }

  lemma {:induction false} PriorityLinks<P>(s: Sched<P>, links: Links<P>, p: P, priority: nat)
    requires ListsOk(s) && LinksOk(s, links) && p in s.pcb && priority < LEVELS
    requires forall k :: 0 <= k < LEVELS ==> p !in s.ready[k]
    ensures LinksOk(SetPriority(s, p, priority), links)
  {
    var t := SetPriority(s, p, priority);
    forall q | q in t.pcb ensures Next(t, q) == Next(s, q) {
    }
  }

  lemma {:induction false} CreateLinks<P>(s: Sched<P>, links: Links<P>, p: P, priority: nat)
    requires ListsOk(s) && LinksOk(s, links) && p !in s.pcb && !Listed(s, p)
    ensures LinksOk(Create(s, p, priority), links[p := None])
  {
    var t := Create(s, p, priority);
    assert Next(t, p) == None;
    forall q | q in s.pcb ensures Next(t, q) == Next(s, q) {
    }
  }

  // Links on l are successors, and only processes on l link to one on it.
  ghost predicate Threads<P>(links: Links<P>, l: seq<P>) {
    && NoDup(l)
    && (forall q | q in l :: q in links && links[q] == Succ(l, q))
    && (forall q | q in links && links[q].Some? && links[q].value in l :: q in l)
  }

  lemma {:induction false} ListLinks<P>(s: Sched<P>, links: Links<P>)
    requires ListsOk(s) && LinksOk(s, links)
    ensures Threads(links, s.timer) && Threads(links, s.blocked)
  {
    forall q | q in links ensures links[q] == Next(s, q) {
    }
    forall q, l | q in links && l in {s.timer, s.blocked} && links[q].Some? && links[q].value in l ensures q in l {
      NextIsNear(s, q);
    }
  }

  lemma {:induction false} QueueLinks<P>(s: Sched<P>, links: Links<P>, k: nat)
    requires ListsOk(s) && LinksOk(s, links) && k < LEVELS
    ensures Threads(links, s.ready[k])
  {
    forall q | q in s.ready[k] ensures q in links && links[q] == Succ(s.ready[k], q) {
      assert links[q] == Next(s, q);
    }
    forall q | q in links && links[q].Some? && links[q].value in s.ready[k] ensures q in s.ready[k] {
      assert links[q] == Next(s, q);
      NextIsNear(s, q);
    }
  }

  // Exactly the predecessor of p on its list, if it has one, links to p.
  ghost predicate LinkedFrom<P>(links: Links<P>, p: P, before: Option<P>) {
    forall q | q in links :: links[q] == Some(p) <==> before == Some(q)
  }

  lemma {:induction false} OnlyPredecessor<P>(links: Links<P>, l: seq<P>, p: P, before: Option<P>)
    requires Threads(links, l) && Precedes(l, before, p)
    ensures LinkedFrom(links, p, before)
  {
    forall q | q in links ensures links[q] == Some(p) <==> before == Some(q) {
      SuccMember(l, q);
      if before.Some? {
        SuccMember(l, before.value);
        SuccInjective(l, q, before.value);
      } else {
        SuccInjective(l, q, q);
      }
    }
  }

  // What KepDequeueProcess relies on: p follows `before` in its ready queue, or
  // heads it.
  lemma {:induction false} DequeueEffect<P>(s: Sched<P>, links: Links<P>, p: P, before: Option<P>)
    requires ListsOk(s) && LinksOk(s, links) && p in s.pcb
    requires s.pcb[p].priority < LEVELS && Precedes(s.ready[s.pcb[p].priority], before, p)
    ensures p in links && (before.Some? ==> before.value in links && before.value != p)
    ensures LinkedFrom(links, p, before)
    ensures LinksOk(Dequeue(s, p), Bypass(links, p))
    ensures var l := s.ready[s.pcb[p].priority]; var r := Remove(l, p);
            && First(r) == (if before.None? then links[p] else First(l))
            && (r != [] ==> r[|r| - 1] == if l[|l| - 1] == p && before.Some? then before.value else l[|l| - 1])
            && (l[|l| - 1] == p && before.None? ==> r == [])
  {
    var k := s.pcb[p].priority;
    var l := s.ready[k];
    QueueLinks(s, links, k);
    RemoveEnds(l, p);
    DequeueLinks(s, links, p);
    OnlyPredecessor(links, l, p, before);
    if before.Some? {
      SuccMember(l, before.value);
      SuccInjective(l, before.value, l[if |l| > 1 then |l| - 2 else 0]);
    }
  }

  // Redirecting the one link to p and clearing its own is what Bypass does.
  lemma {:induction false} BypassIs<P>(links: Links<P>, p: P, before: Option<P>)
    requires p in links && LinkedFrom(links, p, before) && (before.Some? ==> before.value in links && before.value != p)
    ensures Bypass(links, p) == (if before.None? then links else links[before.value := links[p]])[p := None]
  {
  }

  // ---------------------------------------------------------------------------
  // KepReschedule as its scan, requeueing and dequeueing
  // ---------------------------------------------------------------------------

  // The current process is put back unless it got blocked.
  function Requeued<P>(s: Sched<P>): Sched<P>
    requires QueuesOk(s)
  {
    if s.pcb[s.current].state == Blocked then s else Enqueue(s, s.current)
  }

  // The head of ready queue i becomes current.
  ghost function TakeFirst<P>(s: Sched<P>, i: nat): Sched<P>
    requires ListsOk(s) && i < LEVELS && s.ready[i] != []
  {
    HeadIs(s, i);
    Dequeue(s, s.ready[i][0]).(current := s.ready[i][0])
  }

  lemma {:induction false} HeadIs<P>(s: Sched<P>, i: nat)
    requires ListsOk(s) && i < LEVELS && s.ready[i] != []
    ensures s.ready[i][0] in s.ready[i] && s.ready[i][0] in s.pcb && s.pcb[s.ready[i][0]].priority == i
  {
    assert s.ready[i][0] in s.ready[i];
  }

  lemma {:induction false} HighestReadyIs<P>(ready: seq<seq<P>>, bottom: nat, n: nat, i: int)
    requires bottom - 1 <= i < n <= |ready|
    requires forall k :: i < k < n ==> ready[k] == []
    requires i >= bottom ==> ready[i] != []
    ensures HighestReady(ready, bottom, n) == if i >= bottom then Some(i) else None
  {
    if bottom < n && n - 1 != i {
      HighestReadyIs(ready, bottom, n - 1, i);
    }
  }

  // The scan stopped at level i, below the bottom when nothing was found.
  lemma {:induction false} RescheduleIs<P>(s: Sched<P>, i: int)
    requires QueuesOk(s)
    requires var bottom := if s.pcb[s.current].state == Blocked then 0 else s.pcb[s.current].priority;
             && bottom - 1 <= i < LEVELS
             && (forall k :: i < k < LEVELS ==> s.ready[k] == [])
             && (i >= bottom ==> s.ready[i] != [])
    ensures var bottom := if s.pcb[s.current].state == Blocked then 0 else s.pcb[s.current].priority;
            if i >= bottom then
              && ListsOk(Requeued(s)) && Requeued(s).ready[i] != []
              && TakeFirst(Requeued(s), i).current in TakeFirst(Requeued(s), i).pcb
              && Reschedule(s) == Continues(Dispatch(TakeFirst(Requeued(s), i), TakeFirst(Requeued(s), i).current))
            else if s.pcb[s.current].state == Blocked then Reschedule(s).Halts?
            else Reschedule(s) == Continues(Dispatch(s, s.current))
  {
    var bottom := if s.pcb[s.current].state == Blocked then 0 else s.pcb[s.current].priority;
    HighestReadyIs(s.ready, bottom, LEVELS, i);
    if s.pcb[s.current].state != Blocked {
      EnqueueOk(s, s.current);
    }
    if i >= bottom {
      HeadIs(Requeued(s), i);
    }
  }

  // The states in which the public operations reschedule.
  lemma {:induction false} BlockedIsOk<P>(s: Sched<P>)
    requires Core(s)
    ensures QueuesOk(SetState(s.(blocked := [s.current] + s.blocked), s.current, Blocked))
  {
    var t := SetState(s.(blocked := [s.current] + s.blocked), s.current, Blocked);
    assert t.ready == s.ready;
  }

  lemma {:induction false} RepriorityOk<P>(s: Sched<P>, p: P, priority: nat)
    requires ListsOk(s) && p in s.pcb && !Listed(s, p) && priority < LEVELS
    ensures ListsOk(SetPriority(s, p, priority)) && !Listed(SetPriority(s, p, priority), p)
    ensures Unlisted(SetPriority(s, p, priority), p)
  {
    var t := SetPriority(s, p, priority);
    assert t.ready == s.ready;
  }

  // The place in the timer list depends on the wake-up times on it only.
  lemma {:induction false} SlotAfterIs<P>(pcb: map<P, Pcb>, pcb2: map<P, Pcb>, timer: seq<P>, w: nat, i: nat)
    requires forall p | p in timer :: p in pcb && p in pcb2 && pcb[p].wakeUp == pcb2[p].wakeUp
    requires i < |timer|
    ensures SlotAfter(pcb, timer, w, i) == SlotAfter(pcb2, timer, w, i)
    decreases |timer| - i
  {
    if i + 1 < |timer| && pcb[timer[i + 1]].wakeUp < w {
      SlotAfterIs(pcb, pcb2, timer, w, i + 1);
    }
  }

  lemma {:induction false} TimerSlotIs<P>(s: Sched<P>, w: nat)
    requires Core(s)
    ensures TimerSlot(s.pcb, s.timer, w)
         == TimerSlot(s.pcb[s.current := s.pcb[s.current].(wakeUp := w, state := Blocked)], s.timer, w)
  {
    if s.timer != [] {
      SlotAfterIs(s.pcb, s.pcb[s.current := s.pcb[s.current].(wakeUp := w, state := Blocked)], s.timer, w, 0);
    }
  }

  // Where a scheduled process is, by its State.
  lemma {:induction false} WhereScheduled<P>(s: Sched<P>, p: P)
    requires Core(s) && p in s.pcb && Scheduled(s, p)
    ensures s.pcb[p].state == Running ==> p == s.current && QueuesOk(SetState(s, p, Blocked))
    ensures s.pcb[p].state == Ready ==> s.pcb[p].priority < LEVELS && p in s.ready[s.pcb[p].priority]
    ensures s.pcb[p].state == Blocked ==> p in s.timer || p in s.blocked
  {
  }

  lemma {:induction false} CountTickCore<P>(s: Sched<P>)
    requires Core(s) && s.pcb[s.current].quantum > 0
    ensures Core(CountTick(s)) && CountTick(s).timer == s.timer
  {
    assert CountTick(s).ready == s.ready && CountTick(s).blocked == s.blocked;
  }

  // Resuming the head of the timer list takes it off, and nothing else.
  lemma {:induction false} HeadResumes<P>(s: Sched<P>)
    requires Core(s) && s.timer != []
    ensures s.timer[0] in s.timer && s.timer[0] !in s.timer[1..] && s.timer[0] in s.pcb
    ensures Resume(s, s.timer[0]).Continues? && Core(Resume(s, s.timer[0]).value)
    ensures Resume(s, s.timer[0]).value.timer == s.timer[1..]
  {
    hide Resume;
    ResumeOk(s, s.timer[0]);
    RemoveFirst(s.timer);
  }
}
