// The waiter of base/apps/waiter.c, working on its own variables, and the loop of
// base/apps/philosopher.c. Both are tied to the turns of the protocol.

module WaiterProgram {
  import opened Lists
  import opened Words
  import opened Philosophers
  import opened PhilosopherRuns

  // The waiter's variables after a list of messages, and the philosophers it
  // answers, in order.
  function AnsweredAll(d: Desk, ms: seq<Mess>): (r: Desk)
    requires forall k :: 0 <= k < |ms| ==> ms[k].fork < |d.free|
    ensures |r.free| == |d.free|
  {
    if ms == [] then d
    else Answered(AnsweredAll(d, ms[..|ms| - 1]), ms[|ms| - 1])
  }

  function RepliesTo(d: Desk, ms: seq<Mess>): seq<nat>
    requires forall k :: 0 <= k < |ms| ==> ms[k].fork < |d.free|
  {
    if ms == [] then []
    else
      var front, last := ms[..|ms| - 1], ms[|ms| - 1];
      RepliesTo(d, front) + if Grants(AnsweredAll(d, front), last) then [last.sender] else []
  }

  class Waiter {
    var forksInUse: nat
    const freeForks: array<bool>

    function Variables(): Desk
      reads this, freeForks
    {
      Desk(forksInUse, freeForks[..])
    }

    constructor (n: nat)
      ensures Variables() == Start(n).desk && fresh(freeForks)
    {
      forksInUse := 0;
      freeForks := new bool[n];
      new;
      for i := 0 to n
        invariant forksInUse == 0 && forall k :: 0 <= k < i ==> freeForks[k]
      {
        freeForks[i] := true;
      }
      assert freeForks[..] == seq(n, _ => true);
    }

    // The body of the message loop: whether the sender is sent a fork.
    method Handle(m: Mess) returns (reply: bool)
      requires m.fork < freeForks.Length
      modifies this, freeForks
      ensures Variables() == Answered(old(Variables()), m)
      ensures reply <==> Grants(old(Variables()), m)
    {
      reply := false;
      if m.kind == Drop {
        forksInUse := if forksInUse == 0 then WORD - 1 else forksInUse - 1;
        freeForks[m.fork] := true;
      }
      if m.kind == Right {
        if freeForks[m.fork] {
          forksInUse := forksInUse + 1;
          freeForks[m.fork] := false;
          reply := true;
        }
      }
      if m.kind == Left {
        if forksInUse < freeForks.Length - 1 && freeForks[m.fork] {
          forksInUse := forksInUse + 1;
          freeForks[m.fork] := false;
          reply := true;
        }
      }
    }

    // The message loop, on the messages it receives.
    method AppWaiter(ms: seq<Mess>) returns (replies: seq<nat>)
      requires forall k :: 0 <= k < |ms| ==> ms[k].fork < freeForks.Length
      modifies this, freeForks
      ensures Variables() == AnsweredAll(old(Variables()), ms)
      ensures replies == RepliesTo(old(Variables()), ms)
    {
      replies := [];
      for k := 0 to |ms|
        invariant Variables() == AnsweredAll(old(Variables()), ms[..k])
        invariant replies == RepliesTo(old(Variables()), ms[..k])
      {
        assert ms[..k + 1][..k] == ms[..k];
        var reply := Handle(ms[k]);
        if reply {
          replies := replies + [ms[k].sender];
        }
      }
      assert ms[..|ms|] == ms;
    }
  }

  // ---------------------------------------------------------------------------
  // The philosopher
  // ---------------------------------------------------------------------------

  // One turn of a philosopher in a phase: the phase it moves to.
  function NextPhase(p: Phase, e: Event): Option<Phase> {
    match e
    case Wake(_) => if p == Thinking then Some(AskingLeft) else None
    case Ask(_) => if p in {AskingLeft, AskingRight} then Some(p) else None
    case Take(_) => if p == AskingLeft then Some(AskingRight) else if p == AskingRight then Some(Eating) else None
    case DropLeft(_) => if p == Eating then Some(Dropping) else None
    case DropRight(_) => if p == Dropping then Some(Thinking) else None
    case Serve => None
  }

  // What philosopher i sends the waiter in that turn.
  function SentIn(p: Phase, e: Event, i: nat, n: nat): seq<Mess>
    requires i < n
  {
    match e
    case Ask(_) => if p == AskingLeft then [Mess(Left, i, i)] else [Mess(Right, RightOf(i, n), i)]
    case DropLeft(_) => [Mess(Drop, i, i)]
    case DropRight(_) => [Mess(Drop, RightOf(i, n), i)]
    case _ => []
  }

  // The phase after the turns ts of a philosopher that starts out thinking; None
  // when a turn is not one of its phase.
  function PhaseAfter(ts: seq<Event>): Option<Phase> {
    if ts == [] then Some(Thinking)
    else match PhaseAfter(ts[..|ts| - 1])
      case None => None
      case Some(p) => NextPhase(p, ts[|ts| - 1])
  }

  function SentBy(ts: seq<Event>, i: nat, n: nat): seq<Mess>
    requires i < n
  {
    if ts == [] then []
    else
      var front := ts[..|ts| - 1];
      SentBy(front, i, n) + if PhaseAfter(front).Some? then SentIn(PhaseAfter(front).value, ts[|ts| - 1], i, n) else []
  }

  lemma {:induction false} OneMoreTurn(ts: seq<Event>, e: Event, i: nat, n: nat)
    requires i < n && PhaseAfter(ts).Some?
    ensures PhaseAfter(ts + [e]) == NextPhase(PhaseAfter(ts).value, e)
    ensures SentBy(ts + [e], i, n) == SentBy(ts, i, n) + SentIn(PhaseAfter(ts).value, e, i, n)
  {
    assert (ts + [e])[..|ts|] == ts;
  }

  lemma {:induction false} NoTurns(i: nat, n: nat)
    requires i < n
    ensures PhaseAfter([]) == Some(Thinking) && SentBy([], i, n) == []
  {
  }

  // The turns of philosopher i, in phase p, whose further receives have the outcomes
  // in arrives: true for a message, false for a timeout.
  function Turns(p: Phase, arrives: seq<bool>, i: nat): seq<Event>
    decreases |arrives|, p == Thinking
  {
    if arrives == [] then []
    else match p
      case Thinking => [Wake(i)] + Turns(AskingLeft, arrives, i)
      case AskingLeft =>
        if arrives[0] then [Ask(i), Take(i)] + Turns(AskingRight, arrives[1..], i)
        else [Ask(i)] + Turns(AskingLeft, arrives[1..], i)
      case AskingRight =>
        if arrives[0] then [Ask(i), Take(i), DropLeft(i), DropRight(i)] + Turns(Thinking, arrives[1..], i)
        else [Ask(i)] + Turns(AskingRight, arrives[1..], i)
      case _ => []
  }

  // What a philosopher does after it got the fork it asked for in phase p, up to the
  // next receive.
  function Afterwards(p: Phase, arrives: seq<bool>, i: nat): seq<Event> {
    if p == AskingLeft then Turns(AskingRight, arrives, i)
        else [DropLeft(i), DropRight(i)] + Turns(Thinking, arrives, i)
  }

  lemma {:induction false} OneMoreReceive(p: Phase, arrives: seq<bool>, k: nat, i: nat, ts: seq<Event>)
    requires p in {AskingLeft, AskingRight} && k < |arrives|
    ensures ts + Turns(p, arrives[k..], i) ==
            if arrives[k] then (ts + [Ask(i)] + [Take(i)]) + Afterwards(p, arrives[k + 1..], i)
            else (ts + [Ask(i)]) + Turns(p, arrives[k + 1..], i)
  {
    assert arrives[k..][1..] == arrives[k + 1..];
    if p == AskingRight && arrives[k] {
      assert [Ask(i), Take(i), DropLeft(i), DropRight(i)] == [Ask(i), Take(i)] + [DropLeft(i), DropRight(i)];
    }
  }

  // The request loop: message m is sent until a receive succeeds, or there are no
  // more outcomes. The turns so far are ts0, and then ts.
  method RequestFork(i: nat, n: nat, m: Mess, arrives: seq<bool>, k0: nat, sent0: seq<Mess>, ghost ts0: seq<Event>)
    returns (k: nat, sent: seq<Mess>, got: bool, ghost ts: seq<Event>)
    requires i < n && k0 <= |arrives| && PhaseAfter(ts0).Some? && sent0 == SentBy(ts0, i, n)
    requires PhaseAfter(ts0).value in {AskingLeft, AskingRight} && [m] == SentIn(PhaseAfter(ts0).value, Ask(i), i, n)
    ensures k0 <= k <= |arrives| && sent == SentBy(ts, i, n) && (got ==> k0 < k)
    ensures PhaseAfter(ts) == if got then NextPhase(PhaseAfter(ts0).value, Take(i)) else PhaseAfter(ts0)
    ensures var p := PhaseAfter(ts0).value;
            ts0 + Turns(p, arrives[k0..], i) == if got then ts + Afterwards(p, arrives[k..], i) else ts
  {
    hide PhaseAfter, SentBy, Turns, Afterwards;
    k, sent, got, ts := k0, sent0, false, ts0;
    ghost var p := PhaseAfter(ts0).value;
    while !got && k < |arrives|
      invariant k0 <= k <= |arrives| && (got ==> k0 < k)
      invariant sent == SentBy(ts, i, n) && PhaseAfter(ts) == if got then NextPhase(p, Take(i)) else PhaseAfter(ts0)
      invariant ts0 + Turns(p, arrives[k0..], i)
             == if got then ts + Afterwards(p, arrives[k..], i) else ts + Turns(p, arrives[k..], i)
    {
      OneMoreTurn(ts, Ask(i), i, n);
      OneMoreReceive(p, arrives, k, i, ts);
      sent := sent + [m];
      ts := ts + [Ask(i)];
      got := arrives[k];
      if got {
        OneMoreTurn(ts, Take(i), i, n);
        ts := ts + [Take(i)];
        assert sent + [] == sent;
      }
      k := k + 1;
    }
    if !got {
      NoReceive(p, arrives[k..], i, ts);
    }
  }

  lemma {:induction false} NoReceive(p: Phase, arrives: seq<bool>, i: nat, ts: seq<Event>)
    requires arrives == []
    ensures ts + Turns(p, arrives, i) == ts
  {
  }

  lemma {:induction false} WakeFirst(arrives: seq<bool>, i: nat, ts: seq<Event>)
    requires arrives != []
    ensures ts + Turns(Thinking, arrives, i) == (ts + [Wake(i)]) + Turns(AskingLeft, arrives, i)
  {
  }

  lemma {:induction false} DropThen(ts: seq<Event>, arrives: seq<bool>, i: nat)
    ensures ts + Afterwards(AskingRight, arrives, i)
        == (ts + [DropLeft(i)] + [DropRight(i)]) + Turns(Thinking, arrives, i)
  {
    assert [DropLeft(i), DropRight(i)] == [DropLeft(i)] + [DropRight(i)];
  }

  // AppPhilosopher: while the outcomes of its receives last it sends exactly what a
  // philosopher of the protocol sends in the turns that belong to them, and those
  // turns are in order.
  method AppPhilosopher(i: nat, n: nat, arrives: seq<bool>) returns (sent: seq<Mess>)
    requires i < n
    ensures PhaseAfter(Turns(Thinking, arrives, i)).Some?
    ensures sent == SentBy(Turns(Thinking, arrives, i), i, n)
  {
    hide PhaseAfter, SentBy, Turns, Afterwards;
    var k, got := 0, true;
    sent := [];
    ghost var ts: seq<Event> := [];
    NoTurns(i, n);
    while k < |arrives|
      invariant 0 <= k <= |arrives| && PhaseAfter(ts) == Some(Thinking) && sent == SentBy(ts, i, n)
      invariant ts + Turns(Thinking, arrives[k..], i) == Turns(Thinking, arrives, i)
      decreases |arrives| - k
    {
      OneMoreTurn(ts, Wake(i), i, n);
      WakeFirst(arrives[k..], i, ts);
      ts := ts + [Wake(i)];
      k, sent, got, ts := RequestFork(i, n, Mess(Left, i, i), arrives, k, sent, ts);
      if !got {
        return;
      }
      AskRight(arrives[k..], i);
      k, sent, got, ts := RequestFork(i, n, Mess(Right, RightOf(i, n), i), arrives, k, sent, ts);
      if !got {
        return;
      }
      DropThen(ts, arrives[k..], i);
      OneMoreTurn(ts, DropLeft(i), i, n);
      sent := sent + [Mess(Drop, i, i)];
      ts := ts + [DropLeft(i)];
      OneMoreTurn(ts, DropRight(i), i, n);
      sent := sent + [Mess(Drop, RightOf(i, n), i)];
      ts := ts + [DropRight(i)];
    }
    NoReceive(Thinking, arrives[k..], i, ts);
  }

  lemma {:induction false} AskRight(arrives: seq<bool>, i: nat)
    ensures Afterwards(AskingLeft, arrives, i) == Turns(AskingRight, arrives, i)
  {
  }

  // ---------------------------------------------------------------------------
  // Runs of the protocol are made of such turns
  // ---------------------------------------------------------------------------

  // The turns of philosopher i in a run.
  function Own(es: seq<Event>, i: nat): seq<Event> {
    if es == [] then []
    else Own(es[..|es| - 1], i) + OwnPart(es[|es| - 1], i)
  }

  // The messages of philosopher i.
  function From(ms: seq<Mess>, i: nat): seq<Mess> {
    if ms == [] then []
    else From(ms[..|ms| - 1], i) + if ms[|ms| - 1].sender == i then [ms[|ms| - 1]] else []
  }

  lemma {:induction false} RunSnoc(w: World, es: seq<Event>)
    requires WellFormed(w) && LegalRun(w, es) && es != []
    ensures LegalRun(w, es[..|es| - 1]) && Legal(Run(w, es[..|es| - 1]), es[|es| - 1])
    ensures Run(w, es) == Step(Run(w, es[..|es| - 1]), es[|es| - 1])
    decreases |es|
  {
    if |es| > 1 {
      RunSnoc(Step(w, es[0]), es[1..]);
      assert es[1..][..|es| - 2] == es[..|es| - 1][1..];
    }
  }

  // The messages the waiter has received in a run from w.
  ghost function Received(w: World, es: seq<Event>): seq<Mess>
    requires WellFormed(w) && LegalRun(w, es)
    decreases |es|
  {
    if es == [] then []
    else
      RunSnoc(w, es);
      var front := es[..|es| - 1];
      Received(w, front) + ReceivedPart(Run(w, front), es[|es| - 1])
  }

  function OwnPart(e: Event, i: nat): seq<Event> {
    if !e.Serve? && e.i == i then [e] else []
  }

  function ReceivedPart(w: World, e: Event): seq<Mess>
    requires Legal(w, e)
  {
    if e.Serve? then [w.mailbox[0]] else []
  }

  lemma {:induction false} OneMoreMessage(ms: seq<Mess>, m: Mess, i: nat)
    ensures From(ms + [m], i) == From(ms, i) + if m.sender == i then [m] else []
  {
    assert (ms + [m])[..|ms|] == ms;
  }

  // One step keeps philosopher i in line with its turns ts.
  lemma {:induction false} StepFollows(w: World, e: Event, ts: seq<Event>, sent: seq<Mess>, i: nat)
    requires WellFormed(w) && Legal(w, e) && i < |w.phils| && PhaseAfter(ts) == Some(w.phils[i].phase)
    requires SentBy(ts, i, |w.phils|) == From(sent + w.mailbox, i)
    ensures PhaseAfter(ts + OwnPart(e, i)) == Some(Step(w, e).phils[i].phase)
    ensures SentBy(ts + OwnPart(e, i), i, |w.phils|) == From(sent + ReceivedPart(w, e) + Step(w, e).mailbox, i)
  {
    hide PhaseAfter, SentBy, From, Grants;
    var n, w' := |w.phils|, Step(w, e);
    if e.Serve? {
      assert sent + [w.mailbox[0]] + w'.mailbox == sent + w.mailbox;
      assert ts + [] == ts;
    } else {
      var out := SentIn(w.phils[e.i].phase, e, e.i, n);
      assert w'.mailbox == w.mailbox + out;
      assert sent + [] + w'.mailbox == sent + w.mailbox + out;
      if out != [] {
        OneMoreMessage(sent + w.mailbox, out[0], i);
      } else {
        assert sent + w.mailbox + out == sent + w.mailbox;
      }
      if e.i == i {
        OneMoreTurn(ts, e, i, n);
      } else {
        assert ts + [] == ts;
      }
    }
  }

  // In every run a philosopher's phase is the one its turns lead to, and what it
  // has sent is what the waiter has received from it and what is still queued.
  lemma {:induction false} RunsFollowTheProgram(n: nat, es: seq<Event>, i: nat)
    requires n >= 2 && LegalRun(Start(n), es) && i < n
    ensures |Run(Start(n), es).phils| == n
    ensures PhaseAfter(Own(es, i)) == Some(Run(Start(n), es).phils[i].phase)
    ensures SentBy(Own(es, i), i, n) == From(Received(Start(n), es) + Run(Start(n), es).mailbox, i)
    decreases |es|
  {
    hide PhaseAfter, SentBy, From, Inv, WellFormed, Step, Legal;
    StartOk(n);
    RunOk(Start(n), es);
    if es == [] {
      NoTurns(i, n);
      NoMessages(i);
      assert Received(Start(n), es) + Run(Start(n), es).mailbox == [];
    } else {
      var front, e := es[..|es| - 1], es[|es| - 1];
      RunSnoc(Start(n), es);
      RunsFollowTheProgram(n, front, i);
      StepFollows(Run(Start(n), front), e, Own(front, i), Received(Start(n), front), i);
    }
  }

  lemma {:induction false} NoMessages(i: nat)
    ensures From([], i) == []
  {
  }

  // The waiter of the protocol works through its mailbox as AppWaiter does.
  lemma {:induction false} ServingIsAppWaiter(n: nat, es: seq<Event>)
    requires n >= 2 && LegalRun(Start(n), es)
    ensures forall k :: 0 <= k < |Received(Start(n), es)| ==> Received(Start(n), es)[k].fork < n
    ensures Run(Start(n), es).desk == AnsweredAll(Start(n).desk, Received(Start(n), es))
    decreases |es|
  {
    hide Inv, Legal;
    StartOk(n);
    if es != [] {
      var front, e := es[..|es| - 1], es[|es| - 1];
      RunSnoc(Start(n), es);
      RunOk(Start(n), front);
      ServingIsAppWaiter(n, front);
      StepAnswers(Run(Start(n), front), e, Start(n).desk, Received(Start(n), front));
    }
  }

  lemma {:induction false} StepAnswers(w: World, e: Event, d: Desk, sent: seq<Mess>)
    requires WellFormed(w) && Legal(w, e)
    requires |d.free| == |w.phils| && (forall k :: 0 <= k < |sent| ==> sent[k].fork < |d.free|)
    requires w.desk == AnsweredAll(d, sent)
    ensures var r := sent + ReceivedPart(w, e);
            (forall k :: 0 <= k < |r| ==> r[k].fork < |d.free|) && Step(w, e).desk == AnsweredAll(d, r)
  {
    if e.Serve? {
      assert (sent + [w.mailbox[0]])[..|sent|] == sent;
    } else {
      assert sent + [] == sent;
    }
  }
}
