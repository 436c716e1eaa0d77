// Fair runs of the dining philosophers: as long as nobody starts anew, everybody
// who keeps asking, taking and dropping, with a waiter that keeps serving, comes to
// eat and to think again.

module PhilosopherProgress {
  import opened Philosophers
  import opened PhilosopherRuns

  function Serves(es: seq<Event>): nat {
    if es == [] then 0 else (if es[0].Serve? then 1 else 0) + Serves(es[1..])
  }

  predicate NoWakes(es: seq<Event>) {
    forall k :: 0 <= k < |es| ==> !es[k].Wake?
  }

  ghost predicate NoDrops(m: seq<Mess>) {
    forall k :: 0 <= k < |m| ==> m[k].kind != Drop
  }

  // ---------------------------------------------------------------------------
  // The distance to go never grows
  // ---------------------------------------------------------------------------

  // Without waking up nobody gets farther from thinking again. Only asking, and
  // serving without a grant, leave all philosophers as they are.
  lemma {:induction false} StepTotal(w: World, e: Event)
    requires Inv(w) && Legal(w, e) && !e.Wake?
    ensures Total(Step(w, e).phils) <= Total(w.phils)
    ensures Total(Step(w, e).phils) == Total(w.phils) ==>
            (e.Ask? || (e.Serve? && !Grants(w.desk, w.mailbox[0]))) && Step(w, e).phils == w.phils
  {
    hide ForksOk, Shape, ViewOf, Used, Total;
    if e.Serve? {
      if Grants(w.desk, w.mailbox[0]) {
        GrantIsCurrent(w);
        var i := w.mailbox[0].sender;
        TotalSet(w.phils, i, Step(w, e).phils[i]);
      }
    } else {
      assert PhilOk(w, e.i);
      TotalSet(w.phils, e.i, Step(w, e).phils[e.i]);
    }
  }

  lemma {:induction false} RunTotal(w: World, es: seq<Event>)
    requires Inv(w) && LegalRun(w, es) && NoWakes(es)
    ensures Inv(Run(w, es)) && Total(Run(w, es).phils) <= Total(w.phils)
    decreases |es|
  {
    hide PhilOk, ForksOk, Used, Views;
    if es != [] {
      StepTotal(w, es[0]);
      StepOk(w, es[0]);
      RunTotal(Step(w, es[0]), es[1..]);
    }
  }

  // A run that brings nobody closer starts with asking or with serving in vain.
  lemma {:induction false} StillStep(w: World, es: seq<Event>)
    requires Inv(w) && LegalRun(w, es) && NoWakes(es) && es != []
    requires Total(Run(w, es).phils) == Total(w.phils)
    ensures es[0].Ask? || (es[0].Serve? && !Grants(w.desk, w.mailbox[0]))
    ensures Inv(Step(w, es[0])) && Step(w, es[0]).phils == w.phils && NoWakes(es[1..])
  {
    hide PhilOk, ForksOk, Used, Views;
    StepTotal(w, es[0]);
    StepOk(w, es[0]);
    RunTotal(Step(w, es[0]), es[1..]);
  }

  lemma {:induction false} StillRun(w: World, es: seq<Event>)
    requires Inv(w) && LegalRun(w, es) && NoWakes(es) && Total(Run(w, es).phils) == Total(w.phils)
    ensures Run(w, es).phils == w.phils
    ensures forall k :: 0 <= k < |es| ==> es[k].Ask? || es[k].Serve?
    decreases |es|
  {
    hide PhilOk, ForksOk, Used, Views;
    if es != [] {
      StillStep(w, es);
      StillRun(Step(w, es[0]), es[1..]);
      assert forall k :: 0 < k < |es| ==> es[k] == es[1..][k - 1];
    }
  }

  // ---------------------------------------------------------------------------
  // A fair round brings somebody closer
  // ---------------------------------------------------------------------------

  // Once the first k messages are served, there is no drop message left.
  lemma {:induction false} OldDropsServed(w: World, es: seq<Event>, k: nat)
    requires Inv(w) && LegalRun(w, es) && NoWakes(es) && Total(Run(w, es).phils) == Total(w.phils)
    requires k <= |w.mailbox| && NoDrops(w.mailbox[k..]) && Serves(es) >= k
    ensures NoDrops(Run(w, es).mailbox)
    decreases |es|
  {
    hide PhilOk, ForksOk, Used, Views;
    if es == [] {
      assert w.mailbox[k..] == w.mailbox;
    } else {
      StillStep(w, es);
      var u := Step(w, es[0]);
      if es[0].Serve? {
        assert k > 0 ==> u.mailbox[k - 1..] == w.mailbox[k..];
        assert k == 0 ==> u.mailbox == w.mailbox[0..][1..];
        OldDropsServed(u, es[1..], if k > 0 then k - 1 else 0);
      } else {
        assert u.mailbox[k..] == w.mailbox[k..] + [u.mailbox[|w.mailbox|]];
        OldDropsServed(u, es[1..], k);
      }
    }
  }

  // A request at place j of the mailbox that the waiter would grant is granted once
  // it is served, unless somebody came closer before.
  lemma {:induction false} RequestIsServed(w: World, es: seq<Event>, j: nat)
    requires Inv(w) && LegalRun(w, es) && NoWakes(es) && NoDrops(w.mailbox)
    requires j < |w.mailbox| && Grants(w.desk, w.mailbox[j]) && Serves(es) > j
    ensures Total(Run(w, es).phils) < Total(w.phils)
    decreases |es|
  {
    hide PhilOk, ForksOk, Used, Views;
    RunTotal(w, es);
    if Total(Run(w, es).phils) == Total(w.phils) {
      StillStep(w, es);
      var u := Step(w, es[0]);
      if es[0].Serve? {
        assert u.desk == w.desk && j > 0;
        assert forall k :: 0 <= k < |u.mailbox| ==> u.mailbox[k] == w.mailbox[k + 1];
        RequestIsServed(u, es[1..], j - 1);
      } else {
        assert u.mailbox[j] == w.mailbox[j];
        RequestIsServed(u, es[1..], j);
      }
    }
  }

  lemma {:induction false} MailboxShrinks(w: World, es: seq<Event>)
    requires WellFormed(w) && LegalRun(w, es)
    ensures |Run(w, es).mailbox| + Serves(es) >= |w.mailbox|
    decreases |es|
  {
    if es != [] {
      MailboxShrinks(Step(w, es[0]), es[1..]);
    }
  }

  lemma {:induction false} ServesAppend(es: seq<Event>, fs: seq<Event>)
    ensures Serves(es + fs) == Serves(es) + Serves(fs)
  {
    if es == [] {
      assert es + fs == fs;
    } else {
      assert (es + fs)[1..] == es[1..] + fs;
      ServesAppend(es[1..], fs);
    }
  }

  // The request of philosopher i for a fork it can have.
  ghost function Request(w: World, i: nat): Mess
    requires i < |w.phils|
  {
    if w.phils[i].phase == AskingLeft then Mess(Left, i, i) else Mess(Right, RightOf(i, |w.phils|), i)
  }

  // Philosopher i asks in b, and c serves what is then in the mailbox.
  lemma {:induction false} AskedAndServed(w: World, b: seq<Event>, c: seq<Event>, i: nat)
    requires Inv(w) && LegalRun(w, b) && LegalRun(Run(w, b), c) && NoWakes(b) && NoWakes(c) && NoDrops(w.mailbox)
    requires i < |w.phils| && w.phils[i].phase in {AskingLeft, AskingRight} && Grants(w.desk, Request(w, i))
    requires Ask(i) in b && Serves(c) >= |Run(w, b).mailbox|
    ensures Total(Run(Run(w, b), c).phils) < Total(w.phils)
    decreases |b|
  {
    hide PhilOk, ForksOk, Used, Views;
    RunTotal(w, b);
    RunTotal(Run(w, b), c);
    if Total(Run(w, b).phils) == Total(w.phils) {
      StillStep(w, b);
      var u := Step(w, b[0]);
      if b[0] == Ask(i) {
        assert u.mailbox == w.mailbox + [Request(w, i)];
        MailboxShrinks(u, b[1..]);
        RunAppend(u, b[1..], c);
        ServesAppend(b[1..], c);
        RequestIsServed(u, b[1..] + c, |w.mailbox|);
      } else if b[0].Serve? && w.mailbox[0] == Request(w, i) {
        assert false;
      } else {
        assert u.desk == w.desk && NoDrops(u.mailbox);
        AskedAndServed(u, b[1..], c, i);
      }
    }
  }

  // A round is fair to everybody: the waiter serves what is in the mailbox, while
  // whoever eats, drops or has a grant acts on it; then everybody who asks asks
  // again; and then the waiter serves what is in the mailbox once more. Anything
  // else may happen besides, in any order, but waking up.
  datatype Round = Round(a: seq<Event>, b: seq<Event>, c: seq<Event>)

  ghost predicate Fair(w: World, r: Round)
    requires WellFormed(w)
  {
    && LegalRun(w, r.a) && LegalRun(Run(w, r.a), r.b) && LegalRun(Run(Run(w, r.a), r.b), r.c)
    && NoWakes(r.a) && NoWakes(r.b) && NoWakes(r.c)
    && Serves(r.a) >= |w.mailbox|
    && (forall i :: 0 <= i < |w.phils| ==>
          && (w.phils[i].phase == Eating ==> DropLeft(i) in r.a)
          && (w.phils[i].phase == Dropping ==> DropRight(i) in r.a)
          && (w.phils[i].phase in {AskingLeft, AskingRight} && w.phils[i].replies != [] ==> Take(i) in r.a))
    && (forall i :: 0 <= i < |w.phils| && Run(w, r.a).phils[i].phase in {AskingLeft, AskingRight} ==> Ask(i) in r.b)
    && Serves(r.c) >= |Run(Run(w, r.a), r.b).mailbox|
  }

  ghost function After(w: World, r: Round): (u: World)
    requires WellFormed(w) && Fair(w, r)
    ensures WellFormed(u) && |u.phils| == |w.phils|
  {
    Run(Run(Run(w, r.a), r.b), r.c)
  }

  // Nothing happened in the first part: nobody has anything left to do but to ask.
  lemma {:induction false} QuietRound(w: World, r: Round, i: nat)
    requires Inv(w) && Fair(w, r) && Total(Run(w, r.a).phils) == Total(w.phils) && i < |w.phils|
    ensures Run(w, r.a).phils == w.phils && NoDrops(Run(w, r.a).mailbox)
    ensures w.phils[i].phase in {Thinking, AskingLeft, AskingRight}
    ensures w.phils[i].phase in {AskingLeft, AskingRight} ==> w.phils[i].replies == []
  {
    hide PhilOk, ForksOk, Used, Views;
    StillRun(w, r.a);
    OldDropsServed(w, r.a, |w.mailbox|);
  }

  // No livelock: a fair round brings somebody closer to thinking again, unless
  // everybody thinks.
  lemma {:induction false} FairRoundsProgress(w: World, r: Round)
    requires Inv(w) && Fair(w, r)
    ensures Inv(After(w, r))
    ensures || Total(After(w, r).phils) < Total(w.phils)
            || (forall i :: 0 <= i < |w.phils| ==> w.phils[i].phase == Thinking)
  {
    hide PhilOk, ForksOk, Used, Views;
    var u := Run(w, r.a);
    RunTotal(w, r.a);
    RunTotal(u, r.b);
    RunTotal(Run(u, r.b), r.c);
    if x :| 0 <= x < |w.phils| && w.phils[x].phase != Thinking {
      if Total(u.phils) == Total(w.phils) {
        QuietRound(w, r, x);
        SomeoneCanGoOn(u, x);
        var i :| 0 <= i < |u.phils| && CanGoOn(u, i);
        QuietRound(w, r, i);
        AskedAndServed(u, r.b, r.c, i);
      }
    }
  }

  // What philosopher i has to do in the first part of a fair round.
  ghost predicate HasToAct(w: World, i: nat)
    requires i < |w.phils|
  {
    || w.phils[i].phase in {Eating, Dropping}
    || (w.phils[i].phase in {AskingLeft, AskingRight} && w.phils[i].replies != [])
  }

  function Act(p: Phase, i: nat): Event {
    if p == Eating then DropLeft(i) else if p == Dropping then DropRight(i) else Take(i)
  }

  // One more event at the end of a run in which nothing is served.
  lemma {:induction false} Extend(w: World, es: seq<Event>, e: Event)
    requires WellFormed(w) && LegalRun(w, es) && NoWakes(es) && Serves(es) == 0
    requires Legal(Run(w, es), e) && !e.Wake? && !e.Serve?
    ensures LegalRun(w, es + [e]) && Run(w, es + [e]) == Step(Run(w, es), e)
    ensures NoWakes(es + [e]) && Serves(es + [e]) == 0
  {
    assert LegalRun(Step(Run(w, es), e), []) && [e][1..] == [];
    assert LegalRun(Run(w, es), [e]);
    RunAppend(w, es, [e]);
    ServesAppend(es, [e]);
  }

  lemma {:induction false} ActAll(w: World, m: nat) returns (es: seq<Event>)
    requires WellFormed(w) && m <= |w.phils|
    ensures LegalRun(w, es) && NoWakes(es) && Serves(es) == 0
    ensures forall i :: 0 <= i < m && HasToAct(w, i) ==> Act(w.phils[i].phase, i) in es
    ensures forall i :: m <= i < |w.phils| ==> Run(w, es).phils[i] == w.phils[i]
  {
    es := [];
    if m > 0 {
      es := ActAll(w, m - 1);
      if HasToAct(w, m - 1) {
        Extend(w, es, Act(w.phils[m - 1].phase, m - 1));
        es := es + [Act(w.phils[m - 1].phase, m - 1)];
      }
    }
  }

  lemma {:induction false} AskAll(w: World, m: nat) returns (es: seq<Event>)
    requires WellFormed(w) && m <= |w.phils|
    ensures LegalRun(w, es) && NoWakes(es) && Serves(es) == 0
    ensures forall i :: 0 <= i < m && w.phils[i].phase in {AskingLeft, AskingRight} ==> Ask(i) in es
    ensures Run(w, es).phils == w.phils
  {
    es := [];
    if m > 0 {
      es := AskAll(w, m - 1);
      if w.phils[m - 1].phase in {AskingLeft, AskingRight} {
        Extend(w, es, Ask(m - 1));
        es := es + [Ask(m - 1)];
      }
    }
  }

  lemma {:induction false} ServeAll(w: World) returns (es: seq<Event>)
    requires WellFormed(w)
    ensures LegalRun(w, es) && NoWakes(es) && Serves(es) == |w.mailbox|
    decreases |w.mailbox|
  {
    es := [];
    if w.mailbox != [] {
      var rest := ServeAll(Step(w, Serve));
      es := [Serve] + rest;
      assert es[1..] == rest;
    }
  }

  // There is a fair round from every state.
  lemma {:induction false} FairRoundExists(w: World)
    requires WellFormed(w)
    ensures exists r :: Fair(w, r)
  {
    var a1 := ActAll(w, |w.phils|);
    MailboxShrinks(w, a1);
    var a2 := ServeAll(Run(w, a1));
    RunAppend(w, a1, a2);
    ServesAppend(a1, a2);
    var u := Run(w, a1 + a2);
    var b := AskAll(u, |u.phils|);
    var c := ServeAll(Run(u, b));
    forall i | 0 <= i < |w.phils| && HasToAct(w, i) ensures Act(w.phils[i].phase, i) in a1 + a2 {
      assert Act(w.phils[i].phase, i) in a1;
    }
    assert Fair(w, Round(a1 + a2, b, c));
  }

  ghost predicate FairRun(w: World, rs: seq<Round>)
    requires WellFormed(w)
    decreases |rs|
  {
    rs == [] || (Fair(w, rs[0]) && FairRun(After(w, rs[0]), rs[1..]))
  }

  ghost function AfterAll(w: World, rs: seq<Round>): (u: World)
    requires WellFormed(w) && FairRun(w, rs)
    ensures |u.phils| == |w.phils|
    decreases |rs|
  {
    if rs == [] then w else AfterAll(After(w, rs[0]), rs[1..])
  }

  lemma {:induction false} NobodyToGo(phils: seq<Phil>)
    requires forall i :: 0 <= i < |phils| ==> phils[i].phase == Thinking
    ensures Total(phils) == 0
  {
    if phils != [] {
      NobodyToGo(phils[1..]);
    }
  }

  lemma {:induction false} SomebodyToGo(phils: seq<Phil>, i: nat)
    requires i < |phils| && phils[i].phase != Thinking
    ensures Total(phils) > 0
  {
    if i > 0 {
      SomebodyToGo(phils[1..], i - 1);
    }
  }

  lemma {:induction false} TotalBound(phils: seq<Phil>)
    ensures Total(phils) <= 6 * |phils|
  {
    if phils != [] {
      TotalBound(phils[1..]);
    }
  }

  lemma {:induction false} RoundsSuffice(w: World, rs: seq<Round>)
    requires Inv(w) && FairRun(w, rs) && |rs| >= Total(w.phils)
    ensures forall i :: 0 <= i < |w.phils| ==> AfterAll(w, rs).phils[i].phase == Thinking
    decreases |rs|
  {
    hide PhilOk, ForksOk, Used, Views, Fair;
    if rs == [] {
      if i :| 0 <= i < |w.phils| && w.phils[i].phase != Thinking {
        SomebodyToGo(w.phils, i);
      }
    } else {
      FairRoundsProgress(w, rs[0]);
      var u := After(w, rs[0]);
      if Total(u.phils) >= Total(w.phils) {
        NobodyToGo(w.phils);
        RoundNotFarther(w, rs[0]);
      }
      RoundsSuffice(u, rs[1..]);
    }
  }

  lemma {:induction false} RoundNotFarther(w: World, r: Round)
    requires Inv(w) && Fair(w, r)
    ensures Total(After(w, r).phils) <= Total(w.phils)
  {
    hide PhilOk, ForksOk, Used, Views;
    RunTotal(w, r.a);
    RunTotal(Run(w, r.a), r.b);
    RunTotal(Run(Run(w, r.a), r.b), r.c);
  }

  // From every reachable state, 6 n fair rounds in which nobody starts anew see
  // everybody through its meal.
  lemma {:induction false} EverybodyFinishes(n: nat, es: seq<Event>, rs: seq<Round>, i: nat)
    requires n >= 2 && LegalRun(Start(n), es) && FairRun(Run(Start(n), es), rs) && |rs| >= 6 * n && i < n
    ensures |AfterAll(Run(Start(n), es), rs).phils| == n && AfterAll(Run(Start(n), es), rs).phils[i].phase == Thinking
  {
    hide PhilOk, ForksOk, Used, Views, FairRun;
    StartOk(n);
    RunOk(Start(n), es);
    var w := Run(Start(n), es);
    TotalBound(w.phils);
    RoundsSuffice(w, rs);
  }
}
