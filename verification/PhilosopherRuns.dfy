// What the invariant of the dining philosophers gives over whole runs: forks are
// never shared, repeated requests do no harm, and from every reachable state
// every philosopher can still come to eat.

module PhilosopherRuns {
  import opened Philosophers

  ghost predicate LegalRun(w: World, es: seq<Event>)
    requires WellFormed(w)
    decreases |es|
  {
    es == [] || (Legal(w, es[0]) && LegalRun(Step(w, es[0]), es[1..]))
  }

  ghost function Run(w: World, es: seq<Event>): (w': World)
    requires WellFormed(w) && LegalRun(w, es)
    ensures WellFormed(w') && |w'.phils| == |w.phils|
    decreases |es|
  {
    if es == [] then w else Run(Step(w, es[0]), es[1..])
  }

  lemma {:induction false} RunOk(w: World, es: seq<Event>)
    requires Inv(w) && LegalRun(w, es)
    ensures Inv(Run(w, es)) && |Run(w, es).phils| == |w.phils|
    decreases |es|
  {
    if es != [] {
      StepOk(w, es[0]);
      RunOk(Step(w, es[0]), es[1..]);
    }
  }

  // ---------------------------------------------------------------------------
  // Safety
  // ---------------------------------------------------------------------------

  // Philosopher i has fork f in its hands.
  ghost predicate Uses(w: World, i: nat, f: nat)
    requires i < |w.phils|
  {
    || (f == i && w.phils[i].phase in {AskingRight, Eating})
    || (f == RightOf(i, |w.phils|) && w.phils[i].phase in {Eating, Dropping})
  }

  // What is held is not free.
  lemma {:induction false} HeldIsTaken(w: World, i: nat)
    requires Inv(w) && i < |w.phils|
    ensures HasL(Holding(w, i)) ==> !w.desk.free[i]
    ensures HasR(Holding(w, i)) ==> !w.desk.free[RightOf(i, |w.phils|)]
  {
    assert Views(w)[i] == Holding(w, i);
    assert Before(RightOf(i, |w.phils|), |w.phils|) == i;
  }

  lemma {:induction false} UsesHolds(w: World, i: nat)
    requires Inv(w) && i < |w.phils|
    ensures Uses(w, i, i) ==> HasL(Holding(w, i))
    ensures Uses(w, i, RightOf(i, |w.phils|)) ==> HasR(Holding(w, i))
  {
    assert PhilOk(w, i);
    ShapeEnds(w.mailbox, i, |w.phils|, Holding(w, i), w.phils[i].phase, EndView(w.phils[i]));
  }

  // No fork is in two hands, and none in use is free for the waiter to grant.
  lemma {:induction false} ForksAreExclusive(n: nat, es: seq<Event>, i: nat, j: nat, f: nat)
    requires n >= 2 && LegalRun(Start(n), es) && i < n && j < n
    ensures var w := Run(Start(n), es);
            && |w.phils| == |w.desk.free| == n
            && (Uses(w, i, f) && Uses(w, j, f) ==> i == j)
            && (Uses(w, i, f) ==> f < n && !w.desk.free[f])
  {
    StartOk(n);
    RunOk(Start(n), es);
    var w := Run(Start(n), es);
    UsesHolds(w, i);
    UsesHolds(w, j);
    assert Views(w)[i] == Holding(w, i) && Views(w)[j] == Holding(w, j);
    assert Before(RightOf(i, n), n) == i && Before(RightOf(j, n), n) == j;
    assert Uses(w, i, f) ==> Uses(w, i, i) || Uses(w, i, RightOf(i, n));
  }

  // Neighbours never eat at the same time.
  lemma {:induction false} NeighboursDoNotEat(n: nat, es: seq<Event>, i: nat)
    requires n >= 2 && LegalRun(Start(n), es) && i < n
    ensures var w := Run(Start(n), es);
            |w.phils| == n && !(w.phils[i].phase == Eating && w.phils[RightOf(i, n)].phase == Eating)
  {
    ForksAreExclusive(n, es, i, RightOf(i, n), RightOf(i, n));
  }

  // forksInUse counts the forks that are not free and never underflows, and every
  // philosopher has at most one grant waiting, for the fork it is asking for.
  lemma {:induction false} WaiterCountsForks(n: nat, es: seq<Event>)
    requires n >= 2 && LegalRun(Start(n), es)
    ensures var w := Run(Start(n), es);
            && |w.phils| == |w.desk.free| == n
            && w.desk.inUse == Used(w.desk.free)
            && (w.mailbox != [] && w.mailbox[0].kind == Drop ==> w.desk.inUse > 0 && !w.desk.free[w.mailbox[0].fork])
            && forall i :: 0 <= i < n ==> RepliesOk(w.phils[i], i, n)
  {
    hide Shape, LegalRun, Run, ForksOk, Used, RepliesOk;
    StartOk(n);
    RunOk(Start(n), es);
    var w := Run(Start(n), es);
    forall i | 0 <= i < n ensures RepliesOk(w.phils[i], i, n) {
      assert PhilOk(w, i);
    }
    if w.mailbox != [] && w.mailbox[0].kind == Drop {
      DropIsCounted(w);
    }
  }

  // The fork of a drop message that is served next is in use, and counted.
  lemma {:induction false} DropIsCounted(w: World)
    requires Inv(w) && w.mailbox != [] && w.mailbox[0].kind == Drop
    ensures w.desk.inUse > 0 && !w.desk.free[w.mailbox[0].fork]
  {
    var m := w.mailbox[0];
    assert PhilOk(w, m.sender) && Views(w)[m.sender] == Holding(w, m.sender);
    assert Before(RightOf(m.sender, |w.phils|), |w.phils|) == m.sender;
    UsedSet(w.desk.free, m.fork, true);
  }

  // A fork that is no longer held at the end is dropped on the way.
  lemma {:induction false} DropFollows(m: seq<Mess>, i: nat, n: nat, v: View, p: Phase, end: View)
    requires i < n && Shape(m, i, n, v, p, end)
    ensures HasL(v) && !HasL(end) ==> exists j :: 0 <= j < |m| && m[j] == Mess(Drop, i, i)
    ensures HasR(v) && !HasR(end) ==> exists j :: 0 <= j < |m| && m[j] == Mess(Drop, RightOf(i, n), i)
  {
    if m != [] {
      var next := if m[0].sender == i && m[0].kind == Drop then (if v == HasBoth then HasRight else Nothing) else v;
      DropFollows(m[1..], i, n, next, p, end);
      if HasL(v) && !HasL(end) && HasL(next) {
        var j :| 0 <= j < |m[1..]| && m[1..][j] == Mess(Drop, i, i);
        assert m[j + 1] == Mess(Drop, i, i);
      } else if HasL(v) && !HasL(end) {
        assert m[0] == Mess(Drop, i, i);
      }
      if HasR(v) && !HasR(end) && HasR(next) {
        var j :| 0 <= j < |m[1..]| && m[1..][j] == Mess(Drop, RightOf(i, n), i);
        assert m[j + 1] == Mess(Drop, RightOf(i, n), i);
      } else if HasR(v) && !HasR(end) {
        assert m[0] == Mess(Drop, RightOf(i, n), i);
      }
    }
  }

  // The asking phase a request belongs to.
  function AskedIn(k: Kind): Phase {
    if k == Left then AskingLeft else AskingRight
  }

  lemma {:induction false} StaleInShape(m: seq<Mess>, i: nat, n: nat, v: View, p: Phase, end: View, k: nat)
    requires i < n && Shape(m, i, n, v, p, end) && k < |m|
    requires m[k].sender == i && m[k].kind != Drop && p != AskedIn(m[k].kind)
    ensures m[k].fork == if m[k].kind == Left then i else RightOf(i, n)
    ensures if m[k].kind == Left then HasL(v) else HasR(v)
    ensures || (if m[k].kind == Left then HasL(end) else HasR(end))
            || exists j :: k < j < |m| && m[j] == Mess(Drop, m[k].fork, i)
  {
    var next := if m[0].sender == i && m[0].kind == Drop then (if v == HasBoth then HasRight else Nothing) else v;
    if k > 0 {
      StaleInShape(m[1..], i, n, next, p, end, k - 1);
      if j :| k - 1 < j < |m[1..]| && m[1..][j] == Mess(Drop, m[k].fork, i) {
        assert m[j + 1] == Mess(Drop, m[k].fork, i);
      }
    } else {
      DropFollows(m[1..], i, n, v, p, end);
      if j :| 0 <= j < |m[1..]| && m[1..][j] == Mess(Drop, m[k].fork, i) {
        assert m[j + 1] == Mess(Drop, m[k].fork, i);
      }
    }
  }

  // A request that its sender no longer waits for is harmless: the fork is not
  // free, and it stays so until after the request is served, because the sender
  // has it in its hands or the drop message comes behind the request.
  lemma {:induction false} StaleRequestsAreHarmless(n: nat, es: seq<Event>, k: nat)
    requires n >= 2 && LegalRun(Start(n), es)
    requires var w := Run(Start(n), es);
             k < |w.mailbox| && w.mailbox[k].kind != Drop && w.mailbox[k].sender < |w.phils|
             && w.phils[w.mailbox[k].sender].phase != AskedIn(w.mailbox[k].kind)
    ensures var w := Run(Start(n), es); var m := w.mailbox[k];
            && m.fork < |w.desk.free| && !w.desk.free[m.fork]
            && (|| Uses(w, m.sender, m.fork)
                || exists j :: k < j < |w.mailbox| && w.mailbox[j] == Mess(Drop, m.fork, m.sender))
  {
    hide LegalRun, Run, Used, ForksOk, Shape;
    StartOk(n);
    RunOk(Start(n), es);
    var w := Run(Start(n), es);
    var i := w.mailbox[k].sender;
    assert PhilOk(w, i);
    HeldIsTaken(w, i);
    StaleInShape(w.mailbox, i, n, Holding(w, i), w.phils[i].phase, EndView(w.phils[i]), k);
  }

  // A request that is granted is the one its sender is waiting for.
  lemma {:induction false} GrantsAreAwaited(n: nat, es: seq<Event>)
    requires n >= 2 && LegalRun(Start(n), es) && Legal(Run(Start(n), es), Serve)
    requires Grants(Run(Start(n), es).desk, Run(Start(n), es).mailbox[0])
    ensures var w := Run(Start(n), es); var m := w.mailbox[0];
            && w.phils[m.sender].phase == AskedIn(m.kind) && w.phils[m.sender].replies == []
            && Step(w, Serve).phils[m.sender].replies == [m.fork]
  {
    hide ForksOk, Shape, ViewOf, Used;
    StartOk(n);
    RunOk(Start(n), es);
    GrantIsCurrent(Run(Start(n), es));
  }

  // ---------------------------------------------------------------------------
  // Nobody is ever shut out
  // ---------------------------------------------------------------------------

  // Philosopher i, which is not thinking, need not wait for another philosopher.
  ghost predicate CanGoOn(w: World, i: nat)
    requires WellFormed(w) && i < |w.phils|
  {
    match w.phils[i].phase
    case Thinking => false
    case AskingLeft => w.phils[i].replies != [] || Grants(w.desk, Mess(Left, i, i))
    case AskingRight => w.phils[i].replies != [] || Grants(w.desk, Mess(Right, RightOf(i, |w.phils|), i))
    case Eating | Dropping => true
  }

  lemma {:induction false} NoDropsView(m: seq<Mess>, i: nat, end: View)
    requires forall k :: 0 <= k < |m| ==> m[k].kind != Drop
    ensures ViewOf(m, i, end) == end
  {
    if m != [] {
      NoDropsView(m[1..], i, end);
    }
  }

  // Going round the table from a left-fork holder i to a philosopher j without.
  lemma {:induction false} RingEdge(v: seq<View>, i: nat, j: nat) returns (k: nat)
    requires i < |v| && j < |v| && HasL(v[i]) && !HasL(v[j])
    ensures k < |v| && HasL(v[k]) && !HasL(v[RightOf(k, |v|)])
    decreases if j > i then j - i else j + |v| - i
  {
    k := i;
    if HasL(v[RightOf(i, |v|)]) {
      k := RingEdge(v, RightOf(i, |v|), j);
    }
  }

  // The ring argument: of the philosophers that hold their left fork and ask for
  // the right one, somebody finds it free, unless somebody else can go on.
  lemma {:induction false} HolderCanGoOn(w: World, i: nat)
    requires Inv(w) && i < |w.phils| && w.phils[i].phase == AskingRight
    requires forall j :: 0 <= j < |w.phils| ==> Views(w)[j] == EndView(w.phils[j])
    ensures exists k :: 0 <= k < |w.phils| && CanGoOn(w, k)
  {
    var n, v := |w.phils|, Views(w);
    if forall k :: 0 <= k < n ==> !CanGoOn(w, k) {
      var j :| 0 <= j < n && !HasL(v[j]);
      var k := RingEdge(v, i, j);
      assert Before(RightOf(k, n), n) == k;
      assert CanGoOn(w, k);
    }
  }

  lemma {:induction false} SomeoneCanGoOn(w: World, a: nat)
    requires Inv(w) && (forall k :: 0 <= k < |w.mailbox| ==> w.mailbox[k].kind != Drop)
    requires a < |w.phils| && w.phils[a].phase != Thinking
    ensures exists i :: 0 <= i < |w.phils| && CanGoOn(w, i)
  {
    hide Shape, ViewOf;
    var n, v := |w.phils|, Views(w);
    forall i | 0 <= i < n ensures v[i] == EndView(w.phils[i]) {
      NoDropsView(w.mailbox, i, EndView(w.phils[i]));
    }
    if i :| 0 <= i < n && w.phils[i].phase == AskingRight {
      HolderCanGoOn(w, i);
    } else if i :| 0 <= i < n && CanGoOn(w, i) {
    } else {
      forall i | 0 <= i < n ensures v[i] == Nothing {
        assert !CanGoOn(w, i);
      }
      AskerCanGoOn(w, a);
    }
  }

  // With all forks on the table, whoever asks for its left one gets it.
  lemma {:induction false} AskerCanGoOn(w: World, a: nat)
    requires Inv(w) && a < |w.phils| && w.phils[a].phase == AskingLeft
    requires forall i :: 0 <= i < |w.phils| ==> Views(w)[i] == Nothing
    ensures CanGoOn(w, a)
  {
    hide Shape, ViewOf;
    NoneUsed(w.desk.free);
  }

  // Deadlock freedom: in every reachable state somebody is thinking, a drop
  // message is on its way to the waiter, or somebody can go on.
  lemma {:induction false} NeverStuck(n: nat, es: seq<Event>)
    requires n >= 2 && LegalRun(Start(n), es)
    ensures var w := Run(Start(n), es);
            || (exists i :: 0 <= i < |w.phils| && w.phils[i].phase == Thinking)
            || (exists k :: 0 <= k < |w.mailbox| && w.mailbox[k].kind == Drop)
            || (exists i :: 0 <= i < |w.phils| && CanGoOn(w, i))
  {
    StartOk(n);
    RunOk(Start(n), es);
    var w := Run(Start(n), es);
    if (forall k :: 0 <= k < |w.mailbox| ==> w.mailbox[k].kind != Drop) && w.phils[0].phase != Thinking {
      SomeoneCanGoOn(w, 0);
    }
  }

  ghost predicate Reaches(w: World, w': World) {
    WellFormed(w) && exists es :: LegalRun(w, es) && Run(w, es) == w'
  }

  lemma {:induction false} RunAppend(w: World, es: seq<Event>, fs: seq<Event>)
    requires WellFormed(w) && LegalRun(w, es) && LegalRun(Run(w, es), fs)
    ensures LegalRun(w, es + fs) && Run(w, es + fs) == Run(Run(w, es), fs)
    decreases |es|
  {
    if es == [] {
      assert es + fs == fs;
    } else {
      assert (es + fs)[1..] == es[1..] + fs;
      RunAppend(Step(w, es[0]), es[1..], fs);
    }
  }

  lemma {:induction false} ReachesTransitive(a: World, b: World, c: World)
    requires Reaches(a, b) && Reaches(b, c)
    ensures Reaches(a, c)
  {
    var es :| LegalRun(a, es) && Run(a, es) == b;
    var fs :| LegalRun(b, fs) && Run(b, fs) == c;
    RunAppend(a, es, fs);
  }

  lemma {:induction false} ReachesStep(w: World, e: Event)
    requires Inv(w) && Legal(w, e)
    ensures Reaches(w, Step(w, e)) && Inv(Step(w, e))
  {
    StepOk(w, e);
    assert LegalRun(Step(w, e), []);
    assert [e][1..] == [];
    assert LegalRun(w, [e]) && Run(w, [e]) == Step(w, e);
  }

  lemma {:induction false} ReachesTwo(w: World, e: Event, f: Event)
    requires Inv(w) && Legal(w, e) && Legal(Step(w, e), f)
    ensures Inv(Step(w, e)) && Inv(Step(Step(w, e), f)) && Reaches(w, Step(Step(w, e), f))
  {
    ReachesStep(w, e);
    ReachesStep(Step(w, e), f);
    ReachesTransitive(w, Step(w, e), Step(Step(w, e), f));
  }

  // The invariant, with nothing left for the waiter to do.
  ghost predicate Settled(w: World) {
    Inv(w) && w.mailbox == []
  }

  lemma {:induction false} Drain(w: World) returns (w': World)
    requires Inv(w)
    ensures Reaches(w, w') && Settled(w') && |w'.phils| == |w.phils|
    decreases |w.mailbox|
  {
    if w.mailbox == [] {
      assert LegalRun(w, []) && Run(w, []) == w;
      w' := w;
    } else {
      ReachesStep(w, Serve);
      w' := Drain(Step(w, Serve));
      ReachesTransitive(w, Step(w, Serve), w');
    }
  }

  // How far a philosopher is from thinking again.
  function Distance(p: Phil): nat {
    match p.phase
    case Thinking => 0
    case AskingLeft => if p.replies == [] then 6 else 5
    case AskingRight => if p.replies == [] then 4 else 3
    case Eating => 2
    case Dropping => 1
  }

  function Total(phils: seq<Phil>): nat {
    if phils == [] then 0 else Distance(phils[0]) + Total(phils[1..])
  }

  lemma {:induction false} TotalSet(phils: seq<Phil>, i: nat, p: Phil)
    requires i < |phils|
    ensures Total(phils[i := p]) == Total(phils) - Distance(phils[i]) + Distance(p)
  {
    if i > 0 {
      assert phils[i := p][1..] == phils[1..][i - 1 := p];
      TotalSet(phils[1..], i - 1, p);
    } else {
      assert phils[i := p][1..] == phils[1..];
    }
  }

  // Sending a message and having it served.
  lemma {:induction false} SendAndServe(w: World, e: Event, m: Mess)
    requires Settled(w) && Legal(w, e) && (e.Ask? || e.DropLeft? || e.DropRight?)
    requires Step(w, e).mailbox == [m]
    ensures m.fork < |w.desk.free|
    ensures var u := Step(Step(w, e), Serve); var p := Step(w, e).phils[e.i];
            && m.sender == e.i && Reaches(w, u) && Settled(u)
            && u.phils == w.phils[e.i := if Grants(w.desk, m) then p.(replies := p.replies + [m.fork]) else p]
  {
    hide ForksOk, Shape, RepliesOk, EndView, ViewOf, Used;
    ReachesTwo(w, e, Serve);
  }

  // A philosopher that can go on comes closer to thinking, the others staying put.
  lemma {:induction false} GoOn(w: World, i: nat) returns (w': World)
    requires Settled(w) && i < |w.phils| && CanGoOn(w, i)
    ensures Reaches(w, w') && Settled(w') && |w'.phils| == |w.phils|
    ensures Total(w'.phils) < Total(w.phils)
    ensures w'.phils == w.phils[i := w'.phils[i]]
    ensures w.phils[i].phase in {AskingLeft, AskingRight} ==> w'.phils[i].phase in {AskingLeft, AskingRight, Eating}
  {
    hide ForksOk, Shape, ViewOf, Used, Reaches, Grants;
    var p := w.phils[i];
    assert PhilOk(w, i);
    if p.phase in {AskingLeft, AskingRight} && p.replies != [] {
      ReachesStep(w, Take(i));
      w' := Step(w, Take(i));
    } else {
      var e := if p.phase == Eating then DropLeft(i) else if p.phase == Dropping then DropRight(i) else Ask(i);
      SendAndServe(w, e, Step(w, e).mailbox[0]);
      w' := Step(Step(w, e), Serve);
    }
    TotalSet(w.phils, i, w'.phils[i]);
  }

  // Everybody can finish.
  lemma {:induction false} AllThink(w: World) returns (w': World)
    requires Settled(w)
    ensures Reaches(w, w') && Settled(w') && |w'.phils| == |w.phils|
    ensures forall i :: 0 <= i < |w'.phils| ==> w'.phils[i].phase == Thinking
    decreases Total(w.phils)
  {
    if a :| 0 <= a < |w.phils| && w.phils[a].phase != Thinking {
      SomeoneCanGoOn(w, a);
      var i :| 0 <= i < |w.phils| && CanGoOn(w, i);
      var u := GoOn(w, i);
      w' := AllThink(u);
      ReachesTransitive(w, u, w');
    } else {
      assert LegalRun(w, []) && Run(w, []) == w;
      w' := w;
    }
  }

  // A philosopher that asks while all others think gets both forks.
  lemma {:induction false} LoneEats(w: World, i: nat) returns (w': World)
    requires Settled(w) && i < |w.phils| && w.phils[i].phase in {AskingLeft, AskingRight, Eating}
    requires forall j :: 0 <= j < |w.phils| && j != i ==> w.phils[j].phase == Thinking
    ensures Reaches(w, w') && i < |w'.phils| && w'.phils[i].phase == Eating
    decreases Total(w.phils)
  {
    if w.phils[i].phase == Eating {
      assert LegalRun(w, []) && Run(w, []) == w;
      w' := w;
    } else {
      SomeoneCanGoOn(w, i);
      assert CanGoOn(w, i);
      var u := GoOn(w, i);
      w' := LoneEats(u, i);
      ReachesTransitive(w, u, w');
    }
  }

  // From every reachable state every philosopher can still come to eat.
  lemma {:induction false} EveryoneCanEat(n: nat, es: seq<Event>, i: nat)
    requires n >= 2 && LegalRun(Start(n), es) && i < n
    ensures exists w' :: Reaches(Run(Start(n), es), w') && i < |w'.phils| && w'.phils[i].phase == Eating
  {
    hide ForksOk, Shape, RepliesOk, EndView, ViewOf, Used, Reaches, LegalRun, Run;
    StartOk(n);
    RunOk(Start(n), es);
    var w := Run(Start(n), es);
    var a := Drain(w);
    var b := AllThink(a);
    ReachesTransitive(w, a, b);
    ReachesStep(b, Wake(i));
    var c := Step(b, Wake(i));
    ReachesTransitive(w, b, c);
    var d := LoneEats(c, i);
    ReachesTransitive(w, c, d);
  }

  // ---------------------------------------------------------------------------
  // How many forks the waiter hands out
  // ---------------------------------------------------------------------------

  // A request for a left fork is answered exactly when the fork is free and fewer
  // than n - 1 forks are in use, and one for a right fork exactly when it is
  // free. The fork is then in use. Nothing happens otherwise.
  lemma {:induction false} RequestsAreAnswered(w: World, i: nat)
    requires Inv(w) && w.mailbox != [] && i < |w.phils|
    requires w.mailbox[0] == Mess(Left, i, i) || w.mailbox[0] == Mess(Right, RightOf(i, |w.phils|), i)
    ensures var n, f, free, t := |w.phils|, w.mailbox[0].fork, w.desk.free, Step(w, Serve);
            var answered := free[f] && (w.mailbox[0].kind == Left ==> Used(free) < n - 1);
            && t.mailbox == w.mailbox[1..] && |t.phils| == n
            && t.phils[i] == Phil(w.phils[i].phase, w.phils[i].replies + if answered then [f] else [])
            && (forall j :: 0 <= j < n && j != i ==> t.phils[j] == w.phils[j])
            && t.desk.free == (if answered then free[f := false] else free)
            && Used(t.desk.free) == Used(free) + if answered then 1 else 0
  {
    UsedSet(w.desk.free, w.mailbox[0].fork, false);
    assert w.phils[i] == Phil(w.phils[i].phase, w.phils[i].replies + []);
  }

  // Serving a drop message frees the fork and sends nothing.
  lemma {:induction false} DropsAreServed(w: World)
    requires Inv(w) && w.mailbox != [] && w.mailbox[0].kind == Drop
    ensures var f, t := w.mailbox[0].fork, Step(w, Serve);
            && t.mailbox == w.mailbox[1..] && t.phils == w.phils
            && t.desk.free == w.desk.free[f := true] && Used(t.desk.free) + 1 == Used(w.desk.free)
  {
    DropIsCounted(w);
    UsedSet(w.desk.free, w.mailbox[0].fork, true);
  }

  // The first m philosophers hold their left forks and ask for the right ones;
  // the others think.
  function Seated(n: nat, m: nat): World {
    World(
      Desk(m, seq(n, i => i >= m)), [],
      seq(n, i => if i < m then Phil(AskingRight, []) else Phil(Thinking, [])))
  }

  // One more philosopher takes its left fork.
  lemma {:induction false} SitDown(n: nat, m: nat)
    requires m + 1 < n && Inv(Seated(n, m))
    ensures Reaches(Seated(n, m), Seated(n, m + 1)) && Inv(Seated(n, m + 1))
  {
    hide ForksOk, PhilOk, Views, Used, Shape, Reaches;
    var w := Seated(n, m);
    ReachesTwo(w, Wake(m), Ask(m));
    var b := Step(Step(w, Wake(m)), Ask(m));
    assert b.phils[m] == Phil(AskingLeft, []) && b.mailbox == [Mess(Left, m, m)];
    assert Grants(b.desk, b.mailbox[0]);
    ReachesTwo(b, Serve, Take(m));
    ReachesTransitive(w, b, Step(Step(b, Serve), Take(m)));
    assert Step(Step(b, Serve), Take(m)) == Seated(n, m + 1) by { TakesLeft(n, m, b); }
  }

  lemma {:induction false} TakesLeft(n: nat, m: nat, b: World)
    requires m + 1 < n && WellFormed(b)
    requires b == World(Seated(n, m).desk, [Mess(Left, m, m)], Seated(n, m).phils[m := Phil(AskingLeft, [])])
    ensures Legal(Step(b, Serve), Take(m)) && Step(Step(b, Serve), Take(m)) == Seated(n, m + 1)
  {
    var d := Step(Step(b, Serve), Take(m));
    assert d.desk.free == Seated(n, m + 1).desk.free;
    assert [m][1..] == [] && [] + [m] == [m];
    assert Step(b, Serve).phils[m] == Phil(AskingLeft, [m]);
    assert d.phils == Seated(n, m + 1).phils;
  }

  lemma {:induction false} NobodySeated(n: nat)
    requires n >= 2
    ensures Reaches(Start(n), Seated(n, 0)) && Inv(Seated(n, 0))
  {
    StartOk(n);
    assert Start(n) == Seated(n, 0);
    assert LegalRun(Start(n), []) && Run(Start(n), []) == Start(n);
  }

  lemma {:induction false} AllButOneSeated(n: nat, m: nat)
    requires m < n && n >= 2
    ensures Reaches(Start(n), Seated(n, m)) && Inv(Seated(n, m))
  {
    hide Inv, Reaches, Seated;
    if m == 0 {
      NobodySeated(n);
    } else {
      AllButOneSeated(n, m - 1);
      SitDown(n, m - 1);
      ReachesTransitive(Start(n), Seated(n, m - 1), Seated(n, m));
    }
  }

  // All philosophers but one can hold their left forks at the same time.
  lemma {:induction false} MostHoldLeftForks(n: nat) returns (es: seq<Event>)
    requires n >= 2
    ensures WellFormed(Start(n)) && LegalRun(Start(n), es)
    ensures var w := Run(Start(n), es);
            && |w.phils| == |w.desk.free| == n
            && Used(w.desk.free) == n - 1
            && forall i :: 0 <= i < n - 1 ==> w.phils[i].phase == AskingRight && Uses(w, i, i) && !w.desk.free[i]
  {
    hide ForksOk, PhilOk, Views, Used, LegalRun, Run;
    AllButOneSeated(n, n - 1);
    es :| LegalRun(Start(n), es) && Run(Start(n), es) == Seated(n, n - 1);
  }
}
