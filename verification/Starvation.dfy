// A philosopher can starve: its neighbour eats again and again, and every request
// that reaches the waiter finds the fork taken.

module Starvation {
  import opened Philosophers
  import opened PhilosopherRuns

  // Philosopher i asks for its left fork, without an answer, in every state of a run.
  ghost predicate StaysHungry(w: World, es: seq<Event>, i: nat)
    requires WellFormed(w) && LegalRun(w, es) && i < |w.phils|
    decreases |es|
  {
    w.phils[i] == Phil(AskingLeft, []) && (es == [] || StaysHungry(Step(w, es[0]), es[1..], i))
  }

  // Philosopher 0 starts to ask for fork 0, and philosopher n - 1, whose right fork
  // it is, eats once: philosopher 0 asks while the fork is taken.
  function Cycle(n: nat): seq<Event>
    requires n >= 2
  {
    Dine(n) + Leave(n)
  }

  function Dine(n: nat): seq<Event>
    requires n >= 2
  {
    var v := n - 1;
    [Wake(v), Ask(v), Serve, Take(v), Ask(v), Serve, Ask(0), Serve, Take(v)]
  }

  function Leave(n: nat): seq<Event>
    requires n >= 2
  {
    var v := n - 1;
    [DropLeft(v), DropRight(v), Serve, Serve]
  }

  // Philosopher 0 asks for its left fork, philosopher n - 1 is as given, and the
  // others think.
  function Table(n: nat, p: Phil): seq<Phil>
    requires n >= 2
  {
    seq(n, i => if i == 0 then Phil(AskingLeft, []) else if i == n - 1 then p else Phil(Thinking, []))
  }

  // The forks with fork 0 and fork n - 1 as given, and all others free.
  function Forks(n: nat, first: bool, last: bool): seq<bool>
    requires n >= 2
  {
    seq(n, i => if i == 0 then first else if i == n - 1 then last else true)
  }

  function Waiting(n: nat): World
    requires n >= 2
  {
    World(Desk(0, Forks(n, true, true)), [], Table(n, Phil(Thinking, [])))
  }

  function Dining(n: nat): World
    requires n >= 2
  {
    World(Desk(2, Forks(n, false, false)), [], Table(n, Phil(Eating, [])))
  }

  lemma {:induction false} SetLast(n: nat, p: Phil, q: Phil)
    requires n >= 2
    ensures Table(n, p)[n - 1] == p && Table(n, p)[n - 1 := q] == Table(n, q) && Table(n, p)[0] == Phil(AskingLeft, [])
  {
  }

  lemma {:induction false} SetForks(n: nat, a: bool, b: bool, c: bool)
    requires n >= 2
    ensures Forks(n, a, b)[0] == a && Forks(n, a, b)[n - 1] == b
    ensures Forks(n, a, b)[0 := c] == Forks(n, c, b) && Forks(n, a, b)[n - 1 := c] == Forks(n, a, c)
  {
  }

  // One event of a run, and the rest.
  lemma {:induction false} Then(w: World, e: Event, es: seq<Event>, u: World, t: World, i: nat)
    requires WellFormed(w) && Legal(w, e) && Step(w, e) == u && i < |w.phils| && w.phils[i] == Phil(AskingLeft, [])
    requires LegalRun(u, es) && Run(u, es) == t && StaysHungry(u, es, i)
    ensures LegalRun(w, [e] + es) && Run(w, [e] + es) == t && StaysHungry(w, [e] + es, i)
  {
    assert ([e] + es)[1..] == es;
  }

  // A state of the cycle: forks used, forks 0 and n - 1, mailbox, philosopher n - 1.
  function At(n: nat, used: nat, first: bool, last: bool, m: seq<Mess>, p: Phil): World
    requires n >= 2
  {
    World(Desk(used, Forks(n, first, last)), m, Table(n, p))
  }

  // A turn of philosopher n - 1, with what it sends.
  lemma {:induction false} Turn(n: nat, used: nat, first: bool, last: bool, m: seq<Mess>, p: Phil,
                                e: Event, q: Phil, sent: seq<Mess>)
    requires n >= 2 && forall k :: 0 <= k < |m| ==> m[k].fork < n && m[k].sender < n
    requires !e.Serve? && e.i == n - 1 && Legal(At(n, used, first, last, m, p), e)
    requires var u := Step(At(n, used, first, last, m, p), e); u.phils[n - 1] == q && u.mailbox == m + sent
    ensures Step(At(n, used, first, last, m, p), e) == At(n, used, first, last, m + sent, q)
  {
    SetLast(n, p, q);
  }

  // The waiter gives philosopher n - 1 a fork, or gets one back.
  lemma {:induction false} Answer(n: nat, used: nat, first: bool, last: bool, x: Mess, m: seq<Mess>, p: Phil)
    requires n >= 2 && x.sender == n - 1 && x.fork in {0, n - 1}
    requires forall k :: 0 <= k < |m| ==> m[k].fork < n && m[k].sender < n
    requires if x.kind == Drop then used > 0 else Grants(Desk(used, Forks(n, first, last)), x)
    ensures var b := x.kind == Drop;
            Step(At(n, used, first, last, [x] + m, p), Serve)
            == At(n, if b then used - 1 else used + 1,
                  if x.fork == 0 then b else first, if x.fork == 0 then last else b,
                  m, if b then p else p.(replies := p.replies + [x.fork]))
  {
    SetForks(n, first, last, x.kind == Drop);
    SetLast(n, p, if x.kind == Drop then p else p.(replies := p.replies + [x.fork]));
    assert ([x] + m)[1..] == m;
  }

  // Philosopher 0 asks, and is refused.
  lemma {:induction false} AskInVain(n: nat, last: bool, p: Phil)
    requires n >= 2
    ensures Step(At(n, 2, false, last, [], p), Ask(0)) == At(n, 2, false, last, [Mess(Left, 0, 0)], p)
    ensures Step(At(n, 2, false, last, [Mess(Left, 0, 0)], p), Serve) == At(n, 2, false, last, [], p)
  {
    SetLast(n, p, p);
    SetForks(n, false, last, false);
    assert Table(n, p)[0 := Phil(AskingLeft, [])] == Table(n, p);
  }

  // Philosopher n - 1 gives its forks back.
  lemma {:induction false} Drops(n: nat)
    requires n >= 2
    ensures var l, r := Mess(Drop, n - 1, n - 1), Mess(Drop, 0, n - 1);
            var es := [DropLeft(n - 1)] + ([DropRight(n - 1)] + []);
            var t := At(n, 2, false, false, [l, r], Phil(Thinking, []));
            LegalRun(Dining(n), es) && Run(Dining(n), es) == t && StaysHungry(Dining(n), es, 0)
  {
    var v, l, r := n - 1, Mess(Drop, n - 1, n - 1), Mess(Drop, 0, n - 1);
    var eat, drop, think := Phil(Eating, []), Phil(Dropping, []), Phil(Thinking, []);
    var w1, w2 := At(n, 2, false, false, [l], drop), At(n, 2, false, false, [l, r], think);
    SetLast(n, eat, drop);
    SetLast(n, drop, think);
    Turn(n, 2, false, false, [], eat, DropLeft(v), drop, [l]);
    Turn(n, 2, false, false, [l], drop, DropRight(v), think, [r]);
    assert [] + [l] == [l] && [l] + [r] == [l, r];
    SetLast(n, think, think);
    Stay(w2, 0);
    Then(w1, DropRight(v), [], w2, w2, 0);
    Then(Dining(n), DropLeft(v), [DropRight(v)] + [], w1, w2, 0);
  }

  lemma {:induction false} DropsServed(n: nat)
    requires n >= 2
    ensures var l, r := Mess(Drop, n - 1, n - 1), Mess(Drop, 0, n - 1);
            var es, w := [Serve] + ([Serve] + []), At(n, 2, false, false, [l, r], Phil(Thinking, []));
            LegalRun(w, es) && Run(w, es) == Waiting(n) && StaysHungry(w, es, 0)
  {
    var l, r, think := Mess(Drop, n - 1, n - 1), Mess(Drop, 0, n - 1), Phil(Thinking, []);
    var w2, w3 := At(n, 2, false, false, [l, r], think), At(n, 1, false, true, [r], think);
    Answer(n, 2, false, false, l, [r], think);
    Answer(n, 1, false, true, r, [], think);
    assert [l] + [r] == [l, r] && [r] + [] == [r];
    SetLast(n, think, think);
    Stay(Waiting(n), 0);
    Then(w3, Serve, [], Waiting(n), Waiting(n), 0);
    Then(w2, Serve, [Serve] + [], w3, Waiting(n), 0);
  }

  lemma {:induction false} Leaving(n: nat)
    requires n >= 2
    ensures LegalRun(Dining(n), Leave(n)) && Run(Dining(n), Leave(n)) == Waiting(n)
    ensures StaysHungry(Dining(n), Leave(n), 0)
  {
    hide At, Table, Forks, Step, Legal, Run, LegalRun, StaysHungry;
    var a, b := [DropLeft(n - 1)] + ([DropRight(n - 1)] + []), [Serve] + ([Serve] + []);
    WellLaid(n);
    Drops(n);
    DropsServed(n);
    HungryAppend(Dining(n), a, b, 0);
    assert Leave(n) == a + b;
  }

  lemma {:induction false} WellLaid(n: nat)
    requires n >= 2
    ensures WellFormed(Dining(n)) && WellFormed(Waiting(n)) && |Dining(n).phils| == |Waiting(n).phils| == n
  {
  }

  lemma {:induction false} Stay(w: World, i: nat)
    requires WellFormed(w) && i < |w.phils| && w.phils[i] == Phil(AskingLeft, [])
    ensures LegalRun(w, []) && Run(w, []) == w && StaysHungry(w, [], i)
  {
  }

  // Philosopher n - 1 gets its left fork.
  lemma {:induction false} GetsLeft(n: nat)
    requires n >= 2
    ensures var v := n - 1; var es := [Wake(v)] + ([Ask(v)] + ([Serve] + ([Take(v)] + [])));
            var t := At(n, 1, true, false, [], Phil(AskingRight, []));
            LegalRun(Waiting(n), es) && Run(Waiting(n), es) == t && StaysHungry(Waiting(n), es, 0)
  {
    var v, l := n - 1, Mess(Left, n - 1, n - 1);
    var think, ask := Phil(Thinking, []), Phil(AskingLeft, []);
    var w1, w2 := At(n, 0, true, true, [], ask), At(n, 0, true, true, [l], ask);
    var w3, w4 := At(n, 1, true, false, [], ask.(replies := [v])), At(n, 1, true, false, [], Phil(AskingRight, []));
    SetLast(n, think, ask);
    SetLast(n, ask, ask);
    SetLast(n, ask, ask.(replies := [v]));
    SetLast(n, ask.(replies := [v]), Phil(AskingRight, []));
    SetForks(n, true, true, false);
    Turn(n, 0, true, true, [], think, Wake(v), ask, []);
    Turn(n, 0, true, true, [], ask, Ask(v), ask, [l]);
    assert [] + [l] == [l] && [l] + [] == [l] && [] + [v] == [v];
    Answer(n, 0, true, true, l, [], ask);
    Turn(n, 1, true, false, [], ask.(replies := [v]), Take(v), Phil(AskingRight, []), []);
    Stay(w4, 0);
    Then(w3, Take(v), [], w4, w4, 0);
    Then(w2, Serve, [Take(v)] + [], w3, w4, 0);
    Then(w1, Ask(v), [Serve] + ([Take(v)] + []), w2, w4, 0);
    Then(Waiting(n), Wake(v), [Ask(v)] + ([Serve] + ([Take(v)] + [])), w1, w4, 0);
  }

  // Philosopher n - 1 gets its right fork, and philosopher 0 asks for it in vain.
  lemma {:induction false} GetsRight(n: nat)
    requires n >= 2
    ensures var v := n - 1; var es := [Ask(v)] + ([Serve] + ([Ask(0)] + ([Serve] + ([Take(v)] + []))));
            var w := At(n, 1, true, false, [], Phil(AskingRight, []));
            LegalRun(w, es) && Run(w, es) == Dining(n) && StaysHungry(w, es, 0)
  {
    var v, r := n - 1, Mess(Right, 0, n - 1);
    var ask, got := Phil(AskingRight, []), Phil(AskingRight, [0]);
    var w0, w1 := At(n, 1, true, false, [], ask), At(n, 1, true, false, [r], ask);
    var w2, w3 := At(n, 2, false, false, [], got), At(n, 2, false, false, [Mess(Left, 0, 0)], got);
    SetLast(n, ask, ask);
    SetLast(n, ask, got);
    SetLast(n, got, Phil(Eating, []));
    SetForks(n, true, false, false);
    Turn(n, 1, true, false, [], ask, Ask(v), ask, [r]);
    assert [] + [r] == [r] && [r] + [] == [r] && [] + [0] == [0];
    Answer(n, 1, true, false, r, [], ask);
    AskInVain(n, false, got);
    Turn(n, 2, false, false, [], got, Take(v), Phil(Eating, []), []);
    Stay(Dining(n), 0);
    Then(w2, Take(v), [], Dining(n), Dining(n), 0);
    Then(w3, Serve, [Take(v)] + [], w2, Dining(n), 0);
    Then(w2, Ask(0), [Serve] + ([Take(v)] + []), w3, Dining(n), 0);
    Then(w1, Serve, [Ask(0)] + ([Serve] + ([Take(v)] + [])), w2, Dining(n), 0);
    Then(w0, Ask(v), [Serve] + ([Ask(0)] + ([Serve] + ([Take(v)] + []))), w1, Dining(n), 0);
  }

  lemma {:induction false} HungryAppend(w: World, es: seq<Event>, fs: seq<Event>, i: nat)
    requires WellFormed(w) && LegalRun(w, es) && LegalRun(Run(w, es), fs) && i < |w.phils|
    requires StaysHungry(w, es, i) && StaysHungry(Run(w, es), fs, i)
    ensures LegalRun(w, es + fs) && Run(w, es + fs) == Run(Run(w, es), fs) && StaysHungry(w, es + fs, i)
    decreases |es|
  {
    if es == [] {
      assert es + fs == fs;
    } else {
      assert (es + fs)[1..] == es[1..] + fs;
      HungryAppend(Step(w, es[0]), es[1..], fs, i);
    }
  }

  lemma {:induction false} CycleReturns(n: nat)
    requires n >= 2
    ensures LegalRun(Waiting(n), Cycle(n)) && Run(Waiting(n), Cycle(n)) == Waiting(n)
    ensures StaysHungry(Waiting(n), Cycle(n), 0)
  {
    hide At, Table, Forks, Step, Legal, Run, LegalRun, StaysHungry;
    var v := n - 1;
    WellLaid(n);
    var a := [Wake(v)] + ([Ask(v)] + ([Serve] + ([Take(v)] + [])));
    var b := [Ask(v)] + ([Serve] + ([Ask(0)] + ([Serve] + ([Take(v)] + []))));
    GetsLeft(n);
    GetsRight(n);
    Leaving(n);
    HungryAppend(Waiting(n), a, b, 0);
    assert Dine(n) == a + b;
    HungryAppend(Waiting(n), Dine(n), Leave(n), 0);
  }

  function Cycles(n: nat, m: nat): seq<Event>
    requires n >= 2
  {
    if m == 0 then [] else Cycle(n) + Cycles(n, m - 1)
  }

  // How often e happens.
  function Count(es: seq<Event>, e: Event): nat {
    multiset(es)[e]
  }

  lemma {:induction false} CycleCounts(n: nat)
    requires n >= 2
    ensures Count(Cycle(n), Ask(0)) == 1 && Count(Cycle(n), DropLeft(n - 1)) == 1
  {
    assert multiset(Cycle(n)) == multiset(Dine(n)) + multiset(Leave(n));
  }

  // Starvation: for any m there is a run from the start in which philosopher 0 asks
  // m times, has every request served, and is hungry all along, while its neighbour
  // eats m times.
  lemma {:induction false} Starves(n: nat, m: nat)
    requires n >= 2
    ensures Legal(Start(n), Wake(0)) && Step(Start(n), Wake(0)) == Waiting(n)
    ensures LegalRun(Waiting(n), Cycles(n, m)) && Run(Waiting(n), Cycles(n, m)) == Waiting(n)
    ensures StaysHungry(Waiting(n), Cycles(n, m), 0)
    ensures Count(Cycles(n, m), Ask(0)) == Count(Cycles(n, m), DropLeft(n - 1)) == m
  {
    assert Step(Start(n), Wake(0)).phils == Table(n, Phil(Thinking, []));
    assert Start(n).desk.free == Forks(n, true, true);
    if m == 0 {
      Stay(Waiting(n), 0);
    } else {
      Starves(n, m - 1);
      CycleReturns(n);
      CycleCounts(n);
      HungryAppend(Waiting(n), Cycle(n), Cycles(n, m - 1), 0);
      assert multiset(Cycles(n, m)) == multiset(Cycle(n)) + multiset(Cycles(n, m - 1));
    }
  }
}
