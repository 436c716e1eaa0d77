// The dining philosophers of base/apps/philosopher.c and base/apps/waiter.c: an
// asynchronous protocol in which a waiter grants forks and philosophers repeat
// requests that time out.
//
// The number n of philosophers is that of the forks; the source has n = 5.
// Philosopher i uses fork i, its left one, and fork (i + 1) % n.

module Philosophers {
  import opened Words

  datatype Kind = Left | Right | Drop

  datatype Mess = Mess(kind: Kind, fork: nat, sender: nat)

  // The variables of the waiter.
  datatype Desk = Desk(inUse: nat, free: seq<bool>)

  datatype Phase = Thinking | AskingLeft | AskingRight | Eating | Dropping

  // Where a philosopher is in its loop, and the grants in its mailbox: the fork
  // that each is for, although the message does not tell.
  datatype Phil = Phil(phase: Phase, replies: seq<nat>)

  datatype World = World(desk: Desk, mailbox: seq<Mess>, phils: seq<Phil>)

  function RightOf(i: nat, n: nat): (r: nat)
    requires i < n
    ensures r < n && r == if i + 1 == n then 0 else i + 1
  {
    (i + 1) % n
  }

  // The philosopher whose right fork is f.
  function Before(f: nat, n: nat): (i: nat)
    requires f < n
    ensures i < n && RightOf(i, n) == f
  {
    if f == 0 then n - 1 else f - 1
  }

  // ---------------------------------------------------------------------------
  // The waiter
  // ---------------------------------------------------------------------------

  // Whether the waiter answers m with a fork.
  predicate Grants(d: Desk, m: Mess)
    requires m.fork < |d.free|
  {
    match m.kind
    case Drop => false
    case Right => d.free[m.fork]
    case Left => d.inUse < |d.free| - 1 && d.free[m.fork]
  }

  // The waiter's variables after m.
  function Answered(d: Desk, m: Mess): Desk
    requires m.fork < |d.free|
  {
    if m.kind == Drop then
      Desk(if d.inUse == 0 then WORD - 1 else d.inUse - 1, d.free[m.fork := true])
    else if Grants(d, m) then
      Desk(d.inUse + 1, d.free[m.fork := false])
    else d
  }

  // The number of forks that are not free.
  function Used(free: seq<bool>): nat {
    if free == [] then 0 else (if free[0] then 0 else 1) + Used(free[1..])
  }

  // ---------------------------------------------------------------------------
  // The protocol
  // ---------------------------------------------------------------------------

  // One turn of a philosopher, or the waiter serving its next message. A request
  // is sent when a philosopher starts to ask and again after any timeout, even
  // one that goes off just before the answer arrives.
  datatype Event = Wake(i: nat) | Ask(i: nat) | Take(i: nat) | DropLeft(i: nat) | DropRight(i: nat) | Serve

  ghost predicate WellFormed(w: World) {
    && |w.phils| == |w.desk.free| >= 2
    && forall k :: 0 <= k < |w.mailbox| ==> w.mailbox[k].fork < |w.phils| && w.mailbox[k].sender < |w.phils|
  }

  predicate Legal(w: World, e: Event) {
    if e.Serve? then w.mailbox != []
    else e.i < |w.phils| && match e
      case Wake(i) => w.phils[i].phase == Thinking
      case Ask(i) => w.phils[i].phase in {AskingLeft, AskingRight}
      case Take(i) => w.phils[i].phase in {AskingLeft, AskingRight} && w.phils[i].replies != []
      case DropLeft(i) => w.phils[i].phase == Eating
      case DropRight(i) => w.phils[i].phase == Dropping
  }

  function Post(w: World, i: nat, p: Phil, m: Mess): World
    requires i < |w.phils|
  {
    w.(phils := w.phils[i := p], mailbox := w.mailbox + [m])
  }

  function Step(w: World, e: Event): (r: World)
    requires WellFormed(w) && Legal(w, e)
    ensures WellFormed(r) && |r.phils| == |w.phils|
  {
    var n := |w.phils|;
    match e
    case Wake(i) => w.(phils := w.phils[i := w.phils[i].(phase := AskingLeft)])
    case Ask(i) =>
      if w.phils[i].phase == AskingLeft then Post(w, i, w.phils[i], Mess(Left, i, i))
      else Post(w, i, w.phils[i], Mess(Right, RightOf(i, n), i))
    case Take(i) =>
      var next := if w.phils[i].phase == AskingLeft then AskingRight else Eating;
      w.(phils := w.phils[i := Phil(next, w.phils[i].replies[1..])])
    case DropLeft(i) => Post(w, i, w.phils[i].(phase := Dropping), Mess(Drop, i, i))
    case DropRight(i) => Post(w, i, w.phils[i].(phase := Thinking), Mess(Drop, RightOf(i, n), i))
    case Serve =>
      var m := w.mailbox[0];
      var p := w.phils[m.sender];
      World(
        Answered(w.desk, m),
        w.mailbox[1..],
        if Grants(w.desk, m) then w.phils[m.sender := p.(replies := p.replies + [m.fork])] else w.phils)
  }

  // All forks on the table, all philosophers thinking.
  function Start(n: nat): World {
    World(Desk(0, seq(n, _ => true)), [], seq(n, _ => Phil(Thinking, [])))
  }

  // ---------------------------------------------------------------------------
  // The invariant
  // ---------------------------------------------------------------------------

  // What a philosopher has been granted and the waiter has not been told of dropping.
  datatype View = Nothing | HasLeft | HasBoth | HasRight

  predicate HasL(v: View) { v in {HasLeft, HasBoth} }
  predicate HasR(v: View) { v in {HasRight, HasBoth} }

  // The view once all messages of the philosopher are served, without new grants.
  function EndView(p: Phil): View {
    match p.phase
    case Thinking => Nothing
    case AskingLeft => if p.replies == [] then Nothing else HasLeft
    case AskingRight => if p.replies == [] then HasLeft else HasBoth
    case Eating => HasBoth
    case Dropping => HasRight
  }

  // The first drop message of philosopher i tells what it still has.
  function ViewOf(m: seq<Mess>, i: nat, end: View): View {
    if m == [] then end
    else if m[0].sender == i && m[0].kind == Drop then (if m[0].fork == i then HasBoth else HasRight)
    else ViewOf(m[1..], i, end)
  }

  function Holding(w: World, i: nat): View
    requires i < |w.phils|
  {
    ViewOf(w.mailbox, i, EndView(w.phils[i]))
  }

  // The messages of philosopher i in phase p that the waiter will see, from view
  // v to view end. A request that finds nothing to ask for is a duplicate and
  // comes before the drop of the fork it is for.
  ghost predicate Shape(m: seq<Mess>, i: nat, n: nat, v: View, p: Phase, end: View)
    requires i < n
  {
    if m == [] then v == end
    else if m[0].sender != i then Shape(m[1..], i, n, v, p, end)
    else match m[0].kind
      case Drop =>
        if v == HasBoth then m[0].fork == i && Shape(m[1..], i, n, HasRight, p, end)
        else v == HasRight && m[0].fork == RightOf(i, n) && Shape(m[1..], i, n, Nothing, p, end)
      case Left =>
        m[0].fork == i && v != HasRight && (v == Nothing ==> p == AskingLeft) && Shape(m[1..], i, n, v, p, end)
      case Right =>
        && m[0].fork == RightOf(i, n) && (v == HasBoth || (v == HasLeft && p == AskingRight))
        && Shape(m[1..], i, n, v, p, end)
  }

  // At most one unconsumed grant, for the fork the philosopher is asking for.
  ghost predicate RepliesOk(p: Phil, i: nat, n: nat)
    requires i < n
  {
    || p.replies == []
    || (p.phase == AskingLeft && p.replies == [i])
    || (p.phase == AskingRight && p.replies == [RightOf(i, n)])
  }

  function Views(w: World): (v: seq<View>)
    ensures |v| == |w.phils|
  {
    seq(|w.phils|, i requires 0 <= i < |w.phils| => Holding(w, i))
  }

  // Every fork is free or held by exactly one of its two neighbours.
  ghost predicate ForksOk(free: seq<bool>, v: seq<View>) {
    && |free| == |v| >= 2
    && forall f :: 0 <= f < |free| ==>
         && !(HasL(v[f]) && HasR(v[Before(f, |free|)]))
         && (free[f] <==> !HasL(v[f]) && !HasR(v[Before(f, |free|)]))
  }

  ghost predicate Inv(w: World) {
    && WellFormed(w)
    && (forall i :: 0 <= i < |w.phils| ==> PhilOk(w, i))
    && ForksOk(w.desk.free, Views(w))
    && w.desk.inUse == Used(w.desk.free)
    && (exists i :: 0 <= i < |w.phils| && !HasL(Views(w)[i]))
  }

  ghost predicate PhilOk(w: World, i: nat)
    requires i < |w.phils|
  {
    && Shape(w.mailbox, i, |w.phils|, Holding(w, i), w.phils[i].phase, EndView(w.phils[i]))
    && RepliesOk(w.phils[i], i, |w.phils|)
  }

  // ---------------------------------------------------------------------------
  // What keeps the shape of a philosopher's messages
  // ---------------------------------------------------------------------------

  lemma {:induction false} ShapeView(m: seq<Mess>, i: nat, n: nat, v: View, p: Phase, end: View)
    requires i < n && n >= 2 && Shape(m, i, n, v, p, end)
    ensures v == ViewOf(m, i, end)
  {
    if m != [] {
      if m[0].sender != i || m[0].kind != Drop {
        ShapeView(m[1..], i, n, v, p, end);
      }
    }
  }

  // Once a fork is gone it does not come back without a grant.
  lemma {:induction false} ShapeEnds(m: seq<Mess>, i: nat, n: nat, v: View, p: Phase, end: View)
    requires i < n && Shape(m, i, n, v, p, end)
    ensures end in {HasLeft, HasBoth} ==> v == end
    ensures v in {HasLeft, Nothing} ==> v == end
    ensures v == HasRight ==> end in {HasRight, Nothing}
  {
    if m != [] {
      var next := if m[0].sender == i && m[0].kind == Drop then (if v == HasBoth then HasRight else Nothing) else v;
      ShapeEnds(m[1..], i, n, next, p, end);
    }
  }

  // A philosopher that stops asking, or starts to, leaves its old messages in shape.
  lemma {:induction false} ShapePhase(m: seq<Mess>, i: nat, n: nat, v: View, p: Phase, q: Phase, end: View)
    requires i < n && Shape(m, i, n, v, p, end)
    requires p == AskingLeft ==> end != Nothing
    requires p == AskingRight ==> end != HasLeft
    ensures Shape(m, i, n, v, q, end)
  {
    ShapeEnds(m, i, n, v, p, end);
    if m != [] {
      var next := if m[0].sender == i && m[0].kind == Drop then (if v == HasBoth then HasRight else Nothing) else v;
      ShapePhase(m[1..], i, n, next, p, q, end);
    }
  }

  // A new message at the end of the mailbox.
  lemma {:induction false} ShapeSend(m: seq<Mess>, i: nat, n: nat, v: View, p: Phase, mid: View, x: Mess, end: View)
    requires i < n && Shape(m, i, n, v, p, mid) && Shape([x], i, n, mid, p, end)
    ensures Shape(m + [x], i, n, v, p, end)
  {
    if m == [] {
      assert m + [x] == [x];
    } else {
      assert (m + [x])[1..] == m[1..] + [x];
      var next := if m[0].sender == i && m[0].kind == Drop then (if v == HasBoth then HasRight else Nothing) else v;
      ShapeSend(m[1..], i, n, next, p, mid, x, end);
    }
  }

  // A grant while the requests for the other views are duplicates.
  lemma {:induction false} ShapeGrant(m: seq<Mess>, i: nat, n: nat, p: Phase, v: View, u: View)
    requires i < n && Shape(m, i, n, v, p, v)
    requires (v == Nothing && u == HasLeft) || (v == HasLeft && u == HasBoth)
    ensures Shape(m, i, n, u, p, u)
  {
    if m != [] {
      ShapeGrant(m[1..], i, n, p, v, u);
    }
  }

  // ---------------------------------------------------------------------------
  // Every step keeps the invariant
  // ---------------------------------------------------------------------------

  lemma {:induction false} UsedSet(free: seq<bool>, f: nat, b: bool)
    requires f < |free|
    ensures Used(free[f := b]) == Used(free) + (if free[f] then 1 else 0) - (if b then 1 else 0)
  {
    if f > 0 {
      assert free[f := b][1..] == free[1..][f - 1 := b];
      UsedSet(free[1..], f - 1, b);
    } else {
      assert free[f := b][1..] == free[1..];
    }
  }

  lemma {:induction false} NoneUsed(free: seq<bool>)
    requires forall f :: 0 <= f < |free| ==> free[f]
    ensures Used(free) == 0
  {
    if free != [] {
      NoneUsed(free[1..]);
    }
  }

  lemma {:induction false} StartOk(n: nat)
    requires n >= 2
    ensures Inv(Start(n))
  {
    var w := Start(n);
    NoneUsed(w.desk.free);
    assert !HasL(Views(w)[0]);
  }

  // The turn of philosopher i leaves what the others hold and await alone.
  lemma {:induction false} OthersKeep(w: World, w': World, i: nat, j: nat)
    requires WellFormed(w) && i < |w.phils| && j < |w.phils| && j != i && PhilOk(w, j)
    requires |w'.phils| == |w.phils| && w'.phils[j] == w.phils[j]
    requires || w'.mailbox == w.mailbox
             || (w'.mailbox != [] && w'.mailbox[|w'.mailbox| - 1].sender == i
                 && w'.mailbox == w.mailbox + [w'.mailbox[|w'.mailbox| - 1]])
    ensures PhilOk(w', j) && Holding(w', j) == Holding(w, j)
  {
    var n, end := |w.phils|, EndView(w.phils[j]);
    if w'.mailbox != w.mailbox {
      var x := w'.mailbox[|w'.mailbox| - 1];
      assert Shape([x], j, n, end, w.phils[j].phase, end);
      ShapeSend(w.mailbox, j, n, Holding(w, j), w.phils[j].phase, end, x, end);
      ShapeView(w'.mailbox, j, n, Holding(w, j), w.phils[j].phase, end);
    }
  }

  // The turn of philosopher i changes nothing that the waiter knows.
  lemma {:induction false} OwnTurn(w: World, e: Event)
    requires Inv(w) && Legal(w, e) && !e.Serve?
    ensures PhilOk(Step(w, e), e.i) && Holding(Step(w, e), e.i) == Holding(w, e.i)
  {
    var i, n, w' := e.i, |w.phils|, Step(w, e);
    var v, p, q := Holding(w, i), w.phils[i], w'.phils[i];
    assert PhilOk(w, i);
    if e.Ask? {
      ShapeSend(w.mailbox, i, n, v, p.phase, EndView(p), w'.mailbox[|w.mailbox|], EndView(q));
    } else {
      ShapePhase(w.mailbox, i, n, v, p.phase, q.phase, EndView(p));
      if e.DropLeft? || e.DropRight? {
        ShapeSend(w.mailbox, i, n, v, q.phase, EndView(p), w'.mailbox[|w.mailbox|], EndView(q));
      }
    }
    ShapeView(w'.mailbox, i, n, v, q.phase, EndView(q));
  }

  lemma {:induction false} TurnOk(w: World, e: Event)
    requires Inv(w) && Legal(w, e) && !e.Serve?
    ensures Inv(Step(w, e)) && Views(Step(w, e)) == Views(w)
  {
    hide ForksOk, Shape, RepliesOk, EndView, ViewOf, Used;
    var w' := Step(w, e);
    OwnTurn(w, e);
    forall j | 0 <= j < |w.phils| && j != e.i ensures PhilOk(w', j) && Holding(w', j) == Holding(w, j) {
      OthersKeep(w, w', e.i, j);
    }
    assert Views(w') == Views(w);
  }

  // The view of philosopher i after the waiter served its message m.
  function Served(d: Desk, m: Mess, v: View): View
    requires m.fork < |d.free|
  {
    match m.kind
    case Drop => if v == HasBoth then HasRight else Nothing
    case Left => if Grants(d, m) then HasLeft else v
    case Right => if Grants(d, m) then HasBoth else v
  }

  // A granted request is the current one of its sender.
  lemma {:induction false} GrantIsCurrent(w: World)
    requires Inv(w) && w.mailbox != [] && Grants(w.desk, w.mailbox[0])
    ensures var m := w.mailbox[0]; var p := w.phils[m.sender]; var v := Holding(w, m.sender);
            && p.replies == [] && v == EndView(p)
            && (if m.kind == Left then p.phase == AskingLeft && v == Nothing && m.fork == m.sender
                else p.phase == AskingRight && v == HasLeft && m.fork == RightOf(m.sender, |w.phils|))
  {
    var m := w.mailbox[0];
    var i, n := m.sender, |w.phils|;
    var p, v := w.phils[i], Holding(w, i);
    assert PhilOk(w, i);
    assert Views(w)[i] == v;
    assert Before(RightOf(i, n), n) == i;
    ShapeEnds(w.mailbox[1..], i, n, v, p.phase, EndView(p));
  }

  lemma {:induction false} ServeOwn(w: World)
    requires Inv(w) && w.mailbox != []
    ensures var m := w.mailbox[0];
            PhilOk(Step(w, Serve), m.sender)
            && Holding(Step(w, Serve), m.sender) == Served(w.desk, m, Holding(w, m.sender))
  {
    var m, w' := w.mailbox[0], Step(w, Serve);
    var i, n := m.sender, |w.phils|;
    var p, q, v := w.phils[i], w'.phils[i], Holding(w, i);
    var u := Served(w.desk, m, v);
    assert PhilOk(w, i);
    if Grants(w.desk, m) {
      GrantIsCurrent(w);
      ShapeGrant(w'.mailbox, i, n, p.phase, v, u);
    }
    ShapeView(w'.mailbox, i, n, u, q.phase, EndView(q));
  }

  // Philosopher i gets a free fork, or gives one back.
  lemma {:induction false} ForkMoves(free: seq<bool>, v: seq<View>, i: nat, u: View, f: nat, b: bool)
    requires ForksOk(free, v) && i < |free| && f < |free|
    requires || (f == i && HasL(v[i]) == b && HasL(u) == !b && HasR(u) == HasR(v[i]))
             || (f == RightOf(i, |free|) && HasR(v[i]) == b && HasR(u) == !b && HasL(u) == HasL(v[i]))
    requires free[f] == !b
    ensures ForksOk(free[f := b], v[i := u])
  {
    hide HasL, HasR;
    var n := |free|;
    assert Before(RightOf(i, n), n) == i;
    forall g | 0 <= g < n ensures RightOf(Before(g, n), n) == g {
    }
  }

  // Serving a message moves the forks as the views say.
  lemma {:induction false} ServeForks(w: World)
    requires Inv(w) && w.mailbox != []
    ensures var m := w.mailbox[0];
            var d := Answered(w.desk, m);
            ForksOk(d.free, Views(w)[m.sender := Served(w.desk, m, Holding(w, m.sender))]) && d.inUse == Used(d.free)
  {
    var m := w.mailbox[0];
    var i, n := m.sender, |w.phils|;
    var v := Holding(w, i);
    assert PhilOk(w, i) && Views(w)[i] == v;
    assert Before(RightOf(i, n), n) == i;
    UsedSet(w.desk.free, m.fork, m.kind == Drop);
    if Grants(w.desk, m) {
      GrantIsCurrent(w);
    }
    if m.kind == Drop || Grants(w.desk, m) {
      ForkMoves(w.desk.free, Views(w), i, Served(w.desk, m, v), m.fork, m.kind == Drop);
    } else {
      assert Views(w)[i := v] == Views(w);
    }
  }

  // Somebody remains without a left fork.
  lemma {:induction false} ServeSpares(w: World)
    requires Inv(w) && w.mailbox != []
    ensures var m := w.mailbox[0];
            var v := Views(w)[m.sender := Served(w.desk, m, Holding(w, m.sender))];
            exists i :: 0 <= i < |v| && !HasL(v[i])
  {
    hide Shape, Used;
    var m := w.mailbox[0];
    var i, n := m.sender, |w.phils|;
    var v := Views(w)[i := Served(w.desk, m, Holding(w, i))];
    var d := Answered(w.desk, m);
    ServeForks(w);
    if Grants(w.desk, m) && m.kind == Left {
      SomeFree(d.free);
      var f :| 0 <= f < n && d.free[f];
      assert !HasL(v[f]);
    } else {
      assert PhilOk(w, i) && Views(w)[i] == Holding(w, i);
      if Grants(w.desk, m) {
        GrantIsCurrent(w);
      }
      var f :| 0 <= f < n && !HasL(Views(w)[f]);
      assert !HasL(v[f]);
    }
  }

  lemma {:induction false} SomeFree(free: seq<bool>)
    requires Used(free) < |free|
    ensures exists f :: 0 <= f < |free| && free[f]
  {
    if !free[0] {
      SomeFree(free[1..]);
      var f :| 0 <= f < |free[1..]| && free[1..][f];
      assert free[f + 1];
    }
  }

  lemma {:induction false} ServeOk(w: World)
    requires Inv(w) && w.mailbox != []
    ensures Inv(Step(w, Serve))
  {
    hide ForksOk, RepliesOk, Used, Served, HasL, HasR;
    var m, w' := w.mailbox[0], Step(w, Serve);
    ServeOwn(w);
    ServeForks(w);
    ServeSpares(w);
    forall j | 0 <= j < |w.phils| && j != m.sender ensures PhilOk(w', j) && Holding(w', j) == Holding(w, j) {
      assert PhilOk(w, j);
    }
    assert Views(w') == Views(w)[m.sender := Served(w.desk, m, Holding(w, m.sender))];
    assert forall k :: 0 <= k < |w'.mailbox| ==> w'.mailbox[k] == w.mailbox[k + 1];
  }

  lemma {:induction false} StepOk(w: World, e: Event)
    requires Inv(w) && Legal(w, e)
    ensures Inv(Step(w, e))
  {
    if e.Serve? {
      ServeOk(w);
    } else {
      TurnOk(w, e);
    }
  }
}
