// Finite lists without repetition: the abstract values of the kernel's
// intrusive linked lists.

module Lists {

  datatype Option<+T> = None | Some(value: T)

  ghost predicate NoDup<T>(l: seq<T>) {
    forall i, j :: 0 <= i < j < |l| ==> l[i] != l[j]
  }

  // The position of the first occurrence of x.
  function IndexOf<T(==)>(l: seq<T>, x: T): (i: nat)
    requires x in l
    ensures i < |l| && l[i] == x && x !in l[..i]
  {
    if l[0] == x then 0 else 1 + IndexOf(l[1..], x)
  }

  // The list with the first occurrence of x unlinked; unchanged when x is absent.
  function Remove<T(==)>(l: seq<T>, x: T): (r: seq<T>)
    ensures x in l ==> |r| == |l| - 1
    ensures x !in l ==> r == l
  {
    if x in l then var i := IndexOf(l, x); l[..i] + l[i + 1..] else l
  }

  lemma {:induction false} RemoveFirst<T>(l: seq<T>)
    requires l != []
    ensures Remove(l, l[0]) == l[1..]
  {
    assert IndexOf(l, l[0]) == 0;
  }

  lemma {:induction false} RemoveAt<T>(l: seq<T>, i: nat)
    requires NoDup(l) && i < |l|
    ensures IndexOf(l, l[i]) == i && Remove(l, l[i]) == l[..i] + l[i + 1..]
  {
    var j := IndexOf(l, l[i]);
    assert l[j] == l[i];
  }

  lemma {:induction false} RemoveMembers<T>(l: seq<T>, x: T)
    requires NoDup(l)
    ensures NoDup(Remove(l, x))
    ensures forall y {:trigger y in Remove(l, x)} {:trigger y in l} :: y in Remove(l, x) <==> y in l && y != x
  {
    if x in l {
      var i := IndexOf(l, x);
      var r := Remove(l, x);
      forall y ensures y in r <==> y in l && y != x {
        if y in l && y != x {
          var j := IndexOf(l, y);
          assert if j < i then r[j] == y else r[j - 1] == y;
        }
      }
    }
  }

  lemma {:induction false} NoDupAppend<T>(l: seq<T>, x: T)
    requires NoDup(l) && x !in l
    ensures NoDup(l + [x])
  {
  }

  // Unlinking x moves another element up by at most one place.
  lemma {:induction false} RemoveKeepsIndex<T>(l: seq<T>, x: T, y: T)
    requires NoDup(l) && y in l && y != x
    ensures y in Remove(l, x) && IndexOf(Remove(l, x), y) <= IndexOf(l, y)
  {
    RemoveMembers(l, x);
    var i := IndexOf(l, y);
    if x in l {
      var j := if i < IndexOf(l, x) then i else i - 1;
      RemovedAt(l, x, j);
      RemoveAt(Remove(l, x), j);
    }
  }

  lemma {:induction false} IndexOfTail<T>(l: seq<T>, x: T)
    requires x in l && l[0] != x
    ensures x in l[1..] && IndexOf(l, x) == 1 + IndexOf(l[1..], x)
  {
  }

  function InsertAt<T>(l: seq<T>, i: nat, x: T): (r: seq<T>)
    requires i <= |l|
    ensures |r| == |l| + 1
    ensures forall j :: 0 <= j < |r| ==> r[j] == if j < i then l[j] else if j == i then x else l[j - 1]
  {
    l[..i] + [x] + l[i..]
  }

  lemma {:induction false} InsertMember<T>(l: seq<T>, i: nat, x: T, y: T)
    requires i <= |l|
    ensures y in InsertAt(l, i, x) <==> y in l || y == x
  {
    var r := InsertAt(l, i, x);
    if y in l {
      var j :| 0 <= j < |l| && l[j] == y;
      assert if j < i then r[j] == y else r[j + 1] == y;
    }
    assert x == r[i];
  }

  lemma {:induction false} InsertMembers<T>(l: seq<T>, i: nat, x: T)
    requires NoDup(l) && i <= |l| && x !in l
    ensures NoDup(InsertAt(l, i, x))
    ensures forall y {:trigger y in InsertAt(l, i, x)} {:trigger y in l} :: y in InsertAt(l, i, x) <==> y in l || y == x
    ensures Remove(InsertAt(l, i, x), x) == l
  {
    hide IndexOf, Remove;
    forall y ensures y in InsertAt(l, i, x) <==> y in l || y == x {
      InsertMember(l, i, x, y);
    }
    RemoveAt(InsertAt(l, i, x), i);
  }

  lemma {:induction false} IndexOfAppend<T>(l: seq<T>, m: seq<T>, x: T)
    requires x in l
    ensures x in l + m && IndexOf(l + m, x) == IndexOf(l, x)
  {
    if l[0] != x {
      assert (l + m)[1..] == l[1..] + m;
      IndexOfAppend(l[1..], m, x);
    }
  }

  // ---------------------------------------------------------------------------
  // Successors: what the link field of a node of a null-terminated list holds
  // ---------------------------------------------------------------------------

  function First<T>(l: seq<T>): Option<T> {
    if l == [] then None else Some(l[0])
  }

  function Succ<T(==)>(l: seq<T>, x: T): Option<T> {
    if x in l && IndexOf(l, x) + 1 < |l| then Some(l[IndexOf(l, x) + 1]) else None
  }

  lemma {:induction false} SuccAt<T>(l: seq<T>, i: nat)
    requires NoDup(l) && i < |l|
    ensures Succ(l, l[i]) == if i + 1 < |l| then Some(l[i + 1]) else None
  {
    RemoveAt(l, i);
  }

  lemma {:induction false} SuccMember<T>(l: seq<T>, x: T)
    ensures Succ(l, x).Some? ==> x in l && Succ(l, x).value in l
  {
  }

  // x heads l, or follows `before` on it.
  ghost predicate Precedes<T>(l: seq<T>, before: Option<T>, x: T) {
    x in l && if x == l[0] then before == None else before.Some? && Succ(l, before.value) == Some(x)
  }

  // Nothing precedes the head, and at most one node precedes any other.
  lemma {:induction false} SuccInjective<T>(l: seq<T>, x: T, y: T)
    requires NoDup(l)
    ensures l != [] ==> Succ(l, x) != Some(l[0])
    ensures Succ(l, x).Some? && Succ(l, x) == Succ(l, y) ==> x == y
  {
    if x in l {
      SuccAt(l, IndexOf(l, x));
    }
    if y in l {
      SuccAt(l, IndexOf(l, y));
    }
  }

  lemma {:induction false} SuccAppend<T>(l: seq<T>, x: T, y: T)
    requires NoDup(l) && x !in l
    ensures Succ(l + [x], y) == if l != [] && y == l[|l| - 1] then Some(x) else Succ(l, y)
  {
    NoDupAppend(l, x);
    var r := l + [x];
    if y in l {
      var i := IndexOf(l, y);
      SuccAt(l, i);
      SuccAt(r, i);
    } else if y == x {
      SuccAt(r, |l|);
    }
  }

  lemma {:induction false} SuccRemove<T>(l: seq<T>, x: T, y: T)
    requires NoDup(l) && x in l && y != x
    ensures Succ(Remove(l, x), y) == if Succ(l, y) == Some(x) then Succ(l, x) else Succ(l, y)
  {
    RemoveMembers(l, x);
    if y in l {
      var k, i := IndexOf(l, x), IndexOf(l, y);
      SuccAt(l, i);
      SuccAt(l, k);
      var j := if i < k then i else i - 1;
      RemovedAt(l, x, j);
      RemovedAt(l, x, j + 1);
      SuccAt(Remove(l, x), j);
    }
  }

  lemma {:induction false} RemovedAt<T>(l: seq<T>, x: T, j: nat)
    requires x in l
    ensures j < |l| - 1 ==> Remove(l, x)[j] == if j < IndexOf(l, x) then l[j] else l[j + 1]
  {
  }

  lemma {:induction false} SuccInsert<T>(l: seq<T>, i: nat, x: T, y: T)
    requires NoDup(l) && i <= |l| && x !in l
    ensures Succ(InsertAt(l, i, x), y) ==
            if y == x then (if i < |l| then Some(l[i]) else None)
            else if i > 0 && y == l[i - 1] then Some(x)
            else Succ(l, y)
  {
    InsertMembers(l, i, x);
    SuccInserted(l, InsertAt(l, i, x), i, x, y);
  }

  lemma {:induction false} SuccInserted<T>(l: seq<T>, r: seq<T>, i: nat, x: T, y: T)
    requires NoDup(l) && i <= |l| && x !in l && NoDup(r) && |r| == |l| + 1
    requires r[..i] == l[..i] && r[i] == x && r[i + 1..] == l[i..]
    requires y in r <==> y in l || y == x
    ensures Succ(r, y) ==
            if y == x then (if i < |l| then Some(l[i]) else None)
            else if i > 0 && y == l[i - 1] then Some(x)
            else Succ(l, y)
  {
    if y == x {
      assert i < |l| ==> r[i + 1] == r[i + 1..][0];
      SuccAt(r, i);
    } else if y in l {
      var j := IndexOf(l, y);
      SuccAt(l, j);
      if j < i {
        assert j < i - 1 ==> l[j] != l[i - 1];
        assert r[j] == r[..i][j] && (j + 1 < i ==> r[j + 1] == r[..i][j + 1]);
        SuccAt(r, j);
      } else {
        assert i > 0 ==> l[i - 1] != l[j];
        assert r[j + 1] == r[i + 1..][j - i] && (j + 1 < |l| ==> r[j + 2] == r[i + 1..][j + 1 - i]);
        SuccAt(r, j + 1);
      }
    }
  }

  // The node at place i, or `end` behind the last one.
  function At<T>(l: seq<T>, i: nat, end: T): T {
    if i < |l| then l[i] else end
  }

  // The ends of a list from which x was unlinked.
  lemma {:induction false} RemoveEnds<T>(l: seq<T>, x: T)
    requires NoDup(l) && x in l
    ensures First(Remove(l, x)) == if l[0] == x then Succ(l, x) else Some(l[0])
    ensures Remove(l, x) == [] <==> |l| == 1
    ensures x != l[|l| - 1] ==> Remove(l, x) != [] && Remove(l, x)[|l| - 2] == l[|l| - 1]
    ensures x == l[|l| - 1] && |l| > 1 ==> Remove(l, x)[|l| - 2] == l[|l| - 2] && Succ(l, l[|l| - 2]) == Some(x)
  {
    SuccAt(l, 0);
    if |l| > 1 {
      RemovedAt(l, x, 0);
      RemovedAt(l, x, |l| - 2);
      SuccAt(l, |l| - 2);
      RemoveAt(l, |l| - 1);
    }
  }

  // Unlinking x changes the head of the list or one link, and leaves no link to x.
  lemma {:induction false} Unlinking<T>(l: seq<T>, before: Option<T>, x: T)
    requires NoDup(l) && Precedes(l, before, x)
    ensures before != Some(x)
    ensures First(Remove(l, x)) == (if before.None? then Succ(l, x) else First(l)) != Some(x)
    ensures forall y | y != x ::
              Succ(Remove(l, x), y) == (if before == Some(y) then Succ(l, x) else Succ(l, y)) != Some(x)
  {
    RemoveEnds(l, x);
    RemoveMembers(l, x);
    SuccInjective(l, x, x);
    forall y | y != x
      ensures Succ(Remove(l, x), y) == (if before == Some(y) then Succ(l, x) else Succ(l, y)) != Some(x)
    {
      SuccRemove(l, x, y);
      SuccMember(Remove(l, x), y);
      if before.Some? {
        SuccInjective(l, y, before.value);
      } else {
        SuccInjective(l, y, y);
      }
    }
  }

  // What two stretches of a run put out and leave, joined.
  lemma {:induction false} JoinSteps<T>(a: seq<T>, b: seq<T>, c: seq<T>, d: seq<T>, e: seq<T>, f: seq<T>, g: seq<T>)
    requires a + b == c + d && e + f == b + g
    ensures (a + e) + f == c + (d + g)
  {
    assert (a + e) + f == a + (e + f);
    assert a + (b + g) == (a + b) + g;
  }
}
