// The handle table of a process, from its creation (ObInitProcess) to the closing
// of its handles (ObKillProcess).

module ObProcesses {
  import opened Lists
  import opened SchedulerSpec
  import opened ObSpec

  predicate Inheritable(x: Slot) { x.Holds? && x.inherit }

  // The loop of ObInitProcess from slot i on, for a process p with a parent.
  function InheritFrom(s: Objects, parent: nat, p: nat, i: nat): (t: Objects)
    requires TablesOk(s) && parent in s.tables && p in s.tables && i <= MAX_HANDLE_COUNT
    decreases MAX_HANDLE_COUNT - i
  {
    if i == MAX_HANDLE_COUNT then s
    else if Inheritable(s.tables[parent][i]) then
      InheritFrom(AddHandle(s, p, i, s.tables[parent][i].target, true), parent, p, i + 1)
    else InheritFrom(s, parent, p, i + 1)
  }

  // A zeroed handle table.
  function WithTable(s: Objects, p: nat): Objects {
    s.(tables := s.tables[p := seq(MAX_HANDLE_COUNT, _ => Empty)])
  }

  // ObInitProcess
  function InitProcess(s: Objects, parent: Option<nat>, p: nat): Objects
    requires TablesOk(s) && (parent.Some? ==> parent.value in s.tables)
  {
    if parent.None? then WithTable(s, p) else InheritFrom(WithTable(s, p), parent.value, p, 0)
  }

  // The loop of ObKillProcess: for every handle that is open in the victim's table
  // from slot i on, the handle with that number is closed in process cur.
  function CloseAll(s: Objects, victim: nat, cur: nat, i: nat): Outcome<Objects>
    requires ObOk(s) && victim in s.tables && cur in s.tables && i <= MAX_HANDLE_COUNT
    decreases MAX_HANDLE_COUNT - i
  {
    if i == MAX_HANDLE_COUNT then Continues(s)
    else if s.tables[victim][i].Empty? then CloseAll(s, victim, cur, i + 1)
    else
      CloseOk(s, cur, i);
      match Close(s, cur, i)
      case Halts => Halts
      case Continues((t, _)) => CloseAll(t, victim, cur, i + 1)
  }

  // ObKillProcess
  function KillProcess(s: Objects, victim: nat, cur: nat): Outcome<Objects>
    requires ObOk(s) && victim in s.tables && cur in s.tables
  {
    CloseAll(s, victim, cur, 0)
  }

  // ---------------------------------------------------------------------------
  // Inheriting
  // ---------------------------------------------------------------------------

  lemma {:induction false} WithTableOk(s: Objects, p: nat)
    requires ObOk(s) && p !in s.tables
    ensures ObOk(WithTable(s, p))
  {
    var t := WithTable(s, p);
    forall o ensures Slots(t, o) == Slots(s, o) {
      assert forall k | k in Slots(t, o) :: k == (k.0, k.1);
    }
  }

  // The references of all objects but for the handles.
  ghost predicate SameClaims(s: Objects, t: Objects) {
    && t.header.Keys == s.header.Keys
    && t.lists == s.lists
    && forall o | o in s.header :: o in t.header && Outstanding(t, o) == Outstanding(s, o)
         && t.header[o].handles >= s.header[o].handles
         && t.header[o].permanent == s.header[o].permanent && t.header[o].typ == s.header[o].typ
  }

  lemma {:induction false} AddHandleClaims(s: Objects, p: nat, i: nat, o: nat)
    requires ObOk(s) && p in s.tables && i < |s.tables[p]| && s.tables[p][i] == Empty && o in s.header
    ensures var t := AddHandle(s, p, i, o, true);
            && ObOk(t) && SameClaims(s, t) && t.tables == s.tables[p := s.tables[p][i := Holds(o, true)]]
  {
    hide CountsOk, TypeListsOk, TablesOk;
    AddHandleOk(s, p, i, o, true);
  }

  lemma {:induction false} ClaimsReflexive(s: Objects)
    ensures SameClaims(s, s)
  {
  }

  lemma {:induction false} ClaimsTransitive(s: Objects, t: Objects, u: Objects)
    requires SameClaims(s, t) && SameClaims(t, u)
    ensures SameClaims(s, u)
  {
  }

  // The new table gets exactly the inheritable handles of the parent, in the same
  // slots. Nothing else changes but the counters of the objects they name.
  lemma {:induction false} InheritOk(s: Objects, parent: nat, p: nat, i: nat)
    requires ObOk(s) && parent in s.tables && p in s.tables && p != parent && i <= MAX_HANDLE_COUNT
    requires forall j :: i <= j < MAX_HANDLE_COUNT ==> s.tables[p][j] == Empty
    ensures var t := InheritFrom(s, parent, p, i);
            && ObOk(t) && SameClaims(s, t) && t.tables.Keys == s.tables.Keys
            && (forall q | q in s.tables && q != p :: t.tables[q] == s.tables[q])
            && (forall j :: 0 <= j < i ==> t.tables[p][j] == s.tables[p][j])
            && (forall j :: i <= j < MAX_HANDLE_COUNT ==>
                  t.tables[p][j] == if Inheritable(s.tables[parent][j]) then s.tables[parent][j] else Empty)
    decreases MAX_HANDLE_COUNT - i
  {
    hide CountsOk, TypeListsOk, AddHandle, SameClaims;
    if i == MAX_HANDLE_COUNT {
      ClaimsReflexive(s);
    } else {
      if Inheritable(s.tables[parent][i]) {
        var o := s.tables[parent][i].target;
        AddHandleClaims(s, p, i, o);
        InheritOk(AddHandle(s, p, i, o, true), parent, p, i + 1);
        ClaimsTransitive(s, AddHandle(s, p, i, o, true), InheritFrom(s, parent, p, i));
      } else {
        InheritOk(s, parent, p, i + 1);
      }
    }
  }

  lemma {:induction false} InitProcessOk(s: Objects, parent: Option<nat>, p: nat)
    requires ObOk(s) && p !in s.tables && (parent.Some? ==> parent.value in s.tables)
    ensures var t := InitProcess(s, parent, p);
            && ObOk(t) && SameClaims(s, t) && t.tables.Keys == s.tables.Keys + {p}
            && (forall q | q in s.tables :: t.tables[q] == s.tables[q])
            && (forall j :: 0 <= j < MAX_HANDLE_COUNT ==>
                  t.tables[p][j] ==
                  if parent.Some? && s.tables[parent.value][j].Holds? && s.tables[parent.value][j].inherit
                  then s.tables[parent.value][j] else Empty)
  {
    hide CountsOk, TypeListsOk;
    WithTableOk(s, p);
    if parent.Some? {
      InheritOk(WithTable(s, p), parent.value, p, 0);
    }
  }

  // An object none of the parent's handles is for is not concerned.
  lemma {:induction false} InheritSpares(s: Objects, parent: nat, p: nat, i: nat, o: nat)
    requires ObOk(s) && parent in s.tables && p in s.tables && p != parent && i <= MAX_HANDLE_COUNT
    requires forall j :: i <= j < MAX_HANDLE_COUNT ==> s.tables[p][j] == Empty
    requires o in s.header && forall j :: i <= j < MAX_HANDLE_COUNT ==> !Names(s.tables[parent][j], o)
    ensures o in InheritFrom(s, parent, p, i).header && InheritFrom(s, parent, p, i).header[o] == s.header[o]
    decreases MAX_HANDLE_COUNT - i
  {
    hide CountsOk, TypeListsOk;
    if i < MAX_HANDLE_COUNT {
      if Inheritable(s.tables[parent][i]) {
        AddHandleOk(s, p, i, s.tables[parent][i].target, true);
        InheritSpares(AddHandle(s, p, i, s.tables[parent][i].target, true), parent, p, i + 1, o);
      } else {
        InheritSpares(s, parent, p, i + 1, o);
      }
    }
  }

  // Every inherited handle counts.
  lemma {:induction false} InheritCounts(s: Objects, parent: nat, p: nat, i: nat, j: nat)
    requires ObOk(s) && parent in s.tables && p in s.tables && p != parent && i <= j < MAX_HANDLE_COUNT
    requires forall k :: i <= k < MAX_HANDLE_COUNT ==> s.tables[p][k] == Empty
    requires Inheritable(s.tables[parent][j])
    ensures var o := s.tables[parent][j].target;
            o in s.header && o in InheritFrom(s, parent, p, i).header
            && InheritFrom(s, parent, p, i).header[o].handles > s.header[o].handles
    decreases MAX_HANDLE_COUNT - i
  {
    hide CountsOk, TypeListsOk;
    if Inheritable(s.tables[parent][i]) {
      var t := AddHandle(s, p, i, s.tables[parent][i].target, true);
      AddHandleOk(s, p, i, s.tables[parent][i].target, true);
      if i < j {
        InheritCounts(t, parent, p, i + 1, j);
      } else {
        InheritOk(t, parent, p, i + 1);
      }
    } else {
      InheritCounts(s, parent, p, i + 1, j);
    }
  }

  // How many inheritable handles to o the table has from slot i on.
  function ToInherit(t: seq<Slot>, o: nat, i: nat): nat
    requires i <= |t|
    decreases |t| - i
  {
    if i == |t| then 0 else (if Inheritable(t[i]) && Names(t[i], o) then 1 else 0) + ToInherit(t, o, i + 1)
  }

  // Inheriting raises HandleCount by exactly that number.
  lemma {:induction false} InheritExact(s: Objects, parent: nat, p: nat, i: nat, o: nat)
    requires ObOk(s) && parent in s.tables && p in s.tables && p != parent && i <= MAX_HANDLE_COUNT
    requires forall j :: i <= j < MAX_HANDLE_COUNT ==> s.tables[p][j] == Empty
    requires o in s.header
    ensures var t := InheritFrom(s, parent, p, i);
            o in t.header && t.header[o].handles == s.header[o].handles + ToInherit(s.tables[parent], o, i)
    decreases MAX_HANDLE_COUNT - i
  {
    hide CountsOk, TypeListsOk;
    if i < MAX_HANDLE_COUNT {
      if Inheritable(s.tables[parent][i]) {
        var t := AddHandle(s, p, i, s.tables[parent][i].target, true);
        AddHandleOk(s, p, i, s.tables[parent][i].target, true);
        assert t.tables[parent] == s.tables[parent];
        InheritExact(t, parent, p, i + 1, o);
      } else {
        InheritExact(s, parent, p, i + 1, o);
      }
    }
  }

  lemma {:induction false} InheritNothing(s: Objects, parent: nat, p: nat, i: nat)
    requires TablesOk(s) && parent in s.tables && p in s.tables && i <= MAX_HANDLE_COUNT
    requires forall j :: i <= j < MAX_HANDLE_COUNT ==> !Inheritable(s.tables[parent][j])
    ensures InheritFrom(s, parent, p, i) == s
    decreases MAX_HANDLE_COUNT - i
  {
    if i < MAX_HANDLE_COUNT {
      InheritNothing(s, parent, p, i + 1);
    }
  }

  // ---------------------------------------------------------------------------
  // Closing
  // ---------------------------------------------------------------------------

  // A handle table without the handles whose numbers are open in the victim's.
  function Stripped(own: seq<Slot>, victim: seq<Slot>): (r: seq<Slot>)
    requires |own| == |victim|
    ensures |r| == |own| && forall j :: 0 <= j < |r| ==> r[j] == if victim[j].Holds? then Empty else own[j]
  {
    seq(|own|, j requires 0 <= j < |own| => if victim[j].Holds? then Empty else own[j])
  }

  // Closing handles never halts, whatever the victim is, and never frees an object
  // to which there are other references. From slot i on, what is open in the
  // victim's table gets closed in that of process cur, and no other table changes.
  lemma {:induction false} CloseAllOk(s: Objects, victim: nat, cur: nat, i: nat)
    requires ObOk(s) && victim in s.tables && cur in s.tables && i <= MAX_HANDLE_COUNT
    ensures CloseAll(s, victim, cur, i).Continues?
    ensures var t := CloseAll(s, victim, cur, i).value;
            && ObOk(t) && t.lists.Keys == s.lists.Keys && t.tables.Keys == s.tables.Keys
            && (forall x :: x in t.header ==>
                  && x in s.header && Outstanding(t, x) == Outstanding(s, x)
                  && t.header[x].permanent == s.header[x].permanent && t.header[x].typ == s.header[x].typ)
            && (forall x :: x in s.header && (Outstanding(s, x) > 0 || s.header[x].permanent) ==> x in t.header)
            && (forall q | q in s.tables && q != cur :: t.tables[q] == s.tables[q])
            && (forall j :: 0 <= j < MAX_HANDLE_COUNT ==>
                  t.tables[cur][j] == if j >= i && s.tables[victim][j].Holds? then Empty else s.tables[cur][j])
    decreases MAX_HANDLE_COUNT - i
  {
    hide CountsOk, TypeListsOk, Close;
    if i < MAX_HANDLE_COUNT {
      if s.tables[victim][i].Empty? {
        CloseAllOk(s, victim, cur, i + 1);
      } else {
        CloseOk(s, cur, i);
        CloseAllOk(Close(s, cur, i).value.0, victim, cur, i + 1);
      }
    }
  }

  // The whole of ObKillProcess: a process that is current closes all its handles.
  lemma {:induction false} KillProcessOk(s: Objects, victim: nat, cur: nat)
    requires ObOk(s) && victim in s.tables && cur in s.tables
    ensures |s.tables[cur]| == |s.tables[victim]| == MAX_HANDLE_COUNT
    ensures KillProcess(s, victim, cur).Continues?
    ensures KillProcess(s, victim, cur).value.tables == s.tables[cur := Stripped(s.tables[cur], s.tables[victim])]
    ensures victim == cur ==>
            KillProcess(s, victim, cur).value.tables == s.tables[cur := seq(MAX_HANDLE_COUNT, _ => Empty)]
  {
    hide CountsOk, TypeListsOk, CloseAll;
    CloseAllOk(s, victim, cur, 0);
    var t := KillProcess(s, victim, cur).value;
    assert t.tables[cur] == Stripped(s.tables[cur], s.tables[victim]);
    assert t.tables == s.tables[cur := Stripped(s.tables[cur], s.tables[victim])];
    assert victim == cur ==> Stripped(s.tables[cur], s.tables[victim]) == seq(MAX_HANDLE_COUNT, _ => Empty);
  }

  // ---------------------------------------------------------------------------
  // Inheriting and closing again
  // ---------------------------------------------------------------------------

  // Handles can be added in any order.
  lemma {:induction false} AddHandlesCommute(s: Objects, p: nat, i: nat, o: nat, j: nat, x: nat)
    requires p in s.tables && i < |s.tables[p]| && j < |s.tables[p]| && i != j && o in s.header && x in s.header
    ensures AddHandle(AddHandle(s, p, i, o, true), p, j, x, true)
        == AddHandle(AddHandle(s, p, j, x, true), p, i, o, true)
  {
    var a := AddHandle(AddHandle(s, p, i, o, true), p, j, x, true);
    var b := AddHandle(AddHandle(s, p, j, x, true), p, i, o, true);
    assert a.tables[p] == b.tables[p];
    assert a.tables == b.tables;
    assert a.header == b.header;
  }

  // t has one more handle than s, in slot i of process p.
  ghost predicate OneMore(s: Objects, t: Objects, p: nat, i: nat, o: nat) {
    && p in s.tables && i < |s.tables[p]| && s.tables[p][i] == Empty && o in s.header
    && t == AddHandle(s, p, i, o, true)
  }

  lemma {:induction false} OneMoreBoth(s: Objects, s1: Objects, p: nat, i: nat, o: nat, j: nat, x: nat)
    requires ObOk(s) && ObOk(s1) && OneMore(s, s1, p, i, o)
    requires i != j < MAX_HANDLE_COUNT && s.tables[p][j] == Empty && x in s.header
    ensures j < |s1.tables[p]| && s1.tables[p][j] == Empty && x in s1.header
    ensures var u, u1 := AddHandle(s, p, j, x, true), AddHandle(s1, p, j, x, true);
            ObOk(u) && ObOk(u1) && OneMore(u, u1, p, i, o)
  {
    AddHandleOk(s, p, j, x, true);
    AddHandleOk(s1, p, j, x, true);
    AddHandlesCommute(s, p, i, o, j, x);
  }

  // A handle added first stays a handle added.
  lemma {:induction false} InheritCommutes(s: Objects, s1: Objects, parent: nat, p: nat, i: nat, o: nat, j: nat)
    requires ObOk(s) && ObOk(s1) && OneMore(s, s1, p, i, o)
    requires parent in s.tables && parent in s1.tables && p != parent && i < j <= MAX_HANDLE_COUNT
    requires forall k :: j <= k < MAX_HANDLE_COUNT ==> s.tables[p][k] == Empty
    ensures OneMore(InheritFrom(s, parent, p, j), InheritFrom(s1, parent, p, j), p, i, o)
    decreases MAX_HANDLE_COUNT - j
  {
    hide CountsOk, TypeListsOk;
    if j < MAX_HANDLE_COUNT {
      if Inheritable(s.tables[parent][j]) {
        var x := s.tables[parent][j].target;
        OneMoreBoth(s, s1, p, i, o, j, x);
        InheritCommutes(AddHandle(s, p, j, x, true), AddHandle(s1, p, j, x, true), parent, p, i, o, j + 1);
      } else {
        InheritCommutes(s, s1, parent, p, i, o, j + 1);
      }
    }
  }

  // What a process inherited and closes at once leaves no trace.
  lemma {:induction false} InheritCloseRoundTrip(s: Objects, parent: nat, p: nat, i: nat)
    requires ObOk(s) && parent in s.tables && p in s.tables && p != parent && i <= MAX_HANDLE_COUNT
    requires forall j :: i <= j < MAX_HANDLE_COUNT ==> s.tables[p][j] == Empty
    ensures ObOk(InheritFrom(s, parent, p, i)) && p in InheritFrom(s, parent, p, i).tables
    ensures CloseAll(InheritFrom(s, parent, p, i), p, p, i) == Continues(s)
    decreases MAX_HANDLE_COUNT - i
  {
    hide CountsOk, TypeListsOk, Close;
    InheritOk(s, parent, p, i);
    if i < MAX_HANDLE_COUNT {
      if Inheritable(s.tables[parent][i]) {
        var o := s.tables[parent][i].target;
        AddHandleOk(s, p, i, o, true);
        InheritCommutes(s, AddHandle(s, p, i, o, true), parent, p, i, o, i + 1);
        var u := InheritFrom(s, parent, p, i + 1);
        InheritOk(s, parent, p, i + 1);
        CloseAdded(u, p, i, o);
      }
      InheritCloseRoundTrip(s, parent, p, i + 1);
    }
  }

  lemma {:induction false} CloseAdded(s: Objects, p: nat, i: nat, o: nat)
    requires ObOk(s) && p in s.tables && i < MAX_HANDLE_COUNT && s.tables[p][i] == Empty && o in s.header
    ensures ObOk(AddHandle(s, p, i, o, true)) && Close(AddHandle(s, p, i, o, true), p, i) == Continues((s, Success))
  {
    hide Slots;
    AddHandleOk(s, p, i, o, true);
    CountsBound(s, o);
    HandleUndone(s, p, i, o, true);
    CloseIs(AddHandle(s, p, i, o, true), p, i);
  }

  // ObInitProcess followed by ObKillProcess in the new process.
  lemma {:induction false} InitKillRoundTrip(s: Objects, parent: nat, p: nat)
    requires ObOk(s) && parent in s.tables && p !in s.tables
    ensures var t := InitProcess(s, Some(parent), p);
            ObOk(t) && p in t.tables && KillProcess(t, p, p) == Continues(WithTable(s, p))
  {
    WithTableOk(s, p);
    InheritCloseRoundTrip(WithTable(s, p), parent, p, 0);
  }
}
