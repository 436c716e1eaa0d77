// The object manager of base/ob/ob.c as functions on an abstract state: the
// headers of all objects that have not been freed, the handle tables, and the
// list of the objects of each type. An object is known by a number.

module ObSpec {
  import opened Lists
  import opened Words
  import opened SchedulerSpec

  const MAX_HANDLE_COUNT: nat := 256

  // typ is None for a type object itself.
  datatype Entry = Entry(handles: nat, pointers: nat, permanent: bool, typ: Option<nat>)

  datatype Slot = Empty | Holds(target: nat, inherit: bool)

  // tables also keeps the handle table of a process whose object was freed: the
  // slots still open in it are never closed.
  datatype Objects = Objects(header: map<nat, Entry>, tables: map<nat, seq<Slot>>, lists: map<nat, seq<nat>>)

  datatype Status = Success | InvalidHandle | TypeMismatch | HandleLimitReached | InsufficientResources | NoMemory

  // ---------------------------------------------------------------------------
  // Operations
  // ---------------------------------------------------------------------------

  // ObCreateObjectType: a permanent object with an empty list.
  function CreateType(s: Objects, o: nat): Objects {
    s.(header := s.header[o := Entry(0, 1, true, None)], lists := s.lists[o := []])
  }

  // ObCreateObject
  function CreateObject(s: Objects, o: nat, permanent: bool, typ: nat): Objects
    requires typ in s.lists
  {
    s.(header := s.header[o := Entry(0, 1, permanent, Some(typ))], lists := s.lists[typ := [o] + s.lists[typ]])
  }

  // The first free slot from i on.
  function FreeFrom(t: seq<Slot>, i: nat): (r: Option<nat>)
    requires i <= |t|
    ensures r.Some? ==> i <= r.value < |t| && t[r.value] == Empty && forall j :: i <= j < r.value ==> t[j] != Empty
    ensures r.None? ==> forall j :: i <= j < |t| ==> t[j] != Empty
    decreases |t| - i
  {
    if i == |t| then None else if t[i] == Empty then Some(i) else FreeFrom(t, i + 1)
  }

  // No type given, or the one the object has.
  predicate TypeFits(s: Objects, o: nat, typ: Option<nat>)
    requires o in s.header
  {
    typ == None || s.header[o].typ == typ
  }

  // Slot i of process p gets to name o, and both counters of o go up.
  function AddHandle(s: Objects, p: nat, i: nat, o: nat, inherit: bool): Objects
    requires p in s.tables && i < |s.tables[p]| && o in s.header
  {
    var e := s.header[o];
    s.(tables := s.tables[p := s.tables[p][i := Holds(o, inherit)]],
       header := s.header[o := e.(handles := e.handles + 1, pointers := e.pointers + 1)])
  }

  // ObOpenObjectByPointer in process p: the new state, the status and the handle.
  function Open(s: Objects, p: nat, o: nat, inherit: bool, typ: Option<nat>): (Objects, Status, nat)
    requires p in s.tables && o in s.header
  {
    if !TypeFits(s, o, typ) then (s, TypeMismatch, 0)
    else match FreeFrom(s.tables[p], 0)
      case None => (s, HandleLimitReached, 0)
      case Some(i) => (AddHandle(s, p, i, o, inherit), Success, i)
  }

  function AddReference(s: Objects, o: nat): Objects
    requires o in s.header
  {
    s.(header := s.header[o := s.header[o].(pointers := s.header[o].pointers + 1)])
  }

  // ObReferenceObject
  function Reference(s: Objects, o: nat, typ: Option<nat>): (Objects, Status)
    requires o in s.header
  {
    if TypeFits(s, o, typ) then (AddReference(s, o), Success) else (s, TypeMismatch)
  }

  // ObReferenceObjectByHandle in process p: the state, the status and the object.
  function ReferenceByHandle(s: Objects, p: nat, h: nat, typ: Option<nat>): (Objects, Status, Option<nat>)
    requires p in s.tables && |s.tables[p]| == MAX_HANDLE_COUNT
    requires h < MAX_HANDLE_COUNT && s.tables[p][h].Holds? ==> s.tables[p][h].target in s.header
  {
    if h >= MAX_HANDLE_COUNT || s.tables[p][h].Empty? then (s, InvalidHandle, None)
    else if !TypeFits(s, s.tables[p][h].target, typ) then (s, TypeMismatch, None)
    else (AddReference(s, s.tables[p][h].target), Success, Some(s.tables[p][h].target))
  }

  // ObDereferenceObject; unlinking an object that is in no list reaches KeBugCheck.
  function Dereference(s: Objects, o: nat): Outcome<Objects>
    requires o in s.header
  {
    var e := s.header[o];
    if e.handles >= e.pointers then Halts
    else if e.pointers > 1 || e.permanent then Continues(s.(header := s.header[o := e.(pointers := e.pointers - 1)]))
    else if e.typ == None || e.typ.value !in s.lists || o !in s.lists[e.typ.value] then Halts
    else Continues(s.(header := s.header - {o}, lists := s.lists[e.typ.value := Remove(s.lists[e.typ.value], o)]))
  }

  // HandleCount--
  function DropHandle(s: Objects, o: nat): Objects
    requires o in s.header
  {
    var e := s.header[o];
    s.(header := s.header[o := e.(handles := if e.handles == 0 then WORD - 1 else e.handles - 1)])
  }

  function ClearSlot(s: Objects, p: nat, h: nat): Objects
    requires p in s.tables && h < |s.tables[p]|
  {
    s.(tables := s.tables[p := s.tables[p][h := Empty]])
  }

  // ObCloseHandle in process p.
  function Close(s: Objects, p: nat, h: nat): Outcome<(Objects, Status)>
    requires p in s.tables && |s.tables[p]| == MAX_HANDLE_COUNT
    requires h < MAX_HANDLE_COUNT && s.tables[p][h].Holds? ==> s.tables[p][h].target in s.header
  {
    if h >= MAX_HANDLE_COUNT || s.tables[p][h].Empty? then Continues((s, InvalidHandle))
    else
      var o := s.tables[p][h].target;
      match Dereference(DropHandle(s, o), o)
      case Halts => Halts
      case Continues(t) => Continues((ClearSlot(t, p, h), Success))
  }

  // ---------------------------------------------------------------------------
  // The invariant
  // ---------------------------------------------------------------------------

  predicate Names(s: Slot, o: nat) { s.Holds? && s.target == o }

  // The slots that name o.
  ghost function Slots(s: Objects, o: nat): set<(nat, nat)> {
    set p, i | p in s.tables && 0 <= i < |s.tables[p]| && Names(s.tables[p][i], o) :: (p, i)
  }

  ghost predicate TablesOk(s: Objects) {
    forall p | p in s.tables ::
      |s.tables[p]| == MAX_HANDLE_COUNT &&
      forall i :: 0 <= i < MAX_HANDLE_COUNT && s.tables[p][i].Holds? ==> s.tables[p][i].target in s.header
  }

  // HandleCount is the number of slots that name the object.
  ghost predicate CountsOk(s: Objects) {
    forall o | o in s.header ::
      && s.header[o].handles == |Slots(s, o)| <= s.header[o].pointers
      && (s.header[o].permanent || s.header[o].pointers > 0)
  }

  // Each type list holds exactly the objects of that type, once each.
  ghost predicate TypeListsOk(s: Objects) {
    && (forall t | t in s.lists :: t in s.header && s.header[t].typ == None && NoDup(s.lists[t]))
    && (forall o | o in s.header ::
          if s.header[o].typ.Some? then s.header[o].typ.value in s.lists else s.header[o].permanent)
    && (forall t, o {:trigger o in s.lists[t]} | t in s.lists ::
          o in s.lists[t] <==> o in s.header && s.header[o].typ == Some(t))
  }

  ghost predicate ObOk(s: Objects) {
    TablesOk(s) && CountsOk(s) && TypeListsOk(s)
  }

  // How many references to o are not accounted for by handles.
  ghost function Outstanding(s: Objects, o: nat): int
    requires o in s.header
  {
    s.header[o].pointers - s.header[o].handles
  }

  // ---------------------------------------------------------------------------
  // Slots
  // ---------------------------------------------------------------------------

  ghost function WithSlot(s: Objects, p: nat, i: nat, x: Slot): Objects
    requires p in s.tables && i < |s.tables[p]|
  {
    s.(tables := s.tables[p := s.tables[p][i := x]])
  }

  // Writing slot i of process p.
  lemma {:induction false} SlotsWritten(s: Objects, p: nat, i: nat, x: Slot, o: nat)
    requires p in s.tables && i < |s.tables[p]|
    ensures Slots(WithSlot(s, p, i, x), o) == Slots(s, o) - {(p, i)} + (if Names(x, o) then {(p, i)} else {})
    ensures (p, i) in Slots(s, o) <==> Names(s.tables[p][i], o)
  {
    var t := WithSlot(s, p, i, x);
    forall q, j
      ensures (q, j) in Slots(t, o) <==> (q, j) in Slots(s, o) - {(p, i)} + (if Names(x, o) then {(p, i)} else {})
    {
    }
    assert forall k | k in Slots(t, o) :: k == (k.0, k.1);
    assert forall k | k in Slots(s, o) - {(p, i)} + (if Names(x, o) then {(p, i)} else {}) :: k == (k.0, k.1);
  }

  lemma {:induction false} SlotsCounted(s: Objects, p: nat, i: nat, x: Slot, o: nat)
    requires p in s.tables && i < |s.tables[p]|
    ensures |Slots(WithSlot(s, p, i, x), o)|
         == |Slots(s, o)| - (if Names(s.tables[p][i], o) then 1 else 0) + (if Names(x, o) then 1 else 0)
  {
    hide Slots, WithSlot;
    SlotsWritten(s, p, i, x, o);
    var rest := Slots(s, o) - {(p, i)};
    if Names(s.tables[p][i], o) {
      assert Slots(s, o) == rest + {(p, i)};
    } else {
      assert Slots(s, o) == rest;
    }
  }

  // The slots that name an object depend on the tables only.
  lemma {:induction false} SlotsSame(s: Objects, t: Objects)
    requires s.tables == t.tables
    ensures forall o :: Slots(s, o) == Slots(t, o)
  {
  }

  // No slot names what is not there.
  lemma {:induction false} NoSlots(s: Objects, o: nat)
    requires TablesOk(s) && o !in s.header
    ensures |Slots(s, o)| == 0
  {
    assert Slots(s, o) == {};
  }

  lemma {:induction false} NoSlotNames(s: Objects, o: nat)
    requires |Slots(s, o)| == 0
    ensures forall p, i | p in s.tables && 0 <= i < |s.tables[p]| :: !Names(s.tables[p][i], o)
  {
    forall p, i | p in s.tables && 0 <= i < |s.tables[p]| ensures !Names(s.tables[p][i], o) {
      assert (p, i) !in Slots(s, o);
    }
  }

  lemma {:induction false} SomeSlotNames(s: Objects, p: nat, i: nat, o: nat)
    requires p in s.tables && i < |s.tables[p]| && Names(s.tables[p][i], o)
    ensures |Slots(s, o)| > 0
  {
    assert (p, i) in Slots(s, o);
  }

  lemma {:induction false} SlotsFilled(s: Objects, p: nat, i: nat, o: nat, inherit: bool)
    requires p in s.tables && i < |s.tables[p]| && s.tables[p][i] == Empty && o in s.header
    ensures forall x :: |Slots(AddHandle(s, p, i, o, inherit), x)| == |Slots(s, x)| + if x == o then 1 else 0
  {
    forall x ensures |Slots(AddHandle(s, p, i, o, inherit), x)| == |Slots(s, x)| + if x == o then 1 else 0 {
      SlotsCounted(s, p, i, Holds(o, inherit), x);
      SlotsSame(AddHandle(s, p, i, o, inherit), WithSlot(s, p, i, Holds(o, inherit)));
    }
  }

  lemma {:induction false} SlotsCleared(s: Objects, p: nat, h: nat)
    requires p in s.tables && h < |s.tables[p]| && s.tables[p][h].Holds? && s.tables[p][h].target in s.header
    ensures forall x :: |Slots(Unhandled(s, p, h), x)| == |Slots(s, x)| - if x == s.tables[p][h].target then 1 else 0
  {
    forall x ensures |Slots(Unhandled(s, p, h), x)| == |Slots(s, x)| - if x == s.tables[p][h].target then 1 else 0 {
      SlotsCounted(s, p, h, Empty, x);
      SlotsSame(Unhandled(s, p, h), WithSlot(s, p, h, Empty));
    }
  }

  // ---------------------------------------------------------------------------
  // Every operation keeps the invariant
  // ---------------------------------------------------------------------------

  lemma {:induction false} CreateTypeCounts(s: Objects, o: nat)
    requires TablesOk(s) && CountsOk(s) && o !in s.header
    ensures TablesOk(CreateType(s, o)) && CountsOk(CreateType(s, o))
  {
    hide Slots;
    SlotsSame(s, CreateType(s, o));
    NoSlots(s, o);
  }

  lemma {:induction false} CreateTypeLists(s: Objects, o: nat)
    requires TypeListsOk(s) && o !in s.header && o !in s.lists
    ensures TypeListsOk(CreateType(s, o))
  {
  }

  lemma {:induction false} CreateTypeOk(s: Objects, o: nat)
    requires ObOk(s) && o !in s.header && o !in s.lists
    ensures ObOk(CreateType(s, o))
  {
    hide TablesOk, CountsOk, TypeListsOk;
    CreateTypeCounts(s, o);
    CreateTypeLists(s, o);
  }

  lemma {:induction false} CreateObjectOk(s: Objects, o: nat, permanent: bool, typ: nat)
    requires ObOk(s) && o !in s.header && typ in s.lists
    ensures ObOk(CreateObject(s, o, permanent, typ))
  {
    hide Slots;
    var t := CreateObject(s, o, permanent, typ);
    SlotsSame(s, t);
    NoSlots(s, o);
    InsertMembers(s.lists[typ], 0, o);
    assert InsertAt(s.lists[typ], 0, o) == t.lists[typ];
  }

  lemma {:induction false} AddHandleOk(s: Objects, p: nat, i: nat, o: nat, inherit: bool)
    requires ObOk(s) && p in s.tables && i < |s.tables[p]| && s.tables[p][i] == Empty && o in s.header
    ensures ObOk(AddHandle(s, p, i, o, inherit))
  {
    hide Slots;
    SlotsFilled(s, p, i, o, inherit);
  }

  lemma {:induction false} AddReferenceOk(s: Objects, o: nat)
    requires ObOk(s) && o in s.header
    ensures ObOk(AddReference(s, o))
  {
    hide Slots;
    SlotsSame(s, AddReference(s, o));
  }

  // ObOpenObjectByPointer fails on another type, and on a full table; neither changes
  // anything. Otherwise the least free handle names the object, whose two counters
  // are one more, and nothing else changes.
  lemma {:induction false} OpenOk(s: Objects, p: nat, o: nat, inherit: bool, typ: Option<nat>)
    requires ObOk(s) && p in s.tables && o in s.header
    ensures var (t, status, h) := Open(s, p, o, inherit, typ); var table, e := s.tables[p], s.header[o];
            && |table| == MAX_HANDLE_COUNT
            && if typ != None && e.typ != typ then t == s && status == TypeMismatch
               else if forall j :: 0 <= j < MAX_HANDLE_COUNT ==> table[j] != Empty
               then t == s && status == HandleLimitReached
               else
                 && status == Success && h < MAX_HANDLE_COUNT && table[h] == Empty
                 && (forall j :: 0 <= j < h ==> table[j] != Empty)
                 && t == s.(tables := s.tables[p := table[h := Holds(o, inherit)]],
                            header := s.header[o := e.(handles := e.handles + 1, pointers := e.pointers + 1)])
                 && ObOk(t)
  {
    hide Slots, CountsOk, TypeListsOk;
    var (t, status, h) := Open(s, p, o, inherit, typ);
    if status == Success {
      AddHandleOk(s, p, h, o, inherit);
    }
  }

  // t is s with one reference more to o.
  ghost predicate OneReferenceMore(s: Objects, t: Objects, o: nat)
    requires o in s.header
  {
    && t.tables == s.tables && t.lists == s.lists && t.header.Keys == s.header.Keys
    && forall x | x in s.header :: x in t.header
         && t.header[x] == if x == o then s.header[x].(pointers := s.header[x].pointers + 1) else s.header[x]
  }

  // ObReferenceObject raises PointerCount of the object, and that only, or finds
  // that it has another type and changes nothing. Giving the reference up again
  // restores the state.
  lemma {:induction false} ReferenceOk(s: Objects, o: nat, typ: Option<nat>)
    requires ObOk(s) && o in s.header
    ensures var (t, status) := Reference(s, o, typ);
            && status == (if typ == None || s.header[o].typ == typ then Success else TypeMismatch)
            && (status == Success ==>
                  OneReferenceMore(s, t, o) && ObOk(t) && o in t.header && Dereference(t, o) == Continues(s))
            && (status != Success ==> t == s)
  {
    hide Slots, TypeListsOk;
    var (t, status) := Reference(s, o, typ);
    if status == Success {
      AddReferenceOk(s, o);
      CountsBound(s, o);
      assert t.header[o := s.header[o]] == s.header;
    }
  }

  // ObReferenceObjectByHandle finds the object that the slot names and raises its
  // PointerCount, and that only, or changes nothing. The reference can be given up
  // again, even when the handle was closed in the meantime.
  lemma {:induction false} ReferenceByHandleOk(s: Objects, p: nat, h: nat, typ: Option<nat>)
    requires ObOk(s) && p in s.tables
    ensures TablesOk(s) && |s.tables[p]| == MAX_HANDLE_COUNT
    ensures var (t, status, found) := ReferenceByHandle(s, p, h, typ);
            if h >= MAX_HANDLE_COUNT || s.tables[p][h] == Empty then t == s && status == InvalidHandle && found == None
            else
              var o := s.tables[p][h].target;
              && o in s.header
              && if typ == None || s.header[o].typ == typ
                 then status == Success && found == Some(o) && OneReferenceMore(s, t, o) && ObOk(t) && o in t.header
                      && Dereference(t, o) == Continues(s) && StillThere(t, p, h, o)
                 else t == s && status == TypeMismatch && found == None
  {
    hide CountsOk, TypeListsOk;
    if h < MAX_HANDLE_COUNT && s.tables[p][h].Holds? {
      var o := s.tables[p][h].target;
      ReferenceOk(s, o, typ);
      if TypeFits(s, o, typ) {
        ReferenceKeeps(s, p, h, o);
      }
    }
  }

  // Closing handle h of process p does not free o.
  ghost predicate StillThere(s: Objects, p: nat, h: nat, o: nat)
    requires p in s.tables && TablesOk(s)
  {
    Close(s, p, h).Continues? && o in Close(s, p, h).value.0.header
  }

  lemma {:induction false} ReferenceKeeps(s: Objects, p: nat, h: nat, o: nat)
    requires ObOk(s) && p in s.tables && o in s.header
    ensures TablesOk(AddReference(s, o)) && StillThere(AddReference(s, o), p, h, o)
  {
    hide TypeListsOk, Slots, Close;
    AddReferenceOk(s, o);
    CountsBound(s, o);
    CloseOk(AddReference(s, o), p, h);
  }

  // A reference that is not a handle is given up: this never halts, frees the
  // object exactly when it was the last reference to an object that is not
  // permanent, and concerns no other object.
  lemma {:induction false} DereferenceOk(s: Objects, o: nat)
    requires ObOk(s) && o in s.header && Outstanding(s, o) > 0
    ensures Dereference(s, o).Continues?
    ensures var t := Dereference(s, o).value;
            && ObOk(t) && t.tables == s.tables && t.lists.Keys == s.lists.Keys
            && t.header == if s.header[o].pointers > 1 || s.header[o].permanent
                           then s.header[o := s.header[o].(pointers := s.header[o].pointers - 1)]
                           else s.header - {o}
  {
    hide Slots, TypeListsOk;
    if s.header[o].pointers == 1 && !s.header[o].permanent {
      FreeOk(s, o);
    } else {
      KeptOk(s, o);
    }
  }

  lemma {:induction false} KeptOk(s: Objects, o: nat)
    requires ObOk(s) && o in s.header && Outstanding(s, o) > 0 && (s.header[o].pointers > 1 || s.header[o].permanent)
    ensures ObOk(s.(header := s.header[o := s.header[o].(pointers := s.header[o].pointers - 1)]))
  {
    hide Slots, NoDup;
    SlotsSame(s, s.(header := s.header[o := s.header[o].(pointers := s.header[o].pointers - 1)]));
  }

  lemma {:induction false} FreeOk(s: Objects, o: nat)
    requires ObOk(s) && o in s.header && s.header[o].handles == 0 && !s.header[o].permanent
    ensures var l := s.header[o].typ.value;
            && s.header[o].typ.Some? && l in s.lists && o in s.lists[l]
            && ObOk(s.(header := s.header - {o}, lists := s.lists[l := Remove(s.lists[l], o)]))
  {
    hide Slots;
    var l := s.header[o].typ.value;
    assert o in s.lists[l];
    RemoveMembers(s.lists[l], o);
    NoSlotNames(s, o);
    SlotsSame(s, s.(header := s.header - {o}, lists := s.lists[l := Remove(s.lists[l], o)]));
  }

  // The state in which the slot is cleared and its handle is a plain reference.
  ghost function Unhandled(s: Objects, p: nat, h: nat): Objects
    requires p in s.tables && h < |s.tables[p]| && s.tables[p][h].Holds? && s.tables[p][h].target in s.header
  {
    ClearSlot(DropHandle(s, s.tables[p][h].target), p, h)
  }

  lemma {:induction false} UnhandledOk(s: Objects, p: nat, h: nat)
    requires ObOk(s) && p in s.tables && h < MAX_HANDLE_COUNT && s.tables[p][h].Holds?
    ensures s.tables[p][h].target in s.header
    ensures var o := s.tables[p][h].target;
            && ObOk(Unhandled(s, p, h)) && s.header[o].handles > 0
            && Unhandled(s, p, h).header == s.header[o := s.header[o].(handles := s.header[o].handles - 1)]
  {
    hide Slots;
    SomeSlotNames(s, p, h, s.tables[p][h].target);
    SlotsCleared(s, p, h);
  }

  // Closing an open handle empties its slot and gives up one reference.
  lemma {:induction false} CloseOk(s: Objects, p: nat, h: nat)
    requires ObOk(s) && p in s.tables
    ensures Close(s, p, h).Continues?
    ensures var t := Close(s, p, h).value.0;
            && ObOk(t) && t.lists.Keys == s.lists.Keys
            && (forall x :: x in t.header ==>
                  && x in s.header && Outstanding(t, x) == Outstanding(s, x)
                  && t.header[x].permanent == s.header[x].permanent && t.header[x].typ == s.header[x].typ)
            && (forall x :: x in s.header && (Outstanding(s, x) > 0 || s.header[x].permanent) ==> x in t.header)
            && (h < MAX_HANDLE_COUNT && s.tables[p][h].Holds?
                ==> t.tables == s.tables[p := s.tables[p][h := Empty]] && Close(s, p, h).value.1 == Success)
            && (h >= MAX_HANDLE_COUNT || s.tables[p][h].Empty? ==> t == s && Close(s, p, h).value.1 == InvalidHandle)
  {
    hide TypeListsOk, CountsOk;
    if h < MAX_HANDLE_COUNT && s.tables[p][h].Holds? {
      var o := s.tables[p][h].target;
      UnhandledOk(s, p, h);
      CloseIs(s, p, h);
      var u := Unhandled(s, p, h);
      CountsBound(s, o);
      assert Outstanding(u, o) == Outstanding(s, o) + 1;
      DereferenceOk(u, o);
    }
  }

  lemma {:induction false} CountsBound(s: Objects, o: nat)
    requires CountsOk(s) && o in s.header
    ensures s.header[o].handles <= s.header[o].pointers && (s.header[o].pointers > 0 || s.header[o].permanent)
  {
  }

  // Dereferencing before clearing the slot comes to the same as the other order.
  lemma {:induction false} CloseIs(s: Objects, p: nat, h: nat)
    requires TablesOk(s) && p in s.tables && h < MAX_HANDLE_COUNT && s.tables[p][h].Holds?
    ensures var r := Dereference(Unhandled(s, p, h), s.tables[p][h].target);
            Close(s, p, h) == if r.Halts? then Halts else Continues((r.value, Success))
  {
  }

  // Opening and closing again changes nothing.
  lemma {:induction false} OpenCloseRoundTrip(s: Objects, p: nat, o: nat, inherit: bool, typ: Option<nat>)
    requires ObOk(s) && p in s.tables && o in s.header && Open(s, p, o, inherit, typ).1 == Success
    ensures var (t, _, h) := Open(s, p, o, inherit, typ);
            ObOk(t) && Close(t, p, h) == Continues((s, Success))
  {
    hide Slots;
    var (t, _, h) := Open(s, p, o, inherit, typ);
    AddHandleOk(s, p, h, o, inherit);
    CountsBound(s, o);
    HandleUndone(s, p, h, o, inherit);
    CloseIs(t, p, h);
  }

  lemma {:induction false} HandleUndone(s: Objects, p: nat, h: nat, o: nat, inherit: bool)
    requires p in s.tables && h < |s.tables[p]| && s.tables[p][h] == Empty && o in s.header
    requires s.header[o].handles <= s.header[o].pointers && (s.header[o].pointers > 0 || s.header[o].permanent)
    ensures Dereference(Unhandled(AddHandle(s, p, h, o, inherit), p, h), o) == Continues(s)
  {
    var t := AddHandle(s, p, h, o, inherit);
    var u := Unhandled(t, p, h);
    var e := s.header[o];
    assert s.tables[p][h := Holds(o, inherit)][h := Empty] == s.tables[p];
    assert u.tables == s.tables;
    assert u.header[o := e] == s.header;
  }
}
