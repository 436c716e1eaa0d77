// The object manager of base/ob/ob.c on object headers, handle tables and linked
// type lists that are changed in place. Ghost fields hold the abstract state, in
// which an object and a process are known by their numbers; every method is proved
// against ObSpec.

module ObjectManager {
  import opened Lists
  import opened Words
  import opened SchedulerSpec
  import opened ObSpec
  import opened ObProcesses

  // An object header; FirstObject, NextTypeObject and Delete, which tells whether there
  // is such a method, are the body of a type object.
  class Header {
    ghost const id: nat
    const Permanent: bool
    const Type: Header?
    var HandleCount: nat
    var PointerCount: nat
    var NextObject: Header?
    var FirstObject: Header?
    var NextTypeObject: Header?
    const Delete: bool
    ghost var deletes: nat           // how often Delete was called

    // As ObCreateObject fills it in, and ObCreateObjectType.
    constructor (ghost id: nat, permanent: bool, typ: Header?, delete: bool)
      ensures this.id == id && Permanent == permanent && Type == typ && Delete == delete && deletes == 0
      ensures HandleCount == 0 && PointerCount == 1 && NextObject == null && FirstObject == null
          && NextTypeObject == null
    {
      this.id, Permanent, Type, Delete, deletes := id, permanent, typ, delete, 0;
      HandleCount, PointerCount, NextObject, FirstObject, NextTypeObject := 0, 1, null, null, null;
    }

    ghost function TypeId(): Option<nat> {
      if Type == null then None else Some(Type.id)
    }

    ghost predicate Shows(e: Entry)
      reads this`HandleCount, this`PointerCount
    {
      e == Entry(HandleCount, PointerCount, Permanent, TypeId())
    }
  }

  // Which of these objects are of type t.
  ghost function OfType(hs: set<Header>, t: Header): set<Header> {
    set h | h in hs && h.Type == t
  }

  // How often the Delete method of t has been called, once for every object gone.
  ghost function Called(t: Header, before: nat, gone: set<Header>): nat {
    before + if t.Delete then |OfType(gone, t)| else 0
  }

  lemma {:induction false} NothingGone(t: Header, before: nat)
    ensures Called(t, before, {}) == before
  {
  }

  lemma {:induction false} OneGone(h: Header, t: Header, before: nat)
    ensures Called(t, before, {h}) == before + if h.Type == t && t.Delete then 1 else 0
  {
    if h.Type == t {
      assert OfType({h}, t) == {h};
    } else {
      assert OfType({h}, t) == {};
    }
  }

  lemma {:induction false} GoneTogether(a: set<Header>, b: set<Header>, c: set<Header>, t: Header, before: nat)
    requires c <= b <= a
    ensures Called(t, Called(t, before, a - b), b - c) == Called(t, before, a - c)
  {
    assert OfType(a - c, t) == OfType(a - b, t) + OfType(b - c, t);
    assert OfType(a - b, t) !! OfType(b - c, t);
  }

  datatype HandleEntry = HandleEntry(Object: Header?, Inherit: bool)

  // The part of a process object that the object manager uses.
  class Process {
    ghost const id: nat
    const HandleTable: array<HandleEntry>

    constructor (ghost id: nat)
      ensures this.id == id && fresh(HandleTable) && HandleTable.Length == MAX_HANDLE_COUNT
      ensures forall i :: 0 <= i < MAX_HANDLE_COUNT ==> HandleTable[i] == HandleEntry(null, false)
    {
      this.id := id;
      HandleTable := new HandleEntry[MAX_HANDLE_COUNT](_ => HandleEntry(null, false));
    }
  }

  // pointer is null, or the object with the given number.
  ghost predicate Refers(objs: set<Header>, pointer: Header?, o: Option<nat>) {
    match o
    case None => pointer == null
    case Some(i) => pointer != null && pointer in objs && pointer.id == i
  }

  // The entry is the slot x. The object of a slot may have just been freed.
  ghost predicate IsSlot(objs: set<Header>, entry: HandleEntry, x: Slot) {
    match x
    case Empty => entry.Object == null
    case Holds(o, inherit) =>
      && entry.Object != null && entry.Object.id == o && entry.Inherit == inherit
      && (forall h | h in objs :: h.id == o ==> h == entry.Object)
  }

  ghost predicate TypesOf(objs: set<Header>, lists: map<nat, seq<nat>>)
    reads objs`FirstObject
  {
    forall h | h in objs ::
      if h.Type == null then h.id in lists && Refers(objs, h.FirstObject, First(lists[h.id])) else h.Type in objs
  }

  ghost predicate LinksOf(objs: set<Header>, lists: map<nat, seq<nat>>)
    reads objs`NextObject
  {
    forall h {:trigger h.NextObject} | h in objs && h.Type != null ::
      h.Type.id in lists && Refers(objs, h.NextObject, Succ(lists[h.Type.id], h.id))
  }

  ghost predicate EntriesOf(objs: set<Header>, header: map<nat, Entry>)
    reads objs`HandleCount, objs`PointerCount
  {
    (forall h | h in objs :: h.id in header && h.Shows(header[h.id])) && Numbers(objs, header.Keys)
  }

  ghost predicate Numbers(objs: set<Header>, ids: set<nat>) {
    forall o | o in ids :: exists h | h in objs :: h.id == o
  }

  ghost predicate TablesOf(objs: set<Header>, procs: set<Process>, arrays: set<array<HandleEntry>>,
                           tables: map<nat, seq<Slot>>)
    reads arrays
  {
    && (forall p, q | p in procs && q in procs :: p.id == q.id || p.HandleTable == q.HandleTable ==> p == q)
    && (forall p | p in procs ::
          && p.HandleTable in arrays && p.HandleTable.Length == MAX_HANDLE_COUNT
          && p.id in tables && |tables[p.id]| == MAX_HANDLE_COUNT
          && forall i {:trigger p.HandleTable[i]} :: 0 <= i < MAX_HANDLE_COUNT ==>
               IsSlot(objs, p.HandleTable[i], tables[p.id][i]))
  }

  // The list of all type objects is types, from head on.
  ghost predicate TypeListOf(objs: set<Header>, head: Header?, types: seq<nat>)
    reads objs`NextTypeObject
  {
    && NoDup(types) && Refers(objs, head, First(types))
    && (forall x | x in types :: exists h | h in objs :: h.id == x && h.Type == null)
    && (forall h {:trigger h.NextTypeObject} | h in objs && h.Type == null ::
          h.id in types && Refers(objs, h.NextTypeObject, Succ(types, h.id)))
  }

  class Manager {
    var current: Process                 // KeCurrentProcess
    var typeHead: Header?                // ObTypeObjectListHead

    // All objects that are not freed, all processes, and the abstract state.
    ghost var objs: set<Header>
    ghost var procs: set<Process>
    ghost var arrays: set<array<HandleEntry>>
    ghost var header: map<nat, Entry>
    ghost var tables: map<nat, seq<Slot>>
    ghost var lists: map<nat, seq<nat>>
    ghost var types: seq<nat>

    ghost function S(): Objects
      reads this
    {
      Objects(header, tables, lists)
    }

    ghost predicate Ids()
      reads this`objs
    {
      forall p, q {:trigger p.id, q.id} | p in objs && q in objs :: p.id == q.id ==> p == q
    }

    ghost predicate Entries()
      reads this`objs, this`header, objs`HandleCount, objs`PointerCount
    {
      EntriesOf(objs, header)
    }

    ghost predicate Types()
      reads this`objs, this`lists, objs`FirstObject
    {
      TypesOf(objs, lists)
    }

    ghost predicate Links()
      reads this`objs, this`lists, objs`NextObject
    {
      LinksOf(objs, lists)
    }

    ghost predicate TypeList()
      reads this`objs, this`types, this`typeHead, objs`NextTypeObject
    {
      TypeListOf(objs, typeHead, types)
    }

    ghost predicate Tables()
      reads this`objs, this`procs, this`tables, this`arrays, arrays
    {
      TablesOf(objs, procs, arrays, tables)
    }

    ghost predicate Valid()
      reads this, objs, arrays
    {
      Ids() && Entries() && Types() && Links() && TypeList() && Tables() && current in procs
    }

    // No objects, and one process with an empty handle table.
    constructor (first: Process)
      requires first.HandleTable.Length == MAX_HANDLE_COUNT
      requires forall i :: 0 <= i < MAX_HANDLE_COUNT ==> first.HandleTable[i].Object == null
      ensures Valid() && ObOk(S()) && current == first && S() == WithTable(Objects(map[], map[], map[]), first.id)
    {
      current, typeHead, types := first, null, [];
      objs, procs, arrays := {}, {first}, {first.HandleTable};
      header, tables, lists := map[], map[first.id := seq(MAX_HANDLE_COUNT, _ => Empty)], map[];
      new;
      WithTableOk(Objects(map[], map[], map[]), first.id);
    }

    lemma {:induction false} Shown(h: Header)
      requires Entries() && h in objs
      ensures h.id in header && h.Shows(header[h.id])
    {
    }

    // Both counters of an object.
    method SetCounts(h: Header, handles: nat, pointers: nat)
      requires Valid() && h in objs
      modifies h`HandleCount, h`PointerCount, this`header
      ensures h.id in old(S()).header && Valid()
      ensures var e := old(S()).header[h.id];
              S() == old(S()).(header := old(S()).header[h.id := e.(handles := handles, pointers := pointers)])
    {
      hide Types, Links, Tables, TypeListOf, Numbers;
      ghost var ids := header.Keys;
      h.HandleCount, h.PointerCount := handles, pointers;
      header := header[h.id := header[h.id].(handles := handles, pointers := pointers)];
      assert header.Keys == ids;
    }

    // HandleTable[i] of a process becomes entry, which is the slot x.
    method SetSlot(p: Process, i: nat, entry: HandleEntry, ghost x: Slot)
      requires Valid() && p in procs && i < MAX_HANDLE_COUNT && IsSlot(objs, entry, x)
      modifies p.HandleTable, this`tables
      ensures p.id in old(S()).tables && |old(S()).tables[p.id]| == MAX_HANDLE_COUNT && Valid()
      ensures S() == old(S()).(tables := old(S()).tables[p.id := old(S()).tables[p.id][i := x]])
    {
      hide Ids, Entries, Types, Links, Refers, IsSlot, TypeListOf;
      p.HandleTable[i] := entry;
      tables := tables[p.id := tables[p.id][i := x]];
    }

    // The object of a slot is there if its number is.
    lemma {:induction false} SlotObject(entry: HandleEntry, x: Slot)
      requires Entries() && IsSlot(objs, entry, x)
      ensures x.Holds? && x.target in header ==> entry.Object in objs
    {
    }

    // ObReferenceObject
    method ObReferenceObject(h: Header, typ: Header?) returns (status: Status)
      requires Valid() && h in objs && (typ != null ==> typ in objs)
      modifies h`HandleCount, h`PointerCount, this`header
      ensures h.id in old(S()).header && Valid()
      ensures (S(), status) == Reference(old(S()), h.id, if typ == null then None else Some(typ.id))
    {
      hide Entries, Types, Links, Tables, Refers, TypeListOf;
      Shown(h);
      TypeIds(h, typ);
      if typ != null {
        if h.Type != typ {
          return TypeMismatch;
        }
      }
      SetCounts(h, h.HandleCount, h.PointerCount + 1);
      return Success;
    }

    // Comparing types and comparing their numbers is the same.
    lemma {:induction false} TypeIds(h: Header, typ: Header?)
      requires Ids() && Types() && h in objs && (typ != null ==> typ in objs)
      ensures typ != null ==> (h.Type == typ <==> h.TypeId() == Some(typ.id))
    {
    }

    lemma {:induction false} SlotShown(p: Process, i: nat)
      requires Tables() && p in procs && i < MAX_HANDLE_COUNT
      ensures p.HandleTable in arrays && p.HandleTable.Length == MAX_HANDLE_COUNT
      ensures p.id in tables && |tables[p.id]| == MAX_HANDLE_COUNT
      ensures IsSlot(objs, p.HandleTable[i], tables[p.id][i])
    {
    }

    // Slot i of process p gets to name h, and both counters go up.
    method AddHandleTo(p: Process, i: nat, h: Header, inherit: bool)
      requires Valid() && p in procs && i < MAX_HANDLE_COUNT && h in objs
      modifies p.HandleTable, h`HandleCount, h`PointerCount, this`header, this`tables
      ensures Valid() && p.id in old(S()).tables && |old(S()).tables[p.id]| == MAX_HANDLE_COUNT
          && h.id in old(S()).header
      ensures S() == AddHandle(old(S()), p.id, i, h.id, inherit)
    {
      hide Entries, Types, Links, Tables, Refers, TypeListOf;
      Shown(h);
      SlotShown(p, i);
      SetSlot(p, i, HandleEntry(h, inherit), Holds(h.id, inherit));
      SetCounts(h, h.HandleCount + 1, h.PointerCount + 1);
    }

    // ObOpenObjectByPointer
    method ObOpenObjectByPointer(h: Header, inherit: bool, typ: Header?) returns (status: Status, handle: nat)
      requires Valid() && h in objs && (typ != null ==> typ in objs)
      modifies current.HandleTable, h`HandleCount, h`PointerCount, this`header, this`tables
      ensures Valid() && current.id in old(S()).tables && h.id in old(S()).header
      ensures (S(), status, handle)
          == Open(old(S()), current.id, h.id, inherit, if typ == null then None else Some(typ.id))
    {
      hide Ids, Entries, Types, Links, Tables, Refers, TypeListOf;
      Shown(h);
      TypeIds(h, typ);
      SlotShown(current, 0);
      if typ != null {
        if h.Type != typ {
          return TypeMismatch, 0;
        }
      }
      var i := 0;
      while i < MAX_HANDLE_COUNT
        invariant 0 <= i <= MAX_HANDLE_COUNT && current.id in tables && |tables[current.id]| == MAX_HANDLE_COUNT
        invariant FreeFrom(tables[current.id], 0) == FreeFrom(tables[current.id], i)
        invariant Valid() && S() == old(S())
      {
        SlotShown(current, i);
        if current.HandleTable[i].Object == null {
          AddHandleTo(current, i, h, inherit);
          return Success, i;
        }
        i := i + 1;
      }
      return HandleLimitReached, 0;
    }

    // ObReferenceObjectByHandle
    method ObReferenceObjectByHandle(handle: nat, typ: Header?) returns (status: Status, h: Header?)
      requires Valid() && TablesOk(S()) && (typ != null ==> typ in objs)
      modifies objs`HandleCount, objs`PointerCount, this`header
      ensures Valid() && current.id in old(S()).tables
      ensures var r := ReferenceByHandle(old(S()), current.id, handle, if typ == null then None else Some(typ.id));
              && (S(), status) == (r.0, r.1) && Refers(objs, h, r.2)
    {
      hide Ids, Entries, Types, Links, Tables, TypeListOf;
      SlotShown(current, 0);
      if handle >= MAX_HANDLE_COUNT {
        return InvalidHandle, null;
      }
      SlotShown(current, handle);
      SlotObject(current.HandleTable[handle], tables[current.id][handle]);
      h := current.HandleTable[handle].Object;
      if h != null {
        Shown(h);
        TypeIds(h, typ);
        if typ != null {
          if h.Type != typ {
            return TypeMismatch, null;
          }
        }
        SetCounts(h, h.HandleCount, h.PointerCount + 1);
        return Success, h;
      }
      return InvalidHandle, null;
    }

    // ObGetFirstObjectOfType
    method ObGetFirstObjectOfType(typ: Header) returns (h: Header?)
      requires Valid() && typ in objs && typ.Type == null
      ensures typ.id in lists && Refers(objs, h, First(lists[typ.id]))
    {
      hide Ids, Entries, Links, Tables, Refers, TypeListOf;
      return typ.FirstObject;
    }

    // ObGetNextObjectOfType
    method ObGetNextObjectOfType(h: Header) returns (next: Header?)
      requires Valid() && h in objs && h.Type != null
      ensures h.Type.id in lists && Refers(objs, next, Succ(lists[h.Type.id], h.id))
    {
      hide Ids, Entries, Types, Tables, Refers, TypeListOf;
      return h.NextObject;
    }

    // What is on the list of a type is an object of that type.
    lemma {:induction false} OnList(h: Header, typ: Header)
      requires Ids() && Entries() && Types() && TypeListsOk(S()) && h in objs && typ in objs && typ.Type == null
      ensures typ.id in lists
      ensures h.id in lists[typ.id] <==> h.Type == typ
    {
    }

    // The walk of ObpUnlinkObjectFromTypeList, and the object in front of h.
    method FindOnList(h: Header) returns (found: bool, previous: Header?, ghost before: Option<nat>)
      requires Valid() && TypeListsOk(S()) && h in objs && h.Type != null
      ensures h.Type in objs && h.Type.id in lists && h.Type.Type == null
      ensures found && h.id in lists[h.Type.id]
      ensures Precedes(lists[h.Type.id], before, h.id) && Refers(objs, previous, before)
      ensures previous != null ==> previous.Type == h.Type
    {
      TypeIsType(h);
      OnList(h, h.Type);
      ghost var l := lists[h.Type.id];
      var c := h.Type.FirstObject;
      if c == h {
        return true, null, None;
      }
      ghost var j: nat := 0;
      while c != null
        invariant Refers(objs, c, if j < |l| then Some(l[j]) else None)
        invariant j <= |l| && h.id !in l[..j] && (j < |l| ==> l[j] != h.id)
        decreases |l| - j
      {
        assert c.id in l;
        OnList(c, h.Type);
        SuccAt(l, j);
        if c.NextObject == h {
          RemoveAt(l, j + 1);
          return true, c, Some(c.id);
        }
        c := c.NextObject;
        j := j + 1;
      }
      assert false;  // KeBugCheck is not reached
    }

    lemma {:induction false} TypeIsType(h: Header)
      requires Entries() && Types() && TypeListsOk(S()) && h in objs && h.Type != null
      ensures h.Type in objs && h.Type.Type == null && h.Type.id in lists
    {
      assert h.Type in objs;
      assert header[h.id].typ == Some(h.Type.id);
      assert header[h.Type.id].typ == None;
    }

    // The list of h's type without h, as seen from the other objects.
    method Unlink(h: Header, previous: Header?, ghost before: Option<nat>, ghost l: seq<nat>)
      requires Ids() && Types() && Links() && h in objs && h.Type != null
      requires h.Type in objs && h.Type.Type == null && h.Type.id in lists && l == lists[h.Type.id]
      requires (forall t | t in lists :: t != h.Type.id ==> h.id !in lists[t]) && NoDup(l)
      requires Precedes(l, before, h.id) && Refers(objs, previous, before)
      requires (previous != null ==> previous.Type == h.Type) && forall y | y in objs :: y.Type != h
      modifies objs`NextObject, objs`FirstObject
      ensures var ls := lists[h.Type.id := Remove(l, h.id)]; TypesOf(objs - {h}, ls) && LinksOf(objs - {h}, ls)
    {
      hide Remove, NoDup, Precedes, Succ, First, TypeListOf;
      Unlinking(l, before, h.id);
      NoLinkTo(h);
      if previous == null {
        h.Type.FirstObject := h.NextObject;
      } else {
        previous.NextObject := h.NextObject;
      }
      ghost var ls := lists[h.Type.id := Remove(l, h.id)];
      forall y | y in objs - {h} && y.Type == null
        ensures y.id in ls && Refers(objs - {h}, y.FirstObject, First(ls[y.id]))
      {
        assert y.id == h.Type.id ==> y == h.Type;
        assert Refers(objs, y.FirstObject, First(ls[y.id]));
      }
      forall y | y in objs - {h} && y.Type != null
        ensures y.Type.id in ls && Refers(objs - {h}, y.NextObject, Succ(ls[y.Type.id], y.id))
      {
        assert y.Type.id == h.Type.id ==> y.Type == h.Type;
        assert y.id != h.id;
        assert Refers(objs, y.NextObject, Succ(ls[y.Type.id], y.id));
      }
    }

    // No link in another list leads to h.
    lemma {:induction false} NoLinkTo(h: Header)
      requires h.Type != null && forall t | t in lists :: t != h.Type.id ==> h.id !in lists[t]
      ensures forall t | t in lists && t != h.Type.id :: First(lists[t]) != Some(h.id)
      ensures forall t, y | t in lists && t != h.Type.id :: Succ(lists[t], y) != Some(h.id)
    {
      forall t, y | t in lists && t != h.Type.id ensures Succ(lists[t], y) != Some(h.id) {
        SuccMember(lists[t], y);
      }
    }

    lemma {:induction false} OnOneList(h: Header)
      requires Entries() && Types() && TypeListsOk(S()) && h in objs && h.Type != null
      ensures h.Type.id in lists && NoDup(lists[h.Type.id])
      ensures forall t | t in lists :: t != h.Type.id ==> h.id !in lists[t]
      ensures forall y | y in objs :: y.Type != h
    {
      Shown(h);
      forall y | y in objs ensures y.Type != h {
        Shown(y);
        if y.Type != null {
          TypeIsType(y);
        }
      }
    }

    // What the list of all types leads to is a type.
    lemma {:induction false} TypeTarget(pointer: Header?, o: Option<nat>)
      requires Ids() && TypeList() && Refers(objs, pointer, o) && (o.Some? ==> o.value in types)
      ensures pointer != null ==> pointer.Type == null
    {
      if o.Some? {
        var y :| y in objs && y.id == o.value && y.Type == null;
        assert pointer.id == y.id;
      }
    }

    // The list of all types is not concerned by an object that is none.
    lemma {:induction false} WithoutObject(h: Header)
      requires Ids() && TypeList() && h.Type != null
      ensures TypeListOf(objs - {h}, typeHead, types)
    {
      hide Succ, NoDup;
      forall x | x in types ensures exists y | y in objs - {h} :: y.id == x && y.Type == null {
        var y :| y in objs && y.id == x && y.Type == null;
        assert y in objs - {h};
      }
      TypeTarget(typeHead, First(types));
      forall y | y in objs - {h} && y.Type == null ensures Refers(objs - {h}, y.NextTypeObject, Succ(types, y.id)) {
        assert Refers(objs, y.NextTypeObject, Succ(types, y.id));
        SuccMember(types, y.id);
        TypeTarget(y.NextTypeObject, Succ(types, y.id));
      }
    }

    lemma {:induction false} WithObject(h: Header)
      requires TypeList() && h.Type != null
      ensures TypeListOf(objs + {h}, typeHead, types)
    {
      hide Succ, NoDup;
      forall x | x in types ensures exists y | y in objs + {h} :: y.id == x && y.Type == null {
        var y :| y in objs && y.id == x && y.Type == null;
        assert y in objs + {h};
      }
      forall y | y in objs + {h} && y.Type == null
        ensures y.id in types && Refers(objs + {h}, y.NextTypeObject, Succ(types, y.id))
      {
        assert y in objs;
        assert Refers(objs, y.NextTypeObject, Succ(types, y.id));
      }
    }

    // MmFree
    ghost method Forget(h: Header, ls: map<nat, seq<nat>>)
      requires Ids() && Entries() && Tables() && current in procs && h in objs
      requires TypesOf(objs - {h}, ls) && LinksOf(objs - {h}, ls) && TypeListOf(objs - {h}, typeHead, types)
      modifies this`objs, this`header, this`lists
      ensures Valid() && objs == old(objs) - {h} && header == old(header) - {h.id} && lists == ls
    {
      hide TypesOf, LinksOf, TypeListOf, TablesOf, EntriesOf;
      EntriesWithout(h);
      TablesWithout(h);
      objs := objs - {h};
      header := header - {h.id};
      lists := ls;
    }

    // The end of ObDereferenceObject: the object leaves its list and is freed.
    method UnlinkAndFree(h: Header)
      requires Valid() && TypeListsOk(S()) && h in objs && h.Type != null
      modifies this`objs, this`header, this`lists, objs`NextObject, objs`FirstObject
      ensures Valid() && objs == old(objs) - {h} && h.Type.id in old(lists) && h.id in old(lists)[h.Type.id]
      ensures S() == old(S()).(header := old(header) - {h.id},
                               lists := old(lists)[h.Type.id := Remove(old(lists)[h.Type.id], h.id)])
    {
      hide Ids, Entries, Tables, Refers, TypesOf, LinksOf, TypeListsOk, NoDup, Remove, Precedes, TypeListOf;
      ghost var before;
      var found, previous;
      found, previous, before := FindOnList(h);
      ghost var l := lists[h.Type.id];
      OnOneList(h);
      WithoutObject(h);
      Unlink(h, previous, before, l);
      Forget(h, lists[h.Type.id := Remove(l, h.id)]);
    }

    // ObDereferenceObject
    method ObDereferenceObject(h: Header) returns (alive: bool)
      requires Valid() && TypeListsOk(S()) && h in objs
      modifies this`objs, this`header, this`lists
      modifies objs`HandleCount, objs`PointerCount, objs`NextObject, objs`FirstObject, objs`deletes
      ensures h.id in old(header) && (alive <==> Dereference(old(S()), h.id).Continues?)
      ensures alive ==> Valid() && S() == Dereference(old(S()), h.id).value && objs <= old(objs)
      ensures alive ==> h.id in header ==> h in objs
      ensures alive ==> forall t | t in objs :: t.deletes == Called(t, old(t.deletes), old(objs) - objs)
    {
      hide Ids, Entries, Types, Links, Tables, Refers, TypeListsOk, TypeListOf, Called;
      forall t: Header ensures Called(t, t.deletes, {}) == t.deletes {
        NothingGone(t, t.deletes);
      }
      Shown(h);
      if h.HandleCount >= h.PointerCount {
        return false;
      }
      CountsKeepLists(S(), h.id, h.HandleCount, h.PointerCount - 1);
      SetCounts(h, h.HandleCount, h.PointerCount - 1);
      Shown(h);
      if h.PointerCount == 0 && !h.Permanent {
        if h.Type == null {
          return false;
        }
        TypeIsType(h);
        UnlinkAndFree(h);
        assert header == old(header) - {h.id} && old(objs) - objs == {h};
        forall t: Header ensures Called(t, t.deletes, {h}) == t.deletes + if h.Type == t && t.Delete then 1 else 0 {
          OneGone(h, t, t.deletes);
        }
        if h.Type.Delete {
          h.Type.deletes := h.Type.deletes + 1;
        }
      } else {
        assert old(objs) - objs == {};
      }
      return true;
    }

    // HandleCount--, ObDereferenceObject and the slot, of a handle that is open.
    method CloseOpen(handle: nat, h: Header) returns (alive: bool)
      requires Valid() && TablesOk(S()) && TypeListsOk(S()) && h in objs && handle < MAX_HANDLE_COUNT
      requires current.id in tables && |tables[current.id]| == MAX_HANDLE_COUNT
      requires tables[current.id][handle].Holds? && tables[current.id][handle].target == h.id
      modifies this`objs, this`header, this`lists, this`tables, current.HandleTable
      modifies objs`HandleCount, objs`PointerCount, objs`NextObject, objs`FirstObject, objs`deletes
      ensures h.id in old(header) && (alive <==> Close(old(S()), current.id, handle).Continues?)
      ensures alive ==> Valid() && Close(old(S()), current.id, handle) == Continues((S(), Success)) && objs <= old(objs)
      ensures alive ==> forall t | t in objs :: t.deletes == Called(t, old(t.deletes), old(objs) - objs)
    {
      hide Ids, Entries, Types, Links, Tables, Refers, TypeListsOk, Dereference, TypeListOf, Called, IsSlot;
      Shown(h);
      var handles := if h.HandleCount == 0 then WORD - 1 else h.HandleCount - 1;
      CountsKeepLists(S(), h.id, handles, h.PointerCount);
      SetCounts(h, handles, h.PointerCount);
      alive := ObDereferenceObject(h);
      if alive {
        SlotShown(current, handle);
        EmptySlot();
        SetSlot(current, handle, HandleEntry(null, current.HandleTable[handle].Inherit), Empty);
      }
    }

    lemma {:induction false} EmptySlot()
      ensures forall inherit :: IsSlot(objs, HandleEntry(null, inherit), Empty)
    {
    }

    // ObCloseHandle
    method ObCloseHandle(handle: nat) returns (alive: bool, status: Status)
      requires Valid() && TablesOk(S()) && TypeListsOk(S())
      modifies this`objs, this`header, this`lists, this`tables, current.HandleTable
      modifies objs`HandleCount, objs`PointerCount, objs`NextObject, objs`FirstObject, objs`deletes
      ensures current.id in old(tables) && (alive <==> Close(old(S()), current.id, handle).Continues?)
      ensures alive ==> Valid() && Close(old(S()), current.id, handle) == Continues((S(), status)) && objs <= old(objs)
      ensures alive ==> forall t | t in objs :: t.deletes == Called(t, old(t.deletes), old(objs) - objs)
    {
      hide Ids, Entries, Types, Links, Tables, Refers, TypeListsOk, Dereference, TypeListOf, Called;
      forall t: Header ensures Called(t, t.deletes, {}) == t.deletes {
        NothingGone(t, t.deletes);
      }
      assert old(objs) - objs == {};
      SlotShown(current, 0);
      if handle >= MAX_HANDLE_COUNT {
        return true, InvalidHandle;
      }
      SlotShown(current, handle);
      SlotObject(current.HandleTable[handle], tables[current.id][handle]);
      var h := current.HandleTable[handle].Object;
      if h != null {
        alive := CloseOpen(handle, h);
        return alive, Success;
      } else {
        return true, InvalidHandle;
      }
    }

    // h at the head of the list of typ.
    method PushFront(h: Header, typ: Header)
      requires Ids() && Types() && Links() && typ in objs && typ.Type == null && typ.id in lists
      requires h !in objs && h.Type == typ && forall x | x in objs :: x.id != h.id
      requires Succ([h.id] + lists[typ.id], h.id) == First(lists[typ.id])
      requires forall y | y != h.id :: Succ([h.id] + lists[typ.id], y) == Succ(lists[typ.id], y)
      modifies h`NextObject, typ`FirstObject
      ensures var ls := lists[typ.id := [h.id] + lists[typ.id]]; TypesOf(objs + {h}, ls) && LinksOf(objs + {h}, ls)
    {
      hide Succ, TypeListOf;
      h.NextObject := typ.FirstObject;
      typ.FirstObject := h;
      ghost var ls := lists[typ.id := [h.id] + lists[typ.id]];
      forall y | y in objs + {h} && y.Type != null
        ensures y.Type.id in ls && Refers(objs + {h}, y.NextObject, Succ(ls[y.Type.id], y.id))
      {
        if y != h {
          assert Refers(objs, y.NextObject, Succ(lists[y.Type.id], y.id));
        }
      }
    }

    // ObCreateObject, for an object of a type; memory tells whether there is enough.
    method ObCreateObject(ghost id: nat, permanent: bool, typ: Header, memory: bool)
        returns (status: Status, h: Header?)
      requires Valid() && ObOk(S()) && id !in header && typ in objs && typ.Type == null
      modifies this`objs, this`header, this`lists, typ`FirstObject
      ensures Valid() && typ.id in old(lists)
      ensures if memory then
                && status == Success && h != null && fresh(h) && h.id == id && objs == old(objs) + {h}
                && S() == CreateObject(old(S()), id, permanent, typ.id)
              else status == InsufficientResources && h == null && objs == old(objs) && S() == old(S())
    {
      hide Ids, Entries, Tables, TypesOf, LinksOf, Succ, First, CountsOk, TypeListsOk, TypeListOf;
      NewOnList(id, typ);
      if !memory {
        return InsufficientResources, null;
      }
      var created := new Header(id, permanent, typ, false);
      WithObject(created);
      PushFront(created, typ);
      Remember(created, Entry(0, 1, permanent, Some(typ.id)), lists[typ.id := [id] + lists[typ.id]]);
      return Success, created;
    }

    // ObCreateObjectType: the new type object heads the list of all types.
    method ObCreateObjectType(ghost id: nat, delete: bool, memory: bool) returns (status: Status, h: Header?)
      requires Valid() && ObOk(S()) && id !in header
      modifies this`objs, this`header, this`lists, this`types, this`typeHead
      ensures Valid()
      ensures if memory then
                && status == Success && h != null && fresh(h) && h.id == id && h.Type == null && h.Delete == delete
                && objs == old(objs) + {h} && S() == CreateType(old(S()), id) && types == [id] + old(types)
              else
                && status == InsufficientResources && h == null
                && objs == old(objs) && S() == old(S()) && types == old(types)
    {
      hide Ids, Entries, Tables, TypesOf, LinksOf, CountsOk, TypeListsOk, TypeListOf;
      NewNumber(id);
      if !memory {
        return InsufficientResources, null;
      }
      var created := new Header(id, true, null, delete);
      EmptyType(created);
      PushType(created);
      Remember(created, Entry(0, 1, true, None), lists[id := []]);
      return Success, created;
    }

    // objectBody->NextTypeObject = ObTypeObjectListHead and ObTypeObjectListHead = objectBody
    method PushType(h: Header)
      requires TypeList() && h !in objs && h.Type == null && forall x | x in objs :: x.id != h.id
      modifies h`NextTypeObject, this`typeHead, this`types
      ensures types == [h.id] + old(types) && TypeListOf(objs + {h}, typeHead, types)
    {
      TypePushed(h.id);
      hide Succ, NoDup;
      h.NextTypeObject := typeHead;
      typeHead := h;
      ghost var was := types;
      types := [h.id] + types;
      forall x | x in types ensures exists y | y in objs + {h} :: y.id == x && y.Type == null {
        if x in was {
          var y :| y in objs && y.id == x && y.Type == null;
          assert y in objs + {h};
        } else {
          assert h in objs + {h};
        }
      }
      forall y | y in objs + {h} && y.Type == null
        ensures y.id in types && Refers(objs + {h}, y.NextTypeObject, Succ(types, y.id))
      {
        if y != h {
          assert Refers(objs, y.NextTypeObject, Succ(was, y.id));
        }
      }
    }

    lemma {:induction false} TypePushed(id: nat)
      requires TypeList() && forall x | x in objs :: x.id != id
      ensures NoDup([id] + types) && Succ([id] + types, id) == First(types)
      ensures forall y | y != id :: Succ([id] + types, y) == Succ(types, y)
    {
      assert id !in types;
      assert InsertAt(types, 0, id) == [id] + types;
      InsertMembers(types, 0, id);
      forall y ensures y != id ==> Succ([id] + types, y) == Succ(types, y) {
        SuccInsert(types, 0, id, y);
      }
      SuccInsert(types, 0, id, id);
    }

    lemma {:induction false} EmptyType(h: Header)
      requires Types() && Links() && h !in objs && h.Type == null && h.FirstObject == null
      requires forall x | x in objs :: x.id != h.id
      ensures TypesOf(objs + {h}, lists[h.id := []]) && LinksOf(objs + {h}, lists[h.id := []])
    {
      hide Succ, TypeListOf;
      forall y | y in objs + {h} && y.Type != null
        ensures y.Type.id != h.id && Refers(objs + {h}, y.NextObject, Succ(lists[y.Type.id], y.id))
      {
        assert Refers(objs, y.NextObject, Succ(lists[y.Type.id], y.id));
      }
    }

    lemma {:induction false} NewNumber(id: nat)
      requires Entries() && id !in header
      ensures forall x | x in objs :: x.id != id
    {
    }

    lemma {:induction false} NewOnList(id: nat, typ: Header)
      requires Ids() && Entries() && Types() && Links() && ObOk(S()) && id !in header && typ in objs && typ.Type == null
      ensures typ.id in lists && Succ([id] + lists[typ.id], id) == First(lists[typ.id])
      ensures forall x | x in objs :: x.id != id
      ensures forall y | y != id :: Succ([id] + lists[typ.id], y) == Succ(lists[typ.id], y)
    {
      var l := lists[typ.id];
      assert InsertAt(l, 0, id) == [id] + l;
      forall y ensures y != id ==> Succ([id] + l, y) == Succ(l, y) {
        SuccInsert(l, 0, id, y);
      }
      SuccInsert(l, 0, id, id);
    }

    // Slots do not name what is new, and may name what is gone.
    lemma {:induction false} TablesWith(h: Header)
      requires Tables() && TablesOk(S()) && h.id !in header
      ensures TablesOf(objs + {h}, procs, arrays, tables)
    {
      forall p, i | p in procs && 0 <= i < MAX_HANDLE_COUNT
        ensures IsSlot(objs + {h}, p.HandleTable[i], tables[p.id][i])
      {
        assert IsSlot(objs, p.HandleTable[i], tables[p.id][i]);
      }
    }

    lemma {:induction false} TablesWithout(h: Header)
      requires Tables()
      ensures TablesOf(objs - {h}, procs, arrays, tables)
    {
      forall p, i | p in procs && 0 <= i < MAX_HANDLE_COUNT
        ensures IsSlot(objs - {h}, p.HandleTable[i], tables[p.id][i])
      {
        assert IsSlot(objs, p.HandleTable[i], tables[p.id][i]);
      }
    }

    lemma {:induction false} EntriesWith(h: Header, e: Entry)
      requires Entries() && h !in objs && h.id !in header && h.Shows(e)
      ensures EntriesOf(objs + {h}, header[h.id := e])
      ensures forall x | x in objs :: x.id != h.id
    {
      var now := header[h.id := e];
      forall o | o in now.Keys ensures exists x | x in objs + {h} :: x.id == o {
        if o == h.id {
          assert h in objs + {h};
        } else {
          var x :| x in objs && x.id == o;
          assert x in objs + {h};
        }
      }
    }

    lemma {:induction false} EntriesWithout(h: Header)
      requires Ids() && Entries() && h in objs
      ensures EntriesOf(objs - {h}, header - {h.id})
    {
      forall o | o in header && o != h.id ensures exists x | x in objs - {h} :: x.id == o {
        var x :| x in objs && x.id == o;
        assert x in objs - {h};
      }
    }

    // The new object is taken into account.
    ghost method Remember(h: Header, e: Entry, ls: map<nat, seq<nat>>)
      requires Ids() && Entries() && Tables() && TablesOk(S()) && current in procs
      requires h !in objs && h.id !in header && h.Shows(e)
      requires TypesOf(objs + {h}, ls) && LinksOf(objs + {h}, ls) && TypeListOf(objs + {h}, typeHead, types)
      modifies this`objs, this`header, this`lists
      ensures Valid() && objs == old(objs) + {h} && header == old(header)[h.id := e] && lists == ls
    {
      hide TypesOf, LinksOf, TypeListOf, TablesOf, EntriesOf, TablesOk;
      EntriesWith(h, e);
      TablesWith(h);
      objs := objs + {h};
      header := header[h.id := e];
      lists := ls;
    }

    // A process object that was just zeroed is taken into account.
    ghost method Enroll(process: Process)
      requires Tables() && process !in procs && process.id !in tables
      requires forall p | p in procs :: p.HandleTable != process.HandleTable
      requires process.HandleTable.Length == MAX_HANDLE_COUNT
      requires forall i :: 0 <= i < MAX_HANDLE_COUNT ==> process.HandleTable[i].Object == null
      modifies this`procs, this`arrays, this`tables
      ensures Tables() && procs == old(procs) + {process} && arrays == old(arrays) + {process.HandleTable}
      ensures S() == WithTable(old(S()), process.id)
    {
      procs := procs + {process};
      arrays := arrays + {process.HandleTable};
      tables := tables[process.id := seq(MAX_HANDLE_COUNT, _ => Empty)];
    }

    // One turn of the loop in ObInitProcess.
    method InheritSlot(parent: Process?, process: Process, i: nat)
      requires Valid() && ObOk(S()) && process in procs && i < MAX_HANDLE_COUNT
      requires parent != null ==> parent in procs && parent != process
      requires process.id in tables && i < |tables[process.id]| && tables[process.id][i] == Empty
      modifies process.HandleTable, objs`HandleCount, objs`PointerCount, this`header, this`tables
      ensures Valid() && ObOk(S()) && tables.Keys == old(tables.Keys)
      ensures parent != null ==> parent.id in old(tables) && i < |old(tables)[parent.id]|
      ensures var x := if parent == null then Empty else old(tables)[parent.id][i];
              if Inheritable(x) then
                x.target in old(header) && S() == AddHandle(old(S()), process.id, i, x.target, true)
              else S() == old(S())
      ensures process.id in tables && |tables[process.id]| == |old(tables)[process.id]|
      ensures forall j :: i < j < |tables[process.id]| ==> tables[process.id][j] == old(tables)[process.id][j]
    {
      hide Entries, Types, Links, Tables, CountsOk, TypeListsOk, TypeListOf;
      SlotShown(process, i);
      if parent != null {
        SlotShown(parent, i);
        SlotObject(parent.HandleTable[i], tables[parent.id][i]);
        DifferentTables(parent, process);
      }
      if parent != null && parent.HandleTable[i].Object != null && parent.HandleTable[i].Inherit {
        var h := parent.HandleTable[i].Object;
        Shown(h);
        AddHandleOk(S(), process.id, i, h.id, true);
        AddHandleTo(process, i, h, true);
      } else {
        SetSlot(process, i, HandleEntry(null, process.HandleTable[i].Inherit), Empty);
        assert old(tables)[process.id][i := Empty] == old(tables)[process.id];
        assert tables == old(tables);
      }
    }

    method InheritNext(parent: Process?, process: Process, i: nat, ghost from: Option<nat>)
      requires Valid() && ObOk(S()) && process in procs && i < MAX_HANDLE_COUNT
      requires parent != null ==> parent in procs && parent != process && parent.id in tables
      requires from == if parent == null then None else Some(parent.id)
      requires process.id in tables && forall j :: i <= j < |tables[process.id]| ==> tables[process.id][j] == Empty
      modifies process.HandleTable, objs`HandleCount, objs`PointerCount, this`header, this`tables
      ensures Valid() && ObOk(S()) && tables.Keys == old(tables.Keys)
      ensures forall j :: i < j < |tables[process.id]| ==> tables[process.id][j] == Empty
      ensures Rest(S(), from, process.id, i + 1) == old(Rest(S(), from, process.id, i))
    {
      hide Ids, Entries, Types, Links, Tables, TypeListOf, CountsOk, TypeListsOk, Rest, AddHandle, Refers, IsSlot;
      SlotShown(process, i);
      RestIs(S(), from, process.id, i);
      InheritSlot(parent, process, i);
    }

    lemma {:induction false} DifferentTables(p: Process, q: Process)
      requires Tables() && p in procs && q in procs && p != q
      ensures p.id != q.id && p.HandleTable != q.HandleTable
    {
    }

    // The loop of ObInitProcess.
    method InheritAll(parent: Process?, process: Process, ghost from: Option<nat>)
      requires Valid() && ObOk(S()) && process in procs
      requires parent != null ==> parent in procs && parent != process && parent.id in tables
      requires from == if parent == null then None else Some(parent.id)
      requires process.id in tables && |tables[process.id]| == MAX_HANDLE_COUNT
      requires forall j :: 0 <= j < |tables[process.id]| ==> tables[process.id][j] == Empty
      modifies process.HandleTable, objs`HandleCount, objs`PointerCount, this`header, this`tables
      ensures Valid() && S() == old(Rest(S(), from, process.id, 0))
    {
      hide Ids, Entries, Types, Links, Tables, CountsOk, TypeListsOk, Rest, Refers, TypeListOf;
      var i := 0;
      while i < MAX_HANDLE_COUNT
        invariant 0 <= i <= MAX_HANDLE_COUNT && Valid() && ObOk(S())
        invariant process.id in tables && |tables[process.id]| == MAX_HANDLE_COUNT
        invariant forall j :: i <= j < |tables[process.id]| ==> tables[process.id][j] == Empty
        invariant parent != null ==> parent.id in tables
        invariant Rest(S(), from, process.id, i) == old(Rest(S(), from, process.id, 0))
      {
        InheritNext(parent, process, i, from);
        i := i + 1;
      }
      RestEnd(S(), from, process.id);
    }

    // ObInitProcess, on a process object that was just zeroed.
    method ObInitProcess(parent: Process?, process: Process)
      requires Valid() && ObOk(S()) && process !in procs && process.id !in tables
      requires parent != null ==> parent in procs
      requires forall p | p in procs :: p.HandleTable != process.HandleTable
      requires process.HandleTable.Length == MAX_HANDLE_COUNT
      requires forall i :: 0 <= i < MAX_HANDLE_COUNT ==> process.HandleTable[i].Object == null
      modifies this`procs, this`arrays, this`tables, this`header, process.HandleTable, objs`HandleCount
      modifies objs`PointerCount
      ensures Valid() && procs == old(procs) + {process}
      ensures parent != null ==> parent.id in old(tables)
      ensures S() == InitProcess(old(S()), if parent == null then None else Some(parent.id), process.id)
    {
      hide Ids, Entries, Types, Links, Tables, CountsOk, TypeListsOk, Rest, AddHandle, Refers, IsSlot, InitProcess,
        TypeListOf;
      ghost var from := if parent == null then None else Some(parent.id);
      if parent != null {
        SlotShown(parent, 0);
      }
      WithTableOk(S(), process.id);
      RestStart(S(), from, process.id);
      Enroll(process);
      InheritAll(parent, process, from);
    }

    // One turn of the loop in ObKillProcess.
    method KillSlot(process: Process, i: nat)
      requires Valid() && ObOk(S()) && process in procs && i < MAX_HANDLE_COUNT
      modifies this`objs, this`header, this`lists, this`tables, current.HandleTable
      modifies objs`HandleCount, objs`PointerCount, objs`NextObject, objs`FirstObject, objs`deletes
      ensures process.id in old(tables) && current.id in old(tables)
      ensures Valid() && ObOk(S()) && objs <= old(objs) && process.id in tables && current.id in tables
      ensures CloseAll(S(), process.id, current.id, i + 1) == old(CloseAll(S(), process.id, current.id, i))
      ensures forall t | t in objs :: t.deletes == Called(t, old(t.deletes), old(objs) - objs)
    {
      hide Ids, Entries, Types, Links, Tables, Refers, CountsOk, TypeListsOk, CloseAll, Close, TypeListOf, Called;
      forall t: Header ensures Called(t, t.deletes, {}) == t.deletes {
        NothingGone(t, t.deletes);
      }
      assert old(objs) - objs == {};
      SlotShown(process, i);
      SlotShown(current, i);
      CloseAllIs(S(), process.id, current.id, i);
      CloseOk(S(), current.id, i);
      if process.HandleTable[i].Object != null {
        var alive, status := ObCloseHandle(i);
      }
    }

    // ObKillProcess
    method ObKillProcess(process: Process) returns (alive: bool)
      requires Valid() && ObOk(S()) && process in procs
      modifies this`objs, this`header, this`lists, this`tables, current.HandleTable
      modifies objs`HandleCount, objs`PointerCount, objs`NextObject, objs`FirstObject, objs`deletes
      ensures alive && objs <= old(objs) && process.id in old(tables) && current.id in old(tables)
      ensures Valid() && KillProcess(old(S()), process.id, current.id) == Continues(S())
      ensures alive ==> forall t | t in objs :: t.deletes == Called(t, old(t.deletes), old(objs) - objs)
    {
      hide Ids, Entries, Types, Links, Tables, Refers, CountsOk, TypeListsOk, CloseAll, Close, TypeListOf, Called;
      forall t: Header ensures Called(t, t.deletes, {}) == t.deletes {
        NothingGone(t, t.deletes);
      }
      assert old(objs) - objs == {};
      SlotShown(process, 0);
      SlotShown(current, 0);
      var i := 0;
      while i < MAX_HANDLE_COUNT
        invariant 0 <= i <= MAX_HANDLE_COUNT && Valid() && ObOk(S()) && objs <= old(objs)
        invariant process.id in tables && current.id in tables
        invariant CloseAll(S(), process.id, current.id, i) == old(CloseAll(S(), process.id, current.id, 0))
        invariant forall t | t in objs :: t.deletes == Called(t, old(t.deletes), old(objs) - objs)
      {
        ghost var was := objs;
        KillSlot(process, i);
        forall t | t in objs ensures t.deletes == Called(t, old(t.deletes), old(objs) - objs) {
          GoneTogether(old(objs), was, objs, t, old(t.deletes));
        }
        i := i + 1;
      }
      CloseAllEnd(S(), process.id, current.id);
      return true;
    }
  }

  // What ObInitProcess has still to do from slot i on.
  ghost function Rest(s: Objects, parent: Option<nat>, p: nat, i: nat): Objects
    requires TablesOk(s) && (parent.Some? ==> parent.value in s.tables) && p in s.tables && i <= MAX_HANDLE_COUNT
  {
    if parent.None? then s else InheritFrom(s, parent.value, p, i)
  }

  lemma {:induction false} RestStart(s: Objects, parent: Option<nat>, p: nat)
    requires ObOk(s) && p !in s.tables && (parent.Some? ==> parent.value in s.tables)
    ensures TablesOk(WithTable(s, p)) && InitProcess(s, parent, p) == Rest(WithTable(s, p), parent, p, 0)
  {
    WithTableOk(s, p);
  }

  lemma {:induction false} RestIs(s: Objects, parent: Option<nat>, p: nat, i: nat)
    requires TablesOk(s) && (parent.Some? ==> parent.value in s.tables) && p in s.tables && i < MAX_HANDLE_COUNT
    ensures var x := if parent.None? then Empty else s.tables[parent.value][i];
            && (Inheritable(x) ==> x.target in s.header)
            && var t := if Inheritable(x) then AddHandle(s, p, i, x.target, true) else s;
               TablesOk(t) && (parent.Some? ==> parent.value in t.tables) && p in t.tables
               && Rest(s, parent, p, i) == Rest(t, parent, p, i + 1)
  {
  }

  lemma {:induction false} RestEnd(s: Objects, parent: Option<nat>, p: nat)
    requires TablesOk(s) && (parent.Some? ==> parent.value in s.tables) && p in s.tables
    ensures Rest(s, parent, p, MAX_HANDLE_COUNT) == s
  {
  }

  lemma {:induction false} CloseAllIs(s: Objects, victim: nat, cur: nat, i: nat)
    requires ObOk(s) && victim in s.tables && cur in s.tables && i < MAX_HANDLE_COUNT
    ensures |s.tables[victim]| == MAX_HANDLE_COUNT && Close(s, cur, i).Continues?
    ensures var t := if s.tables[victim][i].Empty? then s else Close(s, cur, i).value.0;
            && ObOk(t) && victim in t.tables && cur in t.tables
            && CloseAll(s, victim, cur, i) == CloseAll(t, victim, cur, i + 1)
  {
    hide CountsOk, TypeListsOk, Close;
    CloseOk(s, cur, i);
  }

  lemma {:induction false} CloseAllEnd(s: Objects, victim: nat, cur: nat)
    requires ObOk(s) && victim in s.tables && cur in s.tables
    ensures CloseAll(s, victim, cur, MAX_HANDLE_COUNT) == Continues(s)
  {
  }

  // Counting handles and references does not concern the type lists.
  lemma {:induction false} CountsKeepLists(s: Objects, o: nat, handles: nat, pointers: nat)
    requires TypeListsOk(s) && o in s.header
    ensures TypeListsOk(s.(header := s.header[o := s.header[o].(handles := handles, pointers := pointers)]))
  {
  }
}
