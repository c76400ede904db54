/**
 * The managed-pointer bridge of src/blpapi/ffi_utils.c: the engine keeps
 * (pointer, manager) slots inside correlation ids and calls `managerFunc`
 * to copy or destroy them; the binding keeps a Python reference count on
 * each pointed-to object.  Calls are taken one at a time; the global
 * interpreter lock they acquire is not modelled.
 */
module LifetimeBridge {
  import opened Wrappers

  /** `BLPAPI_MANAGEDPTR_COPY` and `BLPAPI_MANAGEDPTR_DESTROY` of the engine's header. */
  const MANAGEDPTR_COPY: int := 1
  const MANAGEDPTR_DESTROY: int := -1

  datatype Ptr = Null | Obj(id: nat)

  /** The manager function stored in a slot: the bridge's own `managerFunc`, another one, or none. */
  datatype Manager = BridgeManager | ForeignManager(address: nat) | NoManager

  datatype ManagedPtr = ManagedPtr(pointer: Ptr, manager: Manager)

  /** `Py_XINCREF`: nothing for NULL. */
  function IncRef(counts: map<nat, int>, p: Ptr): (r: map<nat, int>)
    requires p.Obj? ==> p.id in counts
    ensures r.Keys == counts.Keys
    ensures p.Obj? ==> r[p.id] == counts[p.id] + 1
    ensures forall o :: o in counts && (p.Null? || o != p.id) ==> r[o] == counts[o]
  {
    if p.Obj? then counts[p.id := counts[p.id] + 1] else counts
  }

  /** `Py_XDECREF`: nothing for NULL. */
  function DecRef(counts: map<nat, int>, p: Ptr): (r: map<nat, int>)
    requires p.Obj? ==> p.id in counts
    ensures r.Keys == counts.Keys
    ensures p.Obj? ==> r[p.id] == counts[p.id] - 1
    ensures forall o :: o in counts && (p.Null? || o != p.id) ==> r[o] == counts[o]
  {
    if p.Obj? then counts[p.id := counts[p.id] - 1] else counts
  }

  /** `is_known_obj`: the slot's manager is the bridge's own. */
  predicate IsKnownObj(slot: ManagedPtr) {
    slot.manager == BridgeManager
  }

  class Bridge {
    /** The engine's managed-pointer slots, by address. */
    var slots: map<nat, ManagedPtr>
    /** Reference counts of the Python objects the slots may point to. */
    var counts: map<nat, int>

    ghost predicate Valid()
      reads this
    {
      forall s :: s in slots && slots[s].pointer.Obj? ==> slots[s].pointer.id in counts
    }

    constructor(objects: map<nat, int>)
      ensures Valid() && slots == map[] && counts == objects
    {
      slots := map[];
      counts := objects;
    }

    /**
     * `managerFunc`: COPY makes the destination slot equal to the source and
     * takes a reference to its object; DESTROY drops the reference the slot
     * holds (the slot itself is left as it was); any other operation does
     * nothing.  The result is always 0.
     */
    method ManagerFunc(dst: nat, src: nat, operation: int) returns (rc: int)
      requires Valid() && dst in slots
      requires operation == MANAGEDPTR_COPY ==> src in slots
      modifies this
      ensures Valid() && rc == 0
      ensures operation == MANAGEDPTR_COPY ==>
                slots == old(slots)[dst := old(slots)[src]] &&
                counts == IncRef(old(counts), old(slots)[src].pointer)
      ensures operation == MANAGEDPTR_DESTROY ==>
                slots == old(slots) && counts == DecRef(old(counts), old(slots)[dst].pointer)
      ensures operation != MANAGEDPTR_COPY && operation != MANAGEDPTR_DESTROY ==>
                slots == old(slots) && counts == old(counts)
    {
      if operation == MANAGEDPTR_COPY {
        var source := slots[src];
        slots := slots[dst := ManagedPtr(source.pointer, source.manager)];
        counts := IncRef(counts, slots[dst].pointer);
      } else if operation == MANAGEDPTR_DESTROY {
        counts := DecRef(counts, slots[dst].pointer);
      }
      rc := 0;
    }

    /** `setmptr`: the slot's manager becomes `managerFunc`; its pointer is untouched. */
    method SetMptr(s: nat)
      requires Valid() && s in slots
      modifies this
      ensures slots == old(slots)[s := ManagedPtr(old(slots)[s].pointer, BridgeManager)]
      ensures Valid() && IsKnownObj(slots[s])
      ensures counts == old(counts)
    {
      slots := slots[s := slots[s].(manager := BridgeManager)];
    }
  }

  /** A copy followed by the destruction of the copy leaves every count as it was. */
  lemma CopyThenDestroyBalanced(counts: map<nat, int>, p: Ptr)
    requires p.Obj? ==> p.id in counts
    ensures DecRef(IncRef(counts, p), p) == counts
  {
  }

  /** A copy is known to the bridge exactly when its source is; an empty, zero-initialised slot is not. */
  lemma KnownFollowsCopy(src: ManagedPtr)
    ensures IsKnownObj(ManagedPtr(src.pointer, src.manager)) <==> IsKnownObj(src)
    ensures !IsKnownObj(ManagedPtr(Null, NoManager))
    ensures forall a :: !IsKnownObj(ManagedPtr(src.pointer, ForeignManager(a)))
  {
  }

  /** A call the engine makes on the bridge. */
  datatype Call = Copy(dst: nat, src: nat) | Destroy(slot: nat)

  /** The state after a run of calls, or None when a call names a slot that does not exist. */
  function Run(slots: map<nat, ManagedPtr>, counts: map<nat, int>, calls: seq<Call>)
    : Option<(map<nat, ManagedPtr>, map<nat, int>)>
    requires SlotsValid(slots, counts)
    decreases |calls|
  {
    if calls == [] then Some((slots, counts))
    else match calls[0]
      case Copy(dst, src) =>
        if dst in slots && src in slots then
          Run(slots[dst := slots[src]], IncRef(counts, slots[src].pointer), calls[1..])
        else None
      case Destroy(s) =>
        if s in slots then Run(slots, DecRef(counts, slots[s].pointer), calls[1..]) else None
  }

  ghost predicate SlotsValid(slots: map<nat, ManagedPtr>, counts: map<nat, int>) {
    forall s :: s in slots && slots[s].pointer.Obj? ==> slots[s].pointer.id in counts
  }

  /** How many calls of the run touch object `o`: +1 per copy of a slot holding it, -1 per destroy of one. */
  function NetReferences(slots: map<nat, ManagedPtr>, counts: map<nat, int>, calls: seq<Call>, o: nat): int
    requires SlotsValid(slots, counts)
    decreases |calls|
  {
    if calls == [] then 0
    else match calls[0]
      case Copy(dst, src) =>
        if dst in slots && src in slots then
          (if slots[src].pointer == Obj(o) then 1 else 0)
          + NetReferences(slots[dst := slots[src]], IncRef(counts, slots[src].pointer), calls[1..], o)
        else 0
      case Destroy(s) =>
        if s in slots then
          (if slots[s].pointer == Obj(o) then -1 else 0)
          + NetReferences(slots, DecRef(counts, slots[s].pointer), calls[1..], o)
        else 0
  }

  /**
   * Over a run of COPY and DESTROY calls, each object's count moves by the
   * number of copies of a slot pointing to it minus the number of destroys
   * of a slot pointing to it.
   */
  lemma {:induction false} RunCounts(slots: map<nat, ManagedPtr>, counts: map<nat, int>, calls: seq<Call>, o: nat)
    requires SlotsValid(slots, counts) && o in counts
    ensures Run(slots, counts, calls).Some? ==>
              o in Run(slots, counts, calls).value.1 &&
              Run(slots, counts, calls).value.1[o] == counts[o] + NetReferences(slots, counts, calls, o)
    decreases |calls|
  {
    if calls != [] {
      match calls[0]
      case Copy(dst, src) =>
        if dst in slots && src in slots {
          RunCounts(slots[dst := slots[src]], IncRef(counts, slots[src].pointer), calls[1..], o);
        }
      case Destroy(s) =>
        if s in slots {
          RunCounts(slots, DecRef(counts, slots[s].pointer), calls[1..], o);
        }
    }
  }
}
