/**
 * Reference counting in the error paths of `complexElementToPy` and
 * `arrayElementToPy` (src/blpapi/ffi_utils.c).  Only the objects one call
 * creates are tracked: the container (object 0) and one object per
 * converted sub-value (objects 1, 2, ...).  What the engine does at each
 * iteration is an input.
 */
module DecodeOwnership {

  /** What happens at one iteration of the conversion loop. */
  datatype Step =
    /** `getElementAt` / `getValueAsElement` returns non-zero. */
    | Missing
    /** The recursive conversion returns NULL. */
    | ConversionFails
    /** The sub-value is converted: a new reference. */
    | Converted

  /**
   * Reference counts of Python objects, and for each object the references
   * it owns (the entries of a dict or the items of a list), released when its
   * own count drops to zero.
   */
  class RefLedger {
    var counts: seq<int>
    var held: seq<seq<nat>>

    ghost predicate Valid()
      reads this
    {
      && |counts| == |held|
      && forall o, j :: 0 <= o < |held| && 0 <= j < |held[o]| ==> held[o][j] < |counts|
    }

    constructor()
      ensures Valid() && counts == [] && held == []
    {
      counts := [];
      held := [];
    }

    /** A new object, returned as a new reference. */
    method New() returns (o: nat)
      requires Valid()
      modifies this
      ensures Valid()
      ensures o == |old(counts)|
      ensures counts == old(counts) + [1] && held == old(held) + [[]]
    {
      o := |counts|;
      counts := counts + [1];
      held := held + [[]];
    }

    /** `Py_INCREF`. */
    method Incref(o: nat)
      requires Valid() && o < |counts|
      modifies this
      ensures Valid()
      ensures counts == old(counts)[o := old(counts)[o] + 1] && held == old(held)
    {
      counts := counts[o := counts[o] + 1];
    }

    /** Container `c` takes ownership of one reference to `o` (a dict entry or a list slot). */
    method Store(c: nat, o: nat)
      requires Valid() && c < |counts| && o < |counts|
      modifies this
      ensures Valid()
      ensures counts == old(counts) && held == old(held)[c := old(held)[c] + [o]]
    {
      held := held[c := held[c] + [o]];
    }

    /** `Py_DECREF`: the last reference frees the object, which releases the references it owns. */
    method Decref(o: nat)
      requires Valid() && o < |counts|
      modifies this
      ensures Valid() && held == old(held)
      ensures old(counts)[o] == 1 ==> counts == ReleaseAll(old(counts)[o := 0], old(held)[o])
      ensures old(counts)[o] != 1 ==> counts == old(counts)[o := old(counts)[o] - 1]
    {
      if counts[o] != 1 {
        counts := counts[o := counts[o] - 1];
        return;
      }
      var owned := held[o];
      assert forall j :: 0 <= j < |owned| ==> owned[j] < |counts|;
      counts := counts[o := 0];
      var j := 0;
      while j < |owned|
        invariant 0 <= j <= |owned| && |counts| == |old(counts)| && held == old(held) && Valid()
        invariant ReleaseAll(counts, owned[j..]) == ReleaseAll(old(counts)[o := 0], owned)
      {
        assert owned[j..][1..] == owned[j + 1..];
        counts := counts[owned[j] := counts[owned[j]] - 1];
        j := j + 1;
      }
    }
  }

  /** Counts after each reference in `hs` has been released once. */
  function ReleaseAll(counts: seq<int>, hs: seq<nat>): (r: seq<int>)
    requires forall j :: 0 <= j < |hs| ==> hs[j] < |counts|
    ensures |r| == |counts|
    decreases |hs|
  {
    if hs == [] then counts
    else ReleaseAll(counts[hs[0] := counts[hs[0]] - 1], hs[1..])
  }

  /** Releasing `a`, `a+1`, ..., `b-1` once each lowers exactly those counts by one. */
  lemma {:induction false} ReleaseRange(counts: seq<int>, a: nat, b: nat)
    requires a <= b <= |counts|
    ensures ReleaseAll(counts, Range(a, b))
         == seq(|counts|, o requires 0 <= o < |counts| => if a <= o < b then counts[o] - 1 else counts[o])
    decreases b - a
  {
    if a < b {
      var next := counts[a := counts[a] - 1];
      assert Range(a, b)[1..] == Range(a + 1, b);
      ReleaseRange(next, a + 1, b);
    }
  }

  function Range(a: nat, b: nat): (r: seq<nat>)
    requires a <= b
    ensures |r| == b - a && forall j :: 0 <= j < |r| ==> r[j] == a + j
    decreases b - a
  {
    if a == b then [] else [a] + Range(a + 1, b)
  }

  function Uniform(n: nat, c: int): (r: seq<int>)
    ensures |r| == n && forall o :: 0 <= o < n ==> r[o] == c
  {
    seq(n, _ => c)
  }

  /** The index of the first step that is not a successful conversion, or `|steps|`. */
  function FirstFailure(steps: seq<Step>): (k: nat)
    ensures k <= |steps|
    ensures forall j :: 0 <= j < k ==> steps[j].Converted?
    ensures k < |steps| ==> !steps[k].Converted?
  {
    if steps == [] || !steps[0].Converted? then 0 else 1 + FirstFailure(steps[1..])
  }

  /**
   * The counts the container and the sub-values end with.  Without the
   * reset, a `Missing` step after at least one conversion releases the last
   * sub-value once more than it was referenced.
   */
  function FinalCounts(steps: seq<Step>, resetAfterStore: bool): seq<int> {
    var k := FirstFailure(steps);
    if k == |steps| then Uniform(k + 1, 1)
    else if !resetAfterStore && steps[k].Missing? && k > 0 then Uniform(k + 1, 0)[k := -1]
    else Uniform(k + 1, 0)
  }

  /**
   * The reference traffic of `complexElementToPy`: each converted sub-value
   * is stored in the dict (which takes its own reference) and then released;
   * the ERROR label releases the dict and then `subElementPy`.  With
   * `resetAfterStore` the variable is set to NULL after each release.
   */
  method ComplexToPyRefs(ledger: RefLedger, steps: seq<Step>, resetAfterStore: bool) returns (ok: bool)
    requires ledger.Valid() && ledger.counts == [] && ledger.held == []
    modifies ledger
    ensures ok <==> FirstFailure(steps) == |steps|
    ensures ledger.counts == FinalCounts(steps, resetAfterStore)
  {
    var dict := ledger.New();
    var subElementPy: nat := 0;
    var hasSub := false;
    var i := 0;
    ok := true;
    while i < |steps|
      invariant 0 <= i <= |steps| && ledger.Valid()
      invariant forall j :: 0 <= j < i ==> steps[j].Converted?
      invariant ledger.counts == Uniform(i + 1, 1)
      invariant ledger.held == [Range(1, i + 1)] + seq(i, _ => [])
      invariant hasSub <==> i > 0 && !resetAfterStore
      invariant hasSub ==> subElementPy == i
      invariant dict == 0
    {
      if steps[i].Missing? {
        ok := false;
        break;
      }
      if steps[i].ConversionFails? {
        hasSub := false;
        ok := false;
        break;
      }
      subElementPy := StoreInDict(ledger, dict, i);
      hasSub := true;
      if resetAfterStore {
        hasSub := false;
      }
      i := i + 1;
    }
    if !ok {
      ReleaseAtError(ledger, i, hasSub, subElementPy);
    }
  }

  /**
   * One converted sub-value of `complexElementToPy`: `PyDict_SetItemString`
   * takes its own reference, then `Py_DECREF` gives back the new one.
   */
  method StoreInDict(ledger: RefLedger, dict: nat, i: nat) returns (sub: nat)
    requires ledger.Valid() && dict == 0
    requires ledger.counts == Uniform(i + 1, 1) && ledger.held == [Range(1, i + 1)] + seq(i, _ => [])
    modifies ledger
    ensures sub == i + 1 && ledger.Valid()
    ensures ledger.counts == Uniform(i + 2, 1) && ledger.held == [Range(1, i + 2)] + seq(i + 1, _ => [])
  {
    sub := ledger.New();
    ledger.Incref(sub);
    ledger.Store(dict, sub);
    ledger.Decref(sub);
    assert Range(1, i + 2) == Range(1, i + 1) + [i + 1];
  }

  /** One converted value of `arrayElementToPy`: `PyList_SetItem` steals the new reference. */
  method StoreInList(ledger: RefLedger, list: nat, i: nat) returns (value: nat)
    requires ledger.Valid() && list == 0
    requires ledger.counts == Uniform(i + 1, 1) && ledger.held == [Range(1, i + 1)] + seq(i, _ => [])
    modifies ledger
    ensures value == i + 1 && ledger.Valid()
    ensures ledger.counts == Uniform(i + 2, 1) && ledger.held == [Range(1, i + 2)] + seq(i + 1, _ => [])
  {
    value := ledger.New();
    ledger.Store(list, value);
    assert Range(1, i + 2) == Range(1, i + 1) + [i + 1];
  }

  /**
   * The reference traffic of `arrayElementToPy`: `PyList_SetItem` steals
   * the new reference to each converted value; the ERROR label releases the
   * list and then `pyValue`.  With `resetAfterStore` the variable is set to
   * NULL once the list owns the value.
   */
  method ArrayToPyRefs(ledger: RefLedger, steps: seq<Step>, resetAfterStore: bool) returns (ok: bool)
    requires ledger.Valid() && ledger.counts == [] && ledger.held == []
    modifies ledger
    ensures ok <==> FirstFailure(steps) == |steps|
    ensures ledger.counts == FinalCounts(steps, resetAfterStore)
  {
    var list := ledger.New();
    var pyValue: nat := 0;
    var hasValue := false;
    var i := 0;
    ok := true;
    while i < |steps|
      invariant 0 <= i <= |steps| && ledger.Valid()
      invariant forall j :: 0 <= j < i ==> steps[j].Converted?
      invariant ledger.counts == Uniform(i + 1, 1)
      invariant ledger.held == [Range(1, i + 1)] + seq(i, _ => [])
      invariant hasValue <==> i > 0 && !resetAfterStore
      invariant hasValue ==> pyValue == i
      invariant list == 0
    {
      if steps[i].Missing? {
        ok := false;
        break;
      }
      if steps[i].ConversionFails? {
        hasValue := false;
        ok := false;
        break;
      }
      pyValue := StoreInList(ledger, list, i);
      hasValue := true;
      if resetAfterStore {
        hasValue := false;
      }
      i := i + 1;
    }
    if !ok {
      ReleaseAtError(ledger, i, hasValue, pyValue);
    }
  }

  /** The ERROR label: `Py_XDECREF` of the container, then of the last sub-value variable. */
  method ReleaseAtError(ledger: RefLedger, i: nat, hasLast: bool, last: nat)
    requires ledger.Valid()
    requires ledger.counts == Uniform(i + 1, 1)
    requires ledger.held == [Range(1, i + 1)] + seq(i, _ => [])
    requires hasLast ==> 0 < last <= i
    modifies ledger
    ensures hasLast ==> ledger.counts == Uniform(i + 1, 0)[last := -1]
    ensures !hasLast ==> ledger.counts == Uniform(i + 1, 0)
  {
    ghost var before := ledger.counts;
    ledger.Decref(0);
    ReleaseRange(before[0 := 0], 1, i + 1);
    assert ledger.counts == Uniform(i + 1, 0);
    if hasLast {
      ledger.Decref(last);
    }
  }

  /** A dict conversion whose second sub-element cannot be fetched: the first sub-value ends at count -1. */
  method ComplexDoubleReleaseAsWritten() returns (count: int)
    ensures count == -1
  {
    var ledger := new RefLedger();
    var ok := ComplexToPyRefs(ledger, [Converted, Missing], false);
    count := ledger.counts[1];
  }

  /** A complex array whose second value cannot be fetched as an element: the first value ends at count -1. */
  method ArrayDoubleReleaseAsWritten() returns (count: int)
    ensures count == -1
  {
    var ledger := new RefLedger();
    var ok := ArrayToPyRefs(ledger, [Converted, Missing], false);
    count := ledger.counts[1];
  }

  /**
   * With the variable reset after each store, a failed conversion frees
   * every object it created exactly once, and a successful one leaves each
   * object with exactly one reference (the container's, or the caller's).
   */
  lemma ResetBalancesCounts(steps: seq<Step>)
    ensures FirstFailure(steps) == |steps| ==>
              forall o :: 0 <= o < |FinalCounts(steps, true)| ==> FinalCounts(steps, true)[o] == 1
    ensures FirstFailure(steps) < |steps| ==>
              forall o :: 0 <= o < |FinalCounts(steps, true)| ==> FinalCounts(steps, true)[o] == 0
  {
  }
}
