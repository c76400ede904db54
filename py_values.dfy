/**
 * The Python values that cross the binding: the scalars, containers and
 * date/time objects that `toPy` produces and `fromPy`, `setValue` and the
 * formatters accept.  Dictionaries keep insertion order, as Python's do.
 */
module PyValues {
  import opened Wrappers
  import opened PyDatetime

  type Byte = b: int | 0 <= b < 256

  /** A Python float, kept as its IEEE-754 bit pattern; no arithmetic is done on it. */
  datatype Float = Float(bits: bv64)

  datatype PyValue =
    | PyNone
    | PyBool(b: bool)
    | PyInt(i: int)
    | PyFloat(f: Float)
    | PyStr(s: string)
    | PyBytes(bytes: seq<Byte>)
    | PyByteArray(bytes: seq<Byte>)
    | PyMemoryView(bytes: seq<Byte>)
    | PyTemporal(t: Temporal)
    /** A `blpapi.Name`, identified by the value of its foreign handle. */
    | PyName(handle: nat)
    /** A `dict` (or other Mapping) with string keys, in iteration order. */
    | PyMapping(entries: seq<(string, PyValue)>)
    | PyList(items: seq<PyValue>)
    | PyTuple(items: seq<PyValue>)
    /** Any other object: its class name and what `str()` gives for it. */
    | PyObject(className: string, text: string)

  /** `isinstance(v, int)`: bool is a subclass of int. */
  predicate IsInt(v: PyValue) { v.PyInt? || v.PyBool? }

  /** `_DatetimeUtil.isDatetime`: an instance of datetime.datetime, date or time. */
  predicate IsDatetime(v: PyValue) { v.PyTemporal? }

  // ----- dict semantics over an ordered list of entries (for any value type) -----

  predicate KeysUnique<V>(d: seq<(string, V)>) {
    forall i, j :: 0 <= i < j < |d| ==> d[i].0 != d[j].0
  }

  function Lookup<V>(d: seq<(string, V)>, k: string): (r: Option<V>)
    ensures r.Some? <==> exists i :: 0 <= i < |d| && d[i].0 == k
  {
    if d == [] then None
    else if d[0].0 == k then Some(d[0].1)
    else
      var r := Lookup(d[1..], k);
      assert forall i :: 1 <= i < |d| ==> d[i] == d[1..][i - 1];
      r
  }

  /**
   * `d[k] = v`: an existing key keeps its position and gets the new value,
   * a new key goes at the end.
   */
  function DictSet<V>(d: seq<(string, V)>, k: string, v: V): seq<(string, V)> {
    if d == [] then [(k, v)]
    else if d[0].0 == k then [(k, v)] + d[1..]
    else [d[0]] + DictSet(d[1..], k, v)
  }

  /** After `d[k] = v`, `k` maps to `v`, every other key is unchanged, and the dict grew only for a new key. */
  lemma {:induction false} DictSetLookup<V>(d: seq<(string, V)>, k: string, v: V)
    ensures Lookup(DictSet(d, k, v), k) == Some(v)
    ensures forall k' :: k' != k ==> Lookup(DictSet(d, k, v), k') == Lookup(d, k')
    ensures |DictSet(d, k, v)| == if Lookup(d, k).Some? then |d| else |d| + 1
  {
    if d != [] {
      var r := DictSet(d, k, v);
      if d[0].0 == k {
        assert r[1..] == d[1..];
      } else {
        DictSetLookup(d[1..], k, v);
        assert r[1..] == DictSet(d[1..], k, v);
      }
    }
  }

  lemma {:induction false} DictSetKeepsKeysUnique<V>(d: seq<(string, V)>, k: string, v: V)
    requires KeysUnique(d)
    ensures KeysUnique(DictSet(d, k, v))
  {
    if d == [] {
    } else if d[0].0 == k {
      TailKeysUnique(d);
      ConsKeysUnique((k, v), d[1..]);
    } else {
      var tail := d[1..];
      TailKeysUnique(d);
      DictSetKeepsKeysUnique(tail, k, v);
      DictSetLookup(tail, k, v);
      var rest := DictSet(tail, k, v);
      assert Lookup(rest, d[0].0) == None;
      ConsKeysUnique(d[0], rest);
    }
  }

  /** The dict without its first entry still has unique keys, none of them the first key. */
  lemma TailKeysUnique<V>(d: seq<(string, V)>)
    requires d != [] && KeysUnique(d)
    ensures KeysUnique(d[1..])
    ensures Lookup(d[1..], d[0].0) == None
  {
    var tail := d[1..];
    forall i, j | 0 <= i < j < |tail| ensures tail[i].0 != tail[j].0 {
      assert tail[i] == d[i + 1] && tail[j] == d[j + 1];
    }
    forall j | 0 <= j < |tail| ensures tail[j].0 != d[0].0 {
      assert tail[j] == d[j + 1];
    }
  }

  /** An entry whose key the dict does not hold can be put in front without repeating a key. */
  lemma ConsKeysUnique<V>(x: (string, V), rest: seq<(string, V)>)
    requires KeysUnique(rest) && Lookup(rest, x.0) == None
    ensures KeysUnique([x] + rest)
  {
    var r := [x] + rest;
    forall i, j | 0 <= i < j < |r| ensures r[i].0 != r[j].0 {
      assert r[j] == rest[j - 1];
      if i > 0 { assert r[i] == rest[i - 1]; }
    }
  }

  /** `dict(pairs)`: the pairs stored one after another, so a later pair overrides an earlier one with the same key. */
  function DictFromPairs<V>(ps: seq<(string, V)>): seq<(string, V)> {
    if |ps| == 0 then []
    else DictSet(DictFromPairs(ps[..|ps| - 1]), ps[|ps| - 1].0, ps[|ps| - 1].1)
  }

  /** Storing one more pair into the dict of a prefix gives the dict of the longer prefix. */
  lemma DictFromPairsStep<V>(ps: seq<(string, V)>, i: nat)
    requires i < |ps|
    ensures DictFromPairs(ps[..i + 1]) == DictSet(DictFromPairs(ps[..i]), ps[i].0, ps[i].1)
  {
    assert ps[..i + 1][..i] == ps[..i];
  }

  /** The dict built from pairs has unique keys. */
  lemma {:induction false} DictFromPairsKeysUnique<V>(ps: seq<(string, V)>)
    ensures KeysUnique(DictFromPairs(ps))
  {
    if |ps| > 0 {
      var init := ps[..|ps| - 1];
      DictFromPairsKeysUnique(init);
      DictSetKeepsKeysUnique(DictFromPairs(init), ps[|ps| - 1].0, ps[|ps| - 1].1);
    }
  }

  /** The dict built from pairs has a key exactly for each pair's key. */
  lemma {:induction false} DictFromPairsKeys<V>(ps: seq<(string, V)>, k: string)
    ensures Lookup(DictFromPairs(ps), k).Some? <==> exists i :: 0 <= i < |ps| && ps[i].0 == k
  {
    if |ps| > 0 {
      var init := ps[..|ps| - 1];
      var last := ps[|ps| - 1];
      DictFromPairsKeys(init, k);
      DictSetLookup(DictFromPairs(init), last.0, last.1);
      if k != last.0 && Lookup(DictFromPairs(ps), k).Some? {
        var i :| 0 <= i < |init| && init[i].0 == k;
        assert ps[i] == init[i];
      }
      if exists i :: 0 <= i < |ps| && ps[i].0 == k {
        var i :| 0 <= i < |ps| && ps[i].0 == k;
        if i < |init| { assert init[i] == ps[i]; }
      }
    }
  }

  /** `dict(pairs)` in full: unique keys, a key for exactly the listed ones, and the last listing of a key wins. */
  lemma DictFromPairsFacts<V>(ps: seq<(string, V)>)
    ensures KeysUnique(DictFromPairs(ps))
    ensures forall k :: Lookup(DictFromPairs(ps), k).Some? <==> exists i :: 0 <= i < |ps| && ps[i].0 == k
    ensures forall i :: 0 <= i < |ps| && (forall j :: i < j < |ps| ==> ps[j].0 != ps[i].0) ==>
              Lookup(DictFromPairs(ps), ps[i].0) == Some(ps[i].1)
  {
    DictFromPairsKeysUnique(ps);
    forall k ensures Lookup(DictFromPairs(ps), k).Some? <==> exists i :: 0 <= i < |ps| && ps[i].0 == k {
      DictFromPairsKeys(ps, k);
    }
    forall i | 0 <= i < |ps| && (forall j :: i < j < |ps| ==> ps[j].0 != ps[i].0)
      ensures Lookup(DictFromPairs(ps), ps[i].0) == Some(ps[i].1)
    {
      DictFromPairsLastWins(ps, i);
    }
  }

  lemma {:induction false} DictFromPairsLastWins<V>(ps: seq<(string, V)>, i: nat)
    requires i < |ps|
    requires forall j :: i < j < |ps| ==> ps[j].0 != ps[i].0
    ensures Lookup(DictFromPairs(ps), ps[i].0) == Some(ps[i].1)
  {
    var init := ps[..|ps| - 1];
    var last := ps[|ps| - 1];
    DictSetLookup(DictFromPairs(init), last.0, last.1);
    if i < |init| {
      assert init[i] == ps[i];
      forall j | i < j < |init| ensures init[j].0 != init[i].0 {
        assert init[j] == ps[j];
      }
      DictFromPairsLastWins(init, i);
    }
  }
}
