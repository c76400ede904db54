/**
 * `blpapi.Name`: a handle into the engine's global table of interned
 * strings.  The table only grows, and one string has one entry, so two
 * names are equal exactly when their handles are.  The table is modelled as
 * the sequence of interned strings, a handle being an index into it.
 */
module Names {
  import opened Wrappers
  import opened PyValues
  import Utils

  type NameTable = seq<string>

  /** One entry per string: the invariant the engine's interning keeps. */
  predicate Interned(table: NameTable) {
    forall i, j :: 0 <= i < j < |table| ==> table[i] != table[j]
  }

  /** `blpapi_Name_findName`: the handle of an existing entry for the string, if there is one. */
  function FindName(table: NameTable, s: string): (r: Option<nat>)
    ensures r.Some? <==> s in table
    ensures r.Some? ==> r.value < |table| && table[r.value] == s
    decreases |table|
  {
    if table == [] then None
    else if table[|table| - 1] == s then Some(|table| - 1)
    else FindName(table[..|table| - 1], s)
  }

  /** `Name(s)` through `blpapi_Name_create`: the existing entry, or a new one at the end. */
  function Create(table: NameTable, s: string): (r: (NameTable, nat))
    ensures r.1 < |r.0| && r.0[r.1] == s
    ensures s in table ==> r.0 == table
    ensures s !in table ==> r.0 == table + [s]
  {
    match FindName(table, s)
    case Some(h) => (table, h)
    case None => (table + [s], |table|)
  }

  /**
   * Interning keeps one entry per string and never moves an existing entry;
   * creating the same string again gives the same handle and leaves the
   * table as it is; and `findName` then finds that handle.
   */
  lemma CreateInterns(table: NameTable, s: string)
    requires Interned(table)
    ensures var (t, h) := Create(table, s);
            Interned(t) && table <= t && FindName(t, s) == Some(h) && Create(t, s) == (t, h)
  {
    var (t, h) := Create(table, s);
    FindUnique(t, s, h);
  }

  /** In an interned table the entry for a string is the only one. */
  lemma FindUnique(table: NameTable, s: string, h: nat)
    requires Interned(table) && h < |table| && table[h] == s
    ensures FindName(table, s) == Some(h)
  {
  }

  /** `Name.findName`: None exactly when the engine has no handle for the string. */
  function FindNameObject(table: NameTable, s: string): (r: PyValue)
    ensures r.PyNone? <==> s !in table
    ensures r.PyName? ==> r.handle < |table| && table[r.handle] == s
  {
    match FindName(table, s)
    case None => PyNone
    case Some(h) => PyName(h)
  }

  datatype NameError = TypeError(message: string) | AttributeError(message: string) | UnicodeDecodeError

  /** A name argument as the engine's functions take it: either a string or a handle. */
  datatype NamePair = NamePair(nameString: Option<string>, handle: Option<nat>)

  /** `getNamePair`: a Name gives its handle, a str or bytes its text, anything else is a TypeError. */
  function GetNamePair(name: PyValue, decode: seq<Byte> -> Option<string>): (r: Result<NamePair, NameError>)
    ensures name.PyName? ==> r == Ok(NamePair(None, Some(name.handle)))
    ensures name.PyStr? ==> r == Ok(NamePair(Some(name.s), None))
    ensures !name.PyName? && !Utils.IsStr(name) ==> r.Err? && r.error.TypeError?
    ensures r.Ok? ==> (r.value.nameString.Some? <==> r.value.handle.None?)
  {
    if name.PyName? then Ok(NamePair(None, Some(name.handle)))
    else if Utils.IsStr(name) then
      match Utils.Conv2Str(name, decode)
      case Err(_) => Err(UnicodeDecodeError)
      case Ok(s) => Ok(NamePair(Some(s.s), None))
    else Err(TypeError("name should be an instance of a string or blpapi.Name"))
  }

  /**
   * `Name.__eq__`: None is unequal; another object is compared by the value
   * of its handle (an object without one raises AttributeError); a str or
   * bytes is compared with the name's text by the engine.
   */
  function NameEq(table: NameTable, h: nat, other: PyValue, decode: seq<Byte> -> Option<string>): (r: Result<bool, NameError>)
    requires h < |table|
    ensures other.PyNone? ==> r == Ok(false)
    ensures other.PyName? ==> r == Ok(h == other.handle)
    ensures other.PyStr? ==> r == Ok(table[h] == other.s)
    ensures !Utils.IsStr(other) && !other.PyNone? && !other.PyName? ==> r.Err? && r.error.AttributeError?
  {
    if !Utils.IsStr(other) then
      if other.PyNone? then Ok(false)
      else if other.PyName? then Ok(h == other.handle)
      else Err(AttributeError("object has no attribute '_handle'"))
    else
      match Utils.Conv2Str(other, decode)
      case Err(_) => Err(UnicodeDecodeError)
      case Ok(s) => Ok(table[h] == s.s)
  }

  /** `Name.__ne__`: the negation of `__eq__`, raising what it raises. */
  function NameNe(table: NameTable, h: nat, other: PyValue, decode: seq<Byte> -> Option<string>): (r: Result<bool, NameError>)
    requires h < |table|
    ensures r.Ok? <==> NameEq(table, h, other, decode).Ok?
    ensures r.Ok? ==> r.value == !NameEq(table, h, other, decode).value
  {
    match NameEq(table, h, other, decode)
    case Err(e) => Err(e)
    case Ok(b) => Ok(!b)
  }

  /** `Name.__hash__`: the handle's value. */
  function NameHash(h: nat): int { h }

  /**
   * Over an interned table, two names are equal exactly when they stand for
   * the same string, equal names hash alike, and a name equals its own text.
   */
  lemma NameEqualityAgreesWithText(table: NameTable, h1: nat, h2: nat, decode: seq<Byte> -> Option<string>)
    requires Interned(table) && h1 < |table| && h2 < |table|
    ensures NameEq(table, h1, PyName(h2), decode) == Ok(table[h1] == table[h2])
    ensures NameEq(table, h1, PyName(h2), decode) == Ok(true) ==> NameHash(h1) == NameHash(h2)
    ensures NameEq(table, h1, PyStr(table[h1]), decode) == Ok(true)
  {
  }
}
