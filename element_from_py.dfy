/**
 * `Element.fromPy` / `_fromPyHelper` (src/blpapi/element.py): formatting an
 * empty engine element from a Python value under the element's schema
 * definition.  A Mapping fills a complex element key by key, a list or
 * tuple fills an array entry by entry, None leaves the element alone and
 * any other value is set through the traits.  The element that results is
 * a `BlpElement.Element`, so that `toPy` (`ElementDecode.Decode`) can read
 * it back.
 */
module ElementFromPy {
  import opened Wrappers
  import opened PyValues
  import opened BlpElement
  import PyDatetime
  import ElementDecode
  import DatetimeUtil
  import PyElement
  import Names
  import Utils
  import Text

  /** A schema definition: the element's name, its data type, whether it is an array, and the definitions of its sub-elements. */
  datatype Def = Def(name: string, dataType: DataType, isArray: bool, fields: seq<Def>)

  predicate IsComplexType(t: DataType) { t == SEQUENCE || t == CHOICE }

  /** `isComplexType()` of an element of this definition: an array never is. */
  predicate IsComplexElement(d: Def) { !d.isArray && IsComplexType(d.dataType) }

  /** The definition of one entry of an array. */
  function EntryDef(d: Def): Def { d.(isArray := false) }

  /** `getElement(name)` on a complex element: the first field of that name. */
  function FieldNamed(fields: seq<Def>, name: string): (r: Option<Def>)
    ensures r.Some? ==> r.value.name == name && r.value in fields
  {
    if fields == [] then None
    else if fields[0].name == name then Some(fields[0])
    else FieldNamed(fields[1..], name)
  }

  /** An element of the definition that nothing has formatted yet: no sub-elements, no values, null. */
  function Fresh(d: Def): Element {
    Element(d.name, d.dataType, IsComplexElement(d), d.isArray, true, [], [], IsComplexType(d.dataType))
  }

  predicate Formatted(e: Element) { NumElements(e) > 0 || NumValues(e) > 0 }

  // ----- errors -----

  /** Why formatting stopped. */
  datatype Reason =
    | AlreadyFormatted
    | MappingForNonComplex
    | SequenceForNonArray
    | MappingForScalarEntry
    | NestedSequence(scalarEntries: bool)
    | ScalarForComplexEntry
    | IncompatibleType
    /** `getElement(name)` found no such field. */
    | NoSuchField(fieldName: string)
    /** The error `setValue` / `appendValue` raised. */
    | Raised(cause: PyElement.ElementError)

  /** The Exception raised: the kind of the active element, whether an array entry was at fault, the path, and the reason. */
  datatype FromPyError = FromPyError(elementType: string, isArrayEntry: bool, path: string, reason: Reason)

  /** What `getActivePathMessage` calls the active element. */
  function ElementType(d: Def): string {
    if d.isArray then "array" else if IsComplexElement(d) then "complex" else "scalar"
  }

  function Fail(d: Def, isArrayEntry: bool, path: string, reason: Reason): FromPyError {
    FromPyError(ElementType(d), isArrayEntry, path, reason)
  }

  /** The beginning of the message, two spaces before "Element" as the f-strings produce. */
  function MessagePrefix(err: FromPyError): string {
    "While operating on " + (if err.isArrayEntry then "an entry in " else "") + err.elementType
    + "  Element `" + err.path + "`, "
  }

  function EntryPath(path: string, index: nat): string {
    path + "[" + Text.IntToString(index) + "]"
  }

  // ----- setting one value -----

  /** The engine call the traits make, with the converted argument. */
  datatype SetCall =
    | SetString(s: string)
    | SetBytes(bytes: seq<Byte>)
    | SetBool(b: bool)
    | SetInt32(i: int)
    | SetInt64(i: int)
    | SetFloat(f: Float)
    | SetDatetime(hp: PyDatetime.HighPrecisionDatetime)
    | SetFromName(handle: nat)
    /** `setValueString(str(value))` for a value without traits of its own. */
    | SetDefault(value: PyValue)

  /** `setValue` / `appendValue` up to the engine: the traits, then their conversion. */
  function SetCallFor(value: PyValue): (r: Result<SetCall, PyElement.ElementError>)
    ensures PyElement.GetTraits(value).Err? ==> r.Err?
    ensures r.Ok? && r.value.SetInt32? ==> PyElement.InInt32(r.value.i)
    ensures r.Err? && PyElement.GetTraits(value).Ok? ==> r.error.DatetimeError?
  {
    match PyElement.GetTraits(value)
    case Err(err) => Err(err)
    case Ok(traits) =>
      match traits
      case StringTraits => Ok(SetString(value.s))
      case BytesTraits => Ok(SetBytes(value.bytes))
      case BoolTraits => Ok(SetBool(value.b))
      case Int32Traits => Ok(SetInt32(value.i))
      case Int64Traits => Ok(SetInt64(value.i))
      case FloatTraits => Ok(SetFloat(value.f))
      case DatetimeTraits =>
        (match DatetimeUtil.ToBlpapi(value)
         case Ok(hp) => Ok(SetDatetime(hp))
         case Err(err) => Err(PyElement.DatetimeError(err)))
      case NameTraits => Ok(SetFromName(value.handle))
      case DefaultTraits => Ok(SetDefault(value))
  }

  /** `str()` of a value that reaches the default traits, where the model knows it. */
  function DefaultText(value: PyValue): Option<string> {
    match value
    case PyNone => Some("None")
    case PyObject(_, text) => Some(text)
    case _ => None
  }

  /**
   * What the engine stores for a call on an element of data type `t`, or
   * None where it refuses.  Only conversions that keep the value exactly
   * are listed; `table` gives the text of a Name handle.
   */
  function Store(t: DataType, call: SetCall, table: Names.NameTable): Option<Stored> {
    match call
    case SetBool(b) => if t == BOOL then Some(SBool(b)) else None
    case SetInt32(i) => if t == INT32 || t == INT64 then Some(SInt(i)) else None
    case SetInt64(i) => if t == INT64 then Some(SInt(i)) else None
    case SetFloat(f) => if t == FLOAT64 then Some(SFloat(f)) else None
    case SetString(s) => if t == STRING || t == ENUMERATION then Some(SString(s)) else None
    case SetBytes(bs) => if t == BYTEARRAY then Some(SBytes(bs)) else None
    case SetDatetime(hp) => if t in {DATE, TIME, DATETIME} then Some(SDatetime(hp)) else None
    case SetFromName(h) =>
      if (t == STRING || t == ENUMERATION) && h < |table| then Some(SString(table[h])) else None
    case SetDefault(v) =>
      if t == STRING && DefaultText(v).Some? then Some(SString(DefaultText(v).value)) else None
  }

  /** `setValue(value)` on a scalar, or `appendValue(value)` on an array, of data type `t`. */
  function StoreValue(t: DataType, value: PyValue, table: Names.NameTable): (r: Result<Stored, PyElement.ElementError>)
    ensures PyElement.GetTraits(value).Err? ==> r == Err(PyElement.GetTraits(value).error)
  {
    match SetCallFor(value)
    case Err(err) => Err(err)
    case Ok(call) =>
      match Store(t, call, table)
      case Some(s) => Ok(s)
      case None => Err(PyElement.EngineError)
  }

  // ----- _fromPyHelper -----

  /**
   * `_fromPyHelper(value)` on a fresh element of definition `d` whose path
   * is `path`: the formatted element, or the Exception raised.
   */
  function Build(d: Def, value: PyValue, path: string, table: Names.NameTable): (r: Result<Element, FromPyError>)
    ensures r.Ok? ==> r.value.name == d.name && r.value.dataType == d.dataType && r.value.isArray == d.isArray
    ensures r.Ok? ==> r.value.isComplexType == IsComplexElement(d) && r.value.typeIsComplex == IsComplexType(d.dataType)
    decreases value, 2, 0
  {
    if value.PyMapping? then
      if !IsComplexElement(d) then Err(Fail(d, false, path, MappingForNonComplex))
      else
        match BuildFields(d, value, |value.entries|, path, table)
        case Err(err) => Err(err)
        case Ok(subs) => Ok(Fresh(d).(subElements := subs, isNull := false))
    else if Utils.IsNonScalarSequence(value) then
      if !d.isArray then Err(Fail(d, false, path, SequenceForNonArray))
      else
        match BuildItems(d, value, |value.items|, path, table)
        case Err(err) => Err(err)
        case Ok(slots) => Ok(Fresh(d).(values := slots, isNull := false))
    else if value.PyNone? then Ok(Fresh(d))
    else if IsComplexElement(d) || d.isArray then Err(Fail(d, false, path, IncompatibleType))
    else
      match StoreValue(d.dataType, value, table)
      case Err(err) => Err(Fail(d, false, path, Raised(err)))
      case Ok(s) => Ok(Fresh(d).(values := [Scalar(s)], isNull := false))
  }

  /** Where, among the sub-elements formatted so far, the one of this name is. */
  function SubIndex(subs: seq<Option<Element>>, name: string): (r: Option<nat>)
    ensures r.Some? ==> r.value < |subs| && subs[r.value].Some? && subs[r.value].value.name == name
    ensures r.None? ==> forall i :: 0 <= i < |subs| && subs[i].Some? ==> subs[i].value.name != name
  {
    if subs == [] then None
    else if subs[|subs| - 1].Some? && subs[|subs| - 1].value.name == name then Some(|subs| - 1)
    else SubIndex(subs[..|subs| - 1], name)
  }

  /**
   * The sub-elements after the first `n` entries of the Mapping: each key
   * is looked up with `getElement` and its element formatted from the
   * value.  A key met again finds its element already there, which is an
   * error once that element holds something.
   */
  function BuildFields(d: Def, value: PyValue, n: nat, path: string, table: Names.NameTable)
    : (r: Result<seq<Option<Element>>, FromPyError>)
    requires value.PyMapping? && n <= |value.entries| && IsComplexElement(d)
    decreases value, 1, n
  {
    if n == 0 then Ok([])
    else
      match BuildFields(d, value, n - 1, path, table)
      case Err(err) => Err(err)
      case Ok(subs) =>
        var entry := value.entries[n - 1];
        assert entry in value.entries;
        match FieldNamed(d.fields, entry.0)
        case None => Err(Fail(d, false, path, NoSuchField(entry.0)))
        case Some(field) =>
          var subPath := path + "/" + field.name;
          var at := SubIndex(subs, field.name);
          if at.Some? && Formatted(subs[at.value].value) then
            Err(Fail(field, false, subPath, AlreadyFormatted))
          else
            match Build(field, entry.1, subPath, table)
            case Err(err) => Err(err)
            case Ok(sub) => Ok(if at.Some? then subs[at.value := Some(sub)] else subs + [Some(sub)])
  }

  /**
   * The array's value slots after the first `n` entries: a Mapping entry
   * is an appended element (complex arrays only), a nested sequence is
   * refused, and a scalar is appended (scalar arrays only).
   */
  function BuildItems(d: Def, value: PyValue, n: nat, path: string, table: Names.NameTable)
    : (r: Result<seq<ValueSlot>, FromPyError>)
    requires Utils.IsNonScalarSequence(value) && n <= |value.items| && d.isArray
    ensures r.Ok? ==> |r.value| == n
    decreases value, 1, n
  {
    if n == 0 then Ok([])
    else
      match BuildItems(d, value, n - 1, path, table)
      case Err(err) => Err(err)
      case Ok(slots) =>
        var val := value.items[n - 1];
        assert val in value.items;
        var scalarEntries := !IsComplexType(d.dataType);
        var entryPath := EntryPath(path, n - 1);
        if val.PyMapping? then
          if scalarEntries then Err(Fail(d, true, entryPath, MappingForScalarEntry))
          else
            match Build(EntryDef(d), val, entryPath, table)
            case Err(err) => Err(err)
            case Ok(entry) => Ok(slots + [Nested(entry)])
        else if Utils.IsNonScalarSequence(val) then Err(Fail(d, true, entryPath, NestedSequence(scalarEntries)))
        else if !scalarEntries then Err(Fail(d, true, entryPath, ScalarForComplexEntry))
        else
          match StoreValue(d.dataType, val, table)
          case Err(err) => Err(Fail(d, true, entryPath, Raised(err)))
          case Ok(s) => Ok(slots + [Scalar(s)])
  }

  /** `e` is an element of definition `d`. */
  predicate Describes(d: Def, e: Element) {
    e.name == d.name && e.dataType == d.dataType && e.isArray == d.isArray && e.isComplexType == IsComplexElement(d)
  }

  /**
   * `fromPy(value)`: an element that already holds sub-elements or values is
   * refused; otherwise it is formatted from the value, its path being its
   * name.
   */
  function FromPy(e: Element, d: Def, value: PyValue, table: Names.NameTable): (r: Result<Element, FromPyError>)
    requires Describes(d, e)
    ensures Formatted(e) ==> r == Err(Fail(d, false, d.name, AlreadyFormatted))
    ensures !Formatted(e) ==> r == Build(d, value, d.name, table)
  {
    if Formatted(e) then Err(Fail(d, false, e.name, AlreadyFormatted))
    else Build(d, value, e.name, table)
  }

  // ----- what is refused -----

  /**
   * The shape checks: a Mapping needs a complex element, a list or tuple an
   * array, a scalar other than None a scalar element; None leaves the
   * element untouched.
   */
  lemma ShapeChecks(d: Def, value: PyValue, path: string, table: Names.NameTable)
    ensures value.PyMapping? && !IsComplexElement(d) ==>
              Build(d, value, path, table) == Err(Fail(d, false, path, MappingForNonComplex))
    ensures Utils.IsNonScalarSequence(value) && !d.isArray ==>
              Build(d, value, path, table) == Err(Fail(d, false, path, SequenceForNonArray))
    ensures value.PyNone? ==> Build(d, value, path, table) == Ok(Fresh(d))
    ensures !value.PyMapping? && !Utils.IsNonScalarSequence(value) && !value.PyNone? && (IsComplexElement(d) || d.isArray) ==>
              Build(d, value, path, table) == Err(Fail(d, false, path, IncompatibleType))
  {
  }

  /**
   * Array entries: in the first entry that is at fault, a Mapping in a
   * scalar array, a nested list or tuple, or a scalar in a complex array is
   * refused, naming the entry's index in the path.
   */
  lemma {:induction false} EntryChecks(d: Def, value: PyValue, path: string, table: Names.NameTable, k: nat)
    requires Utils.IsNonScalarSequence(value) && d.isArray && k < |value.items|
    requires BuildItems(d, value, k, path, table).Ok?
    ensures var val := value.items[k];
            var scalarEntries := !IsComplexType(d.dataType);
            (val.PyMapping? && scalarEntries ==>
               BuildItems(d, value, k + 1, path, table) == Err(Fail(d, true, EntryPath(path, k), MappingForScalarEntry))) &&
            (Utils.IsNonScalarSequence(val) ==>
               BuildItems(d, value, k + 1, path, table) == Err(Fail(d, true, EntryPath(path, k), NestedSequence(scalarEntries)))) &&
            (!val.PyMapping? && !Utils.IsNonScalarSequence(val) && !scalarEntries ==>
               BuildItems(d, value, k + 1, path, table) == Err(Fail(d, true, EntryPath(path, k), ScalarForComplexEntry)))
  {
  }

  /** An error stops the loop: every longer prefix of the entries fails the same way. */
  lemma {:induction false} ItemsErrSticky(d: Def, value: PyValue, path: string, table: Names.NameTable, k: nat, n: nat)
    requires Utils.IsNonScalarSequence(value) && d.isArray && k <= n <= |value.items|
    requires BuildItems(d, value, k, path, table).Err?
    ensures BuildItems(d, value, n, path, table) == BuildItems(d, value, k, path, table)
    decreases n - k
  {
    if n > k {
      ItemsErrSticky(d, value, path, table, k, n - 1);
    }
  }

  /** A sequence with a nested list or tuple anywhere is never accepted. */
  lemma NestedSequenceRejected(d: Def, value: PyValue, path: string, table: Names.NameTable, k: nat)
    requires Utils.IsNonScalarSequence(value) && k < |value.items| && Utils.IsNonScalarSequence(value.items[k])
    ensures Build(d, value, path, table).Err?
  {
    if d.isArray {
      if BuildItems(d, value, k, path, table).Ok? {
        EntryChecks(d, value, path, table, k);
        ItemsErrSticky(d, value, path, table, k + 1, |value.items|);
      } else {
        ItemsErrSticky(d, value, path, table, k, |value.items|);
      }
    }
  }

  // ----- fromPy then toPy -----

  /** A scalar that the element's data type stores exactly and reads back as the same Python value. */
  predicate ScalarConforms(t: DataType, v: PyValue) {
    match v
    case PyBool(_) => t == BOOL
    case PyInt(i) => (t == INT32 && PyElement.InInt32(i)) || (t == INT64 && PyElement.InInt64(i))
    case PyFloat(_) => t == FLOAT64
    case PyStr(_) => t == STRING || t == ENUMERATION
    case PyBytes(_) => t == BYTEARRAY
    case _ => false
  }

  /**
   * A value shaped like the definition: a Mapping with unique keys naming
   * fields of a complex element, a list of conforming entries for an
   * array, a conforming scalar, or None for a scalar.
   */
  predicate Conforms(d: Def, v: PyValue)
    decreases v
  {
    match v
    case PyNone => !d.isArray && !IsComplexType(d.dataType)
    case PyMapping(entries) =>
      IsComplexElement(d) && KeysUnique(entries) &&
      forall i :: 0 <= i < |entries| ==>
        FieldNamed(d.fields, entries[i].0).Some? && Conforms(FieldNamed(d.fields, entries[i].0).value, entries[i].1)
    case PyList(items) =>
      d.isArray &&
      forall i :: 0 <= i < |items| ==>
        if IsComplexType(d.dataType) then items[i].PyMapping? && Conforms(EntryDef(d), items[i])
        else ScalarConforms(d.dataType, items[i])
    case _ => !d.isArray && !IsComplexType(d.dataType) && ScalarConforms(d.dataType, v)
  }

  /** A stored conforming scalar reads back as itself. */
  lemma ScalarRoundTrip(t: DataType, v: PyValue, table: Names.NameTable, e: Element, index: nat, now: PyDatetime.Temporal)
    requires ScalarConforms(t, v)
    requires e.dataType == t && index < |e.values| && StoreValue(t, v, table).Ok?
    requires e.values[index] == Scalar(StoreValue(t, v, table).value)
    ensures ElementDecode.ScalarValue(e, index, now) == Ok(v)
  {
  }

  /** Every conforming scalar is stored. */
  lemma ScalarStored(t: DataType, v: PyValue, table: Names.NameTable)
    requires ScalarConforms(t, v)
    ensures StoreValue(t, v, table).Ok?
  {
  }

  /**
   * `fromPy` followed by `toPy` gives back the value: the element built
   * from a conforming value decodes to that value.
   */
  lemma {:induction false} RoundTrip(d: Def, v: PyValue, path: string, table: Names.NameTable, now: PyDatetime.Temporal)
    requires Conforms(d, v)
    ensures Build(d, v, path, table).Ok?
    ensures ElementDecode.Decode(Build(d, v, path, table).value, now) == Ok(v)
    decreases v, 2, 0, 0
  {
    if v.PyMapping? {
      var entries := v.entries;
      FieldsRoundTrip(d, v, |entries|, path, table, now);
      var e := Build(d, v, path, table).value;
      assert e.subElements == BuildFields(d, v, |entries|, path, table).value;
      PrefixDecodes(v, |entries|, now, e);
      assert entries[..|entries|] == entries;
    } else if v.PyList? {
      var items := v.items;
      ItemsRoundTrip(d, v, |items|, path, table, now);
      var e := Build(d, v, path, table).value;
      ElementDecode.ArrayPrefixItems(e, |items|, now);
      assert e.values == BuildItems(d, v, |items|, path, table).value;
      ItemsDecode(d, v, |items|, path, table, now, e);
    } else if !v.PyNone? {
      ScalarStored(d.dataType, v, table);
      var e := Build(d, v, path, table).value;
      ScalarRoundTrip(d.dataType, v, table, e, 0, now);
    }
  }

  /** The first `n` sub-elements are present, named after the first `n` keys and decoding to their values. */
  predicate FieldsMatch(subs: seq<Option<Element>>, entries: seq<(string, PyValue)>, n: nat, now: PyDatetime.Temporal)
    requires n <= |entries|
  {
    |subs| == n &&
    forall i :: 0 <= i < n ==> subs[i].Some? && subs[i].value.name == entries[i].0 &&
                               ElementDecode.Decode(subs[i].value, now) == Ok(entries[i].1)
  }

  /**
   * The first `n` fields: one fresh sub-element per key, in key order,
   * each decoding to the value stored under that key.
   */
  lemma {:induction false} FieldsRoundTrip(d: Def, v: PyValue, n: nat, path: string, table: Names.NameTable, now: PyDatetime.Temporal)
    requires v.PyMapping? && n <= |v.entries| && Conforms(d, v)
    ensures BuildFields(d, v, n, path, table).Ok?
    ensures FieldsMatch(BuildFields(d, v, n, path, table).value, v.entries, n, now)
    decreases v, 1, n, 3
  {
    if n > 0 {
      FieldsRoundTrip(d, v, n - 1, path, table, now);
      FieldsAfter(d, v, n, path, table, now);
    }
  }

  /** The key after `n - 1` matched fields is one not met before, whose element extends them. */
  lemma {:induction false} FieldsAfter(d: Def, v: PyValue, n: nat, path: string, table: Names.NameTable, now: PyDatetime.Temporal)
    requires v.PyMapping? && 0 < n <= |v.entries| && Conforms(d, v)
    requires BuildFields(d, v, n - 1, path, table).Ok?
    requires FieldsMatch(BuildFields(d, v, n - 1, path, table).value, v.entries, n - 1, now)
    ensures BuildFields(d, v, n, path, table).Ok?
    ensures FieldsMatch(BuildFields(d, v, n, path, table).value, v.entries, n, now)
    decreases v, 1, n, 2
  {
    var subs := BuildFields(d, v, n - 1, path, table).value;
    var entry := v.entries[n - 1];
    assert entry in v.entries;
    var field := FieldNamed(d.fields, entry.0).value;
    assert SubIndex(subs, field.name).None? by {
      forall i | 0 <= i < |subs| ensures subs[i].value.name != field.name {
        assert v.entries[i].0 != v.entries[n - 1].0;
      }
    }
    FieldsNext(d, v, n, path, table, now, subs, field);
  }

  /** A conforming value formats to an element of the field that decodes back to it. */
  lemma {:induction false} Formats(field: Def, val: PyValue, subPath: string, table: Names.NameTable, now: PyDatetime.Temporal)
    returns (sub: Element)
    requires Conforms(field, val)
    ensures Build(field, val, subPath, table) == Ok(sub)
    ensures sub.name == field.name && ElementDecode.Decode(sub, now) == Ok(val)
    decreases val, 2, 1, 0
  {
    RoundTrip(field, val, subPath, table, now);
    sub := Build(field, val, subPath, table).value;
  }

  /** The step of `FieldsRoundTrip`: a fresh key's element extends fields that are in step with the entries. */
  lemma FieldsNext(d: Def, v: PyValue, n: nat, path: string, table: Names.NameTable, now: PyDatetime.Temporal,
                   subs: seq<Option<Element>>, field: Def)
    requires v.PyMapping? && 0 < n <= |v.entries| && IsComplexElement(d)
    requires BuildFields(d, v, n - 1, path, table) == Ok(subs) && FieldsMatch(subs, v.entries, n - 1, now)
    requires FieldNamed(d.fields, v.entries[n - 1].0) == Some(field)
    requires SubIndex(subs, field.name).None?
    requires Conforms(field, v.entries[n - 1].1)
    ensures BuildFields(d, v, n, path, table).Ok?
    ensures FieldsMatch(BuildFields(d, v, n, path, table).value, v.entries, n, now)
    decreases v, 1, n, 1
  {
    var sub := FieldsStep(d, v, n, path, table, now, subs, field);
    FieldsExtend(v.entries, n, subs, sub, now);
  }

  /** One more sub-element that names and decodes to the next entry keeps the fields in step with the entries. */
  lemma FieldsExtend(entries: seq<(string, PyValue)>, n: nat, subs: seq<Option<Element>>, sub: Element, now: PyDatetime.Temporal)
    requires 0 < n <= |entries| && FieldsMatch(subs, entries, n - 1, now)
    requires sub.name == entries[n - 1].0 && ElementDecode.Decode(sub, now) == Ok(entries[n - 1].1)
    ensures FieldsMatch(subs + [Some(sub)], entries, n, now)
  {
  }

  /** A key not met before appends the element formatted from its value, which decodes back to that value. */
  lemma {:induction false} FieldsStep(d: Def, v: PyValue, n: nat, path: string, table: Names.NameTable, now: PyDatetime.Temporal,
                                      subs: seq<Option<Element>>, field: Def)
    returns (sub: Element)
    requires v.PyMapping? && 0 < n <= |v.entries| && IsComplexElement(d)
    requires BuildFields(d, v, n - 1, path, table) == Ok(subs)
    requires FieldNamed(d.fields, v.entries[n - 1].0) == Some(field)
    requires SubIndex(subs, field.name).None?
    requires Conforms(field, v.entries[n - 1].1)
    ensures BuildFields(d, v, n, path, table) == Ok(subs + [Some(sub)])
    ensures sub.name == v.entries[n - 1].0 && ElementDecode.Decode(sub, now) == Ok(v.entries[n - 1].1)
    decreases v, 1, n, 0
  {
    assert v.entries[n - 1] in v.entries;
    sub := Formats(field, v.entries[n - 1].1, path + "/" + field.name, table, now);
  }

  /** The decoder's dict over the first `k` sub-elements of the built element is the first `k` entries. */
  lemma {:induction false} PrefixDecodes(v: PyValue, n: nat, now: PyDatetime.Temporal, e: Element)
    requires v.PyMapping? && n <= |v.entries| && KeysUnique(v.entries)
    requires e.isComplexType && FieldsMatch(e.subElements, v.entries, n, now)
    ensures ElementDecode.ComplexPrefix(e, n, now) == Ok(v.entries[..n])
    decreases n
  {
    if n > 0 {
      var init := e.(subElements := e.subElements[..n - 1]);
      FieldsMatchInit(e.subElements, v.entries, n, now);
      PrefixDecodes(v, n - 1, now, init);
      PrefixNext(v, n, now, e, init);
    }
  }

  /** Dropping the last sub-element leaves the first `n - 1` in step with the entries. */
  lemma FieldsMatchInit(subs: seq<Option<Element>>, entries: seq<(string, PyValue)>, n: nat, now: PyDatetime.Temporal)
    requires 0 < n <= |entries| && FieldsMatch(subs, entries, n, now)
    ensures FieldsMatch(subs[..n - 1], entries, n - 1, now)
  {
  }

  /** A key not held by the dict of the first `n - 1` entries is appended to it. */
  lemma PrefixNext(v: PyValue, n: nat, now: PyDatetime.Temporal, e: Element, init: Element)
    requires v.PyMapping? && 0 < n <= |v.entries| && KeysUnique(v.entries)
    requires e.isComplexType && FieldsMatch(e.subElements, v.entries, n, now)
    requires init == e.(subElements := e.subElements[..n - 1])
    requires ElementDecode.ComplexPrefix(init, n - 1, now) == Ok(v.entries[..n - 1])
    ensures ElementDecode.ComplexPrefix(e, n, now) == Ok(v.entries[..n])
  {
    PrefixAgree(e, init, n - 1, now);
    DictSetNext(v.entries, n);
    ElementDecode.ComplexPrefixStep(e, n - 1, now);
  }

  /** With unique keys, storing entry `n - 1` into the dict of the first `n - 1` entries gives the first `n`. */
  lemma DictSetNext<V>(entries: seq<(string, V)>, n: nat)
    requires 0 < n <= |entries| && KeysUnique(entries)
    ensures DictSet(entries[..n - 1], entries[n - 1].0, entries[n - 1].1) == entries[..n]
  {
    var before := entries[..n - 1];
    forall i | 0 <= i < |before| ensures before[i].0 != entries[n - 1].0 {
      assert before[i] == entries[i];
    }
    DictSetFresh(before, entries[n - 1].0, entries[n - 1].1);
    assert before + [entries[n - 1]] == entries[..n];
  }

  /** Two complex elements whose first `k` sub-elements agree have the same decoded prefix. */
  lemma {:induction false} PrefixAgree(e: Element, f: Element, k: nat, now: PyDatetime.Temporal)
    requires k <= |e.subElements| && k <= |f.subElements| && e.subElements[..k] == f.subElements[..k]
    ensures ElementDecode.ComplexPrefix(e, k, now) == ElementDecode.ComplexPrefix(f, k, now)
  {
    if k > 0 {
      assert e.subElements[..k - 1] == f.subElements[..k - 1] by {
        assert e.subElements[..k - 1] == e.subElements[..k][..k - 1];
        assert f.subElements[..k - 1] == f.subElements[..k][..k - 1];
      }
      PrefixAgree(e, f, k - 1, now);
      assert e.subElements[k - 1] == e.subElements[..k][k - 1] == f.subElements[k - 1];
    }
  }

  /** Storing a key that the dict does not hold appends it. */
  lemma {:induction false} DictSetFresh<V>(d: seq<(string, V)>, k: string, v: V)
    requires forall i :: 0 <= i < |d| ==> d[i].0 != k
    ensures DictSet(d, k, v) == d + [(k, v)]
  {
    if d != [] {
      DictSetFresh(d[1..], k, v);
    }
  }

  /** The first `n` entries of a conforming list become `n` slots, each decoding to its entry. */
  lemma {:induction false} ItemsRoundTrip(d: Def, v: PyValue, n: nat, path: string, table: Names.NameTable, now: PyDatetime.Temporal)
    requires v.PyList? && n <= |v.items| && Conforms(d, v)
    ensures BuildItems(d, v, n, path, table).Ok?
    ensures forall i :: 0 <= i < n ==> SlotConforms(d, BuildItems(d, v, n, path, table).value[i], v.items[i], table, now)
    decreases v, 1, n, 1
  {
    if n > 0 {
      ItemsRoundTrip(d, v, n - 1, path, table, now);
      ItemsAfter(d, v, n, path, table, now);
    }
  }

  /** The entry after `n - 1` conforming slots formats to one more conforming slot. */
  lemma {:induction false} ItemsAfter(d: Def, v: PyValue, n: nat, path: string, table: Names.NameTable, now: PyDatetime.Temporal)
    requires v.PyList? && 0 < n <= |v.items| && Conforms(d, v)
    requires BuildItems(d, v, n - 1, path, table).Ok?
    requires forall i :: 0 <= i < n - 1 ==> SlotConforms(d, BuildItems(d, v, n - 1, path, table).value[i], v.items[i], table, now)
    ensures BuildItems(d, v, n, path, table).Ok?
    ensures forall i :: 0 <= i < n ==> SlotConforms(d, BuildItems(d, v, n, path, table).value[i], v.items[i], table, now)
    decreases v, 1, n, 0
  {
    var val := v.items[n - 1];
    assert val in v.items;
    var slots := BuildItems(d, v, n - 1, path, table).value;
    if IsComplexType(d.dataType) {
      RoundTrip(EntryDef(d), val, EntryPath(path, n - 1), table, now);
    } else {
      ScalarStored(d.dataType, val, table);
    }
    var all := BuildItems(d, v, n, path, table).value;
    assert all[..n - 1] == slots;
  }

  /** A slot built from an entry: a nested element that decodes to it, or the stored scalar. */
  predicate SlotConforms(d: Def, slot: ValueSlot, entry: PyValue, table: Names.NameTable, now: PyDatetime.Temporal) {
    if IsComplexType(d.dataType) then slot.Nested? && ElementDecode.Decode(slot.e, now) == Ok(entry)
    else ScalarConforms(d.dataType, entry) && StoreValue(d.dataType, entry, table).Ok? &&
         slot == Scalar(StoreValue(d.dataType, entry, table).value)
  }

  /** The built array decodes slot by slot to its entries. */
  lemma ItemsDecode(d: Def, v: PyValue, n: nat, path: string, table: Names.NameTable, now: PyDatetime.Temporal, e: Element)
    requires v.PyList? && n == |v.items| && d.isArray
    requires e.dataType == d.dataType && e.typeIsComplex == IsComplexType(d.dataType) && e.isArray && !e.isComplexType
    requires |e.values| == n
    requires forall i :: 0 <= i < n ==> SlotConforms(d, e.values[i], v.items[i], table, now)
    requires ElementDecode.ArrayPrefix(e, n, now).Ok? <==> forall i :: 0 <= i < n ==> ElementDecode.ArraySlot(e, i, now).Ok?
    requires ElementDecode.ArrayPrefix(e, n, now).Ok? ==>
               |ElementDecode.ArrayPrefix(e, n, now).value| == n &&
               forall i :: 0 <= i < n ==> ElementDecode.ArrayPrefix(e, n, now).value[i] == ElementDecode.ArraySlot(e, i, now).value
    ensures ElementDecode.Decode(e, now) == Ok(v)
  {
    forall i | 0 <= i < n ensures ElementDecode.ArraySlot(e, i, now) == Ok(v.items[i]) {
      if !IsComplexType(d.dataType) {
        ScalarRoundTrip(d.dataType, v.items[i], table, e, i, now);
      }
    }
    assert ElementDecode.ArrayPrefix(e, n, now).value == v.items;
  }
}
