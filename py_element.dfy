/**
 * The reading side of `blpapi.Element` (src/blpapi/element.py): the traits
 * that pick a setter for a Python value, `getValue` and its accessor
 * table, `element[nameOrIndex]`, `len`, iteration, `in`, and
 * `isNullValue`.  The engine element is a `BlpElement.Element`; an engine
 * call that fails makes `raiseOnError` raise, which is `EngineError` here.
 */
module PyElement {
  import opened Wrappers
  import PyDatetime
  import opened PyValues
  import opened BlpElement
  import ElementDecode
  import DatetimeUtil
  import Exceptions
  import Utils
  import Names

  /** The exceptions these members raise. */
  datatype ElementError =
    | KeyError(message: string)
    | ValueError(message: string)
    /** A failed engine call, raised by `_ExceptionUtil.raiseOnError`. */
    | EngineError
    | DatetimeError(datetimeError: PyDatetime.PyDatetimeError)
    /** The error of converting a name argument (`getNamePair`). */
    | NameFailure(nameError: Names.NameError)

  // ----- __getTraits -----

  /** The traits tuples: which `setValue*` / `setElement*` pair is used. */
  datatype Traits = StringTraits | BytesTraits | BoolTraits | Int32Traits | Int64Traits
                  | FloatTraits | DatetimeTraits | NameTraits | DefaultTraits

  const RANGE_MESSAGE: string := "value is out of element's supported range"

  predicate InInt32(i: int) { Utils.MIN_32BIT_INT <= i <= Utils.MAX_32BIT_INT }

  predicate InInt64(i: int) { Utils.MIN_64BIT_INT <= i <= Utils.MAX_64BIT_INT }

  /**
   * `Element.__getTraits`: str, then bytes, then bool before int (bool is a
   * subclass of int), an int by its width with ValueError beyond 64 bits,
   * then float, date/time, Name, and `str()` conversion for anything else.
   */
  function GetTraits(value: PyValue): (r: Result<Traits, ElementError>)
    ensures r.Err? <==> value.PyInt? && !InInt64(value.i)
    ensures r.Err? ==> r.error == ValueError(RANGE_MESSAGE)
    ensures r == Ok(Int32Traits) <==> value.PyInt? && InInt32(value.i)
    ensures r == Ok(Int64Traits) <==> value.PyInt? && InInt64(value.i) && !InInt32(value.i)
    ensures r == Ok(BoolTraits) <==> value.PyBool?
    ensures r == Ok(StringTraits) <==> value.PyStr?
    ensures r == Ok(BytesTraits) <==> value.PyBytes?
    ensures r == Ok(FloatTraits) <==> value.PyFloat?
    ensures r == Ok(DatetimeTraits) <==> IsDatetime(value)
    ensures r == Ok(NameTraits) <==> value.PyName?
    ensures r == Ok(DefaultTraits) <==>
              !(value.PyStr? || value.PyBytes? || IsInt(value) || value.PyFloat? || IsDatetime(value) || value.PyName?)
  {
    if value.PyStr? then Ok(StringTraits)
    else if value.PyBytes? then Ok(BytesTraits)
    else if value.PyBool? then Ok(BoolTraits)
    else if value.PyInt? then
      if InInt32(value.i) then Ok(Int32Traits)
      else if InInt64(value.i) then Ok(Int64Traits)
      else Err(ValueError(RANGE_MESSAGE))
    else if value.PyFloat? then Ok(FloatTraits)
    else if IsDatetime(value) then Ok(DatetimeTraits)
    else if value.PyName? then Ok(NameTraits)
    else Ok(DefaultTraits)
  }

  // ----- getValue -----

  /** What `getValue` and `element[...]` hand back: a Python value, a `Name`, or a sub-`Element`. */
  datatype Item = Value(v: PyValue) | NameValue(text: string) | SubElement(e: Element)

  /** The accessor `_ELEMENT_VALUE_GETTER` selects; data types missing from it read as strings. */
  datatype Getter = AsBool | AsString | AsInteger | AsFloat | AsDatetime | AsBytes | AsName | AsElement

  function GetterFor(t: DataType): Getter {
    match t
    case BOOL => AsBool
    case CHAR | STRING => AsString
    case BYTE | INT32 | INT64 => AsInteger
    case FLOAT32 | FLOAT64 => AsFloat
    case DATE | TIME | DATETIME => AsDatetime
    case BYTEARRAY => AsBytes
    case ENUMERATION => AsName
    case SEQUENCE | CHOICE => AsElement
    case DECIMAL | CORRELATION_ID => AsString
  }

  /** One accessor: the engine read, then the Python conversion of its result. */
  function Read(e: Element, getter: Getter, index: nat): Result<Item, ElementError> {
    match getter
    case AsBool => (match GetValueAsBool(e, index) case Some(b) => Ok(Value(PyBool(b))) case None => Err(EngineError))
    case AsString => (match GetValueAsString(e, index) case Some(s) => Ok(Value(PyStr(s))) case None => Err(EngineError))
    case AsInteger => (match GetValueAsInt64(e, index) case Some(i) => Ok(Value(PyInt(i))) case None => Err(EngineError))
    case AsFloat => (match GetValueAsFloat64(e, index) case Some(f) => Ok(Value(PyFloat(f))) case None => Err(EngineError))
    case AsBytes => (match GetValueAsBytes(e, index) case Some(b) => Ok(Value(PyBytes(b))) case None => Err(EngineError))
    case AsName => (match GetValueAsString(e, index) case Some(s) => Ok(NameValue(s)) case None => Err(EngineError))
    case AsElement => (match GetValueAsElement(e, index) case Some(sub) => Ok(SubElement(sub)) case None => Err(EngineError))
    case AsDatetime =>
      match GetValueAsHighPrecisionDatetime(e, index)
      case None => Err(EngineError)
      case Some(hp) =>
        match DatetimeUtil.ConvertToNative(DatetimeUtil.HighPrecision(hp))
        case Ok(t) => Ok(Value(PyTemporal(t)))
        case Err(err) => Err(DatetimeError(err))
  }

  /** `getValue(index)`: the value read with the accessor the data type selects. */
  function GetValue(e: Element, index: nat): (r: Result<Item, ElementError>)
    ensures e.dataType.BOOL? ==>
              (r.Ok? <==> GetValueAsBool(e, index).Some?) &&
              (r.Ok? ==> r.value == Value(PyBool(GetValueAsBool(e, index).value)))
    ensures e.dataType.BYTE? || e.dataType.INT32? || e.dataType.INT64? ==>
              (r.Ok? <==> GetValueAsInt64(e, index).Some?) &&
              (r.Ok? ==> r.value == Value(PyInt(GetValueAsInt64(e, index).value)))
    ensures e.dataType.FLOAT32? || e.dataType.FLOAT64? ==>
              (r.Ok? <==> GetValueAsFloat64(e, index).Some?) &&
              (r.Ok? ==> r.value == Value(PyFloat(GetValueAsFloat64(e, index).value)))
    ensures e.dataType.BYTEARRAY? ==>
              (r.Ok? <==> GetValueAsBytes(e, index).Some?) &&
              (r.Ok? ==> r.value == Value(PyBytes(GetValueAsBytes(e, index).value)))
    ensures e.dataType.CHAR? || e.dataType.STRING? || e.dataType.DECIMAL? || e.dataType.CORRELATION_ID? ==>
              (r.Ok? <==> GetValueAsString(e, index).Some?) &&
              (r.Ok? ==> r.value == Value(PyStr(GetValueAsString(e, index).value)))
    ensures e.dataType.ENUMERATION? ==>
              (r.Ok? <==> GetValueAsString(e, index).Some?) &&
              (r.Ok? ==> r.value == NameValue(GetValueAsString(e, index).value))
    ensures e.dataType.SEQUENCE? || e.dataType.CHOICE? ==>
              (r.Ok? <==> GetValueAsElement(e, index).Some?) &&
              (r.Ok? ==> r.value == SubElement(GetValueAsElement(e, index).value))
    ensures e.dataType.DATE? || e.dataType.TIME? || e.dataType.DATETIME? ==>
              (GetValueAsHighPrecisionDatetime(e, index).None? ==> r == Err(EngineError)) &&
              (GetValueAsHighPrecisionDatetime(e, index).Some? ==>
                 var conv := DatetimeUtil.ConvertToNative(
                               DatetimeUtil.HighPrecision(GetValueAsHighPrecisionDatetime(e, index).value));
                 (r.Ok? <==> conv.Ok?) &&
                 (r.Ok? ==> r.value == Value(PyTemporal(conv.value))) &&
                 (r.Err? ==> r.error == DatetimeError(conv.error)))
    ensures r.Err? && !r.error.DatetimeError? ==> r.error == EngineError
    ensures index >= NumValues(e) ==> r == Err(EngineError)
  {
    Read(e, GetterFor(e.dataType), index)
  }

  /** The data types that `getValue` and the C decoder read the same way. */
  predicate PlainScalar(t: DataType) {
    t in {BOOL, CHAR, BYTE, INT32, INT64, FLOAT32, FLOAT64, STRING, BYTEARRAY}
  }

  /**
   * `getValue` agrees with the decoder behind `toPy` on the plain scalar
   * types; an enumeration comes back as a Name where `toPy` gives its text;
   * decimals and correlation ids are read as strings where `toPy` fails.
   */
  lemma GetValueAgreesWithToPy(e: Element, index: nat, now: PyDatetime.Temporal)
    ensures PlainScalar(e.dataType) ==>
              (GetValue(e, index).Ok? <==> ElementDecode.ScalarValue(e, index, now).Ok?) &&
              (GetValue(e, index).Ok? ==>
                 GetValue(e, index) == Ok(Value(ElementDecode.ScalarValue(e, index, now).value)))
    ensures e.dataType == ENUMERATION ==>
              forall s :: GetValue(e, index) == Ok(NameValue(s)) <==> ElementDecode.ScalarValue(e, index, now) == Ok(PyStr(s))
    ensures e.dataType in {DECIMAL, CORRELATION_ID} ==>
              ElementDecode.ScalarValue(e, index, now).Err? &&
              (GetValue(e, index).Ok? <==> GetValueAsString(e, index).Some?)
  {
  }

  // ----- element[nameOrIndex] -----

  /** The argument of `__getitem__`: an int index or a name. */
  datatype Key = Index(i: nat) | ByName(name: string)

  function KeyErrorMessage(e: Element, name: string): string {
    "Element " + e.name + " does not contain element " + name
  }

  /**
   * `__getitem__`: an index reads a value; a name that is missing raises
   * KeyError; a complex or array sub-element is returned as an Element; a
   * null scalar is None; any other scalar is its value.
   */
  function GetItem(e: Element, key: Key): (r: Result<Item, ElementError>)
    ensures key.Index? ==> r == GetValue(e, key.i)
    ensures key.ByName? ==> (r.Err? && r.error.KeyError? <==> !HasElement(e, key.name))
    ensures key.ByName? && HasElement(e, key.name) ==>
              var sub := GetElement(e, key.name).value;
              sub.name == key.name &&
              (sub.isComplexType || sub.isArray ==> r == Ok(SubElement(sub))) &&
              (!sub.isComplexType && !sub.isArray && sub.isNull ==> r == Ok(Value(PyNone))) &&
              (!sub.isComplexType && !sub.isArray && !sub.isNull ==> r == GetValue(sub, 0))
  {
    match key
    case Index(i) => GetValue(e, i)
    case ByName(name) =>
      if !HasElement(e, name) then Err(KeyError(KeyErrorMessage(e, name)))
      else
        var sub := GetElement(e, name).value;
        if sub.isComplexType || sub.isArray then Ok(SubElement(sub))
        else if sub.isNull then Ok(Value(PyNone))
        else GetValue(sub, 0)
  }

  /**
   * Indexing a scalar sub-element by name gives what `toPy` gives for that
   * sub-element, for the plain scalar types and for null values.
   */
  lemma GetItemAgreesWithToPy(e: Element, name: string, now: PyDatetime.Temporal)
    requires HasElement(e, name)
    requires var sub := GetElement(e, name).value;
             !sub.isComplexType && !sub.isArray && (sub.isNull || PlainScalar(sub.dataType))
    ensures var sub := GetElement(e, name).value;
            forall v :: GetItem(e, ByName(name)) == Ok(Value(v)) <==> ElementDecode.Decode(sub, now) == Ok(v)
  {
    var sub := GetElement(e, name).value;
    ElementDecode.DecodePrecedence(sub, now);
    GetValueAgreesWithToPy(sub, 0, now);
  }

  // ----- len and iteration -----

  /** `__len__`: the number of sub-elements of a complex element, else the number of values. */
  function Len(e: Element): (n: nat)
    ensures e.isComplexType ==> n == |e.subElements|
    ensures !e.isComplexType ==> n == |e.values|
  {
    if e.isComplexType then NumElements(e) else NumValues(e)
  }

  /**
   * Item `i` of the iteration: `getElement(i)` (by index) of a complex
   * element, `getValue(i)` of any other.
   */
  function ItemAt(e: Element, i: nat): (r: Result<Item, ElementError>)
    requires i < Len(e)
    ensures e.isComplexType ==> (r.Ok? <==> e.subElements[i].Some?)
    ensures e.isComplexType && r.Ok? ==> r.value == SubElement(e.subElements[i].value)
    ensures !e.isComplexType ==> r == GetValue(e, i)
  {
    if e.isComplexType then
      if e.subElements[i].Some? then Ok(SubElement(e.subElements[i].value)) else Err(EngineError)
    else GetValue(e, i)
  }

  /** `ElementIterator`: a cursor over one element. */
  class ElementIterator {
    const element: Element
    var index: nat

    constructor(element: Element)
      ensures this.element == element && index == 0
    {
      this.element := element;
      index := 0;
    }

    /**
     * `__next__`: the index always advances; the item at the old index while
     * it is below `len(element)`, and StopIteration (None) from then on.
     */
    method Next() returns (r: Result<Option<Item>, ElementError>)
      modifies this
      ensures index == old(index) + 1
      ensures old(index) < Len(element) ==>
                (r.Ok? <==> ItemAt(element, old(index)).Ok?) &&
                (r.Ok? ==> r.value == Some(ItemAt(element, old(index)).value))
      ensures old(index) >= Len(element) ==> r == Ok(None)
    {
      var i := index;
      index := index + 1;
      if element.isComplexType {
        if NumElements(element) > i {
          if element.subElements[i].Some? {
            return Ok(Some(SubElement(element.subElements[i].value)));
          }
          return Err(EngineError);
        }
      } else if NumValues(element) > i {
        var v := GetValue(element, i);
        if v.Err? {
          return Err(v.error);
        }
        return Ok(Some(v.value));
      }
      r := Ok(None);
    }

    /**
     * `list(iterator)` from a fresh iterator: exactly `len(element)` items in
     * index order, or the first error an item raises.
     */
    method ToList() returns (r: Result<seq<Item>, ElementError>)
      requires index == 0
      modifies this
      ensures r.Ok? <==> forall i :: 0 <= i < Len(element) ==> ItemAt(element, i).Ok?
      ensures r.Ok? ==> |r.value| == Len(element) &&
                        forall i :: 0 <= i < Len(element) ==> r.value[i] == ItemAt(element, i).value
    {
      var items: seq<Item> := [];
      while true
        invariant index <= Len(element) && |items| == index
        invariant forall i :: 0 <= i < index ==> ItemAt(element, i).Ok? && items[i] == ItemAt(element, i).value
        decreases Len(element) - index
      {
        var next := Next();
        if next.Err? {
          return Err(next.error);
        }
        if next.value.None? {
          return Ok(items);
        }
        items := items + [next.value.value];
      }
    }
  }

  // ----- `item in element` -----

  /**
   * `Name.__eq__` for a Name whose text is `text`, compared with `other`:
   * None is unequal, another Name is equal when it stands for the same text
   * (handles of an interned table are equal exactly then), a str or bytes is
   * compared with the text after decoding, and any other object has no
   * `_handle` and raises AttributeError.  Python reaches this method from
   * either side of `==`, since the other types return NotImplemented for a
   * Name.
   */
  function NameEquals(table: Names.NameTable, text: string, other: PyValue, decode: seq<Byte> -> Option<string>)
    : (r: Result<bool, ElementError>)
    ensures other.PyNone? ==> r == Ok(false)
    ensures other.PyName? ==> r == Ok(other.handle < |table| && table[other.handle] == text)
    ensures other.PyStr? ==> r == Ok(other.s == text)
    ensures other.PyBytes? ==> (r.Err? <==> decode(other.bytes).None?)
    ensures other.PyBytes? && decode(other.bytes).Some? ==> r == Ok(decode(other.bytes).value == text)
    ensures r.Err? ==> r.error.NameFailure?
    ensures !Utils.IsStr(other) && !other.PyNone? && !other.PyName? ==>
              r.Err? && r.error.nameError.AttributeError?
  {
    if other.PyNone? then Ok(false)
    else if other.PyName? then Ok(other.handle < |table| && table[other.handle] == text)
    else if Utils.IsStr(other) then
      match Utils.Conv2Str(other, decode)
      case Err(_) => Err(NameFailure(Names.UnicodeDecodeError))
      case Ok(s) => Ok(s.s == text)
    else Err(NameFailure(Names.AttributeError("object has no attribute '_handle'")))
  }

  /** Over an interned table, `NameEquals` on a handle's text is `Name.__eq__` on that handle. */
  lemma NameEqualsIsNameEq(table: Names.NameTable, h: nat, other: PyValue, decode: seq<Byte> -> Option<string>)
    requires Names.Interned(table) && h < |table|
    ensures var eq := Names.NameEq(table, h, other, decode);
            NameEquals(table, table[h], other, decode) == if eq.Ok? then Ok(eq.value) else Err(NameFailure(eq.error))
  {
    if other.PyName? && other.handle < |table| && table[other.handle] == table[h] {
      assert other.handle == h;
    }
  }

  /** A Name given by its handle compared with `other`; a handle the table does not hold is an engine error. */
  function HandleEquals(table: Names.NameTable, h: nat, other: PyValue, decode: seq<Byte> -> Option<string>)
    : Result<bool, ElementError>
  {
    if h < |table| then NameEquals(table, table[h], other, decode) else Err(EngineError)
  }

  /**
   * `==` between what `values()` yields and the item: with a Name on either
   * side `Name.__eq__` decides; other Python values compare by value; a
   * sub-Element equals no item.
   */
  function ItemEquals(x: Item, item: PyValue, table: Names.NameTable, decode: seq<Byte> -> Option<string>)
    : (r: Result<bool, ElementError>)
    ensures x.NameValue? && item.PyName? ==> r == Ok(item.handle < |table| && table[item.handle] == x.text)
    ensures x.NameValue? && item.PyStr? ==> r == Ok(item.s == x.text)
    ensures x.NameValue? && item.PyBytes? && decode(item.bytes).Some? ==> r == Ok(decode(item.bytes).value == x.text)
    ensures x.NameValue? && !Utils.IsStr(item) && !item.PyNone? && !item.PyName? ==> r.Err?
    ensures x.Value? && x.v.PyStr? && item.PyName? && item.handle < |table| ==> r == Ok(x.v.s == table[item.handle])
    ensures x.Value? && !x.v.PyName? && !item.PyName? ==> r == Ok(x.v == item)
    ensures x.Value? && !Utils.IsStr(x.v) && !x.v.PyNone? && !x.v.PyName? && item.PyName? ==> r.Err?
    ensures x.SubElement? ==> r == Ok(false)
  {
    match x
    case NameValue(s) => NameEquals(table, s, item, decode)
    case Value(v) =>
      if v.PyName? then HandleEquals(table, v.handle, item, decode)
      else if item.PyName? then HandleEquals(table, item.handle, v, decode)
      else Ok(v == item)
    case SubElement(_) => Ok(false)
  }

  /** One step of the scan: value `i` is read and compared with the item. */
  function CompareAt(e: Element, item: PyValue, table: Names.NameTable, decode: seq<Byte> -> Option<string>, i: nat)
    : Result<bool, ElementError>
  {
    match GetValue(e, i)
    case Err(err) => Err(err)
    case Ok(x) => ItemEquals(x, item, table, decode)
  }

  /** `item in self.values()` over the values from `from` on: the first match, or the first error. */
  function ValuesContain(e: Element, item: PyValue, table: Names.NameTable, decode: seq<Byte> -> Option<string>,
                         from: nat): Result<bool, ElementError>
    decreases NumValues(e) - from
  {
    if from >= NumValues(e) then Ok(false)
    else
      match CompareAt(e, item, table, decode, from)
      case Err(err) => Err(err)
      case Ok(found) => if found then Ok(true) else ValuesContain(e, item, table, decode, from + 1)
  }

  /**
   * `__contains__`: a complex element looks for a sub-element of that name
   * (`hasElement`, whose name conversion raises for an item that is not a
   * str, bytes or Name); any other element compares the item with its
   * values.  `table` holds the text of each Name handle.
   */
  function Contains(e: Element, item: PyValue, table: Names.NameTable, decode: seq<Byte> -> Option<string>)
    : (r: Result<bool, ElementError>)
    ensures e.isComplexType && item.PyStr? ==> r == Ok(HasElement(e, item.s))
    ensures e.isComplexType && item.PyName? && item.handle < |table| ==> r == Ok(HasElement(e, table[item.handle]))
    ensures e.isComplexType && !item.PyName? && !Utils.IsStr(item) ==> r.Err? && r.error.NameFailure?
    ensures !e.isComplexType ==> r == ValuesContain(e, item, table, decode, 0)
  {
    if e.isComplexType then
      match Names.GetNamePair(item, decode)
      case Err(err) => Err(NameFailure(err))
      case Ok(pair) =>
        if pair.nameString.Some? then Ok(HasElement(e, pair.nameString.value))
        else if pair.handle.value < |table| then Ok(HasElement(e, table[pair.handle.value]))
        else Err(EngineError)
    else ValuesContain(e, item, table, decode, 0)
  }

  /** Every value from `from` on reads, and comparing it with the item does not raise. */
  predicate Comparable(e: Element, item: PyValue, table: Names.NameTable, decode: seq<Byte> -> Option<string>, from: nat) {
    forall i :: from <= i < NumValues(e) ==> CompareAt(e, item, table, decode, i).Ok?
  }

  /** When every value from `from` on reads and compares, the scan finds the item exactly when one of them equals it. */
  lemma {:induction false} ValuesContainExists(e: Element, item: PyValue, table: Names.NameTable,
                                               decode: seq<Byte> -> Option<string>, from: nat)
    requires Comparable(e, item, table, decode, from)
    ensures ValuesContain(e, item, table, decode, from).Ok?
    ensures ValuesContain(e, item, table, decode, from).value <==>
              exists i :: from <= i < NumValues(e) && CompareAt(e, item, table, decode, i) == Ok(true)
    decreases NumValues(e) - from
  {
    if from < NumValues(e) {
      ValuesContainExists(e, item, table, decode, from + 1);
      var c := CompareAt(e, item, table, decode, from);
      assert c.Ok?;
      if !c.value {
        assert ValuesContain(e, item, table, decode, from) == ValuesContain(e, item, table, decode, from + 1);
        assert forall i :: from <= i < NumValues(e) && CompareAt(e, item, table, decode, i) == Ok(true) ==> from + 1 <= i;
      }
    }
  }

  /**
   * The scan stops at the first value whose comparison raises, when no
   * earlier value matched, and that exception escapes (an AttributeError
   * for an int compared with a Name, say).
   */
  lemma {:induction false} ValuesContainStopsAtError(e: Element, item: PyValue, table: Names.NameTable,
                                                     decode: seq<Byte> -> Option<string>, from: nat, k: nat)
    requires from <= k < NumValues(e)
    requires forall i :: from <= i < k ==> CompareAt(e, item, table, decode, i) == Ok(false)
    requires GetValue(e, k).Ok? && ItemEquals(GetValue(e, k).value, item, table, decode).Err?
    ensures ValuesContain(e, item, table, decode, from) == Err(ItemEquals(GetValue(e, k).value, item, table, decode).error)
    decreases k - from
  {
    if from < k {
      ValuesContainStopsAtError(e, item, table, decode, from + 1, k);
    }
  }

  /** For a scalar or array element whose values all read and compare, `in` holds exactly when some value equals the item. */
  lemma ContainsIffSomeValue(e: Element, item: PyValue, table: Names.NameTable, decode: seq<Byte> -> Option<string>)
    requires !e.isComplexType
    requires Comparable(e, item, table, decode, 0)
    ensures Contains(e, item, table, decode).Ok?
    ensures Contains(e, item, table, decode).value <==>
              exists i :: 0 <= i < NumValues(e) && CompareAt(e, item, table, decode, i) == Ok(true)
  {
    ValuesContainExists(e, item, table, decode, 0);
  }

  // ----- isNullValue -----

  /**
   * `isNullValue(position)`: the engine's answer 0 or 1 as a bool; any
   * other code is raised as the exception `raiseOnError` builds from it.
   * `lastError` is the engine's last error text.
   */
  function IsNullValue(code: int, lastError: Option<string>): (r: Result<bool, Exceptions.BlpException>)
    ensures r.Ok? <==> code == 0 || code == 1
    ensures r.Ok? ==> (r.value <==> code == 1)
    ensures r.Err? ==> r.error == Exceptions.RaiseException(code, None, lastError)
  {
    if code == 0 || code == 1 then Ok(code == 1)
    else
      match Exceptions.RaiseOnError(code, None, lastError)
      case Err(x) => Err(x)
      case Ok(_) => Ok(false)
  }
}
