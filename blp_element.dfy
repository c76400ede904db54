/**
 * The element tree of the native BLPAPI engine, as the binding sees it
 * through the C API: each element has a name, a data type, the three flags
 * the engine reports (complex type, array, null), its sub-elements, its
 * value slots, and the complexity of its schema type.  The accessors below
 * are the engine's `blpapi_Element_*` calls; a call that returns a non-zero
 * code is `None`.
 */
module BlpElement {
  import opened Wrappers
  import opened PyDatetime
  import opened PyValues

  datatype DataType =
    | BOOL | CHAR | BYTE | INT32 | INT64 | FLOAT32 | FLOAT64 | STRING | BYTEARRAY
    | DATE | TIME | DECIMAL | DATETIME | ENUMERATION | SEQUENCE | CHOICE | CORRELATION_ID

  /** A value as the engine holds it in a value slot. */
  datatype Stored =
    | SBool(b: bool)
    | SInt(i: int)
    | SFloat(f: Float)
    | SString(s: string)
    | SBytes(bytes: seq<Byte>)
    | SDatetime(dt: HighPrecisionDatetime)

  /** A value slot: a scalar, an element (the entries of an array of sequences), or one the engine fails to read. */
  datatype ValueSlot = Scalar(v: Stored) | Nested(e: Element) | Unreadable

  datatype Element = Element(
    name: string,
    dataType: DataType,
    isComplexType: bool,
    isArray: bool,
    isNull: bool,
    /** What `getElementAt(i)` yields for each i below `numElements`; None where the call fails. */
    subElements: seq<Option<Element>>,
    values: seq<ValueSlot>,
    /** `isComplexType` of the type definition in the element's schema definition. */
    typeIsComplex: bool)

  const INT64_MIN: int := -0x8000_0000_0000_0000
  const INT64_MAX: int := 0x7FFF_FFFF_FFFF_FFFF

  function NumElements(e: Element): nat { |e.subElements| }

  function NumValues(e: Element): nat { |e.values| }

  function GetValueAsBool(e: Element, index: nat): Option<bool> {
    if index < |e.values| && e.values[index].Scalar? && e.values[index].v.SBool? then
      Some(e.values[index].v.b)
    else None
  }

  function GetValueAsInt64(e: Element, index: nat): (r: Option<int>)
    ensures r.Some? ==> INT64_MIN <= r.value <= INT64_MAX
  {
    if index < |e.values| && e.values[index].Scalar? && e.values[index].v.SInt?
       && INT64_MIN <= e.values[index].v.i <= INT64_MAX then
      Some(e.values[index].v.i)
    else None
  }

  function GetValueAsFloat64(e: Element, index: nat): Option<Float> {
    if index < |e.values| && e.values[index].Scalar? && e.values[index].v.SFloat? then
      Some(e.values[index].v.f)
    else None
  }

  function GetValueAsString(e: Element, index: nat): Option<string> {
    if index < |e.values| && e.values[index].Scalar? && e.values[index].v.SString? then
      Some(e.values[index].v.s)
    else None
  }

  function GetValueAsBytes(e: Element, index: nat): Option<seq<Byte>> {
    if index < |e.values| && e.values[index].Scalar? && e.values[index].v.SBytes? then
      Some(e.values[index].v.bytes)
    else None
  }

  function GetValueAsHighPrecisionDatetime(e: Element, index: nat): Option<HighPrecisionDatetime> {
    if index < |e.values| && e.values[index].Scalar? && e.values[index].v.SDatetime? then
      Some(e.values[index].v.dt)
    else None
  }

  function GetValueAsElement(e: Element, index: nat): Option<Element> {
    if index < |e.values| && e.values[index].Nested? then Some(e.values[index].e) else None
  }

  /** Sub-element `i` is readable and carries `name`. */
  predicate NamedAt(e: Element, name: string, i: int) {
    0 <= i < |e.subElements| && e.subElements[i].Some? && e.subElements[i].value.name == name
  }

  /** `hasElement(name)`: some readable sub-element carries that name. */
  predicate HasElement(e: Element, name: string) {
    exists i :: 0 <= i < |e.subElements| && NamedAt(e, name, i)
  }

  /** Sub-element `i` is the first at or after `from` that is readable and carries `name`. */
  predicate FirstNamedAt(e: Element, name: string, from: int, i: int) {
    from <= i && NamedAt(e, name, i) && forall j :: from <= j < i ==> !NamedAt(e, name, j)
  }

  /** `getElement(name)`: the first readable sub-element with that name. */
  function GetElement(e: Element, name: string): (r: Option<Element>)
    ensures r.Some? <==> HasElement(e, name)
    ensures r.Some? ==> r.value.name == name && r.value < e
    ensures r.Some? ==> exists i :: FirstNamedAt(e, name, 0, i) && e.subElements[i] == r
  {
    FirstNamed(e, name, 0)
  }

  /** The first readable sub-element at or after `from` that carries `name`. */
  function FirstNamed(e: Element, name: string, from: nat): (r: Option<Element>)
    requires from <= |e.subElements|
    ensures r.Some? <==> exists i :: from <= i && NamedAt(e, name, i)
    ensures r.Some? ==> r.value.name == name && r.value < e
    ensures r.Some? ==> exists i :: FirstNamedAt(e, name, from, i) && e.subElements[i] == r
    decreases |e.subElements| - from
  {
    if from == |e.subElements| then None
    else if NamedAt(e, name, from) then
      assert e.subElements[from] in e.subElements;
      assert FirstNamedAt(e, name, from, from);
      e.subElements[from]
    else
      var r := FirstNamed(e, name, from + 1);
      assert forall i :: FirstNamedAt(e, name, from + 1, i) ==> FirstNamedAt(e, name, from, i);
      r
  }
}
