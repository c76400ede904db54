/**
 * The C decoder `blpapi_Element_toPy` of src/blpapi/ffi_utils.c and its
 * helpers: an engine element becomes a Python dict, list, scalar or None.
 * The functions are the specification; the methods follow the C code's
 * index loops and are proved equal to them.
 */
module ElementDecode {
  import opened Wrappers
  import opened PyDatetime
  import opened PyValues
  import opened BlpElement
  import DatetimeUtil

  /** The Python exception a failed conversion leaves set. */
  datatype DecodeError =
    /** `Exception` raised by the C code, with its message. */
    | InternalError(message: string)
    /** An exception raised by the Python date/time conversion it calls. */
    | ConversionError(error: PyDatetimeError)

  /** Microseconds handed to the date/time conversion: whole milliseconds plus the picoseconds' whole microseconds. */
  function DatetimeMicros(hp: HighPrecisionDatetime): int {
    hp.datetime.milliSeconds * 1000 + hp.picoseconds / 1000000
  }

  /**
   * `getScalarValue`: the value at `index`, read with the accessor that the
   * element's data type selects.  `now` is what `datetime.now()` returns.
   */
  function ScalarValue(e: Element, index: nat, now: Temporal): (r: Result<PyValue, DecodeError>)
    ensures e.dataType.BOOL? ==>
              && (r.Ok? <==> GetValueAsBool(e, index).Some?)
              && (r.Ok? ==> r.value == PyBool(GetValueAsBool(e, index).value))
              && (r.Err? ==> r.error == InternalError("Internal error getting bool"))
    ensures e.dataType.BYTE? || e.dataType.INT32? || e.dataType.INT64? ==>
              && (r.Ok? <==> GetValueAsInt64(e, index).Some?)
              && (r.Ok? ==> r.value == PyInt(GetValueAsInt64(e, index).value)
                            && INT64_MIN <= r.value.i <= INT64_MAX)
              && (r.Err? ==> r.error == InternalError("Internal error getting int"))
    ensures e.dataType.FLOAT32? || e.dataType.FLOAT64? ==>
              && (r.Ok? <==> GetValueAsFloat64(e, index).Some?)
              && (r.Ok? ==> r.value == PyFloat(GetValueAsFloat64(e, index).value))
              && (r.Err? ==> r.error == InternalError("Internal error getting float"))
    ensures e.dataType.CHAR? || e.dataType.STRING? || e.dataType.ENUMERATION? ==>
              && (r.Ok? <==> GetValueAsString(e, index).Some?)
              && (r.Ok? ==> r.value == PyStr(GetValueAsString(e, index).value))
              && (r.Err? ==> r.error == InternalError("Internal error getting string"))
    ensures e.dataType.BYTEARRAY? ==>
              && (r.Ok? <==> GetValueAsBytes(e, index).Some?)
              && (r.Ok? ==> r.value == PyBytes(GetValueAsBytes(e, index).value))
              && (r.Err? ==> r.error == InternalError("Internal error getting bytes"))
    ensures e.dataType.DATE? || e.dataType.TIME? || e.dataType.DATETIME? ==>
              && (GetValueAsHighPrecisionDatetime(e, index).None? ==>
                    r == Err(InternalError("Internal error getting datetime")))
              && (GetValueAsHighPrecisionDatetime(e, index).Some? ==>
                    r == DatetimeValue(GetValueAsHighPrecisionDatetime(e, index).value, now))
              && (r.Ok? ==> r.value.PyNone? || r.value.PyTemporal?)
    ensures e.dataType in {SEQUENCE, CHOICE, DECIMAL, CORRELATION_ID} ==>
              r == Err(InternalError("Internal datatype error"))
    ensures r.Err? && r.error.ConversionError? ==> e.dataType in {DATE, TIME, DATETIME}
  {
    match e.dataType
    case BOOL =>
      (match GetValueAsBool(e, index)
       case Some(b) => Ok(PyBool(b))
       case None => Err(InternalError("Internal error getting bool")))
    case BYTE | INT32 | INT64 =>
      (match GetValueAsInt64(e, index)
       case Some(i) => Ok(PyInt(i))
       case None => Err(InternalError("Internal error getting int")))
    case FLOAT32 | FLOAT64 =>
      (match GetValueAsFloat64(e, index)
       case Some(f) => Ok(PyFloat(f))
       case None => Err(InternalError("Internal error getting float")))
    case CHAR | STRING | ENUMERATION =>
      (match GetValueAsString(e, index)
       case Some(s) => Ok(PyStr(s))
       case None => Err(InternalError("Internal error getting string")))
    case BYTEARRAY =>
      (match GetValueAsBytes(e, index)
       case Some(bs) => Ok(PyBytes(bs))
       case None => Err(InternalError("Internal error getting bytes")))
    case DATE | TIME | DATETIME =>
      (match GetValueAsHighPrecisionDatetime(e, index)
       case None => Err(InternalError("Internal error getting datetime"))
       case Some(hp) => DatetimeValue(hp, now))
    case _ => Err(InternalError("Internal datatype error"))
  }

  /**
   * A date/time value read from the engine: None when no part is set,
   * otherwise what `_DatetimeUtil.toPyTimeFromInts` returns or raises.
   */
  function DatetimeValue(hp: HighPrecisionDatetime, now: Temporal): Result<PyValue, DecodeError> {
    var dt := hp.datetime;
    if dt.parts == 0 then Ok(PyNone)
    else
      match DatetimeUtil.ToPyTimeFromInts(dt.parts, dt.offset, dt.year, dt.month, dt.day,
                                          dt.hours, dt.minutes, dt.seconds, DatetimeMicros(hp), now)
      case Ok(t) => Ok(PyTemporal(t))
      case Err(err) => Err(ConversionError(err))
  }

  /** `blpapi_Element_toPy`: complex first, then array, then null, then the scalar at index 0. */
  function Decode(e: Element, now: Temporal): (r: Result<PyValue, DecodeError>)
    decreases e, 1, 0
  {
    if e.isComplexType then
      match ComplexPrefix(e, |e.subElements|, now)
      case Ok(d) => Ok(PyMapping(d))
      case Err(err) => Err(err)
    else if e.isArray then
      match ArrayPrefix(e, |e.values|, now)
      case Ok(items) => Ok(PyList(items))
      case Err(err) => Err(err)
    else if e.isNull then Ok(PyNone)
    else ScalarValue(e, 0, now)
  }

  /** The dict `complexElementToPy` has built after the first `n` sub-elements, or the error that stopped it. */
  function ComplexPrefix(e: Element, n: nat, now: Temporal): Result<seq<(string, PyValue)>, DecodeError>
    requires n <= |e.subElements|
    decreases e, 0, n
  {
    if n == 0 then Ok([])
    else
      match ComplexPrefix(e, n - 1, now)
      case Err(err) => Err(err)
      case Ok(d) =>
        match e.subElements[n - 1]
        case None => Err(InternalError("Internal error in `Element.toPy`"))
        case Some(sub) =>
          assert e.subElements[n - 1] in e.subElements;
          match Decode(sub, now)
          case Err(err) => Err(err)
          case Ok(v) => Ok(DictSet(d, sub.name, v))
  }

  /** What `arrayElementToPy` stores at slot `i`: the decoded element for a complex schema type, else the scalar. */
  function ArraySlot(e: Element, i: nat, now: Temporal): Result<PyValue, DecodeError>
    decreases e, 0, 0
  {
    if e.typeIsComplex then
      if i < |e.values| && e.values[i].Nested? then
        assert e.values[i] in e.values;
        Decode(e.values[i].e, now)
      else Err(InternalError("Internal error in blpapi_Element_getValueAsElement"))
    else ScalarValue(e, i, now)
  }

  /** The list `arrayElementToPy` has filled after the first `n` slots, or the error that stopped it. */
  function ArrayPrefix(e: Element, n: nat, now: Temporal): Result<seq<PyValue>, DecodeError>
    decreases e, 0, n
  {
    if n == 0 then Ok([])
    else
      match ArrayPrefix(e, n - 1, now)
      case Err(err) => Err(err)
      case Ok(items) =>
        match ArraySlot(e, n - 1, now)
        case Err(err) => Err(err)
        case Ok(v) => Ok(items + [v])
  }

  // ----- Properties -----

  /** Which branch of `blpapi_Element_toPy` an element takes, and the shape of a successful result. */
  lemma DecodePrecedence(e: Element, now: Temporal)
    ensures e.isComplexType && Decode(e, now).Ok? ==> Decode(e, now).value.PyMapping?
    ensures !e.isComplexType && e.isArray && Decode(e, now).Ok? ==>
              Decode(e, now).value.PyList? && |Decode(e, now).value.items| == |e.values|
    ensures !e.isComplexType && !e.isArray && e.isNull ==> Decode(e, now) == Ok(PyNone)
    ensures !e.isComplexType && !e.isArray && !e.isNull ==> Decode(e, now) == ScalarValue(e, 0, now)
  {
    if !e.isComplexType && e.isArray && Decode(e, now).Ok? {
      ArrayPrefixItems(e, |e.values|, now);
    }
  }

  /** Sub-element `i` is readable and decodes without error. */
  predicate SubDecodes(e: Element, i: nat, now: Temporal)
    requires i < |e.subElements|
  {
    e.subElements[i].Some? && Decode(e.subElements[i].value, now).Ok?
  }

  /** The complex loop succeeds exactly when every sub-element it visits is readable and decodes. */
  lemma {:induction false} ComplexPrefixOk(e: Element, n: nat, now: Temporal)
    requires n <= |e.subElements|
    ensures ComplexPrefix(e, n, now).Ok? <==> forall i :: 0 <= i < n ==> SubDecodes(e, i, now)
  {
    if n > 0 {
      ComplexPrefixOk(e, n - 1, now);
      assert e.subElements[n - 1] in e.subElements;
      assert ComplexPrefix(e, n, now).Ok? <==> ComplexPrefix(e, n - 1, now).Ok? && SubDecodes(e, n - 1, now);
    }
  }

  /** The name of sub-element `i`, which is readable. */
  function SubName(e: Element, i: nat, now: Temporal): string
    requires i < |e.subElements| && SubDecodes(e, i, now)
  {
    e.subElements[i].value.name
  }

  /** The decoded value of sub-element `i`, which decodes. */
  function SubValue(e: Element, i: nat, now: Temporal): PyValue
    requires i < |e.subElements| && SubDecodes(e, i, now)
  {
    Decode(e.subElements[i].value, now).value
  }

  /** The (name, decoded value) pairs of the first `n` sub-elements, in index order. */
  function DecodedPairs(e: Element, n: nat, now: Temporal): (ps: seq<(string, PyValue)>)
    requires n <= |e.subElements|
    requires forall i :: 0 <= i < n ==> SubDecodes(e, i, now)
    ensures |ps| == n
    ensures forall i :: 0 <= i < n ==> ps[i] == (SubName(e, i, now), SubValue(e, i, now))
  {
    if n == 0 then [] else DecodedPairs(e, n - 1, now) + [(SubName(e, n - 1, now), SubValue(e, n - 1, now))]
  }

  /** The loop's dict over the first `n` sub-elements is `dict(pairs)` of their decoded pairs. */
  lemma {:induction false} ComplexPrefixIsDict(e: Element, n: nat, now: Temporal)
    requires n <= |e.subElements|
    requires ComplexPrefix(e, n, now).Ok?
    ensures forall i :: 0 <= i < n ==> SubDecodes(e, i, now)
    ensures ComplexPrefix(e, n, now).value == DictFromPairs(DecodedPairs(e, n, now))
  {
    ComplexPrefixOk(e, n, now);
    if n > 0 {
      ComplexPrefixIsDict(e, n - 1, now);
      var ps := DecodedPairs(e, n, now);
      assert ps[..n - 1] == DecodedPairs(e, n - 1, now);
      assert e.subElements[n - 1] in e.subElements;
      assert ComplexPrefix(e, n, now).value
          == DictSet(ComplexPrefix(e, n - 1, now).value, SubName(e, n - 1, now), SubValue(e, n - 1, now));
    }
  }

  /** A decoded complex element is `dict(pairs)` of its sub-elements' decoded pairs. */
  lemma ComplexDecodeIsDict(e: Element, now: Temporal)
    requires e.isComplexType && Decode(e, now).Ok?
    ensures forall i :: 0 <= i < |e.subElements| ==> SubDecodes(e, i, now)
    ensures Decode(e, now) == Ok(PyMapping(DictFromPairs(DecodedPairs(e, |e.subElements|, now))))
  {
    ComplexPrefixIsDict(e, |e.subElements|, now);
  }

  /**
   * A decoded complex element is a dict with unique keys, a key for exactly
   * the names of its sub-elements, and for each name the decoded value of
   * the LAST sub-element that carries it.
   */
  lemma ComplexDecodeEntries(e: Element, now: Temporal)
    requires e.isComplexType && Decode(e, now).Ok?
    ensures forall i :: 0 <= i < |e.subElements| ==> SubDecodes(e, i, now)
    ensures Decode(e, now).value.PyMapping?
    ensures KeysUnique(Decode(e, now).value.entries)
    ensures forall k :: Lookup(Decode(e, now).value.entries, k).Some? <==>
                        exists i :: 0 <= i < |e.subElements| && SubName(e, i, now) == k
    ensures forall i :: 0 <= i < |e.subElements| &&
                        (forall j :: i < j < |e.subElements| ==> SubName(e, j, now) != SubName(e, i, now)) ==>
              Lookup(Decode(e, now).value.entries, SubName(e, i, now)) == Some(SubValue(e, i, now))
  {
    ComplexDecodeIsDict(e, now);
    DictFromPairsFacts(DecodedPairs(e, |e.subElements|, now));
  }

  /** The array loop succeeds exactly when every slot converts, and then slot i holds slot i's value. */
  lemma {:induction false} ArrayPrefixItems(e: Element, n: nat, now: Temporal)
    ensures ArrayPrefix(e, n, now).Ok? <==> forall i :: 0 <= i < n ==> ArraySlot(e, i, now).Ok?
    ensures ArrayPrefix(e, n, now).Ok? ==>
              |ArrayPrefix(e, n, now).value| == n &&
              forall i :: 0 <= i < n ==> ArrayPrefix(e, n, now).value[i] == ArraySlot(e, i, now).value
  {
    if n > 0 {
      ArrayPrefixItems(e, n - 1, now);
      ArrayPrefixItemsNext(e, n, now);
    }
  }

  /** The step of `ArrayPrefixItems`: one more slot extends the list, or its failure ends it. */
  lemma ArrayPrefixItemsNext(e: Element, n: nat, now: Temporal)
    requires n > 0
    requires ArrayPrefix(e, n - 1, now).Ok? <==> forall i :: 0 <= i < n - 1 ==> ArraySlot(e, i, now).Ok?
    requires ArrayPrefix(e, n - 1, now).Ok? ==>
               |ArrayPrefix(e, n - 1, now).value| == n - 1 &&
               forall i :: 0 <= i < n - 1 ==> ArrayPrefix(e, n - 1, now).value[i] == ArraySlot(e, i, now).value
    ensures ArrayPrefix(e, n, now).Ok? <==> forall i :: 0 <= i < n ==> ArraySlot(e, i, now).Ok?
    ensures ArrayPrefix(e, n, now).Ok? ==>
              |ArrayPrefix(e, n, now).value| == n &&
              forall i :: 0 <= i < n ==> ArrayPrefix(e, n, now).value[i] == ArraySlot(e, i, now).value
  {
    ArrayPrefixOkNext(e, n, now);
    if ArrayPrefix(e, n, now).Ok? {
      var init := ArrayPrefix(e, n - 1, now).value;
      var items := ArrayPrefix(e, n, now).value;
      assert items == init + [ArraySlot(e, n - 1, now).value];
      forall i | 0 <= i < n ensures ArraySlot(e, i, now).Ok? && items[i] == ArraySlot(e, i, now).value {
        if i < n - 1 {
          assert items[i] == init[i];
        }
      }
    }
  }

  /** The first `n` slots convert exactly when the first `n - 1` do and slot `n - 1` does. */
  lemma ArrayPrefixOkNext(e: Element, n: nat, now: Temporal)
    requires n > 0
    requires ArrayPrefix(e, n - 1, now).Ok? <==> forall i :: 0 <= i < n - 1 ==> ArraySlot(e, i, now).Ok?
    ensures ArrayPrefix(e, n, now).Ok? <==> forall i :: 0 <= i < n ==> ArraySlot(e, i, now).Ok?
  {
    assert ArrayPrefix(e, n, now).Ok? <==> ArrayPrefix(e, n - 1, now).Ok? && ArraySlot(e, n - 1, now).Ok?;
    if forall i :: 0 <= i < n - 1 ==> ArraySlot(e, i, now).Ok? {
      if ArraySlot(e, n - 1, now).Ok? {
        forall i | 0 <= i < n ensures ArraySlot(e, i, now).Ok? {
        }
      }
    }
  }

  /** A failing array conversion reports the error of the first slot that fails. */
  lemma {:induction false} ArrayPrefixFirstError(e: Element, n: nat, k: nat, now: Temporal)
    requires k < n
    requires ArraySlot(e, k, now).Err?
    requires forall i :: 0 <= i < k ==> ArraySlot(e, i, now).Ok?
    ensures ArrayPrefix(e, n, now) == Err(ArraySlot(e, k, now).error)
  {
    if n - 1 == k {
      ArrayPrefixItems(e, k, now);
    } else {
      ArrayPrefixFirstError(e, n - 1, k, now);
    }
  }

  /** A failing complex conversion reports the error of the first sub-element that cannot be read or decoded. */
  lemma {:induction false} ComplexPrefixFirstError(e: Element, n: nat, k: nat, now: Temporal)
    requires k < n <= |e.subElements|
    requires !SubDecodes(e, k, now)
    requires forall i :: 0 <= i < k ==> SubDecodes(e, i, now)
    ensures e.subElements[k].None? ==>
              ComplexPrefix(e, n, now) == Err(InternalError("Internal error in `Element.toPy`"))
    ensures e.subElements[k].Some? ==>
              ComplexPrefix(e, n, now) == Err(Decode(e.subElements[k].value, now).error)
  {
    if n - 1 == k {
      ComplexPrefixOk(e, k, now);
    } else {
      ComplexPrefixFirstError(e, n - 1, k, now);
    }
  }

  /** A date/time value with no parts set decodes to None; any other decodes through `toPyTimeFromInts`. */
  lemma DatetimeScalar(e: Element, index: nat, hp: HighPrecisionDatetime, now: Temporal)
    requires e.dataType in {DATE, TIME, DATETIME}
    requires GetValueAsHighPrecisionDatetime(e, index) == Some(hp)
    ensures hp.datetime.parts == 0 ==> ScalarValue(e, index, now) == Ok(PyNone)
    ensures hp.datetime.parts != 0 ==>
              var dt := hp.datetime;
              var conv := DatetimeUtil.ToPyTimeFromInts(dt.parts, dt.offset, dt.year, dt.month, dt.day,
                                                        dt.hours, dt.minutes, dt.seconds,
                                                        DatetimeMicros(hp), now);
              && (ScalarValue(e, index, now).Ok? <==> conv.Ok?)
              && (conv.Ok? ==> ScalarValue(e, index, now) == Ok(PyTemporal(conv.value)))
              && (conv.Err? ==> ScalarValue(e, index, now) == Err(ConversionError(conv.error)))
    ensures hp.datetime.parts != 0 && ScalarValue(e, index, now).Ok? &&
            (DatetimeUtil.HasDate(hp.datetime.parts) || DatetimeUtil.HasAnyTime(hp.datetime.parts)) ==>
              ScalarValue(e, index, now).value.PyTemporal? &&
              DatetimeUtil.ShapedBy(DatetimeUtil.HasDate(hp.datetime.parts),
                                    DatetimeUtil.HasAnyTime(hp.datetime.parts),
                                    hp.datetime, DatetimeMicros(hp), ScalarValue(e, index, now).value.t)
    ensures hp.picoseconds % 1000000 == 0 ==>
              DatetimeMicros(hp) * 1000000 == hp.datetime.milliSeconds * 1000000000 + hp.picoseconds
  {
  }

  /** Once the complex loop has failed, later sub-elements do not change the error. */
  lemma {:induction false} ComplexPrefixErrSticky(e: Element, i: nat, n: nat, now: Temporal)
    requires i <= n <= |e.subElements|
    requires ComplexPrefix(e, i, now).Err?
    ensures ComplexPrefix(e, n, now) == ComplexPrefix(e, i, now)
    decreases n - i
  {
    if i < n {
      ComplexPrefixErrSticky(e, i, n - 1, now);
    }
  }

  /** Once the array loop has failed, later slots do not change the error. */
  lemma {:induction false} ArrayPrefixErrSticky(e: Element, i: nat, n: nat, now: Temporal)
    requires i <= n
    requires ArrayPrefix(e, i, now).Err?
    ensures ArrayPrefix(e, n, now) == ArrayPrefix(e, i, now)
    decreases n - i
  {
    if i < n {
      ArrayPrefixErrSticky(e, i, n - 1, now);
    }
  }

  /** One iteration of the complex loop, from the dict built so far. */
  lemma ComplexPrefixStep(e: Element, i: nat, now: Temporal)
    requires i < |e.subElements| && ComplexPrefix(e, i, now).Ok?
    ensures e.subElements[i].None? ==>
              ComplexPrefix(e, i + 1, now) == Err(InternalError("Internal error in `Element.toPy`"))
    ensures e.subElements[i].Some? && Decode(e.subElements[i].value, now).Err? ==>
              ComplexPrefix(e, i + 1, now) == Err(Decode(e.subElements[i].value, now).error)
    ensures e.subElements[i].Some? && Decode(e.subElements[i].value, now).Ok? ==>
              ComplexPrefix(e, i + 1, now)
                == Ok(DictSet(ComplexPrefix(e, i, now).value, e.subElements[i].value.name,
                              Decode(e.subElements[i].value, now).value))
  {
  }

  // ----- The C functions, loop by loop -----

  /** `blpapi_Element_toPy`. */
  method ElementToPy(e: Element, now: Temporal) returns (r: Result<PyValue, DecodeError>)
    ensures r == Decode(e, now)
    decreases e, 1, 0
  {
    if e.isComplexType {
      r := ComplexElementToPy(e, now);
    } else if e.isArray {
      r := ArrayElementToPy(e, now);
    } else if e.isNull {
      r := Ok(PyNone);
    } else {
      r := ScalarValue(e, 0, now);
    }
  }

  /** `complexElementToPy`: one dict entry per sub-element, in index order; the first failure ends it. */
  method ComplexElementToPy(e: Element, now: Temporal) returns (r: Result<PyValue, DecodeError>)
    ensures ComplexPrefix(e, |e.subElements|, now).Ok? ==>
              r == Ok(PyMapping(ComplexPrefix(e, |e.subElements|, now).value))
    ensures ComplexPrefix(e, |e.subElements|, now).Err? ==>
              r == Err(ComplexPrefix(e, |e.subElements|, now).error)
    decreases e, 0, 0
  {
    var dict: seq<(string, PyValue)> := [];
    var i := 0;
    while i < |e.subElements|
      invariant 0 <= i <= |e.subElements|
      invariant ComplexPrefix(e, i, now) == Ok(dict)
    {
      var sub := e.subElements[i];
      if sub.None? {
        r := Err(InternalError("Internal error in `Element.toPy`"));
        ComplexPrefixStep(e, i, now);
        ComplexPrefixErrSticky(e, i + 1, |e.subElements|, now);
        return;
      }
      assert sub in e.subElements;
      var subPy := ElementToPy(sub.value, now);
      if subPy.Err? {
        r := Err(subPy.error);
        ComplexPrefixStep(e, i, now);
        ComplexPrefixErrSticky(e, i + 1, |e.subElements|, now);
        return;
      }
      ComplexPrefixStep(e, i, now);
      dict := DictSet(dict, sub.value.name, subPy.value);
      i := i + 1;
    }
    r := Ok(PyMapping(dict));
  }

  /**
   * `arrayElementToPy`: one list slot per value, filled in index order from
   * the element values when the schema type is complex, else from the
   * scalars; the first failure ends it.
   */
  method ArrayElementToPy(e: Element, now: Temporal) returns (r: Result<PyValue, DecodeError>)
    ensures ArrayPrefix(e, |e.values|, now).Ok? ==>
              r == Ok(PyList(ArrayPrefix(e, |e.values|, now).value))
    ensures ArrayPrefix(e, |e.values|, now).Err? ==>
              r == Err(ArrayPrefix(e, |e.values|, now).error)
    decreases e, 0, 0
  {
    var numValues := |e.values|;
    var list: seq<PyValue> := [];
    var i := 0;
    if e.typeIsComplex {
      while i < numValues
        invariant 0 <= i <= numValues
        invariant ArrayPrefix(e, i, now) == Ok(list)
      {
        var slot := GetValueAsElement(e, i);
        if slot.None? {
          r := Err(InternalError("Internal error in blpapi_Element_getValueAsElement"));
          ArrayPrefixErrSticky(e, i + 1, numValues, now);
          return;
        }
        assert e.values[i] in e.values;
        var value := ElementToPy(slot.value, now);
        if value.Err? {
          r := Err(value.error);
          ArrayPrefixErrSticky(e, i + 1, numValues, now);
          return;
        }
        list := list + [value.value];
        i := i + 1;
      }
    } else {
      var scalars := ScalarArrayToPy(e, now);
      if scalars.Err? {
        return Err(scalars.error);
      }
      list := scalars.value;
    }
    r := Ok(PyList(list));
  }

  /** The non-complex branch of `arrayElementToPy`: `getScalarValue` for each slot, until one fails. */
  method ScalarArrayToPy(e: Element, now: Temporal) returns (r: Result<seq<PyValue>, DecodeError>)
    requires !e.typeIsComplex
    ensures r == ArrayPrefix(e, |e.values|, now)
  {
    var list: seq<PyValue> := [];
    var i := 0;
    while i < |e.values|
      invariant 0 <= i <= |e.values|
      invariant ArrayPrefix(e, i, now) == Ok(list)
    {
      var value := ScalarValue(e, i, now);
      if value.Err? {
        ArrayPrefixErrSticky(e, i + 1, |e.values|, now);
        return Err(value.error);
      }
      list := list + [value.value];
      i := i + 1;
    }
    r := Ok(list);
  }
}
