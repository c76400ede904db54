/**
 * `blpapi.test.MessageFormatter`: `setElement` and `appendValue` pick one
 * foreign setter by the class of the value, through `functools`'
 * single dispatch applied to a chosen argument position rather than to
 * `self`; integers go to the 32-bit or the 64-bit setter by range.  The
 * functions give the foreign call made, or the Python error raised before
 * any call.
 */
module MessageFormatter {
  import opened Wrappers
  import opened PyValues
  import opened PyDatetime
  import Names
  import Utils
  import DatetimeUtil

  // ----- single dispatch -----

  /** The classes dispatch distinguishes; `object` is the implicit base of all. */
  datatype PyClass =
    | BoolClass | IntClass | FloatClass | StrClass | BytesClass | NoneClass
    | DatetimeClass | DateClass | TimeClass | NameClass | OtherClass(name: string)

  /** `value.__class__`. */
  function ClassOf(v: PyValue): PyClass {
    match v
    case PyNone => NoneClass
    case PyBool(_) => BoolClass
    case PyInt(_) => IntClass
    case PyFloat(_) => FloatClass
    case PyStr(_) => StrClass
    case PyBytes(_) => BytesClass
    case PyByteArray(_) => OtherClass("bytearray")
    case PyMemoryView(_) => OtherClass("memoryview")
    case PyTemporal(t) => if t.DateTime? then DatetimeClass else if t.DateOnly? then DateClass else TimeClass
    case PyName(_) => NameClass
    case PyMapping(_) => OtherClass("dict")
    case PyList(_) => OtherClass("list")
    case PyTuple(_) => OtherClass("tuple")
    case PyObject(className, _) => OtherClass(className)
  }

  /** The method resolution order below `object`: bool derives from int, datetime from date. */
  function Mro(c: PyClass): (mro: seq<PyClass>)
    ensures |mro| >= 1 && mro[0] == c
  {
    if c == BoolClass then [BoolClass, IntClass]
    else if c == DatetimeClass then [DatetimeClass, DateClass]
    else [c]
  }

  /** The first class of an MRO that has a registered implementation; None selects the base function. */
  function Resolve(registered: PyClass -> bool, mro: seq<PyClass>): (r: Option<nat>)
    ensures r.Some? ==> r.value < |mro| && registered(mro[r.value])
    ensures r.Some? ==> forall k :: 0 <= k < r.value ==> !registered(mro[k])
    ensures r.None? ==> forall k :: 0 <= k < |mro| ==> !registered(mro[k])
  {
    if mro == [] then None
    else if registered(mro[0]) then Some(0)
    else
      match Resolve(registered, mro[1..])
      case None => None
      case Some(k) => Some(k + 1)
  }

  /**
   * `_singledispatchmethod(argIndex)`: the implementation is chosen by the
   * class of `args[argIndex]` (for a method, `args[0]` is `self`), the
   * nearest registered class in its MRO, or the base function when there
   * is none.
   */
  function SingleDispatch(registered: PyClass -> bool, args: seq<PyValue>, argIndex: nat): (r: Option<PyClass>)
    requires argIndex < |args|
    ensures r.Some? ==> registered(r.value) && r.value in Mro(ClassOf(args[argIndex]))
    ensures registered(ClassOf(args[argIndex])) ==> r == Some(ClassOf(args[argIndex]))
    ensures r.None? <==> forall c :: c in Mro(ClassOf(args[argIndex])) ==> !registered(c)
  {
    var mro := Mro(ClassOf(args[argIndex]));
    match Resolve(registered, mro)
    case None => None
    case Some(k) => Some(mro[k])
  }

  /** The classes `_setElement` registers: all the value classes it supports, None and bytes included. */
  predicate SetRegistered(c: PyClass) {
    !c.OtherClass?
  }

  /** The classes `appendValue` registers: neither None nor bytes. */
  predicate AppendRegistered(c: PyClass) {
    !c.OtherClass? && c != NoneClass && c != BytesClass
  }

  /** The formatter itself, standing at `args[0]`. */
  const SELF: PyValue := PyObject("MessageFormatter", "")

  /** The class `_setElement(name, value)` dispatches to: the value's own class when registered, else the base function. */
  function SetDispatched(name: nat, value: PyValue): (r: Option<PyClass>)
    ensures r == if SetRegistered(ClassOf(value)) then Some(ClassOf(value)) else None
  {
    SingleDispatch(SetRegistered, [SELF, PyName(name), value], 2)
  }

  /** The class `appendValue(value)` dispatches to: the value's own class when registered, else the base function. */
  function AppendDispatched(value: PyValue): (r: Option<PyClass>)
    ensures r == if AppendRegistered(ClassOf(value)) then Some(ClassOf(value)) else None
  {
    SingleDispatch(AppendRegistered, [SELF, value], 1)
  }

  // ----- the foreign calls -----

  datatype Call =
    | SetValueBool(name: nat, b: bool)
    | SetValueHighPrecisionDatetime(name: nat, dt: HighPrecisionDatetime)
    | SetValueInt32(name: nat, i: int)
    | SetValueInt64(name: nat, i: int)
    | SetValueFloat(name: nat, f: Float)
    | SetValueFromName(name: nat, valueName: nat)
    | SetValueNull(name: nat)
    | SetValueString(name: nat, s: string)
    | SetValueBytes(name: nat, bytes: seq<Byte>)
    | AppendValueBool(b: bool)
    | AppendValueHighPrecisionDatetime(dt: HighPrecisionDatetime)
    | AppendValueInt32(i: int)
    | AppendValueInt64(i: int)
    | AppendValueFloat(f: Float)
    | AppendValueFromName(valueName: nat)
    /** `appendValueString`, given whatever value reached the base function. */
    | AppendValueString(value: PyValue)
    | PushElement(name: nat)
    | FormatMessageJson(json: string)

  datatype FormatError =
    | TypeError(message: string)
    | ValueError(message: string)
    | DatetimeError(datetimeError: PyDatetimeError)
    | NameFailure(nameError: Names.NameError)

  const RANGE_MESSAGE: string := "Value is out of element's supported range"

  predicate InInt32(i: int) { Utils.MIN_32BIT_INT <= i <= Utils.MAX_32BIT_INT }

  predicate InInt64(i: int) { Utils.MIN_64BIT_INT <= i <= Utils.MAX_64BIT_INT }

  /** `_setElement(name, value)`: the setter registered for the value's class, or TypeError from the base function. */
  function SetElementCall(name: nat, value: PyValue): (r: Result<Call, FormatError>)
    ensures value.PyBool? ==> r == Ok(SetValueBool(name, value.b))
    ensures value.PyInt? && InInt32(value.i) ==> r == Ok(SetValueInt32(name, value.i))
    ensures value.PyInt? && !InInt32(value.i) && InInt64(value.i) ==> r == Ok(SetValueInt64(name, value.i))
    ensures value.PyInt? && !InInt64(value.i) ==> r == Err(FormatError.ValueError(RANGE_MESSAGE))
    ensures value.PyNone? ==> r == Ok(SetValueNull(name))
    ensures value.PyFloat? ==> r == Ok(SetValueFloat(name, value.f))
    ensures value.PyName? ==> r == Ok(SetValueFromName(name, value.handle))
    ensures value.PyStr? ==> r == Ok(SetValueString(name, value.s))
    ensures value.PyBytes? ==> r == Ok(SetValueBytes(name, value.bytes))
    ensures ClassOf(value).OtherClass? ==> r.Err? && r.error.TypeError?
    ensures value.PyTemporal? ==> (r.Ok? <==> DatetimeUtil.ToBlpapi(value).Ok?)
  {
    match SetDispatched(name, value)
    case None => Err(FormatError.TypeError("The type of value is not supported."))
    case Some(c) =>
      if c == BoolClass then Ok(SetValueBool(name, value.b))
      else if c == DatetimeClass || c == DateClass || c == TimeClass then
        (match DatetimeUtil.ToBlpapi(value)
         case Err(e) => Err(DatetimeError(e))
         case Ok(dt) => Ok(SetValueHighPrecisionDatetime(name, dt)))
      else if c == IntClass then
        if InInt32(value.i) then Ok(SetValueInt32(name, value.i))
        else if InInt64(value.i) then Ok(SetValueInt64(name, value.i))
        else Err(FormatError.ValueError(RANGE_MESSAGE))
      else if c == FloatClass then Ok(SetValueFloat(name, value.f))
      else if c == NameClass then Ok(SetValueFromName(name, value.handle))
      else if c == NoneClass then Ok(SetValueNull(name))
      else if c == StrClass then Ok(SetValueString(name, value.s))
      else Ok(SetValueBytes(name, value.bytes))
  }

  /**
   * The name's handle: a Name is used as it is; a str or bytes is made a
   * Name first (interning it in the engine's table).
   */
  function NameHandle(table: Names.NameTable, name: PyValue, decode: seq<Byte> -> Option<string>): (r: Result<(Names.NameTable, nat), FormatError>)
    requires name.PyName? || Utils.IsStr(name)
    ensures name.PyName? ==> r == Ok((table, name.handle))
    ensures name.PyStr? ==> r.Ok? && r.value == Names.Create(table, name.s)
  {
    if name.PyName? then Ok((table, name.handle))
    else
      match Utils.Conv2Str(name, decode)
      case Err(_) => Err(NameFailure(Names.UnicodeDecodeError))
      case Ok(s) => Ok(Names.Create(table, s.s))
  }

  /** `setElement(name, value)`: the name becomes a Name, then `_setElement` dispatches on the value. */
  function SetElement(table: Names.NameTable, name: PyValue, value: PyValue, decode: seq<Byte> -> Option<string>): (r: Result<(Names.NameTable, Call), FormatError>)
    requires name.PyName? || Utils.IsStr(name)
    ensures r.Ok? ==> NameHandle(table, name, decode).Ok? &&
                      Ok(r.value.1) == SetElementCall(NameHandle(table, name, decode).value.1, value)
  {
    match NameHandle(table, name, decode)
    case Err(e) => Err(e)
    case Ok((t, h)) =>
      match SetElementCall(h, value)
      case Err(e) => Err(e)
      case Ok(c) => Ok((t, c))
  }

  /** `pushElement(name)`: as `setElement`, the name is made a Name first. */
  function PushElementCall(table: Names.NameTable, name: PyValue, decode: seq<Byte> -> Option<string>): (r: Result<(Names.NameTable, Call), FormatError>)
    requires name.PyName? || Utils.IsStr(name)
    ensures r.Ok? ==> r.value.1.PushElement? && NameHandle(table, name, decode) == Ok((r.value.0, r.value.1.name))
  {
    match NameHandle(table, name, decode)
    case Err(e) => Err(e)
    case Ok((t, h)) => Ok((t, PushElement(h)))
  }

  /**
   * `appendValue(value)`: the appender registered for the value's class;
   * any other value, None and bytes included, goes to the string appender
   * of the base function as it is.
   */
  function AppendValueCall(value: PyValue): (r: Result<Call, FormatError>)
    ensures value.PyBool? ==> r == Ok(AppendValueBool(value.b))
    ensures value.PyInt? && InInt32(value.i) ==> r == Ok(AppendValueInt32(value.i))
    ensures value.PyInt? && !InInt32(value.i) && InInt64(value.i) ==> r == Ok(AppendValueInt64(value.i))
    ensures value.PyInt? && !InInt64(value.i) ==> r == Err(FormatError.ValueError(RANGE_MESSAGE))
    ensures value.PyFloat? ==> r == Ok(AppendValueFloat(value.f))
    ensures value.PyName? ==> r == Ok(AppendValueFromName(value.handle))
    ensures value.PyStr? || !AppendRegistered(ClassOf(value)) ==> r == Ok(AppendValueString(value))
  {
    match AppendDispatched(value)
    case None => Ok(AppendValueString(value))
    case Some(c) =>
      if c == BoolClass then Ok(AppendValueBool(value.b))
      else if c == DatetimeClass || c == DateClass || c == TimeClass then
        (match DatetimeUtil.ToBlpapi(value)
         case Err(e) => Err(DatetimeError(e))
         case Ok(dt) => Ok(AppendValueHighPrecisionDatetime(dt)))
      else if c == IntClass then
        if InInt32(value.i) then Ok(AppendValueInt32(value.i))
        else if InInt64(value.i) then Ok(AppendValueInt64(value.i))
        else Err(FormatError.ValueError(RANGE_MESSAGE))
      else if c == FloatClass then Ok(AppendValueFloat(value.f))
      else if c == NameClass then Ok(AppendValueFromName(value.handle))
      else Ok(AppendValueString(value))
  }

  /** The set call's counterpart among the append calls, for the value kinds both register. */
  function AsAppend(c: Call): Option<Call> {
    match c
    case SetValueBool(_, b) => Some(AppendValueBool(b))
    case SetValueHighPrecisionDatetime(_, dt) => Some(AppendValueHighPrecisionDatetime(dt))
    case SetValueInt32(_, i) => Some(AppendValueInt32(i))
    case SetValueInt64(_, i) => Some(AppendValueInt64(i))
    case SetValueFloat(_, f) => Some(AppendValueFloat(f))
    case SetValueFromName(_, h) => Some(AppendValueFromName(h))
    case SetValueString(_, s) => Some(AppendValueString(PyStr(s)))
    case _ => None
  }

  /** An append outcome matches a set outcome: the counterpart call, or the same error. */
  predicate Matches(setOutcome: Result<Call, FormatError>, appendOutcome: Result<Call, FormatError>) {
    match setOutcome
    case Ok(c) => AsAppend(c).Some? && appendOutcome == Ok(AsAppend(c).value)
    case Err(e) => appendOutcome == Err(e)
  }

  /**
   * Setting and appending agree: for every value whose class both
   * register, `appendValue` makes the append call matching the set call
   * `setElement` makes (the same integer ranges included), or raises the
   * same error; for None and bytes, `appendValue` falls back to the string
   * appender while `setElement` has setters of their own.
   */
  lemma SetAndAppendAgree(name: nat, value: PyValue)
    ensures AppendRegistered(ClassOf(value)) ==> Matches(SetElementCall(name, value), AppendValueCall(value))
    ensures value.PyNone? || value.PyBytes? ==>
              AppendValueCall(value) == Ok(AppendValueString(value)) && SetElementCall(name, value).Ok?
  {
    match value
    case PyTemporal(_) => TemporalAgree(name, value);
    case PyBool(_) => BoolAgree(name, value);
    case PyInt(_) =>
    case PyFloat(_) =>
    case PyStr(_) =>
    case PyBytes(_) =>
    case PyNone =>
    case PyName(_) =>
    case _ =>
      assert ClassOf(value).OtherClass?;
  }

  lemma BoolAgree(name: nat, value: PyValue)
    requires value.PyBool?
    ensures Matches(SetElementCall(name, value), AppendValueCall(value))
  {
    assert SetElementCall(name, value) == Ok(SetValueBool(name, value.b));
    assert AppendValueCall(value) == Ok(AppendValueBool(value.b));
  }

  lemma TemporalAgree(name: nat, value: PyValue)
    requires value.PyTemporal?
    ensures Matches(SetElementCall(name, value), AppendValueCall(value))
  {
    var d := DatetimeUtil.ToBlpapi(value);
    if d.Ok? {
      assert SetElementCall(name, value) == Ok(SetValueHighPrecisionDatetime(name, d.value));
      assert AppendValueCall(value) == Ok(AppendValueHighPrecisionDatetime(d.value));
    } else {
      assert SetElementCall(name, value) == Err(DatetimeError(d.error));
      assert AppendValueCall(value) == Err(DatetimeError(d.error));
    }
  }

  /**
   * `formatMessageDict(d)`: exactly `formatMessageJson` of `json.dumps(d)`;
   * the JSON encoder is the interpreter's, given here as `dumps`.
   */
  function FormatMessageDictCall(d: PyValue, dumps: PyValue -> string): (c: Call)
    ensures c.FormatMessageJson? && c.json == dumps(d)
  {
    FormatMessageJson(dumps(d))
  }
}
