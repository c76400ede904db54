/**
 * `blpapi.EventFormatter` (src/blpapi/eventformatter.py): the traits that
 * pick the engine's set/append call for a value, the calls themselves,
 * the name of the latest message appended, and `fromPy`, which walks a
 * Mapping and turns it into push/pop/set/append calls, keeping a path of
 * the element being formatted for its error messages.
 *
 * The engine is a parameter: `engine(trace, call)` is the code the engine
 * returns for `call` after the calls in `trace`.  The functions are the
 * specification; the class's methods make the calls one by one and are
 * proved to make exactly those calls.
 */
module EventFormatter {
  import opened Wrappers
  import opened PyValues
  import PyDatetime
  import DatetimeUtil
  import Exceptions
  import PyElement
  import ElementFromPy
  import Utils
  import Text

  type SetCall = ElementFromPy.SetCall

  /** The engine calls `blpapi_EventFormatter_*` that the formatter makes. */
  datatype Call =
    | AppendMessage(messageType: string)
    | AppendResponse(operationName: string)
    | AppendRecapMessage
    | SetElement(name: string, arg: SetCall)
    | SetElementNull(name: string)
    | PushElement(name: string)
    | PopElement
    | AppendValue(arg: SetCall)
    | AppendElement

  type Engine = (seq<Call>, Call) -> int

  /** The exceptions that reach the caller. */
  datatype PyError =
    /** A `blpapi.Exception` subclass: from `raiseOnError`, or InvalidConversionException from the traits. */
    | Blp(x: Exceptions.BlpException)
    | NotImplemented(message: string)
    /** An error of the date/time conversion. */
    | Conversion(error: PyDatetime.PyDatetimeError)
    /** The `Exception` raised by `fromPy` with its composed message. */
    | Raised(message: string)

  /** `str(exc)`. */
  function ErrorText(err: PyError): string {
    match err
    case Blp(x) => Exceptions.Str(x)
    case NotImplemented(m) => m
    case Conversion(e) => e.message
    case Raised(m) => m
  }

  // ----- traits -----

  function RangeMessage(i: int): string {
    "Value is out of supported range (INT64): " + Text.IntToString(i)
  }

  /**
   * `EventFormatter.__getTraits`: the order of `Element`'s, but an int
   * beyond 64 bits raises InvalidConversionException (code 0).
   */
  function GetTraits(value: PyValue): (r: Result<PyElement.Traits, PyError>)
    ensures r.Ok? <==> PyElement.GetTraits(value).Ok?
    ensures r.Ok? ==> r.value == PyElement.GetTraits(value).value
    ensures r.Err? ==> r.error == Blp(Exceptions.BlpException(Exceptions.InvalidConversion, RangeMessage(value.i), Some(0)))
  {
    if value.PyStr? then Ok(PyElement.StringTraits)
    else if value.PyBytes? then Ok(PyElement.BytesTraits)
    else if value.PyBool? then Ok(PyElement.BoolTraits)
    else if value.PyInt? then
      if PyElement.InInt32(value.i) then Ok(PyElement.Int32Traits)
      else if PyElement.InInt64(value.i) then Ok(PyElement.Int64Traits)
      else Err(Blp(Exceptions.BlpException(Exceptions.InvalidConversion, RangeMessage(value.i), Some(0))))
    else if value.PyFloat? then Ok(PyElement.FloatTraits)
    else if IsDatetime(value) then Ok(PyElement.DatetimeTraits)
    else if value.PyName? then Ok(PyElement.NameTraits)
    else Ok(PyElement.DefaultTraits)
  }

  /** The argument after the traits' conversion (`invoke_if_valid(traits[2], value)`). */
  function Convert(value: PyValue): Result<SetCall, PyError>
    requires PyElement.GetTraits(value).Ok?
  {
    match ElementFromPy.SetCallFor(value)
    case Ok(arg) => Ok(arg)
    case Err(e) => Err(Conversion(e.datetimeError))
  }

  // ----- one engine call -----

  datatype Env = Env(engine: Engine, lastError: Option<string>, latest: string)

  /** The trace after `call`, and what `raiseOnError` makes of the engine's code. */
  function Issue(env: Env, trace: seq<Call>, call: Call): (seq<Call>, Result<(), PyError>) {
    (trace + [call],
     match Exceptions.RaiseOnError(env.engine(trace, call), None, env.lastError)
     case Err(x) => Err(Blp(x))
     case Ok(_) => Ok(()))
  }

  /** `setElement(name, value)`: the traits, the conversion, then the engine's setter. */
  function SetElementOp(env: Env, trace: seq<Call>, name: string, value: PyValue): (seq<Call>, Result<(), PyError>) {
    match GetTraits(value)
    case Err(e) => (trace, Err(e))
    case Ok(traits) =>
      match Convert(value)
      case Err(e) => (trace, Err(e))
      case Ok(arg) => Issue(env, trace, SetElement(name, arg))
  }

  const BYTES_MESSAGE: string := "Arrays of bytes are not supported."

  /** `appendValue(value)`: bytes have no appender and raise NotImplementedError before any call. */
  function AppendValueOp(env: Env, trace: seq<Call>, value: PyValue): (r: (seq<Call>, Result<(), PyError>))
    ensures value.PyBytes? ==> r == (trace, Err(NotImplemented(BYTES_MESSAGE)))
  {
    match GetTraits(value)
    case Err(e) => (trace, Err(e))
    case Ok(traits) =>
      if traits == PyElement.BytesTraits then (trace, Err(NotImplemented(BYTES_MESSAGE)))
      else
        match Convert(value)
        case Err(e) => (trace, Err(e))
        case Ok(arg) => Issue(env, trace, AppendValue(arg))
  }

  // ----- fromPy -----

  /** The engine calls made so far and the path deque. */
  datatype St = St(trace: seq<Call>, path: seq<string>)

  datatype Outcome = Outcome(st: St, result: Result<(), PyError>)

  const MESSAGE_PREFIX: string := "While operating on Element `"

  /** `getPathErrorMessage()`: the latest message name, then the path, joined by "/". */
  function PathMessage(latest: string, path: seq<string>): string {
    MESSAGE_PREFIX + Text.Join([latest] + path, "/") + "`, "
  }

  /** `_fromPyErrorTemplate.format(exc)`. */
  function Template(err: PyError): string {
    "encountered Error: " + ErrorText(err)
  }

  const APPEND_ELEMENT_MESSAGE: string := "encountered a `Mapping` where a scalar value was expected. Error: "
  const NESTED_MESSAGE: string :=
    "encountered nested `Sequences`s. An array of array Elements should be represented as `Sequence`s of `Mappings`s with `Sequence` values."
  const SCALAR_FOR_ARRAY_MESSAGE: string :=
    "attempted to format an array Element using a scalar value. Array Elements are formatted with `Sequence`s."
  const NOT_MAPPING_MESSAGE: string := "`value` must be a `Mapping` instance"

  /** The `Exception(getPathErrorMessage() + detail)` that `fromPy` raises: it names the latest message first. */
  function Fail(env: Env, path: seq<string>, detail: string): (r: Result<(), PyError>)
    ensures r.Err? && r.error.Raised? && MESSAGE_PREFIX + env.latest <= r.error.message
  {
    JoinStartsWithHead(env.latest, path, "/");
    Err(Raised(PathMessage(env.latest, path) + detail))
  }

  lemma JoinStartsWithHead(head: string, rest: seq<string>, sep: string)
    ensures Text.Join([head] + rest, sep) == if rest == [] then head else head + sep + Text.Join(rest, sep)
  {
    assert ([head] + rest)[1..] == rest;
  }

  /** `path.pop()`. */
  function DropLast(path: seq<string>): seq<string> {
    if path == [] then [] else path[..|path| - 1]
  }

  function EntryLabel(namestr: string, index: nat): string {
    namestr + "[" + Text.IntToString(index) + "]"
  }

  /** `_fromPyHelper(value, name, path)`. */
  function Helper(env: Env, st: St, value: PyValue, name: Option<string>): Outcome
    decreases value, 2, 0
  {
    if value.PyMapping? then MappingFrom(env, st, value, 0)
    else if Utils.IsNonScalarSequence(value) then SequenceOf(env, st, value, if name.None? then "" else name.value)
    else Scalar(env, st, value, if name.None? then "" else name.value)
  }

  /** The entries of a Mapping from index `i` on. */
  function MappingFrom(env: Env, st: St, value: PyValue, i: nat): Outcome
    requires value.PyMapping? && i <= |value.entries|
    decreases value, 1, |value.entries| - i
  {
    if i == |value.entries| then Outcome(st, Ok(()))
    else
      var (key, val) := value.entries[i];
      assert value.entries[i] in value.entries;
      var next := MappingEntry(env, st, value.entries[i]);
      if next.result.Err? then next
      else MappingFrom(env, next.st, value, i + 1)
  }

  /**
   * One entry: a non-empty Mapping is pushed, formatted and popped, with
   * the key on the path meanwhile; an empty one is set null; any other
   * value is formatted under the key's name.
   */
  function MappingEntry(env: Env, st: St, entry: (string, PyValue)): Outcome
    decreases entry, 0, 0
  {
    var (key, val) := entry;
    if val.PyMapping? then
      if val.entries != [] then
        var (t1, pushed) := Issue(env, st.trace, PushElement(key));
        if pushed.Err? then Outcome(St(t1, st.path), Fail(env, st.path, Template(pushed.error)))
        else
          var inner := Helper(env, St(t1, st.path + [key]), val, Some(key));
          if inner.result.Err? then inner
          else
            var (t2, popped) := Issue(env, inner.st.trace, PopElement);
            if popped.Err? then Outcome(St(t2, inner.st.path), popped)
            else Outcome(St(t2, DropLast(inner.st.path)), Ok(()))
      else
        var (t1, cleared) := Issue(env, st.trace, SetElementNull(key));
        if cleared.Err? then Outcome(St(t1, st.path), Fail(env, st.path, Template(cleared.error)))
        else Outcome(St(t1, st.path), Ok(()))
    else Helper(env, st, val, Some(key))
  }

  /** A list or tuple: one push of its name, its entries, one pop. */
  function SequenceOf(env: Env, st: St, value: PyValue, namestr: string): Outcome
    requires Utils.IsNonScalarSequence(value)
    decreases value, 1, |value.items| + 1
  {
    var (t1, pushed) := Issue(env, st.trace, PushElement(namestr));
    if pushed.Err? then Outcome(St(t1, st.path), Fail(env, st.path, Template(pushed.error)))
    else
      var items := ItemsFrom(env, St(t1, st.path), value, namestr, 0);
      if items.result.Err? then items
      else
        var (t2, popped) := Issue(env, items.st.trace, PopElement);
        Outcome(St(t2, items.st.path), popped)
  }

  /**
   * Entry `i` alone, its label left on the path: a Mapping is an appended
   * element, formatted and popped; a nested list or tuple is refused; a
   * scalar is appended.
   */
  function ItemStep(env: Env, st: St, value: PyValue, namestr: string, i: nat): Outcome
    requires Utils.IsNonScalarSequence(value) && i < |value.items|
    decreases value, 1, |value.items| - i, 0
  {
    var val := value.items[i];
    assert val in value.items;
    var path := st.path + [EntryLabel(namestr, i)];
    if val.PyMapping? then
      var (t1, appended) := Issue(env, st.trace, AppendElement);
      if appended.Err? then Outcome(St(t1, path), Fail(env, path, APPEND_ELEMENT_MESSAGE + ErrorText(appended.error)))
      else
        var inner := Helper(env, St(t1, path), val, None);
        if inner.result.Err? then inner
        else
          var (t2, popped) := Issue(env, inner.st.trace, PopElement);
          Outcome(St(t2, inner.st.path), popped)
    else if Utils.IsNonScalarSequence(val) then Outcome(St(st.trace, path), Fail(env, path, NESTED_MESSAGE))
    else
      var (t1, res) := AppendValueOp(env, st.trace, val);
      if res.Err? then Outcome(St(t1, path), Fail(env, path, Template(res.error)))
      else Outcome(St(t1, path), Ok(()))
  }

  /**
   * The entries from index `i` on, each with `name[index]` on the path
   * while it is formatted.
   */
  function ItemsFrom(env: Env, st: St, value: PyValue, namestr: string, i: nat): Outcome
    requires Utils.IsNonScalarSequence(value) && i <= |value.items|
    decreases value, 1, |value.items| - i, 1
  {
    if i == |value.items| then Outcome(st, Ok(()))
    else
      var next := ItemStep(env, st, value, namestr, i);
      if next.result.Err? then next
      else ItemsFrom(env, St(next.st.trace, DropLast(next.st.path)), value, namestr, i + 1)
  }

  /** Where a failed scalar set is reported, and how. */
  function ScalarFailure(env: Env, path: seq<string>, namestr: string, err: PyError): (r: Result<(), PyError>)
    ensures r.Err? && r.error.Raised? && MESSAGE_PREFIX + env.latest <= r.error.message
  {
    if err.Blp? && err.x.errorClass == Exceptions.IndexOutOfRange then
      Fail(env, path + [namestr], SCALAR_FOR_ARRAY_MESSAGE)
    else if err.Blp? && err.x.errorClass in {Exceptions.InvalidConversion, Exceptions.InvalidArgument} then
      Fail(env, path + [namestr], Template(err))
    else Fail(env, path, Template(err))
  }

  /** A scalar: None sets the element null, anything else is set with `setElement`. */
  function Scalar(env: Env, st: St, value: PyValue, namestr: string): Outcome {
    var (t1, res) :=
      if value.PyNone? then Issue(env, st.trace, SetElementNull(namestr))
      else SetElementOp(env, st.trace, namestr, value);
    if res.Err? then Outcome(St(t1, st.path), ScalarFailure(env, st.path, namestr, res.error))
    else Outcome(St(t1, st.path), Ok(()))
  }

  /** `fromPy(value)`: only a Mapping is accepted, and the path starts empty. */
  function FromPy(env: Env, trace: seq<Call>, value: PyValue): (r: Outcome)
    ensures !value.PyMapping? ==> r == Outcome(St(trace, []), Err(Raised(NOT_MAPPING_MESSAGE)))
  {
    if !value.PyMapping? then Outcome(St(trace, []), Err(Raised(NOT_MAPPING_MESSAGE)))
    else Helper(env, St(trace, []), value, None)
  }

  /** `str(self.latestMessageName)`. */
  function LatestText(latest: Option<string>): string {
    if latest.None? then "None" else latest.value
  }

  // ----- the formatter -----

  class Formatter {
    var trace: seq<Call>
    var latestMessageName: Option<string>
    const engine: Engine
    /** The engine's last error description, which `raiseOnError` puts in the exception. */
    const lastError: Option<string>

    function EnvOf(): Env
      reads this
    {
      Env(engine, lastError, LatestText(latestMessageName))
    }

    constructor(engine: Engine, lastError: Option<string>)
      ensures trace == [] && latestMessageName == None
      ensures this.engine == engine && this.lastError == lastError
    {
      this.engine := engine;
      this.lastError := lastError;
      trace := [];
      latestMessageName := None;
    }

    /** One engine call and `raiseOnError` of its code. */
    method Call(call: Call) returns (r: Result<(), PyError>)
      modifies this
      ensures (trace, r) == Issue(old(EnvOf()), old(trace), call)
      ensures latestMessageName == old(latestMessageName)
    {
      var code := engine(trace, call);
      trace := trace + [call];
      var raised := Exceptions.RaiseOnError(code, None, lastError);
      if raised.Err? {
        return Err(Blp(raised.error));
      }
      r := Ok(());
    }

    /** `appendMessage`: the latest message name becomes the type, once the engine accepts it. */
    method AppendMessageOf(messageType: string) returns (r: Result<(), PyError>)
      modifies this
      ensures (trace, r) == Issue(old(EnvOf()), old(trace), AppendMessage(messageType))
      ensures latestMessageName == if r.Ok? then Some(messageType) else old(latestMessageName)
    {
      r := Call(AppendMessage(messageType));
      if r.Ok? {
        latestMessageName := Some(messageType);
      }
    }

    /** `appendResponse`: the latest message name becomes "<Response>". */
    method AppendResponseOf(operationName: string) returns (r: Result<(), PyError>)
      modifies this
      ensures (trace, r) == Issue(old(EnvOf()), old(trace), AppendResponse(operationName))
      ensures latestMessageName == if r.Ok? then Some("<Response>") else old(latestMessageName)
    {
      r := Call(AppendResponse(operationName));
      if r.Ok? {
        latestMessageName := Some("<Response>");
      }
    }

    /** `appendRecapMessage`: the latest message name becomes "<Recap>". */
    method AppendRecap() returns (r: Result<(), PyError>)
      modifies this
      ensures (trace, r) == Issue(old(EnvOf()), old(trace), AppendRecapMessage)
      ensures latestMessageName == if r.Ok? then Some("<Recap>") else old(latestMessageName)
    {
      r := Call(AppendRecapMessage);
      if r.Ok? {
        latestMessageName := Some("<Recap>");
      }
    }

    /** `setElement(name, value)`. */
    method SetElementValue(name: string, value: PyValue) returns (r: Result<(), PyError>)
      modifies this
      ensures (trace, r) == SetElementOp(old(EnvOf()), old(trace), name, value)
      ensures latestMessageName == old(latestMessageName)
    {
      var traits := GetTraits(value);
      if traits.Err? {
        return Err(traits.error);
      }
      var arg := Convert(value);
      if arg.Err? {
        return Err(arg.error);
      }
      r := Call(SetElement(name, arg.value));
    }

    /** `appendValue(value)`. */
    method AppendValueOf(value: PyValue) returns (r: Result<(), PyError>)
      modifies this
      ensures (trace, r) == AppendValueOp(old(EnvOf()), old(trace), value)
      ensures latestMessageName == old(latestMessageName)
    {
      var traits := GetTraits(value);
      if traits.Err? {
        return Err(traits.error);
      }
      if traits.value == PyElement.BytesTraits {
        return Err(NotImplemented(BYTES_MESSAGE));
      }
      var arg := Convert(value);
      if arg.Err? {
        return Err(arg.error);
      }
      r := Call(AppendValue(arg.value));
    }

    /** `fromPy(value)`. */
    method FromPyOf(value: PyValue) returns (r: Result<(), PyError>)
      modifies this
      ensures Outcome(St(trace, []), r) == FromPy(old(EnvOf()), old(trace), value).(st := St(trace, []))
      ensures latestMessageName == old(latestMessageName)
    {
      if !value.PyMapping? {
        return Err(Raised(NOT_MAPPING_MESSAGE));
      }
      var path;
      path, r := HelperOf(value, None, []);
    }

    /** `_fromPyHelper(value, name, path)`: the path deque goes in and comes back out. */
    method HelperOf(value: PyValue, name: Option<string>, path: seq<string>) returns (path': seq<string>, r: Result<(), PyError>)
      modifies this
      ensures Outcome(St(trace, path'), r) == Helper(old(EnvOf()), St(old(trace), path), value, name)
      ensures latestMessageName == old(latestMessageName)
      decreases value, 2, 0
    {
      var env := EnvOf();
      if value.PyMapping? {
        path', r := MappingOf(value, path);
      } else if Utils.IsNonScalarSequence(value) {
        path', r := SequenceOfValue(value, if name.None? then "" else name.value, path);
      } else {
        path' := path;
        var namestr := if name.None? then "" else name.value;
        var res;
        if value.PyNone? {
          res := Call(SetElementNull(namestr));
        } else {
          res := SetElementValue(namestr, value);
        }
        r := if res.Err? then ScalarFailure(env, path, namestr, res.error) else Ok(());
      }
    }

    /** The loop over a Mapping's items. */
    method MappingOf(value: PyValue, path: seq<string>) returns (path': seq<string>, r: Result<(), PyError>)
      requires value.PyMapping?
      modifies this
      ensures Outcome(St(trace, path'), r) == MappingFrom(old(EnvOf()), St(old(trace), path), value, 0)
      ensures latestMessageName == old(latestMessageName)
      decreases value, 1, |value.entries| + 1
    {
      ghost var env := EnvOf();
      path' := path;
      var i := 0;
      while i < |value.entries|
        invariant i <= |value.entries| && EnvOf() == env && latestMessageName == old(latestMessageName)
        invariant MappingFrom(env, St(old(trace), path), value, 0) == MappingFrom(env, St(trace, path'), value, i)
        decreases |value.entries| - i
      {
        assert value.entries[i] in value.entries;
        var step;
        path', step := EntryOf(value.entries[i], path');
        if step.Err? {
          return path', step;
        }
        i := i + 1;
      }
      r := Ok(());
    }

    /** One item of a Mapping. */
    method EntryOf(entry: (string, PyValue), path: seq<string>) returns (path': seq<string>, r: Result<(), PyError>)
      modifies this
      ensures Outcome(St(trace, path'), r) == MappingEntry(old(EnvOf()), St(old(trace), path), entry)
      ensures latestMessageName == old(latestMessageName)
      decreases entry, 0, 0
    {
      var env := EnvOf();
      var (key, val) := entry;
      path' := path;
      if val.PyMapping? {
        if val.entries != [] {
          var pushed := Call(PushElement(key));
          if pushed.Err? {
            return path, Fail(env, path, Template(pushed.error));
          }
          path' := path + [key];
          path', r := HelperOf(val, Some(key), path');
          if r.Err? {
            return;
          }
          r := Call(PopElement);
          if r.Ok? {
            path' := DropLast(path');
          }
        } else {
          var cleared := Call(SetElementNull(key));
          r := if cleared.Err? then Fail(env, path, Template(cleared.error)) else Ok(());
        }
      } else {
        path', r := HelperOf(val, Some(key), path);
      }
    }

    /** A list or tuple under `namestr`. */
    method SequenceOfValue(value: PyValue, namestr: string, path: seq<string>) returns (path': seq<string>, r: Result<(), PyError>)
      requires Utils.IsNonScalarSequence(value)
      modifies this
      ensures Outcome(St(trace, path'), r) == SequenceOf(old(EnvOf()), St(old(trace), path), value, namestr)
      ensures latestMessageName == old(latestMessageName)
      decreases value, 1, |value.items| + 1
    {
      var env := EnvOf();
      path' := path;
      var pushed := Call(PushElement(namestr));
      if pushed.Err? {
        return path, Fail(env, path, Template(pushed.error));
      }
      var i := 0;
      while i < |value.items|
        invariant i <= |value.items| && EnvOf() == env && latestMessageName == old(latestMessageName)
        invariant ItemsFrom(env, St(old(trace) + [PushElement(namestr)], path), value, namestr, 0)
                  == ItemsFrom(env, St(trace, path'), value, namestr, i)
        decreases |value.items| - i
      {
        var step;
        path', step := ItemOf(value, namestr, i, path');
        if step.Err? {
          return path', step;
        }
        path' := DropLast(path');
        i := i + 1;
      }
      r := Call(PopElement);
    }

    /** Entry `i` of a list or tuple, with its label left on the path. */
    method ItemOf(value: PyValue, namestr: string, i: nat, path: seq<string>) returns (path': seq<string>, r: Result<(), PyError>)
      requires Utils.IsNonScalarSequence(value) && i < |value.items|
      modifies this
      ensures Outcome(St(trace, path'), r) == ItemStep(old(EnvOf()), St(old(trace), path), value, namestr, i)
      ensures latestMessageName == old(latestMessageName)
      decreases value, 1, |value.items| - i, 0
    {
      var env := EnvOf();
      var val := value.items[i];
      assert val in value.items;
      path' := path + [EntryLabel(namestr, i)];
      if val.PyMapping? {
        var appended := Call(AppendElement);
        if appended.Err? {
          return path', Fail(env, path', APPEND_ELEMENT_MESSAGE + ErrorText(appended.error));
        }
        path', r := HelperOf(val, None, path');
        if r.Err? {
          return;
        }
        r := Call(PopElement);
      } else if Utils.IsNonScalarSequence(val) {
        r := Fail(env, path', NESTED_MESSAGE);
      } else {
        var res := AppendValueOf(val);
        r := if res.Err? then Fail(env, path', Template(res.error)) else Ok(());
      }
    }
  }

  // ----- properties of fromPy -----

  /** How a call moves the formatter's element stack: push and appendElement open, pop closes. */
  function Delta(c: Call): int {
    if c.PushElement? || c.AppendElement? then 1 else if c.PopElement? then -1 else 0
  }

  /** Opened minus closed over `calls`. */
  function Excess(calls: seq<Call>): int {
    if calls == [] then 0 else Excess(calls[..|calls| - 1]) + Delta(calls[|calls| - 1])
  }

  /** The smallest `Excess` of a prefix of `calls`. */
  function Lowest(calls: seq<Call>): int {
    if calls == [] then 0
    else var below := Lowest(calls[..|calls| - 1]); if below <= Excess(calls) then below else Excess(calls)
  }

  /** Every pop closes an element opened within `calls`, and all of them are closed at the end. */
  predicate Balanced(calls: seq<Call>) {
    Excess(calls) == 0 && Lowest(calls) >= 0
  }

  lemma {:induction false} ExcessConcat(a: seq<Call>, b: seq<Call>)
    ensures Excess(a + b) == Excess(a) + Excess(b)
    ensures Lowest(a + b) == if Lowest(a) <= Excess(a) + Lowest(b) then Lowest(a) else Excess(a) + Lowest(b)
    decreases |b|
  {
    if b == [] {
      assert a + b == a;
    } else {
      var init := b[..|b| - 1];
      assert (a + b)[..|a + b| - 1] == a + init;
      ExcessConcat(a, init);
    }
  }

  lemma BalancedConcat(a: seq<Call>, b: seq<Call>)
    requires Balanced(a) && Balanced(b)
    ensures Balanced(a + b)
  {
    ExcessConcat(a, b);
  }

  lemma BalancedWrap(open: Call, inner: seq<Call>)
    requires Delta(open) == 1 && Balanced(inner)
    ensures Balanced([open] + inner + [PopElement])
  {
    ExcessConcat([open], inner);
    ExcessConcat([open] + inner, [PopElement]);
    assert [open][..0] == [];
    assert [PopElement][..0] == [];
  }

  /** Calls opened by `open` and closed by a `popElement` after a balanced run keep the calls before them and are balanced. */
  lemma WrapKeeps(trace: seq<Call>, open: Call, inner: seq<Call>)
    requires Delta(open) == 1 && trace + [open] <= inner && Balanced(inner[|trace| + 1..])
    ensures trace <= inner + [PopElement] && Balanced((inner + [PopElement])[|trace|..])
  {
    var t1 := trace + [open];
    var t2 := inner + [PopElement];
    Chain(trace, t1, inner);
    Chain(trace, inner, t2);
    assert t1[|trace|..] == [open];
    assert t2[|inner|..] == [PopElement];
    BalancedWrap(open, inner[|t1|..]);
  }

  lemma BalancedSingle(c: Call)
    requires Delta(c) == 0
    ensures Balanced([c])
  {
    assert [c][..0] == [];
  }

  /** `t2`'s calls after `t0` are those up to `t1`, then the rest. */
  lemma Chain(t0: seq<Call>, t1: seq<Call>, t2: seq<Call>)
    requires t0 <= t1 <= t2
    ensures t2[|t0|..] == t1[|t0|..] + t2[|t1|..]
  {
  }

  /**
   * How a failure of `fromPy` reaches the caller: as an `Exception` whose
   * message names the latest message, or as the engine's own exception
   * from the `popElement` just made, which no handler wraps.
   */
  predicate Reported(latest: string, o: Outcome) {
    o.result.Err? ==>
      (o.result.error.Raised? && MESSAGE_PREFIX + latest <= o.result.error.message)
      || (o.result.error.Blp? && o.st.trace != [] && o.st.trace[|o.st.trace| - 1] == PopElement)
  }

  /**
   * What a formatting step keeps: the calls made before it stay, a failure
   * is reported as above, and a success leaves its own calls balanced and
   * the path where it was.
   */
  predicate Keeps(env: Env, st: St, o: Outcome) {
    st.trace <= o.st.trace
    && Reported(env.latest, o)
    && (o.result.Ok? ==> o.st.path == st.path && Balanced(o.st.trace[|st.trace|..]))
  }

  /** An engine call or setter that makes at most one call, which neither opens nor closes. */
  lemma NeutralStep(trace: seq<Call>, t1: seq<Call>)
    requires t1 == trace || (|t1| == |trace| + 1 && t1[..|trace|] == trace && Delta(t1[|trace|]) == 0)
    ensures trace <= t1 && Balanced(t1[|trace|..])
  {
    if t1 == trace {
      assert t1[|trace|..] == [];
    } else {
      assert t1[|trace|..] == [t1[|trace|]];
      BalancedSingle(t1[|trace|]);
    }
  }

  lemma SetElementOpNeutral(env: Env, trace: seq<Call>, name: string, value: PyValue)
    ensures var t1 := SetElementOp(env, trace, name, value).0;
      t1 == trace || (|t1| == |trace| + 1 && t1[..|trace|] == trace && Delta(t1[|trace|]) == 0)
  {
  }

  lemma AppendValueOpNeutral(env: Env, trace: seq<Call>, value: PyValue)
    ensures var t1 := AppendValueOp(env, trace, value).0;
      t1 == trace || (|t1| == |trace| + 1 && t1[..|trace|] == trace && Delta(t1[|trace|]) == 0)
  {
  }

  lemma ScalarKeeps(env: Env, st: St, value: PyValue, namestr: string)
    ensures Keeps(env, st, Scalar(env, st, value, namestr))
  {
    var (t1, res) :=
      if value.PyNone? then Issue(env, st.trace, SetElementNull(namestr))
      else SetElementOp(env, st.trace, namestr, value);
    if value.PyNone? {
      assert t1 == st.trace + [SetElementNull(namestr)];
    } else {
      SetElementOpNeutral(env, st.trace, namestr, value);
    }
    NeutralStep(st.trace, t1);
    var o := Scalar(env, st, value, namestr);
    assert o.st == St(t1, st.path);
    if res.Err? {
      assert o.result == ScalarFailure(env, st.path, namestr, res.error);
    }
  }

  lemma {:induction false} HelperKeeps(env: Env, st: St, value: PyValue, name: Option<string>)
    ensures Keeps(env, st, Helper(env, st, value, name))
    decreases value, 2, 0
  {
    if value.PyMapping? {
      MappingFromKeeps(env, st, value, 0);
    } else if Utils.IsNonScalarSequence(value) {
      SequenceOfKeeps(env, st, value, if name.None? then "" else name.value);
    } else {
      ScalarKeeps(env, st, value, if name.None? then "" else name.value);
    }
  }

  lemma {:induction false} MappingFromKeeps(env: Env, st: St, value: PyValue, i: nat)
    requires value.PyMapping? && i <= |value.entries|
    ensures Keeps(env, st, MappingFrom(env, st, value, i))
    decreases value, 1, |value.entries| - i
  {
    if i == |value.entries| {
      assert st.trace[|st.trace|..] == [];
    } else {
      assert value.entries[i] in value.entries;
      var next := MappingEntry(env, st, value.entries[i]);
      MappingEntryKeeps(env, st, value.entries[i]);
      if next.result.Ok? {
        var rest := MappingFrom(env, next.st, value, i + 1);
        MappingFromKeeps(env, next.st, value, i + 1);
        Chain(st.trace, next.st.trace, rest.st.trace);
        if rest.result.Ok? {
          BalancedConcat(next.st.trace[|st.trace|..], rest.st.trace[|next.st.trace|..]);
        }
      }
    }
  }

  lemma {:induction false} MappingEntryKeeps(env: Env, st: St, entry: (string, PyValue))
    ensures Keeps(env, st, MappingEntry(env, st, entry))
    decreases entry, 0, 1
  {
    var (key, val) := entry;
    if val.PyMapping? {
      if val.entries != [] {
        MappingEntryPushKeeps(env, st, key, val);
      } else {
        var t1 := st.trace + [SetElementNull(key)];
        assert t1[|st.trace|..] == [SetElementNull(key)];
        BalancedSingle(SetElementNull(key));
      }
    } else {
      HelperKeeps(env, st, val, Some(key));
    }
  }

  /** A non-empty Mapping under `key`: pushed, formatted, popped. */
  lemma {:induction false} MappingEntryPushKeeps(env: Env, st: St, key: string, val: PyValue)
    requires val.PyMapping? && val.entries != []
    ensures Keeps(env, st, MappingEntry(env, st, (key, val)))
    decreases (key, val), 0, 0
  {
    var o := MappingEntry(env, st, (key, val));
    var (t1, pushed) := Issue(env, st.trace, PushElement(key));
    if pushed.Err? {
      assert o == Outcome(St(t1, st.path), Fail(env, st.path, Template(pushed.error)));
    } else {
      var inner := Helper(env, St(t1, st.path + [key]), val, Some(key));
      HelperKeeps(env, St(t1, st.path + [key]), val, Some(key));
      if inner.result.Err? {
        assert o == inner;
      } else {
        var (t2, popped) := Issue(env, inner.st.trace, PopElement);
        WrapKeeps(st.trace, PushElement(key), inner.st.trace);
        if popped.Err? {
          assert o == Outcome(St(t2, inner.st.path), popped);
        } else {
          assert DropLast(st.path + [key]) == st.path;
          assert o == Outcome(St(t2, DropLast(inner.st.path)), Ok(()));
        }
      }
    }
  }

  lemma {:induction false} SequenceOfKeeps(env: Env, st: St, value: PyValue, namestr: string)
    requires Utils.IsNonScalarSequence(value)
    ensures Keeps(env, st, SequenceOf(env, st, value, namestr))
    decreases value, 1, |value.items| + 1
  {
    var o := SequenceOf(env, st, value, namestr);
    var (t1, pushed) := Issue(env, st.trace, PushElement(namestr));
    if pushed.Err? {
      assert o == Outcome(St(t1, st.path), Fail(env, st.path, Template(pushed.error)));
    } else {
      var items := ItemsFrom(env, St(t1, st.path), value, namestr, 0);
      ItemsFromKeeps(env, St(t1, st.path), value, namestr, 0);
      if items.result.Err? {
        assert o == items;
      } else {
        var (t2, popped) := Issue(env, items.st.trace, PopElement);
        assert o == Outcome(St(t2, items.st.path), popped);
        WrapKeeps(st.trace, PushElement(namestr), items.st.trace);
      }
    }
  }

  lemma {:induction false} ItemsFromKeeps(env: Env, st: St, value: PyValue, namestr: string, i: nat)
    requires Utils.IsNonScalarSequence(value) && i <= |value.items|
    ensures Keeps(env, st, ItemsFrom(env, st, value, namestr, i))
    decreases value, 1, |value.items| - i, 1
  {
    if i == |value.items| {
      assert st.trace[|st.trace|..] == [];
    } else {
      var next := ItemStep(env, st, value, namestr, i);
      ItemStepKeeps(env, st, value, namestr, i);
      if next.result.Ok? {
        var st' := St(next.st.trace, DropLast(next.st.path));
        assert st'.path == st.path;
        var rest := ItemsFrom(env, st', value, namestr, i + 1);
        ItemsFromKeeps(env, st', value, namestr, i + 1);
        Chain(st.trace, next.st.trace, rest.st.trace);
        if rest.result.Ok? {
          BalancedConcat(next.st.trace[|st.trace|..], rest.st.trace[|next.st.trace|..]);
        }
      }
    }
  }

  /** Entry `i` keeps the calls before it and, when it succeeds, leaves only its label on the path. */
  lemma {:induction false} ItemStepKeeps(env: Env, st: St, value: PyValue, namestr: string, i: nat)
    requires Utils.IsNonScalarSequence(value) && i < |value.items|
    ensures var o := ItemStep(env, st, value, namestr, i);
      st.trace <= o.st.trace && Reported(env.latest, o)
      && (o.result.Ok? ==> o.st.path == st.path + [EntryLabel(namestr, i)] && Balanced(o.st.trace[|st.trace|..]))
    decreases value, 1, |value.items| - i, 0
  {
    var val := value.items[i];
    if val.PyMapping? {
      ItemMappingKeeps(env, st, value, namestr, i);
    } else if Utils.IsNonScalarSequence(val) {
      var path := st.path + [EntryLabel(namestr, i)];
      assert ItemStep(env, st, value, namestr, i) == Outcome(St(st.trace, path), Fail(env, path, NESTED_MESSAGE));
    } else {
      ItemScalarKeeps(env, st, value, namestr, i);
    }
  }

  lemma {:induction false} ItemMappingKeeps(env: Env, st: St, value: PyValue, namestr: string, i: nat)
    requires Utils.IsNonScalarSequence(value) && i < |value.items| && value.items[i].PyMapping?
    ensures var o := ItemStep(env, st, value, namestr, i);
      st.trace <= o.st.trace && Reported(env.latest, o)
      && (o.result.Ok? ==> o.st.path == st.path + [EntryLabel(namestr, i)] && Balanced(o.st.trace[|st.trace|..]))
    decreases value, 0
  {
    var val := value.items[i];
    assert val in value.items;
    var path := st.path + [EntryLabel(namestr, i)];
    var o := ItemStep(env, st, value, namestr, i);
    var (t1, appended) := Issue(env, st.trace, AppendElement);
    if appended.Err? {
      assert o == Outcome(St(t1, path), Fail(env, path, APPEND_ELEMENT_MESSAGE + ErrorText(appended.error)));
    } else {
      var inner := Helper(env, St(t1, path), val, None);
      HelperKeeps(env, St(t1, path), val, None);
      if inner.result.Err? {
        assert o == inner;
      } else {
        var (t2, popped) := Issue(env, inner.st.trace, PopElement);
        assert o == Outcome(St(t2, inner.st.path), popped);
        WrapKeeps(st.trace, AppendElement, inner.st.trace);
      }
    }
  }

  lemma ItemScalarKeeps(env: Env, st: St, value: PyValue, namestr: string, i: nat)
    requires Utils.IsNonScalarSequence(value) && i < |value.items|
    requires !value.items[i].PyMapping? && !Utils.IsNonScalarSequence(value.items[i])
    ensures var o := ItemStep(env, st, value, namestr, i);
      st.trace <= o.st.trace && Reported(env.latest, o)
      && (o.result.Ok? ==> o.st.path == st.path + [EntryLabel(namestr, i)] && Balanced(o.st.trace[|st.trace|..]))
  {
    var val := value.items[i];
    var path := st.path + [EntryLabel(namestr, i)];
    var (t1, res) := AppendValueOp(env, st.trace, val);
    AppendValueOpNeutral(env, st.trace, val);
    NeutralStep(st.trace, t1);
    var o := ItemStep(env, st, value, namestr, i);
    if res.Err? {
      assert o == Outcome(St(t1, path), Fail(env, path, Template(res.error)));
    } else {
      assert o == Outcome(St(t1, path), Ok(()));
    }
  }

  /**
   * `fromPy` on a Mapping only adds to the calls already made; when it
   * succeeds every element it pushed or appended it also popped, and when
   * it fails the message names the latest message, unless the failure is
   * the engine refusing a `popElement`.
   */
  lemma FromPyBalanced(env: Env, trace: seq<Call>, value: PyValue)
    requires value.PyMapping?
    ensures var o := FromPy(env, trace, value);
      trace <= o.st.trace && Reported(env.latest, o)
      && (o.result.Ok? ==> o.st.path == [] && Balanced(o.st.trace[|trace|..]))
  {
    HelperKeeps(env, St(trace, []), value, None);
  }

  /**
   * When the engine refuses `setElement` with an index-out-of-range code
   * (a scalar aimed at an array element), the message names the element's
   * path, the element itself included, and says arrays take sequences; no
   * other call is made.
   */
  lemma ScalarIntoArrayReported(env: Env, st: St, value: PyValue, namestr: string)
    requires !value.PyNone? && PyElement.GetTraits(value).Ok? && Convert(value).Ok?
    requires Exceptions.GetErrorClass(env.engine(st.trace, SetElement(namestr, Convert(value).value))) == Exceptions.IndexOutOfRange
    ensures Scalar(env, st, value, namestr)
            == Outcome(St(st.trace + [SetElement(namestr, Convert(value).value)], st.path),
                       Err(Raised(PathMessage(env.latest, st.path + [namestr]) + SCALAR_FOR_ARRAY_MESSAGE)))
  {
    var call := SetElement(namestr, Convert(value).value);
    var code := env.engine(st.trace, call);
    assert code != 0 by {
      assert Exceptions.GetErrorClass(0) != Exceptions.IndexOutOfRange by {
        Exceptions.ClassBitsOfClass(0);
      }
    }
    assert SetElementOp(env, st.trace, namestr, value) == Issue(env, st.trace, call);
  }

  /** A value beyond 64 bits is refused before any engine call, whatever the engine would say. */
  lemma OutOfRangeMakesNoCall(env: Env, st: St, value: PyValue, namestr: string)
    requires value.PyInt? && !PyElement.InInt64(value.i)
    ensures var o := Scalar(env, st, value, namestr);
      o.st == st && o.result == Fail(env, st.path + [namestr], Template(GetTraits(value).error))
  {
    assert GetTraits(value).Err?;
  }
}
