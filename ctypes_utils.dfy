/**
 * The ctypes helpers between the binding and the engine's C interface:
 * range-checked conversion to a C integer, wrapping of returned pointers,
 * reading results out of output parameters (where a non-zero return code
 * means the output is not to be read), and turning Python strings into C
 * strings.  The interpreter's UTF-8 codec is given as `encode`/`decode`
 * (`decode` yields None where Python raises UnicodeDecodeError), and a
 * foreign buffer as the bytes it holds, None standing for a null pointer.
 */
module CtypesUtils {
  import opened Wrappers
  import opened PyValues

  const C_UINT16_MIN: int := 0
  const C_UINT16_MAX: int := 0xFFFF

  datatype CtypesError = OverflowError | UnicodeDecodeError

  /** `safePOD(value, c_uint16)`: the value when it lies within the limits of `c_uint16`, else OverflowError. */
  function SafeUint16(value: int): (r: Result<int, CtypesError>)
    ensures r.Ok? <==> C_UINT16_MIN <= value <= C_UINT16_MAX
    ensures r.Ok? ==> r.value == value
    ensures r.Err? ==> r.error == OverflowError
  {
    if value <= C_UINT16_MAX && value >= C_UINT16_MIN then Ok(value) else Err(OverflowError)
  }

  /** A `c_void_p` holding an address, which may be None. */
  datatype VoidPtr = VoidPtr(value: Option<nat>)

  /** `getHandleFromPtr`: a null (zero or None) address is None, anything else is wrapped. */
  function GetHandleFromPtr(outp: Option<nat>): (r: Option<VoidPtr>)
    ensures r.None? <==> outp.None? || outp.value == 0
    ensures r.Some? ==> r.value.value == outp && r.value.value.value != 0
  {
    if outp.Some? && outp.value != 0 then Some(VoidPtr(outp)) else None
  }

  /** `getHandleFromOutput`: the handle written to the output, read only when the call succeeded. */
  function GetHandleFromOutput(contents: VoidPtr, retCode: int): (r: Option<VoidPtr>)
    ensures r.Some? <==> retCode == 0
    ensures r.Some? ==> r.value == contents
  {
    GetFromOutput(contents, retCode)
  }

  /** `getPODFromOutput` and `getStructFromOutput`: the output's value when the call succeeded, else None. */
  function GetFromOutput<T>(contents: T, retCode: int): (r: Option<T>)
    ensures r.Some? <==> retCode == 0
    ensures r.Some? ==> r.value == contents
  {
    if retCode == 0 then Some(contents) else None
  }

  /** `getStrFromC`: a returned C string decoded, or the default for a null pointer. */
  function GetStrFromC(value: Option<seq<Byte>>, dflt: Option<string>, decode: seq<Byte> -> Option<string>)
    : (r: Result<Option<string>, CtypesError>)
    ensures value.None? ==> r == Ok(dflt)
    ensures value.Some? && decode(value.value).Some? ==> r == Ok(decode(value.value))
    ensures r.Err? <==> value.Some? && decode(value.value).None?
  {
    match value
    case None => Ok(dflt)
    case Some(b) =>
      (match decode(b)
       case None => Err(UnicodeDecodeError)
       case Some(s) => Ok(Some(s)))
  }

  /** `getStrFromOutput`: the default on a failed call; otherwise as `getStrFromC` on the output. */
  function GetStrFromOutput(contents: Option<seq<Byte>>, retCode: int, dflt: Option<string>,
                            decode: seq<Byte> -> Option<string>): (r: Result<Option<string>, CtypesError>)
    ensures retCode != 0 ==> r == Ok(dflt)
    ensures retCode == 0 ==> r == GetStrFromC(contents, dflt, decode)
  {
    if retCode != 0 then Ok(dflt) else GetStrFromC(contents, dflt, decode)
  }

  /**
   * `getSizedBytesFromOutput`: the default on a failed call; empty bytes for
   * a null pointer or a zero size; otherwise the first `size` bytes of the
   * buffer.  The engine reports a size within its buffer.
   */
  function GetSizedBytesFromOutput(buffer: Option<seq<Byte>>, size: nat, retCode: int, dflt: Option<seq<Byte>>)
    : (r: Option<seq<Byte>>)
    requires buffer.Some? ==> size <= |buffer.value|
    ensures retCode != 0 ==> r == dflt
    ensures retCode == 0 ==> r.Some?
    ensures retCode == 0 && (buffer.None? || size == 0) ==> r == Some([])
    ensures retCode == 0 && buffer.Some? ==> r.value == buffer.value[..size]
  {
    if retCode != 0 then dflt
    else if buffer.None? || size == 0 then Some([])
    else Some(buffer.value[..size])
  }

  /** `getSizedStrFromOutput`: the sized bytes, decoded; "" for a null pointer or zero size. */
  function GetSizedStrFromOutput(buffer: Option<seq<Byte>>, size: nat, retCode: int, dflt: Option<string>,
                                 decode: seq<Byte> -> Option<string>): (r: Result<Option<string>, CtypesError>)
    requires buffer.Some? ==> size <= |buffer.value|
    ensures retCode != 0 ==> r == Ok(dflt)
    ensures retCode == 0 && (buffer.None? || size == 0) ==> r == Ok(Some(""))
    ensures retCode == 0 && buffer.Some? && size > 0 ==>
              (r.Ok? <==> decode(buffer.value[..size]).Some?) &&
              (r.Ok? ==> r.value == decode(buffer.value[..size]))
  {
    if retCode != 0 then Ok(dflt)
    else if buffer.None? || size == 0 then Ok(Some(""))
    else
      match decode(buffer.value[..size])
      case None => Err(UnicodeDecodeError)
      case Some(s) => Ok(Some(s))
  }

  /** The sized string is the sized bytes decoded, whenever the call succeeded and the buffer is not empty. */
  lemma SizedStrIsDecodedBytes(buffer: Option<seq<Byte>>, size: nat, dflt: Option<string>,
                               decode: seq<Byte> -> Option<string>)
    requires buffer.Some? && 0 < size <= |buffer.value|
    requires decode(GetSizedBytesFromOutput(buffer, size, 0, None).value).Some?
    ensures GetSizedStrFromOutput(buffer, size, 0, dflt, decode) ==
            Ok(decode(GetSizedBytesFromOutput(buffer, size, 0, None).value))
  {
  }

  /** `charPtrFromPyStr`: a str is encoded; bytes, None and anything else pass through unchanged. */
  function CharPtrFromPyStr(val: PyValue, encode: string -> seq<Byte>): (r: PyValue)
    ensures val.PyStr? ==> r == PyBytes(encode(val.s))
    ensures !val.PyStr? ==> r == val
  {
    if val.PyStr? then PyBytes(encode(val.s)) else val
  }

  /**
   * `charPtrWithSizeFromPyStr`: a str gives its encoded bytes and their
   * length; None gives (None, 0); bytes and bytearray give themselves and
   * their length.
   */
  function CharPtrWithSizeFromPyStr(val: PyValue, encode: string -> seq<Byte>): (r: (PyValue, nat))
    requires val.PyStr? || val.PyNone? || val.PyBytes? || val.PyByteArray?
    ensures val.PyStr? ==> r == (PyBytes(encode(val.s)), |encode(val.s)|)
    ensures val.PyNone? ==> r == (PyNone, 0)
    ensures val.PyBytes? || val.PyByteArray? ==> r == (val, |val.bytes|)
  {
    if val.PyStr? then
      var bts := encode(val.s);
      (PyBytes(bts), |bts|)
    else if val.PyNone? then (PyNone, 0)
    else (val, |val.bytes|)
  }

  /**
   * The two string helpers agree: the bytes handed over with a size are the
   * ones handed over without one, and the size is their length; so reading
   * that many bytes back and decoding them with a codec that inverts the
   * encoder returns the original string.
   */
  lemma SizedCharPtrRoundTrip(s: string, encode: string -> seq<Byte>, decode: seq<Byte> -> Option<string>)
    requires decode(encode(s)) == Some(s)
    ensures CharPtrWithSizeFromPyStr(PyStr(s), encode).0 == CharPtrFromPyStr(PyStr(s), encode)
    ensures var (p, n) := CharPtrWithSizeFromPyStr(PyStr(s), encode);
            n <= |p.bytes| &&
            GetSizedStrFromOutput(Some(p.bytes), n, 0, None, decode) == Ok(Some(if n == 0 then "" else s))
  {
    var (p, n) := CharPtrWithSizeFromPyStr(PyStr(s), encode);
    assert p.bytes[..n] == encode(s);
  }
}
