/**
 * The binding's exception layer: choosing the exception class for an engine
 * error code, raising it with the engine's description, and the text
 * `str()` gives for a raised exception.  Codes are Python ints, so they may
 * be negative or wider than 32 bits; `&` is modelled on Python's
 * unbounded two's complement.
 */
module Exceptions {
  import opened Wrappers

  // Error classes and the one special code, as the engine's error header defines them.
  const INVALIDSTATE_CLASS: int := 0x10000
  const INVALIDARG_CLASS: int := 0x20000
  const IOERROR_CLASS: int := 0x30000
  const CNVERROR_CLASS: int := 0x40000
  const BOUNDSERROR_CLASS: int := 0x50000
  const NOTFOUND_CLASS: int := 0x60000
  const FLDNOTFOUND_CLASS: int := 0x70000
  const UNSUPPORTED_CLASS: int := 0x80000
  const ERROR_DUPLICATE_CORRELATIONID: int := 0x20004

  datatype ErrorClass =
    | DuplicateCorrelationId
    | InvalidState
    | InvalidArgument
    | InvalidConversion
    | IndexOutOfRange
    | NotFound
    | FieldNotFound
    | UnsupportedOperation
    | UnknownError

  /** A raised `blpapi.Exception`: its class and its two constructor arguments. */
  datatype BlpException = BlpException(errorClass: ErrorClass, description: string, errorCode: Option<int>)

  /** Python's `code & 0xFF0000` for any int, negative ones included. */
  function ClassBits(code: int): (r: int)
    ensures 0 <= r <= 0xFF0000 && r % 0x10000 == 0
  {
    (code / 0x10000) % 0x100 * 0x10000
  }

  /** The table of `_ExceptionUtil.__errorClasses`; bits not in it give None. */
  function ClassTable(bits: int): Option<ErrorClass> {
    if bits == INVALIDSTATE_CLASS then Some(InvalidState)
    else if bits == INVALIDARG_CLASS then Some(InvalidArgument)
    else if bits == CNVERROR_CLASS then Some(InvalidConversion)
    else if bits == BOUNDSERROR_CLASS then Some(IndexOutOfRange)
    else if bits == NOTFOUND_CLASS then Some(NotFound)
    else if bits == FLDNOTFOUND_CLASS then Some(FieldNotFound)
    else if bits == UNSUPPORTED_CLASS then Some(UnsupportedOperation)
    else None
  }

  /**
   * `__getErrorClass`: the duplicate-correlation-id code is recognised before
   * any masking; otherwise the class bits select from the table, and
   * anything else is an unknown error.
   */
  function GetErrorClass(code: int): (c: ErrorClass)
    ensures c == DuplicateCorrelationId <==> code == ERROR_DUPLICATE_CORRELATIONID
    ensures c == UnknownError <==> code != ERROR_DUPLICATE_CORRELATIONID && ClassTable(ClassBits(code)).None?
  {
    if code == ERROR_DUPLICATE_CORRELATIONID then DuplicateCorrelationId
    else
      match ClassTable(ClassBits(code))
      case Some(c) => c
      case None => UnknownError
  }

  /** The class depends on bits 16 to 23 alone: the low 16 bits and everything above bit 23 are ignored. */
  lemma ClassIgnoresOtherBits(code: int, low: int, high: int)
    requires 0 <= code % 0x10000 + low < 0x10000
    requires code != ERROR_DUPLICATE_CORRELATIONID
    requires code + low + high * 0x1000000 != ERROR_DUPLICATE_CORRELATIONID
    ensures GetErrorClass(code + low + high * 0x1000000) == GetErrorClass(code)
  {
    var q := code / 0x10000;
    var r := code % 0x10000;
    var c2 := code + low + high * 0x1000000;
    assert c2 == (q + high * 0x100) * 0x10000 + (r + low);
    assert c2 / 0x10000 == q + high * 0x100;
    assert (q + high * 0x100) % 0x100 == q % 0x100;
  }

  /** The class bits of a code that is a class number shifted into place are that code. */
  lemma ClassBitsOfClass(k: int)
    requires 0 <= k < 0x100
    ensures ClassBits(k * 0x10000) == k * 0x10000
  {
    assert (k * 0x10000) / 0x10000 == k;
  }

  lemma ClassConstantsSelect()
    ensures GetErrorClass(INVALIDSTATE_CLASS) == InvalidState
    ensures GetErrorClass(INVALIDARG_CLASS) == InvalidArgument
    ensures GetErrorClass(CNVERROR_CLASS) == InvalidConversion
    ensures GetErrorClass(BOUNDSERROR_CLASS) == IndexOutOfRange
    ensures GetErrorClass(NOTFOUND_CLASS) == NotFound
    ensures GetErrorClass(FLDNOTFOUND_CLASS) == FieldNotFound
    ensures GetErrorClass(UNSUPPORTED_CLASS) == UnsupportedOperation
    ensures GetErrorClass(IOERROR_CLASS) == UnknownError
    ensures GetErrorClass(INVALIDARG_CLASS + 4) == DuplicateCorrelationId
    ensures GetErrorClass(INVALIDARG_CLASS + 5) == InvalidArgument
  {
    ClassBitsOfClass(1);
    ClassBitsOfClass(2);
    ClassBitsOfClass(3);
    ClassBitsOfClass(4);
    ClassBitsOfClass(5);
    ClassBitsOfClass(6);
    ClassBitsOfClass(7);
    ClassBitsOfClass(8);
    ClassIgnoresOtherBits(INVALIDARG_CLASS, 5, 0);
  }

  /**
   * `raiseException`: without a description the engine's last-error text is
   * used, and an empty or missing one becomes "Unknown"; a description that
   * was given is kept as it is.
   */
  function RaiseException(code: int, description: Option<string>, lastError: Option<string>): (x: BlpException)
    ensures x.errorClass == GetErrorClass(code) && x.errorCode == Some(code)
    ensures description.Some? ==> x.description == description.value
    ensures description.None? ==>
              x.description == (if lastError.Some? && lastError.value != "" then lastError.value else "Unknown")
    ensures description.None? ==> x.description != ""
  {
    var text :=
      if description.Some? then description.value
      else if lastError.None? || lastError.value == "" then "Unknown"
      else lastError.value;
    BlpException(GetErrorClass(code), text, Some(code))
  }

  /** `raiseOnError`: raises exactly when the code is non-zero, with the exception `raiseException` builds. */
  function RaiseOnError(code: int, description: Option<string>, lastError: Option<string>): (r: Result<(), BlpException>)
    ensures r.Ok? <==> code == 0
    ensures r.Err? ==> r.error == RaiseException(code, description, lastError)
  {
    if code != 0 then Err(RaiseException(code, description, lastError)) else Ok(())
  }

  // ----- str() of an exception: "<description> (<code as %#010x>)" -----

  function HexDigit(d: int): (c: char)
    requires 0 <= d < 16
    ensures HexDigitValue(c) == d
  {
    if d < 10 then ('0' as int + d) as char else ('a' as int + d - 10) as char
  }

  /** The lower-case hexadecimal digits of `n`, with no leading zeros. */
  function Hex(n: nat): (s: string)
    ensures 1 <= |s|
    decreases n
  {
    if n < 16 then [HexDigit(n)] else Hex(n / 16) + [HexDigit(n % 16)]
  }

  /** Reading hexadecimal digits back into a number. */
  function ParseHex(s: string): nat
    decreases |s|
  {
    if s == [] then 0 else ParseHex(s[..|s| - 1]) * 16 + HexDigitValue(s[|s| - 1])
  }

  function HexDigitValue(c: char): nat {
    if '0' <= c <= '9' then c as int - '0' as int
    else if 'a' <= c <= 'f' then c as int - 'a' as int + 10
    else 0
  }

  function Zeros(n: nat): (s: string)
    ensures |s| == n && forall i :: 0 <= i < n ==> s[i] == '0'
  {
    if n == 0 then "" else Zeros(n - 1) + "0"
  }

  /**
   * Python's `format(code, "#010x")`: an optional minus sign, "0x", and the
   * digits zero-padded so that the whole text is at least ten characters.
   */
  function FormatHex010(code: int): (s: string) {
    Padded(if code < 0 then "-" else "", Hex(if code < 0 then -code else code))
  }

  function Padded(sign: string, digits: string): string {
    sign + "0x" + Zeros(PadWidth(|sign|, |digits|)) + digits
  }

  /** How many zeros bring the sign, "0x" and the digits up to ten characters. */
  function PadWidth(signLength: nat, digitCount: nat): nat {
    if signLength + 2 + digitCount < 10 then 10 - (signLength + 2 + digitCount) else 0
  }

  /**
   * `Exception.__str__`: the description, a space, and the code in
   * parentheses.  A code of `None` cannot be formatted, and Python raises
   * TypeError instead of producing a text.
   */
  function StrAsWritten(x: BlpException): (r: Option<string>)
    ensures r.Some? <==> x.errorCode.Some?
  {
    match x.errorCode
    case None => None
    case Some(code) => Some(x.description + " (" + FormatHex010(code) + ")")
  }

  /** The formatting the text evidently intends for every exception: without a code, only the description. */
  function Str(x: BlpException): (r: string)
    ensures x.errorCode.Some? ==> Some(r) == StrAsWritten(x)
    ensures x.errorCode.None? ==> r == x.description
  {
    match x.errorCode
    case None => x.description
    case Some(code) => x.description + " (" + FormatHex010(code) + ")"
  }

  /** `UnsupportedOperationException("Only sequences are supported", None)`, raised by `Element.elements()`, has no text. */
  lemma ElementsExceptionHasNoText()
    ensures StrAsWritten(BlpException(UnsupportedOperation, "Only sequences are supported", None)).None?
    ensures Str(BlpException(UnsupportedOperation, "Only sequences are supported", None)) == "Only sequences are supported"
  {
  }

  lemma {:induction false} HexDigitsRoundTrip(n: nat)
    ensures ParseHex(Hex(n)) == n
    decreases n
  {
    var s := Hex(n);
    if n >= 16 {
      HexDigitsRoundTrip(n / 16);
      assert s == Hex(n / 16) + [HexDigit(n % 16)];
      assert s[..|s| - 1] == Hex(n / 16);
      assert ParseHex(s) == (n / 16) * 16 + n % 16;
    }
  }

  lemma {:induction false} LeadingZerosIgnored(k: nat, s: string)
    ensures ParseHex(Zeros(k) + s) == ParseHex(s)
    decreases |s|
  {
    if s == [] {
      assert Zeros(k) + s == Zeros(k);
      ZerosParseToZero(k);
    } else {
      var t := Zeros(k) + s;
      assert t[..|t| - 1] == Zeros(k) + s[..|s| - 1];
      LeadingZerosIgnored(k, s[..|s| - 1]);
    }
  }

  lemma {:induction false} ZerosParseToZero(k: nat)
    ensures ParseHex(Zeros(k)) == 0
    decreases k
  {
    if k > 0 {
      assert Zeros(k)[..k - 1] == Zeros(k - 1);
      ZerosParseToZero(k - 1);
    }
  }

  /**
   * The code in an exception's text can be read back: after the sign and
   * "0x" come hexadecimal digits whose value is the code's magnitude, and
   * the formatted code is at least ten characters wide.
   */
  lemma FormatHexReadsBack(code: int)
    ensures var s := FormatHex010(code);
            var start := if code < 0 then 3 else 2;
            |s| >= 10 && start <= |s| &&
            (code < 0 ==> s[..3] == "-0x") &&
            (code >= 0 ==> s[..2] == "0x") &&
            ParseHex(s[start..]) == (if code < 0 then -code else code)
  {
    var m: nat := if code < 0 then -code else code;
    var sign := if code < 0 then "-" else "";
    var digits := Hex(m);
    PaddedParts(sign, digits);
    LeadingZerosIgnored(PadWidth(|sign|, |digits|), digits);
    HexDigitsRoundTrip(m);
  }

  lemma PaddedParts(sign: string, digits: string)
    ensures var s := Padded(sign, digits);
            |s| >= 10 && s[..|sign| + 2] == sign + "0x" &&
            s[|sign| + 2..] == Zeros(PadWidth(|sign|, |digits|)) + digits
  {
    var z := Zeros(PadWidth(|sign|, |digits|));
    var s := Padded(sign, digits);
    assert s == (sign + "0x") + (z + digits);
  }
}
