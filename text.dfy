/**
 * The Python string operations the binding and its example utilities rely
 * on: `str.split` with a one-character separator (with and without
 * `maxsplit=1`), `str.join`, and the decimal text of an int and
 * `int()` of a text.
 */
module Text {
  import opened Wrappers

  /** The first position of `c` in `s`. */
  function IndexOf(s: string, c: char): (i: nat)
    requires c in s
    ensures i < |s| && s[i] == c && c !in s[..i]
  {
    if s[0] == c then 0
    else
      assert c in s[1..] by {
        var k :| 0 <= k < |s| && s[k] == c;
        assert s[1..][k - 1] == c;
      }
      var i := 1 + IndexOf(s[1..], c);
      assert s[..i] == [s[0]] + s[1..][..i - 1];
      i
  }

  /** `s.split(c)`: the pieces between the occurrences of `c`, empty ones included. */
  function Split(s: string, c: char): (parts: seq<string>)
    ensures |parts| >= 1
    decreases |s|
  {
    if c !in s then [s]
    else
      var i := IndexOf(s, c);
      [s[..i]] + Split(s[i + 1..], c)
  }

  /** `s.split(c, 1)`: at most two pieces, cut at the first `c`. */
  function SplitOnce(s: string, c: char): (parts: seq<string>)
    ensures 1 <= |parts| <= 2
    ensures |parts| == 2 <==> c in s
    ensures |parts| == 1 ==> parts[0] == s
    ensures |parts| == 2 ==> c !in parts[0] && s == parts[0] + [c] + parts[1]
  {
    if c !in s then [s]
    else
      var i := IndexOf(s, c);
      assert s == s[..i] + [c] + s[i + 1..];
      [s[..i], s[i + 1..]]
  }

  /** `sep.join(parts)`. */
  function Join(parts: seq<string>, sep: string): string
    decreases |parts|
  {
    if |parts| == 0 then ""
    else if |parts| == 1 then parts[0]
    else parts[0] + sep + Join(parts[1..], sep)
  }

  /** Splitting and joining back with the same separator gives the text again, and no piece holds the separator. */
  lemma {:induction false} SplitJoin(s: string, c: char)
    ensures Join(Split(s, c), [c]) == s
    ensures forall k :: 0 <= k < |Split(s, c)| ==> c !in Split(s, c)[k]
    decreases |s|
  {
    if c in s {
      var i := IndexOf(s, c);
      var rest := Split(s[i + 1..], c);
      SplitJoin(s[i + 1..], c);
      assert Split(s, c) == [s[..i]] + rest;
      assert Split(s, c)[1..] == rest;
      assert s == s[..i] + [c] + s[i + 1..];
      forall k | 0 <= k < |Split(s, c)|
        ensures c !in Split(s, c)[k]
      {
        if k > 0 {
          assert Split(s, c)[k] == rest[k - 1];
        }
      }
    }
  }

  /** Splitting a text made by joining pieces that do not hold the separator gives those pieces back. */
  lemma {:induction false} JoinSplit(parts: seq<string>, c: char)
    requires |parts| >= 1
    requires forall k :: 0 <= k < |parts| ==> c !in parts[k]
    ensures Split(Join(parts, [c]), c) == parts
    decreases |parts|
  {
    if |parts| > 1 {
      var tail := Join(parts[1..], [c]);
      var s := parts[0] + [c] + tail;
      assert Join(parts, [c]) == s;
      assert s[|parts[0]|] == c;
      assert c in s;
      FirstAfterPrefix(parts[0], c, tail);
      assert s[|parts[0]| + 1..] == tail;
      JoinSplit(parts[1..], c);
      assert s[..|parts[0]|] == parts[0];
    } else {
      assert Join(parts, [c]) == parts[0];
    }
  }

  /** The first separator in `p + [c] + t`, when `p` has none, is the one after `p`. */
  lemma {:induction false} FirstAfterPrefix(p: string, c: char, t: string)
    requires c !in p
    ensures c in p + [c] + t && IndexOf(p + [c] + t, c) == |p|
    decreases |p|
  {
    var s := p + [c] + t;
    assert s[|p|] == c;
    if p != [] {
      assert s[0] == p[0];
      assert s[1..] == p[1..] + [c] + t;
      FirstAfterPrefix(p[1..], c, t);
    }
  }

  /** Cutting at the first separator of a text that has none before it gives back the two sides. */
  lemma SplitOnceAt(p: string, c: char, t: string)
    requires c !in p
    ensures SplitOnce(p + [c] + t, c) == [p, t]
  {
    FirstAfterPrefix(p, c, t);
    var s := p + [c] + t;
    assert s[..|p|] == p && s[|p| + 1..] == t;
  }

  // ----- integers as decimal text -----

  function DigitChar(d: int): (c: char)
    requires 0 <= d < 10
    ensures '0' <= c <= '9' && DigitValue(c) == d
  {
    ('0' as int + d) as char
  }

  function DigitValue(c: char): int { c as int - '0' as int }

  predicate IsDigit(c: char) { '0' <= c <= '9' }

  /** `str(n)` for a natural number: its decimal digits with no leading zeros. */
  function NatToString(n: nat): (s: string)
    ensures |s| >= 1 && forall k :: 0 <= k < |s| ==> IsDigit(s[k])
    decreases n
  {
    if n < 10 then [DigitChar(n)] else NatToString(n / 10) + [DigitChar(n % 10)]
  }

  /** `str(i)` for an int. */
  function IntToString(i: int): string {
    if i < 0 then "-" + NatToString(-i) else NatToString(i)
  }

  /** The value of a run of decimal digits. */
  function DigitsValue(s: string): int
    decreases |s|
  {
    if s == [] then 0 else DigitsValue(s[..|s| - 1]) * 10 + DigitValue(s[|s| - 1])
  }

  predicate IsSpace(c: char) { c == ' ' || c == '\t' || c == '\n' || c == '\r' || c == '\U{b}' || c == '\U{c}' }

  /** `s.strip()` for ASCII white space. */
  function Strip(s: string): (r: string)
    ensures |r| <= |s|
    decreases |s|
  {
    if |s| > 0 && IsSpace(s[0]) then Strip(s[1..])
    else if |s| > 0 && IsSpace(s[|s| - 1]) then Strip(s[..|s| - 1])
    else s
  }

  /** Decimal digits, with single underscores allowed between digits, as Python's integer literals have them. */
  predicate IsDigitRun(s: string)
    decreases |s|
  {
    |s| >= 1 && IsDigit(s[0]) &&
    (|s| == 1 || (if s[1] == '_' then IsDigitRun(s[2..]) else IsDigitRun(s[1..])))
  }

  function DropUnderscores(s: string): (r: string)
    decreases |s|
  {
    if s == [] then []
    else (if s[0] == '_' then [] else [s[0]]) + DropUnderscores(s[1..])
  }

  /**
   * `int(s)` for ASCII text: surrounding white space, an optional sign and
   * decimal digits, with underscores only between digits; None where
   * Python raises ValueError.
   */
  function ParseInt(s: string): (r: Option<int>) {
    var t := Strip(s);
    var negative := |t| > 0 && t[0] == '-';
    var body := if |t| > 0 && (t[0] == '-' || t[0] == '+') then t[1..] else t;
    if !IsDigitRun(body) then None
    else
      var v := DigitsValue(DropUnderscores(body));
      Some(if negative then -v else v)
  }

  lemma {:induction false} NatToStringValue(n: nat)
    ensures DigitsValue(NatToString(n)) == n
    decreases n
  {
    if n >= 10 {
      var s := NatToString(n);
      NatToStringValue(n / 10);
      assert s[..|s| - 1] == NatToString(n / 10);
    }
  }

  /** A non-empty text of digits alone is a digit run and has no underscore to drop. */
  lemma {:induction false} DigitsAreRun(s: string)
    requires |s| >= 1 && forall k :: 0 <= k < |s| ==> IsDigit(s[k])
    ensures IsDigitRun(s) && DropUnderscores(s) == s
    decreases |s|
  {
    if |s| > 1 {
      assert !(s[1] == '_') by { assert IsDigit(s[1]); }
      DigitsAreRun(s[1..]);
    } else {
      assert DropUnderscores(s[1..]) == [];
    }
  }

  lemma StripDigits(s: string)
    requires |s| >= 1 && !IsSpace(s[0]) && !IsSpace(s[|s| - 1])
    ensures Strip(s) == s
  {
  }

  /** The text of a natural number parses back to it. */
  lemma ParseNatToString(n: nat)
    ensures ParseInt(NatToString(n)) == Some(n)
  {
    var s := NatToString(n);
    NatToStringValue(n);
    assert IsDigit(s[0]) && IsDigit(s[|s| - 1]);
    StripDigits(s);
    DigitsAreRun(s);
  }

  /** `int(str(i)) == i`: the decimal text of an int parses back to it. */
  lemma ParseIntToString(i: int)
    ensures ParseInt(IntToString(i)) == Some(i)
  {
    if i >= 0 {
      ParseNatToString(i);
    } else {
      ParseNegativeToString(i);
    }
  }

  lemma ParseNegativeToString(i: int)
    requires i < 0
    ensures ParseInt(IntToString(i)) == Some(i)
  {
    var n := -i;
    assert IntToString(i) == "-" + NatToString(n);
    var digits := NatToString(n);
    ParseNatToString(n);
    assert IsDigit(digits[0]) && IsDigit(digits[|digits| - 1]);
    ParseNegated(digits);
  }

  /** A minus sign before digits negates their value. */
  lemma ParseNegated(digits: string)
    requires |digits| >= 1 && IsDigit(digits[0]) && IsDigit(digits[|digits| - 1])
    requires ParseInt(digits).Some?
    ensures ParseInt("-" + digits) == Some(-ParseInt(digits).value)
  {
    var s := "-" + digits;
    assert s[|s| - 1] == digits[|digits| - 1];
    StripDigits(s);
    StripDigits(digits);
    assert s[1..] == digits;
  }
}
