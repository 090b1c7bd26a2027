/**
 * The string operations of JavaScript that the modelled code relies on:
 * `String(n)` for integers, the `\d` and `\s` character classes, and
 * `String.prototype.trim`.
 */
module Text {

  /** The `\d` class of a regular expression without the `u` flag: ASCII digits only. */
  predicate IsDigit(c: char)
  {
    '0' <= c <= '9'
  }

  /**
   * ECMAScript WhiteSpace and LineTerminator code points: the set matched by
   * `\s` and removed by `trim()`.
   */
  predicate IsJsWhitespace(c: char)
  {
    c == '\t' || c == '\n' || c == '\U{000B}' || c == '\U{000C}' || c == '\r' ||
    c == ' ' || c == '\U{00A0}' || c == '\U{1680}' ||
    ('\U{2000}' <= c <= '\U{200A}') ||
    c == '\U{2028}' || c == '\U{2029}' || c == '\U{202F}' || c == '\U{205F}' ||
    c == '\U{3000}' || c == '\U{FEFF}'
  }

  // ---------------------------------------------------------------------------
  // Decimal rendering of integers (String(n) and template literals)
  // ---------------------------------------------------------------------------

  function DigitChar(d: nat): (c: char)
    requires d < 10
    ensures IsDigit(c)
  {
    (('0' as int) + d) as char
  }

  function DigitValue(c: char): nat
    requires IsDigit(c)
  {
    (c as int) - ('0' as int)
  }

  /** The shortest decimal numeral of `n`. */
  function NatToString(n: nat): (s: string)
    ensures |s| > 0
    ensures forall i :: 0 <= i < |s| ==> IsDigit(s[i])
    decreases n
  {
    if n < 10 then [DigitChar(n)] else NatToString(n / 10) + [DigitChar(n % 10)]
  }

  /** `String(n)` for an integer `n`: a minus sign for negatives, then the numeral. */
  function IntToString(n: int): (s: string)
  {
    if n < 0 then "-" + NatToString(-n) else NatToString(n)
  }

  /** The value of a numeral, read left to right. */
  function NumeralValue(s: string): nat
    requires forall i :: 0 <= i < |s| ==> IsDigit(s[i])
  {
    if s == [] then 0 else NumeralValue(s[..|s| - 1]) * 10 + DigitValue(s[|s| - 1])
  }

  lemma {:induction false} NumeralRoundTrip(n: nat)
    ensures NumeralValue(NatToString(n)) == n
    decreases n
  {
    if n >= 10 {
      NumeralRoundTrip(n / 10);
      var s := NatToString(n);
      assert s[..|s| - 1] == NatToString(n / 10);
    }
  }

  /** A rendered integer is non-empty and holds only digits and possibly a leading minus sign. */
  lemma IntToStringChars(n: int)
    ensures |IntToString(n)| > 0
    ensures forall i :: 0 <= i < |IntToString(n)| ==>
              IsDigit(IntToString(n)[i]) || (i == 0 && IntToString(n)[i] == '-')
  {
  }

  /** Different integers render differently. */
  lemma IntToStringInjective(a: int, b: int)
    requires IntToString(a) == IntToString(b)
    ensures a == b
  {
    assert (a < 0) == (IntToString(a)[0] == '-') == (b < 0);
    if a < 0 {
      assert NatToString(-a) == IntToString(a)[1..] == NatToString(-b);
      NumeralRoundTrip(-a);
      NumeralRoundTrip(-b);
    } else {
      NumeralRoundTrip(a);
      NumeralRoundTrip(b);
    }
  }

  // ---------------------------------------------------------------------------
  // trim()
  // ---------------------------------------------------------------------------

  // The trimming functions are stated for any predicate `ws`, so that the
  // proofs about them never unfold the whitespace table.

  /** Drops the leading elements that satisfy `ws`. */
  function TrimStartBy<T>(s: seq<T>, ws: T -> bool): (r: seq<T>)
    ensures |r| <= |s| && r == s[|s| - |r|..]
    ensures r != [] ==> !ws(r[0])
    ensures forall i :: 0 <= i < |s| - |r| ==> ws(s[i])
  {
    if s != [] && ws(s[0]) then TrimStartBy(s[1..], ws) else s
  }

  /** Drops the trailing elements that satisfy `ws`. */
  function TrimEndBy<T>(s: seq<T>, ws: T -> bool): (r: seq<T>)
    ensures |r| <= |s| && r == s[..|r|]
    ensures r != [] ==> !ws(r[|r| - 1])
    ensures forall i :: |r| <= i < |s| ==> ws(s[i])
  {
    if s != [] && ws(s[|s| - 1]) then TrimEndBy(s[..|s| - 1], ws) else s
  }

  function TrimBy<T>(s: seq<T>, ws: T -> bool): seq<T>
  {
    TrimEndBy(TrimStartBy(s, ws), ws)
  }

  predicate IsTrimmedBy<T>(s: seq<T>, ws: T -> bool)
  {
    s == [] || (!ws(s[0]) && !ws(s[|s| - 1]))
  }

  lemma TrimSliceBy<T>(s: seq<T>, ws: T -> bool) returns (i: nat, j: nat)
    ensures i <= j <= |s| && TrimBy(s, ws) == s[i..j]
    ensures IsTrimmedBy(TrimBy(s, ws), ws)
    ensures forall k :: 0 <= k < i ==> ws(s[k])
    ensures forall k :: j <= k < |s| ==> ws(s[k])
  {
    var t := TrimStartBy(s, ws);
    var e := TrimEndBy(t, ws);
    i := |s| - |t|;
    j := i + |e|;
    InnerSlice(s, t, e, ws);
  }

  /** A prefix `e` of a suffix `t` of `s` is a slice of `s`, and what follows it in `t` follows it in `s`. */
  lemma InnerSlice<T>(s: seq<T>, t: seq<T>, e: seq<T>, ws: T -> bool)
    requires |t| <= |s| && t == s[|s| - |t|..]
    requires |e| <= |t| && e == t[..|e|]
    requires t != [] ==> !ws(t[0])
    requires forall k :: |e| <= k < |t| ==> ws(t[k])
    ensures e == s[|s| - |t|..|s| - |t| + |e|]
    ensures e != [] ==> !ws(e[0])
    ensures forall k :: |s| - |t| + |e| <= k < |s| ==> ws(s[k])
  {
    var i := |s| - |t|;
    forall k | i + |e| <= k < |s| ensures ws(s[k]) {
      assert s[k] == t[k - i];
    }
  }

  lemma TrimOfTrimmedBy<T>(s: seq<T>, ws: T -> bool)
    requires IsTrimmedBy(s, ws)
    ensures TrimBy(s, ws) == s
  {
  }

  /** `s.trim()`: removes leading and trailing whitespace. */
  function Trim(s: string): string
  {
    TrimBy(s, IsJsWhitespace)
  }

  /** A string with no whitespace at either end. */
  predicate IsTrimmed(s: string)
  {
    s == [] || (!IsJsWhitespace(s[0]) && !IsJsWhitespace(s[|s| - 1]))
  }

  /**
   * `trim()` keeps a contiguous slice `s[i..j]`, everything outside it is
   * whitespace, and the slice has no whitespace at either end.
   */
  lemma TrimSlice(s: string) returns (i: nat, j: nat)
    ensures i <= j <= |s| && Trim(s) == s[i..j]
    ensures IsTrimmed(Trim(s))
    ensures forall k :: 0 <= k < i ==> IsJsWhitespace(s[k])
    ensures forall k :: j <= k < |s| ==> IsJsWhitespace(s[k])
  {
    i, j := TrimSliceBy(s, IsJsWhitespace);
  }

  /** A string without whitespace at its ends is its own trim. */
  lemma TrimOfTrimmed(s: string)
    requires IsTrimmed(s)
    ensures Trim(s) == s
  {
    TrimOfTrimmedBy(s, IsJsWhitespace);
  }

  /** Trimming twice is trimming once. */
  lemma TrimIdempotent(s: string)
    ensures Trim(Trim(s)) == Trim(s)
  {
    var i, j := TrimSlice(s);
    TrimOfTrimmed(Trim(s));
  }

  /** The trim is empty exactly when the string is all whitespace. */
  lemma TrimEmpty(s: string)
    ensures Trim(s) == [] <==> forall k :: 0 <= k < |s| ==> IsJsWhitespace(s[k])
  {
    var i, j := TrimSlice(s);
    if Trim(s) != [] {
      assert !IsJsWhitespace(s[i]);
    }
  }
}
