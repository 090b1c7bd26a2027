/**
 * Player-name sanitising (src/utils/sanitize.ts): trim, drop every character
 * other than ASCII letters, digits, whitespace, `-` and `_`, cut to 64
 * characters, trim again, and give up (null) whenever nothing is left.
 */
module Sanitize {
  import opened Wrappers
  import opened Text
  import opened Collections

  /** The database column holds at most this many characters. */
  const MaxNameLength: nat := 64

  /** The characters the pattern `[^a-zA-Z0-9\s\-_]` does not remove. */
  predicate IsNameChar(c: char)
  {
    ('a' <= c <= 'z') || ('A' <= c <= 'Z') || IsDigit(c) || IsJsWhitespace(c) || c == '-' || c == '_'
  }

  /** `s.replace(/[^a-zA-Z0-9\s\-_]/g, "")`. */
  function StripDisallowed(s: string): (r: string)
    ensures |r| <= |s|
    ensures forall i :: 0 <= i < |r| ==> IsNameChar(r[i])
  {
    Filter(s, IsNameChar)
  }

  /** `s.substring(0, n)` when `s` is longer than `n`, else `s`. */
  function Truncate(s: string, n: nat): (r: string)
    ensures |r| <= n && |r| <= |s|
    ensures r == s[..|r|]
    ensures |s| <= n ==> r == s
  {
    if |s| > n then s[..n] else s
  }

  /** What a stored player name looks like. */
  predicate IsValidName(s: string)
  {
    1 <= |s| <= MaxNameLength &&
    (forall i :: 0 <= i < |s| ==> IsNameChar(s[i])) &&
    IsTrimmed(s)
  }

  /**
   * `sanitizePlayerName(input)`: `None` stands for `undefined`/`null` both as
   * input and as result. The empty string is falsy and gives null at once.
   */
  function SanitizePlayerName(input: Option<string>): (r: Option<string>)
    ensures r.Some? ==> IsValidName(r.value)
  {
    if input.None? || input.value == [] then None
    else
      var trimmed := Trim(input.value);
      if |trimmed| == 0 then None
      else
        var sanitized := CleanName(trimmed);
        if |sanitized| == 0 then None else Some(sanitized)
  }

  /** The filter, cut and second trim applied to the trimmed input. */
  function CleanName(trimmed: string): (r: string)
    ensures |r| <= MaxNameLength && IsTrimmed(r)
    ensures forall k :: 0 <= k < |r| ==> IsNameChar(r[k])
  {
    var cut := Truncate(StripDisallowed(trimmed), MaxNameLength);
    TrimWithin(cut);
    Trim(cut)
  }

  /** Trimming a string of name characters gives a shorter, trimmed string of name characters. */
  lemma TrimWithin(s: string)
    requires forall k :: 0 <= k < |s| ==> IsNameChar(s[k])
    ensures |Trim(s)| <= |s|
    ensures IsTrimmed(Trim(s))
    ensures forall k :: 0 <= k < |Trim(s)| ==> IsNameChar(Trim(s)[k])
  {
    var i, j := TrimSlice(s);
    forall k | 0 <= k < |Trim(s)| ensures IsNameChar(Trim(s)[k]) {
      assert Trim(s)[k] == s[i + k];
    }
  }

  /** Missing, empty and whitespace-only input all give null. */
  lemma BlankGivesNull(input: Option<string>)
    requires input.None? || forall k :: 0 <= k < |input.value| ==> IsJsWhitespace(input.value[k])
    ensures SanitizePlayerName(input) == None
  {
    if input.Some? {
      TrimEmpty(input.value);
    }
  }

  /** Input made only of characters the pattern removes gives null. */
  lemma DisallowedGivesNull(s: string)
    requires forall k :: 0 <= k < |s| ==> !IsNameChar(s[k])
    ensures SanitizePlayerName(Some(s)) == None
  {
    if s != [] {
      var i, j := TrimSlice(s);
      var t := Trim(s);
      forall k | 0 <= k < |t| ensures !IsNameChar(t[k]) {
        assert t[k] == s[i + k];
      }
      FilterNone(t, IsNameChar);
    }
  }

  /** A non-null result keeps characters of the trimmed input, in their order. */
  lemma ResultIsSubsequence(s: string)
    requires SanitizePlayerName(Some(s)).Some?
    ensures IsSubsequence(SanitizePlayerName(Some(s)).value, Trim(s))
  {
    var t := Trim(s);
    var f := StripDisallowed(t);
    var cut := Truncate(f, MaxNameLength);
    assert SanitizePlayerName(Some(s)).value == Trim(cut);
    FilterIsSubsequence(t, IsNameChar);
    PrefixIsSubsequence(f, |cut|);
    SubsequenceTrans(cut, f, t);
    var i, j := TrimSlice(cut);
    SliceIsSubsequence(cut, i, j);
    SubsequenceTrans(Trim(cut), cut, t);
  }

  /** The names sanitising leaves unchanged are exactly the valid names. */
  lemma FixedPointsAreValidNames(s: string)
    ensures SanitizePlayerName(Some(s)) == Some(s) <==> IsValidName(s)
  {
    if IsValidName(s) {
      ValidNameKept(s);
    }
  }

  lemma ValidNameKept(s: string)
    requires IsValidName(s)
    ensures SanitizePlayerName(Some(s)) == Some(s)
  {
    ValidNameTrimmed(s);
    ValidNameFiltered(s);
    KeptWhenClean(s);
  }

  lemma ValidNameTrimmed(s: string)
    requires IsValidName(s)
    ensures Trim(s) == s
  {
    TrimOfTrimmed(s);
  }

  lemma ValidNameFiltered(s: string)
    requires IsValidName(s)
    ensures StripDisallowed(s) == s
  {
    FilterAll(s, IsNameChar);
  }

  lemma KeptWhenClean(s: string)
    requires s != [] && |s| <= MaxNameLength
    requires Trim(s) == s && StripDisallowed(s) == s
    ensures SanitizePlayerName(Some(s)) == Some(s)
  {
    assert CleanName(s) == s;
  }

  /** Sanitising a sanitised name returns it unchanged. */
  lemma SanitizeIdempotent(input: Option<string>)
    requires SanitizePlayerName(input).Some?
    ensures SanitizePlayerName(SanitizePlayerName(input)) == SanitizePlayerName(input)
  {
    FixedPointsAreValidNames(SanitizePlayerName(input).value);
  }
}
