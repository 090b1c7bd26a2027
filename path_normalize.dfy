/**
 * The endpoint path normalisation of src/middlewares/metrics.ts: before a
 * request is recorded, every `/` followed by a run of digits is replaced by
 * `/:id` (the global regular expression `/\/\d+/g`), and the result is cut at
 * its first `?`. The normalised path is what the metrics collector groups by.
 */
module PathNormalize {
  import opened Text
  import opened Collections

  /** The length of the run of ASCII digits at the start of `s`. */
  function DigitRunLength(s: string): (n: nat)
    ensures n <= |s|
    ensures forall i :: 0 <= i < n ==> IsDigit(s[i])
    ensures n < |s| ==> !IsDigit(s[n])
  {
    if s != [] && IsDigit(s[0]) then 1 + DigitRunLength(s[1..]) else 0
  }

  /** There is a match of `/\/\d+/` starting at the head of `s`. */
  predicate StartsWithId(s: string)
  {
    |s| >= 2 && s[0] == '/' && IsDigit(s[1])
  }

  /**
   * `path.replace(/\/\d+/g, "/:id")`: scanning left to right, a `/` followed by
   * the longest possible run of digits becomes `/:id`; every other character
   * is copied.
   */
  function ReplaceIds(s: string): (r: string)
    ensures s == [] <==> r == []
    ensures s != [] ==> r[0] == s[0]
    decreases |s|
  {
    if s == [] then []
    else if StartsWithId(s) then
      var n := DigitRunLength(s[1..]);
      "/:id" + ReplaceIds(s[1 + n..])
    else [s[0]] + ReplaceIds(s[1..])
  }

  /** `s.split("?")[0]`: everything before the first `?`, or all of `s`. */
  function CutAtQuery(s: string): (r: string)
    ensures |r| <= |s| && r == s[..|r|]
    ensures '?' !in r
    ensures |r| < |s| ==> s[|r|] == '?'
  {
    if s == [] || s[0] == '?' then [] else [s[0]] + CutAtQuery(s[1..])
  }

  /**
   * The key path recorded for a request path: ids replaced, then the query
   * cut off. A key contains no `?` and no `/` followed by a digit.
   */
  function NormalizePath(path: string): (key: string)
    ensures '?' !in key
    ensures NoIdSegment(key)
  {
    ReplaceIdsLeavesNoId(path);
    CutKeepsNoId(ReplaceIds(path));
    CutAtQuery(ReplaceIds(path))
  }

  /** No `/` in `s` is immediately followed by a digit. */
  predicate NoIdSegment(s: string)
  {
    forall i :: 0 <= i < |s| - 1 ==> !(s[i] == '/' && IsDigit(s[i + 1]))
  }

  // ---------------------------------------------------------------------------
  // The replacement
  // ---------------------------------------------------------------------------

  /** After replacement no `/` is followed by a digit. */
  lemma {:induction false} ReplaceIdsLeavesNoId(s: string)
    ensures NoIdSegment(ReplaceIds(s))
    decreases |s|
  {
    if s != [] {
      if StartsWithId(s) {
        var rest := s[1 + DigitRunLength(s[1..])..];
        ReplaceIdsLeavesNoId(rest);
        ReplaceIdsAtId(s, DigitRunLength(s[1..]), rest);
        assert NoIdSegment("/:id");
        NoIdConcat("/:id", ReplaceIds(rest));
      } else {
        ReplaceIdsLeavesNoId(s[1..]);
        assert ReplaceIds(s) == [s[0]] + ReplaceIds(s[1..]);
        assert s[0] == '/' && s[1..] != [] ==> ReplaceIds(s[1..])[0] == s[1];
        NoIdConcat([s[0]], ReplaceIds(s[1..]));
      }
    }
  }

  /** Two pieces without `/`-digit pairs join into one, unless the join makes one. */
  lemma NoIdConcat(x: string, y: string)
    requires NoIdSegment(x) && NoIdSegment(y)
    requires x != [] && y != [] ==> !(x[|x| - 1] == '/' && IsDigit(y[0]))
    ensures NoIdSegment(x + y)
  {
    var xy := x + y;
    forall i | 0 <= i < |xy| - 1 ensures !(xy[i] == '/' && IsDigit(xy[i + 1])) {
      if i + 1 < |x| {
        assert xy[i] == x[i] && xy[i + 1] == x[i + 1];
      } else if i >= |x| {
        assert xy[i] == y[i - |x|] && xy[i + 1] == y[i + 1 - |x|];
      } else {
        assert xy[i] == x[|x| - 1] && xy[i + 1] == y[0];
      }
    }
  }

  /** A string without any `/`-digit pair is left unchanged by the replacement. */
  lemma {:induction false} ReplaceIdsFixpoint(s: string)
    requires NoIdSegment(s)
    ensures ReplaceIds(s) == s
    decreases |s|
  {
    if s != [] {
      assert !StartsWithId(s);
      assert NoIdSegment(s[1..]) by {
        forall i | 0 <= i < |s[1..]| - 1 ensures !(s[1..][i] == '/' && IsDigit(s[1..][i + 1])) {
          assert s[1..][i] == s[i + 1] && s[1..][i + 1] == s[i + 2];
        }
      }
      ReplaceIdsFixpoint(s[1..]);
    }
  }

  /**
   * The replacement works piece by piece: it distributes over a
   * concatenation whose second part does not start with a digit (so no digit
   * run is split across the join).
   */
  lemma {:induction false} ReplaceIdsAppend(a: string, b: string)
    requires b == [] || !IsDigit(b[0])
    ensures ReplaceIds(a + b) == ReplaceIds(a) + ReplaceIds(b)
    decreases |a|
  {
    if a == [] {
      assert a + b == b;
    } else if StartsWithId(a) {
      var n := DigitRunLength(a[1..]);
      ReplaceIdsAppend(a[1 + n..], b);
      ReplaceIdsAppendId(a, b, n);
    } else {
      ReplaceIdsAppend(a[1..], b);
      ReplaceIdsAppendCopy(a, b);
    }
  }

  /** The step of ReplaceIdsAppend where `a` starts with a match. */
  lemma ReplaceIdsAppendId(a: string, b: string, n: nat)
    requires b == [] || !IsDigit(b[0])
    requires StartsWithId(a) && n == DigitRunLength(a[1..])
    requires ReplaceIds(a[1 + n..] + b) == ReplaceIds(a[1 + n..]) + ReplaceIds(b)
    ensures ReplaceIds(a + b) == ReplaceIds(a) + ReplaceIds(b)
  {
    var ab := a + b;
    assert StartsWithId(ab) by {
      assert ab[0] == a[0] && ab[1] == a[1];
    }
    assert DigitRunLength(ab[1..]) == n by {
      DropAppend(a, b, 1);
      DigitRunAppend(a[1..], b);
    }
    assert ab[1 + n..] == a[1 + n..] + b by {
      DropAppend(a, b, 1 + n);
    }
    var x, y := ReplaceIds(a[1 + n..]), ReplaceIds(b);
    assert ReplaceIds(ab) == "/:id" + (x + y) by {
      ReplaceIdsAtId(ab, n, a[1 + n..] + b);
    }
    assert ReplaceIds(a) == "/:id" + x by {
      ReplaceIdsAtId(a, n, a[1 + n..]);
    }
    calc {
      ReplaceIds(a) + ReplaceIds(b);
      ("/:id" + x) + y;
      { AppendAssoc("/:id", x, y); }
      "/:id" + (x + y);
    }
  }

  /** The step of ReplaceIdsAppend where the head of `a` is copied. */
  lemma ReplaceIdsAppendCopy(a: string, b: string)
    requires b == [] || !IsDigit(b[0])
    requires a != [] && !StartsWithId(a)
    requires ReplaceIds(a[1..] + b) == ReplaceIds(a[1..]) + ReplaceIds(b)
    ensures ReplaceIds(a + b) == ReplaceIds(a) + ReplaceIds(b)
  {
    var ab := a + b;
    assert !StartsWithId(ab) by {
      if |a| == 1 {
        assert ab[1..] == b;
      } else {
        assert ab[1] == a[1];
      }
    }
    DropAppend(a, b, 1);
  }

  lemma {:induction false} DigitRunAppend(a: string, b: string)
    requires b == [] || !IsDigit(b[0])
    ensures DigitRunLength(a + b) == DigitRunLength(a)
    decreases |a|
  {
    if a == [] {
      assert a + b == b;
    } else if IsDigit(a[0]) {
      assert (a + b)[1..] == a[1..] + b;
      DigitRunAppend(a[1..], b);
    }
  }

  /** A `/` followed by a maximal run of digits becomes exactly `/:id`. */
  lemma ReplaceIdsOfId(digits: string, rest: string)
    requires |digits| > 0 && forall i :: 0 <= i < |digits| ==> IsDigit(digits[i])
    requires rest == [] || !IsDigit(rest[0])
    ensures ReplaceIds("/" + digits + rest) == "/:id" + ReplaceIds(rest)
  {
    var s := "/" + digits + rest;
    IdAtHead(digits, rest);
    ReplaceIdsAtId(s, |digits|, rest);
  }

  /** `/` followed by a maximal run of digits is a match that ends where `rest` starts. */
  lemma IdAtHead(digits: string, rest: string)
    requires |digits| > 0 && forall i :: 0 <= i < |digits| ==> IsDigit(digits[i])
    requires rest == [] || !IsDigit(rest[0])
    ensures var s := "/" + digits + rest;
            StartsWithId(s) && DigitRunLength(s[1..]) == |digits| && s[1 + |digits|..] == rest
  {
    var s := "/" + digits + rest;
    assert StartsWithId(s) by {
      assert s[0] == '/' && s[1] == digits[0];
    }
    assert DigitRunLength(s[1..]) == |digits| by {
      assert s[1..] == digits + rest;
      DigitRunAppend(digits, rest);
      DigitRunAll(digits);
    }
    assert s[1 + |digits|..] == rest by {
      assert s == ("/" + digits) + rest;
    }
  }

  /** One step of the replacement at a match. */
  lemma ReplaceIdsAtId(s: string, n: nat, rest: string)
    requires StartsWithId(s) && n == DigitRunLength(s[1..]) && rest == s[1 + n..]
    ensures ReplaceIds(s) == "/:id" + ReplaceIds(rest)
  {
  }

  lemma {:induction false} DigitRunAll(digits: string)
    requires forall i :: 0 <= i < |digits| ==> IsDigit(digits[i])
    ensures DigitRunLength(digits) == |digits|
    decreases |digits|
  {
    if digits != [] {
      DigitRunAll(digits[1..]);
    }
  }

  /**
   * Any two numeric identifiers in the same position give the same key:
   * `pre/<d1>rest` and `pre/<d2>rest` normalise alike.
   */
  lemma IdsAreInterchangeable(pre: string, d1: string, d2: string, rest: string)
    requires |d1| > 0 && forall i :: 0 <= i < |d1| ==> IsDigit(d1[i])
    requires |d2| > 0 && forall i :: 0 <= i < |d2| ==> IsDigit(d2[i])
    requires rest == [] || !IsDigit(rest[0])
    ensures NormalizePath(pre + "/" + d1 + rest) == NormalizePath(pre + "/" + d2 + rest)
  {
    assert pre + "/" + d1 + rest == pre + ("/" + d1 + rest);
    assert pre + "/" + d2 + rest == pre + ("/" + d2 + rest);
    ReplaceIdsAppend(pre, "/" + d1 + rest);
    ReplaceIdsAppend(pre, "/" + d2 + rest);
    ReplaceIdsOfId(d1, rest);
    ReplaceIdsOfId(d2, rest);
  }

  // ---------------------------------------------------------------------------
  // The whole normalisation
  // ---------------------------------------------------------------------------

  /** Cutting at `?` keeps a prefix, so it keeps the absence of `/`-digit pairs. */
  lemma CutKeepsNoId(s: string)
    requires NoIdSegment(s)
    ensures NoIdSegment(CutAtQuery(s))
  {
    var r := CutAtQuery(s);
    forall i | 0 <= i < |r| - 1 ensures !(r[i] == '/' && IsDigit(r[i + 1])) {
      assert r[i] == s[i] && r[i + 1] == s[i + 1];
    }
  }

  /** A string without `?` is not cut. */
  lemma {:induction false} CutWithoutQuery(s: string)
    requires '?' !in s
    ensures CutAtQuery(s) == s
    decreases |s|
  {
    if s != [] {
      assert '?' !in s[1..] by {
        forall i | 0 <= i < |s[1..]| ensures s[1..][i] != '?' {
          assert s[1..][i] == s[i + 1];
        }
      }
      CutWithoutQuery(s[1..]);
    }
  }

  /** A path with no `/`-digit pair and no `?` is its own key. */
  lemma NormalizeUnchanged(path: string)
    requires NoIdSegment(path) && '?' !in path
    ensures NormalizePath(path) == path
  {
    ReplaceIdsFixpoint(path);
    CutWithoutQuery(path);
  }

  /** Normalising a key again changes nothing. */
  lemma NormalizeIdempotent(path: string)
    ensures NormalizePath(NormalizePath(path)) == NormalizePath(path)
  {
    NormalizeUnchanged(NormalizePath(path));
  }

  /** Session summary paths that differ only in their numeric session id share one key. */
  lemma SessionPathsShareKey(d1: string, d2: string)
    requires |d1| > 0 && forall i :: 0 <= i < |d1| ==> IsDigit(d1[i])
    requires |d2| > 0 && forall i :: 0 <= i < |d2| ==> IsDigit(d2[i])
    ensures NormalizePath("/sessions/" + d1 + "/summary") == NormalizePath("/sessions/" + d2 + "/summary")
  {
    IdsAreInterchangeable("/sessions", d1, d2, "/summary");
    assert "/sessions/" + d1 + "/summary" == "/sessions" + "/" + d1 + "/summary";
    assert "/sessions/" + d2 + "/summary" == "/sessions" + "/" + d2 + "/summary";
  }

  /**
   * A path with a single numeric segment: the digits are replaced and the
   * text around them is kept.
   */
  lemma ReplaceOneId(pre: string, d: string, rest: string)
    requires NoIdSegment(pre) && NoIdSegment(rest) && (rest == [] || !IsDigit(rest[0]))
    requires |d| > 0 && forall i :: 0 <= i < |d| ==> IsDigit(d[i])
    ensures ReplaceIds(pre + "/" + d + rest) == pre + "/:id" + rest
  {
    var tail := "/" + d + rest;
    assert pre + "/" + d + rest == pre + tail;
    ReplaceIdsFixpoint(pre);
    ReplaceIdsOfId(d, rest);
    ReplaceIdsFixpoint(rest);
    ReplaceIdsAppend(pre, tail);
    AppendAssoc(pre, "/:id", rest);
  }

  /**
   * The replacement ignores segment boundaries: a digit run followed by
   * letters of the same segment is replaced all the same, so `/12ab` becomes
   * `/:idab`.
   */
  lemma DigitsInsideSegment(d: string, tail: string)
    requires |d| > 0 && forall i :: 0 <= i < |d| ==> IsDigit(d[i])
    requires tail == [] || !IsDigit(tail[0])
    requires NoIdSegment(tail) && '?' !in tail
    ensures NormalizePath("/" + d + tail) == "/:id" + tail
  {
    assert ReplaceIds("/" + d + tail) == "/:id" + tail by {
      ReplaceIdsOfId(d, tail);
      ReplaceIdsFixpoint(tail);
    }
    assert '?' !in "/:id" + tail;
    CutWithoutQuery("/:id" + tail);
  }
}
