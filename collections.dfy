/**
 * Sequence and map helpers shared by the model: the array library calls the
 * source relies on (`filter`, numeric `sort`, summing with `reduce`) and the
 * facts about them the rest of the model needs.
 */
module Collections {

  // ---------------------------------------------------------------------------
  // Subsequences
  // ---------------------------------------------------------------------------

  /** `a` can be obtained from `b` by deleting elements, keeping the order of the rest. */
  ghost predicate IsSubsequence<T>(a: seq<T>, b: seq<T>)
    decreases |b|
  {
    a == [] ||
    (b != [] && ((a[0] == b[0] && IsSubsequence(a[1..], b[1..])) || IsSubsequence(a, b[1..])))
  }

  lemma {:induction false} SubsequenceRefl<T>(a: seq<T>)
    ensures IsSubsequence(a, a)
    decreases |a|
  {
    if a != [] {
      SubsequenceRefl(a[1..]);
    }
  }

  lemma {:induction false} SubsequenceTrans<T>(a: seq<T>, b: seq<T>, c: seq<T>)
    requires IsSubsequence(a, b) && IsSubsequence(b, c)
    ensures IsSubsequence(a, c)
    decreases |c|
  {
    if a == [] {
    } else if IsSubsequence(b, c[1..]) {
      SubsequenceTrans(a, b, c[1..]);
    } else {
      assert b[0] == c[0] && IsSubsequence(b[1..], c[1..]);
      if a[0] == b[0] && IsSubsequence(a[1..], b[1..]) {
        SubsequenceTrans(a[1..], b[1..], c[1..]);
      } else {
        SubsequenceTrans(a, b[1..], c[1..]);
      }
    }
  }

  /** Every suffix of a sequence is a subsequence of it. */
  lemma {:induction false} SuffixIsSubsequence<T>(s: seq<T>, k: nat)
    requires k <= |s|
    ensures IsSubsequence(s[k..], s)
    decreases k
  {
    if k == 0 {
      SubsequenceRefl(s);
    } else {
      SuffixIsSubsequence(s[1..], k - 1);
      assert s[1..][k - 1..] == s[k..];
    }
  }

  /** Every prefix of a sequence is a subsequence of it. */
  lemma {:induction false} PrefixIsSubsequence<T>(s: seq<T>, k: nat)
    requires k <= |s|
    ensures IsSubsequence(s[..k], s)
    decreases |s|
  {
    if k == |s| {
      assert s[..k] == s;
      SubsequenceRefl(s);
    } else if k > 0 {
      PrefixIsSubsequence(s[1..], k - 1);
      assert s[..k][1..] == s[1..][..k - 1];
    }
  }

  /** Every contiguous slice of a sequence is a subsequence of it. */
  lemma SliceIsSubsequence<T>(s: seq<T>, i: nat, j: nat)
    requires i <= j <= |s|
    ensures IsSubsequence(s[i..j], s)
  {
    PrefixIsSubsequence(s[i..], j - i);
    assert s[i..][..j - i] == s[i..j];
    SuffixIsSubsequence(s, i);
    SubsequenceTrans(s[i..j], s[i..], s);
  }

  /** Dropping a prefix of the first part of a concatenation. */
  lemma DropAppend<T>(a: seq<T>, b: seq<T>, k: nat)
    requires k <= |a|
    ensures (a + b)[k..] == a[k..] + b
  {
  }

  lemma AppendAssoc<T>(a: seq<T>, b: seq<T>, c: seq<T>)
    ensures a + (b + c) == (a + b) + c
  {
  }

  // ---------------------------------------------------------------------------
  // Filter (Array.prototype.filter)
  // ---------------------------------------------------------------------------

  /** The elements of `s` satisfying `p`, in their original order. */
  function Filter<T>(s: seq<T>, p: T -> bool): (r: seq<T>)
    ensures |r| <= |s|
    ensures forall i :: 0 <= i < |r| ==> p(r[i]) && r[i] in s
    ensures forall i :: 0 <= i < |s| && p(s[i]) ==> s[i] in r
  {
    if s == [] then []
    else (if p(s[0]) then [s[0]] else []) + Filter(s[1..], p)
  }

  lemma {:induction false} FilterAppend<T>(a: seq<T>, b: seq<T>, p: T -> bool)
    ensures Filter(a + b, p) == Filter(a, p) + Filter(b, p)
    decreases |a|
  {
    if a == [] {
      assert a + b == b;
    } else {
      assert (a + b)[1..] == a[1..] + b;
      FilterAppend(a[1..], b, p);
    }
  }

  lemma {:induction false} FilterIsSubsequence<T>(s: seq<T>, p: T -> bool)
    ensures IsSubsequence(Filter(s, p), s)
    decreases |s|
  {
    if s != [] {
      FilterIsSubsequence(s[1..], p);
      if p(s[0]) {
        assert Filter(s, p) == [s[0]] + Filter(s[1..], p);
        assert Filter(s, p)[1..] == Filter(s[1..], p);
      } else {
        assert Filter(s, p) == Filter(s[1..], p);
      }
    }
  }

  /** Filtering with a predicate every element satisfies changes nothing. */
  lemma {:induction false} FilterAll<T>(s: seq<T>, p: T -> bool)
    requires forall i :: 0 <= i < |s| ==> p(s[i])
    ensures Filter(s, p) == s
    decreases |s|
  {
    if s != [] {
      FilterAll(s[1..], p);
    }
  }

  /** Filtering with a predicate no element satisfies leaves nothing. */
  lemma {:induction false} FilterNone<T>(s: seq<T>, p: T -> bool)
    requires forall i :: 0 <= i < |s| ==> !p(s[i])
    ensures Filter(s, p) == []
    decreases |s|
  {
    if s != [] {
      FilterNone(s[1..], p);
    }
  }

  // ---------------------------------------------------------------------------
  // Sums and numeric sorting
  // ---------------------------------------------------------------------------

  /** `s.reduce((a, b) => a + b, 0)`. */
  function Sum(s: seq<int>): int
  {
    if s == [] then 0 else s[0] + Sum(s[1..])
  }

  /** A sum of values that all lie in [lo, hi] lies in [n*lo, n*hi]. */
  lemma {:induction false} SumBounds(s: seq<int>, lo: int, hi: int)
    requires forall i :: 0 <= i < |s| ==> lo <= s[i] <= hi
    ensures |s| * lo <= Sum(s) <= |s| * hi
    decreases |s|
  {
    if s != [] {
      SumBounds(s[1..], lo, hi);
      assert |s| * lo == lo + (|s| - 1) * lo;
      assert |s| * hi == hi + (|s| - 1) * hi;
    }
  }

  ghost predicate SortedAscending(s: seq<int>)
  {
    forall i, j :: 0 <= i < j < |s| ==> s[i] <= s[j]
  }

  /** Inserts `x` into the ascending sequence `s` before the first larger element. */
  function Insert(x: int, s: seq<int>): (r: seq<int>)
    requires SortedAscending(s)
    ensures |r| == |s| + 1
    ensures r[0] == x || (s != [] && r[0] == s[0])
    ensures SortedAscending(r)
    ensures multiset(r) == multiset(s) + multiset{x}
    decreases |s|
  {
    if s == [] || x <= s[0] then [x] + s
    else
      assert s == [s[0]] + s[1..];
      [s[0]] + Insert(x, s[1..])
  }

  /**
   * `durations.sort((a, b) => a - b)`: the numeric ascending sort of the
   * source, as an insertion sort over values.
   */
  function SortNumeric(s: seq<int>): (r: seq<int>)
    ensures SortedAscending(r)
    ensures multiset(r) == multiset(s)
    ensures |r| == |s|
  {
    if s == [] then []
    else
      assert s == [s[0]] + s[1..];
      Insert(s[0], SortNumeric(s[1..]))
  }

  /** Sorting moves values but never creates or drops any. */
  lemma SortedMembers(s: seq<int>)
    ensures forall x :: x in SortNumeric(s) <==> x in s
  {
    var r := SortNumeric(s);
    forall x ensures x in r <==> x in s {
      assert x in r <==> x in multiset(r);
      assert x in s <==> x in multiset(s);
    }
  }

  // ---------------------------------------------------------------------------
  // Sums over maps (adding up per-key counts)
  // ---------------------------------------------------------------------------

  lemma RemoveKeyCard<K>(m: map<K, nat>, k: K)
    requires k in m
    ensures |m - {k}| == |m| - 1
  {
    assert (m - {k}).Keys == m.Keys - {k};
  }

  /** Some key of a non-empty map. */
  ghost function AnyKey<K>(m: map<K, nat>): (k: K)
    requires |m| > 0
    ensures k in m
  {
    var k :| k in m; k
  }

  /** The sum of all values of a finite map. */
  ghost function MapSum<K>(m: map<K, nat>): nat
    decreases |m|
  {
    if |m| == 0 then 0
    else
      var k := AnyKey(m);
      RemoveKeyCard(m, k);
      m[k] + MapSum(m - {k})
  }

  /** Any key may be peeled off first: the sum does not depend on the choice. */
  lemma {:induction false} MapSumRemove<K>(m: map<K, nat>, k: K)
    requires k in m
    ensures MapSum(m) == m[k] + MapSum(m - {k})
    decreases |m|
  {
    var j := AnyKey(m);
    if j != k {
      RemoveKeyCard(m, j);
      RemoveKeyCard(m, k);
      var mj, mk := m - {j}, m - {k};
      assert k in mj && j in mk;
      assert MapSum(mj) == m[k] + MapSum(mj - {k}) by {
        MapSumRemove(mj, k);
      }
      assert MapSum(mk) == m[j] + MapSum(mk - {j}) by {
        MapSumRemove(mk, j);
      }
      assert mj - {k} == mk - {j} by {
        assert (mj - {k}).Keys == (mk - {j}).Keys;
      }
    }
  }

  /** Adding one to the count of `k` (a fresh key starts at zero) adds one to the total. */
  lemma MapSumIncrement<K>(m: map<K, nat>, k: K)
    ensures MapSum(m[k := (if k in m then m[k] else 0) + 1]) == MapSum(m) + 1
  {
    var m' := m[k := (if k in m then m[k] else 0) + 1];
    MapSumRemove(m', k);
    if k in m {
      MapSumRemove(m, k);
      assert m' - {k} == m - {k};
    } else {
      assert m' - {k} == m;
    }
  }

  // ---------------------------------------------------------------------------
  // Grouping by key (building a dictionary of lists with forEach + push)
  // ---------------------------------------------------------------------------

  /** The predicate "has key `k`" for a key function. */
  function KeyIs<T, K(==)>(key: T -> K, k: K): T -> bool
  {
    (x: T) => key(x) == k
  }

  /**
   * The dictionary built by visiting `s` in order and pushing each element
   * onto the list under its key, creating an empty list for a new key.
   */
  function GroupBy<T, K(==)>(s: seq<T>, key: T -> K): (g: map<K, seq<T>>)
    ensures forall k :: k in g ==> |g[k]| > 0
  {
    if s == [] then map[]
    else
      var g := GroupBy(s[..|s| - 1], key);
      var k := key(s[|s| - 1]);
      g[k := (if k in g then g[k] else []) + [s[|s| - 1]]]
  }

  /** The groups are keyed by exactly the keys that occur in `s`. */
  lemma {:induction false} GroupByKeys<T, K>(s: seq<T>, key: T -> K)
    ensures forall i :: 0 <= i < |s| ==> key(s[i]) in GroupBy(s, key)
    ensures forall k :: k in GroupBy(s, key) ==> exists i :: 0 <= i < |s| && key(s[i]) == k
    decreases |s|
  {
    if s != [] {
      var init, x := s[..|s| - 1], s[|s| - 1];
      GroupByKeys(init, key);
      forall k | k in GroupBy(s, key) ensures exists i :: 0 <= i < |s| && key(s[i]) == k {
        if k != key(x) {
          var i :| 0 <= i < |init| && key(init[i]) == k;
          assert s[i] == init[i];
        } else {
          assert key(s[|s| - 1]) == k;
        }
      }
      forall i | 0 <= i < |s| ensures key(s[i]) in GroupBy(s, key) {
        if i < |init| {
          assert s[i] == init[i];
        }
      }
    }
  }

  /** Each group holds exactly the elements with its key, in their original order. */
  lemma {:induction false} GroupByFilters<T, K>(s: seq<T>, key: T -> K)
    ensures forall k :: k in GroupBy(s, key) ==> GroupBy(s, key)[k] == Filter(s, KeyIs(key, k))
    decreases |s|
  {
    if s != [] {
      var init, x := s[..|s| - 1], s[|s| - 1];
      GroupByFilters(init, key);
      GroupByKeys(init, key);
      assert s == init + [x];
      forall k | k in GroupBy(s, key) ensures GroupBy(s, key)[k] == Filter(s, KeyIs(key, k)) {
        GroupByStep(init, x, key, k);
      }
    }
  }

  lemma GroupByStep<T, K>(init: seq<T>, x: T, key: T -> K, k: K)
    requires forall j :: j in GroupBy(init, key) ==> GroupBy(init, key)[j] == Filter(init, KeyIs(key, j))
    requires forall i :: 0 <= i < |init| ==> key(init[i]) in GroupBy(init, key)
    ensures k in GroupBy(init + [x], key) ==> GroupBy(init + [x], key)[k] == Filter(init + [x], KeyIs(key, k))
  {
    var s := init + [x];
    assert s[..|s| - 1] == init;
    var g := GroupBy(init, key);
    FilterAppend(init, [x], KeyIs(key, k));
    if k == key(x) {
      assert Filter([x], KeyIs(key, k)) == [x];
      if k !in g {
        forall i | 0 <= i < |init| ensures !KeyIs(key, k)(init[i]) {
          assert key(init[i]) in g;
        }
        FilterNone(init, KeyIs(key, k));
      }
    } else {
      assert Filter([x], KeyIs(key, k)) == [];
    }
  }

  /** The size of each group. */
  function GroupSizes<T, K(==)>(g: map<K, seq<T>>): map<K, nat>
  {
    map k | k in g :: |g[k]|
  }

  /** Group sizes add up to the length of the grouped sequence. */
  lemma {:induction false} GroupSizesSum<T, K>(s: seq<T>, key: T -> K)
    ensures MapSum(GroupSizes(GroupBy(s, key))) == |s|
    decreases |s|
  {
    if s != [] {
      var init := s[..|s| - 1];
      GroupSizesSum(init, key);
      var k := key(s[|s| - 1]);
      var before := GroupSizes(GroupBy(init, key));
      GroupSizesStep(s, key);
      MapSumIncrement(before, k);
    }
  }

  /** Visiting one more element adds one to the size of its key's group. */
  lemma GroupSizesStep<T, K>(s: seq<T>, key: T -> K)
    requires s != []
    ensures var before := GroupSizes(GroupBy(s[..|s| - 1], key));
            var k := key(s[|s| - 1]);
            GroupSizes(GroupBy(s, key)) == before[k := (if k in before then before[k] else 0) + 1]
  {
    var x := s[|s| - 1];
    var g0 := GroupBy(s[..|s| - 1], key);
    assert GroupBy(s, key) == g0[key(x) := (if key(x) in g0 then g0[key(x)] else []) + [x]];
    SizesAfterPush(g0, key(x), x);
  }

  /** Pushing onto one list of a dictionary of lists adds one to that list's size. */
  lemma SizesAfterPush<T, K>(g: map<K, seq<T>>, k: K, x: T)
    ensures GroupSizes(g[k := (if k in g then g[k] else []) + [x]]) ==
            GroupSizes(g)[k := (if k in GroupSizes(g) then GroupSizes(g)[k] else 0) + 1]
  {
    var after := GroupSizes(g[k := (if k in g then g[k] else []) + [x]]);
    var expected := GroupSizes(g)[k := (if k in GroupSizes(g) then GroupSizes(g)[k] else 0) + 1];
    assert after.Keys == expected.Keys;
  }

  // ---------------------------------------------------------------------------
  // Counting by key (building a dictionary of counters with forEach)
  // ---------------------------------------------------------------------------

  /**
   * The dictionary built by visiting `s` in order and adding one to the
   * counter of each element's key, a missing counter counting as zero.
   */
  function Tally<T, K(==)>(s: seq<T>, key: T -> K): map<K, nat>
  {
    if s == [] then map[]
    else
      var t := Tally(s[..|s| - 1], key);
      var k := key(s[|s| - 1]);
      t[k := (if k in t then t[k] else 0) + 1]
  }

  /** The counters are the sizes of the groups. */
  lemma {:induction false} TallyIsGroupSizes<T, K>(s: seq<T>, key: T -> K)
    ensures Tally(s, key) == GroupSizes(GroupBy(s, key))
    decreases |s|
  {
    if s != [] {
      TallyIsGroupSizes(s[..|s| - 1], key);
      GroupSizesStep(s, key);
    }
  }

  /**
   * Closed form of a tally: its keys are the keys that occur, each counter is
   * the number of elements with that key, and the counters add up to |s|.
   */
  lemma TallyCounts<T, K>(s: seq<T>, key: T -> K)
    ensures forall k :: k in Tally(s, key) ==> Tally(s, key)[k] == |Filter(s, KeyIs(key, k))|
    ensures forall i :: 0 <= i < |s| ==> key(s[i]) in Tally(s, key)
    ensures MapSum(Tally(s, key)) == |s|
  {
    TallyIsGroupSizes(s, key);
    GroupByFilters(s, key);
    GroupByKeys(s, key);
    GroupSizesSum(s, key);
  }
}
