/**
 * The pure arithmetic of `getLeaderboard` (src/services/analytics.service.ts):
 * the effective scope, limit and offset, the cache key, rank numbering,
 * `hasMore`, and the read-through use of the leaderboard cache. The database
 * rows, the total and the clock reading are parameters; the cache store is an
 * abstract map and the write the function asks for is returned.
 */
module Leaderboard {
  import opened Wrappers
  import opened Text

  datatype Scope = All | Weekly | Daily

  function ScopeName(scope: Scope): string
  {
    match scope
    case All => "all"
    case Weekly => "weekly"
    case Daily => "daily"
  }

  /** The query parameters; `None` stands for a parameter not given. */
  datatype LeaderboardQuery = LeaderboardQuery(
    scope: Option<Scope>,
    limit: Option<int>,
    offset: Option<int>,
    page: Option<int>)

  const DefaultLimit: int := 20
  const MaxLimit: int := 100
  const CacheTtlMs: int := 60000
  /** The prefix every leaderboard cache key starts with; answers clear it. */
  const KeyPrefix: string := "leaderboard:"

  /** `params.scope ?? "all"`. */
  function EffectiveScope(q: LeaderboardQuery): Scope
  {
    if q.scope.Some? then q.scope.value else All
  }

  /** `Math.min(params.limit ?? 20, 100)`. */
  function EffectiveLimit(q: LeaderboardQuery): (limit: int)
    ensures limit <= MaxLimit
    ensures q.limit.None? ==> limit == DefaultLimit
    ensures q.limit.Some? && q.limit.value <= MaxLimit ==> limit == q.limit.value
    ensures q.limit.Some? && q.limit.value > MaxLimit ==> limit == MaxLimit
  {
    var given := if q.limit.Some? then q.limit.value else DefaultLimit;
    if given < MaxLimit then given else MaxLimit
  }

  /** A positive page wins over an explicit offset; a negative offset is raised to 0. */
  function EffectiveOffset(q: LeaderboardQuery, limit: int): (offset: int)
    ensures q.page.Some? && q.page.value > 0 ==> offset == (q.page.value - 1) * limit
    ensures !(q.page.Some? && q.page.value > 0) && q.offset.Some? ==> offset == Max(0, q.offset.value)
    ensures !(q.page.Some? && q.page.value > 0) && q.offset.None? ==> offset == 0
  {
    if q.page.Some? && q.page.value > 0 then (q.page.value - 1) * limit
    else if q.offset.Some? then Max(0, q.offset.value)
    else 0
  }

  function Max(a: int, b: int): int
  {
    if a < b then b else a
  }

  /** The offset is never negative unless a page is combined with a negative limit. */
  lemma OffsetNonNegative(q: LeaderboardQuery)
    requires EffectiveLimit(q) >= 0
    ensures EffectiveOffset(q, EffectiveLimit(q)) >= 0
  {
  }

  /** Page `p + 1` starts exactly where page `p` ends. */
  lemma PagesAreContiguous(q: LeaderboardQuery, page: int)
    requires page > 0
    ensures EffectiveOffset(q.(page := Some(page + 1)), EffectiveLimit(q)) ==
            EffectiveOffset(q.(page := Some(page)), EffectiveLimit(q)) + EffectiveLimit(q)
  {
  }

  /** `leaderboard:${scope}:${limit}:${offset}`. */
  function CacheKey(scope: Scope, limit: int, offset: int): (key: string)
    ensures KeyPrefix <= key
  {
    KeyPrefix + (ScopeName(scope) + ":" + (IntToString(limit) + ":" + IntToString(offset)))
  }

  predicate NoColon(s: string)
  {
    forall i :: 0 <= i < |s| ==> s[i] != ':'
  }

  /** Joining two colon-free parts with a colon can be undone. */
  lemma SplitAtColon(a: string, b: string, c: string, d: string)
    requires NoColon(a) && NoColon(c)
    requires a + ":" + b == c + ":" + d
    ensures a == c && b == d
  {
    var s := a + ":" + b;
    ColonIndexAfter(a, b);
    ColonIndexAfter(c, d);
    assert a == s[..|a|] == c;
    assert b == s[|a| + 1..] == d;
  }

  /** The position of the first colon, or the length when there is none. */
  function ColonIndex(s: string): (k: nat)
    ensures k <= |s|
  {
    if |s| == 0 || s[0] == ':' then 0 else 1 + ColonIndex(s[1..])
  }

  lemma {:induction false} ColonIndexAfter(a: string, b: string)
    requires NoColon(a)
    ensures ColonIndex(a + ":" + b) == |a|
  {
    if a != [] {
      assert (a + ":" + b)[1..] == a[1..] + ":" + b;
      ColonIndexAfter(a[1..], b);
    }
  }

  lemma ScopeNameNoColon(scope: Scope)
    ensures NoColon(ScopeName(scope))
  {
  }

  lemma NumeralNoColon(n: int)
    ensures NoColon(IntToString(n))
  {
    IntToStringChars(n);
  }

  /** Different (scope, limit, offset) triples never share a cache entry. */
  lemma CacheKeyInjective(s1: Scope, l1: int, o1: int, s2: Scope, l2: int, o2: int)
    requires CacheKey(s1, l1, o1) == CacheKey(s2, l2, o2)
    ensures s1 == s2 && l1 == l2 && o1 == o2
  {
    var rest1 := ScopeName(s1) + ":" + (IntToString(l1) + ":" + IntToString(o1));
    var rest2 := ScopeName(s2) + ":" + (IntToString(l2) + ":" + IntToString(o2));
    assert rest1 == CacheKey(s1, l1, o1)[|KeyPrefix|..];
    assert rest2 == CacheKey(s2, l2, o2)[|KeyPrefix|..];
    ScopeNameNoColon(s1);
    ScopeNameNoColon(s2);
    SplitAtColon(ScopeName(s1), IntToString(l1) + ":" + IntToString(o1),
                 ScopeName(s2), IntToString(l2) + ":" + IntToString(o2));
    assert s1 == s2 by {
      ScopeNameInjective(s1, s2);
    }
    NumeralNoColon(l1);
    NumeralNoColon(l2);
    SplitAtColon(IntToString(l1), IntToString(o1), IntToString(l2), IntToString(o2));
    IntToStringInjective(l1, l2);
    IntToStringInjective(o1, o2);
  }

  lemma ScopeNameInjective(s1: Scope, s2: Scope)
    requires ScopeName(s1) == ScopeName(s2)
    ensures s1 == s2
  {
    assert ScopeName(s1)[0] == ScopeName(s2)[0];
  }

  /** One leaderboard row as the grouped query returns it; `None` is SQL NULL. */
  datatype LeaderRow = LeaderRow(
    playerName: string,
    totalQuestions: Option<int>,
    totalScore: Option<int>,
    accuracy: Option<real>,
    avgTimeMs: Option<real>)

  datatype LeaderEntry = LeaderEntry(
    rank: int,
    playerName: string,
    totalScore: int,
    totalQuestions: int,
    accuracy: real,
    avgTimeMs: Option<real>)

  function OrZero(v: Option<int>): int
  {
    if v.Some? then v.value else 0
  }

  function OrZeroReal(v: Option<real>): real
  {
    if v.Some? then v.value else 0.0
  }

  /** The `rows.map((row, index) => ...)` step for one row. */
  function EntryOf(row: LeaderRow, rank: int): (e: LeaderEntry)
    ensures e.rank == rank && e.playerName == row.playerName
  {
    LeaderEntry(rank, row.playerName, OrZero(row.totalScore), OrZero(row.totalQuestions),
                OrZeroReal(row.accuracy), row.avgTimeMs)
  }

  /** The entries of a page: rank `offset + index + 1`, one per row, in row order. */
  function Entries(rows: seq<LeaderRow>, offset: int): (es: seq<LeaderEntry>)
    ensures |es| == |rows|
    ensures forall i :: 0 <= i < |rows| ==> es[i] == EntryOf(rows[i], offset + i + 1)
  {
    seq(|rows|, i requires 0 <= i < |rows| => EntryOf(rows[i], offset + i + 1))
  }

  /** Ranks start after the offset and rise by one from row to row. */
  lemma RanksAreConsecutive(rows: seq<LeaderRow>, offset: int)
    ensures |rows| > 0 ==> Entries(rows, offset)[0].rank == offset + 1
    ensures forall i :: 0 < i < |rows| ==>
              Entries(rows, offset)[i].rank == Entries(rows, offset)[i - 1].rank + 1
  {
  }

  datatype Pagination = Pagination(limit: int, offset: int, page: Option<int>, total: int, hasMore: bool)

  datatype Leaderboard = Leaderboard(
    scope: Scope,
    updatedAt: string,
    entries: seq<LeaderEntry>,
    pagination: Pagination)

  /** The result object built after a cache miss. */
  function BuildLeaderboard(q: LeaderboardQuery, rows: seq<LeaderRow>, total: int, updatedAt: string): (b: Leaderboard)
    ensures b.scope == EffectiveScope(q)
    ensures b.pagination.limit == EffectiveLimit(q)
    ensures b.pagination.offset == EffectiveOffset(q, EffectiveLimit(q))
    ensures b.pagination.page == q.page && b.pagination.total == total
    ensures b.pagination.hasMore <==> b.pagination.offset + |rows| < total
    ensures b.entries == Entries(rows, b.pagination.offset)
  {
    var limit := EffectiveLimit(q);
    var offset := EffectiveOffset(q, limit);
    var entries := Entries(rows, offset);
    Leaderboard(EffectiveScope(q), updatedAt, entries,
                Pagination(limit, offset, q.page, total, offset + |entries| < total))
  }

  /** A write the function asks of the cache: `set(key, value, ttlMs)`. */
  datatype CacheWrite = CacheWrite(key: string, value: Leaderboard, ttlMs: int)

  datatype LeaderboardResponse = LeaderboardResponse(result: Leaderboard, write: Option<CacheWrite>)

  /** The key a query is cached under. */
  function QueryKey(q: LeaderboardQuery): (key: string)
    ensures KeyPrefix <= key
  {
    var limit := EffectiveLimit(q);
    CacheKey(EffectiveScope(q), limit, EffectiveOffset(q, limit))
  }

  /**
   * `getLeaderboard(params)`: a cached object is returned as it is; otherwise
   * the result is built from the rows and stored under the same key for 60 s.
   */
  function GetLeaderboard(q: LeaderboardQuery, cache: map<string, Leaderboard>,
                          rows: seq<LeaderRow>, total: int, updatedAt: string): (r: LeaderboardResponse)
    ensures QueryKey(q) in cache ==> r.result == cache[QueryKey(q)] && r.write.None?
    ensures QueryKey(q) !in cache ==>
              r.result == BuildLeaderboard(q, rows, total, updatedAt) &&
              r.write == Some(CacheWrite(QueryKey(q), r.result, CacheTtlMs))
  {
    var key := QueryKey(q);
    if key in cache then LeaderboardResponse(cache[key], None)
    else
      var result := BuildLeaderboard(q, rows, total, updatedAt);
      LeaderboardResponse(result, Some(CacheWrite(key, result, CacheTtlMs)))
  }

  /** The cache after a write (expiry is not modelled). */
  function Apply(cache: map<string, Leaderboard>, write: Option<CacheWrite>): map<string, Leaderboard>
  {
    if write.Some? then cache[write.value.key := write.value.value] else cache
  }

  /**
   * Read-through: once a miss has been stored, the same query returns the
   * stored result, whatever the database holds by then, and writes nothing.
   */
  lemma RepeatHitsCache(q: LeaderboardQuery, cache: map<string, Leaderboard>,
                        rows: seq<LeaderRow>, total: int, updatedAt: string,
                        rows': seq<LeaderRow>, total': int, updatedAt': string)
    ensures var first := GetLeaderboard(q, cache, rows, total, updatedAt);
            var second := GetLeaderboard(q, Apply(cache, first.write), rows', total', updatedAt');
            second.result == first.result && second.write.None?
  {
  }

  /**
   * Two queries share a cache key exactly when their effective scope, limit
   * and offset agree, so one never receives another's cached page.
   */
  lemma DistinctQueriesDistinctKeys(q1: LeaderboardQuery, q2: LeaderboardQuery)
    ensures QueryKey(q1) == QueryKey(q2) <==>
              EffectiveScope(q1) == EffectiveScope(q2) &&
              EffectiveLimit(q1) == EffectiveLimit(q2) &&
              EffectiveOffset(q1, EffectiveLimit(q1)) == EffectiveOffset(q2, EffectiveLimit(q2))
  {
    var l1, l2 := EffectiveLimit(q1), EffectiveLimit(q2);
    if QueryKey(q1) == QueryKey(q2) {
      CacheKeyInjective(EffectiveScope(q1), l1, EffectiveOffset(q1, l1),
                        EffectiveScope(q2), l2, EffectiveOffset(q2, l2));
    }
  }
}
