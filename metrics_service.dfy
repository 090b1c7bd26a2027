/**
 * The request-metrics collector of src/services/metrics.service.ts: a bounded,
 * insertion-ordered list of request records, pruned to a 60-second window on
 * every insert, from which on-demand snapshots (totals, latency statistics,
 * percentiles, per-status and per-endpoint breakdowns) are computed.
 *
 * `Date.now()` is a parameter `now` of every operation that reads the clock.
 */
module MetricsService {
  import opened Collections

  /** The collector keeps at most this many records (`maxMetrics`). */
  const MaxMetrics: nat := 10000

  /** The sliding window, in milliseconds (`windowMs`). */
  const WindowMs: nat := 60000

  /** One completed request, stamped with the time it was recorded. */
  datatype RequestMetric = RequestMetric(
    httpMethod: string,
    path: string,
    statusCode: int,
    durationMs: int,
    timestamp: int)

  datatype EndpointStats = EndpointStats(count: nat, avgResponseTime: real, errors: nat)

  datatype Percentiles = Percentiles(p50: int, p95: int, p99: int)

  datatype MetricsSnapshot = MetricsSnapshot(
    totalRequests: nat,
    totalErrors: nat,
    averageResponseTime: real,
    minResponseTime: int,
    maxResponseTime: int,
    requestsPerSecond: real,
    statusCodes: map<int, nat>,
    endpoints: map<string, EndpointStats>,
    responseTimePercentiles: Percentiles,
    uptime: int,
    timestamp: int)

  // ===========================================================================
  // Pruning done by recordRequest
  // ===========================================================================

  function StampedAfter(cutoff: int): RequestMetric -> bool
  {
    (m: RequestMetric) => m.timestamp > cutoff
  }

  function StampedFrom(start: int): RequestMetric -> bool
  {
    (m: RequestMetric) => m.timestamp >= start
  }

  /** `metrics.filter((m) => m.timestamp > cutoff)`: a strict comparison. */
  function NewerThan(s: seq<RequestMetric>, cutoff: int): seq<RequestMetric>
  {
    Filter(s, StampedAfter(cutoff))
  }

  /** `metrics.slice(-k)` when the list is longer than `k`, else the list itself. */
  function Newest(s: seq<RequestMetric>, k: nat): seq<RequestMetric>
  {
    if |s| > k then s[|s| - k..] else s
  }

  /**
   * The list recordRequest keeps at time `now`, given the list after the
   * push: at most MaxMetrics records, all strictly newer than `now - WindowMs`.
   */
  function Pruned(s: seq<RequestMetric>, now: int): (r: seq<RequestMetric>)
    ensures |r| <= MaxMetrics && |r| <= |s|
    ensures forall i :: 0 <= i < |r| ==> r[i].timestamp > now - WindowMs
  {
    Newest(NewerThan(s, now - WindowMs), MaxMetrics)
  }

  /** Pruning keeps the surviving records in their original relative order. */
  lemma PrunedInOrder(s: seq<RequestMetric>, now: int)
    ensures IsSubsequence(Pruned(s, now), s)
  {
    var f := NewerThan(s, now - WindowMs);
    FilterIsSubsequence(s, StampedAfter(now - WindowMs));
    SuffixIsSubsequence(f, |f| - |Pruned(s, now)|);
    SubsequenceTrans(Pruned(s, now), f, s);
  }

  /**
   * Of the records inside the window, pruning keeps exactly the newest
   * `min(count, MaxMetrics)` of them: a suffix of the in-window records.
   */
  lemma PrunedKeepsNewest(s: seq<RequestMetric>, now: int)
    ensures var f := NewerThan(s, now - WindowMs);
            |Pruned(s, now)| == (if |f| > MaxMetrics then MaxMetrics else |f|) &&
            Pruned(s, now) == f[|f| - |Pruned(s, now)|..]
  {
  }

  /** A record stamped `now` and appended last survives pruning and stays last. */
  lemma {:induction false} PrunedKeepsLast(s: seq<RequestMetric>, m: RequestMetric, now: int)
    requires m.timestamp == now
    ensures |Pruned(s + [m], now)| > 0
    ensures Pruned(s + [m], now)[|Pruned(s + [m], now)| - 1] == m
  {
    var p := StampedAfter(now - WindowMs);
    FilterAppend(s, [m], p);
    assert Filter([m], p) == [m];
    assert NewerThan(s + [m], now - WindowMs) == Filter(s, p) + [m];
  }

  /** The facts recordRequest promises about the list it keeps after a push. */
  lemma PrunedAfterPush(s: seq<RequestMetric>, m: RequestMetric, now: int)
    requires m.timestamp == now
    ensures var p := Pruned(s + [m], now);
            |p| <= MaxMetrics && IsSubsequence(p, s + [m]) &&
            (forall i :: 0 <= i < |p| ==> p[i].timestamp > now - WindowMs) &&
            |p| > 0 && p[|p| - 1] == m
  {
    PrunedInOrder(s + [m], now);
    PrunedKeepsLast(s, m, now);
  }

  // ===========================================================================
  // Specification of getSnapshot
  // ===========================================================================

  /**
   * `metrics.filter((m) => m.timestamp >= windowStart)`: an inclusive
   * comparison. Every record kept is in the window and every record in the
   * window is kept.
   */
  function Recent(s: seq<RequestMetric>, now: int): (r: seq<RequestMetric>)
    ensures IsSubsequence(r, s)
    ensures forall i :: 0 <= i < |r| ==> r[i].timestamp >= now - WindowMs
    ensures forall i :: 0 <= i < |s| && s[i].timestamp >= now - WindowMs ==> s[i] in r
  {
    FilterIsSubsequence(s, StampedFrom(now - WindowMs));
    Filter(s, StampedFrom(now - WindowMs))
  }

  /** Records answered with a 5xx status. */
  function ServerErrors(s: seq<RequestMetric>): seq<RequestMetric>
  {
    Filter(s, (m: RequestMetric) => m.statusCode >= 500)
  }

  function DurationsOf(s: seq<RequestMetric>): (d: seq<int>)
    ensures |d| == |s| && forall i :: 0 <= i < |s| ==> d[i] == s[i].durationMs
  {
    seq(|s|, i requires 0 <= i < |s| => s[i].durationMs)
  }

  /** `${m.method} ${m.path}`: the key requests are grouped under. */
  function EndpointKey(m: RequestMetric): string
  {
    m.httpMethod + " " + m.path
  }

  function StatusOf(m: RequestMetric): int
  {
    m.statusCode
  }

  /** The records with a given status code, in order. */
  function WithStatus(s: seq<RequestMetric>, code: int): seq<RequestMetric>
  {
    Filter(s, KeyIs(StatusOf, code))
  }

  /** The records with a given endpoint key, in order. */
  function WithKey(s: seq<RequestMetric>, key: string): seq<RequestMetric>
  {
    Filter(s, KeyIs(EndpointKey, key))
  }

  /**
   * The `statusCodes` dictionary, built as the source builds it: one record
   * at a time, adding one to the entry of its status (absent counts as 0).
   */
  function StatusTally(s: seq<RequestMetric>): map<int, nat>
  {
    Tally(s, StatusOf)
  }

  /**
   * The `endpointGroups` dictionary, built one record at a time by pushing
   * the record onto the list under its key (created empty when missing).
   */
  function Groups(s: seq<RequestMetric>): (g: map<string, seq<RequestMetric>>)
    ensures forall k :: k in g ==> |g[k]| > 0
  {
    GroupBy(s, EndpointKey)
  }

  /** `Math.round(x * 100) / 100`, computed exactly. */
  function Round2(x: real): real
  {
    ((x * 100.0 + 0.5).Floor as real) / 100.0
  }

  /**
   * `Math.round((count / windowMs) * 1000 * 100) / 100`: requests per second
   * over the window, rounded to hundredths.
   */
  function RequestRate(count: nat): (r: real)
    ensures r >= 0.0
  {
    Round2((count as real / WindowMs as real) * 1000.0)
  }

  /** The statistics of one endpoint group. */
  function StatsOf(g: seq<RequestMetric>): EndpointStats
    requires |g| > 0
  {
    EndpointStats(
      |g|,
      Round2(Sum(DurationsOf(g)) as real / |g| as real),
      |ServerErrors(g)|)
  }

  /** The per-endpoint statistics of the window `s`. */
  function EndpointTable(s: seq<RequestMetric>): map<string, EndpointStats>
  {
    StatsTable(Groups(s))
  }

  /** The statistics of every group of a dictionary of non-empty groups. */
  function StatsTable(g: map<string, seq<RequestMetric>>): (t: map<string, EndpointStats>)
    requires forall k :: k in g ==> |g[k]| > 0
    ensures t.Keys == g.Keys
  {
    map k | k in g :: StatsOf(g[k])
  }

  /** `Math.floor(n * q / 100)`: the rank of the q-th percentile among n sorted values. */
  function PercentileIndex(n: nat, q: nat): nat
  {
    n * q / 100
  }

  /** For a non-empty window the three percentile ranks are ordered and in range. */
  lemma PercentileIndexInRange(n: nat)
    requires n > 0
    ensures PercentileIndex(n, 50) <= PercentileIndex(n, 95) <= PercentileIndex(n, 99) < n
  {
    assert n * 50 <= n * 95 <= n * 99 < n * 100;
    assert PercentileIndex(n, 99) * 100 <= n * 99;
  }

  /** The snapshot reported while the window is empty (getEmptySnapshot). */
  function EmptySnapshot(startTime: int, now: int): (r: MetricsSnapshot)
    ensures IsEmptyReport(r)
    ensures r.uptime == now - startTime && r.timestamp == now
  {
    MetricsSnapshot(0, 0, 0.0, 0, 0, 0.0, map[], map[], Percentiles(0, 0, 0), now - startTime, now)
  }

  /** All counts, durations and percentiles zero; no status codes or endpoints. */
  predicate IsEmptyReport(r: MetricsSnapshot)
  {
    r.totalRequests == 0 && r.totalErrors == 0 &&
    r.averageResponseTime == 0.0 && r.minResponseTime == 0 && r.maxResponseTime == 0 &&
    r.requestsPerSecond == 0.0 &&
    r.statusCodes == map[] && r.endpoints == map[] &&
    r.responseTimePercentiles == Percentiles(0, 0, 0)
  }

  /**
   * What getSnapshot reports for the stored list `metrics` at time `now`: the
   * empty report for an empty window, else the report over the window.
   */
  function SnapshotOf(metrics: seq<RequestMetric>, startTime: int, now: int): (r: MetricsSnapshot)
    ensures r.totalRequests == |Recent(metrics, now)| && r.totalErrors <= r.totalRequests
    ensures r.uptime == now - startTime && r.timestamp == now
    ensures |Recent(metrics, now)| == 0 ==> IsEmptyReport(r)
  {
    var recent := Recent(metrics, now);
    if |recent| == 0 then EmptySnapshot(startTime, now) else WindowReport(recent, startTime, now)
  }

  /** The report over a non-empty window of records. */
  function WindowReport(recent: seq<RequestMetric>, startTime: int, now: int): (r: MetricsSnapshot)
    requires |recent| > 0
    ensures r.totalRequests == |recent| && r.totalErrors <= r.totalRequests
    ensures r.uptime == now - startTime && r.timestamp == now
  {
    var durations := SortNumeric(DurationsOf(recent));
    var n := |durations|;
    PercentileIndexInRange(n);
    MetricsSnapshot(
      |recent|,
      |ServerErrors(recent)|,
      Round2(Sum(durations) as real / n as real),
      durations[0],
      durations[n - 1],
      RequestRate(|recent|),
      StatusTally(recent),
      EndpointTable(recent),
      Percentiles(
        durations[PercentileIndex(n, 50)],
        durations[PercentileIndex(n, 95)],
        durations[PercentileIndex(n, 99)]),
      now - startTime,
      now)
  }

  // ===========================================================================
  // Properties of the snapshot
  // ===========================================================================

  /** An empty window (in particular an empty list, as right after reset) gives the empty report. */
  lemma EmptyWindowSnapshot(metrics: seq<RequestMetric>, startTime: int, now: int)
    requires forall i :: 0 <= i < |metrics| ==> metrics[i].timestamp < now - WindowMs
    ensures IsEmptyReport(SnapshotOf(metrics, startTime, now))
    ensures SnapshotOf(metrics, startTime, now).uptime == now - startTime
  {
    FilterNone(metrics, StampedFrom(now - WindowMs));
  }

  /**
   * The snapshot counts exactly the stored records stamped at or after
   * `now - WindowMs`; older ones are excluded.
   */
  lemma SnapshotCountsWindow(metrics: seq<RequestMetric>, startTime: int, now: int)
    ensures SnapshotOf(metrics, startTime, now).totalRequests == |Recent(metrics, now)|
    ensures forall i :: 0 <= i < |Recent(metrics, now)| ==>
              Recent(metrics, now)[i].timestamp >= now - WindowMs
    ensures forall i :: 0 <= i < |metrics| && metrics[i].timestamp >= now - WindowMs ==>
              metrics[i] in Recent(metrics, now)
    ensures IsSubsequence(Recent(metrics, now), metrics)
  {
    FilterIsSubsequence(metrics, StampedFrom(now - WindowMs));
  }

  /**
   * Everything recordRequest keeps at time `now` is inside the inclusive
   * window getSnapshot uses at the same `now`.
   */
  lemma PrunedIsRecent(s: seq<RequestMetric>, now: int)
    ensures Recent(Pruned(s, now), now) == Pruned(s, now)
  {
    FilterAll(Pruned(s, now), StampedFrom(now - WindowMs));
  }

  /**
   * The ascending sort of a non-empty list of durations: the three percentile
   * picks are ordered between its first and last elements, which are the
   * smallest and largest input values, and the rounded mean lies between them.
   */
  lemma SortedLatency(raw: seq<int>)
    requires |raw| > 0
    ensures var d := SortNumeric(raw);
            var n := |d|;
            PercentileIndex(n, 99) < n &&
            d[0] <= d[PercentileIndex(n, 50)] <= d[PercentileIndex(n, 95)] <=
            d[PercentileIndex(n, 99)] <= d[n - 1]
    ensures var d := SortNumeric(raw);
            (forall i :: 0 <= i < |raw| ==> d[0] <= raw[i] <= d[|d| - 1]) &&
            d[0] in raw && d[|d| - 1] in raw
    ensures var d := SortNumeric(raw);
            d[0] as real <= Round2(Sum(d) as real / |d| as real) <= d[|d| - 1] as real
  {
    var d := SortNumeric(raw);
    var n := |d|;
    SortedPercentiles(d);
    SortedExtremes(raw);
    var mean := Sum(d) as real / n as real;
    assert d[0] as real <= Round2(mean) <= d[n - 1] as real by {
      SortedAverage(d);
    }
  }

  /** In an ascending list the percentile picks are ordered between the ends. */
  lemma SortedPercentiles(d: seq<int>)
    requires |d| > 0 && SortedAscending(d)
    ensures var n := |d|;
            PercentileIndex(n, 99) < n &&
            d[0] <= d[PercentileIndex(n, 50)] <= d[PercentileIndex(n, 95)] <=
            d[PercentileIndex(n, 99)] <= d[n - 1]
  {
    PercentileIndexInRange(|d|);
  }

  /** The ends of the sorted list are the smallest and largest input values. */
  lemma SortedExtremes(raw: seq<int>)
    requires |raw| > 0
    ensures var d := SortNumeric(raw);
            (forall i :: 0 <= i < |raw| ==> d[0] <= raw[i] <= d[|d| - 1]) &&
            d[0] in raw && d[|d| - 1] in raw
  {
    SortedMembers(raw);
    EndsOfSorted(SortNumeric(raw), raw);
  }

  lemma EndsOfSorted(d: seq<int>, raw: seq<int>)
    requires |d| > 0 && SortedAscending(d)
    requires forall x :: x in d <==> x in raw
    ensures forall i :: 0 <= i < |raw| ==> d[0] <= raw[i] <= d[|d| - 1]
    ensures d[0] in raw && d[|d| - 1] in raw
  {
    var n := |d|;
    forall i | 0 <= i < |raw| ensures d[0] <= raw[i] <= d[n - 1] {
      assert raw[i] in raw;
      var j :| 0 <= j < n && d[j] == raw[i];
      assert d[0] <= d[j] && d[j] <= d[n - 1];
    }
    assert d[0] in d && d[n - 1] in d;
  }

  /** The rounded mean of an ascending list lies between its ends. */
  lemma SortedAverage(d: seq<int>)
    requires |d| > 0 && SortedAscending(d)
    ensures d[0] as real <= Round2(Sum(d) as real / |d| as real) <= d[|d| - 1] as real
  {
    SumBounds(d, d[0], d[|d| - 1]);
    AverageBounds(Sum(d), |d|, d[0], d[|d| - 1]);
  }

  /**
   * For a non-empty window: min <= p50 <= p95 <= p99 <= max, min and max are
   * the smallest and largest durations in the window, and the average lies
   * between them.
   */
  lemma SnapshotLatencyOrder(metrics: seq<RequestMetric>, startTime: int, now: int)
    requires |Recent(metrics, now)| > 0
    ensures var r := SnapshotOf(metrics, startTime, now);
            var p := r.responseTimePercentiles;
            r.minResponseTime <= p.p50 <= p.p95 <= p.p99 <= r.maxResponseTime
    ensures var r := SnapshotOf(metrics, startTime, now);
            var recent := Recent(metrics, now);
            (forall i :: 0 <= i < |recent| ==>
               r.minResponseTime <= recent[i].durationMs <= r.maxResponseTime) &&
            r.minResponseTime in DurationsOf(recent) && r.maxResponseTime in DurationsOf(recent)
    ensures var r := SnapshotOf(metrics, startTime, now);
            r.minResponseTime as real <= r.averageResponseTime <= r.maxResponseTime as real
  {
    var recent := Recent(metrics, now);
    var raw := DurationsOf(recent);
    SortedLatency(raw);
    forall i | 0 <= i < |recent| ensures raw[i] == recent[i].durationMs {
    }
  }

  /** A total of n values within [lo, hi], averaged and rounded to hundredths, stays within [lo, hi]. */
  lemma AverageBounds(total: int, n: nat, lo: int, hi: int)
    requires n > 0 && n * lo <= total <= n * hi
    ensures lo as real <= Round2(total as real / n as real) <= hi as real
  {
    MeanBounds(total, n, lo, hi);
    RoundBounds(total as real / n as real, lo, hi);
  }

  lemma MeanBounds(total: int, n: nat, lo: int, hi: int)
    requires n > 0 && n * lo <= total <= n * hi
    ensures lo as real <= total as real / n as real <= hi as real
  {
    var avg := total as real / n as real;
    assert (n * lo) as real <= total as real <= (n * hi) as real;
    assert avg * n as real == total as real;
    assert (lo as real) * (n as real) <= avg * (n as real);
    assert avg * (n as real) <= (hi as real) * (n as real);
  }

  /** Rounding to hundredths keeps a value between two integers. */
  lemma RoundBounds(x: real, lo: int, hi: int)
    requires lo as real <= x <= hi as real
    ensures lo as real <= Round2(x) <= hi as real
  {
    var f := (x * 100.0 + 0.5).Floor;
    assert (100 * lo) as real <= x * 100.0 + 0.5;
    assert 100 * lo <= f;
    assert f <= 100 * hi;
  }

  /** totalErrors counts the 5xx records and never exceeds totalRequests. */
  lemma SnapshotErrors(metrics: seq<RequestMetric>, startTime: int, now: int)
    ensures var r := SnapshotOf(metrics, startTime, now);
            r.totalErrors == |ServerErrors(Recent(metrics, now))| &&
            r.totalErrors <= r.totalRequests
  {
  }

  /**
   * The per-status dictionary: its counts add up to the number of records,
   * each is the number of records with that status, and every status that
   * occurs has an entry.
   */
  lemma StatusBreakdown(s: seq<RequestMetric>)
    ensures MapSum(StatusTally(s)) == |s|
    ensures forall c :: c in StatusTally(s) ==> StatusTally(s)[c] == |WithStatus(s, c)|
    ensures forall i :: 0 <= i < |s| ==> s[i].statusCode in StatusTally(s)
  {
    TallyCounts(s, StatusOf);
  }

  /**
   * The per-endpoint table: each entry's count is the number of records with
   * its key, each endpoint's errors are at most its count, and every key that
   * occurs has an entry.
   */
  lemma EndpointBreakdown(s: seq<RequestMetric>)
    ensures forall k :: k in EndpointTable(s) ==>
              EndpointTable(s)[k].count == |WithKey(s, k)| &&
              EndpointTable(s)[k].errors <= EndpointTable(s)[k].count
    ensures forall i :: 0 <= i < |s| ==> EndpointKey(s[i]) in EndpointTable(s)
  {
    GroupByFilters(s, EndpointKey);
    GroupByKeys(s, EndpointKey);
  }

  /** The per-endpoint counts add up to the number of records. */
  lemma EndpointCountsSum(s: seq<RequestMetric>)
    ensures MapSum(EndpointCounts(EndpointTable(s))) == |s|
  {
    GroupSizesSum(s, EndpointKey);
    CountsAreSizes(Groups(s));
  }

  /** The count column of a statistics table is the size of each group. */
  lemma CountsAreSizes(g: map<string, seq<RequestMetric>>)
    requires forall k :: k in g ==> |g[k]| > 0
    ensures EndpointCounts(StatsTable(g)) == GroupSizes(g)
  {
    var t := StatsTable(g);
    assert EndpointCounts(t).Keys == GroupSizes(g).Keys;
    forall k | k in g ensures EndpointCounts(t)[k] == GroupSizes(g)[k] {
      assert t[k] == StatsOf(g[k]);
    }
  }

  /** The `count` field of each endpoint entry. */
  function EndpointCounts(e: map<string, EndpointStats>): map<string, nat>
  {
    map k | k in e :: e[k].count
  }

  /**
   * In every snapshot the per-status and per-endpoint counts each add up to
   * totalRequests (both are empty for an empty window).
   */
  lemma SnapshotBreakdowns(metrics: seq<RequestMetric>, startTime: int, now: int)
    ensures var r := SnapshotOf(metrics, startTime, now);
            MapSum(r.statusCodes) == r.totalRequests &&
            MapSum(EndpointCounts(r.endpoints)) == r.totalRequests
  {
    var recent := Recent(metrics, now);
    StatusBreakdown(recent);
    EndpointCountsSum(recent);
    if |recent| == 0 {
      assert EndpointCounts(map[]) == map[];
    }
  }

  // ===========================================================================
  // The three forEach loops of getSnapshot
  // ===========================================================================

  /** Counts the records per status code, one record at a time. */
  method CountStatusCodes(recent: seq<RequestMetric>) returns (statusCodes: map<int, nat>)
    ensures statusCodes == StatusTally(recent)
  {
    statusCodes := map[];
    var i := 0;
    while i < |recent|
      invariant 0 <= i <= |recent|
      invariant statusCodes == Tally(recent[..i], StatusOf)
    {
      var m := recent[i];
      assert recent[..i + 1][..i] == recent[..i];
      statusCodes := statusCodes[m.statusCode := (if m.statusCode in statusCodes then statusCodes[m.statusCode] else 0) + 1];
      i := i + 1;
    }
    assert recent[..i] == recent;
  }

  /** Pushes each record onto the list of its `"METHOD path"` key. */
  method GroupByEndpoint(recent: seq<RequestMetric>) returns (endpointGroups: map<string, seq<RequestMetric>>)
    ensures endpointGroups == Groups(recent)
  {
    endpointGroups := map[];
    var i := 0;
    while i < |recent|
      invariant 0 <= i <= |recent|
      invariant endpointGroups == GroupBy(recent[..i], EndpointKey)
    {
      var m := recent[i];
      var key := EndpointKey(m);
      assert recent[..i + 1][..i] == recent[..i];
      if key !in endpointGroups {
        endpointGroups := endpointGroups[key := []];
      }
      endpointGroups := endpointGroups[key := endpointGroups[key] + [m]];
      i := i + 1;
    }
    assert recent[..i] == recent;
  }

  /** Computes count, rounded average and 5xx count for every endpoint group. */
  method EndpointStatistics(endpointGroups: map<string, seq<RequestMetric>>) returns (endpoints: map<string, EndpointStats>)
    requires forall k :: k in endpointGroups ==> |endpointGroups[k]| > 0
    ensures endpoints == StatsTable(endpointGroups)
  {
    endpoints := map[];
    var pending := endpointGroups.Keys;
    while pending != {}
      invariant pending <= endpointGroups.Keys
      invariant endpoints.Keys == endpointGroups.Keys - pending
      invariant forall k :: k in endpoints ==> endpoints[k] == StatsOf(endpointGroups[k])
      decreases pending
    {
      var key :| key in pending;
      endpoints := endpoints[key := StatsOf(endpointGroups[key])];
      pending := pending - {key};
    }
    assert endpoints.Keys == StatsTable(endpointGroups).Keys;
  }

  // ===========================================================================
  // The collector
  // ===========================================================================

  class MetricsCollector {
    /** Stored records, oldest first. */
    var metrics: seq<RequestMetric>
    /** When the collector was created or last reset. */
    var startTime: int

    /** The size bound every operation keeps. */
    ghost predicate Valid()
      reads this
    {
      |metrics| <= MaxMetrics
    }

    constructor(now: int)
      ensures Valid()
      ensures metrics == [] && startTime == now
    {
      metrics := [];
      startTime := now;
    }

    /**
     * recordRequest: stamps the request with `now`, appends it, then drops
     * records not strictly newer than `now - WindowMs` and keeps at most the
     * newest MaxMetrics. What the new list then holds (bounded, in the
     * window, in order, ending with this record) is `PrunedAfterPush`.
     */
    method RecordRequest(httpMethod: string, path: string, statusCode: int, durationMs: int, now: int)
      requires Valid()
      modifies this
      ensures metrics == Pruned(old(metrics) + [RequestMetric(httpMethod, path, statusCode, durationMs, now)], now)
      ensures startTime == old(startTime)
      ensures Valid()
    {
      var fullMetric := RequestMetric(httpMethod, path, statusCode, durationMs, now);
      var pushed := metrics + [fullMetric];
      var cutoff := now - WindowMs;
      var kept := NewerThan(pushed, cutoff);
      if |kept| > MaxMetrics {
        kept := kept[|kept| - MaxMetrics..];
      }
      assert kept == Pruned(pushed, now);
      metrics := kept;
    }

    /**
     * getSnapshot: aggregates the records inside the inclusive window ending
     * at `now`. It has no modifies clause, so it changes neither the list nor
     * the start time.
     */
    method GetSnapshot(now: int) returns (snapshot: MetricsSnapshot)
      requires Valid()
      ensures snapshot == SnapshotOf(metrics, startTime, now)
    {
      var recentMetrics := Recent(metrics, now);
      if |recentMetrics| == 0 {
        return EmptySnapshot(startTime, now);
      }

      var durations := SortNumeric(DurationsOf(recentMetrics));
      var totalRequests := |recentMetrics|;
      var totalErrors := |ServerErrors(recentMetrics)|;

      PercentileIndexInRange(|durations|);
      var p50 := durations[PercentileIndex(|durations|, 50)];
      var p95 := durations[PercentileIndex(|durations|, 95)];
      var p99 := durations[PercentileIndex(|durations|, 99)];

      var statusCodes := CountStatusCodes(recentMetrics);
      var endpointGroups := GroupByEndpoint(recentMetrics);
      var endpoints := EndpointStatistics(endpointGroups);

      var totalDuration := Sum(durations);
      var averageResponseTime := totalDuration as real / |durations| as real;

      snapshot := MetricsSnapshot(
        totalRequests,
        totalErrors,
        Round2(averageResponseTime),
        durations[0],
        durations[|durations| - 1],
        RequestRate(totalRequests),
        statusCodes,
        endpoints,
        Percentiles(p50, p95, p99),
        now - startTime,
        now);
      assert snapshot == WindowReport(recentMetrics, startTime, now);
    }

    /** reset: empties the list and restarts the uptime clock. */
    method Reset(now: int)
      modifies this
      ensures Valid()
      ensures metrics == [] && startTime == now
    {
      metrics := [];
      startTime := now;
    }
  }
}
