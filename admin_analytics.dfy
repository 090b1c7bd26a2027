/**
 * The pure steps of the admin dashboard (src/services/admin-analytics.service.ts):
 * the zero-guarded accuracy ratios, the peak-hour `reduce` and the per-hour
 * `map`. The rows are what the queries return; `None` stands for SQL NULL.
 */
module AdminAnalytics {
  import opened Wrappers

  /** `Number(x ?? 0)`. */
  function CountValue(v: Option<int>): int
  {
    if v.Some? then v.value else 0
  }

  /** `Number(total ?? 0) > 0 ? Number(correct ?? 0) / Number(total ?? 0) : 0`. */
  function Accuracy(correct: Option<int>, total: Option<int>): (a: real)
    ensures CountValue(total) <= 0 ==> a == 0.0
    ensures CountValue(total) > 0 ==> a * CountValue(total) as real == CountValue(correct) as real
  {
    var t := CountValue(total);
    if t > 0 then CountValue(correct) as real / t as real else 0.0
  }

  /** A ratio of correct answers to answers lies in [0, 1]. */
  lemma AccuracyInUnitInterval(correct: Option<int>, total: Option<int>)
    requires 0 <= CountValue(correct) <= CountValue(total)
    ensures 0.0 <= Accuracy(correct, total) <= 1.0
  {
    var t := CountValue(total);
    if t > 0 {
      RatioAtMostOne(CountValue(correct) as real, t as real);
    }
  }

  lemma RatioAtMostOne(c: real, t: real)
    requires 0.0 <= c <= t && t > 0.0
    ensures 0.0 <= c / t <= 1.0
  {
    assert c / t <= t / t by {
      assert (t - c) / t >= 0.0;
    }
  }

  /** One row of the questions-per-hour query. */
  datatype HourRow = HourRow(hour: int, count: Option<int>)

  /**
   * `curr.count > max.count ? curr : max`: JavaScript compares a NULL count as
   * 0, which is the value `CountValue` gives it.
   */
  function Better(curr: HourRow, best: HourRow): HourRow
  {
    if CountValue(curr.count) > CountValue(best.count) then curr else best
  }

  /**
   * The index of the row `rows[..n].reduce(Better, rows[0])` returns: the
   * first row with the largest count.
   */
  function PeakIndex(rows: seq<HourRow>, n: nat): (k: nat)
    requires 0 < n <= |rows|
    ensures k < n
    ensures forall j :: 0 <= j < n ==> CountValue(rows[j].count) <= CountValue(rows[k].count)
    ensures forall j :: 0 <= j < k ==> CountValue(rows[j].count) < CountValue(rows[k].count)
  {
    if n == 1 then 0
    else
      var k := PeakIndex(rows, n - 1);
      if CountValue(rows[n - 1].count) > CountValue(rows[k].count) then n - 1 else k
  }

  /** The fold over `Better` picks the row at `PeakIndex`. */
  function Reduce(rows: seq<HourRow>, n: nat, init: HourRow): HourRow
    requires n <= |rows|
  {
    if n == 0 then init else Better(rows[n - 1], Reduce(rows, n - 1, init))
  }

  lemma {:induction false} ReduceIsPeak(rows: seq<HourRow>, n: nat)
    requires 0 < n <= |rows|
    ensures Reduce(rows, n, rows[0]) == rows[PeakIndex(rows, n)]
  {
    if n > 1 {
      ReduceIsPeak(rows, n - 1);
    }
  }

  /** `peakHour`: null for no rows, else the hour of the first row with the largest count. */
  function PeakHour(rows: seq<HourRow>): (h: Option<int>)
    ensures h.None? <==> |rows| == 0
  {
    if |rows| > 0 then
      Some(Reduce(rows, |rows|, rows[0]).hour)
    else None
  }

  predicate IsFirstMaximum(rows: seq<HourRow>, k: nat)
    requires k < |rows|
  {
    (forall j :: 0 <= j < |rows| ==> CountValue(rows[j].count) <= CountValue(rows[k].count)) &&
    (forall j :: 0 <= j < k ==> CountValue(rows[j].count) < CountValue(rows[k].count))
  }

  /**
   * The peak hour is the hour of the first row with the largest count: the
   * one row whose count no row exceeds and no earlier row equals.
   */
  lemma PeakHourIsFirstMaximum(rows: seq<HourRow>)
    requires |rows| > 0
    ensures PeakHour(rows) == Some(rows[PeakIndex(rows, |rows|)].hour)
    ensures forall k :: 0 <= k < |rows| ==> (IsFirstMaximum(rows, k) <==> k == PeakIndex(rows, |rows|))
  {
    ReduceIsPeak(rows, |rows|);
  }

  datatype HourCount = HourCount(hour: int, count: int)

  /** `questionsPerHour`: one entry per row, in row order, with NULL counts as 0. */
  function QuestionsPerHour(rows: seq<HourRow>): (r: seq<HourCount>)
    ensures |r| == |rows|
    ensures forall i :: 0 <= i < |rows| ==> r[i] == HourCount(rows[i].hour, CountValue(rows[i].count))
  {
    seq(|rows|, i requires 0 <= i < |rows| => HourCount(rows[i].hour, CountValue(rows[i].count)))
  }

  /** The peak hour's count in `questionsPerHour` is the largest listed there. */
  lemma PeakHourHasLargestListedCount(rows: seq<HourRow>)
    requires |rows| > 0
    ensures var k := PeakIndex(rows, |rows|);
            PeakHour(rows) == Some(QuestionsPerHour(rows)[k].hour) &&
            forall i :: 0 <= i < |rows| ==> QuestionsPerHour(rows)[i].count <= QuestionsPerHour(rows)[k].count
  {
    ReduceIsPeak(rows, |rows|);
  }
}
