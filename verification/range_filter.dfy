/**
 The revenue chart's range filter: the selected range tag picks a window of
 3, 6 or 12 periods and the chart shows the trailing part of the revenue
 series that fits in that window, in its original order.
 */
module RangeFilter {
  import opened DashboardTypes

  /** The closed set of range tags "3m", "6m" and "12m". */
  datatype RangeTag = ThreeMonths | SixMonths | TwelveMonths

  /** The range the dashboard selects before the user clicks anything. */
  const DefaultRange: RangeTag := SixMonths

  /** The tag's text, used both as the button caption and as the key of the
      window table. */
  function Label(t: RangeTag): string {
    match t
    case ThreeMonths => "3m"
    case SixMonths => "6m"
    case TwelveMonths => "12m"
  }

  /** The window table `{ "3m": 3, "6m": 6, "12m": 12 }`, keyed by label. */
  const WindowTable: map<string, nat> := map["3m" := 3, "6m" := 6, "12m" := 12]

  /** Number of periods the tag selects: the table entry under its label. */
  function Window(t: RangeTag): (w: nat)
    ensures Label(t) in WindowTable && w == WindowTable[Label(t)]
    ensures w > 0
  {
    match t
    case ThreeMonths => 3
    case SixMonths => 6
    case TwelveMonths => 12
  }

  /** `s.slice(start)` as ECMAScript defines it for one argument: a negative
      start counts back from the end (clamped at 0), a start past the end
      yields the empty sequence. */
  function SliceFrom<T>(s: seq<T>, start: int): (r: seq<T>)
    ensures start >= 0 ==> |r| == |s| - Min(start, |s|)
    ensures start < 0 ==> |r| == Min(-start, |s|)
    ensures forall i :: 0 <= i < |r| ==> r[i] == s[|s| - |r| + i]
  {
    var k := if start < 0 then Max(|s| + start, 0) else Min(start, |s|);
    s[k..]
  }

  /** The series shown on the revenue chart for the selected range. */
  function SlicedRevenue(series: seq<RevenuePoint>, t: RangeTag): (r: seq<RevenuePoint>)
    ensures |r| == Min(Window(t), |series|)
    ensures r == series[|series| - |r|..]
  {
    SliceFrom(series, Max(0, |series| - Window(t)))
  }

  /** The filter never pads and never drops the newest period: a non-empty
      series keeps its last point as the last point shown. */
  lemma SlicedKeepsLatest(series: seq<RevenuePoint>, t: RangeTag)
    requires |series| > 0
    ensures var r := SlicedRevenue(series, t);
      |r| > 0 && r[|r| - 1] == series[|series| - 1]
  {
  }

  /** A series no longer than the window is shown whole, and one that is
      longer is cut to exactly the window. */
  lemma SlicedWholeIffShort(series: seq<RevenuePoint>, t: RangeTag)
    ensures SlicedRevenue(series, t) == series <==> |series| <= Window(t)
    ensures |series| >= Window(t) ==> |SlicedRevenue(series, t)| == Window(t)
  {
  }

  /** Re-applying the same range to the filtered series changes nothing. */
  lemma SlicedIdempotent(series: seq<RevenuePoint>, t: RangeTag)
    ensures SlicedRevenue(SlicedRevenue(series, t), t) == SlicedRevenue(series, t)
  {
  }

  /** A wider range shows a superset of a narrower one: filtering the wider
      result by the narrower range gives the narrower result, so the narrower
      result is a suffix of the wider one. */
  lemma SlicedNested(series: seq<RevenuePoint>, narrow: RangeTag, wide: RangeTag)
    requires Window(narrow) <= Window(wide)
    ensures var n := SlicedRevenue(series, narrow);
      var w := SlicedRevenue(series, wide);
      |n| <= |w| && n == w[|w| - |n|..] && SlicedRevenue(w, narrow) == n
  {
  }
}
