/** The monthly sentiment trend view: the series is cut to the selected
    period and every score below the sentiment threshold becomes a gap. */
module Monthly {
  import opened Period

  /** A chart value: a score, or the gap marker (`null` in the chart data). */
  datatype Option<T> = None | Some(value: T)

  /** A labelled series as the line chart receives it. */
  datatype Series = Series(labels: seq<string>, data: seq<int>)

  /** The derived view: labels and values, one entry per shown month. */
  datatype MonthlyView = MonthlyView(labels: seq<string>, values: seq<Option<int>>)

  /** The fixed source series: six months of sentiment scores. */
  const MonthlyData: Series :=
    Series(["Jan", "Feb", "Mar", "Apr", "May", "Jun"], [45, 59, 80, 81, 56, 23])

  /** `Array.prototype.slice(begin, end)` for non-negative arguments: an end
      past the array is clamped to its length, and a begin at or after the
      (clamped) end gives the empty array. */
  function Slice<T>(s: seq<T>, begin: nat, end: nat): (r: seq<T>)
    ensures |r| == if begin < end && begin < |s| then (if end < |s| then end else |s|) - begin else 0
    ensures forall i :: 0 <= i < |r| ==> r[i] == s[begin + i]
  {
    var stop := if end < |s| then end else |s|;
    if begin < stop then s[begin..stop] else []
  }

  /** `.map(value => value >= threshold ? value : null)`. */
  function Threshold(values: seq<int>, threshold: int): (r: seq<Option<int>>)
    ensures |r| == |values|
    ensures forall i :: 0 <= i < |r| ==> r[i] == if values[i] >= threshold then Some(values[i]) else None
  {
    if values == [] then []
    else [if values[0] >= threshold then Some(values[0]) else None] + Threshold(values[1..], threshold)
  }

  /** `filteredMonthlyData`: both the labels and the scores are sliced to
      the inclusive range, then the scores are thresholded. */
  function FilteredMonthly(series: Series, ix: DateIndices, threshold: int): (v: MonthlyView)
    ensures |series.labels| == |series.data| ==> |v.labels| == |v.values|
    ensures forall i :: 0 <= i < |v.labels| ==>
              ix.start + i <= ix.end && ix.start + i < |series.labels| && v.labels[i] == series.labels[ix.start + i]
    ensures forall i :: 0 <= i < |v.values| ==>
              ix.start + i <= ix.end && ix.start + i < |series.data| &&
              v.values[i] == if series.data[ix.start + i] >= threshold then Some(series.data[ix.start + i]) else None
  {
    MonthlyView(Slice(series.labels, ix.start, ix.end + 1),
                Threshold(Slice(series.data, ix.start, ix.end + 1), threshold))
  }

  /** Every score of the series inside the range `ix` reaches `threshold`. */
  predicate ScoresReach(series: Series, ix: DateIndices, threshold: int)
  {
    forall k :: ix.start <= k <= ix.end && k < |series.data| ==> series.data[k] >= threshold
  }

  /** Every score of the series inside the range `ix` is below `threshold`. */
  predicate ScoresBelow(series: Series, ix: DateIndices, threshold: int)
  {
    forall k :: ix.start <= k <= ix.end && k < |series.data| ==> series.data[k] < threshold
  }

  /** For any period, a series of at least six labels and six scores is cut
      without clamping: the view has one entry per month of the range, its
      labels and values stay aligned, entry `i` is month `start + i`, and a
      score is kept exactly when it reaches the threshold. */
  lemma ViewAligned(series: Series, period: string, threshold: int)
    requires |series.labels| >= SeriesLength && |series.data| >= SeriesLength
    ensures var ix := GetDateIndices(period);
            var v := FilteredMonthly(series, ix, threshold);
            |v.labels| == |v.values| == ix.end - ix.start + 1 &&
            (forall i :: 0 <= i < |v.labels| ==> v.labels[i] == series.labels[ix.start + i]) &&
            (forall i :: 0 <= i < |v.values| ==>
               (v.values[i] == Some(series.data[ix.start + i]) <==> series.data[ix.start + i] >= threshold) &&
               (v.values[i] == None <==> series.data[ix.start + i] < threshold))
  {
  }

  /** A threshold at or below every shown score introduces no gap: the
      values are exactly the sliced scores. */
  lemma NoGapsAtLowThreshold(series: Series, ix: DateIndices, threshold: int)
    requires ScoresReach(series, ix, threshold)
    ensures var v := FilteredMonthly(series, ix, threshold);
            forall i :: 0 <= i < |v.values| ==> v.values[i] == Some(Slice(series.data, ix.start, ix.end + 1)[i])
  {
  }

  /** A threshold above every shown score turns every value into a gap,
      and the number of entries does not change. */
  lemma AllGapsAtHighThreshold(series: Series, ix: DateIndices, threshold: int)
    requires ScoresBelow(series, ix, threshold)
    ensures var v := FilteredMonthly(series, ix, threshold);
            |v.values| == |Slice(series.data, ix.start, ix.end + 1)| &&
            forall i :: 0 <= i < |v.values| ==> v.values[i] == None
  {
  }

  /** On the dashboard's own series: with the slider at 0 no month of any
      period is a gap, and with the slider above 81 (the highest score)
      every month is. */
  lemma MockMonthly(period: string, high: int)
    requires high > 81
    ensures var ix := GetDateIndices(period);
            var low := FilteredMonthly(MonthlyData, ix, 0);
            var top := FilteredMonthly(MonthlyData, ix, high);
            |low.values| == |top.values| == WindowLength(ix) &&
            (forall i :: 0 <= i < |low.values| ==> low.values[i].Some?) &&
            (forall i :: 0 <= i < |top.values| ==> top.values[i] == None)
  {
    var ix := GetDateIndices(period);
    assert ScoresReach(MonthlyData, ix, 0);
    assert ScoresBelow(MonthlyData, ix, high);
    NoGapsAtLowThreshold(MonthlyData, ix, 0);
    AllGapsAtHighThreshold(MonthlyData, ix, high);
    ViewAligned(MonthlyData, period, 0);
  }

  /** On the dashboard's own series, "week" shows only June's score. */
  lemma MockWeek()
    ensures FilteredMonthly(MonthlyData, GetDateIndices("week"), 0) == MonthlyView(["Jun"], [Some(23)])
  {
  }
}
