/**
 * The summary of a window of daily snapshots: first and last values, the change
 * between them, and the first snapshots reaching the highest and the lowest value.
 */
module History {
  import opened Options
  import opened PortfolioModels

  function Value(s: PortfolioSnapshot): real { s.totalValue }

  /** Dates strictly ascending, as the window query returns them (one snapshot per date). */
  ghost predicate Ascending(snapshots: seq<PortfolioSnapshot>) {
    forall i, j :: 0 <= i < j < |snapshots| ==> snapshots[i].snapshotDate < snapshots[j].snapshotDate
  }

  /**
   * `max(snapshots, key=total_value)`: the index of the highest value, and of its
   * first occurrence, since a later snapshot replaces the running maximum only when
   * it is strictly higher.
   */
  function FirstMaxIndex(snapshots: seq<PortfolioSnapshot>): (k: nat)
    requires |snapshots| > 0
    ensures k < |snapshots|
    ensures forall j :: 0 <= j < |snapshots| ==> Value(snapshots[j]) <= Value(snapshots[k])
    ensures forall j :: 0 <= j < k ==> Value(snapshots[j]) < Value(snapshots[k])
  {
    if |snapshots| == 1 then 0
    else
      var n := |snapshots| - 1;
      var k := FirstMaxIndex(snapshots[..n]);
      if Value(snapshots[n]) > Value(snapshots[k]) then n else k
  }

  /** `min(snapshots, key=total_value)`: the first occurrence of the lowest value. */
  function FirstMinIndex(snapshots: seq<PortfolioSnapshot>): (k: nat)
    requires |snapshots| > 0
    ensures k < |snapshots|
    ensures forall j :: 0 <= j < |snapshots| ==> Value(snapshots[k]) <= Value(snapshots[j])
    ensures forall j :: 0 <= j < k ==> Value(snapshots[k]) < Value(snapshots[j])
  {
    if |snapshots| == 1 then 0
    else
      var n := |snapshots| - 1;
      var k := FirstMinIndex(snapshots[..n]);
      if Value(snapshots[n]) < Value(snapshots[k]) then n else k
  }

  /** The history record built from the window's snapshots (oldest first). */
  function Summarize(snapshots: seq<PortfolioSnapshot>): (h: PortfolioHistory)
    ensures snapshots == [] ==> h == EmptyHistory()
    ensures h.snapshots == snapshots
    ensures snapshots != [] ==>
      var first := snapshots[0];
      var last := snapshots[|snapshots| - 1];
      && h.earliestDate == Some(first.snapshotDate) && h.latestDate == Some(last.snapshotDate)
      && h.startingValue == Some(first.totalValue) && h.currentValue == Some(last.totalValue)
      && h.totalChange == Some(last.totalValue - first.totalValue)
      && h.totalChangePct.Some?
  {
    if snapshots == [] then EmptyHistory()
    else
      var first := snapshots[0];
      var last := snapshots[|snapshots| - 1];
      var high := snapshots[FirstMaxIndex(snapshots)];
      var low := snapshots[FirstMinIndex(snapshots)];
      var change := last.totalValue - first.totalValue;
      PortfolioHistory(
        snapshots, Some(first.snapshotDate), Some(last.snapshotDate), Some(first.totalValue),
        Some(last.totalValue), Some(change), Some(Percent(change, first.totalValue)),
        Some(high.totalValue), Some(high.snapshotDate), Some(low.totalValue), Some(low.snapshotDate))
  }

  /** The change percentage is relative to the starting value, and 0 when that is not positive. */
  lemma {:induction false} SummaryChangePct(snapshots: seq<PortfolioSnapshot>)
    requires snapshots != []
    ensures var h := Summarize(snapshots);
      && (snapshots[0].totalValue > 0.0 ==> h.totalChangePct.value * h.startingValue.value == h.totalChange.value * 100.0)
      && (snapshots[0].totalValue <= 0.0 ==> h.totalChangePct.value == 0.0)
  {
    var first := snapshots[0];
    var last := snapshots[|snapshots| - 1];
    var change := last.totalValue - first.totalValue;
    assert Summarize(snapshots).totalChangePct == Some(Percent(change, first.totalValue));
  }

  /**
   * The high is the highest value of the window, and its date is that of the first
   * snapshot reaching it; on an ascending window, no earlier date has that value.
   */
  lemma {:induction false} SummaryHigh(snapshots: seq<PortfolioSnapshot>)
    requires snapshots != []
    ensures var h := Summarize(snapshots);
      && h.highValue.Some? && h.highDate.Some?
      && (forall s :: s in snapshots ==> s.totalValue <= h.highValue.value)
      && (exists i :: 0 <= i < |snapshots| && snapshots[i].totalValue == h.highValue.value
                      && snapshots[i].snapshotDate == h.highDate.value
                      && forall j :: 0 <= j < i ==> snapshots[j].totalValue < h.highValue.value)
  {
    var k := FirstMaxIndex(snapshots);
    var h := Summarize(snapshots);
    assert h.highValue == Some(snapshots[k].totalValue) && h.highDate == Some(snapshots[k].snapshotDate);
    forall s | s in snapshots ensures s.totalValue <= h.highValue.value {
      var j :| 0 <= j < |snapshots| && snapshots[j] == s;
      assert Value(snapshots[j]) <= Value(snapshots[k]);
    }
    assert forall j :: 0 <= j < k ==> Value(snapshots[j]) < Value(snapshots[k]);
  }

  /** The low is the lowest value of the window, dated by the first snapshot reaching it. */
  lemma {:induction false} SummaryLow(snapshots: seq<PortfolioSnapshot>)
    requires snapshots != []
    ensures var h := Summarize(snapshots);
      && h.lowValue.Some? && h.lowDate.Some?
      && (forall s :: s in snapshots ==> h.lowValue.value <= s.totalValue)
      && (exists i :: 0 <= i < |snapshots| && snapshots[i].totalValue == h.lowValue.value
                      && snapshots[i].snapshotDate == h.lowDate.value
                      && forall j :: 0 <= j < i ==> h.lowValue.value < snapshots[j].totalValue)
  {
    var k := FirstMinIndex(snapshots);
    var h := Summarize(snapshots);
    assert h.lowValue == Some(snapshots[k].totalValue) && h.lowDate == Some(snapshots[k].snapshotDate);
    forall s | s in snapshots ensures h.lowValue.value <= s.totalValue {
      var j :| 0 <= j < |snapshots| && snapshots[j] == s;
      assert Value(snapshots[k]) <= Value(snapshots[j]);
    }
    assert forall j :: 0 <= j < k ==> Value(snapshots[k]) < Value(snapshots[j]);
  }

  /** The window's dates lie between the earliest and the latest date of the summary. */
  lemma {:induction false} SummaryDateRange(snapshots: seq<PortfolioSnapshot>)
    requires snapshots != [] && Ascending(snapshots)
    ensures var h := Summarize(snapshots);
      forall s :: s in snapshots ==> h.earliestDate.value <= s.snapshotDate <= h.latestDate.value
  {
    forall s | s in snapshots
      ensures snapshots[0].snapshotDate <= s.snapshotDate <= snapshots[|snapshots| - 1].snapshotDate
    {
      var j :| 0 <= j < |snapshots| && snapshots[j] == s;
      if 0 < j {
        assert snapshots[0].snapshotDate < snapshots[j].snapshotDate;
      }
      if j < |snapshots| - 1 {
        assert snapshots[j].snapshotDate < snapshots[|snapshots| - 1].snapshotDate;
      }
    }
  }

  /** A window of one snapshot: no change, and that snapshot is both the high and the low. */
  lemma {:induction false} SingleSnapshot(s: PortfolioSnapshot)
    ensures var h := Summarize([s]);
      && h.totalChange == Some(0.0) && h.totalChangePct == Some(0.0)
      && h.highValue == h.lowValue == Some(s.totalValue)
      && h.highDate == h.lowDate == Some(s.snapshotDate)
  {
    assert FirstMaxIndex([s]) == 0 && FirstMinIndex([s]) == 0;
  }
}
