/**
 * The chart utilities (charts.js): the manager's registry of live charts by
 * canvas id, the fixed colour palette, and the sliding window of the
 * real-time chart.  A chart is reduced to its kind and its data; rendering
 * and options are not part of this model.
 */
module Charts {
  import opened Common

  datatype ChartKind = LineChart | BarChart | PieChart

  /** A live chart: what it draws, its labels and its one data series. */
  datatype Chart = Chart(kind: ChartKind, labels: seq<string>, data: seq<real>)

  /** The twelve colours handed out to the slices of pie and doughnut charts. */
  const Palette: seq<string> := [
    "#00d4ff", "#7c3aed", "#10b981", "#f59e0b",
    "#ef4444", "#3b82f6", "#8b5cf6", "#ec4899",
    "#14b8a6", "#f97316", "#06b6d4", "#a855f7"]

  /**
   * getColorArray: `colors.slice(0, count)`, with the slice's reading of a
   * negative end as counted back from the end of the palette.
   */
  function GetColorArray(count: int): (r: seq<string>)
    ensures count >= 0 ==> |r| == (if count < |Palette| then count else |Palette|)
    ensures count < 0 ==> |r| == (if |Palette| + count < 0 then 0 else |Palette| + count)
    ensures |r| <= |Palette| && r == Palette[..|r|]
  {
    var end := if count < 0 then (if |Palette| + count < 0 then 0 else |Palette| + count)
               else if count < |Palette| then count else |Palette|;
    Palette[..end]
  }

  /** A larger request never gets fewer colours, and the colours it shares with a smaller one are the same. */
  lemma ColorArrayPrefix(a: int, b: int)
    requires 0 <= a <= b
    ensures |GetColorArray(a)| <= |GetColorArray(b)|
    ensures GetColorArray(a) == GetColorArray(b)[..|GetColorArray(a)|]
  {
  }

  /** The registry of live charts, keyed by canvas id. */
  class ChartManager {
    var charts: map<string, Chart>

    constructor ()
      ensures charts == map[]
    {
      charts := map[];
    }

    /**
     * createLineChart, createBarChart and createPieChart: with no canvas of
     * that id nothing happens; otherwise any chart already under the id is
     * destroyed and the new one takes its place.
     */
    method CreateChart(canvasId: string, canvasPresent: bool, chart: Chart) returns (created: Option<Chart>)
      modifies this
      ensures canvasPresent ==> charts == old(charts)[canvasId := chart] && created == Some(chart)
      ensures !canvasPresent ==> charts == old(charts) && created == None
    {
      if !canvasPresent {
        return None;
      }
      if canvasId in charts {
        charts := charts - {canvasId};
      }
      charts := charts[canvasId := chart];
      created := Some(chart);
    }

    /** updateChart: new data for a live chart; an unknown id is ignored. */
    method UpdateChart(canvasId: string, labels: seq<string>, data: seq<real>)
      modifies this
      ensures canvasId in old(charts) ==>
                charts == old(charts)[canvasId := old(charts)[canvasId].(labels := labels, data := data)]
      ensures canvasId !in old(charts) ==> charts == old(charts)
    {
      if canvasId in charts {
        charts := charts[canvasId := charts[canvasId].(labels := labels, data := data)];
      }
    }

    /** destroyChart: the id's entry goes; an unknown id is ignored. */
    method DestroyChart(canvasId: string)
      modifies this
      ensures charts == old(charts) - {canvasId}
    {
      if canvasId in charts {
        charts := charts - {canvasId};
      }
    }
  }

  /**
   * Destroying a chart removes exactly its id: every other entry is kept
   * as it was, and a second destroy changes nothing.
   */
  lemma DestroyRemovesOnlyId(charts: map<string, Chart>, canvasId: string)
    ensures canvasId !in charts - {canvasId}
    ensures forall k :: k in charts && k != canvasId ==> k in charts - {canvasId} && (charts - {canvasId})[k] == charts[k]
    ensures (charts - {canvasId}) - {canvasId} == charts - {canvasId}
  {
  }

  /** Creating and then destroying a chart leaves the registry as destroying alone would. */
  lemma CreateThenDestroy(charts: map<string, Chart>, canvasId: string, chart: Chart)
    ensures charts[canvasId := chart] - {canvasId} == charts - {canvasId}
  {
  }

  // ---------------------------------------------------------------------
  // The real-time window
  // ---------------------------------------------------------------------

  /**
   * One addDataPoint on one array: push x, then drop the oldest entry when
   * the array has grown past maxPoints.
   */
  function Slide<T>(s: seq<T>, x: T, maxPoints: int): (r: seq<T>)
    ensures |s| <= |r| <= |s| + 1
    ensures r == (s + [x])[|s| + 1 - |r|..]
    ensures |r| == |s| + 1 <==> |s| + 1 <= maxPoints
  {
    var pushed := s + [x];
    if |pushed| > maxPoints then pushed[1..] else pushed
  }

  /**
   * The window's promises: the new point is the last one, what stays is the
   * most recent suffix, a window within the limit stays within it, and
   * nothing is dropped before the limit is passed.
   */
  lemma {:induction false} SlideProperties<T>(s: seq<T>, x: T, maxPoints: int)
    ensures maxPoints >= 1 ==> Slide(s, x, maxPoints)[|Slide(s, x, maxPoints)| - 1] == x
    ensures |s| <= maxPoints ==> |Slide(s, x, maxPoints)| <= maxPoints
    ensures |s| < maxPoints ==> Slide(s, x, maxPoints)[..|s|] == s
    ensures |s| >= maxPoints && |s| > 0 ==> Slide(s, x, maxPoints) == s[1..] + [x]
  {
    if |s| >= maxPoints && |s| > 0 {
      assert (s + [x])[1..] == s[1..] + [x];
    }
  }

  /** Two arrays of equal length slide to equal lengths, so labels and data stay paired. */
  lemma SlideKeepsPairing<A, B>(labels: seq<A>, data: seq<B>, newLabel: A, value: B, maxPoints: int)
    requires |labels| == |data|
    ensures |Slide(labels, newLabel, maxPoints)| == |Slide(data, value, maxPoints)|
  {
  }

  /** createRealTimeChart's chart: labels and values arrays and the window size (20 by default). */
  class RealTimeChart {
    var labels: seq<string>
    var data: seq<real>
    const maxDataPoints: int

    constructor (maxDataPoints: int)
      ensures this.maxDataPoints == maxDataPoints && labels == [] && data == []
    {
      this.maxDataPoints := maxDataPoints;
      labels := [];
      data := [];
    }

    /**
     * addDataPoint: push the label and the value, and shift both once the
     * labels are past the window size.  Only the labels' length is compared,
     * so the values follow the same window while the two arrays are paired,
     * as they are from the constructor on.
     */
    method AddDataPoint(newLabel: string, value: real)
      modifies this
      ensures labels == Slide(old(labels), newLabel, maxDataPoints)
      ensures |old(labels)| == |old(data)| ==> data == Slide(old(data), value, maxDataPoints)
      ensures |old(labels)| == |old(data)| ==> |labels| == |data|
    {
      labels := labels + [newLabel];
      data := data + [value];
      if |labels| > maxDataPoints {
        labels := labels[1..];
        data := data[1..];
      }
    }
  }
}
