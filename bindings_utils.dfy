// The annotation helpers of the stock tools' navigation bindings: the step callback that
// drags the trailing points of an annotation to the cursor (updateNthPoint), and the
// magnet that snaps the cursor to the nearest series point along the x axis
// (attractToPoint).
//
// The cursor's axis coordinates, which the source reads with chart.pointer.getCoordinates,
// are parameters here; series points are flattened into one sequence in series order.

module BindingsUtils {
  import opened Wrappers

  // ---------------------------------------------------------------------------------
  // updateNthPoint
  // ---------------------------------------------------------------------------------

  /** One point of an annotation's typeOptions.points; only x and y are dragged. */
  datatype AnnotationPoint = AnnotationPoint(x: real, y: real, xAxis: int, yAxis: int)

  /** The points after a drag to (x, y): every point from startIndex on sits on the cursor. */
  function Overwritten(points: seq<AnnotationPoint>, startIndex: int, x: real, y: real): (r: seq<AnnotationPoint>)
  {
    if |points| == 0 then []
    else
      var last := |points| - 1;
      var p := points[last];
      Overwritten(points[..last], startIndex, x, y) + [if last >= startIndex then p.(x := x, y := y) else p]
  }

  /**
   * What a drag does to each point: the count is kept, points before startIndex are
   * untouched, and every later point moves to the cursor keeping its axis bindings.
   */
  lemma {:induction false} OverwrittenPointwise(points: seq<AnnotationPoint>, startIndex: int, x: real, y: real)
    ensures |Overwritten(points, startIndex, x, y)| == |points|
    ensures forall i :: 0 <= i < |points| && i < startIndex ==> Overwritten(points, startIndex, x, y)[i] == points[i]
    ensures forall i :: 0 <= i < |points| && i >= startIndex ==>
      Overwritten(points, startIndex, x, y)[i] == AnnotationPoint(x, y, points[i].xAxis, points[i].yAxis)
  {
    if |points| > 0 {
      OverwrittenPointwise(points[..|points| - 1], startIndex, x, y);
    }
  }

  /**
   * Successive mouse moves with the same step: only the latest cursor position matters.
   */
  lemma LatestDragWins(points: seq<AnnotationPoint>, startIndex: int, x0: real, y0: real, x1: real, y1: real)
    ensures Overwritten(Overwritten(points, startIndex, x0, y0), startIndex, x1, y1) == Overwritten(points, startIndex, x1, y1)
  {
    OverwrittenPointwise(points, startIndex, x0, y0);
    OverwrittenPointwise(Overwritten(points, startIndex, x0, y0), startIndex, x1, y1);
    OverwrittenPointwise(points, startIndex, x1, y1);
  }

  /**
   * A later step that starts earlier overrides an earlier step: dragging from index j after
   * dragging from index k >= j gives the same points as dragging from j alone.
   */
  lemma EarlierStartSupersedes(points: seq<AnnotationPoint>, j: int, k: int, x0: real, y0: real, x1: real, y1: real)
    requires j <= k
    ensures Overwritten(Overwritten(points, k, x0, y0), j, x1, y1) == Overwritten(points, j, x1, y1)
  {
    OverwrittenPointwise(points, k, x0, y0);
    OverwrittenPointwise(Overwritten(points, k, x0, y0), j, x1, y1);
    OverwrittenPointwise(points, j, x1, y1);
  }

  /** The callback built by updateNthPoint(startIndex), applied to the annotation's points. */
  method UpdateNthPoint(points: array<AnnotationPoint>, startIndex: int, x: real, y: real)
    modifies points
    ensures points[..] == Overwritten(old(points[..]), startIndex, x, y)
    ensures forall i :: 0 <= i < points.Length && i < startIndex ==> points[i] == old(points[i])
    ensures forall i :: 0 <= i < points.Length && i >= startIndex ==>
      points[i] == AnnotationPoint(x, y, old(points[i]).xAxis, old(points[i]).yAxis)
  {
    ghost var before := points[..];
    OverwrittenPointwise(before, startIndex, x, y);
    for index := 0 to points.Length
      invariant forall i :: 0 <= i < index ==> points[i] == Overwritten(before, startIndex, x, y)[i]
      invariant forall i :: index <= i < points.Length ==> points[i] == before[i]
    {
      if index >= startIndex {
        points[index] := points[index].(x := x, y := y);
      }
    }
  }

  // ---------------------------------------------------------------------------------
  // attractToPoint
  // ---------------------------------------------------------------------------------

  /** Number.MAX_VALUE, the initial distance of the search. */
  const MaxValue: real := 179769313486231570814527423731704356798070567525844996598917476803157260780028538760589558632766878171540458953514382464234321326889464182768467546703537516986049910576551282076245490090389328944075868508455133942304583236903222948165808559332123348274797826204144723168738177180919299881250404026184124858368.0

  /**
   * A series point with what attractToPoint reads of it and of its series; an axis index
   * of None is an undefined `series.xAxis.index`.
   */
  datatype SeriesPoint = SeriesPoint(x: real, y: real, series: nat, xAxisIndex: Option<int>, yAxisIndex: Option<int>)

  /** The object attractToPoint returns. */
  datatype Attraction = Attraction(x: real, y: real, below: bool, series: nat, xAxis: int, yAxis: int)

  /** Math.abs(point.x - x). */
  function Distance(p: SeriesPoint, x: real): (r: real)
    ensures r >= 0.0
    ensures r == p.x - x || r == x - p.x
  {
    if p.x >= x then p.x - x else x - p.x
  }

  /** The answer built from the closest point: below holds iff the cursor is under the point. */
  function AttractionOf(p: SeriesPoint, y: real): (r: Attraction)
    ensures r.below <==> y < p.y
    ensures r.x == p.x && r.y == p.y && r.series == p.series
  {
    Attraction(p.x, p.y, y < p.y, p.series, p.xAxisIndex.GetOr(0), p.yAxisIndex.GetOr(0))
  }

  /**
   * Point k is the one the scan keeps: defined, closer than Number.MAX_VALUE, strictly
   * closer than every defined point before it and no farther than every one after it.
   */
  predicate IsFirstClosest(points: seq<Option<SeriesPoint>>, x: real, k: nat)
  {
    k < |points| && points[k].Some? && Distance(points[k].value, x) < MaxValue &&
    (forall j :: 0 <= j < k && points[j].Some? ==> Distance(points[j].value, x) > Distance(points[k].value, x)) &&
    (forall j :: k < j < |points| && points[j].Some? ==> Distance(points[j].value, x) >= Distance(points[k].value, x))
  }

  /** No defined point is ever picked: the scan ends without a closest point. */
  predicate NothingToAttract(points: seq<Option<SeriesPoint>>, x: real)
  {
    forall j :: 0 <= j < |points| && points[j].Some? ==> Distance(points[j].value, x) >= MaxValue
  }

  /** Ties go to the earliest point, so at most one index is the first closest. */
  lemma FirstClosestUnique(points: seq<Option<SeriesPoint>>, x: real, k1: nat, k2: nat)
    requires IsFirstClosest(points, x, k1) && IsFirstClosest(points, x, k2)
    ensures k1 == k2
  {
  }

  /**
   * The first closest point is a minimiser of the distance over all defined points.
   */
  lemma FirstClosestIsMinimal(points: seq<Option<SeriesPoint>>, x: real, k: nat, j: nat)
    requires IsFirstClosest(points, x, k)
    requires j < |points| && points[j].Some?
    ensures Distance(points[k].value, x) <= Distance(points[j].value, x)
  {
  }

  /**
   * attractToPoint over the flattened points of all series. None stands for the TypeError
   * the source raises when no point was picked (closestPoint stays undefined).
   */
  method AttractToPoint(points: seq<Option<SeriesPoint>>, x: real, y: real) returns (r: Option<Attraction>)
    ensures r.None? <==> NothingToAttract(points, x)
    ensures r.Some? ==> exists k: nat :: IsFirstClosest(points, x, k) && r.value == AttractionOf(points[k].value, y)
  {
    var distX := MaxValue;
    var closestPoint: Option<nat> := None;
    for i := 0 to |points|
      invariant closestPoint.None? ==> distX == MaxValue && NothingToAttract(points[..i], x)
      invariant closestPoint.Some? ==>
        var k := closestPoint.value;
        k < i && points[k].Some? && distX == Distance(points[k].value, x) && distX < MaxValue &&
        (forall j :: 0 <= j < k && points[j].Some? ==> Distance(points[j].value, x) > distX) &&
        (forall j :: k < j < i && points[j].Some? ==> Distance(points[j].value, x) >= distX)
    {
      var point := points[i];
      if point.Some? && distX > Distance(point.value, x) {
        distX := Distance(point.value, x);
        closestPoint := Some(i);
      }
    }
    assert points[..|points|] == points;
    match closestPoint {
      case None =>
        r := None;
      case Some(k) =>
        assert IsFirstClosest(points, x, k);
        r := Some(AttractionOf(points[k].value, y));
    }
  }
}
