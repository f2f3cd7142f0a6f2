/**
 * Matching qpoints against the high-symmetry points: `point_in_list` and
 * the loop of `getFromPMGJson` that marks every qpoint index that matches
 * a labelled high-symmetry point.
 */
module PointMatch {
  import opened PhononTypes

  /** The answer of `point_in_list`: `{found: true, index: i}` or `{found: false}`. */
  datatype Lookup = Found(index: nat) | NotFound

  /** `p` and `q` are the same point up to the tolerance. */
  predicate Near(dist: Metric, p: Point, q: Point)
  {
    dist(p, q) < Tolerance
  }

  /** `i` is the first index of `points` whose point is near `point`. */
  predicate FirstNear(dist: Metric, point: Point, points: seq<Point>, i: int)
  {
    && 0 <= i < |points|
    && Near(dist, point, points[i])
    && forall j :: 0 <= j < i ==> !Near(dist, point, points[j])
  }

  /** Linear scan that returns on the first point within the tolerance. */
  method PointInList(dist: Metric, point: Point, points: seq<Point>) returns (r: Lookup)
    ensures r.Found? ==> FirstNear(dist, point, points, r.index)
    ensures r.NotFound? <==> forall j :: 0 <= j < |points| ==> !Near(dist, point, points[j])
  {
    var i := 0;
    while i < |points|
      invariant 0 <= i <= |points|
      invariant forall j :: 0 <= j < i ==> !Near(dist, point, points[j])
    {
      if dist(point, points[i]) < Tolerance {
        return Found(i);
      }
      i := i + 1;
    }
    return NotFound;
  }

  /**
   * `marks` holds `{nq: label}` for every qpoint that matches a
   * high-symmetry point, and for no other index, labelled by the first
   * matching high-symmetry point.
   */
  ghost predicate HighSymmetryMarks(dist: Metric, qpoints: seq<Point>, hsPoints: seq<Point>, hsLabels: seq<string>,
                                    marks: map<nat, string>)
    requires |hsLabels| == |hsPoints|
  {
    && (forall nq :: nq in marks ==> 0 <= nq < |qpoints|)
    && (forall nq :: 0 <= nq < |qpoints| ==>
          (nq in marks <==> exists i :: 0 <= i < |hsPoints| && Near(dist, qpoints[nq], hsPoints[i])))
    && (forall nq :: nq in marks ==>
          exists i :: FirstNear(dist, qpoints[nq], hsPoints, i) && marks[nq] == hsLabels[i])
  }

  /** The matching loop of `getFromPMGJson` over all qpoints. */
  method MarkHighSymmetry(dist: Metric, qpoints: seq<Point>, hsPoints: seq<Point>, hsLabels: seq<string>)
    returns (marks: map<nat, string>)
    requires |hsLabels| == |hsPoints|
    ensures HighSymmetryMarks(dist, qpoints, hsPoints, hsLabels, marks)
  {
    marks := map[];
    var nq := 0;
    while nq < |qpoints|
      invariant 0 <= nq <= |qpoints|
      invariant forall k :: k in marks ==> 0 <= k < nq
      invariant forall k :: 0 <= k < nq ==>
                  (k in marks <==> exists i :: 0 <= i < |hsPoints| && Near(dist, qpoints[k], hsPoints[i]))
      invariant forall k :: k in marks ==>
                  exists i :: FirstNear(dist, qpoints[k], hsPoints, i) && marks[k] == hsLabels[i]
    {
      var result := PointInList(dist, qpoints[nq], hsPoints);
      if result.Found? {
        marks := marks[nq := hsLabels[result.index]];
      }
      nq := nq + 1;
    }
  }
}
