/**
 * Values shared by every part of the phonon-dispersion loader: points,
 * complex displacement components, half-open index ranges, the keys of the
 * distance-keyed label map, and the two conversion constants.
 */
module PhononTypes {

  /** A 3-vector (Cartesian or reduced); floating point is modelled by `real`. */
  type Point = seq<real>

  /** The value range of the Euclidean distance, which is never negative. */
  type NonNeg = r: real | 0.0 <= r

  /** The Euclidean distance is defined outside the loader; it is passed in as a total function. */
  type Metric = (Point, Point) -> NonNeg

  /** Terahertz to reciprocal centimetres. */
  const Thz2Cm1: real := 33.35641

  /** Visual scale applied to every eigen-displacement component. */
  const EigenScale: real := 200.0

  /** Tolerance under which a qpoint is taken to be a high-symmetry point. */
  const Tolerance: real := 0.0001

  datatype Option<T> = None | Some(value: T)

  /** One `[real, imag]` pair of an eigen-displacement component. */
  datatype Cplx = Cplx(re: real, im: real)

  /** A line break `[start, end)`: one contiguous segment of the qpoint path. */
  datatype Range = Range(start: int, end: int)

  /**
   * A property name of a JavaScript object keyed by a distance: a number,
   * or the name "undefined" that results from reading past the end of the
   * distance list.
   */
  datatype DistKey = Num(d: real) | Undefined

  /**
   * `lb` partitions the indices `[0, n)` into consecutive ranges: it is
   * non-empty, starts at 0, ends at `n`, every range has start <= end and
   * each range starts where the previous one ended.
   */
  predicate Tiles(lb: seq<Range>, n: int)
  {
    && |lb| > 0
    && lb[0].start == 0
    && lb[|lb| - 1].end == n
    && (forall i :: 0 <= i < |lb| ==> lb[i].start <= lb[i].end)
    && (forall i :: 0 < i < |lb| ==> lb[i].start == lb[i - 1].end)
  }

  /** Index `k` lies in range `r`. */
  predicate InRange(r: Range, k: int)
  {
    r.start <= k < r.end
  }

  /**
   * A tiling covers every index of `[0, n)` by exactly one of its ranges.
   */
  lemma {:induction false} TilesPartition(lb: seq<Range>, n: int, k: int)
    requires Tiles(lb, n)
    requires 0 <= k < n
    ensures exists i :: 0 <= i < |lb| && InRange(lb[i], k)
    ensures forall i, j :: 0 <= i < |lb| && 0 <= j < |lb| && InRange(lb[i], k) && InRange(lb[j], k) ==> i == j
  {
    if |lb| == 1 {
      assert InRange(lb[0], k);
    } else {
      var last := |lb| - 1;
      var front := lb[..last];
      assert Tiles(front, lb[last].start);
      if k < lb[last].start {
        TilesPartition(front, lb[last].start, k);
        var i :| 0 <= i < |front| && InRange(front[i], k);
        assert InRange(lb[i], k);
      } else {
        assert InRange(lb[last], k);
      }
      forall i, j | 0 <= i < |lb| && 0 <= j < |lb| && InRange(lb[i], k) && InRange(lb[j], k)
        ensures i == j
      {
        if i < j {
          EndsBelowLater(lb, n, i, j);
        } else if j < i {
          EndsBelowLater(lb, n, j, i);
        }
      }
    }
  }

  /** In a tiling an earlier range ends no later than a later one starts. */
  lemma {:induction false} EndsBelowLater(lb: seq<Range>, n: int, i: int, j: int)
    requires Tiles(lb, n)
    requires 0 <= i < j < |lb|
    ensures lb[i].end <= lb[j].start
    decreases j - i
  {
    if i + 1 < j {
      EndsBelowLater(lb, n, i, j - 1);
    }
  }
}
