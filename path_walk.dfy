/**
 * Path reconstruction of `getFromPMGJson`: walking the qpoints from index 1,
 * accumulating the path distance, detecting jumps between two adjacent
 * high-symmetry points with different labels, merging their labels and
 * closing a line break at each jump.
 *
 * The walk is specified in closed form: `Merged` is the label a mark
 * carries once the walk has passed it, and `IsJump` says at which indices
 * the walk takes the jump branch.
 */
module PathWalk {
  import opened PhononTypes

  /**
   * The label at index `k` after the step at `k`: at a jump, the original
   * label at `k`, a bar, and the label at `k - 1` as that step found it,
   * which is itself the result of the step at `k - 1`.
   */
  function Merged(marks: map<nat, string>, k: nat): string
    requires k in marks
  {
    if k >= 1 && k - 1 in marks && marks[k] != Merged(marks, k - 1)
    then marks[k] + "|" + Merged(marks, k - 1)
    else marks[k]
  }

  /** The step at `k` finds both `k` and `k - 1` marked with different labels. */
  predicate IsJump(marks: map<nat, string>, k: nat)
  {
    k >= 1 && k in marks && k - 1 in marks && marks[k] != Merged(marks, k - 1)
  }

  /**
   * The mark update at a jump index `nq`: `nq` takes `label[nq] + "|" +
   * label[nq - 1]`, `nq - 1` is deleted and every other mark is kept.
   */
  function JumpMerge(marks: map<nat, string>, nq: nat): (m: map<nat, string>)
    requires nq >= 1 && nq in marks && nq - 1 in marks
    ensures m.Keys == marks.Keys - {nq - 1}
    ensures m[nq] == marks[nq] + "|" + marks[nq - 1]
    ensures forall k :: k in marks && k != nq && k != nq - 1 ==> m[k] == marks[k]
  {
    marks[nq := marks[nq] + "|" + marks[nq - 1]] - {nq - 1}
  }

  /** The marks after the steps `1 .. nq - 1` of the walk. */
  ghost predicate MarksAt(marks0: map<nat, string>, marks: map<nat, string>, nq: nat)
  {
    && (forall k {:trigger k in marks} :: k in marks <==> k in marks0 && !(k + 1 < nq && IsJump(marks0, k + 1)))
    && (forall k {:trigger marks[k]} :: k in marks && k < nq ==> marks[k] == Merged(marks0, k))
    && (forall k {:trigger marks[k]} :: k in marks && k >= nq ==> marks[k] == marks0[k])
  }

  /** The walk's test at `nq` finds a jump exactly when `IsJump` holds. */
  lemma MarksTest(marks0: map<nat, string>, marks: map<nat, string>, nq: nat)
    requires nq >= 1 && MarksAt(marks0, marks, nq)
    ensures (nq in marks && nq - 1 in marks && marks[nq] != marks[nq - 1]) <==> IsJump(marks0, nq)
  {
  }

  /** The update at a jump keeps `MarksAt` one step on. */
  lemma MarksJump(marks0: map<nat, string>, marks: map<nat, string>, nq: nat)
    requires nq >= 1 && MarksAt(marks0, marks, nq) && IsJump(marks0, nq)
    ensures MarksAt(marks0, JumpMerge(marks, nq), nq + 1)
  {
    var m := JumpMerge(marks, nq);
    assert m[nq] == Merged(marks0, nq);
  }

  /** Away from a jump the marks already satisfy `MarksAt` one step on. */
  lemma MarksKeep(marks0: map<nat, string>, marks: map<nat, string>, nq: nat)
    requires nq >= 1 && MarksAt(marks0, marks, nq) && !IsJump(marks0, nq)
    ensures MarksAt(marks0, marks, nq + 1)
  {
  }

  /**
   * The line breaks closed before step `nq`, with the open segment starting
   * at `nqstart`: together a tiling of `[0, nq)` whose inner boundaries are
   * exactly the jumps below `nq`.
   */
  ghost predicate BreaksAt(marks0: map<nat, string>, lb: seq<Range>, nqstart: int, nq: nat)
  {
    && 0 <= nqstart < nq
    && (nq == 1 ==> lb == [] && nqstart == 0)
    && Tiles(lb + [Range(nqstart, nq)], nq)
    && (forall i :: 0 <= i < |lb| ==> lb[i].start < lb[i].end)
    && (forall i :: 0 <= i < |lb| ==> lb[i].end >= 1 && IsJump(marks0, lb[i].end))
    && (forall k :: 1 <= k < nq && IsJump(marks0, k) ==> exists i :: 0 <= i < |lb| && lb[i].end == k)
  }

  /** A jump closes the open segment and opens one at `nq`; any other step extends it. */
  lemma BreaksStep(marks0: map<nat, string>, lb: seq<Range>, nqstart: int, nq: nat)
    requires nq >= 1 && BreaksAt(marks0, lb, nqstart, nq)
    ensures IsJump(marks0, nq) ==> BreaksAt(marks0, lb + [Range(nqstart, nq)], nq, nq + 1)
    ensures !IsJump(marks0, nq) ==> BreaksAt(marks0, lb, nqstart, nq + 1)
  {
    var lb' := lb + [Range(nqstart, nq)];
    assert forall i :: 0 <= i < |lb| ==> lb'[i] == lb[i];
    if IsJump(marks0, nq) {
      assert lb'[|lb|].end == nq;
      assert (lb' + [Range(nq, nq + 1)])[..|lb'|] == lb';
    } else {
      var t := lb + [Range(nqstart, nq + 1)];
      assert forall i :: 0 <= i < |lb| ==> t[i] == lb[i];
    }
  }

  /**
   * What the step at `k` adds to the running distance: nothing at a jump,
   * the distance between the qpoints `k - 1` and `k` otherwise.
   */
  function StepLength(dist: Metric, kpoints: seq<Point>, marks0: map<nat, string>, k: nat): NonNeg
    requires 1 <= k < |kpoints|
  {
    if IsJump(marks0, k) then 0.0 else dist(kpoints[k - 1], kpoints[k])
  }

  /** The distances of the steps `1 .. nq - 1`. */
  ghost predicate DistancesAt(dist: Metric, kpoints: seq<Point>, marks0: map<nat, string>, distances: seq<real>, nq: nat)
  {
    && (nq <= |kpoints| || nq == 1)
    && |distances| == nq >= 1
    && distances[0] == 0.0
    && (forall k {:trigger StepLength(dist, kpoints, marks0, k)} :: 1 <= k < nq ==>
          distances[k] == distances[k - 1] + StepLength(dist, kpoints, marks0, k))
    && (forall i, j :: 0 <= i <= j < nq ==> distances[i] <= distances[j])
  }

  /** Once the walk has passed every index, `MarksAt` is the closed form of the surviving marks. */
  lemma MarksFinal(marks0: map<nat, string>, marks: map<nat, string>, n: nat)
    requires forall k :: k in marks0 ==> k < n
    requires MarksAt(marks0, marks, n)
    ensures forall k {:trigger k in marks} :: k in marks <==> k in marks0 && !IsJump(marks0, k + 1)
    ensures forall k {:trigger marks[k]} :: k in marks ==> marks[k] == Merged(marks0, k)
  {
  }

  /** Closing the open segment at the end of the path completes the tiling. */
  lemma BreaksFinal(marks0: map<nat, string>, lb: seq<Range>, nqstart: int, nq: nat, n: nat)
    requires BreaksAt(marks0, lb, nqstart, nq)
    requires nq == n || (n == 0 && nq == 1)
    ensures Tiles(lb + [Range(nqstart, n)], n)
    ensures n > 0 ==> forall i :: 0 <= i < |lb + [Range(nqstart, n)]| ==> (lb + [Range(nqstart, n)])[i].start < (lb + [Range(nqstart, n)])[i].end
    ensures forall i :: 0 <= i < |lb| ==> (lb + [Range(nqstart, n)])[i].end >= 1 && IsJump(marks0, (lb + [Range(nqstart, n)])[i].end)
    ensures forall k :: 1 <= k < n && IsJump(marks0, k) ==>
              exists i :: 0 <= i < |lb| && (lb + [Range(nqstart, n)])[i].end == k
  {
    var lb' := lb + [Range(nqstart, n)];
    assert forall i :: 0 <= i < |lb| ==> lb'[i] == lb[i];
  }

  /** At the end of the walk `DistancesAt` gives one distance per qpoint. */
  lemma DistancesFinal(dist: Metric, kpoints: seq<Point>, marks0: map<nat, string>, distances: seq<real>, nq: nat)
    requires DistancesAt(dist, kpoints, marks0, distances, nq)
    requires nq == |kpoints| || (|kpoints| == 0 && nq == 1)
    ensures |distances| == if |kpoints| == 0 then 1 else |kpoints|
    ensures distances[0] == 0.0
    ensures forall k {:trigger StepLength(dist, kpoints, marks0, k)} :: 1 <= k < |kpoints| ==>
              distances[k] == distances[k - 1] + StepLength(dist, kpoints, marks0, k)
    ensures forall i, j :: 0 <= i <= j < |distances| ==> distances[i] <= distances[j]
  {
  }

  /** One step of the distance accumulation. */
  lemma DistancesStep(dist: Metric, kpoints: seq<Point>, marks0: map<nat, string>, distances: seq<real>, nq: nat)
    requires 1 <= nq < |kpoints| && DistancesAt(dist, kpoints, marks0, distances, nq)
    ensures IsJump(marks0, nq) ==>
              DistancesAt(dist, kpoints, marks0, distances + [distances[nq - 1]], nq + 1)
    ensures !IsJump(marks0, nq) ==>
              DistancesAt(dist, kpoints, marks0, distances + [distances[nq - 1] + dist(kpoints[nq - 1], kpoints[nq])], nq + 1)
  {
    assert StepLength(dist, kpoints, marks0, nq) == if IsJump(marks0, nq) then 0.0 else dist(kpoints[nq - 1], kpoints[nq]);
  }

  /**
   * The outcome of the walk over `kpoints` with the high-symmetry marks
   * `marks0`: the cumulative distances, the line breaks and the marks that
   * survive, with their merged labels.
   */
  ghost predicate Walked(dist: Metric, kpoints: seq<Point>, marks0: map<nat, string>,
                         distances: seq<real>, lineBreaks: seq<Range>, marks: map<nat, string>)
  {
    // distances: one per qpoint (the initial 0 alone for an empty path)
    && |distances| == (if |kpoints| == 0 then 1 else |kpoints|)
    && distances[0] == 0.0
    && (forall k {:trigger StepLength(dist, kpoints, marks0, k)} :: 1 <= k < |kpoints| ==>
          distances[k] == distances[k - 1] + StepLength(dist, kpoints, marks0, k))
    && (forall i, j :: 0 <= i <= j < |distances| ==> distances[i] <= distances[j])
    // line breaks: a tiling of the path whose inner boundaries are exactly the jumps
    && Tiles(lineBreaks, |kpoints|)
    && (|kpoints| > 0 ==> forall i :: 0 <= i < |lineBreaks| ==> lineBreaks[i].start < lineBreaks[i].end)
    && (forall i :: 0 <= i < |lineBreaks| - 1 ==> lineBreaks[i].end >= 1 && IsJump(marks0, lineBreaks[i].end))
    && (forall k :: 1 <= k < |kpoints| && IsJump(marks0, k) ==>
          exists i :: 0 <= i < |lineBreaks| - 1 && lineBreaks[i].end == k)
    // marks: the one before each jump is deleted, the others carry their merged label
    && (forall k {:trigger k in marks} :: k in marks <==> k in marks0 && !IsJump(marks0, k + 1))
    && (forall k {:trigger marks[k]} :: k in marks ==> marks[k] == Merged(marks0, k))
  }

  /** The walk loop of `getFromPMGJson`, from `nq = 1` to the last qpoint. */
  method ReconstructPath(dist: Metric, kpoints: seq<Point>, marks0: map<nat, string>)
    returns (distances: seq<real>, lineBreaks: seq<Range>, marks: map<nat, string>)
    requires forall k :: k in marks0 ==> k < |kpoints|
    ensures Walked(dist, kpoints, marks0, distances, lineBreaks, marks)
  {
    var nqstart, nq;
    distances, lineBreaks, nqstart, marks, nq := WalkSteps(dist, kpoints, marks0);
    WalkFinal(dist, kpoints, marks0, distances, lineBreaks, nqstart, marks, nq);
    lineBreaks := lineBreaks + [Range(nqstart, |kpoints|)];
  }

  /** The steps `nq = 1 .. |kpoints| - 1` of the walk, before the closing line break is pushed. */
  method WalkSteps(dist: Metric, kpoints: seq<Point>, marks0: map<nat, string>)
    returns (distances: seq<real>, lineBreaks: seq<Range>, nqstart: int, marks: map<nat, string>, nq: nat)
    requires forall k :: k in marks0 ==> k < |kpoints|
    ensures nq == |kpoints| || (|kpoints| == 0 && nq == 1)
    ensures DistancesAt(dist, kpoints, marks0, distances, nq)
    ensures BreaksAt(marks0, lineBreaks, nqstart, nq)
    ensures MarksAt(marks0, marks, nq)
  {
    var n := |kpoints|;
    marks := marks0;
    distances := [0.0];
    lineBreaks := [];
    nqstart := 0;
    var d: real := 0.0;
    nq := 1;
    assert Tiles(lineBreaks + [Range(nqstart, nq)], nq);
    while nq < n
      invariant 1 <= nq <= (if n == 0 then 1 else n)
      invariant DistancesAt(dist, kpoints, marks0, distances, nq) && d == distances[nq - 1]
      invariant BreaksAt(marks0, lineBreaks, nqstart, nq)
      invariant MarksAt(marks0, marks, nq)
    {
      distances, lineBreaks, nqstart, marks, d := WalkStep(dist, kpoints, marks0, distances, lineBreaks, nqstart, marks, d, nq);
      nq := nq + 1;
    }
  }

  /** One step of the walk at `nq`: the jump branch or the distance branch. */
  method WalkStep(dist: Metric, kpoints: seq<Point>, marks0: map<nat, string>, distances: seq<real>,
                  lineBreaks: seq<Range>, nqstart: int, marks: map<nat, string>, d: real, nq: nat)
    returns (distances': seq<real>, lineBreaks': seq<Range>, nqstart': int, marks': map<nat, string>, d': real)
    requires 1 <= nq < |kpoints|
    requires DistancesAt(dist, kpoints, marks0, distances, nq) && d == distances[nq - 1]
    requires BreaksAt(marks0, lineBreaks, nqstart, nq)
    requires MarksAt(marks0, marks, nq)
    ensures DistancesAt(dist, kpoints, marks0, distances', nq + 1) && d' == distances'[nq]
    ensures BreaksAt(marks0, lineBreaks', nqstart', nq + 1)
    ensures MarksAt(marks0, marks', nq + 1)
  {
    MarksTest(marks0, marks, nq);
    BreaksStep(marks0, lineBreaks, nqstart, nq);
    DistancesStep(dist, kpoints, marks0, distances, nq);
    if nq in marks && nq - 1 in marks && marks[nq] != marks[nq - 1] {
      MarksJump(marks0, marks, nq);
      marks' := JumpMerge(marks, nq);
      lineBreaks' := lineBreaks + [Range(nqstart, nq)];
      nqstart' := nq;
      d' := d;
    } else {
      MarksKeep(marks0, marks, nq);
      marks', lineBreaks', nqstart' := marks, lineBreaks, nqstart;
      d' := d + dist(kpoints[nq - 1], kpoints[nq]);
    }
    distances' := distances + [d'];
  }

  /** When the loop exits, the closing line break completes the walk. */
  lemma WalkFinal(dist: Metric, kpoints: seq<Point>, marks0: map<nat, string>, distances: seq<real>,
                  lb: seq<Range>, nqstart: int, marks: map<nat, string>, nq: nat)
    requires forall k :: k in marks0 ==> k < |kpoints|
    requires nq == |kpoints| || (|kpoints| == 0 && nq == 1)
    requires DistancesAt(dist, kpoints, marks0, distances, nq)
    requires BreaksAt(marks0, lb, nqstart, nq)
    requires MarksAt(marks0, marks, nq)
    ensures Walked(dist, kpoints, marks0, distances, lb + [Range(nqstart, |kpoints|)], marks)
  {
    DistancesFinal(dist, kpoints, marks0, distances, nq);
    MarksFinal(marks0, marks, nq);
    BreaksFinal(marks0, lb, nqstart, nq, |kpoints|);
  }

  /**
   * Two jumps in a row: the mark at the second jump carries three labels,
   * newest first, and takes the merged label of the first jump with it.
   */
  lemma ConsecutiveJumps(marks: map<nat, string>, k: nat)
    requires IsJump(marks, k) && IsJump(marks, k + 1)
    ensures Merged(marks, k + 1) == marks[k + 1] + "|" + marks[k] + "|" + Merged(marks, k - 1)
  {
  }

  /**
   * Three consecutive differing labels A, B, C: the walk jumps at 1 and at
   * 2, and the last mark reads "C|B|A".
   */
  lemma ThreeLabels()
    ensures IsJump(map[0 := "A", 1 := "B", 2 := "C"], 1)
    ensures IsJump(map[0 := "A", 1 := "B", 2 := "C"], 2)
    ensures Merged(map[0 := "A", 1 := "B", 2 := "C"], 2) == "C|B|A"
  {
    var m := map[0 := "A", 1 := "B", 2 := "C"];
    assert Merged(m, 0) == "A";
    assert Merged(m, 1) == "B|A";
    assert "C" != "B|A" by { assert |"C"| != |"B|A"|; }
  }

  /**
   * After a jump, the next mark is compared with the merged label, never
   * with the original one: a mark that repeats the label of the jump
   * target is taken as another jump.
   */
  lemma {:induction false} RepeatAfterJump(marks: map<nat, string>, k: nat)
    requires IsJump(marks, k)
    requires k + 1 in marks && marks[k + 1] == marks[k]
    ensures IsJump(marks, k + 1)
    ensures Merged(marks, k + 1) == marks[k] + "|" + marks[k] + "|" + Merged(marks, k - 1)
  {
    var a := Merged(marks, k);
    assert a == marks[k] + "|" + Merged(marks, k - 1);
    assert |a| > |marks[k]|;
  }

  /**
   * With the labels G, X, X, M at indices 0..3 every step takes the jump
   * branch, and the last mark reads "M|X|X|G".
   */
  lemma RepeatedLabelScenario()
    ensures forall k :: 1 <= k < 4 ==> IsJump(map[0 := "G", 1 := "X", 2 := "X", 3 := "M"], k)
    ensures Merged(map[0 := "G", 1 := "X", 2 := "X", 3 := "M"], 3) == "M|X|X|G"
  {
    var m := map[0 := "G", 1 := "X", 2 := "X", 3 := "M"];
    assert Merged(m, 0) == "G";
    assert Merged(m, 1) == "X|G";
    assert "X" != "X|G" by { assert |"X"| != |"X|G"|; }
    assert Merged(m, 2) == "X|X|G";
    assert "M" != "X|X|G" by { assert |"M"| != |"X|X|G"|; }
  }

  /**
   * The walk over four qpoints marked G, X, X, M: three zero-length jumps,
   * so every distance is 0, and four one-point line breaks.
   */
  lemma RepeatedLabelWalk(dist: Metric, kpoints: seq<Point>, distances: seq<real>, lineBreaks: seq<Range>,
                          marks: map<nat, string>)
    requires |kpoints| == 4
    requires Walked(dist, kpoints, map[0 := "G", 1 := "X", 2 := "X", 3 := "M"], distances, lineBreaks, marks)
    ensures distances == [0.0, 0.0, 0.0, 0.0]
    ensures lineBreaks == [Range(0, 1), Range(1, 2), Range(2, 3), Range(3, 4)]
  {
    var m := map[0 := "G", 1 := "X", 2 := "X", 3 := "M"];
    RepeatedLabelScenario();
    assert IsJump(m, 1) && IsJump(m, 2) && IsJump(m, 3);
    assert distances[1] == distances[0] + StepLength(dist, kpoints, m, 1);
    assert distances[2] == distances[1] + StepLength(dist, kpoints, m, 2);
    assert distances[3] == distances[2] + StepLength(dist, kpoints, m, 3);
    EveryStepBreaks(lineBreaks);
  }

  /**
   * A tiling of four indices into non-empty segments with inner ends at 1,
   * 2 and 3 is the tiling into single indices.
   */
  lemma EveryStepBreaks(lb: seq<Range>)
    requires Tiles(lb, 4)
    requires forall i :: 0 <= i < |lb| ==> lb[i].start < lb[i].end
    requires exists i :: 0 <= i < |lb| - 1 && lb[i].end == 1
    requires exists i :: 0 <= i < |lb| - 1 && lb[i].end == 2
    requires exists i :: 0 <= i < |lb| - 1 && lb[i].end == 3
    ensures lb == [Range(0, 1), Range(1, 2), Range(2, 3), Range(3, 4)]
  {
    EndsAboveIndex(lb, 4);
    var i1 :| 0 <= i1 < |lb| - 1 && lb[i1].end == 1;
    var i2 :| 0 <= i2 < |lb| - 1 && lb[i2].end == 2;
    var i3 :| 0 <= i3 < |lb| - 1 && lb[i3].end == 3;
    assert i1 == 0;
    assert i2 == 1 by {
      assert lb[0].end == 1;
    }
    assert i3 == 2 by {
      assert lb[0].end == 1 && lb[1].end == 2;
    }
  }

  /** In a tiling into non-empty segments the `i`-th segment ends at `i + 1` or later. */
  lemma {:induction false} EndsAboveIndex(lb: seq<Range>, n: int)
    requires Tiles(lb, n)
    requires forall i :: 0 <= i < |lb| ==> lb[i].start < lb[i].end
    ensures forall i :: 0 <= i < |lb| ==> lb[i].end >= i + 1
    ensures |lb| <= n
  {
    if |lb| > 1 {
      var front := lb[..|lb| - 1];
      assert Tiles(front, lb[|lb| - 1].start);
      EndsAboveIndex(front, lb[|lb| - 1].start);
      assert forall i :: 0 <= i < |front| ==> lb[i] == front[i];
    }
  }
}
