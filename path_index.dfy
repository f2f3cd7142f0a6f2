/**
 * The distance-keyed lookup maps of the loader: `qindex` (distance to
 * qpoint index) and `highsym_qpts` (distance to high-symmetry label). Each
 * is filled by a loop that overwrites on a repeated key, so the last writer
 * wins.
 */
module PathIndex {
  import opened PhononTypes

  /**
   * `q` maps every distance of `ds`, and nothing else, to the largest
   * index at which that distance occurs.
   */
  ghost predicate IsLastIndex(q: map<real, nat>, ds: seq<real>)
  {
    && (forall d {:trigger d in q} {:trigger d in ds} :: d in q <==> d in ds)
    && (forall d :: d in q ==>
          q[d] < |ds| && ds[q[d]] == d && forall j :: q[d] < j < |ds| ==> ds[j] != d)
  }

  /** The `qindex` loop: `qindex[distances[i]] = i` for every `i` in order. */
  method BuildQIndex(ds: seq<real>) returns (q: map<real, nat>)
    ensures IsLastIndex(q, ds)
  {
    q := map[];
    var i := 0;
    while i < |ds|
      invariant 0 <= i <= |ds|
      invariant IsLastIndex(q, ds[..i])
    {
      assert ds[..i + 1] == ds[..i] + [ds[i]];
      q := q[ds[i] := i];
      i := i + 1;
    }
    assert ds[..i] == ds;
  }

  /** The characterisation leaves no choice: there is one `qindex` per distance list. */
  lemma LastIndexUnique(q1: map<real, nat>, q2: map<real, nat>, ds: seq<real>)
    requires IsLastIndex(q1, ds) && IsLastIndex(q2, ds)
    ensures q1 == q2
  {
    forall d ensures d in q1 <==> d in q2 {
      assert d in q1 <==> d in ds;
    }
    forall d | d in q1 ensures q1[d] == q2[d] {
      var a, b := q1[d], q2[d];
      assert ds[a] == d && ds[b] == d;
    }
  }

  /** Every distance is a key, and it looks up its own index or a later one. */
  lemma QIndexInverse(q: map<real, nat>, ds: seq<real>, i: nat)
    requires IsLastIndex(q, ds) && i < |ds|
    ensures ds[i] in q && i <= q[ds[i]] < |ds|
  {
    var x := ds[i];
    assert x in ds;
    assert x in q && q[x] < |ds| && ds[q[x]] == x;
  }

  /** Without repeated distances `qindex` is the exact inverse of the distance list. */
  lemma QIndexOfDistinct(q: map<real, nat>, ds: seq<real>)
    requires IsLastIndex(q, ds)
    requires forall i, j :: 0 <= i < j < |ds| ==> ds[i] != ds[j]
    ensures forall i :: 0 <= i < |ds| ==> ds[i] in q && q[ds[i]] == i
  {
    forall i | 0 <= i < |ds| ensures ds[i] in q && q[ds[i]] == i {
      QIndexInverse(q, ds, i);
      var x := ds[i];
      assert ds[q[x]] == x;
    }
  }

  /**
   * A zero-length step (such as a jump) repeats a distance, and from then on
   * the earlier index is no longer reachable through `qindex`.
   */
  lemma QIndexShadowed(q: map<real, nat>, ds: seq<real>, i: nat)
    requires IsLastIndex(q, ds)
    requires i + 1 < |ds| && ds[i + 1] == ds[i]
    ensures q[ds[i]] != i
  {
    QIndexInverse(q, ds, i + 1);
  }

  /** The key under which a distance-indexed write lands: `distances[i]`, or "undefined". */
  function KeyFor(ds: seq<real>, i: int): DistKey
  {
    if 0 <= i < |ds| then Num(ds[i]) else Undefined
  }

  /**
   * `h` holds, for every key written by one of the `(index, label)` pairs,
   * the label of the last pair that wrote it, and no other key.
   */
  ghost predicate IsLastPairWrite(h: map<DistKey, string>, pairs: seq<(int, string)>, ds: seq<real>)
  {
    && (forall key :: key in h <==> exists i :: 0 <= i < |pairs| && KeyFor(ds, pairs[i].0) == key)
    && (forall key :: key in h ==>
          exists i :: && 0 <= i < |pairs| && KeyFor(ds, pairs[i].0) == key && h[key] == pairs[i].1
                      && forall j :: i < j < |pairs| ==> KeyFor(ds, pairs[j].0) != key)
  }

  /** The internal format's `highsym_qpts` loop: `highsym_qpts[distances[index]] = label` per pair. */
  method RekeyPairs(ds: seq<real>, pairs: seq<(int, string)>) returns (h: map<DistKey, string>)
    ensures IsLastPairWrite(h, pairs, ds)
  {
    h := map[];
    var i := 0;
    while i < |pairs|
      invariant 0 <= i <= |pairs|
      invariant IsLastPairWrite(h, pairs[..i], ds)
    {
      LastPairWriteStep(h, pairs[..i], pairs[i], ds);
      assert pairs[..i + 1] == pairs[..i] + [pairs[i]];
      h := h[KeyFor(ds, pairs[i].0) := pairs[i].1];
      i := i + 1;
    }
    assert pairs[..i] == pairs;
  }

  /** One more pair overwrites its own key and leaves every other key as it was. */
  lemma LastPairWriteStep(h: map<DistKey, string>, pairs: seq<(int, string)>, pair: (int, string), ds: seq<real>)
    requires IsLastPairWrite(h, pairs, ds)
    ensures IsLastPairWrite(h[KeyFor(ds, pair.0) := pair.1], pairs + [pair], ds)
  {
    var key := KeyFor(ds, pair.0);
    var p := pairs + [pair];
    var h' := h[key := pair.1];
    assert p[|pairs|] == pair;
    forall k | k in h'
      ensures exists i :: && 0 <= i < |p| && KeyFor(ds, p[i].0) == k && h'[k] == p[i].1
                          && forall j :: i < j < |p| ==> KeyFor(ds, p[j].0) != k
    {
      if k != key {
        var i :| && 0 <= i < |pairs| && KeyFor(ds, pairs[i].0) == k && h[k] == pairs[i].1
                 && forall j :: i < j < |pairs| ==> KeyFor(ds, pairs[j].0) != k;
        assert p[i] == pairs[i];
        assert forall j :: i < j < |p| ==> p[j] == if j < |pairs| then pairs[j] else pair;
      }
    }
    forall k ensures k in h' <==> exists i :: 0 <= i < |p| && KeyFor(ds, p[i].0) == k {
      if k in h && k != key {
        var i :| 0 <= i < |pairs| && KeyFor(ds, pairs[i].0) == k;
        assert p[i] == pairs[i];
      }
      if exists i :: 0 <= i < |p| && KeyFor(ds, p[i].0) == k {
        var i :| 0 <= i < |p| && KeyFor(ds, p[i].0) == k;
        if i < |pairs| {
          assert p[i] == pairs[i];
        }
      }
    }
  }

  /**
   * `h` maps the distance of every mark, and nothing else, to the label of
   * the highest-indexed mark at that distance.
   */
  ghost predicate IsLastMarkWrite(h: map<DistKey, string>, marks: map<nat, string>, ds: seq<real>)
    requires forall k :: k in marks ==> k < |ds|
  {
    && (forall key :: key in h <==> exists k :: k in marks && Num(ds[k]) == key)
    && (forall key :: key in h ==>
          exists k :: && k in marks && Num(ds[k]) == key && h[key] == marks[k]
                      && forall k' :: k' in marks && k < k' ==> ds[k'] != ds[k])
  }

  /**
   * The pymatgen format's `highsym_qpts` loop: the surviving marks, in
   * ascending index order, write `highsym_qpts[distances[nq]] = label`.
   */
  method RekeyMarks(ds: seq<real>, marks: map<nat, string>) returns (h: map<DistKey, string>)
    requires forall k :: k in marks ==> k < |ds|
    ensures IsLastMarkWrite(h, marks, ds)
  {
    h := map[];
    var nq := 0;
    while nq < |ds|
      invariant 0 <= nq <= |ds|
      invariant forall key :: key in h <==> exists k :: k in marks && k < nq && Num(ds[k]) == key
      invariant forall key :: key in h ==>
                  exists k :: && k in marks && k < nq && Num(ds[k]) == key && h[key] == marks[k]
                              && forall k' :: k' in marks && k < k' < nq ==> ds[k'] != ds[k]
    {
      if nq in marks {
        h := h[Num(ds[nq]) := marks[nq]];
      }
      nq := nq + 1;
    }
  }

  /** A mark that no later mark shares a distance with keeps its label in `highsym_qpts`. */
  lemma MarkLabelKept(h: map<DistKey, string>, marks: map<nat, string>, ds: seq<real>, k: nat)
    requires forall k :: k in marks ==> k < |ds|
    requires IsLastMarkWrite(h, marks, ds)
    requires k in marks
    requires forall k' :: k' in marks && k < k' ==> ds[k'] != ds[k]
    ensures Num(ds[k]) in h && h[Num(ds[k])] == marks[k]
  {
    var key := Num(ds[k]);
    assert key in h;
    var w :| && w in marks && Num(ds[w]) == key && h[key] == marks[w]
             && forall k' :: k' in marks && w < k' ==> ds[k'] != ds[w];
  }

  /**
   * Every label key of the pymatgen load is a distance of the path, so the
   * label's qpoint can be looked up in `qindex`.
   */
  lemma HighSymKeysIndexed(h: map<DistKey, string>, marks: map<nat, string>, ds: seq<real>, q: map<real, nat>)
    requires forall k :: k in marks ==> k < |ds|
    requires IsLastMarkWrite(h, marks, ds)
    requires IsLastIndex(q, ds)
    ensures forall key :: key in h ==> key.Num? && key.d in q && ds[q[key.d]] == key.d
  {
    forall key | key in h ensures key.Num? && key.d in q && ds[q[key.d]] == key.d {
      var k :| k in marks && Num(ds[k]) == key;
      assert ds[k] in ds;
    }
  }

  /**
   * The same holds for an internal load whose label indices all lie in the
   * distance list; an index past its end instead yields the key "undefined".
   */
  lemma PairKeysIndexed(h: map<DistKey, string>, pairs: seq<(int, string)>, ds: seq<real>, q: map<real, nat>)
    requires IsLastPairWrite(h, pairs, ds)
    requires IsLastIndex(q, ds)
    ensures (forall i :: 0 <= i < |pairs| ==> 0 <= pairs[i].0 < |ds|) ==>
              forall key :: key in h ==> key.Num? && key.d in q && ds[q[key.d]] == key.d
    ensures forall i :: 0 <= i < |pairs| && !(0 <= pairs[i].0 < |ds|) ==> Undefined in h
  {
    forall key | key in h && (forall i :: 0 <= i < |pairs| ==> 0 <= pairs[i].0 < |ds|)
      ensures key.Num? && key.d in q && ds[q[key.d]] == key.d
    {
      var i :| 0 <= i < |pairs| && KeyFor(ds, pairs[i].0) == key;
      assert ds[pairs[i].0] in ds;
    }
    forall i | 0 <= i < |pairs| && !(0 <= pairs[i].0 < |ds|) ensures Undefined in h {
      assert KeyFor(ds, pairs[i].0) == Undefined;
    }
  }
}
