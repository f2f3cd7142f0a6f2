/**
 * The two document formats the loader reads, and what a load of each part
 * of them must leave behind, stated on values.
 */
module Documents {
  import opened PhononTypes
  import opened PointMatch
  import opened Formula
  import opened PathWalk
  import opened PathIndex
  import opened Tensors

  /** A document in the internal format; optional members are `Option`s. */
  datatype InternalData = InternalData(
    name: string,
    natoms: int,
    atomTypes: seq<string>,
    atomNumbers: seq<Option<int>>,
    atomicNumbers: seq<int>,
    atomPosCar: seq<Point>,
    atomPosRed: seq<Point>,
    lattice: seq<Point>,
    vectors: seq<seq<seq<seq<Cplx>>>>,
    qpoints: seq<Point>,
    distances: seq<real>,
    formula: string,
    eigenvalues: seq<seq<real>>,
    repetitions: seq<int>,
    highsymQpts: Option<seq<(int, string)>>,
    lineBreaks: Option<seq<Range>>)

  /** One site of a pymatgen structure; `element` is its `label` member. */
  datatype Site = Site(element: string, xyz: Point, abc: Point)

  /**
   * A document in the pymatgen format. `labelsDict` lists the entries of
   * the `labels_dict` object in the order in which a `for..in` loop visits
   * them; `eigReal` and `eigImag` are the `real` and `imag` members of
   * `eigendisplacements`.
   */
  datatype PMGData = PMGData(
    lattice: seq<Point>,
    sites: seq<Site>,
    qpoints: seq<Point>,
    labelsDict: seq<(string, Point)>,
    bands: seq<seq<real>>,
    eigReal: seq<seq<seq<seq<real>>>>,
    eigImag: seq<seq<seq<seq<real>>>>)

  /**
   * A parsed JSON object together with its members read in either format:
   * `keys` are its top-level member names.
   */
  datatype Document = Document(keys: set<string>, pmg: PMGData, internal: InternalData)

  /** The optional internal members are read exactly when their keys are present. */
  predicate KeysAgree(doc: Document)
  {
    && ("highsym_qpts" in doc.keys <==> doc.internal.highsymQpts.Some?)
    && ("line_breaks" in doc.keys <==> doc.internal.lineBreaks.Some?)
  }

  /** The atomic number of an element label, or `undefined` for a label the table does not hold. */
  function AtomicNumberOf(table: map<string, int>, element: string): Option<int>
  {
    if element in table then Some(table[element]) else None
  }

  /** The per-site arrays hold each site's label, atomic number and both positions, in site order. */
  ghost predicate SitesCopied(sites: seq<Site>, table: map<string, int>, types: seq<string>,
                              numbers: seq<Option<int>>, car: seq<Point>, red: seq<Point>)
  {
    && |types| == |sites| && |numbers| == |sites| && |car| == |sites| && |red| == |sites|
    && forall i :: 0 <= i < |sites| ==>
         && types[i] == sites[i].element
         && numbers[i] == AtomicNumberOf(table, sites[i].element)
         && car[i] == sites[i].xyz
         && red[i] == sites[i].abc
  }

  /** The reduced-to-Cartesian conversion applied to every point of a list. */
  function Cartesian(toCar: Point -> Point, pts: seq<Point>): seq<Point>
  {
    seq(|pts|, i requires 0 <= i < |pts| => toCar(pts[i]))
  }

  /** The reduced high-symmetry points of `labels_dict`, in `for..in` order. */
  function EntryPoints(labelsDict: seq<(string, Point)>): seq<Point>
  {
    seq(|labelsDict|, i requires 0 <= i < |labelsDict| => labelsDict[i].1)
  }

  /** The labels of `labels_dict`, in `for..in` order. */
  function EntryLabels(labelsDict: seq<(string, Point)>): seq<string>
  {
    seq(|labelsDict|, i requires 0 <= i < |labelsDict| => labelsDict[i].0)
  }

  /** The `labels_dict` loop: split the entries into a point list and a label list. */
  method SplitLabels(labelsDict: seq<(string, Point)>) returns (points: seq<Point>, labels: seq<string>)
    ensures |points| == |labelsDict| && |labels| == |labelsDict|
    ensures forall i :: 0 <= i < |labelsDict| ==> labelsDict[i] == (labels[i], points[i])
    ensures points == EntryPoints(labelsDict) && labels == EntryLabels(labelsDict)
  {
    points, labels := [], [];
    var i := 0;
    while i < |labelsDict|
      invariant 0 <= i <= |labelsDict|
      invariant |points| == i && |labels| == i
      invariant forall j :: 0 <= j < i ==> labelsDict[j] == (labels[j], points[j])
    {
      points := points + [labelsDict[i].1];
      labels := labels + [labelsDict[i].0];
      i := i + 1;
    }
  }

  /** The eigen-data can be read without running off an array: at least one band, and every tensor deep enough. */
  predicate TensorsShaped(data: PMGData)
  {
    && |data.bands| > 0
    && BandsShaped(data.bands, |data.bands[0]|)
    && DisplacementsShaped(data.eigReal, |data.bands|, |data.bands[0]|, |data.sites|)
    && DisplacementsShaped(data.eigImag, |data.bands|, |data.bands[0]|, |data.sites|)
  }

  /** A structure without sites reads no eigen-displacements, so any bands table that is deep enough can be read. */
  lemma NoSitesReadNoDisplacements(data: PMGData)
    requires |data.sites| == 0
    requires |data.bands| > 0 && BandsShaped(data.bands, |data.bands[0]|)
    ensures TensorsShaped(data)
  {
  }

  /** A band table without qpoints reads no eigen-displacements either: the reshape loop never runs. */
  lemma NoQpointsReadNoDisplacements(data: PMGData)
    requires |data.bands| > 0 && |data.bands[0]| == 0
    ensures TensorsShaped(data)
  {
  }

  /** The line breaks of a path of `n` qpoints without any: one segment over the whole path. */
  function DefaultLineBreaks(n: nat): (lb: seq<Range>)
    ensures Tiles(lb, n) && |lb| == 1
  {
    [Range(0, n)]
  }

  /**
   * The structure part of a pymatgen load: the lattice, the fixed
   * repetitions, the per-site arrays, the atom count and the formula name.
   */
  ghost predicate StructureOf(data: PMGData, table: map<string, int>, lat: seq<Point>, repetitions: seq<int>,
                              atomTypes: seq<string>, atomNumbers: seq<Option<int>>, atomPosCar: seq<Point>,
                              atomPosRed: seq<Point>, natoms: int, name: string)
  {
    && lat == data.lattice && repetitions == [3, 3, 3]
    && SitesCopied(data.sites, table, atomTypes, atomNumbers, atomPosCar, atomPosRed)
    && natoms == |data.sites|
    && name == Render(FirstSeen(atomTypes), atomTypes)
  }

  /**
   * The path part of a pymatgen load: the Cartesian qpoints, the
   * high-symmetry marks, the walk's distances, line breaks and merged
   * marks, the label map keyed by distance and the distance index.
   */
  ghost predicate PathOf(data: PMGData, dist: Metric, toCar: Point -> Point, kpoints: seq<Point>,
                         distances: seq<real>, lineBreaks: seq<Range>, highsymQpts: map<DistKey, string>,
                         qindex: map<real, nat>)
  {
    && kpoints == Cartesian(toCar, data.qpoints)
    && (exists marks0, marks ::
          && HighSymmetryMarks(dist, kpoints, Cartesian(toCar, EntryPoints(data.labelsDict)),
                               EntryLabels(data.labelsDict), marks0)
          && Walked(dist, kpoints, marks0, distances, lineBreaks, marks)
          && (forall k :: k in marks ==> k < |distances|)
          && IsLastMarkWrite(highsymQpts, marks, distances))
    && IsLastIndex(qindex, distances)
  }

  /** The eigen part of a pymatgen load: the transposed, converted and scaled tensors. */
  ghost predicate TensorsOf(data: PMGData, eigenvalues: seq<seq<real>>, vec: seq<seq<seq<seq<Cplx>>>>)
  {
    && TensorsShaped(data)
    && IsEigenvalueTable(eigenvalues, data.bands, |data.bands[0]|)
    && IsDisplacementTable(vec, data.eigReal, data.eigImag, |data.bands|, |data.bands[0]|, |data.sites|)
  }

  /**
   * The index part of an internal load: the distance index, and the label
   * map rebuilt from `highsym_qpts`, which is empty when that member is
   * missing and the load fails.
   */
  ghost predicate InternalIndexOf(data: InternalData, distances: seq<real>, qindex: map<real, nat>,
                                  highsymQpts: map<DistKey, string>, ok: bool)
  {
    && IsLastIndex(qindex, distances)
    && (ok <==> data.highsymQpts.Some?)
    && (ok ==> IsLastPairWrite(highsymQpts, data.highsymQpts.value, distances))
    && (!ok ==> highsymQpts == map[])
  }
}
