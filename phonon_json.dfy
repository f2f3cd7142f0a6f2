/**
 * The `PhononJson` loader: one object whose fields are filled in place
 * from a parsed JSON document, either in the visualiser's own (internal)
 * format or in the pymatgen phonon band-structure format, chosen by the
 * presence of the `@class` key.
 */
module PhononJson {
  import opened PhononTypes
  import opened Formula
  import opened PointMatch
  import opened PathWalk
  import opened PathIndex
  import opened Tensors
  import opened Documents

  class PhononJson {
    var name: string
    var natoms: int
    var atomTypes: seq<string>
    var atomNumbers: seq<Option<int>>
    var atomicNumbers: seq<int>
    var atomPosCar: seq<Point>
    var atomPosRed: seq<Point>
    var lat: seq<Point>
    var vec: seq<seq<seq<seq<Cplx>>>>
    var kpoints: seq<Point>
    var distances: seq<real>
    var formula: string
    var eigenvalues: seq<seq<real>>
    var repetitions: seq<int>
    var qindex: map<real, nat>
    var highsymQpts: map<DistKey, string>
    var lineBreaks: seq<Range>

    /** `getFromJson`: the pymatgen loader when the document has an `@class` key, the internal one otherwise. */
    method GetFromJson(doc: Document, dist: Metric, toCar: Point -> Point, table: map<string, int>)
      returns (ok: bool)
      requires KeysAgree(doc)
      modifies this
      // pymatgen format
      ensures "@class" in doc.keys ==>
                && StructureOf(doc.pmg, table, lat, repetitions, atomTypes, atomNumbers, atomPosCar, atomPosRed, natoms, name)
                && PathOf(doc.pmg, dist, toCar, kpoints, distances, lineBreaks, highsymQpts, qindex)
                && (ok <==> TensorsShaped(doc.pmg))
                && (ok ==> TensorsOf(doc.pmg, eigenvalues, vec))
                && (!ok ==> eigenvalues == old(eigenvalues) && vec == old(vec))
                && formula == old(formula) && atomicNumbers == old(atomicNumbers)
      // internal format
      ensures "@class" !in doc.keys ==>
                && MembersCopied(doc.internal)
                && InternalIndexOf(doc.internal, distances, qindex, highsymQpts, ok)
                && (ok <==> "highsym_qpts" in doc.keys)
                && lineBreaks == (if !ok then old(lineBreaks)
                                  else if "line_breaks" in doc.keys then doc.internal.lineBreaks.value
                                  else DefaultLineBreaks(|kpoints|))
    {
      if "@class" in doc.keys {
        ok := GetFromPMGJson(doc.pmg, dist, toCar, table);
      } else {
        ok := GetFromInternalJson(doc.internal);
      }
    }

    /** Every member of an internal document that the loader copies as it is. */
    ghost predicate MembersCopied(data: InternalData)
      reads this
    {
      && name == data.name && natoms == data.natoms && atomTypes == data.atomTypes
      && atomNumbers == data.atomNumbers && atomicNumbers == data.atomicNumbers
      && atomPosCar == data.atomPosCar && atomPosRed == data.atomPosRed && lat == data.lattice
      && vec == data.vectors && kpoints == data.qpoints && distances == data.distances
      && formula == data.formula && eigenvalues == data.eigenvalues && repetitions == data.repetitions
    }

    /**
     * `getFromInternalJson`: copy the members, rebuild the distance index
     * and the label map, then take or default the line breaks. `ok` is false
     * where the source throws on a missing `highsym_qpts`; the line breaks
     * are then left as they were.
     */
    method GetFromInternalJson(data: InternalData) returns (ok: bool)
      modifies this
      ensures MembersCopied(data)
      ensures InternalIndexOf(data, distances, qindex, highsymQpts, ok)
      ensures lineBreaks == (if !ok then old(lineBreaks)
                             else if data.lineBreaks.Some? then data.lineBreaks.value
                             else DefaultLineBreaks(|kpoints|))
    {
      CopyMembers(data);
      ok := LoadInternalPath(data);
    }

    /** The members of an internal document that are taken over unchanged. */
    method CopyMembers(data: InternalData)
      modifies this`name, this`natoms, this`atomTypes, this`atomNumbers, this`atomicNumbers
      modifies this`atomPosCar, this`atomPosRed, this`lat, this`vec, this`kpoints, this`distances
      modifies this`formula, this`eigenvalues, this`repetitions
      ensures MembersCopied(data)
    {
      CopyAtoms(data);
      CopyBands(data);
    }

    /** The per-atom members of an internal document. */
    method CopyAtoms(data: InternalData)
      modifies this`name, this`natoms, this`atomTypes, this`atomNumbers, this`atomicNumbers
      modifies this`atomPosCar, this`atomPosRed
      ensures name == data.name && natoms == data.natoms && atomTypes == data.atomTypes
      ensures atomNumbers == data.atomNumbers && atomicNumbers == data.atomicNumbers
      ensures atomPosCar == data.atomPosCar && atomPosRed == data.atomPosRed
    {
      name, natoms, atomTypes, atomNumbers := data.name, data.natoms, data.atomTypes, data.atomNumbers;
      atomicNumbers, atomPosCar, atomPosRed := data.atomicNumbers, data.atomPosCar, data.atomPosRed;
    }

    /** The lattice, path and eigen members of an internal document. */
    method CopyBands(data: InternalData)
      modifies this`lat, this`vec, this`kpoints, this`distances, this`formula, this`eigenvalues, this`repetitions
      ensures lat == data.lattice && vec == data.vectors && kpoints == data.qpoints
      ensures distances == data.distances && formula == data.formula
      ensures eigenvalues == data.eigenvalues && repetitions == data.repetitions
    {
      lat, vec, kpoints, distances := data.lattice, data.vectors, data.qpoints, data.distances;
      formula, eigenvalues, repetitions := data.formula, data.eigenvalues, data.repetitions;
    }

    /** The index and line-break part of `getFromInternalJson`, over the copied members. */
    method LoadInternalPath(data: InternalData) returns (ok: bool)
      modifies this`qindex, this`highsymQpts, this`lineBreaks
      ensures InternalIndexOf(data, distances, qindex, highsymQpts, ok)
      ensures lineBreaks == (if !ok then old(lineBreaks)
                             else if data.lineBreaks.Some? then data.lineBreaks.value
                             else DefaultLineBreaks(|kpoints|))
    {
      ok := LoadInternalIndex(data);
      if ok {
        GetLineBreaks(data.lineBreaks);
      }
    }

    /** The `qindex` and `highsym_qpts` loops of `getFromInternalJson`, over the copied distances. */
    method LoadInternalIndex(data: InternalData) returns (ok: bool)
      modifies this`qindex, this`highsymQpts
      ensures InternalIndexOf(data, distances, qindex, highsymQpts, ok)
    {
      var q := BuildQIndex(distances);
      var h: map<DistKey, string> := map[];
      ok := data.highsymQpts.Some?;
      if ok {
        h := RekeyPairs(distances, data.highsymQpts.value);
      }
      qindex, highsymQpts := q, h;
    }

    /** `getLineBreaks`: the document's `line_breaks` when present, else one segment over all qpoints. */
    method GetLineBreaks(given: Option<seq<Range>>)
      modifies this`lineBreaks
      ensures given.Some? ==> lineBreaks == given.value
      ensures given.None? ==> lineBreaks == DefaultLineBreaks(|kpoints|)
    {
      if given.Some? {
        lineBreaks := given.value;
      } else {
        lineBreaks := DefaultLineBreaks(|kpoints|);
      }
    }

    /**
     * `getFromPMGJson`, with the Euclidean distance `dist`, the conversion
     * `toCar` from reduced coordinates to Cartesian ones in the reciprocal
     * lattice of `data.lattice`, and the atomic-number table `table`. `ok`
     * is false where the eigen-data cannot be read; the old eigenvalues and
     * eigenvectors then stay. The formula and atomic-number members are not
     * touched.
     */
    method GetFromPMGJson(data: PMGData, dist: Metric, toCar: Point -> Point, table: map<string, int>)
      returns (ok: bool)
      modifies this`lat, this`repetitions, this`atomTypes, this`atomNumbers, this`atomPosCar, this`atomPosRed
      modifies this`natoms, this`name
      modifies this`kpoints, this`distances, this`lineBreaks, this`highsymQpts, this`qindex
      modifies this`eigenvalues, this`vec
      ensures StructureOf(data, table, lat, repetitions, atomTypes, atomNumbers, atomPosCar, atomPosRed, natoms, name)
      ensures PathOf(data, dist, toCar, kpoints, distances, lineBreaks, highsymQpts, qindex)
      ensures ok <==> TensorsShaped(data)
      ensures ok ==> TensorsOf(data, eigenvalues, vec)
      ensures !ok ==> eigenvalues == old(eigenvalues) && vec == old(vec)
    {
      LoadGeometry(data, dist, toCar, table);
      ok := LoadTensors(data);
    }

    /** The structure and path parts of `getFromPMGJson`. */
    method LoadGeometry(data: PMGData, dist: Metric, toCar: Point -> Point, table: map<string, int>)
      modifies this`lat, this`repetitions, this`atomTypes, this`atomNumbers, this`atomPosCar, this`atomPosRed
      modifies this`natoms, this`name
      modifies this`kpoints, this`distances, this`lineBreaks, this`highsymQpts, this`qindex
      ensures StructureOf(data, table, lat, repetitions, atomTypes, atomNumbers, atomPosCar, atomPosRed, natoms, name)
      ensures PathOf(data, dist, toCar, kpoints, distances, lineBreaks, highsymQpts, qindex)
    {
      LoadStructure(data, table);
      LoadPath(data, dist, toCar);
    }

    /** The structure part of `getFromPMGJson`. */
    method LoadStructure(data: PMGData, table: map<string, int>)
      modifies this`lat, this`repetitions, this`atomTypes, this`atomNumbers, this`atomPosCar, this`atomPosRed
      modifies this`natoms, this`name
      ensures StructureOf(data, table, lat, repetitions, atomTypes, atomNumbers, atomPosCar, atomPosRed, natoms, name)
    {
      lat, repetitions, atomTypes, atomNumbers, atomPosCar, atomPosRed, natoms, name := ReadStructure(data, table);
    }

    /** The path part of `getFromPMGJson`. */
    method LoadPath(data: PMGData, dist: Metric, toCar: Point -> Point)
      modifies this`kpoints, this`distances, this`lineBreaks, this`highsymQpts, this`qindex
      ensures PathOf(data, dist, toCar, kpoints, distances, lineBreaks, highsymQpts, qindex)
    {
      kpoints, distances, lineBreaks, highsymQpts, qindex := ReadPath(data, dist, toCar);
    }

    /** The eigen part of `getFromPMGJson`; `ok` is false where the tensors cannot be read. */
    method LoadTensors(data: PMGData) returns (ok: bool)
      modifies this`eigenvalues, this`vec
      ensures ok <==> TensorsShaped(data)
      ensures ok ==> TensorsOf(data, eigenvalues, vec)
      ensures !ok ==> eigenvalues == old(eigenvalues) && vec == old(vec)
    {
      if !TensorsShaped(data) {
        return false;
      }
      eigenvalues, vec := Reshape(data.bands, data.eigReal, data.eigImag, |data.sites|);
      ok := true;
    }
  }

  /** The structure part of `getFromPMGJson`, with the site loop, on values. */
  method ReadStructure(data: PMGData, table: map<string, int>)
    returns (lat: seq<Point>, repetitions: seq<int>, atomTypes: seq<string>, atomNumbers: seq<Option<int>>,
             atomPosCar: seq<Point>, atomPosRed: seq<Point>, natoms: int, name: string)
    ensures StructureOf(data, table, lat, repetitions, atomTypes, atomNumbers, atomPosCar, atomPosRed, natoms, name)
  {
    lat := data.lattice;
    repetitions := [3, 3, 3];
    var sites := data.sites;
    atomPosCar, atomPosRed, atomTypes, atomNumbers := [], [], [], [];
    var i := 0;
    while i < |sites|
      invariant 0 <= i <= |sites|
      invariant SitesCopied(sites[..i], table, atomTypes, atomNumbers, atomPosCar, atomPosRed)
    {
      var site := sites[i];
      atomTypes := atomTypes + [site.element];
      atomNumbers := atomNumbers + [AtomicNumberOf(table, site.element)];
      atomPosCar := atomPosCar + [site.xyz];
      atomPosRed := atomPosRed + [site.abc];
      i := i + 1;
    }
    assert sites[..i] == sites;
    natoms := |sites|;
    name := GetFormula(atomTypes);
  }

  /** The path part of `getFromPMGJson` on values: matching, walking and indexing the qpoints. */
  method ReadPath(data: PMGData, dist: Metric, toCar: Point -> Point)
    returns (kpoints: seq<Point>, distances: seq<real>, lineBreaks: seq<Range>,
             highsymQpts: map<DistKey, string>, qindex: map<real, nat>)
    ensures PathOf(data, dist, toCar, kpoints, distances, lineBreaks, highsymQpts, qindex)
  {
    kpoints := Cartesian(toCar, data.qpoints);
    var pointsRed, labels := SplitLabels(data.labelsDict);
    var hsPoints := Cartesian(toCar, pointsRed);
    var marks0 := MarkHighSymmetry(dist, kpoints, hsPoints, labels);
    var marks;
    distances, lineBreaks, marks := ReconstructPath(dist, kpoints, marks0);
    highsymQpts := RekeyMarks(distances, marks);
    qindex := BuildQIndex(distances);
  }
}
