# PhononJson loader — a Dafny model

This project models the JSON loader of a phonon-dispersion visualiser
(`js/phononjson.js`). The loader fills one `PhononJson` object from a parsed
document. The document comes in one of two formats, and the `@class` key
decides which:

- the visualiser's own **internal** format. Its members are copied as they
  are, then the distance index `qindex` and the label map `highsym_qpts` are
  rebuilt and the line breaks are taken or defaulted;
- the **pymatgen** phonon band-structure format. From it the loader:
  - reads the structure (lattice, sites, atomic numbers, formula name);
  - matches the qpoints against the high-symmetry points of `labels_dict`;
  - walks the qpoint path to build cumulative distances and line breaks,
    merging the labels of adjacent high-symmetry points at a jump;
  - re-keys the labels by distance and builds `qindex`;
  - transposes the band-major frequency and eigen-displacement tensors into
    qpoint-major tables in cm^-1, with displacements scaled by 200.

Modules, one per part of the loader:

| module | file | models |
|---|---|---|
| `PhononTypes` | `types.dfy` | points, ranges, distance keys, constants, line-break tilings |
| `PointMatch` | `point_match.dfy` | `point_in_list` and the high-symmetry matching loop |
| `Formula` | `formula.dfy` | `get_formula` |
| `PathWalk` | `path_walk.dfy` | the distance / line-break / jump walk |
| `PathIndex` | `path_index.dfy` | the `qindex` and `highsym_qpts` loops |
| `Tensors` | `tensors.dfy` | the eigenvalue / eigenvector reshape |
| `Documents` | `documents.dfy` | the two document formats, and the per-part results stated on values |
| `PhononJson` | `phonon_json.dfy` | the `PhononJson` class: its fields and its loaders |

The class keeps the source's fields and updates them in place. Each loader
has `modifies` clauses and is proved against value-level predicates of the
`Documents` module. The loops run in module-level methods over values. The
class methods then assign the results to the fields.

Where a reader might expect otherwise, the model follows the code:

- `qindex[distances[i]] == i` holds only for distinct distances. A jump
  repeats a distance, and the later index then wins.
- The labels G, X, X, M give jumps at 1, 2 and 3. After a jump the next
  label is compared with the merged one, so a repeated label counts as
  another jump.
- An empty qpoint list gives the distances `[0]` and the line breaks `[[0, 0]]`.
- An internal document without `highsym_qpts` makes the source throw at
  its `length`, after `qindex` and the empty label map are set.

## Model

| member | source | states |
|---|---|---|
| `PhononTypes.TilesPartition` | js/phononjson.js:222-241 | a line-break tiling of `[0, n)` puts every qpoint index in exactly one segment |
| `PointMatch.PointInList` | js/phononjson.js:20-30 | a found index is the first point within 1e-4 of the query; not found exactly when no point is that close |
| `PointMatch.MarkHighSymmetry` | js/phononjson.js:212-219 | a qpoint index is marked iff some high-symmetry point is within the tolerance. Its label is that of the first such point, and no other index is marked |
| `Formula.GetFormula` | js/phononjson.js:40-54 | the name is each distinct label, in first-seen order, followed by its count in the atom list |
| `Formula.FirstSeenMembers` | js/phononjson.js:44-46 | a label appears in the formula iff it occurs among the atoms |
| `Formula.FirstSeenDistinct` | js/phononjson.js:50-52 | no label appears twice in the formula |
| `Formula.FirstSeenOrder` | js/phononjson.js:44-52 | labels appear in the order of their first occurrence |
| `Formula.CountsSumToAtoms` | js/phononjson.js:43-52 | the counts in the formula add up to the number of atoms |
| `Formula.WaterFormula` | js/phononjson.js:40-54 | `["O", "H", "H"]` gives `"O1H2"` |
| `PathWalk.ReconstructPath` | js/phononjson.js:221-241 | distances: one per qpoint, starting at 0, adding the step length except at jumps, non-decreasing. Line breaks: a tiling of the path into non-empty segments whose inner boundaries are exactly the jumps. Marks: the one before each jump is deleted; the rest carry their merged labels |
| `PathWalk.JumpMerge` | js/phononjson.js:230-231 | at a jump the mark at `nq` becomes its label, a bar and the label at `nq - 1`; the mark at `nq - 1` is deleted; every other mark is kept |
| `PathWalk.ConsecutiveJumps` | js/phononjson.js:228-231 | at two jumps in a row, the second mark carries both labels and the merged label before them |
| `PathWalk.ThreeLabels` | js/phononjson.js:228-231 | labels A, B, C jump at 1 and 2, and the last mark reads C, B and A joined by bars, newest first |
| `PathWalk.RepeatAfterJump` | js/phononjson.js:228-231 | after a jump, a mark that repeats the jump's own label is another jump |
| `PathWalk.RepeatedLabelScenario` | js/phononjson.js:226-240 | G, X, X, M jump at every step, and the last mark reads M, X, X and G joined by bars |
| `PathWalk.RepeatedLabelWalk` | js/phononjson.js:222-241 | the walk over four qpoints marked G, X, X, M has every distance 0 and the line breaks `[0,1)`, `[1,2)`, `[2,3)`, `[3,4)` |
| `PathWalk.EveryStepBreaks` | js/phononjson.js:232-241 | a tiling of four qpoints into non-empty segments with inner ends at 1, 2 and 3 is the tiling into single qpoints |
| `PathIndex.BuildQIndex` | js/phononjson.js:250-254 | `qindex` maps every distance, and nothing else, to the last index holding it |
| `PathIndex.LastIndexUnique` | js/phononjson.js:139-143 | the `qindex` characterisation determines the map |
| `PathIndex.QIndexInverse` | js/phononjson.js:250-254 | every distance is a key and looks up its own index or a later one |
| `PathIndex.QIndexOfDistinct` | js/phononjson.js:250-254 | for distinct distances `qindex` is the exact inverse of the distance list |
| `PathIndex.QIndexShadowed` | js/phononjson.js:228-254 | after a zero-length step, the earlier index is no longer reachable through `qindex` |
| `PathIndex.RekeyPairs` | js/phononjson.js:145-150 | `highsym_qpts` holds, for each key some pair wrote, the label of the last pair that wrote it, and no other key |
| `PathIndex.LastPairWriteStep` | js/phononjson.js:147-150 | one more pair overwrites its own key and keeps every other key |
| `PathIndex.RekeyMarks` | js/phononjson.js:243-248 | `highsym_qpts` maps each marked distance to the label of the highest-indexed mark sharing it, and holds no other key |
| `PathIndex.MarkLabelKept` | js/phononjson.js:243-248 | a mark that no later mark shares a distance with keeps its label |
| `PathIndex.HighSymKeysIndexed` | js/phononjson.js:243-254 | after a pymatgen load, every label key is a distance that `qindex` can look up |
| `PathIndex.PairKeysIndexed` | js/phononjson.js:139-150 | after an internal load, every label key is indexed when all label indices are in range. Any index out of range creates the key "undefined" |
| `Tensors.Reshape` | js/phononjson.js:261-298 | eigenvalues are the qpoint-major transpose of the bands, times 33.35641. Displacements are the qpoint-major transpose of the real and imaginary tensors, scaled by 200 |
| `Tensors.BandsRoundTrip` | js/phononjson.js:275-298 | transposing the eigenvalues back and dividing by 33.35641 gives the first `bands[0].length` frequencies of every band; a longer band's tail is never read |
| `Documents.SplitLabels` | js/phononjson.js:202-209 | entry `i` of `labels_dict` is `(labels[i], points[i])`, for every entry |
| `Documents.NoSitesReadNoDisplacements` | js/phononjson.js:284-293 | with no sites the eigen-displacements are never read, so a deep-enough bands table alone lets the reshape succeed |
| `Documents.NoQpointsReadNoDisplacements` | js/phononjson.js:264-275 | a band table without qpoints reads no eigen-displacements, so the reshape succeeds with empty tables |
| `Documents.DefaultLineBreaks` | js/phononjson.js:308-311 | with no line breaks given, one segment tiles the whole path |
| `PhononJson.ReadStructure` | js/phononjson.js:166-190 | lattice copied; repetitions `[3, 3, 3]`; per site, its label, atomic number and both positions in order; `natoms` is the site count; the name is the formula |
| `PhononJson.ReadPath` | js/phononjson.js:193-254 | Cartesian qpoints; the high-symmetry marks; the walk; the distance-keyed labels and `qindex` over the walk's distances |
| `PhononJson.PhononJson.GetFromJson` | js/phononjson.js:109-116 | with `@class`, the pymatgen load's whole outcome; without it, the internal load's, where success is exactly the presence of the `highsym_qpts` key and the given line breaks are used exactly when the `line_breaks` key is present |
| `PhononJson.PhononJson.GetFromInternalJson` | js/phononjson.js:118-156 | members copied, both index maps rebuilt. Failure iff `highsym_qpts` is missing, which leaves the line breaks untouched; otherwise they are as `getLineBreaks` gives them |
| `PhononJson.PhononJson.CopyMembers` | js/phononjson.js:124-137 | the fourteen copied members equal the document's |
| `PhononJson.PhononJson.CopyAtoms` | js/phononjson.js:124-130 | the per-atom members equal the document's |
| `PhononJson.PhononJson.CopyBands` | js/phononjson.js:131-137 | the lattice, path and eigen members equal the document's |
| `PhononJson.PhononJson.LoadInternalPath` | js/phononjson.js:139-153 | both index maps rebuilt; line breaks set only when the load succeeds |
| `PhononJson.PhononJson.LoadInternalIndex` | js/phononjson.js:139-150 | `qindex` from the copied distances; `highsym_qpts` re-keyed from the pairs, or empty and failure when they are missing |
| `PhononJson.PhononJson.GetLineBreaks` | js/phononjson.js:303-312 | the given line breaks when present, else one segment over all qpoints |
| `PhononJson.PhononJson.GetFromPMGJson` | js/phononjson.js:158-301 | structure and path as read. The eigen-data is reshaped exactly when the tensors can be read; otherwise the old tables stay. `formula` and `atomic_numbers` are not in its frame |
| `PhononJson.PhononJson.LoadGeometry` | js/phononjson.js:166-254 | the structure and path fields as `ReadStructure` and `ReadPath` define them |
| `PhononJson.PhononJson.LoadStructure` | js/phononjson.js:166-190 | the structure fields as `ReadStructure` defines them |
| `PhononJson.PhononJson.LoadPath` | js/phononjson.js:193-254 | the path fields as `ReadPath` defines them |
| `PhononJson.PhononJson.LoadTensors` | js/phononjson.js:261-298 | eigenvalues and eigenvectors reshaped exactly when the tensors can be read; otherwise unchanged |

## Left out

- `getFromURL`, `getFromFile`, `getFromString`, `getFromREST` and the callbacks: network, file and parsing I/O. The model starts from a parsed document (`Documents.Document`).
- `rec_lat`, `red_car_list` and the vector helpers: floating-point linear algebra. The reduced-to-Cartesian conversion is the parameter `toCar`.
- `distance`: the Euclidean distance is the parameter `dist`, assumed non-negative. Floating point is modelled by `real`.
- The `atomic_number` table, defined outside the loader, is the parameter `table`. A label it lacks gives `None`, where the source pushes `undefined`.
- `ev2cm1` is not used by the loader. `addatomphase` is a display flag that both loaders set to `false`; it is not modelled.
- `PhononJson.PhononJson.LoadTensors`: when the bands are empty, or (with at least one qpoint) a band is too short, or (with at least one qpoint and one site) a displacement tensor is too short or ragged, the model gives `ok == false` and keeps the old tables. The source throws on empty bands at `eig[0].length`, and otherwise yields `NaN` entries or throws midway with partly filled tables. Without sites or without qpoints the displacement tensors are never read, in the model as in the source.
- `Tensors.Reshape`: its requires admit only non-empty bands, bands at least as long as `bands[0]`, and (with at least one qpoint and one site) displacement tensors deep enough to hold three components per atom. The source throws on empty bands at `eig[0].length` (line 264), and reads a short band (line 280) or a short displacement (lines 288-290) as `undefined`, giving `NaN` entries; the model does not compute those `NaN` tables. The callers test these requires first (`Documents.TensorsShaped`).
- `PhononJson.PhononJson.GetFromPMGJson`: its eigen part is as weak as `LoadTensors`, for the same inputs and reason.
- `PhononJson.PhononJson.GetFromJson`: its pymatgen branch carries the `LoadTensors` gap (`ok == false` and the old tables where the source yields `NaN` or throws), and its internal branch carries the `GetFromInternalJson` gap for missing members. It requires `Documents.KeysAgree`: the document's optional internal members are read exactly when their keys are present, as `"line_breaks" in data` (line 305) and the read of `highsym_qpts` (line 147) decide it.
- `PhononJson.PhononJson.GetFromInternalJson`: the model takes every member other than `highsym_qpts` and `line_breaks` as present, and label indices as integers. In the source a missing member reads as `undefined`. Some of these throw: a missing `distances` throws at `this.distances.length` (line 141), and a missing `qpoints` without `line_breaks` throws at `this.kpoints.length` (line 310).
- `Formula.GetFormula`: the name follows insertion order. A `for..in` loop visits integer-like labels first; the model does not capture that. `labels_dict` is likewise given as a list in visiting order.
- JavaScript turns a number into a property name, so two distinct reals with the same printed form would share a key. The model keys `qindex` and `highsym_qpts` by the real itself.
- A pymatgen document always holds `structure`, its `lattice` and `sites`, `qpoints`, `labels_dict` and `bands` in the model (`Documents.PMGData`). The source throws when one is missing: for `structure` at line 169, for `sites` at `sites.length` (line 179), for `qpoints` inside `red_car_list` (line 34, called at line 194), and for `bands` at line 263.
- `get_formula` also assigns the undeclared global `name` as a side effect (line 49). The model keeps only its return value.
