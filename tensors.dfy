/**
 * The tensor reshape of `getFromPMGJson`: band-major frequencies in
 * terahertz become qpoint-major frequencies in reciprocal centimetres, and
 * the band-major real and imaginary eigen-displacement tensors become one
 * qpoint-major tensor of scaled `[real, imag]` pairs.
 */
module Tensors {
  import opened PhononTypes

  /** Every band row holds at least `nqpoints` frequencies. */
  predicate BandsShaped(bands: seq<seq<real>>, nqpoints: nat)
  {
    forall n :: 0 <= n < |bands| ==> |bands[n]| >= nqpoints
  }

  /**
   * A `[band][qpoint][atom][component]` tensor holds at least the entries
   * the reshape reads: `nbands` bands, `nqpoints` qpoints, `natoms` atoms
   * and three components. Without atoms or without qpoints the reshape
   * reads none of it.
   */
  predicate DisplacementsShaped(t: seq<seq<seq<seq<real>>>>, nbands: nat, nqpoints: nat, natoms: nat)
  {
    natoms > 0 && nqpoints > 0 ==>
      && |t| >= nbands
      && forall n :: 0 <= n < nbands ==>
           && |t[n]| >= nqpoints
           && forall q :: 0 <= q < nqpoints ==>
                && |t[n][q]| >= natoms
                && forall a :: 0 <= a < natoms ==> |t[n][q][a]| >= 3
  }

  /** `eig` is the qpoint-major transpose of `bands`, every frequency converted to cm^-1. */
  ghost predicate IsEigenvalueTable(eig: seq<seq<real>>, bands: seq<seq<real>>, nqpoints: nat)
    requires BandsShaped(bands, nqpoints)
  {
    && |eig| == nqpoints
    && forall q :: 0 <= q < nqpoints ==>
         && |eig[q]| == |bands|
         && forall n :: 0 <= n < |bands| ==> eig[q][n] == bands[n][q] * Thz2Cm1
  }

  /**
   * `vec` is the `[qpoint][band][atom][component]` tensor of scaled pairs
   * `[re * 200, im * 200]` read at `[band][qpoint][atom][component]`; with
   * no atoms every mode is the empty list.
   */
  ghost predicate IsDisplacementTable(vec: seq<seq<seq<seq<Cplx>>>>, re: seq<seq<seq<seq<real>>>>,
                                      im: seq<seq<seq<seq<real>>>>, nbands: nat, nqpoints: nat, natoms: nat)
    requires DisplacementsShaped(re, nbands, nqpoints, natoms)
    requires DisplacementsShaped(im, nbands, nqpoints, natoms)
  {
    && |vec| == nqpoints
    && forall q :: 0 <= q < nqpoints ==>
         && |vec[q]| == nbands
         && forall n :: 0 <= n < nbands ==>
              if natoms == 0 then vec[q][n] == [] else AtomsScaled(vec[q][n], re[n][q], im[n][q], natoms)
  }

  /** The displacements of `natoms` atoms of one mode at one qpoint, componentwise scaled. */
  ghost predicate AtomsScaled(atoms: seq<seq<Cplx>>, re: seq<seq<real>>, im: seq<seq<real>>, natoms: nat)
    requires |re| >= natoms && |im| >= natoms
    requires forall a :: 0 <= a < natoms ==> |re[a]| >= 3 && |im[a]| >= 3
  {
    && |atoms| == natoms
    && forall a :: 0 <= a < natoms ==>
         && |atoms[a]| == 3
         && forall c :: 0 <= c < 3 ==> atoms[a][c] == Cplx(re[a][c] * EigenScale, im[a][c] * EigenScale)
  }

  /** One atom: the x, y and z components as scaled `[real, imag]` pairs; extra components are ignored. */
  function ScaleAtom(re: seq<real>, im: seq<real>): seq<Cplx>
    requires |re| >= 3 && |im| >= 3
  {
    [Cplx(re[0] * EigenScale, im[0] * EigenScale),
     Cplx(re[1] * EigenScale, im[1] * EigenScale),
     Cplx(re[2] * EigenScale, im[2] * EigenScale)]
  }

  /**
   * The nested qpoint / band / atom loop that builds `eigenvalues` and `vec`
   * together, with `nbands = bands.length` and `nqpoints = bands[0].length`.
   */
  method Reshape(bands: seq<seq<real>>, re: seq<seq<seq<seq<real>>>>, im: seq<seq<seq<seq<real>>>>, natoms: nat)
    returns (eigenvalues: seq<seq<real>>, vec: seq<seq<seq<seq<Cplx>>>>)
    requires |bands| > 0
    requires BandsShaped(bands, |bands[0]|)
    requires DisplacementsShaped(re, |bands|, |bands[0]|, natoms)
    requires DisplacementsShaped(im, |bands|, |bands[0]|, natoms)
    ensures IsEigenvalueTable(eigenvalues, bands, |bands[0]|)
    ensures IsDisplacementTable(vec, re, im, |bands|, |bands[0]|, natoms)
  {
    var nbands := |bands|;
    var nqpoints := |bands[0]|;
    eigenvalues := [];
    vec := [];
    var nq := 0;
    while nq < nqpoints
      invariant 0 <= nq <= nqpoints
      invariant |eigenvalues| == nq && |vec| == nq
      invariant forall q :: 0 <= q < nq ==>
                  && |eigenvalues[q]| == nbands
                  && forall n :: 0 <= n < nbands ==> eigenvalues[q][n] == bands[n][q] * Thz2Cm1
      invariant forall q :: 0 <= q < nq ==>
                  && |vec[q]| == nbands
                  && forall n :: 0 <= n < nbands ==>
                       if natoms == 0 then vec[q][n] == [] else AtomsScaled(vec[q][n], re[n][q], im[n][q], natoms)
    {
      var eigQpoint: seq<real> := [];
      var eivQpoint: seq<seq<seq<Cplx>>> := [];
      var n := 0;
      while n < nbands
        invariant 0 <= n <= nbands
        invariant |eigQpoint| == n && |eivQpoint| == n
        invariant forall m :: 0 <= m < n ==> eigQpoint[m] == bands[m][nq] * Thz2Cm1
        invariant forall m :: 0 <= m < n ==>
                    if natoms == 0 then eivQpoint[m] == [] else AtomsScaled(eivQpoint[m], re[m][nq], im[m][nq], natoms)
      {
        eigQpoint := eigQpoint + [bands[n][nq] * Thz2Cm1];
        var atoms: seq<seq<Cplx>> := [];
        var a := 0;
        while a < natoms
          invariant 0 <= a <= natoms
          invariant |atoms| == a
          invariant forall b :: 0 <= b < a ==>
                      && |atoms[b]| == 3
                      && forall c :: 0 <= c < 3 ==>
                           atoms[b][c] == Cplx(re[n][nq][b][c] * EigenScale, im[n][nq][b][c] * EigenScale)
        {
          atoms := atoms + [ScaleAtom(re[n][nq][a], im[n][nq][a])];
          a := a + 1;
        }
        eivQpoint := eivQpoint + [atoms];
        n := n + 1;
      }
      eigenvalues := eigenvalues + [eigQpoint];
      vec := vec + [eivQpoint];
      nq := nq + 1;
    }
  }

  /** The band-major table read back from a qpoint-major one, converted back to terahertz. */
  function BandMajor(eig: seq<seq<real>>, nbands: nat): (bands: seq<seq<real>>)
    requires forall q :: 0 <= q < |eig| ==> |eig[q]| == nbands
    ensures |bands| == nbands && forall n :: 0 <= n < nbands ==> |bands[n]| == |eig|
  {
    seq(nbands, n requires 0 <= n < nbands => seq(|eig|, q requires 0 <= q < |eig| => eig[q][n] / Thz2Cm1))
  }

  /**
   * The reshape loses nothing: transposing the eigenvalue table back and
   * undoing the unit conversion gives the first `nqpoints` frequencies of
   * every band.
   */
  lemma BandsRoundTrip(eig: seq<seq<real>>, bands: seq<seq<real>>, nqpoints: nat)
    requires BandsShaped(bands, nqpoints)
    requires IsEigenvalueTable(eig, bands, nqpoints)
    ensures BandMajor(eig, |bands|) == seq(|bands|, n requires 0 <= n < |bands| => bands[n][..nqpoints])
  {
    var back := BandMajor(eig, |bands|);
    forall n | 0 <= n < |bands| ensures back[n] == bands[n][..nqpoints] {
      forall q | 0 <= q < nqpoints ensures back[n][q] == bands[n][q] {
        assert eig[q][n] == bands[n][q] * Thz2Cm1;
      }
    }
  }
}
