/**
 * The spectrum and region collaborators, as far as the analysis routines
 * use them: a spectral axis with its unit, a flux array with its unit, an
 * optional uncertainty, and `Region.extract`, modelled as a contiguous
 * slice of samples.
 */
module Spectra {
  import opened Wrappers
  import opened Units

  /**
   * Sample values along the spectral axis: a 1-D array of N values, or a
   * batch of rows (shape (M, N)) that share one spectral axis.
   */
  datatype Samples = Flat(values: seq<real>) | Batched(rows: seq<seq<real>>)

  /** An uncertainty array and its unit. */
  datatype Uncertainty = Uncertainty(magnitudes: Samples, unit: Unit)

  /** A one-dimensional spectrum. */
  datatype Spectrum = Spectrum(
    axis: seq<real>,
    axisUnit: Unit,
    flux: Samples,
    fluxUnit: Unit,
    uncertainty: Option<Uncertainty>)

  /** A spectral region, given as the sample range [lo, hi) it selects. */
  datatype Region = Region(lo: nat, hi: nat)

  /** Why a computation fails; NaN and infinite results are failures here. */
  datatype Error =
    | MissingUncertainty   // the spectrum has no uncertainty
    | ShapeMismatch        // operands whose shapes do not line up
    | DivisionByZero       // a zero divisor (NumPy gives inf or NaN)
    | EmptyMean            // the mean of no samples (NumPy gives NaN)
    | EmptyAxis            // indexing the ends of an empty spectral axis
    | IncompatibleUnits    // subtracting quantities of different units

  /** First index the region keeps in a sequence of length n. */
  function Start(r: Region, n: nat): (i: nat)
    ensures i <= n
  {
    if r.lo < n then r.lo else n
  }

  /** One past the last index the region keeps in a sequence of length n. */
  function Stop(r: Region, n: nat): (j: nat)
    ensures Start(r, n) <= j <= n
  {
    if r.hi < Start(r, n) then Start(r, n) else if r.hi < n then r.hi else n
  }

  /** The slice `xs[lo:hi]`, clamped to the sequence as Python slicing is. */
  function Slice(xs: seq<real>, r: Region): (t: seq<real>)
    ensures |t| == Stop(r, |xs|) - Start(r, |xs|) <= |xs|
    ensures forall i :: 0 <= i < |t| ==> t[i] == xs[Start(r, |xs|) + i]
  {
    xs[Start(r, |xs|)..Stop(r, |xs|)]
  }

  /** A slice that keeps as many samples as there are is the whole sequence. */
  lemma FullSliceIsWhole(xs: seq<real>, r: Region)
    requires |Slice(xs, r)| == |xs|
    ensures Slice(xs, r) == xs
  {
    assert Start(r, |xs|) == 0;
  }

  /** The same slice applied to every sample array. */
  function SliceSamples(a: Samples, r: Region): (b: Samples)
    ensures b.Flat? <==> a.Flat?
    ensures a.Flat? ==> b.values == Slice(a.values, r)
    ensures a.Batched? ==> |b.rows| == |a.rows|
    ensures a.Batched? ==> forall j :: 0 <= j < |a.rows| ==> b.rows[j] == Slice(a.rows[j], r)
  {
    match a
    case Flat(v) => Flat(Slice(v, r))
    case Batched(rows) => Batched(seq(|rows|, j requires 0 <= j < |rows| => Slice(rows[j], r)))
  }

  /**
   * `region.extract(spectrum)`: a new spectrum restricted to the region's
   * samples, with the same units and an uncertainty exactly when the
   * original has one.
   */
  function Extract(r: Region, s: Spectrum): (e: Spectrum)
    ensures e.axis == Slice(s.axis, r)
    ensures e.axisUnit == s.axisUnit && e.fluxUnit == s.fluxUnit
    ensures e.flux == SliceSamples(s.flux, r)
    ensures e.uncertainty.Some? <==> s.uncertainty.Some?
    ensures s.uncertainty.Some? ==>
      e.uncertainty.value == Uncertainty(SliceSamples(s.uncertainty.value.magnitudes, r), s.uncertainty.value.unit)
  {
    Spectrum(
      Slice(s.axis, r),
      s.axisUnit,
      SliceSamples(s.flux, r),
      s.fluxUnit,
      match s.uncertainty
      case None => None
      case Some(u) => Some(Uncertainty(SliceSamples(u.magnitudes, r), u.unit)))
  }

  /**
   * The spectrum a computation works on: the extracted one when a region
   * is given, the spectrum itself otherwise.
   */
  function CalcSpectrum(s: Spectrum, region: Option<Region>): (c: Spectrum)
    ensures region.None? ==> c == s
    ensures region.Some? ==> c == Extract(region.value, s)
  {
    match region
    case None => s
    case Some(r) => Extract(r, s)
  }
}
