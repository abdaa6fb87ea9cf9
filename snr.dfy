/**
 * Mean signal-to-noise ratio of a spectrum, over the whole spectrum, one
 * region, or each region of a list.
 */
module Snr {
  import opened Wrappers
  import opened Units
  import opened Numeric
  import opened Spectra
  import opened Regions

  /** A scalar SNR for 1-D flux, or one SNR per row for batched flux. */
  datatype Measure = Scalar(value: real) | PerRow(values: seq<real>)

  /** An SNR with the unit of flux over uncertainty. */
  datatype SnrValue = SnrValue(measure: Measure, unit: Unit)

  /** Elementwise `flux / uncertainty`. */
  function Quotients(f: seq<real>, u: seq<real>): (q: seq<real>)
    requires |f| == |u| && NonZero(u)
    ensures |q| == |f|
    ensures forall i :: 0 <= i < |q| ==> q[i] * u[i] == f[i]
  {
    seq(|f|, i requires 0 <= i < |f| => f[i] / u[i])
  }

  /**
   * `np.mean(flux / uncertainty)` over one row of samples.  Operands of
   * different lengths do not broadcast; a zero uncertainty makes the mean
   * infinite or NaN and an empty row makes it NaN: all three are failures.
   */
  function RowSnr(f: seq<real>, u: seq<real>): (r: Result<real, Error>)
    ensures r.Ok? <==> |f| == |u| && |f| > 0 && NonZero(u)
    ensures |f| != |u| ==> r == Err(ShapeMismatch)
    ensures |f| == |u| && !NonZero(u) ==> r == Err(DivisionByZero)
    ensures |f| == |u| == 0 ==> r == Err(EmptyMean)
    ensures r.Ok? ==> Mean(Quotients(f, u)) == Some(r.value)
  {
    if |f| != |u| then Err(ShapeMismatch)
    else if !NonZero(u) then Err(DivisionByZero)
    else
      match Mean(Quotients(f, u))
      case None => Err(EmptyMean)
      case Some(m) => Ok(m)
  }

  /**
   * `np.mean(flux / uncertainty, axis=-1)` for batched rows: the reduction
   * runs along each row only, giving one value per row, in row order.
   */
  function RowSnrs(fs: seq<seq<real>>, us: seq<seq<real>>): (r: Result<seq<real>, Error>)
    ensures r.Ok? <==> |fs| == |us| && forall j :: 0 <= j < |fs| ==> RowSnr(fs[j], us[j]).Ok?
    ensures r.Ok? ==> |r.value| == |fs|
    ensures r.Ok? ==> forall j :: 0 <= j < |fs| ==> r.value[j] == RowSnr(fs[j], us[j]).value
  {
    if |fs| != |us| then Err(ShapeMismatch)
    else if |fs| == 0 then Ok([])
    else
      match RowSnr(fs[0], us[0])
      case Err(e) => Err(e)
      case Ok(m) =>
        match RowSnrs(fs[1..], us[1..])
        case Err(e) => Err(e)
        case Ok(ms) => Ok([m] + ms)
  }

  /**
   * `_snr_single_region`: the SNR of the extracted spectrum (or of the whole
   * spectrum when no region is given).  The uncertainty magnitudes come from
   * the extracted spectrum and the uncertainty unit from the original one;
   * without an uncertainty the computation fails.
   */
  function SnrSingleRegion(s: Spectrum, region: Option<Region>): (r: Result<SnrValue, Error>)
    ensures s.uncertainty.None? ==> r == Err(MissingUncertainty)
    ensures r.Ok? ==> r.value.unit == Per(s.fluxUnit, s.uncertainty.value.unit)
    ensures r.Ok? ==> (r.value.measure.Scalar? <==> s.flux.Flat?)
    ensures r.Ok? && s.flux.Flat? ==>
      (var cs := CalcSpectrum(s, region);
       cs.uncertainty.value.magnitudes.Flat? &&
       RowSnr(cs.flux.values, cs.uncertainty.value.magnitudes.values) == Ok(r.value.measure.value))
    ensures r.Ok? && s.flux.Batched? ==>
      (var cs := CalcSpectrum(s, region);
       cs.uncertainty.value.magnitudes.Batched? &&
       |r.value.measure.values| == |s.flux.rows| == |cs.uncertainty.value.magnitudes.rows| &&
       forall j :: 0 <= j < |s.flux.rows| ==>
         RowSnr(cs.flux.rows[j], cs.uncertainty.value.magnitudes.rows[j]) == Ok(r.value.measure.values[j]))
    ensures s.uncertainty.Some? ==>
      (var cs := CalcSpectrum(s, region);
       var m := cs.uncertainty.value.magnitudes;
       (cs.flux.Flat? && m.Flat? && RowSnr(cs.flux.values, m.values).Ok? ==> r.Ok?) &&
       (cs.flux.Batched? && m.Batched? && RowSnrs(cs.flux.rows, m.rows).Ok? ==> r.Ok?) &&
       (cs.flux.Flat? != m.Flat? ==> r == Err(ShapeMismatch)))
  {
    var cs := CalcSpectrum(s, region);
    if cs.uncertainty.None? || s.uncertainty.None? then Err(MissingUncertainty)
    else
      var unit := Per(cs.fluxUnit, s.uncertainty.value.unit);
      match (cs.flux, cs.uncertainty.value.magnitudes)
      case (Flat(f), Flat(u)) =>
        (match RowSnr(f, u)
         case Err(e) => Err(e)
         case Ok(m) => Ok(SnrValue(Scalar(m), unit)))
      case (Batched(fs), Batched(us)) =>
        (match RowSnrs(fs, us)
         case Err(e) => Err(e)
         case Ok(ms) => Ok(SnrValue(PerRow(ms), unit)))
      case _ => Err(ShapeMismatch)
  }

  /**
   * `snr(spectrum, region)`: the whole spectrum for no region, the region's
   * extraction for one region, and one independent SNR per region, in order,
   * for a list; any other argument yields no result.
   */
  function Snr(s: Spectrum, arg: RegionArg): (r: Dispatched<Result<SnrValue, Error>>)
    ensures arg.NoRegion? ==> r == Single(SnrSingleRegion(s, None))
    ensures arg.One? ==> r == Single(SnrSingleRegion(s, Some(arg.region)))
    ensures arg.Many? ==> r.PerRegion? && |r.values| == |arg.regions|
    ensures arg.Many? ==> forall i :: 0 <= i < |arg.regions| ==> r.values[i] == SnrSingleRegion(s, Some(arg.regions[i]))
    ensures arg.Unrecognized? ==> r == NoResult
  {
    if arg.NoRegion? then Single(SnrSingleRegion(s, None))
    else if arg.One? then Single(SnrSingleRegion(s, Some(arg.region)))
    else if arg.Many? then PerRegion(seq(|arg.regions|, i requires 0 <= i < |arg.regions| => SnrSingleRegion(s, Some(arg.regions[i]))))
    else NoResult
  }

  /** `snr` follows the same three-way convention as `computation_wrapper`. */
  lemma SnrIsComputationWrapper(s: Spectrum, arg: RegionArg)
    ensures Snr(s, arg) == ComputationWrapper(reg => SnrSingleRegion(s, reg), arg)
  {
  }

  /**
   * A list of regions gives, at position i, the SNR of region i alone,
   * whatever the regions' positions along the spectral axis.
   */
  lemma ListOrderPreserved(s: Spectrum, regs: seq<Region>, i: nat)
    requires i < |regs|
    ensures Snr(s, Many(regs)).values[i] == Snr(s, One(regs[i])).value
  {
  }

  /** When flux is k times the uncertainty at every sample, the mean SNR is k. */
  lemma {:induction false} ProportionalFluxHasConstantSnr(f: seq<real>, u: seq<real>, k: real)
    requires |f| == |u| > 0 && NonZero(u)
    requires forall i :: 0 <= i < |f| ==> f[i] == k * u[i]
    ensures RowSnr(f, u) == Ok(k)
  {
    var q := Quotients(f, u);
    forall i | 0 <= i < |q|
      ensures q[i] == k
    {
      assert q[i] * u[i] == k * u[i];
    }
    assert q == seq(|f|, _ => k);
    MeanOfConstant(|f|, k);
  }

  /**
   * A zero in the uncertainty makes the SNR of a whole 1-D spectrum fail;
   * it is never reported as zero.
   */
  lemma ZeroUncertaintyIsUndefined(s: Spectrum, i: nat)
    requires s.flux.Flat? && s.uncertainty.Some? && s.uncertainty.value.magnitudes.Flat?
    requires |s.flux.values| == |s.uncertainty.value.magnitudes.values|
    requires i < |s.uncertainty.value.magnitudes.values| && s.uncertainty.value.magnitudes.values[i] == 0.0
    ensures SnrSingleRegion(s, None) == Err(DivisionByZero)
  {
  }

  /**
   * Batched flux of M rows gives exactly M values when every row has a mean,
   * and value j is the SNR of row j taken as a 1-D spectrum of its own; a row
   * that fails makes the whole batch fail.
   */
  lemma BatchedIsPerRow(s: Spectrum, j: nat)
    requires s.flux.Batched? && s.uncertainty.Some? && s.uncertainty.value.magnitudes.Batched?
    requires |s.flux.rows| == |s.uncertainty.value.magnitudes.rows| && j < |s.flux.rows|
    ensures
      (var u := s.uncertainty.value;
       var row := s.(flux := Flat(s.flux.rows[j]), uncertainty := Some(Uncertainty(Flat(u.magnitudes.rows[j]), u.unit)));
       var whole := SnrSingleRegion(s, None);
       ((forall k :: 0 <= k < |s.flux.rows| ==> RowSnr(s.flux.rows[k], u.magnitudes.rows[k]).Ok?) ==>
          whole.Ok? && |whole.value.measure.values| == |s.flux.rows|) &&
       (whole.Ok? ==>
          |whole.value.measure.values| == |s.flux.rows| &&
          SnrSingleRegion(row, None) == Ok(SnrValue(Scalar(whole.value.measure.values[j]), whole.value.unit))) &&
       (SnrSingleRegion(row, None).Err? ==> whole.Err?))
  {
  }
}
