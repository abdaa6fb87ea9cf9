/**
 * Line flux and equivalent width of a 1-D spectrum, over the whole
 * spectrum, one region, or each region of a list.
 */
module Flux {
  import opened Wrappers
  import opened Units
  import opened Numeric
  import opened Spectra
  import opened Regions

  /**
   * The shifted Riemann sum written index by index (flux sample i + 1 times
   * spacing i, so each interval takes the flux at its right end):
   * the sum over i from `from` to |axis| - 2 of flux[i + 1] * (axis[i + 1] - axis[i]).
   */
  function ShiftedRiemannSum(flux: seq<real>, axis: seq<real>, from: nat): real
    requires |axis| <= |flux| || |axis| <= 1
    decreases |axis| - from
  {
    if from + 1 >= |axis| then 0.0
    else flux[from + 1] * (axis[from + 1] - axis[from]) + ShiftedRiemannSum(flux, axis, from + 1)
  }

  /** The index-by-index sum equals the shifted Riemann sum, term by term. */
  lemma {:induction false} ProductSumIsShiftedRiemannSum(flux: seq<real>, axis: seq<real>, a: seq<real>, b: seq<real>, from: nat)
    requires |axis| <= |flux| || |axis| <= 1
    requires |a| == |b| && |b| == (if |axis| == 0 then 0 else |axis| - 1) && from <= |a|
    requires forall i :: 0 <= i < |a| ==> a[i] == flux[i + 1]
    requires forall i :: 0 <= i < |b| ==> b[i] == axis[i + 1] - axis[i]
    ensures ProductSumFrom(a, b, from) == ShiftedRiemannSum(flux, axis, from)
    decreases |a| - from
  {
    if from < |a| {
      ProductSumIsShiftedRiemannSum(flux, axis, a, b, from + 1);
    }
  }

  /** `np.sum(flux[1:] * np.diff(axis))` is the index-by-index shifted Riemann sum. */
  lemma DotIsShiftedRiemannSum(flux: seq<real>, axis: seq<real>)
    requires |Drop1(flux)| == |Diff(axis)|
    ensures |axis| <= |flux| || |axis| <= 1
    ensures Dot(Drop1(flux), Diff(axis)) == ShiftedRiemannSum(flux, axis, 0)
  {
    var a, b := Drop1(flux), Diff(axis);
    DotIsProductSum(a, b, 0);
    assert a[0..] == a && b[0..] == b;
    ProductSumIsShiftedRiemannSum(flux, axis, a, b, 0);
  }

  /**
   * `_compute_line_flux`: the flux of the extracted spectrum from its second
   * sample on, weighted by the spacing of the ORIGINAL spectral axis, so that
   * flux sample i + 1 pairs with spacing i.  The two arrays must have the same
   * length (a mismatch is a broadcasting failure); the first flux sample
   * never contributes.  The unit is flux unit times axis unit.
   */
  function ComputeLineFlux(s: Spectrum, region: Option<Region>): (r: Result<Quantity, Error>)
    requires s.flux.Flat?
    ensures var f := CalcSpectrum(s, region).flux.values;
      r.Ok? <==> |f| == |s.axis| || (|f| <= 1 && |s.axis| <= 1)
    ensures r.Err? ==> r.error == ShapeMismatch
    ensures r.Ok? ==>
      r.value == Quantity(ShiftedRiemannSum(CalcSpectrum(s, region).flux.values, s.axis, 0), Times(s.fluxUnit, s.axisUnit))
  {
    var cs := CalcSpectrum(s, region);
    var dx := Diff(s.axis);
    var f := Drop1(cs.flux.values);
    if |f| != |dx| then Err(ShapeMismatch)
    else
      DotIsShiftedRiemannSum(cs.flux.values, s.axis);
      Ok(Quantity(Dot(f, dx), Times(cs.fluxUnit, s.axisUnit)))
  }

  /** `line_flux(spectrum, region)`: `_compute_line_flux` under the region convention. */
  function LineFlux(s: Spectrum, arg: RegionArg): (r: Dispatched<Result<Quantity, Error>>)
    requires s.flux.Flat?
    ensures arg.NoRegion? ==> r == Single(ComputeLineFlux(s, None))
    ensures arg.One? ==> r == Single(ComputeLineFlux(s, Some(arg.region)))
    ensures arg.Many? ==> r.PerRegion? && |r.values| == |arg.regions|
    ensures arg.Many? ==> forall i :: 0 <= i < |arg.regions| ==> r.values[i] == ComputeLineFlux(s, Some(arg.regions[i]))
    ensures arg.Unrecognized? ==> r == NoResult
  {
    ComputationWrapper(reg => ComputeLineFlux(s, reg), arg)
  }

  /** Axis [1, 2, 3] with flux [0, 10, 20]: spacing [1, 1], line flux 10 + 20 = 30. */
  lemma WorkedExample(u: Unit, v: Unit)
    ensures ComputeLineFlux(Spectrum([1.0, 2.0, 3.0], u, Flat([0.0, 10.0, 20.0]), v, None), None)
         == Ok(Quantity(30.0, Times(v, u)))
  {
  }

  /** The first flux sample never enters the line flux. */
  lemma FirstSampleIgnored(s: Spectrum, x: real)
    requires s.flux.Flat? && |s.flux.values| > 0
    ensures ComputeLineFlux(s.(flux := Flat(s.flux.values[0 := x])), None) == ComputeLineFlux(s, None)
  {
    var f, g := s.flux.values, s.flux.values[0 := x];
    if |s.axis| <= |f| || |s.axis| <= 1 {
      SameTailSameSum(f, g, s.axis, 0);
    }
  }

  lemma {:induction false} SameTailSameSum(f: seq<real>, g: seq<real>, axis: seq<real>, from: nat)
    requires |f| == |g| > 0 && f[1..] == g[1..]
    requires |axis| <= |f| || |axis| <= 1
    ensures ShiftedRiemannSum(f, axis, from) == ShiftedRiemannSum(g, axis, from)
    decreases |axis| - from
  {
    if from + 1 < |axis| {
      assert f[from + 1] == f[1..][from] == g[1..][from] == g[from + 1];
      SameTailSameSum(f, g, axis, from + 1);
    }
  }

  /**
   * Because the spacing always comes from the original axis, a region line
   * flux of a consistent spectrum equals the whole-spectrum line flux when
   * it succeeds; for a spectrum of at least two samples it succeeds only
   * when the region keeps the whole sampling grid.
   */
  lemma RegionLineFluxIsWhole(s: Spectrum, r: Region)
    requires s.flux.Flat? && |s.flux.values| == |s.axis|
    requires ComputeLineFlux(s, Some(r)).Ok?
    ensures ComputeLineFlux(s, Some(r)) == ComputeLineFlux(s, None)
    ensures |s.axis| >= 2 ==> Extract(r, s).flux == s.flux
  {
    var f := Extract(r, s).flux.values;
    if |f| == |s.axis| {
      FullSliceIsWhole(s.flux.values, r);
    } else {
      assert ShiftedRiemannSum(f, s.axis, 0) == 0.0;
      assert ShiftedRiemannSum(s.flux.values, s.axis, 0) == 0.0;
    }
  }

  /**
   * The `continuum` argument: a constant (a plain number is a dimensionless
   * constant) or a model that can be evaluated at spectral-axis values.
   */
  datatype Continuum = Constant(level: Quantity) | Evaluable(model: real -> real, unit: Unit)

  /** A continuum after model evaluation: a constant, or one level per sample. */
  datatype ResolvedContinuum = ConstantLevel(level: Quantity) | PerSample(levels: seq<real>, unit: Unit)

  /** The default `continuum=1`, a plain dimensionless one. */
  const DefaultContinuum: Continuum := Constant(Quantity(1.0, Dimensionless))

  /** The unit a continuum divides flux by. */
  function ContinuumUnit(c: ResolvedContinuum): Unit
  {
    if c.ConstantLevel? then c.level.unit else c.unit
  }

  /**
   * A model continuum is evaluated once, at every sample of the full,
   * unrestricted spectral axis; a constant is passed on as it is.
   */
  function ResolveContinuum(c: Continuum, s: Spectrum): (rc: ResolvedContinuum)
    ensures c.Constant? ==> rc == ConstantLevel(c.level)
    ensures c.Evaluable? ==> rc.PerSample? && rc.unit == c.unit && |rc.levels| == |s.axis|
    ensures c.Evaluable? ==> forall i :: 0 <= i < |s.axis| ==> rc.levels[i] == c.model(s.axis[i])
  {
    match c
    case Constant(q) => ConstantLevel(q)
    case Evaluable(m, u) => PerSample(seq(|s.axis|, i requires 0 <= i < |s.axis| => m(s.axis[i])), u)
  }

  /**
   * A constant continuum equal to the dimensionless 1 is replaced by 1 in the
   * flux unit of the spectrum worked on; every other continuum is kept.
   */
  function EffectiveContinuum(c: ResolvedContinuum, cs: Spectrum): (e: ResolvedContinuum)
    ensures c == ConstantLevel(Quantity(1.0, Dimensionless)) ==> e == ConstantLevel(Quantity(1.0, cs.fluxUnit))
    ensures c != ConstantLevel(Quantity(1.0, Dimensionless)) ==> e == c
  {
    if c == ConstantLevel(Quantity(1.0, Dimensionless)) then ConstantLevel(Quantity(1.0, cs.fluxUnit)) else c
  }

  /**
   * `spectrum / continuum` on the whole spectrum: every flux sample divided by
   * its continuum level, in the unit flux unit over continuum unit.  A zero
   * level fails; a per-sample continuum must match the flux in length.
   */
  function Normalize(s: Spectrum, c: ResolvedContinuum): (r: Result<Spectrum, Error>)
    requires s.flux.Flat?
    ensures c.ConstantLevel? ==> (r.Ok? <==> c.level.value != 0.0)
    ensures c.PerSample? ==> (r.Ok? <==> |c.levels| == |s.flux.values| && NonZero(c.levels))
    ensures r.Ok? ==> r.value.axis == s.axis && r.value.axisUnit == s.axisUnit
    ensures r.Ok? ==> r.value.fluxUnit == Per(s.fluxUnit, ContinuumUnit(c))
    ensures r.Ok? ==> r.value.flux.Flat? && |r.value.flux.values| == |s.flux.values|
    ensures r.Ok? && c.ConstantLevel? ==>
      forall i :: 0 <= i < |s.flux.values| ==> r.value.flux.values[i] * c.level.value == s.flux.values[i]
    ensures r.Ok? && c.PerSample? ==>
      forall i :: 0 <= i < |s.flux.values| ==> r.value.flux.values[i] * c.levels[i] == s.flux.values[i]
  {
    var f := s.flux.values;
    match c
    case ConstantLevel(q) =>
      if q.value == 0.0 then Err(DivisionByZero)
      else Ok(s.(flux := Flat(seq(|f|, i requires 0 <= i < |f| => f[i] / q.value)),
                 fluxUnit := Per(s.fluxUnit, q.unit), uncertainty := None))
    case PerSample(levels, u) =>
      if |levels| != |f| then Err(ShapeMismatch)
      else if !NonZero(levels) then Err(DivisionByZero)
      else Ok(s.(flux := Flat(seq(|f|, i requires 0 <= i < |f| => f[i] / levels[i])),
                 fluxUnit := Per(s.fluxUnit, u), uncertainty := None))
  }

  /**
   * `_compute_equivalent_width`: the width of the extracted spectral axis
   * (last value minus first) minus the line flux of the continuum-normalised
   * whole spectrum, with the region re-extracted inside the line-flux step.
   * The result is in axis units; the subtraction fails when the units of
   * flux and continuum do not cancel.
   */
  function ComputeEquivalentWidth(s: Spectrum, c: ResolvedContinuum, region: Option<Region>): (r: Result<Quantity, Error>)
    requires s.flux.Flat?
    ensures |CalcSpectrum(s, region).axis| == 0 ==> r == Err(EmptyAxis)
    ensures r.Ok? ==> r.value.unit == s.axisUnit
    ensures r.Ok? ==>
      (var cs := CalcSpectrum(s, region);
       var n := Normalize(s, EffectiveContinuum(c, cs));
       n.Ok? && ComputeLineFlux(n.value, region).Ok? &&
       r.value.value == (cs.axis[|cs.axis| - 1] - cs.axis[0]) - ComputeLineFlux(n.value, region).value.value)
  {
    var cs := CalcSpectrum(s, region);
    var cont := EffectiveContinuum(c, cs);
    if |cs.axis| == 0 then Err(EmptyAxis)
    else
      var dx := cs.axis[|cs.axis| - 1] - cs.axis[0];
      match Normalize(s, cont)
      case Err(e) => Err(e)
      case Ok(n) =>
        match ComputeLineFlux(n, region)
        case Err(e) => Err(e)
        case Ok(lf) =>
          if lf.unit == cs.axisUnit then Ok(Quantity(dx - lf.value, cs.axisUnit)) else Err(IncompatibleUnits)
  }

  /**
   * `equivalent_width(spectrum, continuum, region)`: the continuum is resolved
   * once against the full spectrum, then `_compute_equivalent_width` runs
   * under the region convention.
   */
  function EquivalentWidth(s: Spectrum, c: Continuum, arg: RegionArg): (r: Dispatched<Result<Quantity, Error>>)
    requires s.flux.Flat?
    ensures arg.NoRegion? ==> r == Single(ComputeEquivalentWidth(s, ResolveContinuum(c, s), None))
    ensures arg.One? ==> r == Single(ComputeEquivalentWidth(s, ResolveContinuum(c, s), Some(arg.region)))
    ensures arg.Many? ==> r.PerRegion? && |r.values| == |arg.regions|
    ensures arg.Many? ==> forall i :: 0 <= i < |arg.regions| ==>
      r.values[i] == ComputeEquivalentWidth(s, ResolveContinuum(c, s), Some(arg.regions[i]))
    ensures arg.Unrecognized? ==> r == NoResult
  {
    var rc := ResolveContinuum(c, s);
    ComputationWrapper(reg => ComputeEquivalentWidth(s, rc, reg), arg)
  }

  /** Dividing by the default continuum leaves every flux magnitude unchanged. */
  lemma DefaultContinuumKeepsMagnitudes(s: Spectrum)
    requires s.flux.Flat?
    ensures var n := Normalize(s, EffectiveContinuum(ResolveContinuum(DefaultContinuum, s), s));
      n.Ok? && n.value.flux == s.flux && n.value.fluxUnit == Dimensionless
  {
    PerSelf(s.fluxUnit);
    var n := Normalize(s, EffectiveContinuum(ResolveContinuum(DefaultContinuum, s), s));
    assert n.value.flux.values == s.flux.values;
  }

  /**
   * When the units of flux and continuum cancel the equivalent width is a
   * length in axis units; otherwise the final subtraction fails.
   */
  lemma UnitsMustCancel(s: Spectrum, c: ResolvedContinuum, region: Option<Region>)
    requires s.flux.Flat?
    requires |CalcSpectrum(s, region).axis| > 0
    requires Normalize(s, EffectiveContinuum(c, CalcSpectrum(s, region))).Ok?
    requires ComputeLineFlux(Normalize(s, EffectiveContinuum(c, CalcSpectrum(s, region))).value, region).Ok?
    ensures ComputeEquivalentWidth(s, c, region).Ok? <==>
      ContinuumUnit(EffectiveContinuum(c, CalcSpectrum(s, region))) == s.fluxUnit
    ensures ComputeEquivalentWidth(s, c, region).Err? ==> ComputeEquivalentWidth(s, c, region).error == IncompatibleUnits
  {
    CancelIff(s.fluxUnit, ContinuumUnit(EffectiveContinuum(c, CalcSpectrum(s, region))), s.axisUnit);
  }

  /**
   * With no region, a spectrum whose continuum-normalised flux is 1 at every
   * sample has equivalent width exactly zero: the line flux telescopes to
   * the width of the axis.
   */
  lemma {:induction false} UnitNormalisedFluxHasZeroWidth(s: Spectrum, c: ResolvedContinuum)
    requires s.flux.Flat? && |s.flux.values| == |s.axis| >= 1
    requires ContinuumUnit(EffectiveContinuum(c, s)) == s.fluxUnit
    requires Normalize(s, EffectiveContinuum(c, s)).Ok?
    requires forall i :: 0 <= i < |s.axis| ==> Normalize(s, EffectiveContinuum(c, s)).value.flux.values[i] == 1.0
    ensures ComputeEquivalentWidth(s, c, None) == Ok(Quantity(0.0, s.axisUnit))
  {
    var n := Normalize(s, EffectiveContinuum(c, s)).value;
    var ones := seq(|s.axis| - 1, _ => 1.0);
    assert Drop1(n.flux.values) == ones;
    Telescoping(s.axis);
    PerSelf(s.fluxUnit);
    TimesDimensionless(s.axisUnit);
    assert ComputeLineFlux(n, None) == Ok(Quantity(s.axis[|s.axis| - 1] - s.axis[0], s.axisUnit));
  }

  /**
   * Flux equal to a non-zero constant continuum in the flux unit, at every
   * sample, gives equivalent width zero over the whole spectrum.
   */
  lemma FluxAtConstantContinuumHasZeroWidth(s: Spectrum, q: Quantity)
    requires s.flux.Flat? && |s.flux.values| == |s.axis| >= 1
    requires q.value != 0.0 && q.unit == s.fluxUnit
    requires forall i :: 0 <= i < |s.axis| ==> s.flux.values[i] == q.value
    ensures EquivalentWidth(s, Constant(q), NoRegion) == Single(Ok(Quantity(0.0, s.axisUnit)))
  {
    var c := ConstantLevel(q);
    assert EffectiveContinuum(c, s) == c;
    var n := Normalize(s, c).value;
    forall i | 0 <= i < |s.axis|
      ensures n.flux.values[i] == 1.0
    {
      assert n.flux.values[i] * q.value == q.value;
    }
    UnitNormalisedFluxHasZeroWidth(s, c);
  }

  /**
   * Flux that is 1 in its own unit at every sample has equivalent width zero
   * against the default continuum.
   */
  lemma UnitFluxHasZeroWidthByDefault(s: Spectrum)
    requires s.flux.Flat? && |s.flux.values| == |s.axis| >= 1
    requires forall i :: 0 <= i < |s.axis| ==> s.flux.values[i] == 1.0
    ensures EquivalentWidth(s, DefaultContinuum, NoRegion) == Single(Ok(Quantity(0.0, s.axisUnit)))
  {
    DefaultContinuumKeepsMagnitudes(s);
    UnitNormalisedFluxHasZeroWidth(s, ResolveContinuum(DefaultContinuum, s));
  }

  /**
   * Flux equal, at every sample, to a non-zero model continuum in the flux
   * unit gives equivalent width zero over the whole spectrum.
   */
  lemma FluxAtModelContinuumHasZeroWidth(s: Spectrum, m: real -> real)
    requires s.flux.Flat? && |s.flux.values| == |s.axis| >= 1
    requires forall i :: 0 <= i < |s.axis| ==> m(s.axis[i]) != 0.0 && s.flux.values[i] == m(s.axis[i])
    ensures EquivalentWidth(s, Evaluable(m, s.fluxUnit), NoRegion) == Single(Ok(Quantity(0.0, s.axisUnit)))
  {
    var c := ResolveContinuum(Evaluable(m, s.fluxUnit), s);
    assert EffectiveContinuum(c, s) == c;
    assert NonZero(c.levels);
    var n := Normalize(s, c).value;
    forall i | 0 <= i < |s.axis|
      ensures n.flux.values[i] == 1.0
    {
      assert n.flux.values[i] * c.levels[i] == c.levels[i];
    }
    UnitNormalisedFluxHasZeroWidth(s, c);
  }
}
