# specutils analysis core: line flux, equivalent width and SNR

A Dafny model of the analysis layer of specutils. It computes three
diagnostics of a one-dimensional spectrum: the line flux, the equivalent
width and the mean signal-to-noise ratio (SNR). A spectrum has a spectral
axis, a flux array and an optional uncertainty. Each computation runs on
the whole spectrum, on one region, or once per region of a list.

Modules, one per concern:

- `Wrappers` (wrappers.dfy): `Option` and `Result`.
- `Units` (units.dfy): a unit is a product of named base units with integer
  powers. `Quantity` pairs a magnitude with a unit. `Times` and `Per` give
  the units of products and quotients. `CancelIff` says when a ratio's
  units cancel.
- `Numeric` (numeric.dfy): the NumPy reductions used, over `real`: `Sum`,
  `Dot` (`np.sum(a * b)`), `Diff` (`np.diff`), `Drop1` (`xs[1:]`) and
  `Mean` (`np.mean`). It also holds the telescoping lemma.
- `Spectra` (spectra.dfy): `Spectrum`, `Samples` (1-D or batched rows),
  `Uncertainty`, `Region`, the `Error` values, and `Extract` (a model of
  `region.extract`).
- `Regions` (regions.dfy): the `None` / one region / list-of-regions
  convention. `ComputationWrapper` models `computation_wrapper`.
- `Snr` (snr.dfy): `snr` and `_snr_single_region`.
- `Flux` (flux.dfy): `line_flux`, `equivalent_width`,
  `_compute_line_flux` and `_compute_equivalent_width`, plus the continuum
  handling.

Modelling choices:

- Numbers are `real`. NumPy's NaN or infinity becomes an `Err` value:
  `EmptyMean` for the mean of no samples and `DivisionByZero` for a zero
  divisor.
- A shape that does not broadcast becomes `Err(ShapeMismatch)`.
- A region is the sample range `[lo, hi)`. `Extract` slices the axis, the
  flux and the uncertainty with Python's clamping slice semantics. It keeps
  the units.
- The `region` argument is the variant `RegionArg`. Its case
  `Unrecognized` stands for any Python value that is neither `None`, a
  `SpectralRegion` nor a `list`.
- A continuum is a constant `Quantity` or an evaluable model (`real -> real`
  with a unit). The default `continuum=1` is the dimensionless constant 1.

Choices where the code's behaviour is easy to misread:

- An unrecognised region argument is not an error in `snr`. No branch of
  specutils/analysis/snr.py:34-44 matches it, so `snr` returns `None`
  (`NoResult`).
- The sentinel test is `continuum == 1` (specutils/analysis/flux.py:79). So
  an explicitly passed dimensionless 1 is also replaced by 1 in flux units,
  not only the default.
- The line flux pairs flux sample `i + 1` with spacing `i` of the original
  axis: a shifted Riemann sum in which each interval takes the flux at its
  right end, kept as written. `Flux.RegionLineFluxIsWhole` shows the
  consequence for a spectrum whose flux and axis have equal lengths. A
  region line flux that succeeds equals the whole-spectrum value. For a
  spectrum of at least two samples it succeeds only when the region keeps
  every sample.

## Model

| member | source | states |
|---|---|---|
| `Regions.ComputationWrapper` | specutils/analysis/snr.py:34-44 | no region runs the computation on the whole spectrum; one region runs it on that region; a list gives a list of the same length whose element i is the computation for region i; any other argument gives no result |
| `Regions.ManyIsEachOne` | specutils/analysis/snr.py:42-44 | under the dispatch convention, element i of a region list's result equals the single-region result for region i |
| `Spectra.Extract` | specutils/analysis/snr.py:71-74 | extraction keeps the units and the presence of the uncertainty and slices axis, flux and uncertainty alike |
| `Spectra.CalcSpectrum` | specutils/analysis/flux.py:58-61 | the spectrum worked on is the extraction when a region is given and the spectrum itself otherwise |
| `Snr.RowSnr` | specutils/analysis/snr.py:79-81 | the mean of flux/uncertainty over one row exists exactly when the lengths agree, the row is non-empty and no uncertainty is zero; mismatched lengths, a zero uncertainty and an empty row each give their own error |
| `Snr.RowSnrs` | specutils/analysis/snr.py:79-81 | reducing along the last axis gives one value per row, in row order, and value j is the mean of row j; it succeeds exactly when every row does |
| `Snr.SnrSingleRegion` | specutils/analysis/snr.py:71-81 | without an uncertainty the SNR fails; otherwise it is computed from the extracted flux and uncertainty magnitudes, in the unit flux unit over the original uncertainty unit; it succeeds whenever the extracted rows have a mean; 1-D flux gives a scalar and M rows give M values; 1-D flux against a batched uncertainty (or the reverse) is a shape mismatch |
| `Snr.Snr` | specutils/analysis/snr.py:34-44 | no region gives the whole-spectrum SNR; one region gives that region's SNR; a list of k regions gives k SNRs in order; any other argument gives no result |
| `Snr.SnrIsComputationWrapper` | specutils/analysis/snr.py:34-44 | `snr` dispatches exactly as `computation_wrapper` does |
| `Snr.ListOrderPreserved` | specutils/analysis/snr.py:42-44 | element i of `snr` over a region list equals `snr` over region i alone |
| `Snr.ProportionalFluxHasConstantSnr` | specutils/analysis/snr.py:76-81 | when flux is k times the uncertainty at every sample, the SNR is exactly k |
| `Snr.ZeroUncertaintyIsUndefined` | specutils/analysis/snr.py:77-81 | a zero uncertainty makes the SNR fail with a division error; it is never reported as a number |
| `Snr.BatchedIsPerRow` | specutils/analysis/snr.py:79-81 | batched flux of M rows whose rows all have a mean gives exactly M values; value j equals the SNR of row j taken as a 1-D spectrum; a row that fails makes the whole batch fail |
| `Snr.Quotients` | specutils/analysis/snr.py:81 | `flux / uncertainty` elementwise: one quotient per sample, and quotient i times uncertainty i gives flux i |
| `Numeric.DotIsProductSum` | specutils/analysis/flux.py:66 | `Dot`, the model of `np.sum(a * b)`, equals the index-by-index sum of a[i] * b[i] |
| `Numeric.SumOfConstant` | specutils/analysis/snr.py:81 | `Sum`, the model of the sum inside `np.mean`, gives n * c for n copies of c |
| `Numeric.Diff` | specutils/analysis/flux.py:64 | successive differences have one element fewer, and element i is x[i+1] - x[i] |
| `Numeric.Drop1` | specutils/analysis/flux.py:66 | `xs[1:]` has one element fewer (none for empty input), and element i is xs[i+1] |
| `Numeric.Mean` | specutils/analysis/snr.py:81 | the mean exists exactly for non-empty input, and the mean times the count is the sum |
| `Numeric.MeanOfConstant` | specutils/analysis/snr.py:81 | the mean of n copies of c is c |
| `Numeric.Telescoping` | specutils/analysis/flux.py:64-66 | unit weights on the successive differences of x add up to x[last] - x[0] |
| `Flux.ProductSumIsShiftedRiemannSum` | specutils/analysis/flux.py:64-66 | summing flux[1:][i] * diff(axis)[i] index by index gives the sum over i of flux[i+1] * (axis[i+1] - axis[i]) |
| `Flux.DotIsShiftedRiemannSum` | specutils/analysis/flux.py:64-66 | `np.sum(flux[1:] * np.diff(axis))` equals the sum over i of flux[i+1] * (axis[i+1] - axis[i]) |
| `Flux.ComputeLineFlux` | specutils/analysis/flux.py:56-69 | the line flux succeeds exactly when the extracted flux and the original axis have lengths that line up; its value is the sum over i of calc_flux[i+1] * (axis[i+1] - axis[i]) with the spacing from the original axis; its unit is flux unit times axis unit |
| `Flux.LineFlux` | specutils/analysis/flux.py:12-26 | `line_flux` applies `_compute_line_flux` to the whole spectrum, to one region, or to each region of a list in order |
| `Flux.WorkedExample` | specutils/analysis/flux.py:64-66 | axis [1, 2, 3] with flux [0, 10, 20] gives line flux 30 |
| `Flux.FirstSampleIgnored` | specutils/analysis/flux.py:66 | changing the first flux sample never changes the line flux |
| `Flux.RegionLineFluxIsWhole` | specutils/analysis/flux.py:58-66 | when flux and axis have equal lengths, a region line flux that succeeds equals the whole-spectrum line flux; for at least two samples the region then keeps every flux sample |
| `Flux.ResolveContinuum` | specutils/analysis/flux.py:49-50 | a model continuum is evaluated once, at every sample of the full spectral axis; a constant passes through |
| `Flux.EffectiveContinuum` | specutils/analysis/flux.py:79-80 | a constant dimensionless 1 becomes 1 in the flux unit of the spectrum worked on; any other continuum is kept |
| `Flux.Normalize` | specutils/analysis/flux.py:85 | dividing by the continuum keeps the axis; each normalised sample times its continuum level gives back the flux; the unit is flux unit over continuum unit; a zero level or a length mismatch fails |
| `Flux.ComputeEquivalentWidth` | specutils/analysis/flux.py:72-90 | an empty extracted axis fails; otherwise the width of the extracted axis minus the line flux of the continuum-normalised whole spectrum over the same region, in axis units |
| `Flux.EquivalentWidth` | specutils/analysis/flux.py:29-53 | the continuum is resolved once against the full spectrum; then the computation runs on the whole spectrum, one region, or each region of a list in order |
| `Flux.DefaultContinuumKeepsMagnitudes` | specutils/analysis/flux.py:79-80 | dividing by the default continuum leaves every flux magnitude unchanged and makes the flux dimensionless |
| `Flux.UnitsMustCancel` | specutils/analysis/flux.py:82-88 | when the earlier steps succeed, the equivalent width succeeds exactly when the continuum's unit equals the flux unit; otherwise it fails with incompatible units |
| `Flux.UnitNormalisedFluxHasZeroWidth` | specutils/analysis/flux.py:82-88 | with no region, normalised flux equal to 1 everywhere gives an equivalent width of exactly 0 |
| `Flux.FluxAtConstantContinuumHasZeroWidth` | specutils/analysis/flux.py:82-88 | flux equal to a non-zero constant continuum in flux units gives an equivalent width of 0 |
| `Flux.UnitFluxHasZeroWidthByDefault` | specutils/analysis/flux.py:79-88 | flux equal to 1 everywhere gives an equivalent width of 0 with the default continuum |
| `Flux.FluxAtModelContinuumHasZeroWidth` | specutils/analysis/flux.py:49-53 | flux equal to a non-zero model continuum at every sample gives an equivalent width of 0 |
| `Units.CancelIff` | specutils/analysis/flux.py:85-88 | the unit of (flux / continuum) times axis is the axis unit exactly when flux and continuum units are equal |

## Left out

- Floating point: values are reals. NaN and infinity become the errors
  `EmptyMean` and `DivisionByZero`.
- `Snr.RowSnrs`: when one row of a batch has a zero uncertainty or no
  samples, NumPy gives NaN or infinity for that row only. The model fails the
  whole result. It also reports the first failing row's error.
- Unit conversion: units are compared as exact products of named base
  units. Converting between scaled units of one dimension, such as nm and
  Angstrom or Jy and mJy, is not modelled. Such pairs count as incompatible.
- `Flux.EffectiveContinuum`: the `continuum == 1` test is taken as "value 1
  and dimensionless". Scaled dimensionless units (percent) are not modelled.
  For a per-sample continuum the test is skipped. In NumPy that comparison is
  elementwise, and its truth value is ambiguous for more than one sample.
- `Spectrum1D` and `SpectralRegion` are not part of this model.
  `region.extract` is a clamped slice of sample indices, not a search by
  spectral value. A region made of several sub-intervals is not modelled.
- `computation_wrapper` (specutils/analysis/utils.py) is not part of this
  model. `Regions.ComputationWrapper` gives it the three-way shape of `snr`.
- astropy `Model` evaluation: a model continuum is a function from axis
  value to level, with a unit.
- `Flux.ComputeEquivalentWidth`: a zero continuum level fails the width
  even at a sample the line flux never reads (the first sample of the
  extraction, or the only sample). In NumPy that sample becomes inf or NaN
  and is then dropped by `flux[1:]`, so the source returns a finite width.
  Here `Flux.Normalize` fails on any zero level.
- `Flux.Normalize`: the uncertainty that Spectrum1D division would
  propagate is dropped. The line flux never reads it.
- `Flux.ComputeLineFlux`, `Flux.LineFlux`, `Flux.ComputeEquivalentWidth`,
  `Flux.EquivalentWidth`, `Flux.Normalize`: these require 1-D flux. For a
  multi-dimensional flux, `flux[1:]` slices the leading axis and `np.sum`
  totals everything; that is not modelled.
- `Flux.ComputeLineFlux`, `Snr.RowSnr`, `Snr.SnrSingleRegion`: NumPy
  broadcasting is not modelled. An operand of length 1 would broadcast
  against a longer one, and a 1-D array against a batch. Here these are
  shape mismatches.
- Idempotence: every operation is a pure function of its inputs, so no
  separate property is stated.
