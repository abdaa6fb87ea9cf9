/**
 * The region calling convention shared by the analysis entry points: a
 * computation is run on the whole spectrum, on one region, or once per
 * region of a list, in the list's order.
 */
module Regions {
  import opened Wrappers
  import opened Spectra

  /**
   * The `region` argument: `None`, one region, a list of regions, or any
   * other value (which matches none of the three branches).
   */
  datatype RegionArg = NoRegion | One(region: Region) | Many(regions: seq<Region>) | Unrecognized

  /**
   * What a dispatched computation returns: one value, a list with one
   * value per region, or Python's `None` when the argument matched no branch.
   */
  datatype Dispatched<T> = Single(value: T) | PerRegion(values: seq<T>) | NoResult

  /**
   * `computation_wrapper(f, spectrum, region)`, where `f` is the single-region
   * computation with the spectrum (and any keyword arguments) already bound.
   */
  function ComputationWrapper<T>(f: Option<Region> -> T, arg: RegionArg): (r: Dispatched<T>)
    ensures arg.NoRegion? ==> r == Single(f(None))
    ensures arg.One? ==> r == Single(f(Some(arg.region)))
    ensures arg.Many? ==> r.PerRegion? && |r.values| == |arg.regions|
    ensures arg.Many? ==> forall i :: 0 <= i < |arg.regions| ==> r.values[i] == f(Some(arg.regions[i]))
    ensures arg.Unrecognized? <==> r.NoResult?
  {
    match arg
    case NoRegion => Single(f(None))
    case One(reg) => Single(f(Some(reg)))
    case Many(regs) => PerRegion(seq(|regs|, i requires 0 <= i < |regs| => f(Some(regs[i]))))
    case Unrecognized => NoResult
  }

  /**
   * A list of regions gives, at each position, what that region alone gives:
   * order is kept and each region is computed independently of the others.
   */
  lemma ManyIsEachOne<T>(f: Option<Region> -> T, regs: seq<Region>, i: nat)
    requires i < |regs|
    ensures ComputationWrapper(f, Many(regs)).values[i] == ComputationWrapper(f, One(regs[i])).value
  {
  }
}
