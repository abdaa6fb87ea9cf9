/**
 * Physical units as symbolic products of named base units.
 * A unit maps each base-unit name to its (non-zero) power, so that
 * `Jy * Angstrom` is `map["Jy" := 1, "Angstrom" := 1]` and a
 * dimensionless quantity has the empty map.  Two quantities can be added
 * or subtracted exactly when their units are equal.
 */
module Units {

  type Unit = p: map<string, int> | forall k :: k in p ==> p[k] != 0 witness map[]

  /** A magnitude together with its unit. */
  datatype Quantity = Quantity(value: real, unit: Unit)

  const Dimensionless: Unit := map[]

  /** The power of base unit `k` in `u` (zero when `k` does not occur). */
  function Power(u: Unit, k: string): int
  {
    if k in u then u[k] else 0
  }

  /** The unit of a product: powers add. */
  function Times(u: Unit, v: Unit): (w: Unit)
    ensures forall k :: Power(w, k) == Power(u, k) + Power(v, k)
  {
    map k | k in u.Keys + v.Keys && Power(u, k) + Power(v, k) != 0 :: Power(u, k) + Power(v, k)
  }

  /** The unit of a quotient: powers subtract. */
  function Per(u: Unit, v: Unit): (w: Unit)
    ensures forall k :: Power(w, k) == Power(u, k) - Power(v, k)
  {
    map k | k in u.Keys + v.Keys && Power(u, k) - Power(v, k) != 0 :: Power(u, k) - Power(v, k)
  }

  /** Units are equal exactly when every base unit has the same power in both. */
  lemma SamePowers(u: Unit, v: Unit)
    requires forall k :: Power(u, k) == Power(v, k)
    ensures u == v
  {
    forall k
      ensures k in u <==> k in v
    {
      assert Power(u, k) == Power(v, k);
    }
    forall k | k in u
      ensures u[k] == v[k]
    {
      assert Power(u, k) == Power(v, k);
    }
  }

  /** Dividing a unit by itself leaves a dimensionless ratio. */
  lemma PerSelf(u: Unit)
    ensures Per(u, u) == Dimensionless
  {
    SamePowers(Per(u, u), Dimensionless);
  }

  /** Multiplying by a dimensionless ratio keeps the unit. */
  lemma TimesDimensionless(u: Unit)
    ensures Times(Dimensionless, u) == u
  {
    SamePowers(Times(Dimensionless, u), u);
  }

  /**
   * `(f / c) * a` has the unit `a` exactly when `f` and `c` are the same unit:
   * the units of a ratio cancel only when numerator and denominator agree.
   */
  lemma CancelIff(f: Unit, c: Unit, a: Unit)
    ensures Times(Per(f, c), a) == a <==> f == c
  {
    if f == c {
      PerSelf(f);
      TimesDimensionless(a);
    } else if Times(Per(f, c), a) == a {
      forall k
        ensures Power(f, k) == Power(c, k)
      {
        assert Power(Times(Per(f, c), a), k) == Power(a, k);
      }
      SamePowers(f, c);
    }
  }
}
