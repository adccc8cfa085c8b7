/** The parameter state every terrain variant keeps (`m_width`, `m_depth`,
    `m_heightFactor`, `m_flatness`, `m_invFlatness`) and the clamp that
    validates height factor, flatness and tessellation level. */
module TerrainParameters {
  import opened Numerics

  datatype Parameters = Parameters(
    width: nat,
    depth: nat,
    heightFactor: real,
    flatness: real,
    invFlatness: real)

  /** Every field is value-initialised to zero before the first `generate`. */
  const Initial: Parameters := Parameters(0, 0, 0.0, 0.0, 0.0)

  /** Both factors are usable: positive, with the cached inverse of the flatness. */
  predicate Ready(p: Parameters) {
    p.heightFactor > 0.0 && p.flatness > 0.0 && p.invFlatness == 1.0 / p.flatness
  }

  /** The warn-and-clamp policy: a value that is zero or negative becomes epsilon. */
  function Clamped(v: real): (r: real)
    ensures r > 0.0
    ensures v > 0.0 ==> r == v
  {
    if v <= 0.0 then Epsilon else v
  }

  /** Clamping a value that was already clamped changes nothing. */
  lemma ClampedIdempotent(v: real)
    ensures Clamped(Clamped(v)) == Clamped(v)
  {
  }

  /** `checkParameters(heightFactor, flatness)`: both reference arguments are
      clamped independently; the warnings it logs are not modelled. */
  method CheckParameters(heightFactor: real, flatness: real) returns (h: real, f: real)
    ensures h > 0.0 && f > 0.0
    ensures heightFactor > 0.0 ==> h == heightFactor
    ensures heightFactor <= 0.0 ==> h == Epsilon
    ensures flatness > 0.0 ==> f == flatness
    ensures flatness <= 0.0 ==> f == Epsilon
  {
    h, f := heightFactor, flatness;
    if h <= 0.0 {
      h := Epsilon;
    }
    if f <= 0.0 {
      f := Epsilon;
    }
  }

  /** The parameter state once clamped factors are stored: the new height
      factor and flatness and the inverse flatness; the dimensions are kept. */
  function WithFactors(p: Parameters, heightFactor: real, flatness: real): (q: Parameters)
    ensures Ready(q)
    ensures q.width == p.width && q.depth == p.depth
    ensures q.heightFactor == Clamped(heightFactor) && q.flatness == Clamped(flatness)
  {
    var h := Clamped(heightFactor);
    var f := Clamped(flatness);
    p.(heightFactor := h, flatness := f, invFlatness := 1.0 / f)
  }

  /** Storing the factors of a state that is already ready gives it back:
      re-applying the current parameters is a no-op on the parameter state. */
  lemma WithCurrentFactorsIsIdentity(p: Parameters)
    requires Ready(p)
    ensures WithFactors(p, p.heightFactor, p.flatness) == p
  {
  }

  /** `setHeightFactor(h)` is `setParameters(h, m_flatness)`: a positive
      flatness is kept as it is. */
  lemma SetHeightFactorKeepsFlatness(p: Parameters, heightFactor: real)
    requires p.flatness > 0.0
    ensures WithFactors(p, heightFactor, p.flatness).flatness == p.flatness
    ensures WithFactors(p, heightFactor, p.flatness).invFlatness == 1.0 / p.flatness
  {
  }

  /** `setFlatness(f)` is `setParameters(m_heightFactor, f)`: a positive
      height factor is kept as it is. */
  lemma SetFlatnessKeepsHeightFactor(p: Parameters, flatness: real)
    requires p.heightFactor > 0.0
    ensures WithFactors(p, p.heightFactor, flatness).heightFactor == p.heightFactor
  {
  }

  /** The cached inverse really is the inverse of the flatness. */
  lemma InverseFlatness(p: Parameters)
    requires Ready(p)
    ensures p.invFlatness > 0.0 && p.invFlatness * p.flatness == 1.0
  {
  }
}
