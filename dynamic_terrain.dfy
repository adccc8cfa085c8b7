/** The dynamic terrain: a flat grid of quad patches whose heights the GPU's
    tessellation shaders supply, so on the CPU side it keeps only the
    parameter state, the minimal tessellation level and the patch vertices. */
module DynamicTerrains {
  import opened Numerics
  import opened TerrainParameters
  import opened HeightfieldMesh
  import opened TerrainPatches

  /** The minimal tessellation level `generate` uses when none is given. */
  const DefaultMinTessLevel: real := 12.0

  /** `checkParameters(minTessLevel)`: a level that is zero or negative is
      replaced by epsilon (the warning it logs is not modelled). */
  method CheckTessellationLevel(minTessLevel: real) returns (t: real)
    ensures t > 0.0
    ensures minTessLevel > 0.0 ==> t == minTessLevel
    ensures t == Clamped(minTessLevel)
  {
    t := minTessLevel;
    if t <= 0.0 {
      t := Epsilon;
    }
  }

  class DynamicTerrain {
    var width: nat
    var depth: nat
    var heightFactor: real
    var flatness: real
    var invFlatness: real
    var minTessLevel: real

    /** The vertices of the terrain's only submesh, drawn as 4-vertex patches. */
    var vertices: seq<Vertex>

    /** The size the patches were last laid out for; `generate` does not
        store it in `m_width` and `m_depth`. */
    ghost var tiledWidth: nat
    ghost var tiledDepth: nat

    function Params(): Parameters
      reads this
    {
      Parameters(width, depth, heightFactor, flatness, invFlatness)
    }

    /** Either nothing was set yet, or both factors and the tessellation level
        are usable; the mesh is empty or the patch grid of the last
        `generate`. */
    ghost predicate Valid()
      reads this
    {
      && ((Ready(Params()) && minTessLevel > 0.0) || (Params() == Initial && minTessLevel == 0.0))
      && (vertices == [] || vertices == PatchVertices(tiledWidth, tiledDepth))
    }

    /** `DynamicTerrain(entity)` on the CPU side: every parameter zero and
        an empty mesh (its shader and texture set-up is not modelled). */
    constructor ()
      ensures Valid()
      ensures Params() == Initial && minTessLevel == 0.0 && vertices == []
    {
      width, depth := 0, 0;
      heightFactor, flatness, invFlatness := 0.0, 0.0, 0.0;
      minTessLevel := 0.0;
      vertices := [];
      tiledWidth, tiledDepth := 0, 0;
    }

    /** The dimensioned constructor: a fresh dynamic terrain, then the
        five-argument `generate`; the tessellation level defaults to 12. */
    constructor Generated(width: nat, depth: nat, heightFactor: real, flatness: real, minTessLevel: real := DefaultMinTessLevel)
      ensures Valid()
      ensures Params() == WithFactors(Initial, heightFactor, flatness)
      ensures this.minTessLevel == Clamped(minTessLevel)
      ensures vertices == PatchVertices(width, depth)
    {
      this.width, this.depth := 0, 0;
      this.heightFactor, this.flatness, this.invFlatness := 0.0, 0.0, 0.0;
      this.minTessLevel := 0.0;
      vertices := [];
      tiledWidth, tiledDepth := 0, 0;
      new;
      GenerateWithTessellation(width, depth, heightFactor, flatness, minTessLevel);
    }

    /** The three-argument `setParameters`: the base class stores the clamped
        factors, then the tessellation level is clamped and stored; the
        shader uniforms it sends are not modelled. */
    method SetParametersWithTessellation(minTessLevel: real, heightFactor: real, flatness: real)
      requires Valid()
      modifies this
      ensures Valid()
      ensures Params() == WithFactors(old(Params()), heightFactor, flatness)
      ensures this.minTessLevel == Clamped(minTessLevel)
      ensures vertices == old(vertices) && tiledWidth == old(tiledWidth) && tiledDepth == old(tiledDepth)
    {
      var h, f := CheckParameters(heightFactor, flatness);
      this.heightFactor := h;
      this.flatness := f;
      this.invFlatness := 1.0 / f;
      var t := CheckTessellationLevel(minTessLevel);
      this.minTessLevel := t;
    }

    /** The two-argument `setParameters`: the three-argument one with the
        stored tessellation level, which stays as it is once usable. */
    method SetParameters(heightFactor: real, flatness: real)
      requires Valid()
      modifies this
      ensures Valid()
      ensures Params() == WithFactors(old(Params()), heightFactor, flatness)
      ensures minTessLevel == Clamped(old(minTessLevel))
      ensures old(minTessLevel) > 0.0 ==> minTessLevel == old(minTessLevel)
      ensures vertices == old(vertices) && tiledWidth == old(tiledWidth) && tiledDepth == old(tiledDepth)
    {
      SetParametersWithTessellation(minTessLevel, heightFactor, flatness);
    }

    /** `setMinTessellationLevel`: the three-argument `setParameters` with the
        stored factors, which stay as they are once usable. */
    method SetMinTessellationLevel(minTessLevel: real)
      requires Valid()
      modifies this
      ensures Valid()
      ensures Params() == WithFactors(old(Params()), old(heightFactor), old(flatness))
      ensures old(Ready(Params())) ==> Params() == old(Params())
      ensures this.minTessLevel == Clamped(minTessLevel)
      ensures vertices == old(vertices) && tiledWidth == old(tiledWidth) && tiledDepth == old(tiledDepth)
    {
      if Ready(Params()) {
        WithCurrentFactorsIsIdentity(Params());
      }
      SetParametersWithTessellation(minTessLevel, heightFactor, flatness);
    }

    /** The five-argument `generate`: lay out 20 x 20 patches of 4 vertices
        over a `width` x `depth` area, then set the parameters; `m_width` and
        `m_depth` keep whatever they held. */
    method GenerateWithTessellation(width: nat, depth: nat, heightFactor: real, flatness: real, minTessLevel: real)
      requires Valid()
      modifies this
      ensures Valid()
      ensures Params() == WithFactors(old(Params()), heightFactor, flatness)
      ensures this.width == old(this.width) && this.depth == old(this.depth)
      ensures this.minTessLevel == Clamped(minTessLevel)
      ensures vertices == PatchVertices(width, depth) && |vertices| == PatchSlots
    {
      vertices := BuildPatches(vertices, width, depth);
      tiledWidth, tiledDepth := width, depth;
      SetParametersWithTessellation(minTessLevel, heightFactor, flatness);
    }

    /** The four-argument `generate`: the five-argument one with the default
        tessellation level 12. */
    method Generate(width: nat, depth: nat, heightFactor: real, flatness: real)
      requires Valid()
      modifies this
      ensures Valid()
      ensures Params() == WithFactors(old(Params()), heightFactor, flatness)
      ensures minTessLevel == DefaultMinTessLevel
      ensures vertices == PatchVertices(width, depth)
    {
      GenerateWithTessellation(width, depth, heightFactor, flatness, DefaultMinTessLevel);
    }
  }
}
