/** The older terrain class: the parameter state of its header, the mesh it
    generates (vertex buffer and triangle index buffer, held by the engine's
    mesh component) and the three maps, with sequential loops throughout. */
module Terrains {
  import opened Numerics
  import opened TerrainParameters
  import opened HeightfieldMesh
  import opened TerrainMaps

  class Terrain {
    /** The engine's numeric primitives the terrain is built with. */
    const math: MathLib

    var width: nat
    var depth: nat
    var heightFactor: real
    var flatness: real
    var invFlatness: real

    /** The vertices and triangle indices of the terrain's only submesh. */
    var vertices: seq<Vertex>
    var indices: seq<nat>

    var colorMap: Image<byte>
    var normalMap: Image<byte>
    var slopeMap: Image<real>

    /** The parameter fields as one value. */
    function Params(): Parameters
      reads this
    {
      Parameters(width, depth, heightFactor, flatness, invFlatness)
    }

    /** Before the first `generate` every parameter is zero and the mesh is
        empty; afterwards both factors are usable. The vertex buffer always
        has `width * depth` entries with heights in [0, heightFactor] and
        bounded normals, and the index buffer is the one for the grid. */
    ghost predicate Valid()
      reads this
    {
      && Sound(math)
      && (Ready(Params()) || Params() == Initial)
      && |vertices| == width * depth
      && indices == IndexBuffer(width, depth)
      && HeightsWithin(vertices, heightFactor)
      && NormalsBounded(vertices)
    }

    /** `Terrain(entity)`: every parameter value-initialised to zero, an empty
        mesh and empty maps. */
    constructor (math: MathLib)
      requires Sound(math)
      ensures Valid() && this.math == math
      ensures Params() == Initial && vertices == [] && indices == []
      ensures colorMap == Image(0, 0, 0, []) && normalMap == Image(0, 0, 0, []) && slopeMap == Image(0, 0, 0, [])
    {
      this.math := math;
      width, depth := 0, 0;
      heightFactor, flatness, invFlatness := 0.0, 0.0, 0.0;
      vertices, indices := [], [];
      colorMap, normalMap, slopeMap := Image(0, 0, 0, []), Image(0, 0, 0, []), Image(0, 0, 0, []);
    }

    /** The dimensioned constructor: a fresh terrain, then `generate` with the
        same arguments. */
    constructor Generated(math: MathLib, width: nat, depth: nat, heightFactor: real, flatness: real)
      requires Sound(math)
      ensures Valid() && this.math == math
      ensures Params() == WithFactors(Parameters(width, depth, 0.0, 0.0, 0.0), heightFactor, flatness)
      ensures vertices == WithNormals(GridVertices(Resized([], width * depth, DefaultVertex), Params(), math), width, depth, math)
      ensures indices == IndexBuffer(width, depth)
    {
      this.math := math;
      this.width, this.depth := 0, 0;
      this.heightFactor, this.flatness, this.invFlatness := 0.0, 0.0, 0.0;
      vertices, indices := [], [];
      colorMap, normalMap, slopeMap := Image(0, 0, 0, []), Image(0, 0, 0, []), Image(0, 0, 0, []);
      new;
      Generate(width, depth, heightFactor, flatness);
    }

    /** `setHeightFactor(h)`: `setParameters(h, m_flatness)`; a usable flatness is kept. */
    method SetHeightFactor(heightFactor: real)
      requires Valid()
      modifies this
      ensures Valid()
      ensures Params() == WithFactors(old(Params()), heightFactor, old(flatness))
      ensures old(flatness) > 0.0 ==> flatness == old(flatness)
      ensures vertices == WithNormals(Remapped(old(vertices), old(Params()), Clamped(heightFactor), this.flatness, math), width, depth, math)
      ensures indices == old(indices) && colorMap == old(colorMap) && normalMap == old(normalMap) && slopeMap == old(slopeMap)
    {
      SetParameters(heightFactor, flatness);
    }

    /** `setFlatness(f)`: `setParameters(m_heightFactor, f)`; a usable height factor is kept. */
    method SetFlatness(flatness: real)
      requires Valid()
      modifies this
      ensures Valid()
      ensures Params() == WithFactors(old(Params()), old(heightFactor), flatness)
      ensures old(heightFactor) > 0.0 ==> heightFactor == old(heightFactor)
      ensures vertices == WithNormals(Remapped(old(vertices), old(Params()), this.heightFactor, Clamped(flatness), math), width, depth, math)
      ensures indices == old(indices) && colorMap == old(colorMap) && normalMap == old(normalMap) && slopeMap == old(slopeMap)
    {
      SetParameters(heightFactor, flatness);
    }

    /** `setParameters`: clamp both values, remap the heights from the curve
        of the stored parameters to the new one, and only then store the new
        factors and the inverse flatness. */
    method SetParameters(heightFactor: real, flatness: real)
      requires Valid()
      modifies this
      ensures Valid()
      ensures Params() == WithFactors(old(Params()), heightFactor, flatness)
      ensures vertices == WithNormals(Remapped(old(vertices), old(Params()), Clamped(heightFactor), Clamped(flatness), math), width, depth, math)
      ensures indices == old(indices) && colorMap == old(colorMap) && normalMap == old(normalMap) && slopeMap == old(slopeMap)
    {
      var h, f := CheckParameters(heightFactor, flatness);
      RemappedMeshValid(vertices, Params(), h, f, math);
      RemapVertices(h, f);
      this.heightFactor := h;
      this.flatness := f;
      this.invFlatness := 1.0 / f;
    }

    /** `generate`: store the dimensions and the clamped factors first, then
        resize the vertex buffer to `width * depth`, fill it, compute the
        normals and build the triangle index buffer, whose slots no cell
        writes hold 0 rather than indices left over from an earlier grid. */
    method Generate(width: nat, depth: nat, heightFactor: real, flatness: real)
      requires Valid()
      modifies this
      ensures Valid()
      ensures Params() == WithFactors(Parameters(width, depth, 0.0, 0.0, 0.0), heightFactor, flatness)
      ensures vertices == WithNormals(GridVertices(Resized(old(vertices), width * depth, DefaultVertex), Params(), math), width, depth, math)
      ensures indices == IndexBuffer(width, depth)
      ensures colorMap == old(colorMap) && normalMap == old(normalMap) && slopeMap == old(slopeMap)
    {
      this.width := width;
      this.depth := depth;
      var h, f := CheckParameters(heightFactor, flatness);
      this.heightFactor := h;
      this.flatness := f;
      this.invFlatness := 1.0 / f;
      GeneratedMeshValid(vertices, Params(), math);
      var resized := Resized(vertices, width * depth, DefaultVertex);
      vertices := FillVertices(resized, Params(), math);
      ComputeNormals();
      indices := BuildIndices(width, depth);
    }

    /** `computeColorMap`: the colour of every vertex's band, stored in
        `m_colorMap` and returned. */
    method ComputeColorMap() returns (img: Image<byte>)
      requires Valid()
      modifies this
      ensures Valid()
      ensures Params() == old(Params()) && vertices == old(vertices) && indices == old(indices)
      ensures normalMap == old(normalMap) && slopeMap == old(slopeMap)
      ensures img == colorMap == Image(width, depth, 3, ColorMapData(vertices, Params(), math))
    {
      img := ColorMapPass(vertices, Params(), width, depth, math);
      colorMap := img;
    }

    /** `computeNormalMap`: the normal of every vertex as bytes, each channel
        clamped at 0 before the conversion. */
    method ComputeNormalMap() returns (img: Image<byte>)
      requires Valid()
      modifies this
      ensures Valid()
      ensures Params() == old(Params()) && vertices == old(vertices) && indices == old(indices)
      ensures colorMap == old(colorMap) && slopeMap == old(slopeMap)
      ensures img == normalMap == Image(width, depth, 3, NormalMapData(vertices))
    {
      img := NormalMapPass(vertices, width, depth);
      normalMap := img;
    }

    /** `computeSlopeMap`: a single-channel float image holding the slope
        strength of every interior vertex. */
    method ComputeSlopeMap() returns (img: Image<real>)
      requires Valid()
      modifies this
      ensures Valid()
      ensures Params() == old(Params()) && vertices == old(vertices) && indices == old(indices)
      ensures colorMap == old(colorMap) && normalMap == old(normalMap)
      ensures img == slopeMap == Image(width, depth, 1, GraySlopeMapData(vertices, width, depth, math))
    {
      img := GraySlopeMapPass(vertices, width, depth, math);
      slopeMap := img;
    }

    /** `computeNormals`: the stencil normal of every interior vertex. */
    method ComputeNormals()
      requires |vertices| == width * depth
      modifies this
      ensures vertices == WithNormals(old(vertices), width, depth, math)
      ensures Params() == old(Params()) && indices == old(indices)
      ensures colorMap == old(colorMap) && normalMap == old(normalMap) && slopeMap == old(slopeMap)
    {
      vertices := NormalsPass(vertices, width, depth, math);
    }

    /** `remapVertices`: every height moved from the stored curve to the new
        one, then the normals recomputed; the parameters are not touched. */
    method RemapVertices(newHeightFactor: real, newFlatness: real)
      requires |vertices| == width * depth && (vertices == [] || heightFactor != 0.0)
      modifies this
      ensures Params() == old(Params()) && indices == old(indices)
      ensures vertices == WithNormals(Remapped(old(vertices), old(Params()), newHeightFactor, newFlatness, math), width, depth, math)
      ensures colorMap == old(colorMap) && normalMap == old(normalMap) && slopeMap == old(slopeMap)
    {
      vertices := RemapPass(vertices, Params(), newHeightFactor, newFlatness, math);
      ComputeNormals();
    }
  }
}
