/** The heightfield mesh passes shared by `Terrain` and `StaticTerrain`: the
    vertex fill of `generate`, the finite-difference normals, the height remap
    of `setParameters` and the triangle index buffer.

    Each pass is a method whose loops follow the C++ loops (a
    `Threading::parallelize` over disjoint slots becomes a sequential loop over
    the same range) and whose result is tied to a specification function; the
    lemmas state what the source promises about those functions. */
module HeightfieldMesh {
  import opened Numerics
  import opened TerrainParameters
  import opened Grid
  import opened Buffers

  /** `Raz::Vertex`. */
  datatype Vertex = Vertex(position: Vec3, texcoords: Vec2, normal: Vec3, tangent: Vec3)

  /** A value-initialised vertex: every component zero. */
  const DefaultVertex: Vertex := Vertex(Zero3, Vec2(0.0, 0.0), Zero3, Zero3)

  /** `std::vector::resize(n)`: the first elements are kept, new ones are `fill`. */
  function Resized<T>(s: seq<T>, n: nat, fill: T): (r: seq<T>)
    ensures |r| == n
    ensures forall k :: 0 <= k < n && k < |s| ==> r[k] == s[k]
    ensures forall k :: |s| <= k < n ==> r[k] == fill
  {
    seq(n, k requires 0 <= k < n => if k < |s| then s[k] else fill)
  }

  /** Every height lies in [0, heightFactor]. */
  ghost predicate HeightsWithin(vs: seq<Vertex>, heightFactor: real) {
    forall k :: 0 <= k < |vs| ==> 0.0 <= vs[k].position.y <= heightFactor
  }

  /** Every normal has its components in [-1, 1]. */
  ghost predicate NormalsBounded(vs: seq<Vertex>) {
    forall k :: 0 <= k < |vs| ==> UnitBounded(vs[k].normal)
  }

  // ---------------------------------------------------------------------------
  // Vertex fill (`generate`)

  /** Vertex `k` after the fill: cell `(k % width, k / width)`, height
      `pow(noise, flatness) * heightFactor`, x and z recentred by half the
      width and scaled by 0.5, texture coordinates `(x / width, z / depth)`.
      Normal and tangent are those already in the buffer. */
  function GridVertex(prior: Vertex, k: nat, p: Parameters, math: MathLib): Vertex
    requires p.width > 0 && p.depth > 0
  {
    var x := Column(k, p.width) as real;
    var z := Row(k, p.width) as real;
    var w := p.width as real;
    var noise := math.pow(math.noise(x / 100.0, z / 100.0), p.flatness);
    prior.(position := Vec3((x - w * 0.5) * 0.5, noise * p.heightFactor, (z - w * 0.5) * 0.5),
           texcoords := Vec2(x / w, z / p.depth as real))
  }

  /** The whole buffer after the fill. */
  function GridVertices(prior: seq<Vertex>, p: Parameters, math: MathLib): (r: seq<Vertex>)
    requires |prior| == p.width * p.depth
    ensures |r| == |prior|
  {
    if p.width == 0 || p.depth == 0 then prior
    else seq(|prior|, k requires 0 <= k < |prior| => GridVertex(prior[k], k, p, math))
  }

  /** The vertex loop of `generate`: every vertex of the resized buffer gets its
      position and texture coordinates. */
  method FillVertices(prior: seq<Vertex>, p: Parameters, math: MathLib) returns (vs: seq<Vertex>)
    requires |prior| == p.width * p.depth
    ensures vs == GridVertices(prior, p, math)
  {
    vs := prior;
    var i := 0;
    while i < |vs|
      invariant 0 <= i <= |vs| == |prior|
      invariant (p.width > 0 && p.depth > 0) || i == |vs|
      invariant forall k :: 0 <= k < i ==> vs[k] == GridVertex(prior[k], k, p, math)
      invariant forall k :: i <= k < |vs| ==> vs[k] == prior[k]
    {
      vs := vs[i := GridVertex(vs[i], i, p, math)];
      i := i + 1;
    }
  }

  /** The vertex at column `x` of row `z` is placed at that cell: its texture
      coordinates are `(x / width, z / depth)`, both in [0, 1), and its x and z
      positions are `(x - width/2) * 0.5` and `(z - width/2) * 0.5`. */
  lemma GridVertexAtCell(prior: Vertex, x: nat, z: nat, p: Parameters, math: MathLib)
    requires x < p.width && z < p.depth
    ensures var v := GridVertex(prior, IndexOf(x, z, p.width), p, math);
            && v.texcoords == Vec2(x as real / p.width as real, z as real / p.depth as real)
            && 0.0 <= v.texcoords.x < 1.0 && 0.0 <= v.texcoords.y < 1.0
            && v.position.x == (x as real - p.width as real * 0.5) * 0.5
            && v.position.z == (z as real - p.width as real * 0.5) * 0.5
  {
    CellRoundTrip(x, z, p.width);
    var w, d := p.width as real, p.depth as real;
    assert x as real / w < 1.0 by { assert x as real < w; }
    assert z as real / d < 1.0 by { assert z as real < d; }
  }

  /** With normalised noise and ready parameters every height of the filled
      buffer lies in [0, heightFactor]; normals and tangents are untouched. */
  lemma GridVerticesInRange(prior: seq<Vertex>, p: Parameters, math: MathLib)
    requires |prior| == p.width * p.depth && Ready(p) && Sound(math)
    ensures HeightsWithin(GridVertices(prior, p, math), p.heightFactor)
    ensures forall k :: 0 <= k < |prior| ==>
              GridVertices(prior, p, math)[k].normal == prior[k].normal
              && GridVertices(prior, p, math)[k].tangent == prior[k].tangent
  {
    var r := GridVertices(prior, p, math);
    forall k | 0 <= k < |r|
      ensures 0.0 <= r[k].position.y <= p.heightFactor
    {
      var x := Column(k, p.width) as real;
      var z := Row(k, p.width) as real;
      var n := math.pow(math.noise(x / 100.0, z / 100.0), p.flatness);
      assert 0.0 <= n <= 1.0;
      assert r[k].position.y == n * p.heightFactor;
      ScaleWithin(n, p.heightFactor);
    }
  }

  /** A fraction of a positive bound stays within [0, bound]. */
  lemma ScaleWithin(t: real, bound: real)
    requires 0.0 <= t <= 1.0 && bound > 0.0
    ensures 0.0 <= t * bound <= bound
  {
  }

  // ---------------------------------------------------------------------------
  // Normals (`computeNormals`)

  /** Height of vertex `k`. The stencil of an interior vertex reads only
      inside the buffer (`InteriorNeighbours`), so the 0 given for an index
      outside it is never used. */
  function Height(vs: seq<Vertex>, k: int): real {
    if 0 <= k < |vs| then vs[k].position.y else 0.0
  }

  /** The height differences `(left - right, top - bottom)` around vertex
      `k`, whose neighbours are `k - 1`, `k + 1`, `k - width` and `k + width`:
      the slope vector of `computeSlopeMap` and the x and z of the unnormalised
      normal of `computeNormals`. */
  function SlopeVector(vs: seq<Vertex>, k: nat, width: nat): Vec2 {
    Vec2(Height(vs, k - 1) - Height(vs, k + 1), Height(vs, k - width) - Height(vs, k + width))
  }

  /** `normalize(leftHeight - rightHeight, 0.1, topHeight - botHeight)` for vertex `k`. */
  function StencilNormal(vs: seq<Vertex>, k: nat, width: nat, math: MathLib): Vec3 {
    var slope := SlopeVector(vs, k, width);
    math.normalize3(Vec3(slope.x, 0.1, slope.y))
  }

  /** A vertex with normal `n` and tangent `(n.z, n.x, n.y)`. */
  function WithNormal(v: Vertex, n: Vec3): Vertex {
    v.(normal := n, tangent := Vec3(n.z, n.x, n.y))
  }

  /** Vertex `k` after `computeNormals`: interior vertices get the stencil
      normal, border vertices are unchanged. */
  function NormalAt(vs: seq<Vertex>, k: nat, width: nat, depth: nat, math: MathLib): Vertex
    requires k < |vs|
  {
    if Interior(k, width, depth) then
      WithNormal(vs[k], StencilNormal(vs, k, width, math))
    else
      vs[k]
  }

  /** The whole buffer after `computeNormals`. */
  function WithNormals(vs: seq<Vertex>, width: nat, depth: nat, math: MathLib): (r: seq<Vertex>)
    ensures |r| == |vs|
  {
    seq(|vs|, k requires 0 <= k < |vs| => NormalAt(vs, k, width, depth, math))
  }

  /** `vs` with the stencil normal written into every interior vertex below
      `bound`: the buffer once the loops have passed vertex `bound - 1`. */
  function NormalsUpTo(vs: seq<Vertex>, bound: nat, width: nat, depth: nat, math: MathLib): (r: seq<Vertex>)
    ensures |r| == |vs|
  {
    seq(|vs|, k requires 0 <= k < |vs| =>
      if Interior(k, width, depth) && k < bound then NormalAt(vs, k, width, depth, math) else vs[k])
  }

  /** `computeNormals`: the rows `1 <= j < depth - 1` are split into ranges
      that `Threading::parallelize` hands to workers; the rows are disjoint, so
      they are taken here one after the other. */
  method NormalsPass(vs: seq<Vertex>, width: nat, depth: nat, math: MathLib) returns (r: seq<Vertex>)
    requires |vs| == width * depth
    ensures r == WithNormals(vs, width, depth, math)
  {
    r := vs;
    if width == 0 {
      return;
    }
    NormalsSkipFirstRow(vs, width, depth, math);
    var j := 1;
    while j + 1 < depth
      invariant 1 <= j
      invariant r == NormalsUpTo(vs, j * width, width, depth, math)
    {
      r := NormalsRow(r, vs, j, width, depth, math);
      assert (j + 1) * width == j * width + width;
      j := j + 1;
    }
    NormalsFinish(r, vs, j, width, depth, math);
  }

  /** The loop over columns `1 <= i < width - 1` of row `j` in the worker of
      `computeNormals`: the stencil reads the heights of the four neighbours. */
  method NormalsRow(r0: seq<Vertex>, vs: seq<Vertex>, j: nat, width: nat, depth: nat, math: MathLib)
    returns (r: seq<Vertex>)
    requires |vs| == width * depth && width > 0 && 1 <= j && j + 1 < depth
    requires r0 == NormalsUpTo(vs, j * width, width, depth, math)
    ensures r == NormalsUpTo(vs, j * width + width, width, depth, math)
  {
    r := r0;
    var depthStride := j * width;
    NormalsSkipRowStart(r, vs, j, width, depth, math);
    var i := 1;
    while i + 1 < width
      invariant 1 <= i <= width
      invariant r == NormalsUpTo(vs, depthStride + i, width, depth, math)
    {
      StencilIndices(i, j, width, depth);
      var slope := SlopeAt(r, i, j, width, depth);
      var n := math.normalize3(Vec3(slope.x, 0.1, slope.y));
      NormalStep(r, vs, depthStride + i, n, width, depth, math);
      r := r[depthStride + i := WithNormal(r[depthStride + i], n)];
      i := i + 1;
    }
    NormalsSkipRowEnd(r, vs, j, i, width, depth, math);
  }

  /** The finite differences of the stencil loops at column `i` of row `j`:
      the heights above, left, right and below give `(left - right, top - bottom)`. */
  method SlopeAt(vs: seq<Vertex>, i: nat, j: nat, width: nat, depth: nat) returns (slope: Vec2)
    requires |vs| == width * depth && 1 <= i && i + 1 < width && 1 <= j && j + 1 < depth
    ensures slope == SlopeVector(vs, j * width + i, width)
  {
    StencilIndices(i, j, width, depth);
    var depthStride := j * width;
    var topHeight := vs[(j - 1) * width + i].position.y;
    var leftHeight := vs[depthStride + i - 1].position.y;
    var rightHeight := vs[depthStride + i + 1].position.y;
    var botHeight := vs[(j + 1) * width + i].position.y;
    slope := Vec2(leftHeight - rightHeight, topHeight - botHeight);
  }

  /** The four neighbour indices the loop computes for column `i` of row `j`
      are `k - width`, `k - 1`, `k + 1` and `k + width` for `k = j * width + i`,
      all inside the buffer. */
  lemma StencilIndices(i: nat, j: nat, width: nat, depth: nat)
    requires 1 <= i && i + 1 < width && 1 <= j && j + 1 < depth
    ensures Interior(j * width + i, width, depth)
    ensures (j - 1) * width + i == j * width + i - width && (j + 1) * width + i == j * width + i + width
    ensures width <= j * width + i && j * width + i + width < width * depth
  {
    InteriorAt(i, j, width, depth);
    InteriorNeighbours(j * width + i, width, depth);
  }

  /** Writing the stencil normal of interior vertex `k`, computed from the
      heights in the partly updated buffer, extends the finished region past
      `k`: the stencil reads only heights, which the pass never changes. */
  lemma NormalStep(r: seq<Vertex>, vs: seq<Vertex>, k: nat, n: Vec3, width: nat, depth: nat, math: MathLib)
    requires r == NormalsUpTo(vs, k, width, depth, math)
    requires Interior(k, width, depth) && k < |r|
    requires n == StencilNormal(r, k, width, math)
    ensures r[k := WithNormal(r[k], n)] == NormalsUpTo(vs, k + 1, width, depth, math)
  {
    assert n == StencilNormal(vs, k, width, math);
  }

  /** The finished region moves freely over a run of border vertices. */
  lemma NormalsSkip(r: seq<Vertex>, vs: seq<Vertex>, b1: nat, b2: nat, width: nat, depth: nat, math: MathLib)
    requires |vs| == width * depth && b1 <= b2
    requires forall k | b1 <= k < b2 :: !Interior(k, width, depth)
    requires r == NormalsUpTo(vs, b1, width, depth, math)
    ensures r == NormalsUpTo(vs, b2, width, depth, math)
  {
  }

  /** No vertex of the first row is interior. */
  lemma NormalsSkipFirstRow(vs: seq<Vertex>, width: nat, depth: nat, math: MathLib)
    requires |vs| == width * depth && width > 0
    ensures vs == NormalsUpTo(vs, width, width, depth, math)
  {
    NormalsSkip(vs, vs, 0, width, width, depth, math);
  }

  /** The first vertex of row `j` is not interior. */
  lemma NormalsSkipRowStart(r: seq<Vertex>, vs: seq<Vertex>, j: nat, width: nat, depth: nat, math: MathLib)
    requires |vs| == width * depth && width > 0 && r == NormalsUpTo(vs, j * width, width, depth, math)
    ensures r == NormalsUpTo(vs, j * width + 1, width, depth, math)
  {
    CellRoundTrip(0, j, width);
    NormalsSkip(r, vs, j * width, j * width + 1, width, depth, math);
  }

  /** Once the columns `i + 1 >= width` are reached, the rest of row `j` is
      the last column, which is not interior. */
  lemma NormalsSkipRowEnd(r: seq<Vertex>, vs: seq<Vertex>, j: nat, i: nat, width: nat, depth: nat, math: MathLib)
    requires |vs| == width * depth && 1 <= i <= width <= i + 1
    requires r == NormalsUpTo(vs, j * width + i, width, depth, math)
    ensures r == NormalsUpTo(vs, j * width + width, width, depth, math)
  {
    RowEndBorder(j, i, width, depth);
    NormalsSkip(r, vs, j * width + i, j * width + width, width, depth, math);
  }

  /** Rows from `depth - 1` on hold no interior vertex, so once the row loop
      stops the buffer is the whole result. */
  lemma NormalsFinish(r: seq<Vertex>, vs: seq<Vertex>, j: nat, width: nat, depth: nat, math: MathLib)
    requires |vs| == width * depth && width > 0 && depth <= j + 1
    requires r == NormalsUpTo(vs, j * width, width, depth, math)
    ensures r == WithNormals(vs, width, depth, math)
  {
    if j * width < |vs| {
      LastRowsBorder(j, width, depth);
      NormalsSkip(r, vs, j * width, |vs|, width, depth, math);
      NormalsAll(vs, |vs|, width, depth, math);
    } else {
      NormalsAll(vs, j * width, width, depth, math);
    }
  }

  /** No vertex from row `j` on is interior once `depth <= j + 1`. */
  lemma LastRowsBorder(j: nat, width: nat, depth: nat)
    requires width > 0 && depth <= j + 1
    ensures forall k | j * width <= k :: !Interior(k, width, depth)
  {
    forall k | j * width <= k
      ensures !Interior(k, width, depth)
    {
      ColumnRow(k, width);
      if Row(k, width) < j {
        MulMono(Row(k, width) + 1, j, width);
      }
    }
  }

  /** Past the last vertex the finished region is the whole pass. */
  lemma NormalsAll(vs: seq<Vertex>, bound: nat, width: nat, depth: nat, math: MathLib)
    requires |vs| <= bound
    ensures NormalsUpTo(vs, bound, width, depth, math) == WithNormals(vs, width, depth, math)
  {
  }

  /** `computeNormals` writes only normals and tangents, and only of interior
      vertices: positions and texture coordinates never change, and a border
      vertex is left exactly as it was. */
  lemma NormalsFrame(vs: seq<Vertex>, width: nat, depth: nat, math: MathLib)
    requires |vs| == width * depth
    ensures forall k :: 0 <= k < |vs| ==>
              WithNormals(vs, width, depth, math)[k].position == vs[k].position
              && WithNormals(vs, width, depth, math)[k].texcoords == vs[k].texcoords
    ensures forall k :: 0 <= k < |vs| && !Interior(k, width, depth) ==>
              WithNormals(vs, width, depth, math)[k] == vs[k]
  {
  }

  /** The normal of an interior vertex points upwards (its y is positive,
      because the unnormalised y is 0.1), has components in [-1, 1], and its
      tangent is the swizzle `(n.z, n.x, n.y)`. */
  lemma InteriorNormalFacesUp(vs: seq<Vertex>, k: nat, width: nat, depth: nat, math: MathLib)
    requires |vs| == width * depth && k < |vs| && Interior(k, width, depth) && Sound(math)
    ensures var v := WithNormals(vs, width, depth, math)[k];
            v.normal.y > 0.0 && UnitBounded(v.normal) && v.tangent == Vec3(v.normal.z, v.normal.x, v.normal.y)
  {
    InteriorNeighbours(k, width, depth);
    var d := Vec3(vs[k - 1].position.y - vs[k + 1].position.y, 0.1, vs[k - width].position.y - vs[k + width].position.y);
    assert SameSign(d.y, math.normalize3(d).y);
  }

  /** The normal of an interior vertex depends only on the heights of its four
      axis neighbours: two buffers that agree there get the same normal. */
  lemma NormalIsLocal(vs: seq<Vertex>, ws: seq<Vertex>, k: nat, width: nat, depth: nat, math: MathLib)
    requires |vs| == |ws| == width * depth && k < |vs| && Interior(k, width, depth)
    requires width <= k && k + width < |vs|
    requires vs[k - 1].position.y == ws[k - 1].position.y && vs[k + 1].position.y == ws[k + 1].position.y
             && vs[k - width].position.y == ws[k - width].position.y
             && vs[k + width].position.y == ws[k + width].position.y
    ensures WithNormals(vs, width, depth, math)[k].normal == WithNormals(ws, width, depth, math)[k].normal
  {
  }

  /** `computeNormals` keeps every normal within [-1, 1] and every height where it was. */
  lemma WithNormalsKeepsInvariants(vs: seq<Vertex>, width: nat, depth: nat, heightFactor: real, math: MathLib)
    requires |vs| == width * depth && Sound(math)
    requires NormalsBounded(vs) && HeightsWithin(vs, heightFactor)
    ensures NormalsBounded(WithNormals(vs, width, depth, math))
    ensures HeightsWithin(WithNormals(vs, width, depth, math), heightFactor)
  {
    var r := WithNormals(vs, width, depth, math);
    forall k | 0 <= k < |r|
      ensures UnitBounded(r[k].normal)
    {
      if Interior(k, width, depth) {
        InteriorNormalFacesUp(vs, k, width, depth, math);
      }
    }
  }

  // ---------------------------------------------------------------------------
  // Height remap (`remapVertices`)

  /** `pow(pow(y / m_heightFactor, m_invFlatness), newFlatness) * newHeightFactor`:
      undo the current curve, then apply the new one. */
  function RemapHeight(y: real, p: Parameters, newHeightFactor: real, newFlatness: real, math: MathLib): real
    requires p.heightFactor != 0.0
  {
    var baseHeight := math.pow(y / p.heightFactor, p.invFlatness);
    math.pow(baseHeight, newFlatness) * newHeightFactor
  }

  /** The whole buffer after the remap loop. */
  function Remapped(vs: seq<Vertex>, p: Parameters, newHeightFactor: real, newFlatness: real, math: MathLib): (r: seq<Vertex>)
    requires vs == [] || p.heightFactor != 0.0
    ensures |r| == |vs|
  {
    if vs == [] then []
    else seq(|vs|, k requires 0 <= k < |vs| =>
           vs[k].(position := vs[k].position.(y := RemapHeight(vs[k].position.y, p, newHeightFactor, newFlatness, math))))
  }

  /** The per-vertex loop of `remapVertices`, using the parameters stored before the call. */
  method RemapPass(vs: seq<Vertex>, p: Parameters, newHeightFactor: real, newFlatness: real, math: MathLib)
    returns (r: seq<Vertex>)
    requires vs == [] || p.heightFactor != 0.0
    ensures r == Remapped(vs, p, newHeightFactor, newFlatness, math)
  {
    r := vs;
    var i := 0;
    while i < |r|
      invariant 0 <= i <= |r| == |vs|
      invariant forall k :: 0 <= k < i ==> r[k] == Remapped(vs, p, newHeightFactor, newFlatness, math)[k]
      invariant forall k :: i <= k < |r| ==> r[k] == vs[k]
    {
      var vertex := r[i];
      var baseHeight := math.pow(vertex.position.y / p.heightFactor, p.invFlatness);
      r := r[i := vertex.(position := vertex.position.(y := math.pow(baseHeight, newFlatness) * newHeightFactor))];
      i := i + 1;
    }
  }

  /** The remap rewrites only `position.y`: x, z, texture coordinates, normal
      and tangent of every vertex are untouched, and each new height is a
      function of that vertex's old height alone. */
  lemma RemapOnlyHeights(vs: seq<Vertex>, p: Parameters, h: real, f: real, math: MathLib)
    requires vs == [] || p.heightFactor != 0.0
    ensures forall k :: 0 <= k < |vs| ==>
              var v := Remapped(vs, p, h, f, math)[k];
              && v.position.x == vs[k].position.x && v.position.z == vs[k].position.z
              && v.texcoords == vs[k].texcoords && v.normal == vs[k].normal && v.tangent == vs[k].tangent
              && v.position.y == RemapHeight(vs[k].position.y, p, h, f, math)
  {
  }

  /** A height of 0 stays 0 when both exponents are positive. */
  lemma RemapKeepsZero(p: Parameters, h: real, f: real, math: MathLib)
    requires Ready(p) && f > 0.0 && Sound(math)
    ensures RemapHeight(0.0, p, h, f, math) == 0.0
  {
    InverseFlatness(p);
  }

  /** A height within [0, old heightFactor] is remapped into [0, new heightFactor]. */
  lemma RemapWithin(y: real, p: Parameters, h: real, f: real, math: MathLib)
    requires Ready(p) && h > 0.0 && f > 0.0 && Sound(math)
    requires 0.0 <= y <= p.heightFactor
    ensures 0.0 <= RemapHeight(y, p, h, f, math) <= h
  {
    InverseFlatness(p);
    var t := y / p.heightFactor;
    DivideWithin(y, p.heightFactor);
    var b := math.pow(t, p.invFlatness);
    PowWithin(t, p.invFlatness, math);
    var c := math.pow(b, f);
    PowWithin(b, f, math);
    ScaleWithin(c, h);
    assert RemapHeight(y, p, h, f, math) == c * h;
  }

  /** A sound `pow` keeps a base in [0, 1] within [0, 1]. */
  lemma PowWithin(b: real, e: real, math: MathLib)
    requires Sound(math) && 0.0 <= b <= 1.0 && e > 0.0
    ensures 0.0 <= math.pow(b, e) <= 1.0
  {
  }

  /** A value in [0, bound] divided by the positive bound lies in [0, 1]. */
  lemma DivideWithin(y: real, bound: real)
    requires bound > 0.0 && 0.0 <= y <= bound
    ensures 0.0 <= y / bound <= 1.0
  {
    assert y / bound * bound == y;
  }

  /** The whole remapped buffer stays within the new height factor. */
  lemma RemappedWithin(vs: seq<Vertex>, p: Parameters, h: real, f: real, math: MathLib)
    requires Ready(p) && h > 0.0 && f > 0.0 && Sound(math)
    requires HeightsWithin(vs, p.heightFactor)
    ensures HeightsWithin(Remapped(vs, p, h, f, math), h)
    ensures NormalsBounded(vs) ==> NormalsBounded(Remapped(vs, p, h, f, math))
  {
    var r := Remapped(vs, p, h, f, math);
    forall k | 0 <= k < |r|
      ensures 0.0 <= r[k].position.y <= h
    {
      RemapWithin(vs[k].position.y, p, h, f, math);
    }
  }

  // ---------------------------------------------------------------------------
  // Whole passes

  /** Resizing keeps the normals bounded: old vertices keep theirs and new
      ones get the zero normal. */
  lemma ResizedNormalsBounded(vs: seq<Vertex>, n: nat)
    requires NormalsBounded(vs)
    ensures NormalsBounded(Resized(vs, n, DefaultVertex))
  {
  }

  /** The vertex buffer that `generate` leaves behind (resize, fill, normals)
      has exactly `width * depth` vertices, every height within
      [0, heightFactor] and every normal within [-1, 1]. */
  lemma GeneratedMeshValid(prior: seq<Vertex>, p: Parameters, math: MathLib)
    requires Ready(p) && Sound(math) && NormalsBounded(prior)
    ensures var r := WithNormals(GridVertices(Resized(prior, p.width * p.depth, DefaultVertex), p, math), p.width, p.depth, math);
            && |r| == p.width * p.depth
            && HeightsWithin(r, p.heightFactor)
            && NormalsBounded(r)
  {
    var resized := Resized(prior, p.width * p.depth, DefaultVertex);
    ResizedNormalsBounded(prior, p.width * p.depth);
    GridVerticesInRange(resized, p, math);
    var filled := GridVertices(resized, p, math);
    assert NormalsBounded(filled) by {
      forall k | 0 <= k < |filled|
        ensures UnitBounded(filled[k].normal)
      {
        assert filled[k].normal == resized[k].normal;
      }
    }
    WithNormalsKeepsInvariants(filled, p.width, p.depth, p.heightFactor, math);
  }

  /** The vertex buffer that `setParameters` leaves behind (remap with the
      old parameters, then normals) keeps its size, has every height within
      the new height factor and every normal within [-1, 1]. */
  lemma RemappedMeshValid(vs: seq<Vertex>, p: Parameters, h: real, f: real, math: MathLib)
    requires Sound(math) && h > 0.0 && f > 0.0 && |vs| == p.width * p.depth
    requires Ready(p) || vs == []
    requires HeightsWithin(vs, p.heightFactor) && NormalsBounded(vs)
    ensures vs == [] || p.heightFactor != 0.0
    ensures var r := WithNormals(Remapped(vs, p, h, f, math), p.width, p.depth, math);
            && |r| == |vs|
            && HeightsWithin(r, h)
            && NormalsBounded(r)
  {
    if vs != [] {
      RemappedWithin(vs, p, h, f, math);
      WithNormalsKeepsInvariants(Remapped(vs, p, h, f, math), p.width, p.depth, h, math);
    }
  }

  // ---------------------------------------------------------------------------
  // Triangle index buffer

  /** Slot `s` belongs to a cell the loops of `generate` write. */
  predicate SlotWritten(s: nat, width: nat, depth: nat) {
    width > 0 && Meshed(Column(s / 6, width), Row(s / 6, width), width, depth)
  }

  /** The index buffer after `indices.resize(width * depth * 6)` and the loops:
      the six slots of every meshed cell hold its two triangles; every other
      slot keeps what the buffer held before (zero where the resize added it).
      The slot of cell `(i, j)` is taken at `(j * width + i) * 6`, the offset
      the source computes only when the grid is square (see
      `Grid.SlotOffsetsAgreeOnSquare`). */
  function ResizedIndexBuffer(prev: seq<nat>, width: nat, depth: nat): (r: seq<nat>)
    ensures |r| == width * depth * 6
    ensures forall s | 0 <= s < |r| && s < |prev| && !SlotWritten(s, width, depth) :: r[s] == prev[s]
    ensures forall s | |prev| <= s < |r| && !SlotWritten(s, width, depth) :: r[s] == 0
  {
    if width == 0 then []
    else seq(width * depth * 6, s requires 0 <= s < width * depth * 6 =>
           var c := s / 6;
           if SlotWritten(s, width, depth)
           then CellTriangles(Column(c, width), Row(c, width), width)[s % 6]
           else if s < |prev| then prev[s] else 0)
  }

  /** The index buffer built into a cleared buffer. */
  function IndexBuffer(width: nat, depth: nat): (r: seq<nat>)
    ensures |r| == width * depth * 6
  {
    ResizedIndexBuffer([], width, depth)
  }

  /** Regenerating over an earlier buffer `prev` differs from building into a
      cleared buffer only in the slots no cell writes and `prev` covers: there
      it keeps `prev`'s value. The two buffers are therefore equal exactly
      when `prev` holds 0 in every such slot. */
  lemma RegeneratedIndexBuffer(prev: seq<nat>, width: nat, depth: nat)
    ensures forall s | 0 <= s < width * depth * 6 && SlotWritten(s, width, depth) ::
              ResizedIndexBuffer(prev, width, depth)[s] == IndexBuffer(width, depth)[s]
    ensures forall s | 0 <= s < width * depth * 6 && !SlotWritten(s, width, depth) ::
              IndexBuffer(width, depth)[s] == 0
    ensures ResizedIndexBuffer(prev, width, depth) == IndexBuffer(width, depth) <==>
            forall s | 0 <= s < width * depth * 6 && s < |prev| && !SlotWritten(s, width, depth) :: prev[s] == 0
  {
    var r, b := ResizedIndexBuffer(prev, width, depth), IndexBuffer(width, depth);
    if r == b {
      forall s | 0 <= s < width * depth * 6 && s < |prev| && !SlotWritten(s, width, depth)
        ensures prev[s] == 0
      {
        assert r[s] == b[s];
      }
    }
  }

  /** On an empty grid the loops of `generate` still run and write slot 0 of
      an index buffer that has no slot. With depth 0 and width 2 the outer
      bound `m_depth - 1` wraps to 2^32 - 1 and the inner bound is 1; with
      width 0 and depth 2 the outer bound is 1 and the inner bound wraps.
      Either way `i = j = 0` enters the loop body. */
  lemma AsWrittenLoopsRunOnEmptyGrid()
    ensures Decrement32(0) == Uint32Range - 1
    ensures 0 < Decrement32(0) && 0 < Decrement32(2)
    ensures |IndexBuffer(2, 0)| == 0 && SlotOffsetAsWritten(0, 0, 0) >= |IndexBuffer(2, 0)|
    ensures |IndexBuffer(0, 2)| == 0 && SlotOffsetAsWritten(0, 0, 2) >= |IndexBuffer(0, 2)|
  {
  }

  /** Regenerating a 10 x 10 terrain as 5 x 5 leaves slot 121 (cell (0, 4), on
      the last row, which the loops skip) holding 30, the value the 10 x 10
      buffer had there: a vertex index beyond the 25 vertices of the new grid. */
  lemma StaleIndexAfterShrinking()
    ensures |ResizedIndexBuffer(IndexBuffer(10, 10), 5, 5)| == 150
    ensures ResizedIndexBuffer(IndexBuffer(10, 10), 5, 5)[121] == 30 >= 5 * 5
  {
    ColumnRow(20, 10);
    ColumnRow(20, 5);
    assert IndexBuffer(10, 10)[121] == 30;
  }

  /** Slot `offset + r` of a meshed cell holds the cell's `r`-th index. */
  lemma IndexBufferAtCell(x: nat, z: nat, r: nat, width: nat, depth: nat)
    requires Meshed(x, z, width, depth) && r < 6
    ensures SlotOffset(x, z, width) + r < |IndexBuffer(width, depth)|
    ensures IndexBuffer(width, depth)[SlotOffset(x, z, width) + r] == CellTriangles(x, z, width)[r]
  {
    SlotOffsetInBounds(x, z, width, depth);
    var c := IndexOf(x, z, width);
    DivModUnique(c * 6 + r, 6, c, r);
    CellRoundTrip(x, z, width);
  }

  /** Every value in the index buffer names a vertex of the grid; the slots of
      a cell in the last column or the last row are never written and hold 0. */
  lemma IndexBufferValid(width: nat, depth: nat)
    ensures forall s :: 0 <= s < |IndexBuffer(width, depth)| ==> IndexBuffer(width, depth)[s] < width * depth
    ensures forall s :: 0 <= s < |IndexBuffer(width, depth)| && !Meshed(Column(s / 6, width), Row(s / 6, width), width, depth) ==>
              IndexBuffer(width, depth)[s] == 0
  {
    var buf := IndexBuffer(width, depth);
    forall s | 0 <= s < |buf|
      ensures buf[s] < width * depth
    {
      var c := s / 6;
      assert c < width * depth;
      IndexRoundTrip(c, width, depth);
      var x, z := Column(c, width), Row(c, width);
      if Meshed(x, z, width, depth) {
        CellTrianglesValid(x, z, width, depth);
      }
    }
  }

  /** The slots of a cell the loops skip hold 0 in the index buffer. */
  lemma UnmeshedCellIsZero(c: nat, width: nat, depth: nat)
    requires width > 0 && c < width * depth && !Meshed(Column(c, width), Row(c, width), width, depth)
    ensures c * 6 + 6 <= |IndexBuffer(width, depth)|
    ensures forall s | c * 6 <= s < c * 6 + 6 :: IndexBuffer(width, depth)[s] == 0
  {
    forall s | c * 6 <= s < c * 6 + 6
      ensures s < |IndexBuffer(width, depth)| && IndexBuffer(width, depth)[s] == 0
    {
      DivModUnique(s, 6, c, s - c * 6);
    }
  }

  /** The nested loops of `generate` over `j < depth - 1` and `i < width - 1`,
      writing the six slots from `(j * width + i) * 6` into a cleared buffer. */
  method BuildIndices(width: nat, depth: nat) returns (indices: seq<nat>)
    ensures indices == IndexBuffer(width, depth)
  {
    indices := seq(width * depth * 6, _ => 0);
    if width == 0 {
      return;
    }
    NothingWritten(IndexBuffer(width, depth), 0);
    var j := 0;
    while j + 1 < depth
      invariant j < depth || j == 0
      invariant indices == WrittenUpTo(IndexBuffer(width, depth), j * width * 6, 0)
    {
      indices := IndicesRow(indices, j, width, depth);
      assert (j + 1) * width * 6 == j * width * 6 + width * 6;
      j := j + 1;
    }
    IndicesSkipLastRow(indices, j, width, depth);
  }

  /** The loop over the cells `i < width - 1` of row `j`: two triangles per cell. */
  method IndicesRow(indices0: seq<nat>, j: nat, width: nat, depth: nat) returns (indices: seq<nat>)
    requires width > 0 && j + 1 < depth
    requires indices0 == WrittenUpTo(IndexBuffer(width, depth), j * width * 6, 0)
    ensures indices == WrittenUpTo(IndexBuffer(width, depth), j * width * 6 + width * 6, 0)
  {
    indices := indices0;
    var depthIndex := j * width;
    var i := 0;
    while i + 1 < width
      invariant i < width
      invariant indices == WrittenUpTo(IndexBuffer(width, depth), (depthIndex + i) * 6, 0)
    {
      var finalIndex := (depthIndex + i) * 6;
      CellSlots(i, j, width, depth);
      ghost var before := indices;
      indices := indices[finalIndex := j * width + i];
      indices := indices[finalIndex + 1 := (j + 1) * width + i];
      indices := indices[finalIndex + 2 := j * width + i + 1];
      indices := indices[finalIndex + 3 := j * width + i + 1];
      indices := indices[finalIndex + 4 := (j + 1) * width + i];
      indices := indices[finalIndex + 5 := (j + 1) * width + i + 1];
      IndexStep(IndexBuffer(width, depth), before, indices, i, j, width);
      i := i + 1;
    }
    IndicesSkipRowEnd(indices, i, j, width, depth);
  }

  /** Writing the six values `t` that `full` holds from slot `o` on extends the
      written prefix by those six slots. */
  lemma SlotsStep(full: seq<nat>, before: seq<nat>, after: seq<nat>, o: nat, t: seq<nat>)
    requires |t| == 6 && o + 6 <= |full| && before == WrittenUpTo(full, o, 0)
    requires forall r | 0 <= r < 6 :: full[o + r] == t[r]
    requires after == before[o := t[0]][o + 1 := t[1]][o + 2 := t[2]][o + 3 := t[3]][o + 4 := t[4]][o + 5 := t[5]]
    ensures after == WrittenUpTo(full, o + 6, 0)
  {
    assert full[o] == t[0] && full[o + 1] == t[1] && full[o + 2] == t[2];
    assert full[o + 3] == t[3] && full[o + 4] == t[4] && full[o + 5] == t[5];
  }

  /** The six writes of the loop body for cell `(i, j)`, with the values as
      the loop computes them, are the cell's two triangles. */
  lemma IndexStep(full: seq<nat>, before: seq<nat>, after: seq<nat>, i: nat, j: nat, width: nat)
    requires SlotOffset(i, j, width) + 6 <= |full| && before == WrittenUpTo(full, (j * width + i) * 6, 0)
    requires forall r | 0 <= r < 6 :: full[SlotOffset(i, j, width) + r] == CellTriangles(i, j, width)[r]
    requires var o := (j * width + i) * 6;
             after == before[o := j * width + i][o + 1 := (j + 1) * width + i][o + 2 := j * width + i + 1]
                            [o + 3 := j * width + i + 1][o + 4 := (j + 1) * width + i][o + 5 := (j + 1) * width + i + 1]
    ensures after == WrittenUpTo(full, (j * width + i) * 6 + 6, 0)
  {
    SlotsStep(full, before, after, (j * width + i) * 6, CellTriangles(i, j, width));
  }

  /** The six slots of meshed cell `(x, z)` hold its two triangles. */
  lemma CellSlots(x: nat, z: nat, width: nat, depth: nat)
    requires Meshed(x, z, width, depth)
    ensures SlotOffset(x, z, width) + 6 <= |IndexBuffer(width, depth)|
    ensures forall r | 0 <= r < 6 :: IndexBuffer(width, depth)[SlotOffset(x, z, width) + r] == CellTriangles(x, z, width)[r]
  {
    SlotOffsetInBounds(x, z, width, depth);
    forall r | 0 <= r < 6
      ensures IndexBuffer(width, depth)[SlotOffset(x, z, width) + r] == CellTriangles(x, z, width)[r]
    {
      IndexBufferAtCell(x, z, r, width, depth);
    }
  }

  /** The written prefix moves freely over a run of cells the loops skip. */
  lemma IndicesSkip(indices: seq<nat>, b1: nat, b2: nat, width: nat, depth: nat)
    requires width > 0 && b1 <= b2 <= width * depth
    requires forall c | b1 <= c < b2 :: !Meshed(Column(c, width), Row(c, width), width, depth)
    requires indices == WrittenUpTo(IndexBuffer(width, depth), b1 * 6, 0)
    ensures indices == WrittenUpTo(IndexBuffer(width, depth), b2 * 6, 0)
  {
    forall s | b1 * 6 <= s < b2 * 6
      ensures IndexBuffer(width, depth)[s] == 0
    {
      var c := s / 6;
      DivModUnique(s, 6, c, s % 6);
      UnmeshedCellIsZero(c, width, depth);
    }
    SkipBlank(IndexBuffer(width, depth), b1 * 6, b2 * 6, 0);
  }

  /** The last cell of row `j` is not meshed, so the written prefix moves to the next row. */
  lemma IndicesSkipRowEnd(indices: seq<nat>, i: nat, j: nat, width: nat, depth: nat)
    requires i + 1 == width && j + 1 < depth
    requires indices == WrittenUpTo(IndexBuffer(width, depth), (j * width + i) * 6, 0)
    ensures indices == WrittenUpTo(IndexBuffer(width, depth), j * width * 6 + width * 6, 0)
  {
    CellRoundTrip(i, j, width);
    MulMono(j + 2, depth, width);
    IndicesSkip(indices, j * width + i, j * width + width, width, depth);
  }

  /** Cells of the last row are not meshed: once `j + 1 >= depth` the buffer is complete. */
  lemma IndicesSkipLastRow(indices: seq<nat>, j: nat, width: nat, depth: nat)
    requires width > 0 && depth <= j + 1 && (j < depth || j == 0)
    requires indices == WrittenUpTo(IndexBuffer(width, depth), j * width * 6, 0)
    ensures indices == IndexBuffer(width, depth)
  {
    MulMono(j, depth, width);
    LastRowUnmeshed(j, width, depth);
    IndicesSkip(indices, j * width, width * depth, width, depth);
    AllWritten(IndexBuffer(width, depth), width * depth * 6, 0);
  }

  /** No cell from row `depth - 1` on is meshed. */
  lemma LastRowUnmeshed(j: nat, width: nat, depth: nat)
    requires width > 0 && depth <= j + 1
    ensures forall c | j * width <= c :: !Meshed(Column(c, width), Row(c, width), width, depth)
  {
    forall c | j * width <= c
      ensures !Meshed(Column(c, width), Row(c, width), width, depth)
    {
      ColumnRow(c, width);
      if Row(c, width) < j {
        MulMono(Row(c, width) + 1, j, width);
      }
    }
  }
}
