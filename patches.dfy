/** The patch grid of the tessellated terrain: a fixed 20 x 20 grid of
    four-vertex quads, laid out patch by patch in a 1600-slot vertex buffer,
    spanning `[-width/2, width/2] x [-depth/2, depth/2]` on the ground plane
    and `[0, 1] x [0, 1]` in texture space. */
module TerrainPatches {
  import opened Numerics
  import opened Grid
  import opened HeightfieldMesh
  import opened Buffers

  /** `patchCount`: patches along each axis. */
  const PatchCount: nat := 20

  /** Vertices in the buffer: four per patch. */
  const PatchSlots: nat := 1600

  /** Distance between patch starts along an axis `size` units long. */
  function Stride(size: nat): real {
    size as real / PatchCount as real
  }

  /** Where patch `k` starts along an axis `size` units long, centred on 0. */
  function PatchStart(size: nat, k: nat): real {
    -(size as real) * 0.5 + Stride(size) * k as real
  }

  /** Distance between patch starts in texture space (`strideU`, `strideV`). */
  const UVStride: real := 1.0 / 20.0

  /** Where patch `k` starts in texture space. */
  function PatchStartUV(k: nat): real {
    UVStride * k as real
  }

  /** First slot of patch `(wp, dp)`: the patches of column `wp` are consecutive. */
  function PatchSlot(wp: nat, dp: nat): nat {
    (wp * PatchCount + dp) * 4
  }

  /** Corner `c` of patch `(wp, dp)`: corners 0 and 1 on the patch's low-x
      edge and 2 and 3 on its high-x edge; corners 0 and 2 on its low-z edge
      and 1 and 3 on its high-z edge. Every corner lies on the ground plane,
      with normal Y and tangent X. */
  function PatchCorner(width: nat, depth: nat, wp: nat, dp: nat, c: nat): Vertex
    requires c < 4
  {
    var highX, highZ := c >= 2, c % 2 == 1;
    Vertex(Vec3(if highX then PatchStart(width, wp) + Stride(width) else PatchStart(width, wp),
                0.0,
                if highZ then PatchStart(depth, dp) + Stride(depth) else PatchStart(depth, dp)),
           Vec2(if highX then PatchStartUV(wp) + UVStride else PatchStartUV(wp),
                if highZ then PatchStartUV(dp) + UVStride else PatchStartUV(dp)),
           AxisY, AxisX)
  }

  /** The buffer `generate` builds: slot `s` holds corner `s % 4` of patch
      `(s / 80, s / 4 % 20)`. */
  function PatchVertices(width: nat, depth: nat): (r: seq<Vertex>)
    ensures |r| == PatchSlots
  {
    seq(PatchSlots, s requires 0 <= s < PatchSlots => PatchCorner(width, depth, s / 80, s / 4 % 20, s % 4))
  }

  /** Slot `PatchSlot(wp, dp) + c` is corner `c` of patch `(wp, dp)` and lies in the buffer. */
  lemma PatchSlotDecodes(wp: nat, dp: nat, c: nat)
    requires wp < PatchCount && dp < PatchCount && c < 4
    ensures PatchSlot(wp, dp) + c < PatchSlots
    ensures (PatchSlot(wp, dp) + c) / 80 == wp
    ensures (PatchSlot(wp, dp) + c) / 4 % 20 == dp
    ensures (PatchSlot(wp, dp) + c) % 4 == c
  {
    var s := PatchSlot(wp, dp) + c;
    DivModUnique(s, 4, wp * 20 + dp, c);
    DivModUnique(wp * 20 + dp, 20, wp, dp);
    DivModUnique(s, 80, wp, dp * 4 + c);
    MulMono(wp, 19, 80);
  }

  /** Every slot of the buffer belongs to exactly one corner of one patch:
      distinct (patch, corner) pairs get distinct slots, and every slot is
      some corner of some patch. */
  lemma PatchSlotsBijective(wp1: nat, dp1: nat, c1: nat, wp2: nat, dp2: nat, c2: nat, s: nat)
    requires wp1 < PatchCount && dp1 < PatchCount && c1 < 4
    requires wp2 < PatchCount && dp2 < PatchCount && c2 < 4
    requires s < PatchSlots
    ensures PatchSlot(wp1, dp1) + c1 == PatchSlot(wp2, dp2) + c2 ==> wp1 == wp2 && dp1 == dp2 && c1 == c2
    ensures s / 80 < PatchCount && s / 4 % 20 < PatchCount && PatchSlot(s / 80, s / 4 % 20) + s % 4 == s
  {
    PatchSlotDecodes(wp1, dp1, c1);
    PatchSlotDecodes(wp2, dp2, c2);
    var q := s / 4;
    DivModUnique(q, 20, q / 20, q % 20);
    DivModUnique(s, 80, q / 20, q % 20 * 4 + s % 4);
  }

  /** The patches tile each axis: the first starts at `-size/2`, each ends
      where the next starts, and the last ends at `size/2`. */
  lemma PatchesTile(size: nat, k: nat)
    ensures PatchStart(size, 0) == -(size as real) * 0.5
    ensures PatchStart(size, k) + Stride(size) == PatchStart(size, k + 1)
    ensures PatchStart(size, PatchCount - 1) + Stride(size) == size as real * 0.5
  {
  }

  /** Neighbouring patches share their common edge: the high-x corners of a
      patch are the low-x corners of the next patch along x, and its high-z
      corners the low-z corners of the next patch along z, in position and in
      texture coordinates. */
  lemma PatchesShareEdges(width: nat, depth: nat, wp: nat, dp: nat)
    ensures PatchCorner(width, depth, wp, dp, 2).position == PatchCorner(width, depth, wp + 1, dp, 0).position
    ensures PatchCorner(width, depth, wp, dp, 3).position == PatchCorner(width, depth, wp + 1, dp, 1).position
    ensures PatchCorner(width, depth, wp, dp, 1).position == PatchCorner(width, depth, wp, dp + 1, 0).position
    ensures PatchCorner(width, depth, wp, dp, 3).position == PatchCorner(width, depth, wp, dp + 1, 2).position
    ensures PatchCorner(width, depth, wp, dp, 2).texcoords == PatchCorner(width, depth, wp + 1, dp, 0).texcoords
    ensures PatchCorner(width, depth, wp, dp, 1).texcoords == PatchCorner(width, depth, wp, dp + 1, 0).texcoords
  {
  }

  /** Patch `(wp, dp)` covers `[wp/20, (wp+1)/20] x [dp/20, (dp+1)/20]` in
      texture space; every texture coordinate of the buffer lies in [0, 1],
      every position in `[-width/2, width/2] x {0} x [-depth/2, depth/2]`, and
      every normal is Y and every tangent X. */
  lemma PatchVerticesInRange(width: nat, depth: nat, s: nat)
    requires s < PatchSlots
    ensures var v := PatchVertices(width, depth)[s];
            var wp, dp := s / 80, s / 4 % 20;
            && wp as real / 20.0 <= v.texcoords.x <= (wp + 1) as real / 20.0
            && dp as real / 20.0 <= v.texcoords.y <= (dp + 1) as real / 20.0
            && 0.0 <= v.texcoords.x <= 1.0 && 0.0 <= v.texcoords.y <= 1.0
            && -(width as real) * 0.5 <= v.position.x <= width as real * 0.5
            && -(depth as real) * 0.5 <= v.position.z <= depth as real * 0.5
            && v.position.y == 0.0 && v.normal == AxisY && v.tangent == AxisX
  {
    var wp, dp := s / 80, s / 4 % 20;
    PatchSlotsBijective(0, 0, 0, 0, 0, 0, s);
    StartWithin(width, wp);
    StartWithin(depth, dp);
  }

  /** A patch of the grid lies within the axis. */
  lemma StartWithin(size: nat, k: nat)
    requires k < PatchCount
    ensures -(size as real) * 0.5 <= PatchStart(size, k)
    ensures PatchStart(size, k) + Stride(size) <= size as real * 0.5
  {
    var st := Stride(size);
    assert st >= 0.0;
    assert st * k as real <= st * 19.0 by {
      assert k as real <= 19.0;
    }
  }

  /** The nested patch loops of `generate`: the buffer is resized to 1600
      vertices and every slot is overwritten, so what it held before is lost. */
  method BuildPatches(prior: seq<Vertex>, width: nat, depth: nat) returns (vertices: seq<Vertex>)
    ensures vertices == PatchVertices(width, depth)
  {
    var strideX := width as real / PatchCount as real;
    var strideZ := depth as real / PatchCount as real;
    var strideU := 1.0 / PatchCount as real;
    var strideV := 1.0 / PatchCount as real;
    vertices := Resized(prior, PatchSlots, DefaultVertex);
    ghost var base := vertices;
    NothingOverlaid(PatchVertices(width, depth), base);
    var widthPatchIndex := 0;
    while widthPatchIndex < PatchCount
      invariant widthPatchIndex <= PatchCount
      invariant vertices == Overlaid(PatchVertices(width, depth), widthPatchIndex * 80, base)
    {
      var patchStartX := -(width as real) * 0.5 + strideX * widthPatchIndex as real;
      var patchStartU := strideU * widthPatchIndex as real;
      var finalWidthPatchIndex := widthPatchIndex * PatchCount;
      var depthPatchIndex := 0;
      while depthPatchIndex < PatchCount
        invariant depthPatchIndex <= PatchCount
        invariant vertices == Overlaid(PatchVertices(width, depth), (finalWidthPatchIndex + depthPatchIndex) * 4, base)
      {
        var patchStartZ := -(depth as real) * 0.5 + strideZ * depthPatchIndex as real;
        var patchStartV := strideV * depthPatchIndex as real;
        var finalPatchIndex := (finalWidthPatchIndex + depthPatchIndex) * 4;
        vertices := PatchCornerWrite(vertices, base, width, depth, widthPatchIndex, depthPatchIndex, 0,
          Vertex(Vec3(patchStartX, 0.0, patchStartZ), Vec2(patchStartU, patchStartV), AxisY, AxisX));
        vertices := PatchCornerWrite(vertices, base, width, depth, widthPatchIndex, depthPatchIndex, 1,
          Vertex(Vec3(patchStartX, 0.0, patchStartZ + strideZ), Vec2(patchStartU, patchStartV + strideV), AxisY, AxisX));
        vertices := PatchCornerWrite(vertices, base, width, depth, widthPatchIndex, depthPatchIndex, 2,
          Vertex(Vec3(patchStartX + strideX, 0.0, patchStartZ), Vec2(patchStartU + strideU, patchStartV), AxisY, AxisX));
        vertices := PatchCornerWrite(vertices, base, width, depth, widthPatchIndex, depthPatchIndex, 3,
          Vertex(Vec3(patchStartX + strideX, 0.0, patchStartZ + strideZ), Vec2(patchStartU + strideU, patchStartV + strideV), AxisY, AxisX));
        depthPatchIndex := depthPatchIndex + 1;
      }
      widthPatchIndex := widthPatchIndex + 1;
    }
    AllOverlaid(PatchVertices(width, depth), widthPatchIndex * 80, base);
  }

  /** `vertices[finalPatchIndex + c] = vertex` for corner `c` of patch `(wp, dp)`,
      with the corners before it already written. */
  method PatchCornerWrite(vertices: seq<Vertex>, ghost base: seq<Vertex>, width: nat, depth: nat, wp: nat, dp: nat, c: nat, vertex: Vertex)
    returns (r: seq<Vertex>)
    requires wp < PatchCount && dp < PatchCount && c < 4 && |base| == PatchSlots
    requires vertices == Overlaid(PatchVertices(width, depth), PatchSlot(wp, dp) + c, base)
    requires vertex == PatchCorner(width, depth, wp, dp, c)
    ensures r == Overlaid(PatchVertices(width, depth), PatchSlot(wp, dp) + c + 1, base)
  {
    PatchSlotHolds(width, depth, wp, dp, c);
    OverlayNext(PatchVertices(width, depth), PatchSlot(wp, dp) + c, base, vertex);
    r := vertices[PatchSlot(wp, dp) + c := vertex];
  }

  /** Slot `PatchSlot(wp, dp) + c` of the buffer holds corner `c` of patch `(wp, dp)`. */
  lemma PatchSlotHolds(width: nat, depth: nat, wp: nat, dp: nat, c: nat)
    requires wp < PatchCount && dp < PatchCount && c < 4
    ensures PatchSlot(wp, dp) + c < PatchSlots
    ensures PatchVertices(width, depth)[PatchSlot(wp, dp) + c] == PatchCorner(width, depth, wp, dp, c)
  {
    PatchSlotDecodes(wp, dp, c);
  }
}
