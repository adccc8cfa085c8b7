# Midgard terrain grid and mesh bookkeeping, in Dafny

Midgard is a procedural terrain generator built on the RaZ engine. It has
three terrain classes:

- **Terrain** (`src/Midgard/Terrain.cpp`) is the older, sequential version.
- **StaticTerrain** (`src/Midgard/StaticTerrain.cpp`) is the current CPU version.
- **DynamicTerrain** (`src/Midgard/DynamicTerrain.cpp`) lays out flat quad
  patches and leaves the heights to the GPU's tessellation shaders.

This project models the CPU-side work of the three classes:

- The parameter state: `m_width`, `m_depth`, `m_heightFactor`, `m_flatness`,
  `m_invFlatness` and, for the dynamic terrain, `m_minTessLevel`. It also
  models the warn-and-clamp policy that keeps both factors and the
  tessellation level positive.
- The row-major heightfield. Vertex `k` belongs to grid cell
  `(k % width, k / width)`.
- The triangle index buffer: two triangles per cell, six slots per cell.
- The interior-stencil passes (`computeNormals` and `computeSlopeMap`). They
  write only vertices whose four axis neighbours exist.
- The height remap done by `setParameters`.
- The three raster maps (colour, normal and slope). Each pixel is written at
  stride `k * 3`, or at `k` for the single-channel slope map.
- The 20 x 20 patch grid of the dynamic terrain.

Layout:

| file | module | contents |
|---|---|---|
| `numerics.dfy` | `Numerics` | vectors, colours, bytes, float truncation, and the engine's numeric primitives as a record of functions with the facts the model relies on (`Sound`) |
| `parameters.dfy` | `TerrainParameters` | the parameter record and the clamp |
| `grid.dfy` | `Grid` | index/cell arithmetic, the interior, triangle slots, 32-bit loop bounds |
| `buffers.dfy` | `Buffers` | "the first `n` slots are written" views of a buffer, used as loop invariants |
| `mesh.dfy` | `HeightfieldMesh` | vertex fill, normals, remap, index buffer: each pass is a loop method proved equal to a specification function |
| `maps.dfy` | `TerrainMaps` | colour, normal and slope rasters filled in arrays |
| `patches.dfy` | `TerrainPatches` | the dynamic terrain's patch layout |
| `terrain.dfy`, `static_terrain.dfy`, `dynamic_terrain.dfy` | `Terrains`, `StaticTerrains`, `DynamicTerrains` | the classes; their fields are updated in place by methods that call the passes above |

Each class keeps a `Valid()` invariant:

- **Terrain and StaticTerrain:**
  - Either nothing has been generated yet and every parameter is zero, or
    both factors are positive and `invFlatness == 1 / flatness`.
  - The vertex buffer has `width * depth` entries.
  - Heights lie in `[0, heightFactor]`.
  - Normals are bounded.
  - The index buffer is the one for the grid.
- **DynamicTerrain:** the same choice between an untouched and a configured
  state, now including the tessellation level. The patch buffer is empty, or
  it is the patch grid of the last `generate`.

Every state-changing method preserves `Valid()` and states its whole new
state.

Floating-point values are modelled as `real`. Perlin noise, `std::pow`,
`normalize` and `computeLength`, and the colour interpolation are parameters
of the model (`MathLib`). `Sound(math)` lists the only facts assumed about
them:

- noise lies in [0, 1];
- `pow` maps [0, 1] into [0, 1] for a positive exponent, and 0 to 0;
- `normalize` keeps the sign of each component and bounds it by 1;
- a length is non-negative, and the zero vector has length 0;
- interpolating with factor 0 gives the first colour.

Each `Raz::Threading::parallelize` call becomes a sequential loop over the
same index range. This is sound because its iterations write disjoint slots.

Facts about the code that the model follows:

- The index buffer has `width * depth * 6` slots, not `(width-1)*(depth-1)*6`.
  The slots of the last column and the last row are never written.
- `z` is recentred by half the *width*, not the depth
  (`HeightfieldMesh.GridVertexAtCell`).
- Border vertices keep whatever normal and tangent the resized buffer held.
  The normals pass does not reset them to zero (`HeightfieldMesh.NormalsFrame`).
- At elevation 1 the colour factor is `(1 - 0.66) * 3 = 1.02`, not 1. The
  pixel therefore comes from `lerp(rock, snow, 1.02)`, not exactly from
  `snowColor` (`TerrainMaps.BandFactorRange`).
- `DynamicTerrain::generate` never stores its width and depth in
  `m_width`/`m_depth` (`DynamicTerrains.DynamicTerrain.GenerateWithTessellation`).

`StaticTerrain::generate` (line 45) and `DynamicTerrain::setParameters`
(line 90) both call the base class's `Terrain::setParameters`. The
`Terrain.hpp`/`Terrain.cpp` in the repository are an older revision than the
classes that call them:

- Their `setParameters` is not virtual.
- It remaps the vertices before storing anything.
- Done at `StaticTerrain::generate:45`, the remap would run over a buffer
  that has not yet been resized to the new dimensions.
- In the dynamic terrain, `m_width == m_depth == 0`, so the remap's normals
  loop would run its wrapped unsigned bounds.

The base update that these callers rely on is therefore modelled as "clamp
and store", as in `Terrain::generate` (`src/Midgard/Terrain.cpp:66-71`).

## Model

| member | source | states |
|---|---|---|
| TerrainParameters.Clamped | src/Midgard/Terrain.cpp:20-30 | the clamped value is strictly positive, and a positive value passes unchanged |
| TerrainParameters.ClampedIdempotent | src/Midgard/Terrain.cpp:20-30 | clamping a clamped value changes nothing |
| TerrainParameters.CheckParameters | src/Midgard/Terrain.cpp:20-30 | height factor and flatness are clamped independently: positive values are kept, the others become epsilon, and both results are strictly positive |
| TerrainParameters.WithFactors | src/Midgard/StaticTerrain.cpp:35-37 | storing clamped factors leaves a usable state (both positive, `invFlatness = 1/flatness`) with the dimensions unchanged |
| TerrainParameters.WithCurrentFactorsIsIdentity | include/Midgard/DynamicTerrain.hpp:20 | re-storing the current usable factors gives back the same state |
| TerrainParameters.SetHeightFactorKeepsFlatness | include/Midgard/Terrain.hpp:18 | `setParameters(h, m_flatness)` keeps a positive flatness and its inverse |
| TerrainParameters.SetFlatnessKeepsHeightFactor | include/Midgard/Terrain.hpp:19 | `setParameters(m_heightFactor, f)` keeps a positive height factor |
| TerrainParameters.InverseFlatness | src/Midgard/StaticTerrain.cpp:37 | in a usable state the cached inverse is positive and `invFlatness * flatness == 1` |
| Numerics.Truncate | src/Midgard/StaticTerrain.cpp:179-181 | `static_cast` of a float to an integer truncates toward zero: the result is within 1 of the input, on the zero side |
| Grid.Column | src/Midgard/StaticTerrain.cpp:59 | the column of a vertex is below the width |
| Grid.ColumnRow | src/Midgard/StaticTerrain.cpp:59-60 | column and row are `k % width` and `k / width`, and `k == row * width + column` |
| Grid.CellRoundTrip | src/Midgard/StaticTerrain.cpp:59-60 | the index of cell `(x, z)` decodes back to `(x, z)` |
| Grid.IndexRoundTrip | src/Midgard/StaticTerrain.cpp:53-60 | every index below `width * depth` decodes to a cell inside the grid that encodes back to it |
| Grid.InteriorAt | src/Midgard/StaticTerrain.cpp:221-227 | a vertex is written by the stencil passes exactly when `1 <= x <= width-2` and `1 <= z <= depth-2` |
| Grid.InteriorNeighbours | src/Midgard/StaticTerrain.cpp:238-241 | an interior vertex's neighbours `k - width`, `k + width`, `k - 1`, `k + 1` are in the buffer and sit one row above, one row below, one column left and one column right |
| Grid.CellTrianglesValid | src/Midgard/StaticTerrain.cpp:119-126 | every index written for a meshed cell is below `width * depth`, and neither triangle repeats a vertex |
| Grid.SlotOffsetInBounds | src/Midgard/StaticTerrain.cpp:103-119 | with the row offset `j * width`, the six slots of every meshed cell lie inside the `width * depth * 6` buffer |
| Grid.SlotOffsetInjective | src/Midgard/StaticTerrain.cpp:119 | with the row offset `j * width`, different cells get different slot groups |
| Grid.SlotOffsetsAgreeOnSquare | src/Midgard/StaticTerrain.cpp:106 | on a square grid the offset `j * m_depth` as written equals `j * width` |
| Grid.AsWrittenSlotOverrunsDeepGrid | src/Midgard/StaticTerrain.cpp:103-106 | on a 2 x 4 grid the offset as written puts cell (0, 2) past the end of the 48-slot buffer |
| Grid.AsWrittenSlotsCollideOnWideGrid | src/Midgard/Terrain.cpp:105 | on a 5 x 3 grid the offset as written gives cells (3, 0) and (0, 1) the same slots |
| Grid.Decrement32Agrees | src/Midgard/StaticTerrain.cpp:105-108 | for `n >= 1` the unsigned bound `j < n - 1` is `j + 1 < n` |
| Grid.Multiply32 | src/Midgard/StaticTerrain.cpp:53 | a 32-bit product is below 2^32 and equals the exact product when that is below 2^32 |
| Grid.AsWrittenProductsWrap | src/Midgard/StaticTerrain.cpp:53-119 | `m_width * m_depth` wraps to 0 on a 65536 x 65536 grid, and `(depthIndex + i) * 6` wraps below the exact offset on a 27000 x 27000 grid |
| HeightfieldMesh.Resized | src/Midgard/StaticTerrain.cpp:53 | `resize(n)` has length `n`, keeps the old prefix, and fills new slots with a value-initialised vertex |
| HeightfieldMesh.FillVertices | src/Midgard/StaticTerrain.cpp:55-75 | the vertex loop produces the grid vertices |
| HeightfieldMesh.GridVertexAtCell | src/Midgard/StaticTerrain.cpp:59-73 | vertex `(x, z)` has texcoords `(x/width, z/depth)` in [0, 1), and x/z positions `(coord - width/2) * 0.5` |
| HeightfieldMesh.GridVerticesInRange | src/Midgard/StaticTerrain.cpp:66-72 | every filled height lies in `[0, heightFactor]`, and normals and tangents are those already in the buffer |
| HeightfieldMesh.NormalsPass | src/Midgard/StaticTerrain.cpp:216-245 | the rows-and-columns loop gives the same result as the stencil normal applied to every interior vertex |
| HeightfieldMesh.NormalsRow | src/Midgard/StaticTerrain.cpp:224-245 | one row of the normals loop extends the written prefix by that row |
| HeightfieldMesh.SlopeAt | src/Midgard/StaticTerrain.cpp:238-241 | the four heights read around `(i, j)` are the left, right, top and bottom neighbours of vertex `j * width + i` |
| HeightfieldMesh.NormalsFrame | src/Midgard/StaticTerrain.cpp:221-245 | the normals pass changes no position or texcoord, and leaves every border vertex unchanged |
| HeightfieldMesh.InteriorNormalFacesUp | src/Midgard/StaticTerrain.cpp:244-245 | an interior normal points up (`y > 0`) and is bounded, and its tangent is `(n.z, n.x, n.y)` |
| HeightfieldMesh.NormalIsLocal | src/Midgard/Terrain.cpp:221-227 | an interior normal depends only on the heights of its four neighbours |
| HeightfieldMesh.WithNormalsKeepsInvariants | src/Midgard/StaticTerrain.cpp:243-245 | recomputing normals keeps the heights in range and the normals bounded |
| HeightfieldMesh.RemapPass | src/Midgard/StaticTerrain.cpp:283-290 | the remap loop gives every vertex its remapped height |
| HeightfieldMesh.RemapOnlyHeights | src/Midgard/StaticTerrain.cpp:286-288 | the remap changes only `position.y`, and each new height is a function of that vertex's old height alone |
| HeightfieldMesh.RemapKeepsZero | src/Midgard/StaticTerrain.cpp:287-288 | a height of 0 stays 0 when both exponents are positive |
| HeightfieldMesh.RemapWithin | src/Midgard/StaticTerrain.cpp:287-288 | a height in `[0, old heightFactor]` is remapped into `[0, new heightFactor]` |
| HeightfieldMesh.RemappedWithin | src/Midgard/Terrain.cpp:263-268 | after the remap every height is within the new height factor, and normals stay bounded |
| HeightfieldMesh.GeneratedMeshValid | src/Midgard/StaticTerrain.cpp:43-98 | the generated mesh has `width * depth` vertices with heights in `[0, heightFactor]` and bounded normals |
| HeightfieldMesh.RemappedMeshValid | src/Midgard/StaticTerrain.cpp:28-38 | remapping with the stored parameters and then recomputing normals keeps the vertex count, puts heights in the new range and keeps normals bounded |
| HeightfieldMesh.IndexBuffer | src/Midgard/StaticTerrain.cpp:103 | the index buffer has `width * depth * 6` slots |
| HeightfieldMesh.ResizedIndexBuffer | src/Midgard/StaticTerrain.cpp:102-128 | `indices.resize` then the loops: the buffer has `width * depth * 6` slots; a slot of no meshed cell keeps the old entry where the old buffer reached it and is 0 where the resize added it. Cells are placed at `(j * width + i) * 6`, which is the source's offset only on square grids (`Grid.SlotOffsetsAgreeOnSquare`) |
| HeightfieldMesh.RegeneratedIndexBuffer | src/Midgard/StaticTerrain.cpp:102-128 | regenerating over an old buffer agrees with a build into a cleared buffer on every written slot; the two are equal exactly when the old buffer holds 0 in every unwritten slot it covers |
| HeightfieldMesh.AsWrittenLoopsRunOnEmptyGrid | src/Midgard/StaticTerrain.cpp:103-119 | on a 2 x 0 and on a 0 x 2 grid one unsigned bound `n - 1` wraps to 2^32 - 1 and the other is 1, so `i = j = 0` enters the loop and writes at offset 0 of an index buffer with 0 slots |
| HeightfieldMesh.StaleIndexAfterShrinking | src/Midgard/StaticTerrain.cpp:102-128 | regenerating a 5 x 5 grid over a 10 x 10 one leaves index 30 in an unwritten slot, past the 25 vertices |
| HeightfieldMesh.IndexBufferAtCell | src/Midgard/StaticTerrain.cpp:119-126 | the six slots of meshed cell `(i, j)` hold `(j*w+i, (j+1)*w+i, j*w+i+1)` and `(j*w+i+1, (j+1)*w+i, (j+1)*w+i+1)` |
| HeightfieldMesh.IndexBufferValid | src/Midgard/StaticTerrain.cpp:102-128 | every index in the buffer is below `width * depth`, and every slot of an unmeshed cell is 0 |
| HeightfieldMesh.UnmeshedCellIsZero | src/Midgard/StaticTerrain.cpp:105-108 | the slots of the last column and the last row are never written |
| HeightfieldMesh.BuildIndices | src/Midgard/StaticTerrain.cpp:102-128 | the nested `j`/`i` loops produce exactly the index buffer |
| HeightfieldMesh.IndicesRow | src/Midgard/StaticTerrain.cpp:108-127 | one row of the index loop extends the written prefix by that row's slots |
| TerrainMaps.Band | src/Midgard/StaticTerrain.cpp:146-149 | the band is the last whose threshold (0, 0.33, 0.5, 0.66) is at most `t` |
| TerrainMaps.BandMonotone | src/Midgard/StaticTerrain.cpp:146-149 | a higher elevation never falls into a lower band |
| TerrainMaps.BandStops | src/Midgard/StaticTerrain.cpp:146-149 | elevations 0, 0.33, 0.5 and 0.66 give water, grass, ground and rock exactly |
| TerrainMaps.BandFactorRange | src/Midgard/StaticTerrain.cpp:146-149 | the interpolation factor lies in [0, 1.02], stays below 1 under 0.66, and is 1.02 at elevation 1 |
| TerrainMaps.ElevationWithin | src/Midgard/StaticTerrain.cpp:145 | the recovered elevation of a height in range lies in [0, 1] |
| TerrainMaps.SeaLevelIsWater | src/Midgard/StaticTerrain.cpp:145-146 | height 0 is coloured water |
| TerrainMaps.ColorMapData | src/Midgard/StaticTerrain.cpp:136 | the colour image holds three bytes per vertex |
| TerrainMaps.ColorMapPixel | src/Midgard/StaticTerrain.cpp:151-154 | bytes `i*3 .. i*3+2` hold the band colour of vertex `i` |
| TerrainMaps.PixelColor | src/Midgard/StaticTerrain.cpp:145-149 | the nested thresholds pick the band colour of the recovered elevation |
| TerrainMaps.ColorMapPass | src/Midgard/StaticTerrain.cpp:133-162 | the colour loop fills a `width x depth` RGB image with the colour map data |
| TerrainMaps.NormalChannel | src/Midgard/StaticTerrain.cpp:179-181 | a channel is 0 for a non-positive component, and otherwise the truncation of `component * 255` |
| TerrainMaps.AsWrittenNormalChannelLeavesByteRange | src/Midgard/Terrain.cpp:170-172 | without the clamp, a component of -1 converts to -255, and every component up to -1/255 converts to a negative value |
| TerrainMaps.NormalChannelAgrees | src/Midgard/Terrain.cpp:170-172 | on [0, 1] the conversion as written and the clamped one agree and stay within a byte |
| TerrainMaps.NormalMapData | src/Midgard/StaticTerrain.cpp:167 | the normal image holds three bytes per vertex |
| TerrainMaps.NormalMapPixel | src/Midgard/StaticTerrain.cpp:176-181 | bytes `i*3 .. i*3+2` hold the clamped channels of vertex `i`'s normal |
| TerrainMaps.NormalMapPass | src/Midgard/StaticTerrain.cpp:164-186 | the normal loop fills a `width x depth` RGB image with the normal map data |
| TerrainMaps.SlopeMapData | src/Midgard/StaticTerrain.cpp:191 | the three-channel slope image holds `width * depth * 3` floats |
| TerrainMaps.GraySlopeMapData | src/Midgard/Terrain.cpp:180 | the single-channel slope image holds `width * depth` floats |
| TerrainMaps.SlopeSlots | src/Midgard/StaticTerrain.cpp:208 | the three floats of an interior pixel hold its normalised slope direction and its strength |
| TerrainMaps.SlopeMapPixel | src/Midgard/StaticTerrain.cpp:195-208 | an interior pixel holds `(normalize(left-right, top-bot), 0.5 * length)` from its four neighbours, and every border pixel stays 0 |
| TerrainMaps.SlopeStrengthNonNegative | src/Midgard/StaticTerrain.cpp:206 | every slope strength is non-negative, in both slope maps |
| TerrainMaps.GraySlopeIsStrengthChannel | src/Midgard/Terrain.cpp:194-195 | the older single-channel slope map is the strength channel of the three-channel one |
| TerrainMaps.FlatTerrainHasNoSlope | src/Midgard/Terrain.cpp:189-195 | on a terrain of constant height every slope value is 0 |
| TerrainMaps.SlopeMapPass | src/Midgard/StaticTerrain.cpp:188-214 | the row-by-row loop fills the three-channel slope image with the slope map data |
| TerrainMaps.SlopeRow | src/Midgard/StaticTerrain.cpp:199-209 | one row of the slope loop writes that row's interior pixels and nothing else |
| TerrainMaps.GraySlopeMapPass | src/Midgard/Terrain.cpp:179-200 | the nested loops fill the single-channel slope image with the grey slope data |
| TerrainMaps.GraySlopeRow | src/Midgard/Terrain.cpp:188-196 | one row of the older slope loop writes that row's interior pixels and nothing else |
| TerrainPatches.PatchVertices | src/Midgard/DynamicTerrain.cpp:126 | the patch buffer has `20 * 20 * 4 = 1600` slots |
| TerrainPatches.PatchSlotDecodes | src/Midgard/DynamicTerrain.cpp:131-136 | slot `(w*20 + d)*4 + c` is inside the buffer and decodes back to patch `(w, d)` and corner `c` |
| TerrainPatches.PatchSlotsBijective | src/Midgard/DynamicTerrain.cpp:126-136 | distinct (patch, corner) pairs get distinct slots, and every slot belongs to one pair, so each slot is written exactly once |
| TerrainPatches.PatchesTile | src/Midgard/DynamicTerrain.cpp:112-134 | the first patch starts at `-size/2`, each patch ends where the next starts, and the last ends at `size/2` |
| TerrainPatches.StartWithin | src/Midgard/DynamicTerrain.cpp:129-134 | every patch lies within `[-size/2, size/2]` |
| TerrainPatches.PatchesShareEdges | src/Midgard/DynamicTerrain.cpp:138-153 | adjacent patches share the positions and texcoords of their common edge |
| TerrainPatches.PatchVerticesInRange | src/Midgard/DynamicTerrain.cpp:138-153 | a vertex of patch `(w, d)` has UVs in `[w/20, (w+1)/20] x [d/20, (d+1)/20]`, which lie in [0, 1]; it lies within the terrain's extent at height 0, with normal Y and tangent X |
| TerrainPatches.PatchSlotHolds | src/Midgard/DynamicTerrain.cpp:136-153 | slot `(w*20 + d)*4 + c` holds corner `c` of patch `(w, d)`, in the corner order 0, 1, 2, 3 |
| TerrainPatches.PatchCornerWrite | src/Midgard/DynamicTerrain.cpp:138-153 | writing one corner extends the written prefix of the patch buffer by that slot |
| TerrainPatches.BuildPatches | src/Midgard/DynamicTerrain.cpp:125-155 | the nested patch loops produce exactly the patch layout |
| Terrains.Terrain.constructor | include/Midgard/Terrain.hpp:36-44 | a fresh terrain has every parameter zero, an empty mesh and empty maps |
| Terrains.Terrain.Generated | include/Midgard/Terrain.hpp:13-14 | the dimensioned constructor is `generate` on a fresh terrain |
| Terrains.Terrain.SetHeightFactor | include/Midgard/Terrain.hpp:18 | `setParameters(h, m_flatness)`: a positive flatness is kept |
| Terrains.Terrain.SetFlatness | include/Midgard/Terrain.hpp:19 | `setParameters(m_heightFactor, f)`: a positive height factor is kept |
| Terrains.Terrain.SetParameters | src/Midgard/Terrain.cpp:54-62 | clamp, then remap with the old parameters and recompute normals, then store the new factors and the inverse flatness; the invariant is kept |
| Terrains.Terrain.Generate | src/Midgard/Terrain.cpp:64-130 | the state stores the new dimensions and clamped factors; the vertices are the filled grid with normals, and the index buffer is the grid's; the invariant is kept |
| Terrains.Terrain.ComputeColorMap | src/Midgard/Terrain.cpp:132-157 | `m_colorMap` becomes the colour map of the current vertices, and nothing else changes |
| Terrains.Terrain.ComputeNormalMap | src/Midgard/Terrain.cpp:159-177 | `m_normalMap` becomes the normal map of the current vertices, and nothing else changes |
| Terrains.Terrain.ComputeSlopeMap | src/Midgard/Terrain.cpp:179-200 | `m_slopeMap` becomes the single-channel slope map, and nothing else changes |
| Terrains.Terrain.ComputeNormals | src/Midgard/Terrain.cpp:202-257 | the vertex buffer gets the stencil normals, and nothing else changes |
| Terrains.Terrain.RemapVertices | src/Midgard/Terrain.cpp:259-272 | heights are remapped with the stored parameters, normals are recomputed, and the parameters are untouched |
| StaticTerrains.StaticTerrain.constructor | include/Midgard/StaticTerrain.hpp:12 | a fresh static terrain has every parameter zero, an empty mesh and empty maps |
| StaticTerrains.StaticTerrain.Generated | src/Midgard/StaticTerrain.cpp:22-26 | the dimensioned constructor is `generate` on a fresh static terrain |
| StaticTerrains.StaticTerrain.SetHeightFactor | include/Midgard/Terrain.hpp:18 | `setParameters(h, m_flatness)`: a positive flatness is kept |
| StaticTerrains.StaticTerrain.SetFlatness | include/Midgard/Terrain.hpp:19 | `setParameters(m_heightFactor, f)`: a positive height factor is kept |
| StaticTerrains.StaticTerrain.SetParameters | src/Midgard/StaticTerrain.cpp:28-38 | clamp, then remap with the old parameters and recompute normals, then store the new factors and the inverse flatness; the invariant is kept |
| StaticTerrains.StaticTerrain.Generate | src/Midgard/StaticTerrain.cpp:40-131 | the state stores the new dimensions and clamped factors; the vertices are the filled grid with normals, and the index buffer is the grid's; the invariant is kept |
| StaticTerrains.StaticTerrain.ComputeColorMap | src/Midgard/StaticTerrain.cpp:133-162 | `m_colorMap` becomes the colour map of the current vertices, and nothing else changes |
| StaticTerrains.StaticTerrain.ComputeNormalMap | src/Midgard/StaticTerrain.cpp:164-186 | `m_normalMap` becomes the clamped normal map, and nothing else changes |
| StaticTerrains.StaticTerrain.ComputeSlopeMap | src/Midgard/StaticTerrain.cpp:188-214 | `m_slopeMap` becomes the three-channel slope map, and nothing else changes |
| StaticTerrains.StaticTerrain.ComputeNormals | src/Midgard/StaticTerrain.cpp:216-275 | the vertex buffer gets the stencil normals, and nothing else changes |
| StaticTerrains.StaticTerrain.RemapVertices | src/Midgard/StaticTerrain.cpp:277-294 | heights are remapped with the stored parameters, normals are recomputed, and the parameters are untouched |
| DynamicTerrains.CheckTessellationLevel | src/Midgard/DynamicTerrain.cpp:33-38 | a tessellation level of 0 or less becomes epsilon, a positive one is kept, and the result is positive |
| DynamicTerrains.DynamicTerrain.constructor | include/Midgard/DynamicTerrain.hpp:42 | a fresh dynamic terrain has every parameter zero, including the tessellation level, and no patches |
| DynamicTerrains.DynamicTerrain.Generated | src/Midgard/DynamicTerrain.cpp:80-87 | the dimensioned constructor is the five-argument `generate` on a fresh terrain; the tessellation level defaults to 12 (`include/Midgard/DynamicTerrain.hpp:14`) |
| DynamicTerrains.DynamicTerrain.SetParametersWithTessellation | src/Midgard/DynamicTerrain.cpp:89-93 | the base update stores the clamped factors, then the clamped tessellation level is stored; the patches are untouched |
| DynamicTerrains.DynamicTerrain.SetParameters | include/Midgard/DynamicTerrain.hpp:21 | the two-argument overload keeps a positive tessellation level |
| DynamicTerrains.DynamicTerrain.SetMinTessellationLevel | include/Midgard/DynamicTerrain.hpp:20 | setting the tessellation level keeps the current usable factors |
| DynamicTerrains.DynamicTerrain.GenerateWithTessellation | src/Midgard/DynamicTerrain.cpp:106-161 | the buffer becomes the 1600-slot patch layout, then `setParameters` runs with the same arguments; `m_width` and `m_depth` are not changed |
| DynamicTerrains.DynamicTerrain.Generate | include/Midgard/DynamicTerrain.hpp:29 | the four-argument `generate` uses tessellation level 12 |

## Left out

- GPU and engine plumbing is not modelled:
  - material and texture set-up and upload;
  - `MeshRenderer::load`;
  - shader linking and uniform pushes;
  - the dynamic terrain's compute dispatches (`computeNoiseMap`, `computeColorMap`, `computeSlopeMap` and the texture getters);
  - `Renderer::setLabel` and `setPatchVertexCount`.

  None of it changes the CPU-side state modelled here.
- The `Logger::warn` messages of the clamps are output only.
- `main.cpp` (window, input callbacks, overlay, fog pass, image saving) is UI and I/O glue and is not part of this model.
- Perlin noise, `std::pow`, `normalize`, `computeLength` and the byte `lerp` are parameters, constrained only by `Sound`. Float rounding is not modelled; values are reals.
- The remap round trip (remapping to the current parameters gives the same heights) and unit-length normals are not proved. Both depend on the exact behaviour of float `pow` and `sqrt`.
- `Raz::Threading::parallelize` runs each range concurrently. Here it is a sequential loop over the same range; its iterations write disjoint slots.
- A fresh `Raz::Image` is taken to be zero-filled. The slope maps' border pixels are stated as 0 on that basis.
- The vertex buffer before the first `generate` is taken to be empty.
- `Terrain::setParameters` as called from `StaticTerrain::generate` and `DynamicTerrain::setParameters` is modelled as clamp and store. The reason is given above.
- The profiling markers and the commented-out alternatives in the source are not modelled.
- `include/Midgard/StaticTerrain.hpp` is declarations only; its members are modelled from `StaticTerrain.cpp`.
- The entity and component lookups (`m_entity.getComponent<...>()`, `getSubmeshes().resize(1)`) are not modelled. The single submesh's buffers are fields of the class.
- The model assumes `width * depth * 6 < 2^32`. Buffer sizes, vertex indices and slot offsets are unbounded naturals; only the unsigned loop bounds are modelled as 32-bit (`Grid.Decrement32`). Two 32-bit products of the source wrap on larger grids, and the model does not follow them (`Grid.AsWrittenProductsWrap` exhibits both):
  - `vertices.resize(m_width * m_depth)` (`src/Midgard/StaticTerrain.cpp:53`, `src/Midgard/Terrain.cpp:79`): a 65536 x 65536 grid resizes the vertex buffer to 0 entries, and the later loops then index outside it.
  - `finalIndex = (depthIndex + i) * 6` (`src/Midgard/StaticTerrain.cpp:119`): once `width * depth * 6` exceeds 2^32, offsets wrap and cells overwrite the slots of earlier cells.

## Findings

| source | as written | input that shows it | evidently intended | confidence | as-written member | corrected member |
|---|---|---|---|---|---|---|
| src/Midgard/StaticTerrain.cpp:106 | the row offset of the slot is `j * m_depth` (also `src/Midgard/Terrain.cpp:105`) | a 2-wide, 4-deep grid: cell (0, 2) writes slots 48-53 of a 48-slot buffer; a 5 x 3 grid: cells (3, 0) and (0, 1) share slots 18-23 | `j * m_width`, the stride the index values use | high, not executed | Grid.AsWrittenSlotOverrunsDeepGrid | Grid.SlotOffsetInBounds |
| src/Midgard/StaticTerrain.cpp:105 | the loop bounds `m_depth - 1` and `m_width - 1` are unsigned (also lines 108, 221, 227 and `src/Midgard/Terrain.cpp:104, 107, 185, 188, 205, 208`) | a grid with width or depth 0: `0 - 1` wraps to 4294967295 and the loop indexes an empty buffer | the loop runs while `j + 1 < m_depth` | high, not executed | HeightfieldMesh.AsWrittenLoopsRunOnEmptyGrid | Grid.Decrement32Agrees |
| src/Midgard/StaticTerrain.cpp:103 | `indices.resize(vertices.size() * 6)` keeps earlier entries, and the last column and row of cells never overwrite them | `generate(10, 10, …)` then `generate(5, 5, …)`: slot 121 still holds 30, while the mesh has 25 vertices | unwritten slots hold no stale index (a cleared buffer) | medium, not executed | HeightfieldMesh.StaleIndexAfterShrinking | HeightfieldMesh.IndexBufferValid |
| src/Midgard/Terrain.cpp:170 | `static_cast<uint8_t>(normal.x() * 255.f)` without a clamp (also lines 171-172) | an interior normal with x = -1 converts -255.0 to `uint8_t`, which is undefined | clamp at 0 first, as `src/Midgard/StaticTerrain.cpp:179-181` does | high, not executed | TerrainMaps.AsWrittenNormalChannelLeavesByteRange | TerrainMaps.NormalChannelAgrees |

The rest of the model uses the corrected behaviour:

- Slot offset `j * width`.
- Loops that run while `j + 1 < n`.
- An index buffer whose unwritten slots hold 0.
- The clamped normal channel, also in `Terrains.Terrain.ComputeNormalMap`.
