/** The per-pixel map writers: the colour map (an elevation band per vertex),
    the normal map (normal components as bytes) and the slope maps (the
    finite-difference slope of every interior vertex), each filling a
    `width x depth` image whose pixel `k` belongs to vertex `k`. */
module TerrainMaps {
  import opened Numerics
  import opened TerrainParameters
  import opened Grid
  import opened Buffers
  import opened HeightfieldMesh

  /** `Raz::Image`: dimensions, channels per pixel and the pixel data, row-major
      with the channels of a pixel side by side. */
  datatype Image<T> = Image(width: nat, height: nat, channels: nat, data: seq<T>)

  const WaterColor: Color := Color(0, 0, 255)
  const GrassColor: Color := Color(62, 126, 0)
  const GroundColor: Color := Color(157, 110, 94)
  const RockColor: Color := Color(127, 127, 127)
  const SnowColor: Color := Color(255, 255, 255)

  /** Colour `b` is where band `b` starts and band `b - 1` heads. */
  const Palette: seq<Color> := [WaterColor, GrassColor, GroundColor, RockColor, SnowColor]

  /** Elevation at which each of the four bands starts. */
  const BandStarts: seq<real> := [0.0, 0.33, 0.5, 0.66]

  /** Factor by which the elevation above a band's start is stretched. */
  const BandScales: seq<real> := [3.0, 5.75, 6.0, 3.0]

  /** Index of a pixel channel in an interleaved RGB buffer: `(k * 3 + c) / 3`
      is pixel `k` and `(k * 3 + c) % 3` its channel `c`. */
  lemma Stride3(k: nat, c: nat)
    requires c < 3
    ensures (k * 3 + c) / 3 == k && (k * 3 + c) % 3 == c
  {
    DivModUnique(k * 3 + c, 3, k, c);
  }

  /** Writes the three channels of a pixel whose first slot is `o`. */
  method WritePixel<T>(data: array<T>, o: nat, c0: T, c1: T, c2: T)
    modifies data
    requires o + 3 <= data.Length
    ensures data[..] == old(data[..])[o := c0][o + 1 := c1][o + 2 := c2]
  {
    data[o] := c0;
    data[o + 1] := c1;
    data[o + 2] := c2;
  }

  // ---------------------------------------------------------------------------
  // Colour map (`computeColorMap`)

  /** `pow(y / m_heightFactor, m_invFlatness)`: the noise value a height came from. */
  function Elevation(y: real, p: Parameters, math: MathLib): real
    requires p.heightFactor != 0.0
  {
    math.pow(y / p.heightFactor, p.invFlatness)
  }

  /** The band of elevation `t`: the last band whose start is not above `t`
      (band 0 also takes whatever lies below 0.33). */
  function Band(t: real): (b: nat)
    ensures b < 4
    ensures b == 0 || BandStarts[b] <= t
    ensures b == 3 || t < BandStarts[b + 1]
  {
    if t < 0.33 then 0 else if t < 0.5 then 1 else if t < 0.66 then 2 else 3
  }

  /** How far into its band `t` lies, as an interpolation factor. */
  function BandFactor(t: real): real {
    (t - BandStarts[Band(t)]) * BandScales[Band(t)]
  }

  /** The colour of elevation `t`: between the colour that starts its band and
      the one that starts the next. */
  function BandColor(t: real, math: MathLib): Color {
    var b := Band(t);
    math.lerp(Palette[b], Palette[b + 1], BandFactor(t))
  }

  /** A higher elevation never falls into a lower band. */
  lemma BandMonotone(t1: real, t2: real)
    requires t1 <= t2
    ensures Band(t1) <= Band(t2)
  {
  }

  /** At the start of each band the factor is 0, so elevation 0 is water,
      0.33 grass, 0.5 ground and 0.66 rock. */
  lemma BandStops(math: MathLib)
    requires Sound(math)
    ensures BandColor(0.0, math) == WaterColor
    ensures BandColor(0.33, math) == GrassColor
    ensures BandColor(0.5, math) == GroundColor
    ensures BandColor(0.66, math) == RockColor
  {
    assert BandFactor(0.0) == 0.0 && BandFactor(0.33) == 0.0;
    assert BandFactor(0.5) == 0.0 && BandFactor(0.66) == 0.0;
  }

  /** For an elevation in [0, 1] the factor is never negative; below 0.66 it
      stays under 1, so no band reaches the colour of the next; in the top band
      it reaches 1.02 at elevation 1, slightly past the snow colour. */
  lemma BandFactorRange(t: real)
    requires 0.0 <= t <= 1.0
    ensures 0.0 <= BandFactor(t) <= 1.02
    ensures t < 0.66 ==> BandFactor(t) < 1.0
    ensures t == 1.0 ==> BandFactor(t) == 1.02
  {
  }

  /** A height within [0, heightFactor] has an elevation in [0, 1]. */
  lemma ElevationWithin(y: real, p: Parameters, math: MathLib)
    requires Ready(p) && Sound(math) && 0.0 <= y <= p.heightFactor
    ensures 0.0 <= Elevation(y, p, math) <= 1.0
  {
    InverseFlatness(p);
    DivideWithin(y, p.heightFactor);
  }

  /** Height 0 is coloured water. */
  lemma SeaLevelIsWater(p: Parameters, math: MathLib)
    requires Ready(p) && Sound(math)
    ensures BandColor(Elevation(0.0, p, math), math) == WaterColor
  {
    InverseFlatness(p);
    assert Elevation(0.0, p, math) == 0.0;
    BandStops(math);
  }

  /** Bytes of the colour map: pixel `k` holds the band colour of vertex `k`'s elevation. */
  function ColorMapData(vs: seq<Vertex>, p: Parameters, math: MathLib): (r: seq<byte>)
    requires vs == [] || p.heightFactor != 0.0
    ensures |r| == |vs| * 3
  {
    seq(|vs| * 3, s requires 0 <= s < |vs| * 3 =>
      Channel(BandColor(Elevation(vs[s / 3].position.y, p, math), math), s % 3))
  }

  /** Vertex `i` is written to bytes `i * 3`, `i * 3 + 1` and `i * 3 + 2`, as
      the red, green and blue of its band colour. */
  lemma ColorMapPixel(vs: seq<Vertex>, p: Parameters, i: nat, math: MathLib)
    requires i < |vs| && p.heightFactor != 0.0
    ensures i * 3 + 2 < |ColorMapData(vs, p, math)|
    ensures var col := BandColor(Elevation(vs[i].position.y, p, math), math);
            && ColorMapData(vs, p, math)[i * 3] == col.r
            && ColorMapData(vs, p, math)[i * 3 + 1] == col.g
            && ColorMapData(vs, p, math)[i * 3 + 2] == col.b
  {
    Stride3(i, 0);
    Stride3(i, 1);
    Stride3(i, 2);
  }

  /** The colour of one vertex in `computeColorMap`: the nested threshold
      tests pick the band and its interpolation. */
  method PixelColor(y: real, p: Parameters, math: MathLib) returns (pixelValue: Color)
    requires p.heightFactor != 0.0
    ensures pixelValue == BandColor(Elevation(y, p, math), math)
  {
    var noiseValue := math.pow(y / p.heightFactor, p.invFlatness);
    pixelValue :=
      if noiseValue < 0.33 then math.lerp(WaterColor, GrassColor, noiseValue * 3.0)
      else if noiseValue < 0.5 then math.lerp(GrassColor, GroundColor, (noiseValue - 0.33) * 5.75)
      else if noiseValue < 0.66 then math.lerp(GroundColor, RockColor, (noiseValue - 0.5) * 6.0)
      else math.lerp(RockColor, SnowColor, (noiseValue - 0.66) * 3.0);
  }

  /** `computeColorMap`: a `width x depth` RGB image, one band colour per vertex. */
  method ColorMapPass(vs: seq<Vertex>, p: Parameters, width: nat, depth: nat, math: MathLib)
    returns (img: Image<byte>)
    requires |vs| == width * depth && (vs == [] || p.heightFactor != 0.0)
    ensures img == Image(width, depth, 3, ColorMapData(vs, p, math))
  {
    var imgData: array<byte> := new byte[width * depth * 3](_ => 0);
    ghost var full: seq<byte> := ColorMapData(vs, p, math);
    NothingWritten(full, 0);
    assert imgData[..] == seq(|full|, _ => 0);
    var i := 0;
    while i < |vs|
      invariant i <= |vs|
      invariant imgData[..] == WrittenUpTo(full, i * 3, 0)
    {
      var pixelValue := PixelColor(vs[i].position.y, p, math);
      ColorMapPixel(vs, p, i, math);
      var dataStride := i * 3;
      WriteThree(full, dataStride, 0, pixelValue.r, pixelValue.g, pixelValue.b);
      WritePixel(imgData, dataStride, pixelValue.r, pixelValue.g, pixelValue.b);
      assert (i + 1) * 3 == dataStride + 3;
      i := i + 1;
    }
    AllWritten(full, i * 3, 0);
    img := Image(width, depth, 3, imgData[..]);
  }

  // ---------------------------------------------------------------------------
  // Normal map (`computeNormalMap`)

  /** `static_cast<uint8_t>(std::max(0.f, c) * 255.f)`: a negative component
      gives 0, any other one the truncation of `c * 255`. */
  function NormalChannel(c: real): (b: byte)
    requires c <= 1.0
    ensures c <= 0.0 ==> b == 0
    ensures c >= 0.0 ==> b as real <= c * 255.0 < b as real + 1.0
  {
    Truncate((if c < 0.0 then 0.0 else c) * 255.0)
  }

  /** `static_cast<uint8_t>(c * 255.f)` of the older revision, before the cast:
      the value is a byte only when `c` is not negative. */
  function NormalChannelAsWritten(c: real): int {
    Truncate(c * 255.0)
  }

  /** A normal with x = -1 (an interior vertex far lower on its left than on
      its right) makes the older revision cast -255.0 to an 8-bit channel. */
  lemma AsWrittenNormalChannelLeavesByteRange()
    ensures NormalChannelAsWritten(-1.0) == -255
    ensures forall c: real :: c <= -1.0 / 255.0 ==> NormalChannelAsWritten(c) < 0
  {
  }

  /** Clamping at 0 changes nothing for a component in [0, 1]: the two
      revisions differ only where the older one leaves the byte range. */
  lemma NormalChannelAgrees(c: real)
    requires 0.0 <= c <= 1.0
    ensures NormalChannel(c) == NormalChannelAsWritten(c)
    ensures 0 <= NormalChannelAsWritten(c) <= 255
  {
  }

  /** Bytes of the normal map: pixel `k` holds the channels of vertex `k`'s normal. */
  function NormalMapData(vs: seq<Vertex>): (r: seq<byte>)
    requires NormalsBounded(vs)
    ensures |r| == |vs| * 3
  {
    seq(|vs| * 3, s requires 0 <= s < |vs| * 3 => NormalChannel(Component(vs[s / 3].normal, s % 3)))
  }

  /** Vertex `i`'s normal `n` is written to bytes `i * 3 .. i * 3 + 2` as
      `(max(0, n.x), max(0, n.y), max(0, n.z))` scaled to [0, 255]; a vertex
      whose normal points down along an axis gets 0 in that channel. */
  lemma NormalMapPixel(vs: seq<Vertex>, i: nat)
    requires i < |vs| && NormalsBounded(vs)
    ensures i * 3 + 2 < |NormalMapData(vs)|
    ensures var n := vs[i].normal;
            && NormalMapData(vs)[i * 3] == NormalChannel(n.x)
            && NormalMapData(vs)[i * 3 + 1] == NormalChannel(n.y)
            && NormalMapData(vs)[i * 3 + 2] == NormalChannel(n.z)
  {
    Stride3(i, 0);
    Stride3(i, 1);
    Stride3(i, 2);
  }

  /** `computeNormalMap`: a `width x depth` RGB image of the vertex normals. */
  method NormalMapPass(vs: seq<Vertex>, width: nat, depth: nat) returns (img: Image<byte>)
    requires |vs| == width * depth && NormalsBounded(vs)
    ensures img == Image(width, depth, 3, NormalMapData(vs))
  {
    var imgData: array<byte> := new byte[width * depth * 3](_ => 0);
    ghost var full: seq<byte> := NormalMapData(vs);
    NothingWritten(full, 0);
    assert imgData[..] == seq(|full|, _ => 0);
    var i := 0;
    while i < |vs|
      invariant i <= |vs|
      invariant imgData[..] == WrittenUpTo(full, i * 3, 0)
    {
      var normal := vs[i].normal;
      NormalMapPixel(vs, i);
      var dataStride := i * 3;
      WriteThree(full, dataStride, 0, NormalChannel(normal.x), NormalChannel(normal.y), NormalChannel(normal.z));
      WritePixel(imgData, dataStride, NormalChannel(normal.x), NormalChannel(normal.y), NormalChannel(normal.z));
      assert (i + 1) * 3 == dataStride + 3;
      i := i + 1;
    }
    AllWritten(full, i * 3, 0);
    img := Image(width, depth, 3, imgData[..]);
  }

  // ---------------------------------------------------------------------------
  // Slope maps (`computeSlopeMap`)

  /** `slopeVec.computeLength() * 0.5`. */
  function SlopeStrength(slope: Vec2, math: MathLib): real {
    math.length2(slope) * 0.5
  }

  /** The pixel of an interior vertex: its normalised slope direction and half
      the slope's length. */
  function SlopePixel(vs: seq<Vertex>, k: nat, width: nat, math: MathLib): Vec3 {
    var slope := SlopeVector(vs, k, width);
    var direction := math.normalize2(slope);
    Vec3(direction.x, direction.y, SlopeStrength(slope, math))
  }

  /** Data of the three-channel float slope map: interior pixels hold their
      slope pixel, border pixels keep the 0 of the fresh image. */
  function SlopeMapData(vs: seq<Vertex>, width: nat, depth: nat, math: MathLib): (r: seq<real>)
    ensures |r| == width * depth * 3
  {
    seq(width * depth * 3, s requires 0 <= s < width * depth * 3 =>
      if Interior(s / 3, width, depth) then Component(SlopePixel(vs, s / 3, width, math), s % 3) else 0.0)
  }

  /** Data of the older single-channel slope map: interior pixel `j * width + i`
      holds the slope strength, border pixels keep 0. */
  function GraySlopeMapData(vs: seq<Vertex>, width: nat, depth: nat, math: MathLib): (r: seq<real>)
    ensures |r| == width * depth
  {
    seq(width * depth, k requires 0 <= k < width * depth =>
      if Interior(k, width, depth) then SlopeStrength(SlopeVector(vs, k, width), math) else 0.0)
  }

  /** The three slots of interior pixel `k` hold its slope pixel. */
  lemma SlopeSlots(vs: seq<Vertex>, k: nat, width: nat, depth: nat, math: MathLib)
    requires Interior(k, width, depth)
    ensures k * 3 + 3 <= |SlopeMapData(vs, width, depth, math)|
    ensures var data := SlopeMapData(vs, width, depth, math);
            && data[k * 3] == SlopePixel(vs, k, width, math).x
            && data[k * 3 + 1] == SlopePixel(vs, k, width, math).y
            && data[k * 3 + 2] == SlopePixel(vs, k, width, math).z
  {
    InteriorNeighbours(k, width, depth);
    Stride3(k, 0);
    Stride3(k, 1);
    Stride3(k, 2);
  }

  /** Pixel `k` of the slope map is stored at `k * 3 .. k * 3 + 2`. An interior
      pixel is built from the heights of its four axis neighbours `k - 1`,
      `k + 1`, `k - width`, `k + width`; a border pixel is 0 in all channels. */
  lemma SlopeMapPixel(vs: seq<Vertex>, k: nat, width: nat, depth: nat, math: MathLib)
    requires |vs| == width * depth && k < |vs|
    ensures k * 3 + 2 < |SlopeMapData(vs, width, depth, math)|
    ensures Interior(k, width, depth) ==> 1 <= width <= k && k + width < |vs|
    ensures var data := SlopeMapData(vs, width, depth, math);
            if Interior(k, width, depth) then
              var slope := Vec2(vs[k - 1].position.y - vs[k + 1].position.y,
                                vs[k - width].position.y - vs[k + width].position.y);
              && data[k * 3] == math.normalize2(slope).x
              && data[k * 3 + 1] == math.normalize2(slope).y
              && data[k * 3 + 2] == math.length2(slope) * 0.5
            else
              data[k * 3] == 0.0 && data[k * 3 + 1] == 0.0 && data[k * 3 + 2] == 0.0
  {
    Stride3(k, 0);
    Stride3(k, 1);
    Stride3(k, 2);
    if Interior(k, width, depth) {
      InteriorNeighbours(k, width, depth);
    }
  }

  /** Every strength in either slope map is at least 0. */
  lemma SlopeStrengthNonNegative(vs: seq<Vertex>, width: nat, depth: nat, math: MathLib)
    requires Sound(math)
    ensures forall k :: 0 <= k < width * depth ==> SlopeMapData(vs, width, depth, math)[k * 3 + 2] >= 0.0
    ensures forall k :: 0 <= k < width * depth ==> GraySlopeMapData(vs, width, depth, math)[k] >= 0.0
  {
    forall k | 0 <= k < width * depth
      ensures SlopeMapData(vs, width, depth, math)[k * 3 + 2] >= 0.0
    {
      Stride3(k, 2);
    }
  }

  /** The older single-channel map is the strength channel of the newer one. */
  lemma GraySlopeIsStrengthChannel(vs: seq<Vertex>, width: nat, depth: nat, math: MathLib)
    ensures forall k :: 0 <= k < width * depth ==>
              GraySlopeMapData(vs, width, depth, math)[k] == SlopeMapData(vs, width, depth, math)[k * 3 + 2]
  {
    forall k | 0 <= k < width * depth
      ensures GraySlopeMapData(vs, width, depth, math)[k] == SlopeMapData(vs, width, depth, math)[k * 3 + 2]
    {
      Stride3(k, 2);
    }
  }

  /** On flat terrain (every height the same) every slope strength is 0. */
  lemma FlatTerrainHasNoSlope(vs: seq<Vertex>, width: nat, depth: nat, math: MathLib)
    requires |vs| == width * depth && Sound(math)
    requires forall k :: 0 <= k < |vs| ==> vs[k].position.y == vs[0].position.y
    ensures forall k :: 0 <= k < width * depth ==> GraySlopeMapData(vs, width, depth, math)[k] == 0.0
  {
    forall k | 0 <= k < width * depth && Interior(k, width, depth)
      ensures SlopeVector(vs, k, width) == Vec2(0.0, 0.0)
    {
      InteriorNeighbours(k, width, depth);
    }
  }

  /** `computeSlopeMap` of the newer revision: a zeroed `width x depth` RGB
      float image; the rows `1 <= depthIndex < depth - 1` are handed to workers
      by `Threading::parallelize` and are taken here one after the other. */
  method SlopeMapPass(vs: seq<Vertex>, width: nat, depth: nat, math: MathLib) returns (img: Image<real>)
    requires |vs| == width * depth
    ensures img == Image(width, depth, 3, SlopeMapData(vs, width, depth, math))
  {
    var data := new real[width * depth * 3](_ => 0.0);
    ghost var full := SlopeMapData(vs, width, depth, math);
    NothingWritten(full, 0.0);
    assert data[..] == seq(|full|, _ => 0.0);
    if width == 0 || depth == 0 {
      AllWritten(full, 0, 0.0);
      img := Image(width, depth, 3, data[..]);
      return;
    }
    FirstRowBorder(width, depth);
    MulMono(1, depth, width);
    SlopeSkip(vs, 0, width, width, depth, math);
    var depthIndex := 1;
    while depthIndex + 1 < depth
      invariant 1 <= depthIndex
      invariant data[..] == WrittenUpTo(full, depthIndex * width * 3, 0.0)
    {
      SlopeRow(data, vs, depthIndex, width, depth, math);
      assert (depthIndex + 1) * width * 3 == depthIndex * width * 3 + width * 3;
      depthIndex := depthIndex + 1;
    }
    if depthIndex * width < width * depth {
      LastRowsBorder(depthIndex, width, depth);
      SlopeSkip(vs, depthIndex * width, width * depth, width, depth, math);
      AllWritten(full, width * depth * 3, 0.0);
    } else {
      AllWritten(full, depthIndex * width * 3, 0.0);
    }
    img := Image(width, depth, 3, data[..]);
  }

  /** The worker loop over `1 <= widthIndex < width - 1` of row `j`: `setPixel`
      writes the three channels of the pixel. */
  method SlopeRow(data: array<real>, vs: seq<Vertex>, j: nat, width: nat, depth: nat, math: MathLib)
    modifies data
    requires |vs| == width * depth && width > 0 && 1 <= j && j + 1 < depth
    requires data[..] == WrittenUpTo(SlopeMapData(vs, width, depth, math), j * width * 3, 0.0)
    ensures data[..] == WrittenUpTo(SlopeMapData(vs, width, depth, math), j * width * 3 + width * 3, 0.0)
  {
    CellRoundTrip(0, j, width);
    SlopeSkip(vs, j * width, j * width + 1, width, depth, math);
    var widthIndex := 1;
    while widthIndex + 1 < width
      invariant 1 <= widthIndex <= width
      invariant data[..] == WrittenUpTo(SlopeMapData(vs, width, depth, math), (j * width + widthIndex) * 3, 0.0)
    {
      var slopeVec := SlopeAt(vs, widthIndex, j, width, depth);
      var slopeStrength := math.length2(slopeVec) * 0.5;
      var direction := math.normalize2(slopeVec);
      SlopeStep(vs, widthIndex, j, width, depth, math, direction, slopeStrength);
      WritePixel(data, (j * width + widthIndex) * 3, direction.x, direction.y, slopeStrength);
      widthIndex := widthIndex + 1;
    }
    SlopeSkipRowEnd(vs, j, widthIndex, width, depth, math);
  }

  /** No pixel of the first row is interior. */
  lemma FirstRowBorder(width: nat, depth: nat)
    requires width > 0
    ensures forall k | 0 <= k < width :: !Interior(k, width, depth)
  {
  }

  /** Writing the slope pixel of column `i` of row `j` moves the boundary past it. */
  lemma SlopeStep(vs: seq<Vertex>, i: nat, j: nat, width: nat, depth: nat, math: MathLib, direction: Vec2, strength: real)
    requires |vs| == width * depth && 1 <= i && i + 1 < width && 1 <= j && j + 1 < depth
    requires direction == math.normalize2(SlopeVector(vs, j * width + i, width))
    requires strength == math.length2(SlopeVector(vs, j * width + i, width)) * 0.5
    ensures (j * width + i) * 3 + 3 <= width * depth * 3
    ensures WrittenUpTo(SlopeMapData(vs, width, depth, math), (j * width + i) * 3, 0.0)
              [(j * width + i) * 3 := direction.x][(j * width + i) * 3 + 1 := direction.y][(j * width + i) * 3 + 2 := strength]
            == WrittenUpTo(SlopeMapData(vs, width, depth, math), (j * width + i + 1) * 3, 0.0)
  {
    var k := j * width + i;
    StencilIndices(i, j, width, depth);
    SlopeSlots(vs, k, width, depth, math);
    WriteThree(SlopeMapData(vs, width, depth, math), k * 3, 0.0, direction.x, direction.y, strength);
  }

  /** The rest of row `j` after the column loop is border. */
  lemma SlopeSkipRowEnd(vs: seq<Vertex>, j: nat, i: nat, width: nat, depth: nat, math: MathLib)
    requires 1 <= i <= width <= i + 1 && j < depth
    ensures WrittenUpTo(SlopeMapData(vs, width, depth, math), (j * width + i) * 3, 0.0)
            == WrittenUpTo(SlopeMapData(vs, width, depth, math), j * width * 3 + width * 3, 0.0)
  {
    RowEndBorder(j, i, width, depth);
    var rowEnd := j * width + width;
    assert rowEnd * 3 == j * width * 3 + width * 3;
    SlopeSkip(vs, j * width + i, rowEnd, width, depth, math);
  }

  /** The written prefix of the slope map moves freely over a run of border pixels. */
  lemma SlopeSkip(vs: seq<Vertex>, b1: nat, b2: nat, width: nat, depth: nat, math: MathLib)
    requires b1 <= b2 <= width * depth
    requires forall k | b1 <= k < b2 :: !Interior(k, width, depth)
    ensures WrittenUpTo(SlopeMapData(vs, width, depth, math), b1 * 3, 0.0)
            == WrittenUpTo(SlopeMapData(vs, width, depth, math), b2 * 3, 0.0)
  {
    var full := SlopeMapData(vs, width, depth, math);
    forall s | b1 * 3 <= s < b2 * 3 && s < |full|
      ensures full[s] == 0.0
    {
      var k := s / 3;
      assert k * 3 <= s < k * 3 + 3;
      assert b1 <= k < b2;
      assert !Interior(k, width, depth);
    }
    SkipBlank(full, b1 * 3, b2 * 3, 0.0);
  }

  /** `computeSlopeMap` of the older revision: a zeroed single-channel float
      image, with nested row and column loops over the interior. */
  method GraySlopeMapPass(vs: seq<Vertex>, width: nat, depth: nat, math: MathLib) returns (img: Image<real>)
    requires |vs| == width * depth
    ensures img == Image(width, depth, 1, GraySlopeMapData(vs, width, depth, math))
  {
    var imgData := new real[width * depth](_ => 0.0);
    ghost var full := GraySlopeMapData(vs, width, depth, math);
    NothingWritten(full, 0.0);
    assert imgData[..] == seq(|full|, _ => 0.0);
    if width == 0 {
      AllWritten(full, 0, 0.0);
      img := Image(width, depth, 1, imgData[..]);
      return;
    }
    FirstRowBorder(width, depth);
    SkipBlank(full, 0, width, 0.0);
    var j := 1;
    while j + 1 < depth
      invariant 1 <= j
      invariant imgData[..] == WrittenUpTo(full, j * width, 0.0)
    {
      GraySlopeRow(imgData, vs, j, width, depth, math);
      assert (j + 1) * width == j * width + width;
      j := j + 1;
    }
    if j * width < width * depth {
      LastRowsBorder(j, width, depth);
      SkipBlank(full, j * width, width * depth, 0.0);
    }
    AllWritten(full, if j * width < width * depth then width * depth else j * width, 0.0);
    img := Image(width, depth, 1, imgData[..]);
  }

  /** The column loop of the older `computeSlopeMap` over row `j`. */
  method GraySlopeRow(imgData: array<real>, vs: seq<Vertex>, j: nat, width: nat, depth: nat, math: MathLib)
    modifies imgData
    requires |vs| == width * depth && width > 0 && 1 <= j && j + 1 < depth
    requires imgData[..] == WrittenUpTo(GraySlopeMapData(vs, width, depth, math), j * width, 0.0)
    ensures imgData[..] == WrittenUpTo(GraySlopeMapData(vs, width, depth, math), j * width + width, 0.0)
  {
    ghost var full := GraySlopeMapData(vs, width, depth, math);
    var depthStride := j * width;
    CellRoundTrip(0, j, width);
    SkipBlank(full, depthStride, depthStride + 1, 0.0);
    var i := 1;
    while i + 1 < width
      invariant 1 <= i <= width
      invariant imgData[..] == WrittenUpTo(full, depthStride + i, 0.0)
    {
      var slope := SlopeAt(vs, i, j, width, depth);
      var length := math.length2(slope);
      StencilIndices(i, j, width, depth);
      WriteNext(full, depthStride + i, 0.0, length * 0.5);
      imgData[depthStride + i] := length * 0.5;
      i := i + 1;
    }
    RowEndBorder(j, i, width, depth);
    SkipBlank(full, depthStride + i, depthStride + width, 0.0);
  }
}
