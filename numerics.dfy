/** Value types shared by every terrain variant, and the engine's floating-point
    primitives (noise, power, normalisation, length, colour interpolation).

    Floats are modelled as `real`. The primitives belong to the rendering engine
    and the C++ standard library; they are passed in as function values, and the
    predicate `Sound` lists the only facts about them the model relies on. */
module Numerics {

  /** An 8-bit image channel (`uint8_t`). */
  type byte = b: int | 0 <= b < 256

  datatype Vec2 = Vec2(x: real, y: real)

  datatype Vec3 = Vec3(x: real, y: real, z: real)

  /** An RGB colour with 8-bit channels (`Raz::Vec3b`). */
  datatype Color = Color(r: byte, g: byte, b: byte)

  const Zero3: Vec3 := Vec3(0.0, 0.0, 0.0)
  const AxisX: Vec3 := Vec3(1.0, 0.0, 0.0)
  const AxisY: Vec3 := Vec3(0.0, 1.0, 0.0)

  /** `std::numeric_limits<float>::epsilon()`, that is 2^-23. */
  const Epsilon: real := 0.00000011920928955078125

  /** Channel `c` (0, 1 or 2) of a vector. */
  function Component(v: Vec3, c: nat): real
    requires c < 3
  {
    if c == 0 then v.x else if c == 1 then v.y else v.z
  }

  /** Channel `c` (0, 1 or 2) of a colour. */
  function Channel(col: Color, c: nat): byte
    requires c < 3
  {
    if c == 0 then col.r else if c == 1 then col.g else col.b
  }

  /** The engine's numeric primitives.
      - noise(x, y): `PerlinNoise::compute2D(x, y, 8, true)` (`get2D` in the older revision)
      - pow(b, e): `std::pow`
      - normalize3, normalize2: `Vec3f::normalize`, `Vec2f::normalize`
      - length2: `Vec2f::computeLength`
      - lerp(a, b, t): `MathUtils::lerp` on byte colours */
  datatype MathLib = MathLib(
    noise: (real, real) -> real,
    pow: (real, real) -> real,
    normalize3: Vec3 -> Vec3,
    normalize2: Vec2 -> Vec2,
    length2: Vec2 -> real,
    lerp: (Color, Color, real) -> Color)

  /** `a` and `b` are both positive, both zero or both negative. */
  predicate SameSign(a: real, b: real) {
    (a > 0.0 <==> b > 0.0) && (a < 0.0 <==> b < 0.0)
  }

  /** Every component lies in [-1, 1], as for a normalised vector. */
  predicate UnitBounded(v: Vec3) {
    -1.0 <= v.x <= 1.0 && -1.0 <= v.y <= 1.0 && -1.0 <= v.z <= 1.0
  }

  /** The facts about the primitives that the model uses, and nothing more:
      normalised noise lies in [0, 1]; a power of a base in [0, 1] with a
      positive exponent stays in [0, 1], and 0 to a positive power is 0;
      normalising keeps the sign of every component and bounds it by 1; a length
      is never negative, and the zero vector has length 0; interpolating with factor 0 yields the first colour. */
  ghost predicate Sound(m: MathLib) {
    && (forall x, y :: 0.0 <= m.noise(x, y) <= 1.0)
    && (forall b, e :: 0.0 <= b <= 1.0 && e > 0.0 ==> 0.0 <= m.pow(b, e) <= 1.0)
    && (forall e :: e > 0.0 ==> m.pow(0.0, e) == 0.0)
    && (forall v: Vec3 :: SameSign(v.x, m.normalize3(v).x) && SameSign(v.y, m.normalize3(v).y)
                    && SameSign(v.z, m.normalize3(v).z) && UnitBounded(m.normalize3(v)))
    && (forall v: Vec2 :: m.length2(v) >= 0.0)
    && m.length2(Vec2(0.0, 0.0)) == 0.0
    && (forall a, b :: m.lerp(a, b, 0.0) == a)
  }

  /** `static_cast` of a float to an integer: truncation toward zero. */
  function Truncate(x: real): (r: int)
    ensures x >= 0.0 ==> 0 <= r && r as real <= x < r as real + 1.0
    ensures x < 0.0 ==> r <= 0 && r as real - 1.0 < x <= r as real
  {
    if x >= 0.0 then x.Floor else -((-x).Floor)
  }
}
