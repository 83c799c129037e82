/**
 * Vectors, rigid-body snapshots and the numeric primitives the simulation borrows from
 * `Math`. Square roots and trigonometry are not computable on Dafny's exact reals, so
 * they enter every operation as function-valued parameters; `IsSqrt` is all the model
 * assumes of the square root.
 */
module Geometry {

  datatype Vec3 = Vec3(x: real, y: real, z: real)

  const Origin := Vec3(0.0, 0.0, 0.0)

  /** The part of a physics body the simulation reads and writes directly. */
  datatype Body = Body(position: Vec3, velocity: Vec3, mass: real)

  /** `dx * dx + dz * dz`: squared distance in the ground plane. */
  function HorizDistSq(a: Vec3, b: Vec3): (r: real)
    ensures r >= 0.0
  {
    (a.x - b.x) * (a.x - b.x) + (a.z - b.z) * (a.z - b.z)
  }

  /** `dx * dx + dy * dy + dz * dz`. */
  function DistSq(a: Vec3, b: Vec3): (r: real)
    ensures r >= HorizDistSq(a, b)
  {
    (a.x - b.x) * (a.x - b.x) + (a.y - b.y) * (a.y - b.y) + (a.z - b.z) * (a.z - b.z)
  }

  function HorizSpeedSq(v: Vec3): (r: real)
    ensures r >= 0.0
  {
    v.x * v.x + v.z * v.z
  }

  function SpeedSq(v: Vec3): (r: real)
    ensures r >= HorizSpeedSq(v)
  {
    v.x * v.x + v.y * v.y + v.z * v.z
  }

  /** What the model assumes of `Math.sqrt`: a non-negative number whose square is the input. */
  ghost predicate IsSqrt(sqrt: real -> real)
  {
    forall x :: 0.0 <= x ==> 0.0 <= sqrt(x) && sqrt(x) * sqrt(x) == x
  }

  /** `Math.PI` as a double. */
  const Pi: real := 3.141592653589793

  /** The `Math` functions the simulation calls, injected. */
  datatype MathLib = MathLib(sqrt: real -> real, cos: real -> real, sin: real -> real)

  ghost predicate ValidMath(m: MathLib)
  {
    && IsSqrt(m.sqrt)
    && (forall a :: -1.0 <= m.cos(a) <= 1.0)
    && (forall a :: -1.0 <= m.sin(a) <= 1.0)
  }

  /** The Euclidean length `sqrt(x² + y² + z²)` (`Vec3.length()`, `distanceTo`). */
  function Length(v: Vec3, sqrt: real -> real): (r: real)
    requires IsSqrt(sqrt)
    ensures r >= 0.0 && r * r == SpeedSq(v)
  {
    sqrt(SpeedSq(v))
  }

  /** The distance between two points. */
  function Dist(a: Vec3, b: Vec3, sqrt: real -> real): (r: real)
    requires IsSqrt(sqrt)
    ensures r >= 0.0 && r * r == DistSq(a, b)
  {
    sqrt(DistSq(a, b))
  }

  lemma SqrtBelow(sqrt: real -> real, x: real, r: real)
    requires IsSqrt(sqrt) && 0.0 <= x && 0.0 <= r
    ensures sqrt(x) < r <==> x < r * r
  {
    var s := sqrt(x);
    assert s * s == x && s >= 0.0;
    if s < r {
      MulStrict(s, r);
    } else {
      MulMono(r, s);
    }
  }

  /**
   * `v` is the offset `(dx, dy, dz)` of length `len` rescaled to length `s`: componentwise
   * `v * len == s * offset`, so for `len > 0` and `s > 0` it points the same way as the offset.
   */
  predicate Along(v: Vec3, dx: real, dy: real, dz: real, len: real, s: real)
  {
    v.x * len == s * dx && v.y * len == s * dy && v.z * len == s * dz
  }

  /** Multiplying each component by `s / len` rescales the offset along itself. */
  lemma ScaledAlong(dx: real, dy: real, dz: real, len: real, s: real)
    requires len != 0.0
    ensures Along(Vec3(dx * (s / len), dy * (s / len), dz * (s / len)), dx, dy, dz, len, s)
  {
    var k := s / len;
    assert k * len == s;
    assert dx * k * len == dx * (k * len);
    assert dy * k * len == dy * (k * len);
    assert dz * k * len == dz * (k * len);
  }

  /** The offset `(dx, dy, dz)` of length `len` rescaled to length `s`, by `s / len` per component. */
  function Rescale(dx: real, dy: real, dz: real, len: real, s: real): (r: Vec3)
    requires len > 0.0 && len * len == dx * dx + dy * dy + dz * dz
    ensures SpeedSq(r) == s * s && Along(r, dx, dy, dz, len, s)
  {
    ScaledSquare(dx, dy, dz, len, s);
    ScaledAlong(dx, dy, dz, len, s);
    Vec3(dx * (s / len), dy * (s / len), dz * (s / len))
  }

  /**
   * The speed cap of `updateEnemies` and `moveToward`: when the horizontal speed exceeds
   * `cap`, x and z are scaled by `cap / hSpeed`; y is never touched.
   */
  function CapHorizontalSpeed(v: Vec3, cap: real, sqrt: real -> real): (r: Vec3)
    requires IsSqrt(sqrt) && cap >= 0.0
    ensures r.y == v.y
    ensures HorizSpeedSq(r) <= cap * cap
    ensures HorizSpeedSq(v) <= cap * cap ==> r == v
    ensures HorizSpeedSq(v) > cap * cap ==> Along(r.(y := 0.0), v.x, 0.0, v.z, sqrt(HorizSpeedSq(v)), cap)
  {
    var h := sqrt(HorizSpeedSq(v));
    if h > cap then
      MulStrict(cap, h);
      var w := Rescale(v.x, 0.0, v.z, h, cap);
      Vec3(w.x, v.y, w.z)
    else
      MulMono(h, cap);
      v
  }

  /** The three-dimensional cap of `updateArcaneHoming`. */
  function CapSpeed(v: Vec3, cap: real, sqrt: real -> real): (r: Vec3)
    requires IsSqrt(sqrt) && cap >= 0.0
    ensures SpeedSq(r) <= cap * cap
    ensures SpeedSq(v) <= cap * cap ==> r == v
    ensures SpeedSq(v) > cap * cap ==> Along(r, v.x, v.y, v.z, sqrt(SpeedSq(v)), cap)
  {
    var s := sqrt(SpeedSq(v));
    if s > cap then
      MulStrict(cap, s);
      Rescale(v.x, v.y, v.z, s, cap)
    else
      MulMono(s, cap);
      v
  }

  lemma MulStrict(a: real, b: real)
    requires 0.0 <= a < b
    ensures a * a < b * b
  {
    calc {
      a * a;
    <= { MulLeft(a, a, b); }
      a * b;
    < { assert (b - a) * b > 0.0; }
      b * b;
    }
  }

  lemma MulLeft(k: real, a: real, b: real)
    requires 0.0 <= k && a <= b
    ensures k * a <= k * b
  {
    assert k * (b - a) >= 0.0;
  }

  lemma MulMono(a: real, b: real)
    requires 0.0 <= a <= b
    ensures a * a <= b * b
  {
    assert a * a <= a * b;
    assert a * b <= b * b;
  }

  /** Scaling (a, b, c) of length h by cap / h gives squared length cap². */
  lemma ScaledSquare(a: real, b: real, c: real, h: real, cap: real)
    requires h > 0.0 && h * h == a * a + b * b + c * c
    ensures (a * (cap / h)) * (a * (cap / h)) + (b * (cap / h)) * (b * (cap / h))
            + (c * (cap / h)) * (c * (cap / h)) == cap * cap
  {
    var k := cap / h;
    assert k * h == cap;
    calc {
      (a * k) * (a * k) + (b * k) * (b * k) + (c * k) * (c * k);
      == k * k * (a * a + b * b + c * c);
      == k * k * (h * h);
      == (k * h) * (k * h);
      == cap * cap;
    }
  }
}
