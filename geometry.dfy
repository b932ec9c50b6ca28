/**
 * Vector maths of the tracer (src/math.h, src/ray.h), idealised over the reals.
 * glm's float vectors become triples of reals; the transcendental helpers the
 * source calls (sqrt, normalize, pow and the foreign hemisphere sampler) are
 * carried as arbitrary total functions in a `Maths` value, so nothing proved
 * here depends on how they round.
 */
module Geometry {

  datatype Vec3 = Vec3(x: real, y: real, z: real)

  function Zero(): Vec3 { Vec3(0.0, 0.0, 0.0) }

  function Add(a: Vec3, b: Vec3): Vec3 { Vec3(a.x + b.x, a.y + b.y, a.z + b.z) }

  function Sub(a: Vec3, b: Vec3): Vec3 { Vec3(a.x - b.x, a.y - b.y, a.z - b.z) }

  function Neg(a: Vec3): Vec3 { Vec3(-a.x, -a.y, -a.z) }

  /** Vector times scalar. */
  function Scale(a: Vec3, k: real): Vec3 { Vec3(a.x * k, a.y * k, a.z * k) }

  /** Vector divided by a non-zero scalar. */
  function Div(a: Vec3, k: real): Vec3
    requires k != 0.0
  {
    Vec3(a.x / k, a.y / k, a.z / k)
  }

  /** glm's component-wise product of two vectors. */
  function Mul(a: Vec3, b: Vec3): Vec3 { Vec3(a.x * b.x, a.y * b.y, a.z * b.z) }

  function Dot(a: Vec3, b: Vec3): real { a.x * b.x + a.y * b.y + a.z * b.z }

  function Max(a: real, b: real): real { if a < b then b else a }

  /** glm::clamp(x, lo, hi) == min(max(x, lo), hi). */
  function Clamp(r: real, lo: real, hi: real): (c: real)
    requires lo <= hi
    ensures lo <= c <= hi
    ensures lo <= r <= hi ==> c == r
  {
    if r < lo then lo else if hi < r then hi else r
  }

  predicate InUnit(v: Vec3) {
    0.0 <= v.x <= 1.0 && 0.0 <= v.y <= 1.0 && 0.0 <= v.z <= 1.0
  }

  /** Per-channel clamp to [0,1]: the result is always a valid colour, and a valid colour is kept. */
  function Clamp01(v: Vec3): (c: Vec3)
    ensures InUnit(c)
    ensures InUnit(v) ==> c == v
  {
    Vec3(Clamp(v.x, 0.0, 1.0), Clamp(v.y, 0.0, 1.0), Clamp(v.z, 0.0, 1.0))
  }

  datatype Ray = Ray(origin: Vec3, direction: Vec3)

  /** The point at parameter `t` along the ray (ray_at). */
  function RayAt(ray: Ray, t: real): Vec3 { Add(ray.origin, Scale(ray.direction, t)) }

  const EPSILON: real := 0.0001
  const PI: real := 3.1415926535897932385

  /** A ray whose origin is pushed EPSILON along its own direction (secondary_ray). */
  function SecondaryRay(origin: Vec3, direction: Vec3): Ray {
    Ray(Add(origin, Scale(direction, EPSILON)), direction)
  }

  /**
   * The numeric helpers the tracer calls but whose values are not modelled:
   * glm::sqrt, glm::normalize, glm::pow, and the foreign composition
   * align_nbt(uniform_sample_hemisphere(a, b), n, create_tangent(n)).
   */
  datatype Maths = Maths(
    sqrt: real -> real,
    normalize: Vec3 -> Vec3,
    pow: (real, real) -> real,
    hemisphere: (real, real, Vec3) -> Vec3)

  /**
   * The process-wide generator behind rand_float: one stream of draws, consumed
   * in call order. The source's distribution is a function-static object fixed
   * by the bounds of the very first call, so every call draws from the same
   * range whatever bounds it passes; the model therefore takes no bounds.
   */
  class Random {
    const stream: nat -> real
    var drawn: nat

    constructor (stream: nat -> real)
      ensures this.stream == stream && drawn == 0
    {
      this.stream := stream;
      drawn := 0;
    }

    method RandFloat() returns (r: real)
      modifies this
      ensures r == stream(old(drawn)) && drawn == old(drawn) + 1
    {
      r := stream(drawn);
      drawn := drawn + 1;
    }
  }

  lemma DotNeg(a: Vec3, b: Vec3)
    ensures Dot(a, Neg(b)) == -Dot(a, b)
  {
  }
}
