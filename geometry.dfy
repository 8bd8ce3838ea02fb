/** The optional value the engine expresses with null references and default structs. */
module Optional {
  datatype Option<T> = None | Some(value: T)
}

/**
  Three-component vectors over exact reals, standing in for the engine's
  single-precision Vector3. Only the operations the scripts use are here.
 */
module Geometry {

  datatype Vec3 = Vec3(x: real, y: real, z: real)

  const Zero := Vec3(0.0, 0.0, 0.0)
  const Up := Vec3(0.0, 1.0, 0.0)
  const Down := Vec3(0.0, -1.0, 0.0)

  function Add(a: Vec3, b: Vec3): Vec3 {
    Vec3(a.x + b.x, a.y + b.y, a.z + b.z)
  }

  function Sub(a: Vec3, b: Vec3): Vec3 {
    Vec3(a.x - b.x, a.y - b.y, a.z - b.z)
  }

  function Scale(v: Vec3, k: real): Vec3 {
    Vec3(v.x * k, v.y * k, v.z * k)
  }

  function Dot(a: Vec3, b: Vec3): real {
    a.x * b.x + a.y * b.y + a.z * b.z
  }

  /** The square of Vector3.Distance(a, b). */
  function SqDistance(a: Vec3, b: Vec3): (d: real)
    ensures d >= 0.0
  {
    var v := Sub(a, b);
    SquareSign(v.x);
    SquareSign(v.y);
    SquareSign(v.z);
    Dot(v, v)
  }

  lemma SquareSign(t: real)
    ensures t * t >= 0.0
    ensures t != 0.0 ==> t * t > 0.0
  {
    if t > 0.0 {
      ProductSign(t, t);
    } else if t < 0.0 {
      ProductSign(-t, -t);
    }
  }

  lemma ProductSign(p: real, q: real)
    requires p > 0.0 && q > 0.0
    ensures p * q > 0.0
  {
  }

  /**
    `Vector3.Distance(a, b) > r`, written without the square root: a distance
    is never negative, so it exceeds a negative bound always and a
    non-negative bound exactly when its square exceeds the bound's square.
   */
  predicate FartherThan(a: Vec3, b: Vec3, r: real) {
    r < 0.0 || SqDistance(a, b) > r * r
  }

  /** FartherThan agrees with the comparison of the true (square-rooted) distance. */
  lemma FartherThanIsDistance(a: Vec3, b: Vec3, r: real, dist: real)
    requires dist >= 0.0 && dist * dist == SqDistance(a, b)
    ensures FartherThan(a, b, r) <==> dist > r
  {
    if r >= 0.0 {
      if dist > r {
        assert dist * dist - r * r == (dist - r) * (dist + r);
        ProductSign(dist - r, dist + r);
      } else {
        assert r * r - dist * dist == (r - dist) * (r + dist);
        if dist < r {
          ProductSign(r - dist, r + dist);
        }
      }
    }
  }
}
