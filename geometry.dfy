/**
 * Vector arithmetic over the reals, standing in for the glm single-precision
 * vectors of the game code. Square roots are supplied by the caller as a
 * function `root` that satisfies `IsSquareRoot`; a normalisation that would
 * divide by a zero length yields `None`, the stand-in for a NaN vector.
 */
module Geometry {
  import opened Wrappers

  datatype Vec2 = Vec2(x: real, y: real)
  datatype Vec3 = Vec3(x: real, y: real, z: real)

  /** A rotation quaternion; only copied around by the modelled code. */
  datatype Quat = Quat(w: real, x: real, y: real, z: real)

  const Zero3 := Vec3(0.0, 0.0, 0.0)
  const One3 := Vec3(1.0, 1.0, 1.0)
  const UnitX := Vec3(1.0, 0.0, 0.0)
  const IdentityQuat := Quat(1.0, 0.0, 0.0, 0.0)

  /** The value of pi written into the game code. */
  const Pi: real := 3.1415926

  function Add(a: Vec3, b: Vec3): Vec3 { Vec3(a.x + b.x, a.y + b.y, a.z + b.z) }
  function Sub(a: Vec3, b: Vec3): Vec3 { Vec3(a.x - b.x, a.y - b.y, a.z - b.z) }
  function Scale(a: Vec3, k: real): Vec3 { Vec3(k * a.x, k * a.y, k * a.z) }
  function Dot(a: Vec3, b: Vec3): real { a.x * b.x + a.y * b.y + a.z * b.z }

  /** Squared distance between two points. */
  function SqDist(a: Vec3, b: Vec3): real { Dot(Sub(a, b), Sub(a, b)) }

  /** glm::mix: `x * (1 - a) + y * a`. */
  function Mix(x: Vec3, y: Vec3, a: real): Vec3 { Add(Scale(x, 1.0 - a), Scale(y, a)) }

  function Min(a: real, b: real): real { if b < a then b else a }
  function Max(a: real, b: real): real { if a < b then b else a }

  /** Component-wise glm::min and glm::max. */
  function Min3(a: Vec3, b: Vec3): Vec3 { Vec3(Min(a.x, b.x), Min(a.y, b.y), Min(a.z, b.z)) }
  function Max3(a: Vec3, b: Vec3): Vec3 { Vec3(Max(a.x, b.x), Max(a.y, b.y), Max(a.z, b.z)) }

  /** `max(lo, min(hi, p))` component-wise: the point of a box closest to `p`. */
  function ClampBox(p: Vec3, lo: Vec3, hi: Vec3): (r: Vec3)
    ensures lo.x <= hi.x ==> lo.x <= r.x <= hi.x
    ensures lo.y <= hi.y ==> lo.y <= r.y <= hi.y
    ensures lo.z <= hi.z ==> lo.z <= r.z <= hi.z
    ensures (lo.x <= p.x <= hi.x && lo.y <= p.y <= hi.y && lo.z <= p.z <= hi.z) ==> r == p
  {
    Max3(lo, Min3(hi, p))
  }

  /** A square-root function on the non-negative reals. */
  ghost predicate IsSquareRoot(root: real -> real) {
    forall x: real :: RootAt(root, x)
  }

  /** `root(x)` is the non-negative square root of `x`, if `x` has one. */
  ghost predicate RootAt(root: real -> real, x: real) {
    0.0 <= x ==> 0.0 <= root(x) && root(x) * root(x) == x
  }

  /** The square root is the only non-negative number whose square is `x`. */
  lemma RootIs(root: real -> real, x: real, y: real)
    requires IsSquareRoot(root) && 0.0 <= y && y * y == x
    ensures root(x) == y
  {
    assert RootAt(root, x);
    SquareNonNegative(y);
    if root(x) < y {
      SquareLess(root(x), y);
    } else if y < root(x) {
      SquareLess(y, root(x));
    }
  }

  lemma SquareNonNegative(a: real)
    ensures 0.0 <= a * a
  {
    if a < 0.0 {
      assert a * a == (-a) * (-a);
    }
  }

  lemma ProductPositive(p: real, q: real)
    requires 0.0 < p && 0.0 < q
    ensures 0.0 < p * q
  {
  }

  lemma ProductNonNegative(p: real, q: real)
    requires 0.0 <= p && 0.0 <= q
    ensures 0.0 <= p * q
  {
    if 0.0 < p && 0.0 < q {
      ProductPositive(p, q);
    }
  }

  /** Squaring is strictly increasing on the non-negative reals. */
  lemma SquareLess(x: real, y: real)
    requires 0.0 <= x < y
    ensures x * x < y * y
  {
    ProductPositive(y - x, y + x);
    assert (y - x) * (y + x) == y * y - x * x;
  }

  lemma DivSign(p: real, q: real)
    requires 0.0 < q
    ensures 0.0 < p ==> 0.0 < p / q
    ensures p <= 0.0 ==> p / q <= 0.0
  {
  }

  lemma DivBack(s: real, q: real)
    requires q != 0.0
    ensures (s / q) * q == s
  {
  }

  /** A product with a non-zero factor vanishes only if the other factor does. */
  lemma CancelFactor(x: real, q: real)
    requires x != 0.0 && x * q == 0.0
    ensures q == 0.0
  {
    calc {
      q;
      (x * q) / x;
      0.0 / x;
    }
  }

  lemma ZeroSquare(a: real)
    requires a == 0.0
    ensures a * a == 0.0
  {
  }

  lemma DotSelfNonNegative(v: Vec3)
    ensures 0.0 <= Dot(v, v)
  {
    SquareNonNegative(v.x);
    SquareNonNegative(v.y);
    SquareNonNegative(v.z);
  }

  lemma SquarePositive(a: real)
    requires a != 0.0
    ensures 0.0 < a * a
  {
    if 0.0 < a {
      ProductPositive(a, a);
    } else {
      ProductPositive(-a, -a);
      assert a * a == (-a) * (-a);
    }
  }

  /** A sum of three squares vanishes only if every term does. */
  lemma SquaresSumPositive(x: real, y: real, z: real)
    requires x != 0.0 || y != 0.0 || z != 0.0
    ensures 0.0 < x * x + y * y + z * z
  {
    SquareNonNegative(x);
    SquareNonNegative(y);
    SquareNonNegative(z);
    if x != 0.0 {
      SquarePositive(x);
    } else if y != 0.0 {
      SquarePositive(y);
    } else {
      SquarePositive(z);
    }
  }

  /** Only the zero vector has a zero dot product with itself. */
  lemma DotSelfPositive(v: Vec3)
    requires v != Zero3
    ensures 0.0 < Dot(v, v)
  {
    calc {
      Dot(v, v);
      == v.x * v.x + v.y * v.y + v.z * v.z;
      > { SquaresSumPositive(v.x, v.y, v.z); }
      0.0;
    }
  }

  /** glm::length. */
  function Length(v: Vec3, root: real -> real): (r: real)
    requires IsSquareRoot(root)
    ensures 0.0 <= r && r * r == Dot(v, v)
    ensures r == 0.0 ==> Dot(v, v) == 0.0
  {
    DotSelfNonNegative(v);
    assert RootAt(root, Dot(v, v));
    var r := root(Dot(v, v));
    assert r == 0.0 ==> r * r == 0.0 by {
      if r == 0.0 { ZeroSquare(r); }
    }
    r
  }

  lemma ScaleDot(v: Vec3, w: Vec3, k: real)
    ensures Dot(Scale(v, k), w) == k * Dot(v, w)
  {
  }

  /** Scaling a vector by the inverse of its length gives a unit vector. */
  lemma UnitAfterDivide(v: Vec3, len: real)
    requires 0.0 < len && len * len == Dot(v, v)
    ensures Dot(Scale(v, 1.0 / len), Scale(v, 1.0 / len)) == 1.0
    ensures Dot(Scale(v, 1.0 / len), v) == len
  {
    var k := 1.0 / len;
    ScaleDot(v, Scale(v, k), k);
    ScaleDot(v, v, k);
    assert Dot(v, Scale(v, k)) == k * Dot(v, v);
    assert k * len == 1.0;
    calc {
      Dot(Scale(v, k), Scale(v, k));
      k * (k * Dot(v, v));
      k * (k * (len * len));
      (k * len) * (k * len);
      1.0;
    }
  }

  /**
   * What glm::normalize yields for `v`: nothing for a vector of length zero
   * (NaN components in the float code), and otherwise the unit vector `u`
   * with v = |v|·u, where |v| = u·v is positive.
   */
  ghost predicate NormalizesAt(normalize: Vec3 -> Option<Vec3>, v: Vec3) {
    match normalize(v)
    case None => Dot(v, v) == 0.0
    case Some(u) => Dot(v, v) != 0.0 && Dot(u, u) == 1.0 && 0.0 < Dot(u, v) && Scale(u, Dot(u, v)) == v
  }

  /** `normalize` behaves as glm::normalize on every vector. */
  ghost predicate IsNormalize(normalize: Vec3 -> Option<Vec3>) {
    forall v :: NormalizesAt(normalize, v)
  }

  /** glm::normalize: `v` divided by its length, nothing for a zero vector. */
  function Normalize(v: Vec3, root: real -> real): (r: Option<Vec3>)
    requires IsSquareRoot(root)
    ensures r.None? <==> Dot(v, v) == 0.0
    ensures r.Some? ==> Dot(r.value, r.value) == 1.0 && 0.0 < Dot(r.value, v)
    ensures r.Some? ==> Scale(r.value, Dot(r.value, v)) == v
  {
    if Dot(v, v) == 0.0 then None
    else
      var len := Length(v, root);
      UnitAfterDivide(v, len);
      assert Scale(Scale(v, 1.0 / len), len) == v by {
        assert 1.0 / len * len == 1.0;
      }
      Some(Scale(v, 1.0 / len))
  }

  /** Division by the length is a normalisation in the sense of `IsNormalize`. */
  lemma NormalizeByLength(root: real -> real)
    requires IsSquareRoot(root)
    ensures IsNormalize(v => Normalize(v, root))
  {
    var normalize := w => Normalize(w, root);
    forall v
      ensures NormalizesAt(normalize, v)
    {
    }
  }

  /** careful_normalize: the normalisation of `v`, or +x where that has no value. */
  function CarefulNormalize(v: Vec3, normalize: Vec3 -> Option<Vec3>): (r: Vec3)
    requires IsNormalize(normalize)
    ensures Dot(r, r) == 1.0
    ensures Dot(v, v) == 0.0 ==> r == UnitX
    ensures Dot(v, v) != 0.0 ==> 0.0 < Dot(r, v) && Scale(r, Dot(r, v)) == v
  {
    assert NormalizesAt(normalize, v);
    match normalize(v)
    case None => UnitX
    case Some(u) => u
  }

  /** A non-zero vector and its careful normalisation point the same way. */
  lemma CarefulNormalizeFaces(v: Vec3, normalize: Vec3 -> Option<Vec3>)
    requires IsNormalize(normalize) && v != Zero3
    ensures 0.0 < Dot(CarefulNormalize(v, normalize), v)
    ensures Scale(CarefulNormalize(v, normalize), Dot(CarefulNormalize(v, normalize), v)) == v
  {
    DotSelfPositive(v);
  }

  /** std::round: nearest integer, halves rounded away from zero. */
  function Round(x: real): (r: int)
    ensures x - 0.5 <= r as real <= x + 0.5
  {
    if x >= 0.0 then (x + 0.5).Floor else -((-x + 0.5).Floor)
  }

  /** std::floor. */
  function Floor(x: real): (r: int)
    ensures r as real <= x < r as real + 1.0
  {
    x.Floor
  }
}
