/**
 * The swept-collision primitives. Each test reads the time already stored in
 * the caller's `collision_t` (if the caller passed one) and, on a hit, writes
 * time, contact point and push-out direction. Here the optional in/out time is
 * the parameter `limit` and the writes are the returned `Hit`; `None` means the
 * test returned false and wrote nothing.
 */
module Collide {
  import opened Wrappers
  import opened Geometry

  /** What a successful test writes: time fraction, contact point, push-out direction. */
  datatype Hit = Hit(t: real, at: Vec3, out: Vec3)

  /** The quadratic a·t² + b·t + c. */
  function Quadratic(a: real, b: real, c: real, t: real): real { a * t * t + b * t + c }

  /** Its discriminant b² − 4ac. */
  function Discriminant(a: real, b: real, c: real): real { b * b - 4.0 * a * c }

  /**
   * The roots of a·t² + b·t + c for a > 0 and a non-negative discriminant,
   * smaller first, computed with the square root `d` of the discriminant as
   * (−b ∓ d) / 2a.
   */
  function Roots(a: real, b: real, c: real, root: real -> real): (r: (real, real))
    requires IsSquareRoot(root) && 0.0 < a && 0.0 <= Discriminant(a, b, c)
    ensures r.0 <= r.1
    ensures Quadratic(a, b, c, r.0) == 0.0
    ensures r.0 <= 0.0 <= r.1 ==> c <= 0.0
    ensures c < 0.0 ==> r.0 < 0.0 < r.1
    ensures PositiveBefore(a, b, c, r.0)
  {
    assert RootAt(root, Discriminant(a, b, c));
    var d := root(Discriminant(a, b, c));
    assert 0.0 <= d && d * d == b * b - 4.0 * a * c;
    var t0 := (-b - d) / (2.0 * a);
    var t1 := (-b + d) / (2.0 * a);
    assert t0 <= t1 by { RootsOrdered(a, b, d); }
    assert Quadratic(a, b, c, t0) == 0.0 by { LowerRoot(a, b, c, d); }
    assert t0 <= 0.0 <= t1 ==> c <= 0.0 by {
      if t0 <= 0.0 <= t1 { ImmediateRootsStraddle(a, b, c, d); }
    }
    assert c < 0.0 ==> t0 < 0.0 < t1 by {
      if c < 0.0 { NegativeAtZero(a, b, c, d); }
    }
    assert PositiveBefore(a, b, c, t0) by {
      forall s | s < t0
        ensures 0.0 < Quadratic(a, b, c, s)
      {
        BeforeLowerRoot(a, b, c, d, s);
      }
    }
    (t0, t1)
  }

  /** The quadratic a·s² + b·s + c is positive at every time s before `t`. */
  ghost predicate PositiveBefore(a: real, b: real, c: real, t: real) {
    forall s :: s < t ==> 0.0 < Quadratic(a, b, c, s)
  }

  lemma RootsOrdered(a: real, b: real, d: real)
    requires 0.0 < a && 0.0 <= d
    ensures (-b - d) / (2.0 * a) <= (-b + d) / (2.0 * a)
  {
    DivSign(2.0 * d, 2.0 * a);
    assert (-b + d) / (2.0 * a) - (-b - d) / (2.0 * a) == (2.0 * d) / (2.0 * a);
  }

  /**
   * For a > 0 the quadratic factors as a·(t − t0)·(t − t1) over its roots,
   * so it is positive before the first root.
   */
  lemma BeforeLowerRoot(a: real, b: real, c: real, d: real, s: real)
    requires 0.0 < a && 0.0 <= d && d * d == b * b - 4.0 * a * c
    requires s < (-b - d) / (2.0 * a)
    ensures 0.0 < Quadratic(a, b, c, s)
  {
    var t0 := (-b - d) / (2.0 * a);
    var t1 := (-b + d) / (2.0 * a);
    RootsOrdered(a, b, d);
    Factored(a, b, c, d, s);
    var p, q := t0 - s, t1 - s;
    ProductPositive(p, q);
    assert (s - t0) * (s - t1) == p * q by {
      assert s - t0 == -p && s - t1 == -q;
    }
    ProductPositive(a, p * q);
  }

  /** The quadratic in factored form, for a square root `d` of its discriminant. */
  lemma Factored(a: real, b: real, c: real, d: real, s: real)
    requires a != 0.0 && d * d == b * b - 4.0 * a * c
    ensures Quadratic(a, b, c, s) == a * ((s - (-b - d) / (2.0 * a)) * (s - (-b + d) / (2.0 * a)))
  {
    var t0 := (-b - d) / (2.0 * a);
    var t1 := (-b + d) / (2.0 * a);
    DivBack(-b - d, 2.0 * a);
    DivBack(-b + d, 2.0 * a);
    var u := 2.0 * a * s;
    calc {
      4.0 * a * (a * ((s - t0) * (s - t1)));
      (u - t0 * (2.0 * a)) * (u - t1 * (2.0 * a));
      (u + b + d) * (u + b - d);
      (u + b) * (u + b) - d * d;
      u * u + 2.0 * b * u + 4.0 * a * c;
      4.0 * a * Quadratic(a, b, c, s);
    }
    CancelFactor(4.0 * a, a * ((s - t0) * (s - t1)) - Quadratic(a, b, c, s));
  }

  /**
   * The contact reported at time `t` at the point `at`: the careful
   * normalisation of the offset of `at` from the centre is the normal.
   */
  function Contact(t: real, at: Vec3, center: Vec3, normalize: Vec3 -> Option<Vec3>): (h: Hit)
    requires IsNormalize(normalize)
    ensures h.t == t && h.at == at
    ensures Dot(h.out, h.out) == 1.0
    ensures at != center ==> 0.0 < Dot(h.out, Sub(at, center))
    ensures h.out == CarefulNormalize(Sub(at, center), normalize)
  {
    assert at != center ==> 0.0 < Dot(CarefulNormalize(Sub(at, center), normalize), Sub(at, center)) by {
      if at != center {
        assert Sub(at, center) != Zero3;
        CarefulNormalizeFaces(Sub(at, center), normalize);
      }
    }
    Hit(t, at, CarefulNormalize(Sub(at, center), normalize))
  }

  /**
   * The time the ray-versus-sphere test reports for the quadratic
   * a·t² + b·t + c: nothing when there is no root, when a = 0, when the root
   * interval misses [0, 1] or when the first root does not beat `limit`;
   * otherwise the first root, or 0 when the first root is not after the start.
   */
  function SweepTime(a: real, b: real, c: real, limit: Option<real>, root: real -> real): (r: Option<real>)
    requires IsSquareRoot(root) && 0.0 <= a
    ensures Discriminant(a, b, c) < 0.0 || a == 0.0 ==> r.None?
    ensures r.Some? ==> 0.0 <= r.value <= 1.0
    ensures r.Some? && limit.Some? ==> r.value < limit.value || r.value == 0.0
    ensures r.Some? && 0.0 < r.value ==> Quadratic(a, b, c, r.value) == 0.0
    ensures r.Some? && 0.0 < r.value ==> 0.0 < a && 0.0 <= Discriminant(a, b, c) && r.value == Roots(a, b, c, root).0
    ensures r.Some? && 0.0 < r.value ==> PositiveBefore(a, b, c, r.value)
    ensures r.Some? && r.value == 0.0 ==> c <= 0.0
    ensures 0.0 < a && c < 0.0 && (limit.None? || 0.0 < limit.value) ==> r == Some(0.0)
  {
    assert 0.0 < a && c < 0.0 ==> 0.0 <= Discriminant(a, b, c) by {
      if 0.0 < a && c < 0.0 {
        ProductPositive(a, -c);
        SquareNonNegative(b);
      }
    }
    if Discriminant(a, b, c) < 0.0 || a == 0.0 then None
    else
      var (t0, t1) := Roots(a, b, c, root);
      if t1 < 0.0 || t0 > 1.0 then None
      else if limit.Some? && t0 >= limit.value then None
      else if t0 <= 0.0 then Some(0.0)
      else Some(t0)
  }

  /**
   * The common body of the ray-versus-sphere test once its constant term `c`
   * is fixed: the time for a = dir·dir and b = 2·(start−center)·dir, and the
   * contact at that time.
   */
  function SweepSphere(start: Vec3, dir: Vec3, center: Vec3, c: real,
                       limit: Option<real>, root: real -> real, normalize: Vec3 -> Option<Vec3>): (r: Option<Hit>)
    requires IsSquareRoot(root) && IsNormalize(normalize)
    ensures Discriminant(Dot(dir, dir), 2.0 * Dot(Sub(start, center), dir), c) < 0.0 ==> r.None?
    ensures r.Some? ==> 0.0 <= r.value.t <= 1.0
    ensures r.Some? ==> r.value.at == Add(start, Scale(dir, r.value.t))
    ensures r.Some? ==> Dot(r.value.out, r.value.out) == 1.0
    ensures r.Some? && r.value.at != center ==> 0.0 < Dot(r.value.out, Sub(r.value.at, center))
    ensures r.Some? && limit.Some? ==> r.value.t < limit.value || r.value.t == 0.0
    ensures r.Some? && 0.0 < r.value.t ==> SqDist(r.value.at, center) == SqDist(start, center) - c
    ensures r.Some? && 0.0 < r.value.t ==> PositiveBefore(Dot(dir, dir), 2.0 * Dot(Sub(start, center), dir), c, r.value.t)
    ensures r.Some? && 0.0 < r.value.t ==>
      0.0 < Dot(dir, dir) && 0.0 <= Discriminant(Dot(dir, dir), 2.0 * Dot(Sub(start, center), dir), c) &&
      r.value.t == Roots(Dot(dir, dir), 2.0 * Dot(Sub(start, center), dir), c, root).0
    ensures r.Some? && r.value.t == 0.0 ==> r.value.at == start && c <= 0.0
    ensures 0.0 < Dot(dir, dir) && c < 0.0 && (limit.None? || 0.0 < limit.value) ==> r.Some? && r.value.t == 0.0
    ensures r.Some? <==> SweepTime(Dot(dir, dir), 2.0 * Dot(Sub(start, center), dir), c, limit, root).Some?
    ensures r.Some? ==> SweepTime(Dot(dir, dir), 2.0 * Dot(Sub(start, center), dir), c, limit, root).value == r.value.t
    ensures r.Some? ==> r.value == Contact(r.value.t, r.value.at, center, normalize)
  {
    DotSelfNonNegative(dir);
    match SweepTime(Dot(dir, dir), 2.0 * Dot(Sub(start, center), dir), c, limit, root)
    case None => None
    case Some(t) =>
      DistanceAlongRay(start, dir, center, t);
      if t == 0.0 then Some(Contact(0.0, start, center, normalize))
      else Some(Contact(t, Add(start, Scale(dir, t)), center, normalize))
  }

  /** Before time `t` the ray stays farther than √q from the centre. */
  ghost predicate ClearBefore(start: Vec3, dir: Vec3, center: Vec3, q: real, t: real) {
    forall s :: s < t ==> q < SqDist(Add(start, Scale(dir, s)), center)
  }

  /**
   * Where the quadratic with constant term `c` is positive, the point of the
   * ray is farther than √(|start − center|² − c) from the centre.
   */
  lemma ApproachClear(start: Vec3, dir: Vec3, center: Vec3, a: real, b: real, c: real, t: real)
    requires a == Dot(dir, dir) && b == 2.0 * Dot(Sub(start, center), dir)
    requires PositiveBefore(a, b, c, t)
    ensures ClearBefore(start, dir, center, SqDist(start, center) - c, t)
  {
    forall s | s < t
      ensures SqDist(start, center) - c < SqDist(Add(start, Scale(dir, s)), center)
    {
      DistanceAlongRay(start, dir, center, s);
      assert 0.0 < Quadratic(a, b, c, s);
      assert Quadratic(a, b, SqDist(start, center), s) == Quadratic(a, b, c, s) + (SqDist(start, center) - c);
    }
  }

  /** The first root of a·t² + b·t + c, for a square root `d` of the discriminant, is a root. */
  lemma LowerRoot(a: real, b: real, c: real, d: real)
    requires a != 0.0 && d * d == b * b - 4.0 * a * c
    ensures Quadratic(a, b, c, (-b - d) / (2.0 * a)) == 0.0
  {
    var s := -b - d;
    var t := s / (2.0 * a);
    DivBack(s, 2.0 * a);
    calc {
      4.0 * a * Quadratic(a, b, c, t);
      (t * (2.0 * a)) * (t * (2.0 * a)) + 2.0 * b * (t * (2.0 * a)) + 4.0 * a * c;
      s * s + 2.0 * b * s + 4.0 * a * c;
      (s + b) * (s + b) - b * b + 4.0 * a * c;
      d * d - b * b + 4.0 * a * c;
      0.0;
    }
    CancelFactor(4.0 * a, Quadratic(a, b, c, t));
  }

  /**
   * With a > 0, if the two roots lie on either side of 0 then the quadratic is
   * not positive at 0, that is c <= 0.
   */
  lemma ImmediateRootsStraddle(a: real, b: real, c: real, d: real)
    requires 0.0 < a && 0.0 <= d && d * d == b * b - 4.0 * a * c
    requires (-b - d) / (2.0 * a) <= 0.0 && 0.0 <= (-b + d) / (2.0 * a)
    ensures c <= 0.0
  {
    DivSign(-b - d, 2.0 * a);
    DivSign(-b + d, 2.0 * a);
    assert -d <= b <= d;
    var m := if b < 0.0 then -b else b;
    if d < m {
      assert false;
    }
    assert m * m == b * b;
    if m < d {
      SquareLess(m, d);
    }
    if 0.0 < c {
      ProductPositive(a, c);
      assert false;
    }
  }

  /**
   * With a > 0 and c < 0 the first root is negative and the second positive:
   * the quadratic is negative at 0.
   */
  lemma NegativeAtZero(a: real, b: real, c: real, d: real)
    requires 0.0 < a && c < 0.0 && 0.0 <= d && d * d == b * b - 4.0 * a * c
    ensures (-b - d) / (2.0 * a) < 0.0 && 0.0 < (-b + d) / (2.0 * a)
  {
    ProductPositive(a, -c);
    var m := if b < 0.0 then -b else b;
    assert m * m == b * b;
    if d <= m {
      if d < m {
        SquareLess(d, m);
      }
      assert false;
    }
    DivSign(-b - d, 2.0 * a);
    DivSign(b + d, 2.0 * a);
    DivSign(-b + d, 2.0 * a);
    assert (-b - d) / (2.0 * a) == -((b + d) / (2.0 * a));
  }

  /** The squared distance from the centre along the ray is the quadratic with c = |start − center|². */
  lemma DistanceAlongRay(start: Vec3, dir: Vec3, center: Vec3, t: real)
    ensures SqDist(Add(start, Scale(dir, t)), center)
         == Quadratic(Dot(dir, dir), 2.0 * Dot(Sub(start, center), dir), SqDist(start, center), t)
  {
    var w := Sub(start, center);
    assert Sub(Add(start, Scale(dir, t)), center) == Vec3(w.x + t * dir.x, w.y + t * dir.y, w.z + t * dir.z);
    SquareAlong(w.x, dir.x, t);
    SquareAlong(w.y, dir.y, t);
    SquareAlong(w.z, dir.z, t);
    QuadraticSum(dir.x * dir.x, dir.y * dir.y, dir.z * dir.z, 2.0 * (w.x * dir.x), 2.0 * (w.y * dir.y), 2.0 * (w.z * dir.z),
                 w.x * w.x, w.y * w.y, w.z * w.z, t);
  }

  /** One coordinate of DistanceAlongRay: (w + t·d)² as a quadratic in t. */
  lemma SquareAlong(w: real, d: real, t: real)
    ensures (w + t * d) * (w + t * d) == Quadratic(d * d, 2.0 * (w * d), w * w, t)
  {
  }

  /** Quadratics add coefficient-wise. */
  lemma QuadraticSum(a1: real, a2: real, a3: real, b1: real, b2: real, b3: real, c1: real, c2: real, c3: real, t: real)
    ensures Quadratic(a1 + a2 + a3, b1 + b2 + b3, c1 + c2 + c3, t)
         == Quadratic(a1, b1, c1, t) + Quadratic(a2, b2, c2, t) + Quadratic(a3, b3, c3, t)
  {
  }

  /**
   * collide_ray_vs_sphere as written: its constant term is −radius², leaving
   * out |start − center|², so the roots it solves for are those of a sphere
   * of that radius around `start`, not around `center`.
   */
  function RayVsSphereAsWritten(start: Vec3, dir: Vec3, center: Vec3, radius: real,
                                limit: Option<real>, root: real -> real, normalize: Vec3 -> Option<Vec3>): (r: Option<Hit>)
    requires IsSquareRoot(root) && IsNormalize(normalize)
    ensures r.Some? ==> 0.0 <= r.value.t <= 1.0 && r.value.at == Add(start, Scale(dir, r.value.t))
    ensures r.Some? && limit.Some? ==> r.value.t < limit.value || r.value.t == 0.0
  {
    SweepSphere(start, dir, center, -(radius * radius), limit, root, normalize)
  }

  /** As written, the discriminant b² − 4ac is never negative, so the early miss never fires. */
  lemma AsWrittenDiscriminantNonNegative(start: Vec3, dir: Vec3, center: Vec3, radius: real)
    ensures 0.0 <= Discriminant(Dot(dir, dir), 2.0 * Dot(Sub(start, center), dir), -(radius * radius))
  {
    var a := Dot(dir, dir);
    var b := 2.0 * Dot(Sub(start, center), dir);
    var q := radius * radius;
    DotSelfNonNegative(dir);
    SquareNonNegative(b);
    SquareNonNegative(radius);
    ProductNonNegative(a, q);
    assert Discriminant(a, b, -q) == b * b + 4.0 * (a * q);
  }

  /**
   * A ray from the origin along +x for one unit, against the unit sphere at
   * (5,0,0): the ray stays at distance at least 4 from the centre, yet the
   * code as written reports a contact at t = 0 at the origin.
   */
  lemma AsWrittenFalseContact(root: real -> real, normalize: Vec3 -> Option<Vec3>)
    requires IsSquareRoot(root) && IsNormalize(normalize)
    ensures var start := Zero3; var center := Vec3(5.0, 0.0, 0.0);
      (forall t :: 0.0 <= t <= 1.0 ==> 16.0 <= SqDist(Add(start, Scale(UnitX, t)), center))
      && RayVsSphereAsWritten(start, UnitX, center, 1.0, None, root, normalize).Some?
      && RayVsSphereAsWritten(start, UnitX, center, 1.0, None, root, normalize).value.t == 0.0
      && RayVsSphereAsWritten(start, UnitX, center, 1.0, None, root, normalize).value.at == start
  {
    var center := Vec3(5.0, 0.0, 0.0);
    forall t | 0.0 <= t <= 1.0
      ensures 16.0 <= SqDist(Add(Zero3, Scale(UnitX, t)), center)
    {
      assert SqDist(Add(Zero3, Scale(UnitX, t)), center) == (5.0 - t) * (5.0 - t);
      if 5.0 - t < 4.0 {
        assert false;
      } else if 4.0 < 5.0 - t {
        SquareLess(4.0, 5.0 - t);
      }
    }
    assert 0.0 < Dot(UnitX, UnitX) && -(1.0 * 1.0) < 0.0;
  }

  /**
   * collide_ray_vs_sphere with the constant term it evidently intends,
   * |start − center|² − radius². A hit after the start lies on the sphere; a
   * hit at the start means the start already overlapped the sphere.
   */
  function RayVsSphere(start: Vec3, dir: Vec3, center: Vec3, radius: real,
                       limit: Option<real>, root: real -> real, normalize: Vec3 -> Option<Vec3>): (r: Option<Hit>)
    requires IsSquareRoot(root) && IsNormalize(normalize)
    ensures r.Some? ==> 0.0 <= r.value.t <= 1.0 && r.value.at == Add(start, Scale(dir, r.value.t))
    ensures r.Some? ==> Dot(r.value.out, r.value.out) == 1.0
    ensures r.Some? && r.value.at != center ==> 0.0 < Dot(r.value.out, Sub(r.value.at, center))
    ensures r.Some? && limit.Some? ==> r.value.t < limit.value || r.value.t == 0.0
    ensures r.Some? && 0.0 < r.value.t ==> SqDist(r.value.at, center) == radius * radius
    ensures r.Some? && r.value.t == 0.0 ==> r.value.at == start && SqDist(start, center) <= radius * radius
    ensures dir != Zero3 && SqDist(start, center) < radius * radius && (limit.None? || 0.0 < limit.value)
      ==> r.Some? && r.value.t == 0.0
  {
    DotSelfNonNegative(dir);
    assert dir != Zero3 ==> 0.0 < Dot(dir, dir) by {
      if dir != Zero3 { DotSelfPositive(dir); }
    }
    SweepSphere(start, dir, center, SqDist(start, center) - radius * radius, limit, root, normalize)
  }

  /** The normal the ray-versus-sphere test reports is the careful normalisation of the contact's offset from the centre. */
  lemma RayVsSphereNormal(start: Vec3, dir: Vec3, center: Vec3, radius: real,
                          limit: Option<real>, root: real -> real, normalize: Vec3 -> Option<Vec3>)
    requires IsSquareRoot(root) && IsNormalize(normalize)
    ensures var r := RayVsSphere(start, dir, center, radius, limit, root, normalize);
      r.Some? ==> r.value.out == CarefulNormalize(Sub(r.value.at, center), normalize)
  {
    DotSelfNonNegative(dir);
  }

  /** The evidently intended test misses where the code as written reports a false contact. */
  lemma RayVsSphereMissesFarSphere(root: real -> real, normalize: Vec3 -> Option<Vec3>)
    requires IsSquareRoot(root) && IsNormalize(normalize)
    ensures RayVsSphere(Zero3, UnitX, Vec3(5.0, 0.0, 0.0), 1.0, None, root, normalize).None?
  {
    var center := Vec3(5.0, 0.0, 0.0);
    assert Dot(UnitX, UnitX) == 1.0;
    assert 2.0 * Dot(Sub(Zero3, center), UnitX) == -10.0;
    assert SqDist(Zero3, center) - 1.0 * 1.0 == 24.0;
    FarSphereTime(root);
  }

  lemma FarSphereTime(root: real -> real)
    requires IsSquareRoot(root)
    ensures SweepTime(1.0, -10.0, 24.0, None, root).None?
  {
    assert Discriminant(1.0, -10.0, 24.0) == 4.0;
    assert RootAt(root, 4.0);
    var d := root(4.0);
    assert d * d == 4.0;
    if 8.0 <= d {
      SquareLess(2.0, d);
    }
    assert 1.0 < (10.0 - d) / 2.0;
  }

  /**
   * The stored time only filters: a time reported against a stored time is
   * exactly the time reported without one, and a time earlier than the
   * stored time is still reported.
   */
  lemma SweepTimeLimitFilters(a: real, b: real, c: real, limit: real, root: real -> real)
    requires IsSquareRoot(root) && 0.0 <= a
    ensures var bounded := SweepTime(a, b, c, Some(limit), root);
      bounded.Some? ==> bounded == SweepTime(a, b, c, None, root)
    ensures var free := SweepTime(a, b, c, None, root);
      free.Some? && free.value < limit ==> SweepTime(a, b, c, Some(limit), root) == free
  {
  }

  /** A contact reported against a stored time is exactly the contact reported without one. */
  lemma SweepSphereBoundedHitIsFree(start: Vec3, dir: Vec3, center: Vec3, c: real, limit: real,
                                    root: real -> real, normalize: Vec3 -> Option<Vec3>)
    requires IsSquareRoot(root) && IsNormalize(normalize)
    ensures var bounded := SweepSphere(start, dir, center, c, Some(limit), root, normalize);
      bounded.Some? ==> bounded == SweepSphere(start, dir, center, c, None, root, normalize)
  {
    DotSelfNonNegative(dir);
    SweepTimeLimitFilters(Dot(dir, dir), 2.0 * Dot(Sub(start, center), dir), c, limit, root);
    var bounded := SweepSphere(start, dir, center, c, Some(limit), root, normalize);
    var free := SweepSphere(start, dir, center, c, None, root, normalize);
    if bounded.Some? {
      assert free.Some? && free.value.t == bounded.value.t;
      SameTimeSameContact(start, dir, center, c, Some(limit), None, root, normalize);
    }
  }

  /** Two contacts of the same sweep reported at the same time are the same contact. */
  lemma SameTimeSameContact(start: Vec3, dir: Vec3, center: Vec3, c: real, limit1: Option<real>, limit2: Option<real>,
                            root: real -> real, normalize: Vec3 -> Option<Vec3>)
    requires IsSquareRoot(root) && IsNormalize(normalize)
    requires SweepSphere(start, dir, center, c, limit1, root, normalize).Some?
    requires SweepSphere(start, dir, center, c, limit2, root, normalize).Some?
    requires SweepSphere(start, dir, center, c, limit1, root, normalize).value.t
      == SweepSphere(start, dir, center, c, limit2, root, normalize).value.t
    ensures SweepSphere(start, dir, center, c, limit1, root, normalize)
      == SweepSphere(start, dir, center, c, limit2, root, normalize)
  {
    var h1 := SweepSphere(start, dir, center, c, limit1, root, normalize).value;
    var h2 := SweepSphere(start, dir, center, c, limit2, root, normalize).value;
    assert h1.at == h2.at;
  }

  /** A contact earlier than the stored time is still reported, unchanged. */
  lemma SweepSphereEarlierHitKept(start: Vec3, dir: Vec3, center: Vec3, c: real, limit: real,
                                  root: real -> real, normalize: Vec3 -> Option<Vec3>)
    requires IsSquareRoot(root) && IsNormalize(normalize)
    ensures var free := SweepSphere(start, dir, center, c, None, root, normalize);
      free.Some? && free.value.t < limit ==> SweepSphere(start, dir, center, c, Some(limit), root, normalize) == free
  {
    DotSelfNonNegative(dir);
    SweepTimeLimitFilters(Dot(dir, dir), 2.0 * Dot(Sub(start, center), dir), c, limit, root);
    var bounded := SweepSphere(start, dir, center, c, Some(limit), root, normalize);
    var free := SweepSphere(start, dir, center, c, None, root, normalize);
    if free.Some? && free.value.t < limit {
      assert bounded.Some? && bounded.value.t == free.value.t;
      SameTimeSameContact(start, dir, center, c, Some(limit), None, root, normalize);
    }
  }

  /**
   * collide_swept_sphere_vs_point: the ray-versus-sphere test with the ray
   * along the sweep and the sphere around the point.
   */
  function SweptSphereVsPoint(from: Vec3, to: Vec3, radius: real, point: Vec3,
                              limit: Option<real>, root: real -> real, normalize: Vec3 -> Option<Vec3>): (r: Option<Hit>)
    requires IsSquareRoot(root) && IsNormalize(normalize)
    ensures r.Some? ==> 0.0 <= r.value.t <= 1.0 && r.value.at == Add(from, Scale(Sub(to, from), r.value.t))
    ensures r.Some? && limit.Some? ==> r.value.t < limit.value || r.value.t == 0.0
    ensures r.Some? && 0.0 < r.value.t ==> SqDist(r.value.at, point) == radius * radius
    ensures r.Some? && r.value.t == 0.0 ==> r.value.at == from && SqDist(from, point) <= radius * radius
    ensures r.Some? ==> Dot(r.value.out, r.value.out) == 1.0
    ensures Sub(to, from) != Zero3 && SqDist(from, point) < radius * radius && (limit.None? || 0.0 < limit.value)
      ==> r.Some? && r.value.t == 0.0
  {
    RayVsSphere(from, Sub(to, from), point, radius, limit, root, normalize)
  }

  /** The normal the swept-sphere-versus-point test reports is the careful normalisation of the contact's offset from the point. */
  lemma SweptSphereVsPointNormal(from: Vec3, to: Vec3, radius: real, point: Vec3,
                                 limit: Option<real>, root: real -> real, normalize: Vec3 -> Option<Vec3>)
    requires IsSquareRoot(root) && IsNormalize(normalize)
    ensures var r := SweptSphereVsPoint(from, to, radius, point, limit, root, normalize);
      r.Some? ==> r.value.out == CarefulNormalize(Sub(r.value.at, point), normalize)
  {
    RayVsSphereNormal(from, Sub(to, from), point, radius, limit, root, normalize);
  }

  /** The closest point to `p` of the box around `center` with half-extents `halfSize`. */
  function BoxClosest(p: Vec3, center: Vec3, halfSize: Vec3): Vec3 {
    ClampBox(p, Sub(center, halfSize), Add(center, halfSize))
  }

  /**
   * The overlap part of the box test, for the offset `gap` of the sphere's
   * start from the box's closest point: report an immediate contact if the
   * start is closer than `radius` and the sweep moves against the push-out
   * direction. A zero `gap` has no direction (NaN in the float code), so the
   * comparison fails and nothing is reported.
   */
  function PushOut(from: Vec3, to: Vec3, radius: real, gap: Vec3,
                   root: real -> real, normalize: Vec3 -> Option<Vec3>): (r: Option<Hit>)
    requires IsSquareRoot(root) && IsNormalize(normalize)
    ensures r.Some? ==> r.value.t == 0.0 && Dot(r.value.out, r.value.out) == 1.0
    ensures r.Some? ==> r.value.at == Sub(from, Scale(r.value.out, radius))
    ensures r.Some? ==> Dot(Sub(to, from), r.value.out) < 0.0
    ensures r.Some? ==> gap != Zero3 && Dot(gap, gap) < radius * radius && 0.0 < Dot(r.value.out, gap)
    ensures r.Some? ==> Scale(r.value.out, Dot(r.value.out, gap)) == gap
  {
    var d0 := Length(gap, root);
    if d0 < radius then
      assert NormalizesAt(normalize, gap);
      match normalize(gap)
      case None => None
      case Some(o0) =>
        if Dot(Sub(to, from), o0) < 0.0 then
          SquareLess(d0, radius);
          Some(Hit(0.0, Sub(from, Scale(o0, radius)), o0))
        else None
    else None
  }

  /** Conversely, an overlapping start moving against the offset is reported. */
  lemma PushOutReports(from: Vec3, to: Vec3, radius: real, gap: Vec3,
                       root: real -> real, normalize: Vec3 -> Option<Vec3>)
    requires IsSquareRoot(root) && IsNormalize(normalize)
    requires 0.0 < radius && gap != Zero3 && Dot(gap, gap) < radius * radius && Dot(Sub(to, from), gap) < 0.0
    ensures PushOut(from, to, radius, gap, root, normalize).Some?
  {
    var d0 := Length(gap, root);
    if radius <= d0 {
      if radius < d0 {
        SquareLess(radius, d0);
      }
      assert false;
    }
    DotSelfPositive(gap);
    assert NormalizesAt(normalize, gap);
    var u := normalize(gap).value;
    var k := Dot(u, gap);
    ScaleDot(u, Sub(to, from), k);
    assert Dot(Sub(to, from), gap) == Dot(Scale(u, k), Sub(to, from));
    if 0.0 <= Dot(u, Sub(to, from)) {
      ProductNonNegative(k, Dot(u, Sub(to, from)));
      assert false;
    }
    assert Dot(Sub(to, from), u) == Dot(u, Sub(to, from));
  }

  /**
   * collide_swept_sphere_vs_box. It only reports a sphere whose start already
   * overlaps the box and which moves further into it, as an immediate contact
   * pushed out along the direction from the box's closest point to the centre.
   */
  function SweptSphereVsBox(from: Vec3, to: Vec3, radius: real, boxCenter: Vec3, boxRadius: Vec3,
                            limit: Option<real>, root: real -> real, normalize: Vec3 -> Option<Vec3>): (r: Option<Hit>)
    requires IsSquareRoot(root) && IsNormalize(normalize)
    ensures limit.Some? && limit.value <= 0.0 ==> r.None?
    ensures r.Some? ==> r.value.t == 0.0 && Dot(r.value.out, r.value.out) == 1.0
    ensures r.Some? ==> r.value.at == Sub(from, Scale(r.value.out, radius))
    ensures r.Some? ==> Dot(Sub(to, from), r.value.out) < 0.0
    ensures r.Some? ==> var gap := Sub(from, BoxClosest(from, boxCenter, boxRadius));
      gap != Zero3 && Dot(gap, gap) < radius * radius && 0.0 < Dot(r.value.out, gap) &&
      Scale(r.value.out, Dot(r.value.out, gap)) == gap
  {
    var t1 := if limit.Some? then Min(1.0, limit.value) else 1.0;
    if t1 <= 0.0 then None
    else PushOut(from, to, radius, Sub(from, BoxClosest(from, boxCenter, boxRadius)), root, normalize)
  }

  /** Apart from excluding non-positive stored times, the box test does not depend on the stored time. */
  lemma SweptSphereVsBoxLimitFilters(from: Vec3, to: Vec3, radius: real, boxCenter: Vec3, boxRadius: Vec3,
                                     limit: real, root: real -> real, normalize: Vec3 -> Option<Vec3>)
    requires IsSquareRoot(root) && IsNormalize(normalize)
    ensures 0.0 < limit ==>
      SweptSphereVsBox(from, to, radius, boxCenter, boxRadius, Some(limit), root, normalize)
      == SweptSphereVsBox(from, to, radius, boxCenter, boxRadius, None, root, normalize)
  {
  }

  /**
   * A moving sphere whose start overlaps the box, with its centre outside
   * the box and moving towards it, is reported.
   */
  lemma SweptSphereVsBoxReportsOverlap(from: Vec3, to: Vec3, radius: real, boxCenter: Vec3, boxRadius: Vec3,
                                       limit: Option<real>, root: real -> real, normalize: Vec3 -> Option<Vec3>)
    requires IsSquareRoot(root) && IsNormalize(normalize)
    requires 0.0 < radius && (limit.None? || 0.0 < limit.value)
    requires var gap := Sub(from, BoxClosest(from, boxCenter, boxRadius));
      gap != Zero3 && Dot(gap, gap) < radius * radius && Dot(Sub(to, from), gap) < 0.0
    ensures SweptSphereVsBox(from, to, radius, boxCenter, boxRadius, limit, root, normalize).Some?
  {
    PushOutReports(from, to, radius, Sub(from, BoxClosest(from, boxCenter, boxRadius)), root, normalize);
  }

  /** A sphere whose centre starts inside the box is never reported. */
  lemma SweptSphereVsBoxMissesFromInside(from: Vec3, to: Vec3, radius: real, boxCenter: Vec3, boxRadius: Vec3,
                                         limit: Option<real>, root: real -> real, normalize: Vec3 -> Option<Vec3>)
    requires IsSquareRoot(root) && IsNormalize(normalize)
    requires var lo := Sub(boxCenter, boxRadius); var hi := Add(boxCenter, boxRadius);
      lo.x <= from.x <= hi.x && lo.y <= from.y <= hi.y && lo.z <= from.z <= hi.z
    ensures SweptSphereVsBox(from, to, radius, boxCenter, boxRadius, limit, root, normalize).None?
  {
    assert Sub(from, BoxClosest(from, boxCenter, boxRadius)) == Zero3;
  }

  /** A sphere that starts at least its radius away from the box is not reported, wherever it goes. */
  lemma SweptSphereVsBoxMissesSeparated(from: Vec3, to: Vec3, radius: real, boxCenter: Vec3, boxRadius: Vec3,
                                        limit: Option<real>, root: real -> real, normalize: Vec3 -> Option<Vec3>)
    requires IsSquareRoot(root) && IsNormalize(normalize)
    requires radius * radius <= SqDist(from, BoxClosest(from, boxCenter, boxRadius))
    ensures SweptSphereVsBox(from, to, radius, boxCenter, boxRadius, limit, root, normalize).None?
  {
  }

  /** collide_swept_sphere_vs_line_segment: not implemented, never reports a hit. */
  function SweptSphereVsLineSegment(from: Vec3, to: Vec3, radius: real, a: Vec3, b: Vec3,
                                    limit: Option<real>): (r: Option<Hit>)
    ensures r.None?
  {
    None
  }

  /** collide_swept_sphere_vs_triangle: not implemented, never reports a hit. */
  function SweptSphereVsTriangle(from: Vec3, to: Vec3, radius: real, a: Vec3, b: Vec3, c: Vec3,
                                 limit: Option<real>): (r: Option<Hit>)
    ensures r.None?
  {
    None
  }
}
