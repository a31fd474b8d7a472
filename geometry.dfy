/**
 * Vector algebra over the reals and the two closed-form solvers of the
 * reconstruction pipeline: the ray/plane intersection used by the
 * triangulator and the three-plane intersection that yields the landmark.
 *
 * Coordinates are `real`: the source computes in `double` (ray/plane) and
 * `float` (three planes); rounding is not modelled.
 */
module Geometry {

  datatype Vec3 = Vec3(x: real, y: real, z: real)

  datatype Option<T> = None | Some(value: T)

  const Zero: Vec3 := Vec3(0.0, 0.0, 0.0)

  function Add(a: Vec3, b: Vec3): Vec3 {
    Vec3(a.x + b.x, a.y + b.y, a.z + b.z)
  }

  function Sub(a: Vec3, b: Vec3): Vec3 {
    Vec3(a.x - b.x, a.y - b.y, a.z - b.z)
  }

  function Scale(k: real, a: Vec3): Vec3 {
    Vec3(k * a.x, k * a.y, k * a.z)
  }

  function Dot(a: Vec3, b: Vec3): real {
    a.x * b.x + a.y * b.y + a.z * b.z
  }

  function Cross(a: Vec3, b: Vec3): Vec3 {
    Vec3(a.y * b.z - a.z * b.y, a.z * b.x - a.x * b.z, a.x * b.y - a.y * b.x)
  }

  function Abs(r: real): real {
    if r < 0.0 then -r else r
  }

  /** Component `axis` (0 = x, 1 = y, 2 = z), as `cv::Vec3f::operator[]`. */
  function Coord(p: Vec3, axis: int): real
    requires 0 <= axis < 3
  {
    if axis == 0 then p.x else if axis == 1 then p.y else p.z
  }

  /** Squared Euclidean distance; the source takes its square root. */
  function SqDist(a: Vec3, b: Vec3): real {
    Dot(Sub(a, b), Sub(a, b))
  }

  /** A 3x3 matrix given by its rows. */
  datatype Mat3 = Mat3(r0: Vec3, r1: Vec3, r2: Vec3)

  function Column(m: Mat3, k: int): Vec3
    requires 0 <= k < 3
  {
    Vec3(Coord(m.r0, k), Coord(m.r1, k), Coord(m.r2, k))
  }

  /** `m.t() * v`: the transpose of `m` applied to `v`. */
  function TransposeTimes(m: Mat3, v: Vec3): Vec3 {
    Vec3(Dot(Column(m, 0), v), Dot(Column(m, 1), v), Dot(Column(m, 2), v))
  }

  // ---------------------------------------------------------------------
  // Linearity facts used by the proofs below.

  lemma DotAddRight(a: Vec3, b: Vec3, c: Vec3)
    ensures Dot(a, Add(b, c)) == Dot(a, b) + Dot(a, c)
  {
  }

  lemma DotSubRight(a: Vec3, b: Vec3, c: Vec3)
    ensures Dot(a, Sub(b, c)) == Dot(a, b) - Dot(a, c)
  {
  }

  lemma DotScaleRight(a: Vec3, k: real, b: Vec3)
    ensures Dot(a, Scale(k, b)) == k * Dot(a, b)
  {
  }

  lemma SquarePositive(r: real)
    requires r != 0.0
    ensures r * r > 0.0
  {
  }

  lemma SumSquaresPositive(a: real, b: real, c: real)
    requires a != 0.0 || b != 0.0 || c != 0.0
    ensures a * a + b * b + c * c > 0.0
  {
    if a != 0.0 {
      SquarePositive(a);
    } else if b != 0.0 {
      SquarePositive(b);
    } else {
      SquarePositive(c);
    }
  }

  /** A non-zero vector has a positive squared length. */
  lemma DotSelfPositive(v: Vec3)
    requires v != Zero
    ensures Dot(v, v) > 0.0
  {
    calc {
      Dot(v, v);
    ==
      v.x * v.x + v.y * v.y + v.z * v.z;
    > { SumSquaresPositive(v.x, v.y, v.z); }
      0.0;
    }
  }

  // ---------------------------------------------------------------------
  // Ray/plane intersection (approximate_ray_plane_intersection)

  /**
   * A point on the ray through `qc` with direction `vc`.
   */
  ghost predicate OnRay(p: Vec3, vc: Vec3, qc: Vec3) {
    exists t: real :: p == Add(Scale(t, vc), qc)
  }

  /**
   * The point of the camera ray (direction `vc`, origin `qc`) that lies on
   * the plane through `qp` with normal direction `vp`:
   *   lambda = vp.(qp - qc) / vp.vc,  p = lambda * vc + qc.
   * The source divides without a guard; `None` stands for the non-finite
   * result it gets when `vp.vc == 0`.
   */
  function RayPlaneIntersection(vc: Vec3, qc: Vec3, vp: Vec3, qp: Vec3): (r: Option<Vec3>)
    ensures r.Some? <==> Dot(vp, vc) != 0.0
    ensures r.Some? ==> OnRay(r.value, vc, qc)
    ensures r.Some? ==> Dot(vp, Sub(r.value, qp)) == 0.0
  {
    var num := Dot(vp, Sub(qp, qc));
    var denum := Dot(vp, vc);
    if denum == 0.0 then None
    else
      var lambda := num / denum;
      var p := Add(Scale(lambda, vc), qc);
      assert p == Add(Scale(lambda, vc), qc);
      RayPointOnPlane(vc, qc, vp, qp, lambda);
      Some(p)
  }

  /** With lambda * (vp.vc) == vp.(qp - qc) the ray point lies on the plane. */
  lemma RayPointOnPlane(vc: Vec3, qc: Vec3, vp: Vec3, qp: Vec3, lambda: real)
    requires Dot(vp, vc) != 0.0
    requires lambda == Dot(vp, Sub(qp, qc)) / Dot(vp, vc)
    ensures Dot(vp, Sub(Add(Scale(lambda, vc), qc), qp)) == 0.0
  {
    var p := Add(Scale(lambda, vc), qc);
    DotSubRight(vp, p, qp);
    DotAddRight(vp, Scale(lambda, vc), qc);
    DotScaleRight(vp, lambda, vc);
    assert lambda * Dot(vp, vc) == Dot(vp, Sub(qp, qc));
    DotSubRight(vp, qp, qc);
  }

  /**
   * Round trip: a ground-truth point that lies on both the camera ray and the
   * projector plane is exactly what the intersection recovers (the
   * non-parallel case), so the intersection is unique.
   */
  lemma RayPlaneRecoversPoint(vc: Vec3, qc: Vec3, vp: Vec3, qp: Vec3, t: real)
    requires Dot(vp, vc) != 0.0
    requires Dot(vp, Sub(Add(Scale(t, vc), qc), qp)) == 0.0
    ensures RayPlaneIntersection(vc, qc, vp, qp) == Some(Add(Scale(t, vc), qc))
  {
    var X := Add(Scale(t, vc), qc);
    DotSubRight(vp, X, qp);
    DotAddRight(vp, Scale(t, vc), qc);
    DotScaleRight(vp, t, vc);
    DotSubRight(vp, qp, qc);
    assert t * Dot(vp, vc) == Dot(vp, Sub(qp, qc));
    assert t == Dot(vp, Sub(qp, qc)) / Dot(vp, vc);
  }

  // ---------------------------------------------------------------------
  // Three-plane intersection (three_planes_intersection)

  /** det[n1 n2 n3] of the matrix whose columns are the three normals. */
  function Det(n1: Vec3, n2: Vec3, n3: Vec3): real {
    Dot(n1, Cross(n2, n3))
  }

  /** Below this |det| the planes are treated as parallel. */
  const ParallelTolerance: real := 0.00000000000000000001

  ghost predicate OnPlane(p: Vec3, n: Vec3, x: Vec3) {
    Dot(n, p) == Dot(n, x)
  }

  /**
   * Cramer's rule on n_i . p = n_i . x_i; the zero vector is the sentinel
   * for (near-)parallel planes.
   */
  function ThreePlanesIntersection(n1: Vec3, n2: Vec3, n3: Vec3, x1: Vec3, x2: Vec3, x3: Vec3): (p: Vec3)
    ensures Abs(Det(n1, n2, n3)) < ParallelTolerance ==> p == Zero
    ensures Abs(Det(n1, n2, n3)) >= ParallelTolerance ==>
              OnPlane(p, n1, x1) && OnPlane(p, n2, x2) && OnPlane(p, n3, x3)
  {
    var det := Det(n1, n2, n3);
    if Abs(det) < ParallelTolerance then Zero
    else
      var a := Scale(Dot(x1, n1), Cross(n2, n3));
      var b := Scale(Dot(x2, n2), Cross(n3, n1));
      var c := Scale(Dot(x3, n3), Cross(n1, n2));
      var p := Scale(1.0 / det, Add(Add(a, b), c));
      CramerSolves(n1, n2, n3, x1, x2, x3);
      p
  }

  lemma TripleProducts(n1: Vec3, n2: Vec3, n3: Vec3)
    ensures Dot(n1, Cross(n3, n1)) == 0.0 && Dot(n1, Cross(n1, n2)) == 0.0
    ensures Dot(n2, Cross(n2, n3)) == 0.0 && Dot(n2, Cross(n1, n2)) == 0.0
    ensures Dot(n3, Cross(n2, n3)) == 0.0 && Dot(n3, Cross(n3, n1)) == 0.0
    ensures Dot(n2, Cross(n3, n1)) == Det(n1, n2, n3)
    ensures Dot(n3, Cross(n1, n2)) == Det(n1, n2, n3)
  {
    CyclicTriple(n1, n2, n3);
    CyclicTriple(n2, n3, n1);
    RepeatedTriple(n1, n3);
    RepeatedTriple(n1, n2);
    RepeatedTriple(n2, n3);
    RepeatedTriple(n2, n1);
    RepeatedTriple(n3, n2);
    RepeatedTriple(n3, n1);
  }

  /** a . (b x a) == 0 == a . (a x b) */
  lemma RepeatedTriple(a: Vec3, b: Vec3)
    ensures Dot(a, Cross(b, a)) == 0.0 && Dot(a, Cross(a, b)) == 0.0
  {
    assert Dot(a, Cross(b, a)) == a.x * b.y * a.z - a.x * b.z * a.y + a.y * b.z * a.x - a.y * b.x * a.z + a.z * b.x * a.y - a.z * b.y * a.x;
    assert Dot(a, Cross(a, b)) == a.x * a.y * b.z - a.x * a.z * b.y + a.y * a.z * b.x - a.y * a.x * b.z + a.z * a.x * b.y - a.z * a.y * b.x;
  }

  /** a . (b x c) == b . (c x a) */
  lemma CyclicTriple(a: Vec3, b: Vec3, c: Vec3)
    ensures Dot(a, Cross(b, c)) == Dot(b, Cross(c, a))
  {
    var l := a.x * (b.y * c.z - b.z * c.y) + a.y * (b.z * c.x - b.x * c.z) + a.z * (b.x * c.y - b.y * c.x);
    var r := b.x * (c.y * a.z - c.z * a.y) + b.y * (c.z * a.x - c.x * a.z) + b.z * (c.x * a.y - c.y * a.x);
    assert l == a.x * b.y * c.z - a.x * b.z * c.y + a.y * b.z * c.x - a.y * b.x * c.z + a.z * b.x * c.y - a.z * b.y * c.x;
    assert r == b.x * c.y * a.z - b.x * c.z * a.y + b.y * c.z * a.x - b.y * c.x * a.z + b.z * c.x * a.y - b.z * c.y * a.x;
  }

  /** n . (k1 u + k2 v + k3 w) expanded. */
  lemma DotCombination(n: Vec3, k1: real, u: Vec3, k2: real, v: Vec3, k3: real, w: Vec3, s: real)
    ensures Dot(n, Scale(s, Add(Add(Scale(k1, u), Scale(k2, v)), Scale(k3, w))))
         == s * (k1 * Dot(n, u) + k2 * Dot(n, v) + k3 * Dot(n, w))
  {
    var sum := Add(Add(Scale(k1, u), Scale(k2, v)), Scale(k3, w));
    DotScaleRight(n, s, sum);
    DotAddRight(n, Add(Scale(k1, u), Scale(k2, v)), Scale(k3, w));
    DotAddRight(n, Scale(k1, u), Scale(k2, v));
    DotScaleRight(n, k1, u);
    DotScaleRight(n, k2, v);
    DotScaleRight(n, k3, w);
  }

  lemma CramerSolves(n1: Vec3, n2: Vec3, n3: Vec3, x1: Vec3, x2: Vec3, x3: Vec3)
    requires Det(n1, n2, n3) != 0.0
    ensures var p := Scale(1.0 / Det(n1, n2, n3), Add(Add(Scale(Dot(x1, n1), Cross(n2, n3)),
                                                          Scale(Dot(x2, n2), Cross(n3, n1))),
                                                      Scale(Dot(x3, n3), Cross(n1, n2))));
            OnPlane(p, n1, x1) && OnPlane(p, n2, x2) && OnPlane(p, n3, x3)
  {
    var det := Det(n1, n2, n3);
    var a1, a2, a3 := Dot(x1, n1), Dot(x2, n2), Dot(x3, n3);
    TripleProducts(n1, n2, n3);
    DotCombination(n1, a1, Cross(n2, n3), a2, Cross(n3, n1), a3, Cross(n1, n2), 1.0 / det);
    DotCombination(n2, a1, Cross(n2, n3), a2, Cross(n3, n1), a3, Cross(n1, n2), 1.0 / det);
    DotCombination(n3, a1, Cross(n2, n3), a2, Cross(n3, n1), a3, Cross(n1, n2), 1.0 / det);
    assert (1.0 / det) * (a1 * det) == a1;
    assert (1.0 / det) * (a2 * det) == a2;
    assert (1.0 / det) * (a3 * det) == a3;
  }

  /**
   * The identity behind Cramer's rule: for every v,
   *   (n1.v)(n2 x n3) + (n2.v)(n3 x n1) + (n3.v)(n1 x n2) == det * v.
   */
  lemma CramerIdentity(n1: Vec3, n2: Vec3, n3: Vec3, v: Vec3)
    ensures Add(Add(Scale(Dot(n1, v), Cross(n2, n3)), Scale(Dot(n2, v), Cross(n3, n1))),
                Scale(Dot(n3, v), Cross(n1, n2)))
         == Scale(Det(n1, n2, n3), v)
  {
    var det := Det(n1, n2, n3);
    CramerComponent(n1, n2, n3, v);
    CramerComponent(Vec3(n1.y, n1.z, n1.x), Vec3(n2.y, n2.z, n2.x), Vec3(n3.y, n3.z, n3.x), Vec3(v.y, v.z, v.x));
    CramerComponent(Vec3(n1.z, n1.x, n1.y), Vec3(n2.z, n2.x, n2.y), Vec3(n3.z, n3.x, n3.y), Vec3(v.z, v.x, v.y));
  }

  /** The x component of the Cramer identity; the y and z components are rotations of it. */
  lemma CramerComponent(n1: Vec3, n2: Vec3, n3: Vec3, v: Vec3)
    ensures Dot(n1, v) * Cross(n2, n3).x + Dot(n2, v) * Cross(n3, n1).x + Dot(n3, v) * Cross(n1, n2).x
         == Det(n1, n2, n3) * v.x
  {
    CofactorExpansion(n1, n2, n3);
    // the y and z parts of v cancel
    CofactorsCancelY(n1, n2, n3);
    CofactorsCancelZ(n1, n2, n3);
    var A, B, C := Cross(n2, n3).x, Cross(n3, n1).x, Cross(n1, n2).x;
    DotRegroup(n1, n2, n3, v, A, B, C);
    Collapse(v.x, v.y, v.z, n1.x * A + n2.x * B + n3.x * C, n1.y * A + n2.y * B + n3.y * C,
             n1.z * A + n2.z * B + n3.z * C, Det(n1, n2, n3));
  }

  /** The determinant expanded along the x components. */
  lemma CofactorExpansion(a: Vec3, b: Vec3, c: Vec3)
    ensures a.x * Cross(b, c).x + b.x * Cross(c, a).x + c.x * Cross(a, b).x == Det(a, b, c)
  {
    var bc := Cross(b, c);
    ExpansionIdentity(a.x, a.y, a.z, b.x, b.y, b.z, c.x, c.y, c.z, bc.x, Cross(c, a).x, Cross(a, b).x, bc.y, bc.z);
  }

  lemma CofactorsCancelY(a: Vec3, b: Vec3, c: Vec3)
    ensures a.y * Cross(b, c).x + b.y * Cross(c, a).x + c.y * Cross(a, b).x == 0.0
  {
    RepeatedColumn(a.y, a.y, a.z, b.y, b.y, b.z, c.y, c.y, c.z, Cross(b, c).x, Cross(c, a).x, Cross(a, b).x);
  }

  lemma CofactorsCancelZ(a: Vec3, b: Vec3, c: Vec3)
    ensures a.z * Cross(b, c).x + b.z * Cross(c, a).x + c.z * Cross(a, b).x == 0.0
  {
    RepeatedColumn(a.z, a.y, a.z, b.z, b.y, b.z, c.z, c.y, c.z, Cross(b, c).x, Cross(c, a).x, Cross(a, b).x);
  }

  // ---------------------------------------------------------------------
  // Scalar algebra steps of the Cramer proofs. Each isolates one rearrangement
  // of real products that the solver handles unreliably inside a larger goal;
  // none of them states anything about the source on its own.

  /**
   * The determinant of the columns (a1, a2, a3), (b1, b2, b3), (c1, c2, c3)
   * expanded along the first coordinates equals the dot-product expansion;
   * `p`, `q`, `r` are the cofactors of the first coordinates and `s`, `t`
   * those of a2 and a3.
   */
  lemma ExpansionIdentity(a1: real, a2: real, a3: real, b1: real, b2: real, b3: real, c1: real, c2: real, c3: real,
                          p: real, q: real, r: real, s: real, t: real)
    requires p == b2 * c3 - b3 * c2 && q == c2 * a3 - c3 * a2 && r == a2 * b3 - a3 * b2
    requires s == b3 * c1 - b1 * c3 && t == b1 * c2 - b2 * c1
    ensures a1 * p + b1 * q + c1 * r == a1 * p + a2 * s + a3 * t
  {
  }

  /** The expansion along the first coordinates vanishes when those coordinates repeat another row. */
  lemma RepeatedColumn(u1: real, a2: real, a3: real, v1: real, b2: real, b3: real, w1: real, c2: real, c3: real,
                       p: real, q: real, r: real)
    requires (u1, v1, w1) == (a2, b2, c2) || (u1, v1, w1) == (a3, b3, c3)
    requires p == b2 * c3 - b3 * c2 && q == c2 * a3 - c3 * a2 && r == a2 * b3 - a3 * b2
    ensures u1 * p + v1 * q + w1 * r == 0.0
  {
  }

  lemma Collapse(vx: real, vy: real, vz: real, x: real, y: real, z: real, d: real)
    requires x == d && y == 0.0 && z == 0.0
    ensures vx * x + vy * y + vz * z == d * vx
  {
  }

  lemma DotRegroup(a: Vec3, b: Vec3, c: Vec3, v: Vec3, A: real, B: real, C: real)
    ensures Dot(a, v) * A + Dot(b, v) * B + Dot(c, v) * C
         == v.x * (a.x * A + b.x * B + c.x * C) + v.y * (a.y * A + b.y * B + c.y * C) + v.z * (a.z * A + b.z * B + c.z * C)
  {
    Regroup(a.x, a.y, a.z, A, v);
    Regroup(b.x, b.y, b.z, B, v);
    Regroup(c.x, c.y, c.z, C, v);
  }

  lemma Regroup(px: real, py: real, pz: real, k: real, v: Vec3)
    ensures (px * v.x + py * v.y + pz * v.z) * k == v.x * (px * k) + v.y * (py * k) + v.z * (pz * k)
  {
  }

  lemma DotCommutes(a: Vec3, b: Vec3)
    ensures Dot(a, b) == Dot(b, a)
  {
  }

  /** Scaling by d and then by 1/d gives the vector back. */
  lemma ScaleInverse(d: real, q: Vec3)
    requires d != 0.0
    ensures Scale(1.0 / d, Scale(d, q)) == q
  {
    InverseCancels(d, q.x);
    InverseCancels(d, q.y);
    InverseCancels(d, q.z);
  }

  lemma InverseCancels(d: real, r: real)
    requires d != 0.0
    ensures (1.0 / d) * (d * r) == r
  {
    assert (1.0 / d) * d == 1.0;
  }

  /**
   * When the planes are not parallel, the returned point is the only point
   * on all three planes.
   */
  lemma ThreePlanesUnique(n1: Vec3, n2: Vec3, n3: Vec3, x1: Vec3, x2: Vec3, x3: Vec3, q: Vec3)
    requires Abs(Det(n1, n2, n3)) >= ParallelTolerance
    requires OnPlane(q, n1, x1) && OnPlane(q, n2, x2) && OnPlane(q, n3, x3)
    ensures ThreePlanesIntersection(n1, n2, n3, x1, x2, x3) == q
  {
    var det := Det(n1, n2, n3);
    CramerIdentity(n1, n2, n3, q);
    DotCommutes(x1, n1);
    DotCommutes(x2, n2);
    DotCommutes(x3, n3);
    var s := Add(Add(Scale(Dot(x1, n1), Cross(n2, n3)), Scale(Dot(x2, n2), Cross(n3, n1))),
                 Scale(Dot(x3, n3), Cross(n1, n2)));
    assert s == Scale(det, q);
    ScaleInverse(det, q);
  }

  /**
   * The zero sentinel is ambiguous: the solver returns the origin exactly when
   * the planes are parallel or all three planes pass through the origin.
   */
  lemma ThreePlanesZeroIff(n1: Vec3, n2: Vec3, n3: Vec3, x1: Vec3, x2: Vec3, x3: Vec3)
    ensures ThreePlanesIntersection(n1, n2, n3, x1, x2, x3) == Zero
        <==> Abs(Det(n1, n2, n3)) < ParallelTolerance
             || (Dot(n1, x1) == 0.0 && Dot(n2, x2) == 0.0 && Dot(n3, x3) == 0.0)
  {
    var det := Det(n1, n2, n3);
    if Abs(det) >= ParallelTolerance {
      var p := ThreePlanesIntersection(n1, n2, n3, x1, x2, x3);
      if Dot(n1, x1) == 0.0 && Dot(n2, x2) == 0.0 && Dot(n3, x3) == 0.0 {
        assert OnPlane(Zero, n1, x1) && OnPlane(Zero, n2, x2) && OnPlane(Zero, n3, x3);
        ThreePlanesUnique(n1, n2, n3, x1, x2, x3, Zero);
      }
    }
  }
}
