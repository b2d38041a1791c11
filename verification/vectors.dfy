/** Vector algebra in R^3 over exact reals: the dot product, cross product,
    norm, projection and angle of the geometry module, stated on plain
    triples. The array-level operations in `Algebra` validate their
    arguments' shapes and then delegate to these. */
module Vectors {
  import opened Numerics

  /** The components (x, y, z) of a 3x1 column vector. */
  datatype Vec3 = Vec3(x: real, y: real, z: real)

  const Zero := Vec3(0.0, 0.0, 0.0)

  predicate IsZero(v: Vec3) {
    v.x == 0.0 && v.y == 0.0 && v.z == 0.0
  }

  function Add(a: Vec3, b: Vec3): Vec3 {
    Vec3(a.x + b.x, a.y + b.y, a.z + b.z)
  }

  function Sub(a: Vec3, b: Vec3): Vec3 {
    Vec3(a.x - b.x, a.y - b.y, a.z - b.z)
  }

  function Scale(k: real, v: Vec3): Vec3 {
    Vec3(k * v.x, k * v.y, k * v.z)
  }

  /** The inner product `v1.T @ v2`. */
  function Dot(a: Vec3, b: Vec3): real {
    a.x * b.x + a.y * b.y + a.z * b.z
  }

  lemma DotSymmetric(a: Vec3, b: Vec3)
    ensures Dot(a, b) == Dot(b, a)
  {
  }

  /** `Dot(v, v)` is a sum of squares: non-negative, and zero exactly for the
      zero vector. */
  lemma {:induction false} DotSelf(v: Vec3)
    ensures Dot(v, v) >= 0.0
    ensures IsZero(v) <==> Dot(v, v) == 0.0
  {
    var a := Square(v.x);
    var b := Square(v.y);
    var c := Square(v.z);
  }

  /** The right-handed cross product; the result is orthogonal to both operands. */
  function Cross(a: Vec3, b: Vec3): (r: Vec3)
    ensures Dot(r, a) == 0.0 && Dot(r, b) == 0.0
  {
    Vec3(a.y * b.z - a.z * b.y,
         a.z * b.x - a.x * b.z,
         a.x * b.y - a.y * b.x)
  }

  /** Scaling an operand scales the cross product. */
  lemma CrossOfScaled(k: real, a: Vec3, b: Vec3)
    ensures Cross(Scale(k, a), b) == Scale(k, Cross(a, b))
  {
    var c, d := Cross(a, b), Cross(Scale(k, a), b);
    ScaledDifference(k, a.y, b.z, a.z, b.y, d.x, c.x);
    ScaledDifference(k, a.z, b.x, a.x, b.z, d.y, c.y);
    ScaledDifference(k, a.x, b.y, a.y, b.x, d.z, c.z);
  }

  lemma CrossAntiCommutative(a: Vec3, b: Vec3)
    ensures Cross(b, a) == Scale(-1.0, Cross(a, b))
  {
  }

  /** Lagrange's identity: |a|^2 |b|^2 = (a.b)^2 + |a x b|^2. */
  lemma Lagrange(a: Vec3, b: Vec3)
    ensures Dot(a, a) * Dot(b, b) == Dot(a, b) * Dot(a, b) + Dot(Cross(a, b), Cross(a, b))
  {
  }

  /** The Euclidean norm `sqrt(v.v)`. */
  function Norm(t: Transcendentals, v: Vec3): (r: real)
    requires t.Valid()
    ensures r >= 0.0 && r * r == Dot(v, v)
    ensures IsZero(v) <==> r == 0.0
  {
    DotSelf(v);
    SqrtSign(t, Dot(v, v));
    t.sqrt(Dot(v, v))
  }

  lemma DotOfScaled(k: real, u: Vec3, v: Vec3)
    ensures Dot(Scale(k, u), v) == k * Dot(u, v)
    ensures Dot(u, Scale(k, v)) == k * Dot(u, v)
  {
  }

  lemma DotOfScaledSelf(k: real, v: Vec3)
    ensures Dot(Scale(k, v), Scale(k, v)) == (k * k) * Dot(v, v)
  {
  }

  /** Scaling a vector scales its norm by the absolute value of the factor. */
  lemma {:induction false} NormScale(t: Transcendentals, k: real, v: Vec3)
    requires t.Valid()
    ensures Norm(t, Scale(k, v)) == Abs(k) * Norm(t, v)
  {
    DotSelf(v);
    DotOfScaledSelf(k, v);
    SqrtOfScaled(t, k, Dot(v, v), Dot(Scale(k, v), Scale(k, v)));
    SqrtOfSquare(t, k);
  }

  /** Removing a multiple of `v` from `w` leaves `w x v` unchanged. */
  lemma CrossOfShifted(w: Vec3, v: Vec3, k: real)
    ensures Cross(Sub(w, Scale(k, v)), v) == Cross(w, v)
  {
  }

  /** The projection of `u` on a non-zero `v`: a vector collinear with `v`
      whose residual `u - r` is orthogonal to `v`. */
  function Project(u: Vec3, v: Vec3): (r: Vec3)
    requires !IsZero(v)
    ensures IsZero(Cross(r, v))
    ensures Dot(Sub(u, r), v) == 0.0
  {
    DotSelf(v);
    var k := Dot(u, v) / Dot(v, v);
    assert Dot(Sub(u, Scale(k, v)), v) == Dot(u, v) - k * Dot(v, v);
    Scale(k, v)
  }

  /** A vector collinear with a non-zero `v` is a multiple of `v`. */
  lemma {:induction false} CollinearIsMultiple(w: Vec3, v: Vec3)
    requires !IsZero(v)
    requires IsZero(Cross(w, v))
    ensures Dot(v, v) != 0.0 && w == Scale(Dot(w, v) / Dot(v, v), v)
  {
    DotSelf(v);
    var k := Dot(w, v) / Dot(v, v);
    var r := Sub(w, Scale(k, v));
    assert Dot(r, v) == Dot(w, v) - k * Dot(v, v);
    CrossOfShifted(w, v, k);
    Lagrange(r, v);
    DotSelf(r);
    var p := Product(Dot(r, r), Dot(v, v));
    assert IsZero(r);
  }

  /** The projection is the only vector collinear with `v` whose residual is
      orthogonal to `v`. */
  lemma {:induction false} ProjectUnique(u: Vec3, v: Vec3, w: Vec3)
    requires !IsZero(v)
    requires IsZero(Cross(w, v))
    requires Dot(Sub(u, w), v) == 0.0
    ensures w == Project(u, v)
  {
    DotSelf(v);
    CollinearIsMultiple(w, v);
    var k := Dot(w, v) / Dot(v, v);
    assert Dot(Sub(u, Scale(k, v)), v) == Dot(u, v) - k * Dot(v, v);
    assert k == Dot(u, v) / Dot(v, v);
  }

  /** Projecting a projection again on the same vector leaves it unchanged. */
  lemma {:induction false} ProjectIdempotent(u: Vec3, v: Vec3)
    requires !IsZero(v)
    ensures Project(Project(u, v), v) == Project(u, v)
  {
    var p := Project(u, v);
    assert Sub(p, p) == Zero;
    ProjectUnique(p, v, p);
  }

  /** The residual `u - proj(u, v)`: orthogonal to `v`, and adding the
      projection back gives `u`. */
  function Rejection(u: Vec3, v: Vec3): (r: Vec3)
    requires !IsZero(v)
    ensures Dot(r, v) == 0.0
    ensures Add(r, Project(u, v)) == u
  {
    Sub(u, Project(u, v))
  }

  /** The unit vector `v / |v|`: collinear with `v`, of norm 1, pointing the
      same way as `v`. */
  function Normalize(t: Transcendentals, v: Vec3): (r: Vec3)
    requires t.Valid()
    requires !IsZero(v)
    ensures Norm(t, r) == 1.0
    ensures IsZero(Cross(r, v))
    ensures Dot(r, v) == Norm(t, v)
  {
    var k := 1.0 / Norm(t, v);
    NormScale(t, k, v);
    UnitScale(k, Norm(t, v), Dot(v, v));
    DotOfScaled(k, v, v);
    assert IsZero(Cross(Scale(k, v), v));
    Scale(k, v)
  }

  /** Lagrange's identity for a vector orthogonal to `v`. */
  lemma {:induction false} OrthogonalLagrange(r: Vec3, v: Vec3)
    requires Dot(r, v) == 0.0
    ensures Dot(r, r) * Dot(v, v) == Dot(Cross(r, v), Cross(r, v))
  {
    Lagrange(r, v);
  }

  /** The squared length of the residual times |v|^2 is |u x v|^2. */
  lemma {:induction false} RejectionLength(u: Vec3, v: Vec3)
    requires !IsZero(v)
    ensures Dot(Rejection(u, v), Rejection(u, v)) * Dot(v, v) == Dot(Cross(u, v), Cross(u, v))
  {
    var r := Rejection(u, v);
    CollinearIsMultiple(Project(u, v), v);
    CrossOfShifted(u, v, Dot(Project(u, v), v) / Dot(v, v));
    OrthogonalLagrange(r, v);
  }

  /** The residual vanishes exactly when `u` is collinear with `v`. */
  lemma {:induction false} RejectionZero(u: Vec3, v: Vec3)
    requires !IsZero(v)
    ensures IsZero(Rejection(u, v)) <==> IsZero(Cross(u, v))
  {
    var r := Rejection(u, v);
    var c := Cross(u, v);
    RejectionLength(u, v);
    DotSelf(r);
    DotSelf(v);
    DotSelf(c);
    ZeroProduct(Dot(r, r), Dot(v, v), Dot(c, c));
  }

  /** The length of the projection of `u` on `v` is |u.v| / |v|. */
  lemma {:induction false} ProjectionLength(t: Transcendentals, u: Vec3, v: Vec3)
    requires t.Valid()
    requires !IsZero(v)
    ensures Norm(t, Project(u, v)) * Norm(t, v) == Abs(Dot(u, v))
  {
    DotSelf(v);
    var k := Dot(u, v) / Dot(v, v);
    assert Project(u, v) == Scale(k, v);
    NormScale(t, k, v);
    ScaledLength(k, Norm(t, v), Dot(v, v), Dot(u, v), Norm(t, Project(u, v)));
  }

  /** Cauchy-Schwarz: the cosine handed to `arccos` lies in [-1, 1]. */
  lemma {:induction false} CosineInRange(t: Transcendentals, u: Vec3, v: Vec3)
    requires t.Valid()
    requires !IsZero(u) && !IsZero(v)
    ensures Norm(t, u) * Norm(t, v) > 0.0
    ensures -1.0 <= Dot(u, v) / (Norm(t, u) * Norm(t, v)) <= 1.0
  {
    Lagrange(u, v);
    DotSelf(Cross(u, v));
    CosineBound(Dot(u, v), Norm(t, u), Norm(t, v), Norm(t, u) * Norm(t, v), Dot(Cross(u, v), Cross(u, v)));
  }

  /** The cosine of the angle between two non-zero vectors: the `c` in [-1, 1] with `u.v = c |u| |v|`. */
  function Cosine(t: Transcendentals, u: Vec3, v: Vec3): (r: real)
    requires t.Valid()
    requires !IsZero(u) && !IsZero(v)
    ensures -1.0 <= r <= 1.0
    ensures Dot(u, v) == r * (Norm(t, u) * Norm(t, v))
  {
    CosineInRange(t, u, v);
    QuotientTimes(Dot(u, v), Norm(t, u) * Norm(t, v));
    Dot(u, v) / (Norm(t, u) * Norm(t, v))
  }

  /** The angle between two non-zero vectors, `arccos` of their cosine, in [0, pi]. */
  function Angle(t: Transcendentals, u: Vec3, v: Vec3): (r: real)
    requires t.Valid()
    requires !IsZero(u) && !IsZero(v)
    ensures 0.0 <= r <= t.pi
  {
    t.arccos(Cosine(t, u, v))
  }

  /** The angle is `arccos` of any `c` with `u.v = c |u| |v|`. */
  lemma {:induction false} AngleFromCosine(t: Transcendentals, u: Vec3, v: Vec3, c: real)
    requires t.Valid()
    requires !IsZero(u) && !IsZero(v)
    requires Dot(u, v) == c * (Norm(t, u) * Norm(t, v))
    ensures Angle(t, u, v) == t.arccos(c)
  {
    CosineInRange(t, u, v);
    CancelFactor(Cosine(t, u, v), c, Norm(t, u) * Norm(t, v));
  }

  lemma {:induction false} AngleWithItself(t: Transcendentals, v: Vec3)
    requires t.Valid()
    requires !IsZero(v)
    ensures Angle(t, v, v) == 0.0
  {
    AngleFromCosine(t, v, v, 1.0);
  }

  lemma {:induction false} AngleWithOpposite(t: Transcendentals, v: Vec3)
    requires t.Valid()
    requires !IsZero(v)
    ensures Angle(t, v, Scale(-1.0, v)) == t.pi
  {
    NormScale(t, -1.0, v);
    assert Dot(v, Scale(-1.0, v)) == -Dot(v, v);
    AngleFromCosine(t, v, Scale(-1.0, v), -1.0);
  }

  /** For collinear vectors the Cauchy-Schwarz inequality is an equality. */
  lemma CollinearSlack(u: Vec3, v: Vec3)
    requires IsZero(Cross(u, v))
    ensures Dot(u, u) * Dot(v, v) == Dot(u, v) * Dot(u, v)
  {
  }

  /** Two non-zero vectors with a zero cross product have cosine 1 or -1. */
  lemma {:induction false} CosineOfCollinear(t: Transcendentals, u: Vec3, v: Vec3)
    requires t.Valid()
    requires !IsZero(u) && !IsZero(v)
    requires IsZero(Cross(u, v))
    ensures Cosine(t, u, v) == 1.0 || Cosine(t, u, v) == -1.0
  {
    CollinearSlack(u, v);
    CosineExtreme(Dot(u, v), Norm(t, u), Norm(t, v), Dot(u, u), Dot(v, v), Norm(t, u) * Norm(t, v), Cosine(t, u, v));
  }

  /** Two non-zero vectors with a zero cross product make an angle of 0 or pi. */
  lemma {:induction false} AngleOfCollinear(t: Transcendentals, u: Vec3, v: Vec3)
    requires t.Valid()
    requires !IsZero(u) && !IsZero(v)
    requires IsZero(Cross(u, v))
    ensures Angle(t, u, v) == 0.0 || Angle(t, u, v) == t.pi
  {
    CosineOfCollinear(t, u, v);
  }

  /** The unit vector is `v` scaled by `1 / |v|`. */
  lemma NormalizeIsScale(t: Transcendentals, v: Vec3)
    requires t.Valid()
    requires !IsZero(v)
    ensures Normalize(t, v) == Scale(1.0 / Norm(t, v), v)
  {
  }

  /** The projection is `v` scaled by `(u.v) / (v.v)`. */
  lemma ProjectIsScale(u: Vec3, v: Vec3)
    requires !IsZero(v)
    ensures Dot(v, v) > 0.0
    ensures Project(u, v) == Scale(Dot(u, v) / Dot(v, v), v)
  {
    DotSelf(v);
  }

  /** A multiple of a vector orthogonal to `w` is orthogonal to `w`. */
  lemma ScaledOrthogonal(k: real, v: Vec3, w: Vec3)
    requires Dot(v, w) == 0.0
    ensures Dot(Scale(k, v), w) == 0.0
  {
    DotOfScaled(k, v, w);
  }

  /** Turning `n` by the sign of its scalar product with `d` makes that
      product non-negative. */
  lemma SignedDot(d: Vec3, n: Vec3)
    ensures Dot(d, Scale(Sign(Dot(d, n)), n)) == Abs(Dot(d, n))
  {
    DotOfScaled(Sign(Dot(d, n)), d, n);
  }

  /** Reversing a difference negates its scalar product with any vector. */
  lemma DotOfReversed(a: Vec3, b: Vec3, n: Vec3)
    ensures Dot(Sub(b, a), n) == -Dot(Sub(a, b), n)
  {
  }

  /** Projecting the opposite vector gives the opposite projection. */
  lemma {:induction false} ProjectOfOpposite(u: Vec3, v: Vec3)
    requires !IsZero(v)
    ensures Project(Scale(-1.0, u), v) == Scale(-1.0, Project(u, v))
  {
    ProjectIsScale(u, v);
    ProjectIsScale(Scale(-1.0, u), v);
    DotOfScaled(-1.0, u, v);
    var k := Dot(u, v) / Dot(v, v);
    assert Dot(Scale(-1.0, u), v) / Dot(v, v) == -k;
  }

  /** The residual of the opposite vector is the opposite residual. */
  lemma {:induction false} RejectionOfOpposite(u: Vec3, v: Vec3)
    requires !IsZero(v)
    ensures Rejection(Scale(-1.0, u), v) == Scale(-1.0, Rejection(u, v))
  {
    ProjectOfOpposite(u, v);
  }

  lemma DotAdd(a: Vec3, b: Vec3, c: Vec3)
    ensures Dot(Add(a, b), c) == Dot(a, c) + Dot(b, c)
  {
  }

  /** Of two vectors, the one with the larger squared length has the larger norm. */
  lemma {:induction false} NormMonotone(t: Transcendentals, a: Vec3, b: Vec3)
    requires t.Valid()
    requires Dot(a, a) >= Dot(b, b)
    ensures Norm(t, a) >= Norm(t, b)
  {
    RootMonotone(Norm(t, a), Norm(t, b), Dot(a, a), Dot(b, b));
  }

  /** Adding its own projection on `v` to `u` never shortens it:
      `|u + p|^2 = |u|^2 + 3 |p|^2`. */
  lemma {:induction false} AddProjectionLonger(u: Vec3, v: Vec3)
    requires !IsZero(v)
    ensures Dot(Add(u, Project(u, v)), Add(u, Project(u, v))) >= Dot(u, u)
  {
    var p := Project(u, v);
    var r := Rejection(u, v);
    CollinearIsMultiple(p, v);
    var k := Dot(p, v) / Dot(v, v);
    DotOfScaled(k, r, v);
    assert Dot(r, p) == 0.0;
    DotSelf(p);
    assert Dot(Add(u, p), Add(u, p)) == Dot(u, u) + 2.0 * Dot(u, p) + Dot(p, p);
    assert Dot(u, p) == Dot(r, p) + Dot(p, p);
  }
}
