/** 3x3 matrices and the elementary rotations of the geometry module.

    The Python builders take an angle and call `np.sin` and `np.cos`; here
    they take the cosine `c` and sine `s` directly, and the facts that hold
    for a real angle are stated under `c * c + s * s == 1`. */
module Rotations {
  import opened Vectors
  import opened Shapes

  /** A 3x3 matrix, as its three rows. */
  datatype Mat3 = Mat3(r0: Vec3, r1: Vec3, r2: Vec3)

  const Identity3 := Mat3(Vec3(1.0, 0.0, 0.0), Vec3(0.0, 1.0, 0.0), Vec3(0.0, 0.0, 1.0))

  /** The determinant, by cofactor expansion along the first row. */
  function Det3(m: Mat3): real {
    m.r0.x * (m.r1.y * m.r2.z - m.r1.z * m.r2.y)
    - m.r0.y * (m.r1.x * m.r2.z - m.r1.z * m.r2.x)
    + m.r0.z * (m.r1.x * m.r2.y - m.r1.y * m.r2.x)
  }

  /** The cofactor expansion agrees with the scalar triple product of the rows. */
  lemma Det3IsTripleProduct(m: Mat3)
    ensures Det3(m) == Dot(m.r0, Cross(m.r1, m.r2))
  {
  }

  function Transpose(m: Mat3): Mat3 {
    Mat3(Vec3(m.r0.x, m.r1.x, m.r2.x),
         Vec3(m.r0.y, m.r1.y, m.r2.y),
         Vec3(m.r0.z, m.r1.z, m.r2.z))
  }

  /** The matrix-vector product `m @ v`: entry `i` is row `i` dotted with `v`. */
  function MatVec(m: Mat3, v: Vec3): Vec3 {
    Vec3(Dot(m.r0, v), Dot(m.r1, v), Dot(m.r2, v))
  }

  /** The matrix product `a @ b`: row `i` is row `i` of `a` times `b`. */
  function MatMul(a: Mat3, b: Mat3): (r: Mat3)
    ensures r.r0 == MatVec(Transpose(b), a.r0)
    ensures r.r1 == MatVec(Transpose(b), a.r1)
    ensures r.r2 == MatVec(Transpose(b), a.r2)
  {
    var bt := Transpose(b);
    Mat3(Vec3(Dot(a.r0, bt.r0), Dot(a.r0, bt.r1), Dot(a.r0, bt.r2)),
         Vec3(Dot(a.r1, bt.r0), Dot(a.r1, bt.r1), Dot(a.r1, bt.r2)),
         Vec3(Dot(a.r2, bt.r0), Dot(a.r2, bt.r1), Dot(a.r2, bt.r2)))
  }

  /** The identity leaves vectors and matrices unchanged and has determinant 1. */
  lemma IdentityNeutral(m: Mat3, v: Vec3)
    ensures MatVec(Identity3, v) == v
    ensures MatMul(Identity3, m) == m && MatMul(m, Identity3) == m
    ensures Det3(Identity3) == 1.0
  {
  }

  /** Applying a product is applying its factors in turn. */
  lemma MatMulApplies(a: Mat3, b: Mat3, v: Vec3)
    ensures MatVec(MatMul(a, b), v) == MatVec(a, MatVec(b, v))
  {
  }

  /** The 3x3 array whose rows are the matrix's rows. */
  function ToArray(m: Mat3): (a: Array)
    ensures HasShape(a, 3, 3)
  {
    [[m.r0.x, m.r0.y, m.r0.z], [m.r1.x, m.r1.y, m.r1.z], [m.r2.x, m.r2.y, m.r2.z]]
  }

  /** The matrix held in a 3x3 array; `ToArray` rebuilds the array from it. */
  function FromArray(a: Array): (m: Mat3)
    requires HasShape(a, 3, 3)
    ensures ToArray(m) == a
  {
    assert a[0] == [a[0][0], a[0][1], a[0][2]];
    assert a[1] == [a[1][0], a[1][1], a[1][2]];
    assert a[2] == [a[2][0], a[2][1], a[2][2]];
    Mat3(Vec3(a[0][0], a[0][1], a[0][2]),
         Vec3(a[1][0], a[1][1], a[1][2]),
         Vec3(a[2][0], a[2][1], a[2][2]))
  }

  lemma FromToArray(m: Mat3)
    ensures FromArray(ToArray(m)) == m
  {
  }

  /** Rotation about the x axis by the angle of cosine `c` and sine `s`. */
  function RotationX(c: real, s: real): (m: Mat3)
    ensures MatVec(m, Vec3(1.0, 0.0, 0.0)) == Vec3(1.0, 0.0, 0.0)
  {
    Mat3(Vec3(1.0, 0.0, 0.0),
         Vec3(0.0, c, s),
         Vec3(0.0, -s, c))
  }

  /** Rotation about the y axis by the angle of cosine `c` and sine `s`. */
  function RotationY(c: real, s: real): (m: Mat3)
    ensures MatVec(m, Vec3(0.0, 1.0, 0.0)) == Vec3(0.0, 1.0, 0.0)
  {
    Mat3(Vec3(c, 0.0, -s),
         Vec3(0.0, 1.0, 0.0),
         Vec3(s, 0.0, c))
  }

  /** Rotation about the z axis by the angle of cosine `c` and sine `s`. */
  function RotationZ(c: real, s: real): (m: Mat3)
    ensures MatVec(m, Vec3(0.0, 0.0, 1.0)) == Vec3(0.0, 0.0, 1.0)
  {
    Mat3(Vec3(c, s, 0.0),
         Vec3(-s, c, 0.0),
         Vec3(0.0, 0.0, 1.0))
  }

  /** The rotation about x as the 3x3 array the module returns. */
  function RotationMatrixX(c: real, s: real): (a: Array)
    ensures HasShape(a, 3, 3)
    ensures FromArray(a) == RotationX(c, s)
  {
    ToArray(RotationX(c, s))
  }

  /** The rotation about y as the 3x3 array the module returns. */
  function RotationMatrixY(c: real, s: real): (a: Array)
    ensures HasShape(a, 3, 3)
    ensures FromArray(a) == RotationY(c, s)
  {
    ToArray(RotationY(c, s))
  }

  /** The rotation about z as the 3x3 array the module returns. */
  function RotationMatrixZ(c: real, s: real): (a: Array)
    ensures HasShape(a, 3, 3)
    ensures FromArray(a) == RotationZ(c, s)
  {
    ToArray(RotationZ(c, s))
  }

  /** The determinant of each elementary rotation is `c^2 + s^2`, which is 1
      for the cosine and sine of an angle. */
  lemma RotationXDeterminant(c: real, s: real)
    ensures Det3(RotationX(c, s)) == c * c + s * s
  {
    CofactorsX(c, s, RotationX(c, s));
  }

  /** The cofactor expansion of the x rotation's entries. */
  lemma CofactorsX(c: real, s: real, m: Mat3)
    requires m == Mat3(Vec3(1.0, 0.0, 0.0), Vec3(0.0, c, s), Vec3(0.0, -s, c))
    ensures Det3(m) == c * c + s * s
  {
    assert s * (-s) == -(s * s);
  }

  lemma RotationYDeterminant(c: real, s: real)
    ensures Det3(RotationY(c, s)) == c * c + s * s
  {
    CofactorsY(c, s, RotationY(c, s));
  }

  /** The cofactor expansion of the y rotation's entries. */
  lemma CofactorsY(c: real, s: real, m: Mat3)
    requires m == Mat3(Vec3(c, 0.0, -s), Vec3(0.0, 1.0, 0.0), Vec3(s, 0.0, c))
    ensures Det3(m) == c * c + s * s
  {
    assert (-s) * (0.0 * 0.0 - 1.0 * s) == s * s;
  }

  lemma RotationZDeterminant(c: real, s: real)
    ensures Det3(RotationZ(c, s)) == c * c + s * s
  {
    CofactorsZ(c, s, RotationZ(c, s));
  }

  /** The cofactor expansion of the z rotation's entries. */
  lemma CofactorsZ(c: real, s: real, m: Mat3)
    requires m == Mat3(Vec3(c, s, 0.0), Vec3(-s, c, 0.0), Vec3(0.0, 0.0, 1.0))
    ensures Det3(m) == c * c + s * s
  {
    assert s * (-s) == -(s * s);
  }

  /** A matrix whose inverse is its transpose. */
  predicate Orthogonal(m: Mat3) {
    MatMul(m, Transpose(m)) == Identity3
  }

  /** A rotation times the rotation by the opposite angle, for any `(c, s)`:
      the identity scaled by `c^2 + s^2` off the fixed axis. */
  lemma RotationXProduct(c: real, s: real)
    ensures RotationX(c, -s) == Transpose(RotationX(c, s))
    ensures MatMul(RotationX(c, s), RotationX(c, -s))
         == Mat3(Vec3(1.0, 0.0, 0.0), Vec3(0.0, c * c + s * s, 0.0), Vec3(0.0, 0.0, c * c + s * s))
  {
    var a := RotationX(c, s);
    assert Transpose(RotationX(c, -s)) == a;
    assert (-s) * (-s) == s * s && c * (-s) + (-s) * c == -(c * s + s * c);
    assert Dot(a.r1, a.r1) == c * c + s * s;
    assert Dot(a.r2, a.r2) == c * c + s * s;
    assert Dot(a.r1, a.r2) == 0.0 && Dot(a.r2, a.r1) == 0.0;
  }

  lemma RotationYProduct(c: real, s: real)
    ensures RotationY(c, -s) == Transpose(RotationY(c, s))
    ensures MatMul(RotationY(c, s), RotationY(c, -s))
         == Mat3(Vec3(c * c + s * s, 0.0, 0.0), Vec3(0.0, 1.0, 0.0), Vec3(0.0, 0.0, c * c + s * s))
  {
    var a := RotationY(c, s);
    assert Transpose(RotationY(c, -s)) == a;
    assert (-s) * (-s) == s * s && c * (-s) + (-s) * c == -(c * s + s * c);
    assert Dot(a.r0, a.r0) == c * c + s * s;
    assert Dot(a.r2, a.r2) == c * c + s * s;
    assert Dot(a.r0, a.r2) == 0.0 && Dot(a.r2, a.r0) == 0.0;
  }

  lemma RotationZProduct(c: real, s: real)
    ensures RotationZ(c, -s) == Transpose(RotationZ(c, s))
    ensures MatMul(RotationZ(c, s), RotationZ(c, -s))
         == Mat3(Vec3(c * c + s * s, 0.0, 0.0), Vec3(0.0, c * c + s * s, 0.0), Vec3(0.0, 0.0, 1.0))
  {
    var a := RotationZ(c, s);
    assert Transpose(RotationZ(c, -s)) == a;
    assert (-s) * (-s) == s * s && c * (-s) + (-s) * c == -(c * s + s * c);
    assert Dot(a.r0, a.r0) == c * c + s * s;
    assert Dot(a.r1, a.r1) == c * c + s * s;
    assert Dot(a.r0, a.r1) == 0.0 && Dot(a.r1, a.r0) == 0.0;
  }

  /** For the cosine and sine of an angle, rotating back by the opposite angle
      undoes a rotation: its inverse is its transpose. */
  lemma {:induction false} RotationXInverse(c: real, s: real)
    requires c * c + s * s == 1.0
    ensures MatMul(RotationX(c, s), RotationX(c, -s)) == Identity3
    ensures Orthogonal(RotationX(c, s))
  {
    RotationXProduct(c, s);
  }

  lemma {:induction false} RotationYInverse(c: real, s: real)
    requires c * c + s * s == 1.0
    ensures MatMul(RotationY(c, s), RotationY(c, -s)) == Identity3
    ensures Orthogonal(RotationY(c, s))
  {
    RotationYProduct(c, s);
  }

  lemma {:induction false} RotationZInverse(c: real, s: real)
    requires c * c + s * s == 1.0
    ensures MatMul(RotationZ(c, s), RotationZ(c, -s)) == Identity3
    ensures Orthogonal(RotationZ(c, s))
  {
    RotationZProduct(c, s);
  }

  /** An orthogonal matrix preserves scalar products, hence lengths and angles. */
  lemma {:induction false} OrthogonalPreservesDot(m: Mat3, u: Vec3, v: Vec3)
    requires Orthogonal(Transpose(m))
    ensures Dot(MatVec(m, u), MatVec(m, v)) == Dot(u, v)
  {
    var mt := Transpose(m);
    assert MatMul(mt, Transpose(mt)) == Identity3;
    assert Transpose(mt) == m;
  }
}
