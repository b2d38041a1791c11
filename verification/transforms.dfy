/** Homogeneous transforms: the determinant test for rotation matrices, the
    4x4 operator built from a rotation and an origin, and its application to
    a 3x1 vector through homogeneous coordinates. */
module Transforms {
  import opened Numerics
  import opened Errors
  import opened Vectors
  import opened Shapes
  import opened Rotations

  /** The default rotation (the 3x3 identity) and origin (the zero column). */
  const DefaultRotation: Array := ToArray(Identity3)
  const DefaultOrigin: Array := Column(Zero)

  /** Accepts a 3x3 matrix whose determinant is within `detTol` of 1. A negative
      tolerance is refused before the matrix is looked at. */
  function CheckRotation(m: Array, detTol: real): (r: Check)
    ensures detTol < 0.0 ==> r == Fail(NegativeDetTolerance)
    ensures detTol >= 0.0 && !HasShape(m, 3, 3) ==> r == Fail(MatrixNot3x3)
    ensures detTol >= 0.0 && HasShape(m, 3, 3) ==>
      r == (if Abs(1.0 - Det3(FromArray(m))) <= detTol then Pass else Fail(NotARotation))
  {
    if detTol < 0.0 then Fail(NegativeDetTolerance)
    else if CheckMatrix33(m).Fail? then CheckMatrix33(m)
    else if Abs(1.0 - Det3(FromArray(m))) > detTol then Fail(NotARotation)
    else Pass
  }

  /** A matrix accepted at some tolerance is accepted at every larger one. */
  lemma CheckRotationMonotone(m: Array, detTol: real, larger: real)
    requires CheckRotation(m, detTol).Pass?
    requires detTol <= larger
    ensures CheckRotation(m, larger).Pass?
  {
  }

  /** A 3x3 matrix of determinant exactly 1 passes at every non-negative
      tolerance. */
  lemma UnitDeterminantPasses(m: Array, detTol: real)
    requires HasShape(m, 3, 3) && Det3(FromArray(m)) == 1.0
    requires detTol >= 0.0
    ensures CheckRotation(m, detTol) == Pass
  {
  }

  /** The elementary rotations built from the cosine and sine of an angle pass
      the determinant test at every non-negative tolerance. */
  lemma {:induction false} RotationXPasses(c: real, s: real, detTol: real)
    requires c * c + s * s == 1.0
    requires detTol >= 0.0
    ensures CheckRotation(RotationMatrixX(c, s), detTol) == Pass
  {
    RotationXDeterminant(c, s);
    UnitDeterminantPasses(RotationMatrixX(c, s), detTol);
  }

  lemma {:induction false} RotationYPasses(c: real, s: real, detTol: real)
    requires c * c + s * s == 1.0
    requires detTol >= 0.0
    ensures CheckRotation(RotationMatrixY(c, s), detTol) == Pass
  {
    RotationYDeterminant(c, s);
    UnitDeterminantPasses(RotationMatrixY(c, s), detTol);
  }

  lemma {:induction false} RotationZPasses(c: real, s: real, detTol: real)
    requires c * c + s * s == 1.0
    requires detTol >= 0.0
    ensures CheckRotation(RotationMatrixZ(c, s), detTol) == Pass
  {
    RotationZDeterminant(c, s);
    UnitDeterminantPasses(RotationMatrixZ(c, s), detTol);
  }

  /** A matrix stretching one axis by 2 has determinant 2 and is refused at
      every tolerance below 1. */
  lemma {:induction false} StretchRejected(detTol: real)
    requires 0.0 <= detTol < 1.0
    ensures CheckRotation(ToArray(Mat3(Vec3(2.0, 0.0, 0.0), Vec3(0.0, 1.0, 0.0), Vec3(0.0, 0.0, 1.0))), detTol)
         == Fail(NotARotation)
  {
    var m := Mat3(Vec3(2.0, 0.0, 0.0), Vec3(0.0, 1.0, 0.0), Vec3(0.0, 0.0, 1.0));
    FromToArray(m);
    assert Det3(m) == 2.0;
  }

  /** The 4x4 homogeneous operator `[[R, o], [0, 0, 0, 1]]`, after checking that
      `R` is a rotation and `o` a 3x1 column, in that order. */
  function MakeOperator4(m: Array, o: Array, detTol: real): (r: Result<Array>)
    ensures r.Ok? <==> CheckRotation(m, detTol).Pass? && IsColumn3(o)
    ensures CheckRotation(m, detTol).Fail? ==> r == Err(CheckRotation(m, detTol).error)
    ensures CheckRotation(m, detTol).Pass? && !IsColumn3(o) ==> r == Err(VectorNot3x1)
    ensures r.Ok? ==> CheckMatrix44(r.value).Pass?
    ensures r.Ok? ==> forall i, j :: 0 <= i < 3 && 0 <= j < 3 ==> r.value[i][j] == m[i][j]
    ensures r.Ok? ==> forall i :: 0 <= i < 3 ==> r.value[i][3] == o[i][0]
    ensures r.Ok? ==> r.value[3] == [0.0, 0.0, 0.0, 1.0]
  {
    if CheckRotation(m, detTol).Fail? then Err(CheckRotation(m, detTol).error)
    else if CheckVector3(o).Fail? then Err(CheckVector3(o).error)
    else Ok([m[0] + o[0], m[1] + o[1], m[2] + o[2], [0.0, 0.0, 0.0, 1.0]])
  }

  /** `sum over k of row[k] * b[k][j]`, entry `j` of `row @ b`. */
  function RowTimesColumn(row: seq<real>, b: Array, j: nat): real
    requires |b| == |row|
    requires forall k :: 0 <= k < |b| ==> j < |b[k]|
    decreases |row|
  {
    if |row| == 0 then 0.0 else row[0] * b[0][j] + RowTimesColumn(row[1..], b[1..], j)
  }

  /** The sum of a row of four against a column, written out. */
  lemma {:induction false} RowTimesColumn4(row: seq<real>, b: Array, j: nat)
    requires |row| == 4 && |b| == 4
    requires forall k :: 0 <= k < 4 ==> j < |b[k]|
    ensures RowTimesColumn(row, b, j)
         == row[0] * b[0][j] + row[1] * b[1][j] + row[2] * b[2][j] + row[3] * b[3][j]
  {
    var r1, b1 := row[1..], b[1..];
    var r2, b2 := r1[1..], b1[1..];
    var r3, b3 := r2[1..], b2[1..];
    var r4, b4 := r3[1..], b3[1..];
    assert |r4| == 0;
    assert RowTimesColumn(r3, b3, j) == row[3] * b[3][j];
    assert RowTimesColumn(r2, b2, j) == row[2] * b[2][j] + row[3] * b[3][j];
    assert RowTimesColumn(r1, b1, j) == row[1] * b[1][j] + row[2] * b[2][j] + row[3] * b[3][j];
  }

  /** NumPy's matrix product `a @ b` of an `n x p` array by a `p x q` array.
      The entry-wise postcondition is the definition of `@`; what the product
      means is stated by `MatrixProductOfMatrices` and `OperatorApplies`. */
  function MatrixProduct(a: Array, b: Array, p: nat, q: nat): (r: Array)
    requires HasShape(a, |a|, p) && HasShape(b, p, q)
    ensures HasShape(r, |a|, q)
    ensures forall i, j :: 0 <= i < |a| && 0 <= j < q ==> r[i][j] == RowTimesColumn(a[i], b, j)
  {
    seq(|a|, i requires 0 <= i < |a| => seq(q, j requires 0 <= j < q => RowTimesColumn(a[i], b, j)))
  }

  /** The sum of a row of three against a column, written out. */
  lemma {:induction false} RowTimesColumn3(row: seq<real>, b: Array, j: nat)
    requires |row| == 3 && |b| == 3
    requires forall k :: 0 <= k < 3 ==> j < |b[k]|
    ensures RowTimesColumn(row, b, j) == row[0] * b[0][j] + row[1] * b[1][j] + row[2] * b[2][j]
  {
    var r1, b1 := row[1..], b[1..];
    var r2, b2 := r1[1..], b1[1..];
    var r3, b3 := r2[1..], b2[1..];
    assert |r3| == 0;
    assert RowTimesColumn(r2, b2, j) == row[2] * b[2][j];
    assert RowTimesColumn(r1, b1, j) == row[1] * b[1][j] + row[2] * b[2][j];
  }

  /** Row `i` of the array product of two 3x3 arrays is row `i` of `a` times
      `b`. */
  lemma {:induction false} MatrixProductRow(a: Mat3, b: Mat3, i: nat)
    requires i < 3
    ensures MatrixProduct(ToArray(a), ToArray(b), 3, 3)[i] == ToArray(MatMul(a, b))[i]
  {
    var x, y := ToArray(a), ToArray(b);
    var row := x[i];
    var r := MatrixProduct(x, y, 3, 3)[i];
    RowTimesColumn3(row, y, 0);
    RowTimesColumn3(row, y, 1);
    RowTimesColumn3(row, y, 2);
    assert |r| == 3;
    assert r[0] == row[0] * y[0][0] + row[1] * y[1][0] + row[2] * y[2][0];
    assert r[1] == row[0] * y[0][1] + row[1] * y[1][1] + row[2] * y[2][1];
    assert r[2] == row[0] * y[0][2] + row[1] * y[1][2] + row[2] * y[2][2];
    var v := if i == 0 then a.r0 else if i == 1 then a.r1 else a.r2;
    assert row == [v.x, v.y, v.z];
    var bt := Transpose(b);
    assert ToArray(MatMul(a, b))[i] == [Dot(v, bt.r0), Dot(v, bt.r1), Dot(v, bt.r2)];
    assert y[0] == [b.r0.x, b.r0.y, b.r0.z] && y[1] == [b.r1.x, b.r1.y, b.r1.z] && y[2] == [b.r2.x, b.r2.y, b.r2.z];
    assert Dot(v, bt.r0) == v.x * b.r0.x + v.y * b.r1.x + v.z * b.r2.x;
    assert Dot(v, bt.r1) == v.x * b.r0.y + v.y * b.r1.y + v.z * b.r2.y;
    assert Dot(v, bt.r2) == v.x * b.r0.z + v.y * b.r1.z + v.z * b.r2.z;
    assert row[0] == v.x && row[1] == v.y && row[2] == v.z;
    assert y[0][0] == b.r0.x && y[1][0] == b.r1.x && y[2][0] == b.r2.x;
    assert r[0] == Dot(v, bt.r0);
    assert r[1] == Dot(v, bt.r1);
    assert r[2] == Dot(v, bt.r2);
    assert r == [Dot(v, bt.r0), Dot(v, bt.r1), Dot(v, bt.r2)];
  }

  /** On 3x3 arrays the array product agrees with the matrix product of
      `Mat3`, whose entry `(i, j)` is row `i` of `a` dotted with column `j`
      of `b`. */
  lemma {:induction false} MatrixProductOfMatrices(a: Mat3, b: Mat3)
    ensures MatrixProduct(ToArray(a), ToArray(b), 3, 3) == ToArray(MatMul(a, b))
  {
    var x, y := ToArray(a), ToArray(b);
    var r, m := MatrixProduct(x, y, 3, 3), ToArray(MatMul(a, b));
    MatrixProductRow(a, b, 0);
    MatrixProductRow(a, b, 1);
    MatrixProductRow(a, b, 2);
    assert r == [r[0], r[1], r[2]];
  }

  /** Rows 0-2 of `T @ [v; 1]`, for the operator `T` of `(R, o)`, are `R v + o`. */
  lemma {:induction false} OperatorApplies(t: Array, m: Array, o: Array, vb: Array)
    requires HasShape(m, 3, 3) && IsColumn3(o) && IsColumn3(vb)
    requires t == [m[0] + o[0], m[1] + o[1], m[2] + o[2], [0.0, 0.0, 0.0, 1.0]]
    ensures MatrixProduct(t, vb + [[1.0]], 4, 1)[0..3]
         == Column(Add(MatVec(FromArray(m), Entries(vb)), Entries(o)))
  {
    var v4 := vb + [[1.0]];
    var r := MatrixProduct(t, v4, 4, 1);
    var v := Entries(vb);
    var mm := FromArray(m);
    RowTimesColumn4(t[0], v4, 0);
    RowTimesColumn4(t[1], v4, 0);
    RowTimesColumn4(t[2], v4, 0);
    assert v4[0][0] == v.x && v4[1][0] == v.y && v4[2][0] == v.z && v4[3][0] == 1.0;
    assert t[0][0] == mm.r0.x && t[0][1] == mm.r0.y && t[0][2] == mm.r0.z && t[0][3] == o[0][0];
    assert t[1][0] == mm.r1.x && t[1][1] == mm.r1.y && t[1][2] == mm.r1.z && t[1][3] == o[1][0];
    assert t[2][0] == mm.r2.x && t[2][1] == mm.r2.y && t[2][2] == mm.r2.z && t[2][3] == o[2][0];
    assert r[0][0] == t[0][0] * v4[0][0] + t[0][1] * v4[1][0] + t[0][2] * v4[2][0] + t[0][3] * v4[3][0];
    assert |r[0]| == 1 && r[0][0] == Dot(mm.r0, v) + o[0][0];
    assert r[1][0] == t[1][0] * v4[0][0] + t[1][1] * v4[1][0] + t[1][2] * v4[2][0] + t[1][3] * v4[3][0];
    assert |r[1]| == 1 && r[1][0] == Dot(mm.r1, v) + o[1][0];
    assert r[2][0] == t[2][0] * v4[0][0] + t[2][1] * v4[1][0] + t[2][2] * v4[2][0] + t[2][3] * v4[3][0];
    assert |r[2]| == 1 && r[2][0] == Dot(mm.r2, v) + o[2][0];
    assert r[0] == [Dot(mm.r0, v) + o[0][0]];
    assert r[1] == [Dot(mm.r1, v) + o[1][0]];
    assert r[2] == [Dot(mm.r2, v) + o[2][0]];
    assert r[0..3] == [r[0], r[1], r[2]];
  }

  /** Writes the vector `v_b`, given in frame b, in frame a: `R v_b + o` for the
      rotation `R` from b to a and the origin `o` of b written in a. The input
      vector is checked first, then the operator. */
  function TransformVector(vb: Array, m: Array, o: Array, detTol: real): (r: Result<Array>)
    ensures r.Ok? <==> IsColumn3(vb) && MakeOperator4(m, o, detTol).Ok?
    ensures !IsColumn3(vb) ==> r == Err(VectorNot3x1)
    ensures IsColumn3(vb) && MakeOperator4(m, o, detTol).Err? ==> r == Err(MakeOperator4(m, o, detTol).error)
    ensures r.Ok? ==> r.value == Column(Add(MatVec(FromArray(m), Entries(vb)), Entries(o)))
  {
    if CheckVector3(vb).Fail? then Err(CheckVector3(vb).error)
    else
      var t :- MakeOperator4(m, o, detTol);
      var vb4 := MakeVector4(vb).value;
      OperatorApplies(t, m, o, vb);
      Ok(MatrixProduct(t, vb4, 4, 1)[0..3])
  }

  /** With the identity rotation and a zero origin, the defaults, a vector is
      returned unchanged. */
  lemma {:induction false} TransformIdentity(vb: Array, detTol: real)
    requires IsColumn3(vb) && detTol >= 0.0
    ensures TransformVector(vb, DefaultRotation, DefaultOrigin, detTol) == Ok(vb)
  {
    FromToArray(Identity3);
    assert Det3(Identity3) == 1.0;
    UnitDeterminantPasses(DefaultRotation, detTol);
    EntriesOfColumn(Zero);
    var v := Entries(vb);
    assert MatVec(Identity3, v) == v;
    assert Add(v, Zero) == v;
  }

  /** Transforming by `(R1, o1)` and then by `(R2, o2)` is transforming by the
      composed pair `(R2 R1, R2 o1 + o2)`. */
  lemma {:induction false} TransformCompose(r1: Mat3, o1: Vec3, r2: Mat3, o2: Vec3, v: Vec3)
    ensures Add(MatVec(r2, Add(MatVec(r1, v), o1)), o2)
         == Add(MatVec(MatMul(r2, r1), v), Add(MatVec(r2, o1), o2))
  {
    MatMulApplies(r2, r1, v);
    MatVecLinear(r2, MatVec(r1, v), o1);
  }

  /** A matrix-vector product distributes over a sum. */
  lemma MatVecLinear(m: Mat3, a: Vec3, b: Vec3)
    ensures MatVec(m, Add(a, b)) == Add(MatVec(m, a), MatVec(m, b))
  {
  }

  /** For an orthogonal `R`, the transform `(R^T, -R^T o)` undoes `(R, o)`. */
  lemma {:induction false} TransformInverse(r: Mat3, o: Vec3, v: Vec3)
    requires MatMul(Transpose(r), r) == Identity3
    ensures Add(MatVec(Transpose(r), Add(MatVec(r, v), o)), Scale(-1.0, MatVec(Transpose(r), o))) == v
  {
    TransformCompose(r, o, Transpose(r), Scale(-1.0, MatVec(Transpose(r), o)), v);
    IdentityNeutral(r, v);
  }
}
