/** NumPy arrays as lists of rows, the shape validators of the geometry
    module, its two vector builders, and the broadcasting subtraction the
    line routines apply to position vectors. */
module Shapes {
  import opened Errors
  import opened Vectors

  /** A two-dimensional NumPy array of floats, as its list of rows. */
  type Array = seq<seq<real>>

  /** `a.shape == (rows, cols)`. */
  predicate HasShape(a: Array, rows: nat, cols: nat) {
    |a| == rows && forall i :: 0 <= i < |a| ==> |a[i]| == cols
  }

  /** A 3x1 column vector. */
  predicate IsColumn3(a: Array) {
    HasShape(a, 3, 1)
  }

  /** The 3x1 column holding the components of `v`. */
  function Column(v: Vec3): (a: Array)
    ensures IsColumn3(a)
  {
    [[v.x], [v.y], [v.z]]
  }

  /** The components of a 3x1 column; `Column` rebuilds the column from them. */
  function Entries(a: Array): (v: Vec3)
    requires IsColumn3(a)
    ensures Column(v) == a
  {
    assert a[0] == [a[0][0]] && a[1] == [a[1][0]] && a[2] == [a[2][0]];
    Vec3(a[0][0], a[1][0], a[2][0])
  }

  lemma EntriesOfColumn(v: Vec3)
    ensures Entries(Column(v)) == v
  {
  }

  /** A three-dimensional NumPy array, as its list of two-dimensional slices. */
  type Array3 = seq<Array>

  /** `b.shape == (n, rows, cols)`. */
  predicate HasShape3(b: Array3, n: nat, rows: nat, cols: nat) {
    |b| == n && forall i :: 0 <= i < |b| ==> HasShape(b[i], rows, cols)
  }

  /** The shape tuple of a three-dimensional array, its extents read from the
      first entries (0 past an empty level). */
  function Shape3(b: Array3): (s: seq<nat>)
    ensures |s| == 3 && s[0] == |b|
    ensures HasShape3(b, 3, 1, 1) ==> s == [3, 1, 1]
  {
    var rows := if |b| == 0 then 0 else |b[0]|;
    var cols := if |b| == 0 || |b[0]| == 0 then 0 else |b[0][0]|;
    [|b|, rows, cols]
  }

  /** The 3x1 validator handed an array of three dimensions: it compares the
      shape tuple with `(3, 1)`, which a tuple of three extents never equals,
      so it raises whatever the entries. */
  function CheckVector3OfRank3(b: Array3): (r: Check)
    ensures r == Fail(VectorNot3x1)
  {
    if Shape3(b) != [3, 1] then Fail(VectorNot3x1) else Pass
  }

  /** The (3, 1, 1) array with its last axis dropped: the 3x1 column of the
      same entries. */
  function Squeeze(b: Array3): (a: Array)
    requires HasShape3(b, 3, 1, 1)
    ensures IsColumn3(a)
    ensures forall i :: 0 <= i < 3 ==> a[i][0] == b[i][0][0]
  {
    [b[0][0], b[1][0], b[2][0]]
  }

  /** Builds a 3x1 column from a list; only a list of exactly three numbers is
      accepted, and its entries keep their order. */
  function MakeVector3(l: seq<real>): (r: Result<Array>)
    ensures r.Ok? <==> |l| == 3
    ensures r.Err? ==> r.error == ListNotLength3
    ensures r.Ok? ==> IsColumn3(r.value) && forall i :: 0 <= i < 3 ==> r.value[i][0] == l[i]
  {
    if |l| != 3 then Err(ListNotLength3) else Ok([[l[0]], [l[1]], [l[2]]])
  }

  /** Raises unless the array is 3x1. */
  function CheckVector3(v: Array): (r: Check)
    ensures r.Pass? <==> IsColumn3(v)
    ensures r.Fail? ==> r.error == VectorNot3x1
  {
    if HasShape(v, 3, 1) then Pass else Fail(VectorNot3x1)
  }

  /** Raises unless the array is 4x1. */
  function CheckVector4(v: Array): (r: Check)
    ensures r.Pass? <==> HasShape(v, 4, 1)
    ensures r.Fail? ==> r.error == VectorNot4x1
  {
    if HasShape(v, 4, 1) then Pass else Fail(VectorNot4x1)
  }

  /** Raises unless the array is 3x3. */
  function CheckMatrix33(m: Array): (r: Check)
    ensures r.Pass? <==> HasShape(m, 3, 3)
    ensures r.Fail? ==> r.error == MatrixNot3x3
  {
    if HasShape(m, 3, 3) then Pass else Fail(MatrixNot3x3)
  }

  /** Raises unless the array is 4x4. */
  function CheckMatrix44(m: Array): (r: Check)
    ensures r.Pass? <==> HasShape(m, 4, 4)
    ensures r.Fail? ==> r.error == MatrixNot4x4
  {
    if HasShape(m, 4, 4) then Pass else Fail(MatrixNot4x4)
  }

  /** Every list of three numbers makes a column that the 3x1 validator
      accepts, and whose components are the list's, in order. */
  lemma {:induction false} MakeVector3Accepted(l: seq<real>)
    requires |l| == 3
    ensures MakeVector3(l).Ok?
    ensures CheckVector3(MakeVector3(l).value).Pass?
    ensures Entries(MakeVector3(l).value) == Vec3(l[0], l[1], l[2])
  {
    var a := MakeVector3(l).value;
    assert a == [[l[0]], [l[1]], [l[2]]];
  }

  /** Appends the row `[1]` below an array of one column: the homogeneous
      coordinates of a point. Concatenation fails for any other column count. */
  function MakeVector4(v3: Array): (r: Result<Array>)
    ensures r.Ok? <==> HasShape(v3, |v3|, 1)
    ensures r.Err? ==> r.error == ConcatenateMismatch
    ensures r.Ok? ==> HasShape(r.value, |v3| + 1, 1) && r.value[..|v3|] == v3 && r.value[|v3|] == [1.0]
  {
    if HasShape(v3, |v3|, 1) then Ok(v3 + [[1.0]]) else Err(ConcatenateMismatch)
  }

  /** The homogeneous column of a 3x1 vector is 4x1, passes the 4x1 validator,
      and reads `[x, y, z, 1]`. */
  lemma {:induction false} MakeVector4OfColumn(v: Vec3)
    ensures MakeVector4(Column(v)) == Ok([[v.x], [v.y], [v.z], [1.0]])
    ensures CheckVector4(MakeVector4(Column(v)).value).Pass?
  {
    assert Column(v) + [[1.0]] == [[v.x], [v.y], [v.z], [1.0]];
  }

  /** The number of columns, read from the first row (0 for no rows). */
  function Cols(a: Array): nat {
    if |a| == 0 then 0 else |a[0]|
  }

  /** Every row has the same length, as in any NumPy array. */
  predicate Rectangular(a: Array) {
    HasShape(a, |a|, Cols(a))
  }

  /** Two extents broadcast against each other when equal or when one is 1. */
  predicate Broadcastable(n: nat, m: nat) {
    n == m || n == 1 || m == 1
  }

  /** The extent of the broadcast result. */
  function Broadcast(n: nat, m: nat): (r: nat)
    requires Broadcastable(n, m)
    ensures (n == 1 || r == n) && (m == 1 || r == m)
  {
    if n == 1 then m else n
  }

  /** Entry `(i, j)` of `a` stretched along its extents of length 1. */
  function Stretched(a: Array, i: nat, j: nat): real
    requires Rectangular(a)
    requires |a| == 1 || i < |a|
    requires Cols(a) == 1 || j < Cols(a)
  {
    var row := if |a| == 1 then 0 else i;
    var col := if Cols(a) == 1 then 0 else j;
    a[row][col]
  }

  /** NumPy's `a - b` on two-dimensional arrays, with broadcasting. */
  function Difference(a: Array, b: Array): (r: Result<Array>)
    ensures r.Ok? <==>
      Rectangular(a) && Rectangular(b) && Broadcastable(|a|, |b|) && Broadcastable(Cols(a), Cols(b))
    ensures r.Err? ==> r.error == BroadcastMismatch
    ensures r.Ok? ==> HasShape(r.value, Broadcast(|a|, |b|), Broadcast(Cols(a), Cols(b)))
  {
    if Rectangular(a) && Rectangular(b) && Broadcastable(|a|, |b|) && Broadcastable(Cols(a), Cols(b)) then
      var rows := Broadcast(|a|, |b|);
      var cols := Broadcast(Cols(a), Cols(b));
      Ok(seq(rows, i requires 0 <= i < rows =>
        seq(cols, j requires 0 <= j < cols => Stretched(a, i, j) - Stretched(b, i, j))))
    else
      Err(BroadcastMismatch)
  }

  /** On two 3x1 columns the difference is the column of the component-wise
      difference. */
  lemma {:induction false} DifferenceOfColumns(a: Array, b: Array)
    requires IsColumn3(a) && IsColumn3(b)
    ensures Difference(a, b) == Ok(Column(Sub(Entries(a), Entries(b))))
  {
    var r := Difference(a, b).value;
    assert r[0] == [a[0][0] - b[0][0]];
    assert r[1] == [a[1][0] - b[1][0]];
    assert r[2] == [a[2][0] - b[2][0]];
    assert r == Column(Sub(Entries(a), Entries(b)));
  }

  /** A 1x1 array broadcasts against a 3x1 column: it is subtracted from every
      component. */
  lemma {:induction false} DifferenceWithScalar(a: Array, k: real)
    requires IsColumn3(a)
    ensures Difference(a, [[k]]) == Ok(Column(Sub(Entries(a), Vec3(k, k, k))))
  {
    var r := Difference(a, [[k]]).value;
    assert r[0] == [a[0][0] - k];
    assert r[1] == [a[1][0] - k];
    assert r[2] == [a[2][0] - k];
    assert r == Column(Sub(Entries(a), Vec3(k, k, k)));
  }
}
