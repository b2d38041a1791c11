/** The array-level vector operations of the geometry module. Each validates
    that its arguments are 3x1 columns, raising otherwise, and then computes
    on their components. A zero divisor (projecting on, or taking the angle
    with, a zero vector) is excluded by a precondition. */
module Algebra {
  import opened Numerics
  import opened Errors
  import opened Vectors
  import opened Shapes

  /** Both arguments are 3x1 columns. */
  predicate Columns(v1: Array, v2: Array) {
    IsColumn3(v1) && IsColumn3(v2)
  }

  /** The scalar product `v1.T @ v2`. */
  function DotProduct(v1: Array, v2: Array): (r: Result<real>)
    ensures r.Ok? <==> Columns(v1, v2)
    ensures r.Err? ==> r.error == VectorNot3x1
    ensures r.Ok? ==> r.value == Dot(Entries(v1), Entries(v2))
  {
    if CheckVector3(v1).Fail? then Err(CheckVector3(v1).error)
    else if CheckVector3(v2).Fail? then Err(CheckVector3(v2).error)
    else Ok(Dot(Entries(v1), Entries(v2)))
  }

  /** The scalar product does not depend on the order of its arguments. */
  lemma DotProductSymmetric(v1: Array, v2: Array)
    ensures DotProduct(v1, v2) == DotProduct(v2, v1)
  {
    if Columns(v1, v2) {
      DotSymmetric(Entries(v1), Entries(v2));
    }
  }

  /** The Euclidean norm `sqrt(v.v)`: non-negative, its square is `v.v`, and
      zero only for the zero vector. */
  function VectorNorm(t: Transcendentals, v: Array): (r: Result<real>)
    requires t.Valid()
    ensures r.Ok? <==> IsColumn3(v)
    ensures r.Err? ==> r.error == VectorNot3x1
    ensures r.Ok? ==> r.value >= 0.0 && r.value * r.value == Dot(Entries(v), Entries(v))
    ensures r.Ok? ==> (r.value == 0.0 <==> IsZero(Entries(v)))
  {
    var d :- DotProduct(v, v);
    Ok(Norm(t, Entries(v)))
  }

  /** The cross product `v1 x v2` as the module builds it. Indexing a 3x1
      array by one index yields a row, a one-entry array, so each entry
      `v1[1]*v2[2] - v1[2]*v2[1]` of the nested list is itself a one-entry
      array and the result has shape (3, 1, 1): its entries are the components
      of the cross product, but no 3x1 validator accepts it. */
  function CrossProduct(v1: Array, v2: Array): (r: Result<Array3>)
    ensures r.Ok? <==> Columns(v1, v2)
    ensures r.Err? ==> r.error == VectorNot3x1
    ensures r.Ok? ==> HasShape3(r.value, 3, 1, 1)
    ensures r.Ok? ==> Entries(Squeeze(r.value)) == Cross(Entries(v1), Entries(v2))
    ensures r.Ok? ==> CheckVector3OfRank3(r.value).Fail?
  {
    if CheckVector3(v1).Fail? then Err(CheckVector3(v1).error)
    else if CheckVector3(v2).Fail? then Err(CheckVector3(v2).error)
    else
      var c := Cross(Entries(v1), Entries(v2));
      Ok([[[c.x]], [[c.y]], [[c.z]]])
  }

  /** The cross product as the 3x1 column the module documents: the
      (3, 1, 1) result with its last axis dropped. It is orthogonal to both
      operands. */
  function CrossColumn(v1: Array, v2: Array): (r: Result<Array>)
    ensures r.Ok? <==> Columns(v1, v2)
    ensures r.Err? ==> r.error == VectorNot3x1
    ensures r.Ok? ==> IsColumn3(r.value) && Entries(r.value) == Cross(Entries(v1), Entries(v2))
    ensures r.Ok? ==> DotProduct(r.value, v1) == Ok(0.0) && DotProduct(r.value, v2) == Ok(0.0)
  {
    var b :- CrossProduct(v1, v2);
    Ok(Squeeze(b))
  }

  /** Swapping the operands of the cross product negates it. */
  lemma {:induction false} CrossProductAntiCommutative(v1: Array, v2: Array)
    requires Columns(v1, v2)
    ensures CrossProduct(v2, v1).Ok? && CrossProduct(v1, v2).Ok?
    ensures Entries(Squeeze(CrossProduct(v2, v1).value)) == Scale(-1.0, Entries(Squeeze(CrossProduct(v1, v2).value)))
  {
    CrossAntiCommutative(Entries(v1), Entries(v2));
  }

  /** The projection of `v1` on `v2`, `(v1.v2 / v2.v2) v2`: a column collinear
      with `v2` whose residual is orthogonal to `v2`. */
  function Projection(v1: Array, v2: Array): (r: Result<Array>)
    requires Columns(v1, v2) ==> !IsZero(Entries(v2))
    ensures r.Ok? <==> Columns(v1, v2)
    ensures r.Err? ==> r.error == VectorNot3x1
    ensures r.Ok? ==> IsColumn3(r.value)
    ensures r.Ok? ==> IsZero(Cross(Entries(r.value), Entries(v2)))
    ensures r.Ok? ==> Dot(Sub(Entries(v1), Entries(r.value)), Entries(v2)) == 0.0
  {
    if CheckVector3(v1).Fail? then Err(CheckVector3(v1).error)
    else if CheckVector3(v2).Fail? then Err(CheckVector3(v2).error)
    else Ok(Column(Project(Entries(v1), Entries(v2))))
  }

  /** Projecting a projection on the same vector returns it unchanged. */
  lemma {:induction false} ProjectionIdempotent(v1: Array, v2: Array)
    requires Columns(v1, v2) && !IsZero(Entries(v2))
    ensures Projection(v1, v2).Ok?
    ensures Projection(Projection(v1, v2).value, v2) == Projection(v1, v2)
  {
    var p := Project(Entries(v1), Entries(v2));
    EntriesOfColumn(p);
    ProjectIdempotent(Entries(v1), Entries(v2));
  }

  /** The length of the projection of `v1` on `v2`: `|v1.v2| / |v2|`. */
  function ProjectionSize(t: Transcendentals, v1: Array, v2: Array): (r: Result<real>)
    requires t.Valid()
    requires Columns(v1, v2) ==> !IsZero(Entries(v2))
    ensures r.Ok? <==> Columns(v1, v2)
    ensures r.Err? ==> r.error == VectorNot3x1
    ensures r.Ok? ==> r.value >= 0.0
    ensures r.Ok? ==> r.value * Norm(t, Entries(v2)) == Abs(Dot(Entries(v1), Entries(v2)))
  {
    var p :- Projection(v1, v2);
    EntriesOfColumn(Project(Entries(v1), Entries(v2)));
    ProjectionLength(t, Entries(v1), Entries(v2));
    VectorNorm(t, p)
  }

  /** The angle between two non-zero columns, `arccos(v1.v2 / (|v1| |v2|))`. */
  function VectorAngle(t: Transcendentals, v1: Array, v2: Array): (r: Result<real>)
    requires t.Valid()
    requires Columns(v1, v2) ==> !IsZero(Entries(v1)) && !IsZero(Entries(v2))
    ensures r.Ok? <==> Columns(v1, v2)
    ensures r.Err? ==> r.error == VectorNot3x1
    ensures r.Ok? ==> 0.0 <= r.value <= t.pi
    ensures r.Ok? ==> r.value == Angle(t, Entries(v1), Entries(v2))
  {
    var d :- DotProduct(v1, v2);
    Ok(Angle(t, Entries(v1), Entries(v2)))
  }

  /** A non-zero column makes angle 0 with itself and pi with its opposite;
      two collinear non-zero columns make angle 0 or pi. */
  lemma {:induction false} VectorAngleExtremes(t: Transcendentals, v1: Array, v2: Array)
    requires t.Valid()
    requires Columns(v1, v2) && !IsZero(Entries(v1)) && !IsZero(Entries(v2))
    ensures Entries(v2) == Entries(v1) ==> VectorAngle(t, v1, v2) == Ok(0.0)
    ensures Entries(v2) == Scale(-1.0, Entries(v1)) ==> VectorAngle(t, v1, v2) == Ok(t.pi)
    ensures IsZero(Cross(Entries(v1), Entries(v2))) ==>
      VectorAngle(t, v1, v2) == Ok(0.0) || VectorAngle(t, v1, v2) == Ok(t.pi)
  {
    var u, v := Entries(v1), Entries(v2);
    if v == u {
      AngleWithItself(t, u);
    }
    if v == Scale(-1.0, u) {
      AngleWithOpposite(t, u);
    }
    if IsZero(Cross(u, v)) {
      AngleOfCollinear(t, u, v);
    }
  }
}
