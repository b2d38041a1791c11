/** Geometry of two lines in space, each given by a point `po` on it and a
    direction `vs`: their distance, the unit vector pointing from line 1 to
    line 2, and the signed twist angle between the joint axes of a link.

    Each routine first decides whether the lines are parallel, by comparing
    the angle between the directions with an angular tolerance, and then takes
    the parallel or the non-parallel branch. */
module Lines {
  import opened Numerics
  import opened Errors
  import opened Vectors
  import opened Shapes
  import opened Algebra

  /** The directions are parallel within `angtol`: the absolute angle between
      them is below `angtol` or within `angtol` of pi. */
  predicate Parallel(t: Transcendentals, u: Vec3, v: Vec3, angtol: real)
    requires t.Valid()
    requires !IsZero(u) && !IsZero(v)
  {
    var ang := Abs(Angle(t, u, v));
    ang < angtol || Abs(ang - t.pi) < angtol
  }

  /** Exactly collinear directions count as parallel at every positive tolerance. */
  lemma {:induction false} CollinearIsParallel(t: Transcendentals, u: Vec3, v: Vec3, angtol: real)
    requires t.Valid()
    requires !IsZero(u) && !IsZero(v)
    ensures angtol > 0.0 && IsZero(Cross(u, v)) ==> Parallel(t, u, v, angtol)
  {
    if angtol > 0.0 && IsZero(Cross(u, v)) {
      AngleOfCollinear(t, u, v);
    }
  }

  /** At zero tolerance no pair of directions is parallel. */
  lemma ZeroToleranceNeverParallel(t: Transcendentals, u: Vec3, v: Vec3)
    requires t.Valid()
    requires !IsZero(u) && !IsZero(v)
    ensures !Parallel(t, u, v, 0.0)
  {
  }

  /** The parallel test for any pair of directions. A zero direction makes
      the angle `arccos(0 / 0)`, which is NaN, and both comparisons with NaN
      are false: such a pair is never parallel. */
  predicate ParallelTest(t: Transcendentals, u: Vec3, v: Vec3, angtol: real)
    requires t.Valid()
  {
    !IsZero(u) && !IsZero(v) && Parallel(t, u, v, angtol)
  }

  /** The directions may be divided by once the tolerance has been accepted:
      both non-zero, and, at zero tolerance (where every pair takes the
      non-parallel branch), not collinear. */
  predicate Directions(vs1: Array, vs2: Array, angtol: real) {
    Columns(vs1, vs2) && angtol >= 0.0 ==>
      && !IsZero(Entries(vs1))
      && !IsZero(Entries(vs2))
      && (angtol == 0.0 ==> !IsZero(Cross(Entries(vs1), Entries(vs2))))
  }

  /** In the non-parallel branch the cross product of the directions is
      non-zero. */
  lemma {:induction false} SkewHasNormal(t: Transcendentals, vs1: Array, vs2: Array, angtol: real)
    requires t.Valid()
    requires Directions(vs1, vs2, angtol)
    requires angtol >= 0.0 && Columns(vs1, vs2)
    requires !Parallel(t, Entries(vs1), Entries(vs2), angtol)
    ensures !IsZero(Cross(Entries(vs1), Entries(vs2)))
  {
    CollinearIsParallel(t, Entries(vs1), Entries(vs2), angtol);
  }

  /** Distance from a point offset `d` to the line of direction `v`, times |v|,
      is |d x v|; it is zero exactly when the offset lies along the line. */
  lemma {:induction false} ParallelDistanceFormula(t: Transcendentals, d: Vec3, v: Vec3)
    requires t.Valid()
    requires !IsZero(v)
    ensures Norm(t, Rejection(d, v)) * Norm(t, v) == Norm(t, Cross(d, v))
    ensures Norm(t, Rejection(d, v)) == 0.0 <==> IsZero(Cross(d, v))
  {
    var r := Rejection(d, v);
    var c := Cross(d, v);
    RejectionLength(d, v);
    RejectionZero(d, v);
    RootOfProduct(Norm(t, r), Norm(t, v), Norm(t, c), Dot(r, r), Dot(v, v), Dot(c, c));
  }

  /** The length of the projection on a unit vector is the absolute scalar
      product with it. */
  lemma {:induction false} UnitProjectionLength(t: Transcendentals, d: Vec3, n: Vec3)
    requires t.Valid()
    requires Norm(t, n) == 1.0
    ensures !IsZero(n)
    ensures Norm(t, Project(d, n)) == Abs(Dot(d, n))
  {
    ProjectionLength(t, d, n);
  }

  /** The offset's component along the unit normal `c / |c|`, times |c|, is
      |d.c|. */
  lemma {:induction false} SkewDistanceFormula(t: Transcendentals, d: Vec3, c: Vec3)
    requires t.Valid()
    requires !IsZero(c)
    ensures !IsZero(Normalize(t, c))
    ensures Norm(t, Project(d, Normalize(t, c))) * Norm(t, c) == Abs(Dot(d, c))
  {
    var n := Normalize(t, c);
    UnitProjectionLength(t, d, n);
    NormalizedDot(t, d, c);
  }

  /** Scalar product with the unit vector `c / |c|`, times |c|, in absolute
      value. */
  lemma {:induction false} NormalizedDot(t: Transcendentals, d: Vec3, c: Vec3)
    requires t.Valid()
    requires !IsZero(c)
    ensures Abs(Dot(d, Normalize(t, c))) * Norm(t, c) == Abs(Dot(d, c))
  {
    var k := 1.0 / Norm(t, c);
    NormalizeIsScale(t, c);
    DotOfScaled(k, d, c);
    AbsScaledQuotient(k, Norm(t, c), Dot(d, c));
  }

  /** Distance between two parallel lines through `po1` and `po2` with common
      direction `vs`: the length of the part of `po1 - po2` orthogonal to `vs`.
      All three arguments are checked to be 3x1 columns. */
  function DistanceParallel(t: Transcendentals, po1: Array, po2: Array, vs: Array): (r: Result<real>)
    requires t.Valid()
    requires IsColumn3(vs) ==> !IsZero(Entries(vs))
    ensures r.Ok? <==> IsColumn3(po1) && IsColumn3(po2) && IsColumn3(vs)
    ensures r.Err? ==> r.error == VectorNot3x1
    ensures r.Ok? ==> r.value >= 0.0
    ensures r.Ok? ==>
      r.value * Norm(t, Entries(vs)) == Norm(t, Cross(Sub(Entries(po1), Entries(po2)), Entries(vs)))
    ensures r.Ok? ==> (r.value == 0.0 <==> IsZero(Cross(Sub(Entries(po1), Entries(po2)), Entries(vs))))
  {
    if CheckVector3(po1).Fail? then Err(CheckVector3(po1).error)
    else if CheckVector3(po2).Fail? then Err(CheckVector3(po2).error)
    else if CheckVector3(vs).Fail? then Err(CheckVector3(vs).error)
    else
      var d := Sub(Entries(po1), Entries(po2));
      ParallelDistanceFormula(t, d, Entries(vs));
      Ok(Norm(t, Rejection(d, Entries(vs))))
  }

  /** On valid columns the parallel distance is the length of the residual of
      `po1 - po2` with respect to `vs`. */
  lemma {:induction false} DistanceParallelValue(t: Transcendentals, po1: Array, po2: Array, vs: Array)
    requires t.Valid()
    requires Columns(po1, po2) && IsColumn3(vs) && !IsZero(Entries(vs))
    ensures DistanceParallel(t, po1, po2, vs) == Ok(Norm(t, Rejection(Sub(Entries(po1), Entries(po2)), Entries(vs))))
  {
    assert CheckVector3(po1).Pass? && CheckVector3(po2).Pass? && CheckVector3(vs).Pass?;
  }

  /** Distance between two non-parallel lines, as written. After the 3x1
      checks of the directions and the points, the cross product of the
      directions is normalised; having three dimensions (see `CrossProduct`),
      it fails the 3x1 check of the norm, so every call raises. */
  function DistanceSkew(po1: Array, vs1: Array, po2: Array, vs2: Array): (r: Result<real>)
    ensures r == Err(VectorNot3x1)
  {
    if CheckVector3(vs1).Fail? then Err(CheckVector3(vs1).error)
    else if CheckVector3(vs2).Fail? then Err(CheckVector3(vs2).error)
    else if CheckVector3(po1).Fail? then Err(CheckVector3(po1).error)
    else if CheckVector3(po2).Fail? then Err(CheckVector3(po2).error)
    else
      var c := CrossProduct(vs1, vs2).value;
      match CheckVector3OfRank3(c)
      case Fail(e) => Err(e)
  }

  /** Distance between two non-parallel lines, with the cross product taken
      as the 3x1 column `CrossColumn`: the length of the projection of
      `po1 - po2` on the unit common normal `(vs1 x vs2) / |vs1 x vs2|`. The
      directions are checked first, then the points. */
  function DistanceSkewCorrected(t: Transcendentals, po1: Array, vs1: Array, po2: Array, vs2: Array): (r: Result<real>)
    requires t.Valid()
    requires Columns(vs1, vs2) ==> !IsZero(Cross(Entries(vs1), Entries(vs2)))
    ensures r.Ok? <==> Columns(vs1, vs2) && Columns(po1, po2)
    ensures r.Err? ==> r.error == VectorNot3x1
    ensures r.Ok? ==> r.value >= 0.0
    ensures r.Ok? ==>
      var c := Cross(Entries(vs1), Entries(vs2));
      r.value * Norm(t, c) == Abs(Dot(Sub(Entries(po1), Entries(po2)), c))
  {
    if CheckVector3(vs1).Fail? then Err(CheckVector3(vs1).error)
    else if CheckVector3(vs2).Fail? then Err(CheckVector3(vs2).error)
    else if CheckVector3(po1).Fail? then Err(CheckVector3(po1).error)
    else if CheckVector3(po2).Fail? then Err(CheckVector3(po2).error)
    else
      var d := Sub(Entries(po1), Entries(po2));
      var c := Cross(Entries(vs1), Entries(vs2));
      SkewDistanceFormula(t, d, c);
      Ok(Norm(t, Project(d, Normalize(t, c))))
  }

  /** Two non-parallel lines that meet are at distance zero: when `po1 - po2`
      is a combination of the two directions. */
  lemma {:induction false} MeetingLinesDistanceZero(t: Transcendentals, po1: Array, vs1: Array, po2: Array, vs2: Array, a: real, b: real)
    requires t.Valid()
    requires Columns(vs1, vs2) && Columns(po1, po2)
    requires !IsZero(Cross(Entries(vs1), Entries(vs2)))
    requires Sub(Entries(po1), Entries(po2)) == Add(Scale(a, Entries(vs1)), Scale(b, Entries(vs2)))
    ensures DistanceSkewCorrected(t, po1, vs1, po2, vs2) == Ok(0.0)
  {
    var u, v := Entries(vs1), Entries(vs2);
    var d := Sub(Entries(po1), Entries(po2));
    CombinationOrthogonal(u, v, a, b);
    OrthogonalOffsetDistance(t, d, Cross(u, v));
    DistanceSkewCorrectedValue(t, po1, vs1, po2, vs2);
  }

  /** On valid columns the non-parallel distance is the length of the offset's
      projection on the unit common normal. */
  lemma {:induction false} DistanceSkewCorrectedValue(t: Transcendentals, po1: Array, vs1: Array, po2: Array, vs2: Array)
    requires t.Valid()
    requires Columns(vs1, vs2) && Columns(po1, po2)
    requires !IsZero(Cross(Entries(vs1), Entries(vs2)))
    ensures DistanceSkewCorrected(t, po1, vs1, po2, vs2)
         == Ok(Norm(t, Project(Sub(Entries(po1), Entries(po2)), Normalize(t, Cross(Entries(vs1), Entries(vs2))))))
  {
  }

  /** An offset orthogonal to the normal has no component along it. */
  lemma {:induction false} OrthogonalOffsetDistance(t: Transcendentals, d: Vec3, c: Vec3)
    requires t.Valid()
    requires !IsZero(c) && Dot(d, c) == 0.0
    ensures Norm(t, Project(d, Normalize(t, c))) == 0.0
  {
    var n := Normalize(t, c);
    NormalizeIsScale(t, c);
    DotSymmetric(d, c);
    ScaledOrthogonal(1.0 / Norm(t, c), c, d);
    DotSymmetric(n, d);
    UnitProjectionLength(t, d, n);
  }

  /** A combination of two vectors is orthogonal to their cross product. */
  lemma CombinationOrthogonal(u: Vec3, v: Vec3, a: real, b: real)
    ensures Dot(Add(Scale(a, u), Scale(b, v)), Cross(u, v)) == 0.0
  {
  }

  /** The distance between two lines, as written. A negative tolerance is
      refused first; then the directions are checked (by the angle
      computation) and the parallel or the non-parallel formula is applied.
      Only the parallel branch returns: the non-parallel one raises. */
  function Distance(t: Transcendentals, po1: Array, vs1: Array, po2: Array, vs2: Array, angtol: real): (r: Result<real>)
    requires t.Valid()
    ensures angtol < 0.0 ==> r == Err(NegativeAngleTolerance)
    ensures angtol >= 0.0 && !Columns(vs1, vs2) ==> r == Err(VectorNot3x1)
    ensures r.Ok? <==>
      angtol >= 0.0 && Columns(vs1, vs2) && ParallelTest(t, Entries(vs1), Entries(vs2), angtol) && Columns(po1, po2)
    ensures r.Err? ==> r.error == NegativeAngleTolerance || r.error == VectorNot3x1
    ensures angtol >= 0.0 && r.Err? ==> r.error == VectorNot3x1
    ensures r.Ok? ==> r.value >= 0.0
    ensures r.Ok? ==>
      r.value * Norm(t, Entries(vs1)) == Norm(t, Cross(Sub(Entries(po1), Entries(po2)), Entries(vs1)))
  {
    if angtol < 0.0 then Err(NegativeAngleTolerance)
    else
      var d :- DotProduct(vs1, vs2);
      if ParallelTest(t, Entries(vs1), Entries(vs2), angtol) then
        DistanceParallel(t, po1, po2, vs1)
      else
        DistanceSkew(po1, vs1, po2, vs2)
  }

  /** The distance between two lines with the cross product taken as a 3x1
      column. A negative tolerance is refused first; then the directions are
      checked (by the angle computation) and the parallel or the non-parallel
      formula is applied. */
  function DistanceCorrected(t: Transcendentals, po1: Array, vs1: Array, po2: Array, vs2: Array, angtol: real): (r: Result<real>)
    requires t.Valid()
    requires Directions(vs1, vs2, angtol)
    ensures angtol < 0.0 ==> r == Err(NegativeAngleTolerance)
    ensures angtol >= 0.0 && !Columns(vs1, vs2) ==> r == Err(VectorNot3x1)
    ensures r.Ok? <==> angtol >= 0.0 && Columns(vs1, vs2) && Columns(po1, po2)
    ensures r.Ok? ==> r.value >= 0.0
    ensures angtol >= 0.0 && Columns(vs1, vs2) && !Parallel(t, Entries(vs1), Entries(vs2), angtol) ==>
      !IsZero(Cross(Entries(vs1), Entries(vs2)))
    ensures r.Ok? && Parallel(t, Entries(vs1), Entries(vs2), angtol) ==> r == DistanceParallel(t, po1, po2, vs1)
    ensures r.Ok? && !Parallel(t, Entries(vs1), Entries(vs2), angtol) ==> r == DistanceSkewCorrected(t, po1, vs1, po2, vs2)
  {
    if angtol < 0.0 then Err(NegativeAngleTolerance)
    else
      var angle :- VectorAngle(t, vs1, vs2);
      var ang := Abs(angle);
      if ang < angtol || Abs(ang - t.pi) < angtol then
        DistanceParallel(t, po1, po2, vs1)
      else
        SkewHasNormal(t, vs1, vs2, angtol);
        DistanceSkewCorrected(t, po1, vs1, po2, vs2)
  }

  /** Where the routine as written returns a distance, the corrected routine
      returns the same one; on valid columns the routine as written raises
      exactly when the directions are not parallel, where the corrected one
      returns the distance along the common normal. */
  lemma {:induction false} DistanceCorrectionAgrees(t: Transcendentals, po1: Array, vs1: Array, po2: Array, vs2: Array, angtol: real)
    requires t.Valid()
    requires Directions(vs1, vs2, angtol)
    ensures Distance(t, po1, vs1, po2, vs2, angtol).Ok? ==>
      DistanceCorrected(t, po1, vs1, po2, vs2, angtol) == Distance(t, po1, vs1, po2, vs2, angtol)
    ensures angtol >= 0.0 && Columns(vs1, vs2) && Columns(po1, po2) ==>
      && DistanceCorrected(t, po1, vs1, po2, vs2, angtol).Ok?
      && (Distance(t, po1, vs1, po2, vs2, angtol) == Err(VectorNot3x1) <==> !Parallel(t, Entries(vs1), Entries(vs2), angtol))
  {
    if angtol >= 0.0 && Columns(vs1, vs2) && Parallel(t, Entries(vs1), Entries(vs2), angtol) {
      assert DistanceCorrected(t, po1, vs1, po2, vs2, angtol) == DistanceParallel(t, po1, po2, vs1);
    }
  }
}
