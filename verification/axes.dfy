/** The unit vector pointing from one line to another, each line given by a
    point `po` on it and a direction `vs`. For non-parallel lines it lies along
    the common normal `vs1 x vs2`; for parallel lines it is the normalised part
    of the offset `po2 - po1` orthogonal to the common direction. */
module Axes {
  import opened Numerics
  import opened Errors
  import opened Vectors
  import opened Shapes
  import opened Algebra
  import opened Lines

  /** The unit normal `c / |c|` multiplied by the sign of its scalar product
      with the offset `d`: it points from line 1 towards line 2, and is the
      zero vector when the offset has no component along the normal. */
  function Oriented(t: Transcendentals, d: Vec3, c: Vec3): (e: Vec3)
    requires t.Valid()
    requires !IsZero(c)
    ensures IsZero(Cross(e, c))
    ensures Dot(d, e) >= 0.0
    ensures Dot(d, c) != 0.0 ==> Norm(t, e) == 1.0
    ensures Dot(d, c) == 0.0 ==> IsZero(e)
  {
    var n := Normalize(t, c);
    var s := Sign(Dot(d, n));
    var e := Scale(s, n);
    NormalizedDot(t, d, c);
    DotOfScaled(s, d, n);
    SignScaling(Dot(d, n), s, Norm(t, c), Dot(d, c), Dot(d, e));
    NormScale(t, s, n);
    assert Norm(t, e) == Abs(s);
    CrossOfScaled(s, n, c);
    e
  }

  /** The oriented normal is the unit normal scaled by a sign. */
  lemma OrientedIsSigned(t: Transcendentals, d: Vec3, c: Vec3)
    requires t.Valid()
    requires !IsZero(c)
    ensures Oriented(t, d, c) == Scale(Sign(Dot(d, Normalize(t, c))), Normalize(t, c))
  {
  }

  /** The offset's component along the oriented normal is the absolute value
      of its component along the unit normal. */
  lemma {:induction false} OrientedAbsolute(t: Transcendentals, d: Vec3, c: Vec3)
    requires t.Valid()
    requires !IsZero(c)
    ensures Dot(d, Oriented(t, d, c)) == Abs(Dot(d, Normalize(t, c)))
  {
    var n := Normalize(t, c);
    OrientedIsSigned(t, d, c);
    SignedDot(d, n);
  }

  /** The oriented normal is orthogonal to whatever the normal is orthogonal
      to, in particular to both line directions. */
  lemma {:induction false} OrientedOrthogonal(t: Transcendentals, d: Vec3, c: Vec3, w: Vec3)
    requires t.Valid()
    requires !IsZero(c)
    requires Dot(c, w) == 0.0
    ensures Dot(Oriented(t, d, c), w) == 0.0
  {
    var n := Normalize(t, c);
    NormalizeIsScale(t, c);
    ScaledOrthogonal(1.0 / Norm(t, c), c, w);
    OrientedIsSigned(t, d, c);
    ScaledOrthogonal(Sign(Dot(d, n)), n, w);
  }

  /** Along the normal, the oriented unit vector has the sign of `d.c`. */
  lemma {:induction false} OrientedSign(t: Transcendentals, d: Vec3, c: Vec3)
    requires t.Valid()
    requires !IsZero(c)
    ensures Sign(Dot(c, Oriented(t, d, c))) == Sign(Dot(d, c))
  {
    var n := Normalize(t, c);
    var k := 1.0 / Norm(t, c);
    NormalizeIsScale(t, c);
    DotOfScaled(k, d, c);
    SignOfPositiveMultiple(k, Dot(d, c));
    var s := Sign(Dot(d, n));
    DotOfScaled(s, c, n);
    DotSymmetric(c, n);
    SignOfPositiveMultiple(Norm(t, c), s);
  }

  /** The normalised part of the offset `d` orthogonal to the direction `v`:
      a unit vector orthogonal to `v` whose scalar product with `d` is the
      distance between the parallel lines. */
  function Across(t: Transcendentals, d: Vec3, v: Vec3): (e: Vec3)
    requires t.Valid()
    requires !IsZero(v)
    requires !IsZero(Rejection(d, v))
    ensures Norm(t, e) == 1.0
    ensures Dot(e, v) == 0.0
    ensures Dot(d, e) == Norm(t, Rejection(d, v))
    ensures Dot(d, e) > 0.0
  {
    var dn := Rejection(d, v);
    var p := Project(d, v);
    var e := Normalize(t, dn);
    NormalizeIsScale(t, dn);
    DotOfScaled(1.0 / Norm(t, dn), dn, v);
    ProjectIsScale(d, v);
    DotOfScaled(Dot(d, v) / Dot(v, v), v, e);
    DotAdd(dn, p, e);
    DotSymmetric(v, e);
    DotSymmetric(dn, e);
    e
  }

  /** The offset `po2 - po1`, after broadcasting, is a 3x1 column. */
  predicate OffsetDefined(po1: Array, po2: Array) {
    Difference(po2, po1).Ok? && IsColumn3(Difference(po2, po1).value)
  }

  /** The offset `po2 - po1` from the point of line 1 to the point of line 2. */
  function Offset(po1: Array, po2: Array): Vec3
    requires OffsetDefined(po1, po2)
  {
    Entries(Difference(po2, po1).value)
  }

  /** For two 3x1 points the offset is the component-wise difference. */
  lemma {:induction false} OffsetOfColumns(po1: Array, po2: Array)
    requires Columns(po1, po2)
    ensures OffsetDefined(po1, po2)
    ensures Offset(po1, po2) == Sub(Entries(po2), Entries(po1))
  {
    DifferenceOfColumns(po2, po1);
    EntriesOfColumn(Sub(Entries(po2), Entries(po1)));
  }

  /** The axis between two non-parallel lines, as written. The cross product
      checks the directions; having three dimensions (see `CrossProduct`), it
      then fails the 3x1 check of its own norm, so every call raises. */
  function AxisSkew(po1: Array, vs1: Array, po2: Array, vs2: Array): (r: Result<Array>)
    ensures r == Err(VectorNot3x1)
  {
    var e :- CrossProduct(vs1, vs2);
    match CheckVector3OfRank3(e)
    case Fail(err) => Err(err)
  }

  /** The axis between two non-parallel lines, with the cross product taken
      as the 3x1 column `CrossColumn`: the unit common normal, turned towards
      line 2. The directions are checked by the cross product, and the offset
      by the scalar product with the normal. */
  function AxisSkewCorrected(t: Transcendentals, po1: Array, vs1: Array, po2: Array, vs2: Array): (r: Result<Array>)
    requires t.Valid()
    requires Columns(vs1, vs2) ==> !IsZero(Cross(Entries(vs1), Entries(vs2)))
    ensures !Columns(vs1, vs2) ==> r == Err(VectorNot3x1)
    ensures Columns(vs1, vs2) && Difference(po2, po1).Err? ==> r == Err(BroadcastMismatch)
    ensures r.Ok? <==> Columns(vs1, vs2) && OffsetDefined(po1, po2)
    ensures r.Err? ==> r.error == VectorNot3x1 || r.error == BroadcastMismatch
    ensures r.Ok? ==> IsColumn3(r.value)
    ensures r.Ok? ==>
      Dot(Entries(r.value), Entries(vs1)) == 0.0 && Dot(Entries(r.value), Entries(vs2)) == 0.0
    ensures r.Ok? ==> Dot(Offset(po1, po2), Entries(r.value)) >= 0.0
    ensures r.Ok? ==>
      (Norm(t, Entries(r.value)) == 1.0 <==> Dot(Offset(po1, po2), Cross(Entries(vs1), Entries(vs2))) != 0.0)
  {
    if CheckVector3(vs1).Fail? then Err(CheckVector3(vs1).error)
    else if CheckVector3(vs2).Fail? then Err(CheckVector3(vs2).error)
    else
      var c := Cross(Entries(vs1), Entries(vs2));
      var d :- Difference(po2, po1);
      if CheckVector3(d).Fail? then Err(CheckVector3(d).error)
      else
        var e := Oriented(t, Entries(d), c);
        OrientedOrthogonal(t, Entries(d), c, Entries(vs1));
        OrientedOrthogonal(t, Entries(d), c, Entries(vs2));
        EntriesOfColumn(e);
        Ok(Column(e))
  }

  /** The axis between two parallel lines of direction `vs`: the normalised
      part of the offset orthogonal to `vs`. The offset is checked first (by
      the projection), then the direction. */
  function AxisParallel(t: Transcendentals, po1: Array, po2: Array, vs: Array): (r: Result<Array>)
    requires t.Valid()
    requires IsColumn3(vs) ==> !IsZero(Entries(vs))
    requires IsColumn3(vs) && OffsetDefined(po1, po2) ==> !IsZero(Rejection(Offset(po1, po2), Entries(vs)))
    ensures Difference(po2, po1).Err? ==> r == Err(BroadcastMismatch)
    ensures r.Ok? <==> OffsetDefined(po1, po2) && IsColumn3(vs)
    ensures r.Err? ==> r.error == VectorNot3x1 || r.error == BroadcastMismatch
    ensures r.Ok? ==> IsColumn3(r.value) && Norm(t, Entries(r.value)) == 1.0
    ensures r.Ok? ==> Dot(Entries(r.value), Entries(vs)) == 0.0
    ensures r.Ok? ==>
      Dot(Offset(po1, po2), Entries(r.value)) == Norm(t, Rejection(Offset(po1, po2), Entries(vs)))
    ensures r.Ok? ==> Dot(Offset(po1, po2), Entries(r.value)) > 0.0
  {
    var d :- Difference(po2, po1);
    if CheckVector3(d).Fail? then Err(CheckVector3(d).error)
    else if CheckVector3(vs).Fail? then Err(CheckVector3(vs).error)
    else
      var e := Across(t, Entries(d), Entries(vs));
      EntriesOfColumn(e);
      Ok(Column(e))
  }

  /** On valid arguments the non-parallel axis is the oriented normal. */
  lemma {:induction false} AxisSkewCorrectedValue(t: Transcendentals, po1: Array, vs1: Array, po2: Array, vs2: Array)
    requires t.Valid()
    requires Columns(vs1, vs2) && OffsetDefined(po1, po2)
    requires !IsZero(Cross(Entries(vs1), Entries(vs2)))
    ensures AxisSkewCorrected(t, po1, vs1, po2, vs2)
         == Ok(Column(Oriented(t, Offset(po1, po2), Cross(Entries(vs1), Entries(vs2)))))
  {
    assert CheckVector3(vs1).Pass? && CheckVector3(vs2).Pass?;
    var d := Difference(po2, po1).value;
    assert CheckVector3(d).Pass?;
  }

  /** The component of the offset along the non-parallel axis is the
      absolute value of its component along the unit normal. */
  lemma {:induction false} AxisSkewComponent(t: Transcendentals, po1: Array, vs1: Array, po2: Array, vs2: Array)
    requires t.Valid()
    requires Columns(vs1, vs2) && OffsetDefined(po1, po2)
    requires !IsZero(Cross(Entries(vs1), Entries(vs2)))
    ensures AxisSkewCorrected(t, po1, vs1, po2, vs2).Ok?
    ensures Dot(Offset(po1, po2), Entries(AxisSkewCorrected(t, po1, vs1, po2, vs2).value))
         == Abs(Dot(Offset(po1, po2), Normalize(t, Cross(Entries(vs1), Entries(vs2)))))
  {
    var c := Cross(Entries(vs1), Entries(vs2));
    var d := Offset(po1, po2);
    AxisSkewCorrectedValue(t, po1, vs1, po2, vs2);
    EntriesOfColumn(Oriented(t, d, c));
    OrientedAbsolute(t, d, c);
  }

  /** The component of the offset along the non-parallel axis is the distance
      between the lines. */
  lemma {:induction false} AxisSkewMeasuresDistance(t: Transcendentals, po1: Array, vs1: Array, po2: Array, vs2: Array)
    requires t.Valid()
    requires Columns(vs1, vs2) && Columns(po1, po2)
    requires !IsZero(Cross(Entries(vs1), Entries(vs2)))
    ensures OffsetDefined(po1, po2)
    ensures AxisSkewCorrected(t, po1, vs1, po2, vs2).Ok? && DistanceSkewCorrected(t, po1, vs1, po2, vs2).Ok?
    ensures Dot(Offset(po1, po2), Entries(AxisSkewCorrected(t, po1, vs1, po2, vs2).value))
         == DistanceSkewCorrected(t, po1, vs1, po2, vs2).value
  {
    var n := Normalize(t, Cross(Entries(vs1), Entries(vs2)));
    var d' := Sub(Entries(po1), Entries(po2));
    OffsetOfColumns(po1, po2);
    AxisSkewComponent(t, po1, vs1, po2, vs2);
    var a := Dot(Offset(po1, po2), Entries(AxisSkewCorrected(t, po1, vs1, po2, vs2).value));
    assert a == Abs(Dot(Sub(Entries(po2), Entries(po1)), n));
    DistanceSkewCorrectedValue(t, po1, vs1, po2, vs2);
    UnitProjectionLength(t, d', n);
    assert DistanceSkewCorrected(t, po1, vs1, po2, vs2).value == Abs(Dot(d', n));
    DotOfReversed(Entries(po2), Entries(po1), n);
    var x := Dot(d', n);
    assert Dot(Sub(Entries(po2), Entries(po1)), n) == -x;
    assert Abs(-x) == Abs(x);
  }

  /** On valid arguments the parallel axis is the normalised residual of the
      offset. */
  lemma {:induction false} AxisParallelValue(t: Transcendentals, po1: Array, po2: Array, vs: Array)
    requires t.Valid()
    requires OffsetDefined(po1, po2) && IsColumn3(vs) && !IsZero(Entries(vs))
    requires !IsZero(Rejection(Offset(po1, po2), Entries(vs)))
    ensures AxisParallel(t, po1, po2, vs) == Ok(Column(Across(t, Offset(po1, po2), Entries(vs))))
  {
    var d := Difference(po2, po1).value;
    assert CheckVector3(d).Pass? && CheckVector3(vs).Pass?;
  }

  /** The component of the offset along the parallel axis is the distance
      between the lines. */
  lemma {:induction false} AxisParallelMeasuresDistance(t: Transcendentals, po1: Array, po2: Array, vs: Array)
    requires t.Valid()
    requires Columns(po1, po2) && IsColumn3(vs) && !IsZero(Entries(vs))
    requires !IsZero(Rejection(Sub(Entries(po2), Entries(po1)), Entries(vs)))
    ensures OffsetDefined(po1, po2)
    ensures AxisParallel(t, po1, po2, vs).Ok? && DistanceParallel(t, po1, po2, vs).Ok?
    ensures Dot(Offset(po1, po2), Entries(AxisParallel(t, po1, po2, vs).value))
         == DistanceParallel(t, po1, po2, vs).value
  {
    var v := Entries(vs);
    var d, d' := Sub(Entries(po2), Entries(po1)), Sub(Entries(po1), Entries(po2));
    OffsetOfColumns(po1, po2);
    AxisParallelValue(t, po1, po2, vs);
    EntriesOfColumn(Across(t, d, v));
    DistanceParallelValue(t, po1, po2, vs);
    assert d' == Scale(-1.0, d);
    RejectionOfOpposite(d, v);
    NormScale(t, -1.0, Rejection(d, v));
  }

  /** The axis routine may divide by the norms it takes: the directions are
      valid, and in the parallel branch the offset is not along the common
      direction (the lines are distinct). */
  predicate AxisDefined(t: Transcendentals, po1: Array, vs1: Array, po2: Array, vs2: Array, angtol: real)
    requires t.Valid()
  {
    Directions(vs1, vs2, angtol) && ParallelDistinct(t, po1, vs1, po2, vs2, angtol)
  }

  /** In the parallel branch the offset is not along the common direction:
      the lines are distinct, so the residual may be normalised. */
  predicate ParallelDistinct(t: Transcendentals, po1: Array, vs1: Array, po2: Array, vs2: Array, angtol: real)
    requires t.Valid()
  {
    angtol >= 0.0 && Columns(vs1, vs2) && OffsetDefined(po1, po2) && ParallelTest(t, Entries(vs1), Entries(vs2), angtol)
    ==> !IsZero(Rejection(Offset(po1, po2), Entries(vs1)))
  }

  /** The unit vector pointing from line 1 to line 2, as written. A negative
      tolerance is refused first; then the directions are checked (by the
      angle) and the parallel or the non-parallel construction is applied.
      Only the parallel branch returns: the non-parallel one raises. */
  function Axis(t: Transcendentals, po1: Array, vs1: Array, po2: Array, vs2: Array, angtol: real): (r: Result<Array>)
    requires t.Valid()
    requires ParallelDistinct(t, po1, vs1, po2, vs2, angtol)
    ensures angtol < 0.0 ==> r == Err(NegativeAngleTolerance)
    ensures angtol >= 0.0 && !Columns(vs1, vs2) ==> r == Err(VectorNot3x1)
    ensures r.Ok? <==>
      angtol >= 0.0 && Columns(vs1, vs2) && ParallelTest(t, Entries(vs1), Entries(vs2), angtol) && OffsetDefined(po1, po2)
    ensures angtol >= 0.0 && Columns(vs1, vs2) && Difference(po2, po1).Err? ==>
      r == (if ParallelTest(t, Entries(vs1), Entries(vs2), angtol) then Err(BroadcastMismatch) else Err(VectorNot3x1))
    ensures r.Err? ==> r.error == NegativeAngleTolerance || r.error == VectorNot3x1 || r.error == BroadcastMismatch
    ensures angtol >= 0.0 && r.Err? ==>
      r.error == VectorNot3x1 ||
      (Columns(vs1, vs2) && ParallelTest(t, Entries(vs1), Entries(vs2), angtol) && Difference(po2, po1).Err?)
    ensures r.Ok? ==> IsColumn3(r.value) && Norm(t, Entries(r.value)) == 1.0 && Dot(Entries(r.value), Entries(vs1)) == 0.0
    ensures r.Ok? ==>
      Dot(Offset(po1, po2), Entries(r.value)) == Norm(t, Rejection(Offset(po1, po2), Entries(vs1)))
  {
    if angtol < 0.0 then Err(NegativeAngleTolerance)
    else
      var d :- DotProduct(vs1, vs2);
      if ParallelTest(t, Entries(vs1), Entries(vs2), angtol) then
        AxisParallel(t, po1, po2, vs1)
      else
        AxisSkew(po1, vs1, po2, vs2)
  }

  /** The unit vector pointing from line 1 to line 2, with the cross product
      taken as a 3x1 column. A negative tolerance is refused first; then the
      directions are checked (by the angle) and the parallel or the
      non-parallel construction is applied. */
  function AxisCorrected(t: Transcendentals, po1: Array, vs1: Array, po2: Array, vs2: Array, angtol: real): (r: Result<Array>)
    requires t.Valid()
    requires AxisDefined(t, po1, vs1, po2, vs2, angtol)
    ensures angtol < 0.0 ==> r == Err(NegativeAngleTolerance)
    ensures angtol >= 0.0 && !Columns(vs1, vs2) ==> r == Err(VectorNot3x1)
    ensures angtol >= 0.0 && Columns(vs1, vs2) && Difference(po2, po1).Err? ==> r == Err(BroadcastMismatch)
    ensures r.Ok? <==> angtol >= 0.0 && Columns(vs1, vs2) && OffsetDefined(po1, po2)
    ensures r.Ok? ==> IsColumn3(r.value) && Dot(Entries(r.value), Entries(vs1)) == 0.0
    ensures r.Ok? ==> Dot(Offset(po1, po2), Entries(r.value)) >= 0.0
    ensures angtol >= 0.0 && Columns(vs1, vs2) && !Parallel(t, Entries(vs1), Entries(vs2), angtol) ==>
      !IsZero(Cross(Entries(vs1), Entries(vs2)))
    ensures r.Ok? && Parallel(t, Entries(vs1), Entries(vs2), angtol) ==> r == AxisParallel(t, po1, po2, vs1)
    ensures r.Ok? && !Parallel(t, Entries(vs1), Entries(vs2), angtol) ==> r == AxisSkewCorrected(t, po1, vs1, po2, vs2)
  {
    if angtol < 0.0 then Err(NegativeAngleTolerance)
    else
      var angle :- VectorAngle(t, vs1, vs2);
      var ang := Abs(angle);
      if ang < angtol || Abs(ang - t.pi) < angtol then
        AxisParallel(t, po1, po2, vs1)
      else
        SkewHasNormal(t, vs1, vs2, angtol);
        AxisSkewCorrected(t, po1, vs1, po2, vs2)
  }

  /** Between two lines given by 3x1 columns, the component of the offset
      along the axis is the distance the distance routine computes, in both
      branches. */
  lemma {:induction false} AxisMeasuresDistance(t: Transcendentals, po1: Array, vs1: Array, po2: Array, vs2: Array, angtol: real)
    requires t.Valid()
    requires AxisDefined(t, po1, vs1, po2, vs2, angtol)
    requires angtol >= 0.0 && Columns(vs1, vs2) && Columns(po1, po2)
    ensures OffsetDefined(po1, po2)
    ensures AxisCorrected(t, po1, vs1, po2, vs2, angtol).Ok? && DistanceCorrected(t, po1, vs1, po2, vs2, angtol).Ok?
    ensures Dot(Offset(po1, po2), Entries(AxisCorrected(t, po1, vs1, po2, vs2, angtol).value))
         == DistanceCorrected(t, po1, vs1, po2, vs2, angtol).value
  {
    OffsetOfColumns(po1, po2);
    if Parallel(t, Entries(vs1), Entries(vs2), angtol) {
      AxisParallelMeasuresDistance(t, po1, po2, vs1);
    } else {
      SkewHasNormal(t, vs1, vs2, angtol);
      AxisSkewMeasuresDistance(t, po1, vs1, po2, vs2);
    }
  }

  /** Two non-parallel lines that meet have no direction from one to the
      other: the sign of the zero offset component is 0 and the axis is the
      zero vector. */
  lemma {:induction false} MeetingLinesAxisZero(t: Transcendentals, po1: Array, vs1: Array, po2: Array, vs2: Array, a: real, b: real)
    requires t.Valid()
    requires Columns(vs1, vs2) && OffsetDefined(po1, po2)
    requires !IsZero(Cross(Entries(vs1), Entries(vs2)))
    requires Offset(po1, po2) == Add(Scale(a, Entries(vs1)), Scale(b, Entries(vs2)))
    ensures AxisSkewCorrected(t, po1, vs1, po2, vs2).Ok?
    ensures IsZero(Entries(AxisSkewCorrected(t, po1, vs1, po2, vs2).value))
  {
    CombinationOrthogonal(Entries(vs1), Entries(vs2), a, b);
    AxisSkewCorrectedValue(t, po1, vs1, po2, vs2);
    EntriesOfColumn(Oriented(t, Offset(po1, po2), Cross(Entries(vs1), Entries(vs2))));
  }

  /** Where the routine as written returns an axis, the corrected routine
      returns the same one; on valid columns the routine as written raises
      exactly when the directions are not parallel, where the corrected one
      returns the oriented common normal. */
  lemma {:induction false} AxisCorrectionAgrees(t: Transcendentals, po1: Array, vs1: Array, po2: Array, vs2: Array, angtol: real)
    requires t.Valid()
    requires AxisDefined(t, po1, vs1, po2, vs2, angtol)
    ensures Axis(t, po1, vs1, po2, vs2, angtol).Ok? ==>
      AxisCorrected(t, po1, vs1, po2, vs2, angtol) == Axis(t, po1, vs1, po2, vs2, angtol)
    ensures angtol >= 0.0 && Columns(vs1, vs2) && OffsetDefined(po1, po2) ==>
      && AxisCorrected(t, po1, vs1, po2, vs2, angtol).Ok?
      && (Axis(t, po1, vs1, po2, vs2, angtol) == Err(VectorNot3x1) <==> !Parallel(t, Entries(vs1), Entries(vs2), angtol))
  {
    if angtol >= 0.0 && Columns(vs1, vs2) && Parallel(t, Entries(vs1), Entries(vs2), angtol) {
      assert AxisCorrected(t, po1, vs1, po2, vs2, angtol) == AxisParallel(t, po1, po2, vs1);
    }
  }
}
