/** The twist angle of a link: the angle between the axes `vs1` and `vs2` of
    its two joints, with a sign that says in which sense the second axis is
    turned about the first. For non-concurrent axes the sign comes from the
    axis pointing from joint 1 to joint 2; for concurrent axes the caller
    supplies a reference vector `vref` that fixes the positive sense. */
module Twist {
  import opened Numerics
  import opened Errors
  import opened Vectors
  import opened Shapes
  import opened Algebra
  import opened Lines
  import opened Axes

  /** The signed twist of a link whose joint axes do not meet, as written.
      The cross product validates the directions, and the axis routine the
      tolerance and the points; the scalar product of the cross product with
      the axis then hands the three-dimensional cross product (see
      `CrossProduct`) to the 3x1 validator, so every call raises. */
  function TwistNonConcurrent(t: Transcendentals, po1: Array, vs1: Array, po2: Array, vs2: Array, angtol: real): (r: Result<real>)
    requires t.Valid()
    requires ParallelDistinct(t, po1, vs1, po2, vs2, angtol)
    ensures r.Err?
    ensures !Columns(vs1, vs2) ==> r == Err(VectorNot3x1)
    ensures Columns(vs1, vs2) && angtol < 0.0 ==> r == Err(NegativeAngleTolerance)
    ensures Columns(vs1, vs2) && angtol >= 0.0 ==>
      r == (if ParallelTest(t, Entries(vs1), Entries(vs2), angtol) && Difference(po2, po1).Err?
            then Err(BroadcastMismatch) else Err(VectorNot3x1))
  {
    var pvs :- CrossProduct(vs1, vs2);
    var e12 :- Axis(t, po1, vs1, po2, vs2, angtol);
    match CheckVector3OfRank3(pvs)
    case Fail(e) => Err(e)
  }

  /** The signed twist of a link whose joint axes do not meet, with the cross
      product taken as a 3x1 column: the angle between the axes times the
      sign of `(vs1 x vs2) . e12`, where `e12` is the unit vector from axis 1
      to axis 2. The cross product validates the directions before the
      tolerance is looked at. */
  function TwistNonConcurrentCorrected(t: Transcendentals, po1: Array, vs1: Array, po2: Array, vs2: Array, angtol: real): (r: Result<real>)
    requires t.Valid()
    requires AxisDefined(t, po1, vs1, po2, vs2, angtol)
    ensures !Columns(vs1, vs2) ==> r == Err(VectorNot3x1)
    ensures Columns(vs1, vs2) && angtol < 0.0 ==> r == Err(NegativeAngleTolerance)
    ensures Columns(vs1, vs2) && angtol >= 0.0 && Difference(po2, po1).Err? ==> r == Err(BroadcastMismatch)
    ensures r.Ok? <==> angtol >= 0.0 && Columns(vs1, vs2) && OffsetDefined(po1, po2)
    ensures r.Ok? ==> -t.pi <= r.value <= t.pi
    ensures r.Ok? ==>
      var ang := Angle(t, Entries(vs1), Entries(vs2));
      r.value == ang || r.value == -ang || r.value == 0.0
  {
    var pvs :- CrossColumn(vs1, vs2);
    var e12 :- AxisCorrected(t, po1, vs1, po2, vs2, angtol);
    var pe := Dot(Entries(pvs), Entries(e12));
    Ok(Signed(VectorAngle(t, vs1, vs2).value, pe))
  }

  /** On valid arguments the twist is the angle signed by the scalar product
      of the cross product with the axis from line 1 to line 2. */
  lemma {:induction false} TwistNonConcurrentCorrectedValue(t: Transcendentals, po1: Array, vs1: Array, po2: Array, vs2: Array, angtol: real)
    requires t.Valid()
    requires AxisDefined(t, po1, vs1, po2, vs2, angtol)
    requires angtol >= 0.0 && Columns(vs1, vs2) && OffsetDefined(po1, po2)
    ensures AxisCorrected(t, po1, vs1, po2, vs2, angtol).Ok?
    ensures TwistNonConcurrentCorrected(t, po1, vs1, po2, vs2, angtol)
         == Ok(Signed(Angle(t, Entries(vs1), Entries(vs2)),
                      Dot(Cross(Entries(vs1), Entries(vs2)), Entries(AxisCorrected(t, po1, vs1, po2, vs2, angtol).value))))
  {
    var c := Cross(Entries(vs1), Entries(vs2));
    assert CheckVector3(vs1).Pass? && CheckVector3(vs2).Pass?;
    assert CrossColumn(vs1, vs2) == Ok(Column(c));
    EntriesOfColumn(c);
    assert VectorAngle(t, vs1, vs2) == Ok(Angle(t, Entries(vs1), Entries(vs2)));
  }

  /** For axes that are not parallel, the sign of the twist is the sign of
      `(po2 - po1) . (vs1 x vs2)`: which side of the plane spanned by the
      first axis and the common normal the second joint lies on. */
  lemma {:induction false} TwistNonConcurrentSkew(t: Transcendentals, po1: Array, vs1: Array, po2: Array, vs2: Array, angtol: real)
    requires t.Valid()
    requires AxisDefined(t, po1, vs1, po2, vs2, angtol)
    requires angtol >= 0.0 && Columns(vs1, vs2) && OffsetDefined(po1, po2)
    requires !Parallel(t, Entries(vs1), Entries(vs2), angtol)
    ensures !IsZero(Cross(Entries(vs1), Entries(vs2)))
    ensures TwistNonConcurrentCorrected(t, po1, vs1, po2, vs2, angtol)
         == Ok(Signed(Angle(t, Entries(vs1), Entries(vs2)), Dot(Offset(po1, po2), Cross(Entries(vs1), Entries(vs2)))))
  {
    var u, v := Entries(vs1), Entries(vs2);
    var c := Cross(u, v);
    var d := Offset(po1, po2);
    SkewHasNormal(t, vs1, vs2, angtol);
    TwistNonConcurrentCorrectedValue(t, po1, vs1, po2, vs2, angtol);
    AxisSkewCorrectedValue(t, po1, vs1, po2, vs2);
    EntriesOfColumn(Oriented(t, d, c));
    OrientedSign(t, d, c);
  }

  /** Two axes that meet without being parallel get twist 0 from this
      routine, whatever the angle between them: the concurrent case needs the
      reference-vector routine. */
  lemma {:induction false} TwistOfMeetingAxes(t: Transcendentals, po1: Array, vs1: Array, po2: Array, vs2: Array, angtol: real, a: real, b: real)
    requires t.Valid()
    requires AxisDefined(t, po1, vs1, po2, vs2, angtol)
    requires angtol >= 0.0 && Columns(vs1, vs2) && OffsetDefined(po1, po2)
    requires !Parallel(t, Entries(vs1), Entries(vs2), angtol)
    requires Offset(po1, po2) == Add(Scale(a, Entries(vs1)), Scale(b, Entries(vs2)))
    ensures TwistNonConcurrentCorrected(t, po1, vs1, po2, vs2, angtol) == Ok(0.0)
  {
    TwistNonConcurrentSkew(t, po1, vs1, po2, vs2, angtol);
    CombinationOrthogonal(Entries(vs1), Entries(vs2), a, b);
  }

  /** The part of `vref` the concurrent-axes routine measures against its
      tolerance: `vref - proj(vref, c) * sign(c . vref)`. */
  function Residual(vref: Vec3, c: Vec3): Vec3
    requires !IsZero(c)
  {
    Sub(vref, Scale(Sign(Dot(c, vref)), Project(vref, c)))
  }

  /** When `vref` does not point along `c`, the residual is at least as long
      as `vref` itself: for `c . vref == 0` it is `vref`, and for
      `c . vref < 0` it is `vref` plus its own projection. */
  lemma {:induction false} ResidualLonger(t: Transcendentals, vref: Vec3, c: Vec3)
    requires t.Valid()
    requires !IsZero(c)
    ensures Dot(c, vref) <= 0.0 ==> Norm(t, Residual(vref, c)) >= Norm(t, vref)
  {
    var p := Project(vref, c);
    if Dot(c, vref) < 0.0 {
      assert Residual(vref, c) == Add(vref, p);
      AddProjectionLonger(vref, c);
      NormMonotone(t, Residual(vref, c), vref);
    } else if Dot(c, vref) == 0.0 {
      assert Residual(vref, c) == vref;
    }
  }

  /** A reference along `c` itself, scaled by `k > 0`, leaves no residual. */
  lemma {:induction false} ResidualOfAligned(c: Vec3, k: real)
    requires !IsZero(c) && k > 0.0
    ensures Dot(c, Scale(k, c)) > 0.0
    ensures IsZero(Residual(Scale(k, c), c))
  {
    var w := Scale(k, c);
    DotOfScaled(k, c, c);
    DotSelf(c);
    var p := Product(k, Dot(c, c));
    CrossOfScaled(k, c, c);
    ProjectUnique(w, c, w);
  }

  /** An aligned reference passes every non-negative tolerance with sign 1. */
  lemma {:induction false} AlignedAccepted(t: Transcendentals, c: Vec3, k: real, projtol: real)
    requires t.Valid()
    requires !IsZero(c) && k > 0.0 && projtol >= 0.0
    ensures Norm(t, Residual(Scale(k, c), c)) <= projtol
    ensures Dot(c, Scale(k, c)) > 0.0
  {
    ResidualOfAligned(c, k);
  }

  /** A reference longer than the tolerance whose residual is within it
      points along `c`. */
  lemma {:induction false} AcceptedIsAligned(t: Transcendentals, w: Vec3, c: Vec3, projtol: real)
    requires t.Valid()
    requires !IsZero(c)
    requires projtol < Norm(t, w)
    ensures Norm(t, Residual(w, c)) > projtol || Dot(c, w) > 0.0
  {
    ResidualLonger(t, w, c);
  }

  /** The signed twist of a link whose joint axes meet, as written. The cross
      product validates the directions; the scalar product with `vref` then
      hands the three-dimensional cross product to the 3x1 validator, so
      every call raises before `vref` is looked at. */
  function TwistReference(vs1: Array, vs2: Array, vref: Array, projtol: real): (r: Result<real>)
    ensures r == Err(VectorNot3x1)
  {
    var pvs :- CrossProduct(vs1, vs2);
    match CheckVector3OfRank3(pvs)
    case Fail(e) => Err(e)
  }

  /** The signed twist of a link whose joint axes meet, with the cross
      product taken as a 3x1 column and the reference test as written: the
      positive sense is given by `vref`. The directions and the reference are
      validated; then `vref` is refused when its residual exceeds `projtol`. */
  function TwistReferenceCorrected(t: Transcendentals, vs1: Array, vs2: Array, vref: Array, projtol: real): (r: Result<real>)
    requires t.Valid()
    requires Columns(vs1, vs2) ==> !IsZero(Cross(Entries(vs1), Entries(vs2)))
    ensures !Columns(vs1, vs2) || !IsColumn3(vref) ==> r == Err(VectorNot3x1)
    ensures r == Err(BadReference) <==>
      Columns(vs1, vs2) && IsColumn3(vref) &&
      Norm(t, Residual(Entries(vref), Cross(Entries(vs1), Entries(vs2)))) > projtol
    ensures r.Ok? ==> -t.pi <= r.value <= t.pi
  {
    var pvs :- CrossColumn(vs1, vs2);
    EntriesOfColumn(Cross(Entries(vs1), Entries(vs2)));
    var pe :- DotProduct(pvs, vref);
    var proj := Projection(vref, pvs).value;
    EntriesOfColumn(Project(Entries(vref), Entries(pvs)));
    var diff := Sub(Entries(vref), Scale(Sign(pe), Entries(proj)));
    if Norm(t, diff) > projtol then Err(BadReference)
    else
      Ok(Signed(VectorAngle(t, vs1, vs2).value, pe))
  }

  /** On valid arguments the routine refuses `vref` exactly when its residual
      exceeds the tolerance, and otherwise signs the angle by
      `(vs1 x vs2) . vref`. */
  lemma {:induction false} TwistReferenceCorrectedValue(t: Transcendentals, vs1: Array, vs2: Array, vref: Array, projtol: real)
    requires t.Valid()
    requires Columns(vs1, vs2) && IsColumn3(vref)
    requires !IsZero(Cross(Entries(vs1), Entries(vs2)))
    ensures TwistReferenceCorrected(t, vs1, vs2, vref, projtol)
         == var c := Cross(Entries(vs1), Entries(vs2));
            if Norm(t, Residual(Entries(vref), c)) > projtol then Err(BadReference)
            else Ok(Signed(Angle(t, Entries(vs1), Entries(vs2)), Dot(c, Entries(vref))))
  {
    var c := Cross(Entries(vs1), Entries(vs2));
    assert CheckVector3(vs1).Pass? && CheckVector3(vs2).Pass? && CheckVector3(vref).Pass?;
    EntriesOfColumn(c);
    EntriesOfColumn(Project(Entries(vref), c));
  }

  /** A negative tolerance refuses every reference. */
  lemma {:induction false} TwistReferenceNegativeTolerance(t: Transcendentals, vs1: Array, vs2: Array, vref: Array, projtol: real)
    requires t.Valid()
    requires Columns(vs1, vs2) ==> !IsZero(Cross(Entries(vs1), Entries(vs2)))
    requires projtol < 0.0
    ensures TwistReferenceCorrected(t, vs1, vs2, vref, projtol).Err?
  {
  }

  /** A reference pointing along `vs1 x vs2` is accepted at every tolerance
      and gives the unsigned angle. */
  lemma {:induction false} TwistReferenceAligned(t: Transcendentals, vs1: Array, vs2: Array, vref: Array, projtol: real, k: real)
    requires t.Valid()
    requires Columns(vs1, vs2) && IsColumn3(vref)
    requires !IsZero(Cross(Entries(vs1), Entries(vs2)))
    requires k > 0.0 && Entries(vref) == Scale(k, Cross(Entries(vs1), Entries(vs2)))
    requires projtol >= 0.0
    ensures TwistReferenceCorrected(t, vs1, vs2, vref, projtol) == Ok(Angle(t, Entries(vs1), Entries(vs2)))
  {
    var c := Cross(Entries(vs1), Entries(vs2));
    AlignedAccepted(t, c, k, projtol);
    TwistReferenceCorrectedValue(t, vs1, vs2, vref, projtol);
  }

  /** With the reference test as written, an accepted reference longer than the tolerance always
      gives the unsigned angle: a reference with `(vs1 x vs2) . vref <= 0` is
      at least as long as its residual and so is refused. */
  lemma {:induction false} TwistReferenceNeverNegative(t: Transcendentals, vs1: Array, vs2: Array, vref: Array, projtol: real)
    requires t.Valid()
    requires Columns(vs1, vs2) && IsColumn3(vref)
    requires !IsZero(Cross(Entries(vs1), Entries(vs2)))
    requires Norm(t, Entries(vref)) > projtol
    requires Norm(t, Residual(Entries(vref), Cross(Entries(vs1), Entries(vs2)))) <= projtol
    ensures TwistReferenceCorrected(t, vs1, vs2, vref, projtol) == Ok(Angle(t, Entries(vs1), Entries(vs2)))
  {
    var c := Cross(Entries(vs1), Entries(vs2));
    AcceptedIsAligned(t, Entries(vref), c, projtol);
    TwistReferenceCorrectedValue(t, vs1, vs2, vref, projtol);
  }

  /** With the reference test as written, the reference opposite to `vs1 x vs2`, which should give the
      negative twist, is refused at every tolerance below its length. */
  lemma {:induction false} TwistReferenceRejectsOpposite(t: Transcendentals, vs1: Array, vs2: Array, vref: Array, projtol: real)
    requires t.Valid()
    requires Columns(vs1, vs2) && IsColumn3(vref)
    requires !IsZero(Cross(Entries(vs1), Entries(vs2)))
    requires Entries(vref) == Scale(-1.0, Cross(Entries(vs1), Entries(vs2)))
    requires projtol < Norm(t, Cross(Entries(vs1), Entries(vs2)))
    ensures TwistReferenceCorrected(t, vs1, vs2, vref, projtol) == Err(BadReference)
  {
    var c := Cross(Entries(vs1), Entries(vs2));
    DotOfScaled(-1.0, c, c);
    DotSelf(c);
    NormScale(t, -1.0, c);
    ResidualLonger(t, Entries(vref), c);
    TwistReferenceCorrectedValue(t, vs1, vs2, vref, projtol);
  }

  /** The concurrent-axes twist with the cross product taken as a 3x1 column
      and the reference test the tolerance describes: `vref` must lie within `projtol` of the line of
      `vs1 x vs2`, in either sense, so `vref - proj(vref, vs1 x vs2)` is
      measured. */
  function TwistReferenceIntended(t: Transcendentals, vs1: Array, vs2: Array, vref: Array, projtol: real): (r: Result<real>)
    requires t.Valid()
    requires Columns(vs1, vs2) ==> !IsZero(Cross(Entries(vs1), Entries(vs2)))
    ensures !Columns(vs1, vs2) || !IsColumn3(vref) ==> r == Err(VectorNot3x1)
    ensures r == Err(BadReference) <==>
      Columns(vs1, vs2) && IsColumn3(vref) &&
      Norm(t, Rejection(Entries(vref), Cross(Entries(vs1), Entries(vs2)))) > projtol
    ensures r.Ok? <==>
      Columns(vs1, vs2) && IsColumn3(vref) &&
      Norm(t, Rejection(Entries(vref), Cross(Entries(vs1), Entries(vs2)))) <= projtol
    ensures r.Ok? ==> -t.pi <= r.value <= t.pi
    ensures r.Ok? ==>
      var ang := Angle(t, Entries(vs1), Entries(vs2));
      r.value == ang || r.value == -ang || r.value == 0.0
  {
    var pvs :- CrossColumn(vs1, vs2);
    EntriesOfColumn(Cross(Entries(vs1), Entries(vs2)));
    var pe :- DotProduct(pvs, vref);
    var proj := Projection(vref, pvs).value;
    EntriesOfColumn(Project(Entries(vref), Entries(pvs)));
    var diff := Sub(Entries(vref), Entries(proj));
    if Norm(t, diff) > projtol then Err(BadReference)
    else
      Ok(Signed(VectorAngle(t, vs1, vs2).value, pe))
  }

  /** On valid arguments the corrected routine refuses `vref` exactly when
      its distance to the line of `vs1 x vs2` exceeds the tolerance. */
  lemma {:induction false} TwistReferenceIntendedValue(t: Transcendentals, vs1: Array, vs2: Array, vref: Array, projtol: real)
    requires t.Valid()
    requires Columns(vs1, vs2) && IsColumn3(vref)
    requires !IsZero(Cross(Entries(vs1), Entries(vs2)))
    ensures TwistReferenceIntended(t, vs1, vs2, vref, projtol)
         == var c := Cross(Entries(vs1), Entries(vs2));
            if Norm(t, Rejection(Entries(vref), c)) > projtol then Err(BadReference)
            else Ok(Signed(Angle(t, Entries(vs1), Entries(vs2)), Dot(c, Entries(vref))))
  {
    var c := Cross(Entries(vs1), Entries(vs2));
    assert CheckVector3(vs1).Pass? && CheckVector3(vs2).Pass? && CheckVector3(vref).Pass?;
    EntriesOfColumn(c);
    EntriesOfColumn(Project(Entries(vref), c));
  }

  /** The corrected routine accepts a reference along the line of
      `vs1 x vs2` in either sense, at every tolerance, and the sense of the
      reference gives the sign of the twist. */
  lemma {:induction false} TwistReferenceIntendedSigned(t: Transcendentals, vs1: Array, vs2: Array, vref: Array, projtol: real, k: real)
    requires t.Valid()
    requires Columns(vs1, vs2) && IsColumn3(vref)
    requires !IsZero(Cross(Entries(vs1), Entries(vs2)))
    requires k != 0.0 && Entries(vref) == Scale(k, Cross(Entries(vs1), Entries(vs2)))
    requires projtol >= 0.0
    ensures TwistReferenceIntended(t, vs1, vs2, vref, projtol) == Ok(Signed(Angle(t, Entries(vs1), Entries(vs2)), k))
  {
    var c := Cross(Entries(vs1), Entries(vs2));
    CrossOfScaled(k, c, c);
    RejectionZero(Entries(vref), c);
    DotOfScaled(k, c, c);
    DotSelf(c);
    SignOfPositiveMultiple(Dot(c, c), k);
    TwistReferenceIntendedValue(t, vs1, vs2, vref, projtol);
  }

  /** The two routines agree on every reference that points along
      `vs1 x vs2`, where the sign they multiply by is 1. */
  lemma {:induction false} TwistReferenceAgrees(t: Transcendentals, vs1: Array, vs2: Array, vref: Array, projtol: real)
    requires t.Valid()
    requires Columns(vs1, vs2) && IsColumn3(vref)
    requires !IsZero(Cross(Entries(vs1), Entries(vs2)))
    requires Dot(Cross(Entries(vs1), Entries(vs2)), Entries(vref)) > 0.0
    ensures TwistReferenceCorrected(t, vs1, vs2, vref, projtol) == TwistReferenceIntended(t, vs1, vs2, vref, projtol)
  {
    var c := Cross(Entries(vs1), Entries(vs2));
    TwistReferenceCorrectedValue(t, vs1, vs2, vref, projtol);
    TwistReferenceIntendedValue(t, vs1, vs2, vref, projtol);
    assert Scale(1.0, Project(Entries(vref), c)) == Project(Entries(vref), c);
  }

  /** On valid columns and directions that are not parallel, every routine
      that hands the three-dimensional cross product to a 3x1 validator
      raises, where its counterpart built on the 3x1 cross product returns:
      the distance and the axis between the lines, and both twists. */
  lemma {:induction false} CrossShapeRaises(t: Transcendentals, po1: Array, vs1: Array, po2: Array, vs2: Array, vref: Array, angtol: real, projtol: real)
    requires t.Valid()
    requires Columns(vs1, vs2) && Columns(po1, po2) && IsColumn3(vref)
    requires angtol >= 0.0 && AxisDefined(t, po1, vs1, po2, vs2, angtol)
    requires !Parallel(t, Entries(vs1), Entries(vs2), angtol)
    ensures !IsZero(Cross(Entries(vs1), Entries(vs2)))
    ensures Distance(t, po1, vs1, po2, vs2, angtol) == Err(VectorNot3x1)
    ensures DistanceCorrected(t, po1, vs1, po2, vs2, angtol).Ok?
    ensures Axis(t, po1, vs1, po2, vs2, angtol) == Err(VectorNot3x1)
    ensures AxisCorrected(t, po1, vs1, po2, vs2, angtol).Ok?
    ensures TwistNonConcurrent(t, po1, vs1, po2, vs2, angtol) == Err(VectorNot3x1)
    ensures TwistNonConcurrentCorrected(t, po1, vs1, po2, vs2, angtol).Ok?
    ensures TwistReference(vs1, vs2, vref, projtol) == Err(VectorNot3x1)
    ensures TwistReferenceCorrected(t, vs1, vs2, vref, projtol) != Err(VectorNot3x1)
  {
    OffsetOfColumns(po1, po2);
    SkewHasNormal(t, vs1, vs2, angtol);
    DistanceCorrectionAgrees(t, po1, vs1, po2, vs2, angtol);
    AxisCorrectionAgrees(t, po1, vs1, po2, vs2, angtol);
    assert !ParallelTest(t, Entries(vs1), Entries(vs2), angtol);
    TwistReferenceCorrectedValue(t, vs1, vs2, vref, projtol);
  }
}
