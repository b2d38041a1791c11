# RobPy geometry core in Dafny

RobPy is a small NumPy module of 3-D geometry for robot kinematics. It has four parts:

1. Column-vector algebra: creating and checking 3x1 vectors, scalar and cross products, norm, projection and angle.
2. Elementary rotation matrices about x, y and z.
3. Homogeneous transforms: the determinant test for a rotation, the 4x4 operator built from a rotation and an origin, and its application to a vector.
4. Line geometry for Denavit–Hartenberg style link parameters: the distance between two lines, the unit axis from line 1 to line 2, and the signed twist angle of a link, for non-concurrent and for concurrent joint axes.

This project models those routines as pure Dafny functions over real numbers and proves what they compute.

Layout, one module per file:

| file | module | models |
|---|---|---|
| `errors.dfy` | `Errors` | the distinct `ValueError`s the module raises and the NumPy shape errors, as a `Result`/`Check` pair |
| `numerics.dfy` | `Numerics` | `np.abs`, `np.sign`, and the `Transcendentals` record carrying `np.sqrt`, `np.arccos` and `np.pi` |
| `vectors.dfy` | `Vectors` | the component kernel: `Vec3`, dot and cross products, norm, projection, rejection, normalisation, angle |
| `shapes.dfy` | `Shapes` | NumPy arrays as lists of rows (and the one three-dimensional array the module builds), the shape checks, `cria_vetor3`, `cria_vetor4`, broadcasting subtraction |
| `algebra.dfy` | `Algebra` | the array-level vector routines of part 1 |
| `rotations.dfy` | `Rotations` | 3x3 matrices, the determinant, the three elementary rotations |
| `transforms.dfy` | `Transforms` | `checa_matriz_rotacao`, `cria_operador4`, `constroi_vetor` |
| `lines.dfy` | `Lines` | the three distance routines |
| `axes.dfy` | `Axes` | the three axis routines |
| `twist.dfy` | `Twist` | the two twist-angle routines |

Modelling choices:

- A NumPy array is `seq<seq<real>>`, a list of rows. A column vector is a 3x1 array, so a 1x3 row fails the 3x1 check, just as it does in NumPy. The cross product, which the module builds with three dimensions, is `seq<seq<seq<real>>>`.
- Each raising routine returns a `Result`. There is one error kind per distinct message in the source. `BroadcastMismatch` and `ConcatenateMismatch` stand for NumPy's own shape errors.
- `np.sqrt`, `np.arccos` and `np.pi` are function values in a `Transcendentals` record. Its `Valid()` predicate states the only facts the proofs use: the square root of a non-negative number is its non-negative root, and the square root of 0 is 0; arccos maps [-1, 1] into [0, pi], with arccos(1) = 0 and arccos(-1) = pi; pi > 3. Nothing else about arccos, such as monotonicity, is assumed.
- The rotation builders take the cosine `c` and sine `s` of the angle instead of the angle. Facts that hold for a real angle are stated under `c * c + s * s == 1`.
- `np.linalg.det` is the cofactor expansion of a 3x3 matrix.
- Where the source would divide by zero, the model has a precondition. Those cases are:
  - projecting on a zero vector;
  - the angle with a zero vector;
  - normalising a zero cross product or a zero rejection.

  The scalar product returns a Python `float` (RobPy.py:39), so projecting on a zero vector divides two Python floats (RobPy.py:70) and raises `ZeroDivisionError`; the precondition leaves that error path out. The other cases divide by a NumPy scalar and yield `nan` or `inf` without raising. One `nan` is modelled, because it decides a branch: the angle with a zero direction is `arccos(nan)`, both comparisons of the parallel test are false, and the routines as written take the non-parallel branch (`Lines.ParallelTest`).

Where the code and its accompanying description differ, the model follows the code. Where the code is evidently wrong, the model also has a corrected form, named `...Corrected` or `...Intended`, and "## Findings" says why:

- `ang_twist_dir_nc_rad` computes `produto_vetorial(vs1, vs2)` before it calls `eixo_reta_12`. So a badly shaped direction is reported as a shape error even when `angtol` is negative.
- `ang_twist_dir_ref_rad` never checks the sign of `projtol`. A negative tolerance rejects every reference (`Twist.TwistReferenceNegativeTolerance`).
- `produto_vetorial` returns an array of shape (3, 1, 1), not the documented 3x1 column (first row of "## Findings"). So the non-parallel branches of `distancia_entre_retas` and `eixo_reta_12`, and both twist routines, raise the 3x1 error on every input that gets that far. Only the parallel branches return.
- With the 3x1 cross product, `__eixo_reta_12_np` would return the zero vector, not a unit vector, when the two lines meet. In that case `np.sign` of a zero scalar product is 0 (`Axes.MeetingLinesAxisZero`).
- `eixo_reta_12` never checks the shapes of `po1` and `po2` itself. `po2 - po1` broadcasts, and only the later scalar product insists on a 3x1 offset. `Shapes.Difference` models the broadcasting subtraction.

## Model

| member | source | states |
|---|---|---|
| Shapes.MakeVector3 | RobPy.py:8-16 | a list of length 3 becomes the 3x1 column holding its entries in order; any other length is refused with the list-length error |
| Shapes.MakeVector3Accepted | RobPy.py:8-26 | a vector made from three numbers passes the 3x1 check and holds those numbers |
| Shapes.CheckVector3 | RobPy.py:19-26 | passes exactly for 3x1 arrays, and fails with the 3x1 error otherwise |
| Shapes.CheckVector4 | RobPy.py:184-191 | passes exactly for 4x1 arrays, and fails with the 4x1 error otherwise |
| Shapes.CheckVector3OfRank3 | RobPy.py:19-26 | the 3x1 check refuses every array of three dimensions with the 3x1 error, whatever its entries |
| Shapes.CheckMatrix33 | RobPy.py:195-202 | passes exactly for 3x3 arrays, and fails with the 3x3 error otherwise |
| Shapes.CheckMatrix44 | RobPy.py:205-212 | passes exactly for 4x4 arrays, and fails with the 4x4 error otherwise |
| Shapes.MakeVector4 | RobPy.py:215-222 | appending along axis 0 succeeds exactly for single-column arrays; the rows are kept in order and `[1]` is added last; otherwise it is a concatenation error |
| Shapes.MakeVector4OfColumn | RobPy.py:215-222 | a 3x1 column becomes the 4x1 homogeneous vector `(x, y, z, 1)`, which passes the 4x1 check |
| Shapes.Difference | RobPy.py:365 | array subtraction succeeds exactly when both shapes broadcast, and the result has the broadcast shape |
| Shapes.DifferenceOfColumns | RobPy.py:304 | the difference of two 3x1 columns is the column of component differences |
| Shapes.DifferenceWithScalar | RobPy.py:365 | a 1x1 array broadcasts against a column, so the subtraction does not raise but yields a 3x1 column |
| Vectors.Cross | RobPy.py:94-98 | the cross product is orthogonal to both operands |
| Vectors.CrossAntiCommutative | RobPy.py:94-98 | swapping the operands negates the cross product |
| Vectors.Lagrange | RobPy.py:94-98 | `|a|^2 |b|^2 = (a.b)^2 + |a x b|^2` |
| Vectors.Norm | RobPy.py:42-48 | the norm is non-negative, squares to `v.v`, and is zero exactly for the zero vector |
| Vectors.NormScale | RobPy.py:42-48 | the norm of `k v` is `|k|` times the norm of `v` |
| Vectors.Project | RobPy.py:70-71 | the projection is collinear with `v2`, and what remains of `v1` is orthogonal to `v2` |
| Vectors.ProjectUnique | RobPy.py:70-71 | any vector collinear with `v2` that leaves an orthogonal residual is the projection |
| Vectors.ProjectIdempotent | RobPy.py:70-71 | projecting a projection on the same vector leaves it unchanged |
| Vectors.ProjectionLength | RobPy.py:51-58 | the projection's length times `|v2|` is `|v1.v2|` |
| Vectors.Rejection | RobPy.py:326 | `v1` minus its projection is orthogonal to `v2`, and adding the projection back gives `v1` |
| Vectors.RejectionZero | RobPy.py:326 | the rejection is zero exactly when `v1` is collinear with `v2` |
| Vectors.Normalize | RobPy.py:306 | dividing by the norm gives a unit vector in the same direction |
| Vectors.Cosine | RobPy.py:81 | the argument of arccos lies in [-1, 1] and times `|v1| |v2|` is `v1.v2` |
| Vectors.Angle | RobPy.py:81 | the angle lies in [0, pi] |
| Vectors.AngleWithItself | RobPy.py:81 | a non-zero vector makes angle 0 with itself |
| Vectors.AngleWithOpposite | RobPy.py:81 | a non-zero vector makes angle pi with its opposite |
| Vectors.AngleOfCollinear | RobPy.py:81 | two collinear non-zero vectors make angle 0 or pi |
| Algebra.DotProduct | RobPy.py:29-39 | fails with the 3x1 error unless both arguments are 3x1 columns, and is then the sum of products of components |
| Algebra.DotProductSymmetric | RobPy.py:29-39 | the scalar product does not depend on argument order, including which error it raises |
| Algebra.VectorNorm | RobPy.py:42-48 | the norm of a 3x1 column is non-negative, squares to `v.v`, and is zero exactly for the zero column |
| Algebra.CrossProduct | RobPy.py:84-98 | fails unless both are 3x1 columns; then holds the components of `v1 x v2`, but in an array of shape (3, 1, 1) that the 3x1 check refuses |
| Algebra.CrossColumn | RobPy.py:84-98 | the documented 3x1 result (corrected): fails unless both are 3x1 columns, and is then the column of `v1 x v2`, whose scalar product with each operand is 0 |
| Algebra.CrossProductAntiCommutative | RobPy.py:84-98 | `v2 x v1 = -(v1 x v2)` at the array level |
| Algebra.Projection | RobPy.py:61-71 | fails unless both are 3x1 columns, and is then a column collinear with `v2` whose residual is orthogonal to `v2` |
| Algebra.ProjectionIdempotent | RobPy.py:61-71 | projecting the projection again changes nothing |
| Algebra.ProjectionSize | RobPy.py:51-58 | the size of the projection is non-negative, and times `|v2|` it is `|v1.v2|` |
| Algebra.VectorAngle | RobPy.py:74-81 | fails unless both are 3x1 columns, and is then the arccos of the normalised scalar product, in [0, pi] |
| Algebra.VectorAngleExtremes | RobPy.py:74-81 | equal columns give 0, opposite columns give pi, and collinear columns give 0 or pi |
| Rotations.Det3IsTripleProduct | RobPy.py:237 | the determinant is the scalar triple product of the rows |
| Rotations.IdentityNeutral | RobPy.py:243 | the default rotation `np.eye(3)` leaves vectors and matrices unchanged and has determinant 1 |
| Rotations.MatMulApplies | RobPy.py:280 | applying a matrix product is applying its factors in turn |
| Rotations.FromArray | RobPy.py:146-148 | reading a 3x3 array as a matrix loses nothing: writing it back gives the same array |
| Rotations.FromToArray | RobPy.py:146-148 | writing a matrix to an array and reading it back gives the matrix |
| Rotations.RotationX | RobPy.py:136-148 | the rotation about x leaves the x axis fixed |
| Rotations.RotationY | RobPy.py:151-163 | the rotation about y leaves the y axis fixed |
| Rotations.RotationZ | RobPy.py:166-178 | the rotation about z leaves the z axis fixed |
| Rotations.RotationMatrixX | RobPy.py:136-148 | the returned 3x3 array holds the rotation about x |
| Rotations.RotationMatrixY | RobPy.py:151-163 | the returned 3x3 array holds the rotation about y |
| Rotations.RotationMatrixZ | RobPy.py:166-178 | the returned 3x3 array holds the rotation about z |
| Rotations.RotationXDeterminant | RobPy.py:136-148 | the determinant is `cos^2 + sin^2` |
| Rotations.RotationYDeterminant | RobPy.py:151-163 | the determinant is `cos^2 + sin^2` |
| Rotations.RotationZDeterminant | RobPy.py:166-178 | the determinant is `cos^2 + sin^2` |
| Rotations.RotationXProduct | RobPy.py:136-148 | the rotation by `-theta` is the transpose, and their product is the identity scaled by `cos^2 + sin^2` off the axis |
| Rotations.RotationYProduct | RobPy.py:151-163 | the rotation by `-theta` is the transpose, and their product is the identity scaled by `cos^2 + sin^2` off the axis |
| Rotations.RotationZProduct | RobPy.py:166-178 | the rotation by `-theta` is the transpose, and their product is the identity scaled by `cos^2 + sin^2` off the axis |
| Rotations.RotationXInverse | RobPy.py:136-148 | for a real angle, the rotation by `-theta` undoes it, so the matrix is orthogonal |
| Rotations.RotationYInverse | RobPy.py:151-163 | for a real angle, the rotation by `-theta` undoes it, so the matrix is orthogonal |
| Rotations.RotationZInverse | RobPy.py:166-178 | for a real angle, the rotation by `-theta` undoes it, so the matrix is orthogonal |
| Rotations.OrthogonalPreservesDot | RobPy.py:136-178 | an orthogonal matrix preserves scalar products, hence lengths and angles |
| Transforms.CheckRotation | RobPy.py:224-239 | a negative tolerance is refused first, then a non-3x3 matrix; a 3x3 matrix passes exactly when its determinant is within the tolerance of 1 |
| Transforms.CheckRotationMonotone | RobPy.py:233-239 | a matrix accepted under a tolerance is accepted under any larger one |
| Transforms.UnitDeterminantPasses | RobPy.py:233-239 | every 3x3 matrix of determinant 1 passes under any non-negative tolerance |
| Transforms.RotationXPasses | RobPy.py:224-239 | the rotation about x passes the rotation test for a real angle |
| Transforms.RotationYPasses | RobPy.py:224-239 | the rotation about y passes the rotation test for a real angle |
| Transforms.RotationZPasses | RobPy.py:224-239 | the rotation about z passes the rotation test for a real angle |
| Transforms.StretchRejected | RobPy.py:237-239 | a stretch of determinant 2 is refused as not a rotation under any tolerance below 1 |
| Transforms.MakeOperator4 | RobPy.py:243-259 | the rotation test's error comes first, then the origin's shape error; on success the result is 4x4 with the rotation top-left, the origin in the last column and `[0, 0, 0, 1]` as the last row |
| Transforms.RowTimesColumn4 | RobPy.py:280 | a row of four entries times a column is the four-term sum of products |
| Transforms.MatrixProductOfMatrices | RobPy.py:280 | on 3x3 arrays `@` agrees with the matrix product of the `Mat3` kernel, whose application is composition (`Rotations.MatMulApplies`) |
| Transforms.OperatorApplies | RobPy.py:276-282 | the first three rows of the 4x4 operator times `(v, 1)` are `R v + o` |
| Transforms.TransformVector | RobPy.py:262-282 | the vector's shape error comes first, then the operator's errors; on success the result is `R v_b + o` |
| Transforms.TransformIdentity | RobPy.py:262-265 | with the default identity rotation and zero origin, a vector is returned unchanged |
| Transforms.TransformCompose | RobPy.py:262-282 | two transforms in turn are one transform with the product rotation and the carried origin |
| Transforms.TransformInverse | RobPy.py:262-282 | for an orthogonal rotation, transforming by `(R^T, -R^T o)` undoes the transform |
| Lines.CollinearIsParallel | RobPy.py:344-345 | collinear directions are classified as parallel under every positive angle tolerance |
| Lines.ZeroToleranceNeverParallel | RobPy.py:344-345 | with tolerance 0 the strict test never classifies two directions as parallel |
| Lines.SkewHasNormal | RobPy.py:344-348 | for every positive tolerance, directions classified as not parallel have a non-zero cross product, so the skew routine may normalise it; at tolerance 0, where collinear directions are classified as not parallel, the non-zero cross product is the `Directions` precondition |
| Lines.ParallelDistanceFormula | RobPy.py:325-326 | the rejection's length times `|v|` is `|d x v|`, and the rejection is zero exactly when `d` is collinear with `v` |
| Lines.UnitProjectionLength | RobPy.py:306-307 | the projection on a unit vector has length `|d.n|` |
| Lines.SkewDistanceFormula | RobPy.py:304-307 | projecting on the normalised common normal gives length `|d.(vs1 x vs2)| / |vs1 x vs2|` |
| Lines.NormalizedDot | RobPy.py:306 | the absolute scalar product with the normalised vector, scaled back by the norm, is the absolute scalar product with the vector itself |
| Lines.DistanceSkew | RobPy.py:288-307 | as written, raises the 3x1 error on every input: a badly shaped direction or point fails its check, and otherwise the norm of the three-dimensional cross product fails it |
| Lines.DistanceSkewCorrected | RobPy.py:288-307 | with the 3x1 cross product: fails unless all four are 3x1 columns; otherwise the distance is non-negative and, times `|vs1 x vs2|`, equals `|(po1 - po2).(vs1 x vs2)|` |
| Lines.DistanceSkewCorrectedValue | RobPy.py:288-307 | unfolds the body: with the 3x1 cross product, on valid input the distance is the length of the offset's projection on the unit common normal |
| Lines.OrthogonalOffsetDistance | RobPy.py:304-307 | an offset orthogonal to the common normal gives distance 0 |
| Lines.MeetingLinesDistanceZero | RobPy.py:288-307 | with the 3x1 cross product, two non-parallel lines that meet are at distance 0 |
| Lines.CombinationOrthogonal | RobPy.py:304-305 | every combination of the two directions is orthogonal to their cross product |
| Lines.DistanceParallel | RobPy.py:310-326 | fails unless all three are 3x1 columns; otherwise the distance is non-negative, times `|vs|` equals `|(po1 - po2) x vs|`, and is zero exactly when the lines coincide |
| Lines.DistanceParallelValue | RobPy.py:310-326 | unfolds the body: on valid input the distance is the length of the offset's rejection from the direction |
| Lines.Distance | RobPy.py:329-348 | as written: a negative tolerance is refused first, then badly shaped directions; a distance is returned exactly for parallel directions and 3x1 points, is non-negative, and times `|vs1|` equals `|(po1 - po2) x vs1|`; with a non-negative tolerance every error is the 3x1 error |
| Lines.DistanceCorrected | RobPy.py:329-348 | with the 3x1 cross product: the same errors first; then every pair of 3x1 points gets a non-negative distance, from the parallel or the skew formula as the angle test decides |
| Lines.DistanceCorrectionAgrees | RobPy.py:288-348 | wherever the routine as written returns, the corrected one returns the same distance; on valid columns the routine as written raises exactly for non-parallel directions, where the corrected one returns |
| Axes.Oriented | RobPy.py:363-366 | the axis is collinear with the common normal, and its scalar product with the offset is non-negative; it is a unit vector unless the offset is orthogonal to the normal, in which case it is zero |
| Axes.OrientedIsSigned | RobPy.py:363-366 | unfolds the body: the axis is the unit normal times the sign of its scalar product with the offset |
| Axes.OrientedAbsolute | RobPy.py:366 | the offset's scalar product with the axis is the absolute value of its scalar product with the unit normal |
| Axes.OrientedOrthogonal | RobPy.py:363-366 | the axis is orthogonal to every vector the normal is orthogonal to |
| Axes.OrientedSign | RobPy.py:366 | the axis points along the normal exactly when the offset does, and is zero when the offset is orthogonal to it |
| Axes.Across | RobPy.py:379-381 | the parallel axis is a unit vector orthogonal to the direction; the offset's scalar product with it is the (positive) distance |
| Axes.OffsetOfColumns | RobPy.py:365 | for 3x1 points, the offset is defined and is `po2 - po1` |
| Axes.AxisSkew | RobPy.py:352-366 | as written, raises the 3x1 error on every input: a badly shaped direction fails the cross product's check, and otherwise the norm of the three-dimensional cross product fails it |
| Axes.AxisSkewCorrected | RobPy.py:352-366 | with the 3x1 cross product: the direction shape error comes first, then a broadcast error; on success the axis is a column orthogonal to both directions with a non-negative scalar product with the offset, and it is unit exactly when the lines do not meet |
| Axes.AxisSkewCorrectedValue | RobPy.py:352-366 | unfolds the body: with the 3x1 cross product, on valid input the axis is the unit normal oriented along the offset |
| Axes.AxisSkewComponent | RobPy.py:363-366 | with the 3x1 cross product, the offset's scalar product with the skew axis is the absolute value of its component along the unit normal |
| Axes.AxisSkewMeasuresDistance | RobPy.py:288-366 | with the 3x1 cross product, the offset's scalar product with the skew axis is the skew distance |
| Axes.MeetingLinesAxisZero | RobPy.py:352-366 | with the 3x1 cross product, for two non-parallel lines that meet, the skew axis is the zero vector |
| Axes.AxisParallel | RobPy.py:370-381 | a broadcast error comes first; on success the axis is a unit column orthogonal to the direction, and the offset's scalar product with it is the positive distance |
| Axes.AxisParallelValue | RobPy.py:370-381 | unfolds the body: on valid input the axis is the normalised rejection of the offset |
| Axes.AxisParallelMeasuresDistance | RobPy.py:370-381 | the offset's scalar product with the parallel axis is the parallel distance |
| Axes.Axis | RobPy.py:385-402 | as written: a negative tolerance is refused first, then badly shaped directions; an axis is returned exactly for parallel directions with a 3x1 offset, and is a unit column orthogonal to `vs1` whose scalar product with the offset is the distance; with a non-negative tolerance the only error other than the 3x1 error is the broadcast error of parallel directions whose points do not broadcast |
| Axes.AxisCorrected | RobPy.py:385-402 | with the 3x1 cross product: the same errors first, then a broadcast error; the angle test chooses the parallel or skew axis; the axis is orthogonal to `vs1` and never points against the offset |
| Axes.AxisMeasuresDistance | RobPy.py:385-402 | with the 3x1 cross product, in both branches, the offset's scalar product with the axis is the distance between the lines |
| Axes.AxisCorrectionAgrees | RobPy.py:352-402 | wherever the routine as written returns, the corrected one returns the same axis; on valid columns the routine as written raises exactly for non-parallel directions, where the corrected one returns |
| Numerics.Sign | RobPy.py:366 | `np.sign`: 1, 0 or -1 with the sign of `x`, and `sign(x) x = |x|` |
| Numerics.Signed | RobPy.py:421 | an angle times `np.sign(x)`: the angle for positive `x`, its opposite for negative `x`, 0 for 0 |
| Twist.TwistNonConcurrent | RobPy.py:405-421 | as written, never returns: the cross product's shape error comes before the tolerance error, then a broadcast error from the parallel axis, and every other input raises the 3x1 error at the scalar product |
| Twist.TwistNonConcurrentCorrected | RobPy.py:405-421 | with the 3x1 cross product: the same errors first; a twist is the angle, its opposite or 0, and lies in [-pi, pi] |
| Twist.TwistNonConcurrentCorrectedValue | RobPy.py:416-421 | unfolds the body: with the 3x1 cross product, on valid input the twist is the angle signed by `(vs1 x vs2).e12` |
| Twist.TwistNonConcurrentSkew | RobPy.py:405-421 | with the 3x1 cross product, for non-parallel directions the twist is the angle signed by the offset's scalar product with `vs1 x vs2`, so it is positive when line 2 lies on the side `vs1 x vs2` points to |
| Twist.TwistOfMeetingAxes | RobPy.py:405-421 | with the 3x1 cross product, for non-parallel axes that meet, the twist is 0 |
| Twist.ResidualLonger | RobPy.py:437 | for a reference not pointing along `vs1 x vs2`, the residual the routine compares with the tolerance is at least as long as the reference |
| Twist.ResidualOfAligned | RobPy.py:437 | a reference pointing along `vs1 x vs2` leaves a zero residual |
| Twist.AlignedAccepted | RobPy.py:437-438 | a reference pointing along `vs1 x vs2` passes the residual test under any non-negative tolerance |
| Twist.AcceptedIsAligned | RobPy.py:437-438 | a reference longer than the tolerance passes the test only if its scalar product with `vs1 x vs2` is positive |
| Twist.TwistReference | RobPy.py:424-440 | as written, raises the 3x1 error on every input: a badly shaped direction fails the cross product's check, and otherwise the scalar product with `vref` fails it on the three-dimensional cross product |
| Twist.TwistReferenceCorrected | RobPy.py:424-440 | with the 3x1 cross product and the reference test as written: the shape error comes first; the reference is refused exactly when the residual the routine compares with the tolerance is longer than the tolerance; a twist lies in [-pi, pi] |
| Twist.TwistReferenceCorrectedValue | RobPy.py:434-440 | unfolds the body: with the 3x1 cross product, on valid input the routine refuses a long residual and otherwise returns the angle signed by `(vs1 x vs2).vref` |
| Twist.TwistReferenceNegativeTolerance | RobPy.py:437-438 | with the 3x1 cross product, a negative tolerance makes the routine fail on every input |
| Twist.TwistReferenceAligned | RobPy.py:424-440 | with the 3x1 cross product, a reference along `vs1 x vs2` gives the unsigned angle |
| Twist.TwistReferenceNeverNegative | RobPy.py:434-440 | with the 3x1 cross product, every accepted reference longer than the tolerance gives the unsigned angle, never its opposite |
| Twist.TwistReferenceRejectsOpposite | RobPy.py:434-438 | with the 3x1 cross product, the reference `-(vs1 x vs2)` is refused whenever the tolerance is below its length |
| Twist.TwistReferenceIntended | RobPy.py:424-440 | with the 3x1 cross product and the residual taken as the rejection of `vref` from `vs1 x vs2`, the reference is refused exactly when that rejection is longer than the tolerance, a twist is returned exactly for 3x1 arguments whose rejection is within it, and the twist is the angle, its opposite or 0, in [-pi, pi] |
| Twist.TwistReferenceIntendedValue | RobPy.py:434-440 | unfolds the body: on valid input the intended routine refuses a long rejection and otherwise returns the angle signed by `(vs1 x vs2).vref` |
| Twist.TwistReferenceIntendedSigned | RobPy.py:424-440 | with the intended test, a reference `k (vs1 x vs2)` with `k != 0` gives the angle signed by `k`, so both orientations are reachable |
| Twist.TwistReferenceAgrees | RobPy.py:434-440 | for a reference with positive scalar product with `vs1 x vs2`, the routine with the test as written and the intended one agree |
| Twist.CrossShapeRaises | RobPy.py:288-440 | for valid columns and non-parallel directions, the distance, the axis and both twists as written raise the 3x1 error, while the routines built on the 3x1 cross product return |

## Left out

- `plota_vetor3` (RobPy.py:103-133) draws with matplotlib. It is plotting I/O and computes nothing.
- Floating point: all arithmetic is on exact reals. No rounding, overflow, `nan` or `inf` is modelled.
- The values of `np.sqrt` and `np.arccos` beyond the facts listed above. In particular, which angles count as parallel under a given `angtol` depends on arccos and is kept abstract.
- `np.sin` and `np.cos`: the rotation builders take the cosine and sine rather than the angle. The relation `cos^2 + sin^2 = 1` is a precondition where needed.
- Division by zero: projecting on a zero vector, the angle with a zero vector, the corrected skew routines on parallel directions, the parallel axis for coincident lines, and the corrected reference twists for collinear `vs1` and `vs2` are preconditions. Projecting on a zero vector, which the corrected reference twists do when `vs1` and `vs2` are collinear, raises `ZeroDivisionError` in the source (RobPy.py:70 divides two Python floats); the model does not have that error. The other cases divide by a NumPy scalar and yield `nan` or `inf` without raising; only the `nan` angle of a zero direction is modelled, as described above.
- Arrays other than 2-D: the model has no 1-D arrays. The only array of three dimensions is the result of `produto_vetorial`, and the only operation on it is the 3x1 check.
- Type coercions of `np.asarray`: lists are taken to hold reals.
- Default arguments (`angtol=1e-3`, `det_tol=0.01`, `projtol=1e-3`) are explicit parameters. The default rotation and origin of the transforms are named constants in `Transforms`.
- Axes.Axis: requires `ParallelDistinct`, because for coincident parallel lines RobPy.py:381 divides by a zero norm and returns a `nan` array, which the model cannot represent.
- Twist.TwistNonConcurrent: inherits the `ParallelDistinct` precondition from `Axes.Axis`. For coincident parallel lines the source gets the `nan` axis from RobPy.py:381 without raising and then raises the 3x1 error at RobPy.py:419 all the same, so the precondition excludes an input the source handles.
- Lines.SkewHasNormal: at tolerance 0 the non-zero cross product of collinear directions is assumed through `Directions`, not derived, because the source would divide by zero there.
- Twist.TwistReferenceCorrected: its contract does not state that the value is the angle, its opposite or 0. That fact follows from `Twist.TwistReferenceCorrectedValue` and `Numerics.Signed`.

## Findings

| source | as written | input that shows it | evidently intended | confidence | as-written member | corrected member |
|---|---|---|---|---|---|---|
| RobPy.py:94-98 | `produto_vetorial` indexes its 3x1 operands with one index, so each `v1[i]` is a one-entry row and each entry of the nested list is a one-entry array; `np.asarray` makes the result shape (3, 1, 1). Each routine that hands it to `checa_vetor3` raises: lines 306, 364, 419 and 435. So the non-parallel distance and axis, and both twist routines, never return. | `vs1 = (1,0,0)`, `vs2 = (0,1,0)`, `po1 = (0,0,0)`, `po2 = (0,0,1)`, all 3x1, `angtol = 1e-3`: the directions are orthogonal, so `distancia_entre_retas` takes the non-parallel branch and `norma_vetor(v2)` at line 306 raises "O vetor deveria ser 3X1" instead of returning 1 | return the documented 3x1 column, `[[v1[1,0]*v2[2,0] - v1[2,0]*v2[1,0]], ...]` | not executed; high (follows from NumPy's indexing rules) | Twist.CrossShapeRaises | Algebra.CrossColumn |
| RobPy.py:437-440 | the reference is tested with `norm(vref - proj(vref, pvs) * sign(pe)) > projtol`; for `pe < 0` this adds the projection instead of removing it, so every reference pointing against `vs1 x vs2` and longer than `projtol` is refused, and a negative twist is never returned | as written, line 435 raises the 3x1 error first, because `pvs` has shape (3, 1, 1) (row above). With the 3x1 cross product: `vs1 = (1,0,0)`, `vs2 = (0,1,0)`, `vref = (0,0,-1)`, `projtol = 1e-3` give the residual `(0,0,-2)`, of length 2, so the routine raises instead of returning `-pi/2` | test the rejection `norm(vref - proj(vref, pvs)) > projtol`, so that `vref` only has to be collinear with `vs1 x vs2` and its orientation chooses the sign | not executed; medium (follows from the docstring's purpose of `vref` defining the positive direction) | Twist.TwistReferenceRejectsOpposite | Twist.TwistReferenceIntendedSigned |
