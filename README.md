# Bounding constraints and stereo calibration (GTSAM), modelled in Dafny

This project models two small value-level components of the GTSAM
factor-graph library and proves properties of them. All scalars are modelled
as exact real numbers.

**Bounding constraints** (`gtsam/slam/BoundingConstraint.h`). An inequality
constraint forces a scalar function of one variable (`BoundingConstraint1`)
or two variables (`BoundingConstraint2`) to be above or below a fixed
threshold. The scalar comes from a user-supplied `value` function. In the
source it is pure virtual; here it is a function parameter that returns the
scalar and its Jacobian (`Evaluation`, `Evaluation2`). The constraint is
*active* when the bound is not met, including at equality. `evaluateError`
returns the one-entry error vector. For a less-than constraint it negates the
error and also the Jacobians it writes. The rules shared by the two arities
are defined once (`IsActive`, `SignedError`, `SignedJacobian`, `Requested`)
and used by both datatypes. The optional out-parameters `H`, `H1` and `H2`
are modelled as `Option` fields of the result. The values container `c` is
modelled as a map from key to value, one map per key type in the binary
case. A key missing from the container makes `Active` return `None`.

**Stereo calibration** (`gtsam/geometry/Cal3_S2Stereo.h`). `Cal3_S2Stereo`
holds a monocular `Cal3_S2` calibration (fx, fy, skew s, principal point u0,
v0) and a stereo baseline b. It models the composition of those two parts.
The model covers the constructors, `calibration()`, `baseline()`, the 6-vector
form `vector()`, `dim()`/`Dim()`, and the manifold operations `retract` and
`localCoordinates`. Both manifold operations are componentwise over the
6-vector, so the identity and round-trip laws are proved exactly.

Files:
- `wrappers.dfy`: the `Option` datatype.
- `bounding_constraint.dfy`: module `BoundingConstraint`.
- `cal3_s2_stereo.dfy`: module `StereoCalibration`.

## Model

| member | source | states |
|---|---|---|
| `BoundingConstraint.NewBoundingConstraint1` | gtsam/slam/BoundingConstraint.h:40-46 | the constructor keeps key, threshold, direction and mu as given. `threshold()` and `isGreaterThan()` return exactly the given threshold and direction. The base dimension is 1. |
| `BoundingConstraint.NewBoundingConstraint2` | gtsam/slam/BoundingConstraint.h:106-111 | the same for the binary constraint, with both keys kept |
| `BoundingConstraint.BoundingConstraint1.Threshold` | gtsam/slam/BoundingConstraint.h:45 | `threshold()` returns the stored threshold, the one the constructor was given |
| `BoundingConstraint.BoundingConstraint1.IsGreaterThan` | gtsam/slam/BoundingConstraint.h:46 | `isGreaterThan()` returns the stored direction flag, the one the constructor was given |
| `BoundingConstraint.BoundingConstraint2.Threshold` | gtsam/slam/BoundingConstraint.h:110 | the same as the unary `threshold()`, for the binary constraint |
| `BoundingConstraint.BoundingConstraint2.IsGreaterThan` | gtsam/slam/BoundingConstraint.h:111 | the same as the unary `isGreaterThan()`, for the binary constraint |
| `BoundingConstraint.IsActive` | gtsam/slam/BoundingConstraint.h:58-60 | the constraint is active exactly when the strict bound (above the threshold for greater-than, below it for less-than) is not met. It is therefore active at the threshold itself. |
| `BoundingConstraint.SignedError` | gtsam/slam/BoundingConstraint.h:66-75 | the error entry is `sign * (value - threshold)`, where sign is +1 for greater-than and -1 for less-than. The entry is <= 0 exactly when the constraint is active. |
| `BoundingConstraint.SignedJacobian` | gtsam/slam/BoundingConstraint.h:67-70 | the Jacobian handed back is the `value` Jacobian D scaled by the same sign: D for greater-than, -D for less-than |
| `BoundingConstraint.Requested` | gtsam/slam/BoundingConstraint.h:67-70 | an optional Jacobian output is present exactly when the caller asks for it, and then it holds the given matrix |
| `BoundingConstraint.BoundingConstraint1.Active` | gtsam/slam/BoundingConstraint.h:57-61 | the lookup succeeds exactly when the key is in the values container. The result is true exactly when the looked-up value does not strictly satisfy the bound. |
| `BoundingConstraint.BoundingConstraint2.Active` | gtsam/slam/BoundingConstraint.h:122-126 | the same, with both keys looked up |
| `BoundingConstraint.BoundingConstraint1.EvaluateError` | gtsam/slam/BoundingConstraint.h:63-76 | the error vector has length 1 and its entry is `sign * (value(x) - threshold)`. H is written exactly when requested, and it then equals `sign * D`. |
| `BoundingConstraint.BoundingConstraint2.EvaluateError` | gtsam/slam/BoundingConstraint.h:128-146 | the same for two variables. H1 and H2 are each written exactly when requested, each with the sign applied to its own Jacobian. |
| `BoundingConstraint.ActiveIffErrorNonPositive1` | gtsam/slam/BoundingConstraint.h:57-75 | `active` agrees with `evaluateError`: active exactly when the error entry is <= 0, in both directions |
| `BoundingConstraint.ActiveIffErrorNonPositive2` | gtsam/slam/BoundingConstraint.h:122-145 | the same for the binary constraint |
| `BoundingConstraint.ActiveAtThreshold1` | gtsam/slam/BoundingConstraint.h:57-61 | a value equal to the threshold makes the constraint active for both greater-than and less-than |
| `BoundingConstraint.ActiveAtThreshold2` | gtsam/slam/BoundingConstraint.h:122-126 | the same for the binary constraint |
| `BoundingConstraint.FlipNegatesError1` | gtsam/slam/BoundingConstraint.h:72-75 | flipping the direction while keeping the threshold negates the error vector |
| `BoundingConstraint.FlipNegatesError2` | gtsam/slam/BoundingConstraint.h:142-145 | the same for the binary constraint |
| `BoundingConstraint.RequestIsIndependent1` | gtsam/slam/BoundingConstraint.h:63-76 | requesting H does not change the error. Without a request, no H is produced. |
| `BoundingConstraint.RequestsAreIndependent2` | gtsam/slam/BoundingConstraint.h:128-146 | the error does not depend on which of H1 and H2 are requested. Each Jacobian is the full-request one when requested and absent otherwise. |
| `BoundingConstraint.SignedJacobianIsDerivative` | gtsam/slam/BoundingConstraint.h:65-70 | take a scalar that is affine in a tangent vector with slope `row`. The error is then affine in that vector, and its slope is exactly the row of the Jacobian handed back. So the returned Jacobian is the derivative of the returned error. |
| `BoundingConstraint.JacobianIsDerivative1` | gtsam/slam/BoundingConstraint.h:63-76 | for a `value` that is affine and reports its slope, `evaluateError` returns an error that moves with x exactly along the H it writes |
| `BoundingConstraint.JacobianIsDerivative2` | gtsam/slam/BoundingConstraint.h:128-146 | the same for two variables: the error moves along H1 in x1 and along H2 in x2 |
| `StereoCalibration.DefaultCal3_S2Stereo` | gtsam/geometry/Cal3_S2Stereo.h:44 | the default calibration has fx = fy = 1, skew = u0 = v0 = 0 and baseline 1 |
| `StereoCalibration.NewCal3_S2Stereo` | gtsam/geometry/Cal3_S2Stereo.h:47-49 | the six-double constructor stores the fields as given, in the 6-vector order. `baseline()` returns b. |
| `StereoCalibration.FromVector` | gtsam/geometry/Cal3_S2Stereo.h:52-53 | the vector constructor reads fx, fy, s, u0, v0 and b from entries 0 to 5, in that order |
| `StereoCalibration.Cal3_S2Stereo.Calibration` | gtsam/geometry/Cal3_S2Stereo.h:73 | `calibration()` is the monocular part: its 5-vector is the first five entries of the stereo 6-vector, without the baseline |
| `StereoCalibration.Cal3_S2Stereo.Baseline` | gtsam/geometry/Cal3_S2Stereo.h:79 | `baseline()` returns b, the sixth entry of the 6-vector |
| `StereoCalibration.Cal3_S2Stereo.Vector` | gtsam/geometry/Cal3_S2Stereo.h:82-86 | `vector()`, as intended: 6 entries, the monocular 5-vector followed by the baseline |
| `StereoCalibration.Cal3_S2Stereo.Dim` | gtsam/geometry/Cal3_S2Stereo.h:93 | `dim()` equals the length of `vector()` and equals `Dim()` |
| `StereoCalibration.StaticDim` | gtsam/geometry/Cal3_S2Stereo.h:96 | the static `Dim()` is the `dimension` constant, 6 |
| `StereoCalibration.Cal3_S2Stereo.Retract` | gtsam/geometry/Cal3_S2Stereo.h:99-102 | the 6-vector of `retract(d)` is this calibration's 6-vector plus d(0..5), componentwise |
| `StereoCalibration.Cal3_S2Stereo.LocalCoordinates` | gtsam/geometry/Cal3_S2Stereo.h:105-107 | `localCoordinates(T2)` is a 6-vector whose entry i is `T2.vector()[i] - vector()[i]`. It uses the intended `Vector()`: as written, `localCoordinates` calls the self-recursive `vector()` and never returns (see Findings). |
| `StereoCalibration.VectorInjective` | gtsam/geometry/Cal3_S2Stereo.h:82-86 | two calibrations with the same 6-vector are equal |
| `StereoCalibration.FromVectorOfVector` | gtsam/geometry/Cal3_S2Stereo.h:52-53 | constructing from `c.vector()` gives back c |
| `StereoCalibration.VectorOfFromVector` | gtsam/geometry/Cal3_S2Stereo.h:52-53 | the 6-vector of a calibration built from a 6-vector d is d |
| `StereoCalibration.RetractZero` | gtsam/geometry/Cal3_S2Stereo.h:99-102 | retracting by the zero 6-vector gives an equal calibration |
| `StereoCalibration.LocalCoordinatesSelf` | gtsam/geometry/Cal3_S2Stereo.h:105-107 | the local coordinates of a calibration with respect to itself are the zero 6-vector |
| `StereoCalibration.LocalCoordinatesOfRetract` | gtsam/geometry/Cal3_S2Stereo.h:99-107 | `c.localCoordinates(c.retract(d))` gives back d(0..5) |
| `StereoCalibration.RetractOfLocalCoordinates` | gtsam/geometry/Cal3_S2Stereo.h:99-107 | `c.retract(c.localCoordinates(T2))` gives back T2 |
| `StereoCalibration.VectorAsWritten` | gtsam/geometry/Cal3_S2Stereo.h:82-86 | `vector()` as written, with the call stack bounded by a depth: each call makes the same call first, and any value it could produce would end with the baseline b |
| `StereoCalibration.VectorAsWrittenNeverReturns` | gtsam/geometry/Cal3_S2Stereo.h:82-86 | `vector()` as written never returns, whatever the depth of the call stack |

## Left out

- The body of `value(...)` is pure virtual in the source. It is a function parameter here, and its scalar is taken to be the same whether or not a Jacobian is requested.
- The penalty weight `mu` and the constraint dimension are only stored. The `NonlinearConstraint1` and `NonlinearConstraint2` base classes that use them are not part of this model.
- A values container that lacks a key: the container is not part of this model. Its failing lookup is modelled as `None` from `Active`, not as a thrown exception.
- `serialize` in both headers, and the `traits` specializations of `Cal3_S2Stereo`: serialization and template plumbing.
- `print` is output only. `equals` is declared but not defined in the header.
- The field-of-view constructor of `Cal3_S2Stereo` needs trigonometry inside `Cal3_S2`, and `Cal3_S2.h` is not part of this model.
- `K()`: its body calls itself, as `vector()` does. The matrix it evidently means comes from `Cal3_S2`, which is not part of this model.
- `Cal3_S2` itself is reduced to its five fields, its accessors (`Skew`, `Px`, `Py`) and its 5-vector layout (fx, fy, s, u0, v0).
- Floating point: all scalars are finite reals, so the round-trip laws hold exactly here; in IEEE doubles they hold only up to rounding. Infinities and NaN are not modelled either: with value and threshold both +infinity, `active` holds but the error `inf - inf` is NaN, so `ActiveIffErrorNonPositive1` and `ActiveIffErrorNonPositive2` hold only for finite scalars.
- `FromVector` and `Retract` require at least six entries. The source indexes `d(0)` to `d(5)` with no check, so a shorter vector is an error that the source does not handle.
- `ShonanAveraging` is left out: its header holds only declarations, and the numerical work they stand for (sparse matrices, an eigensolver, an external optimizer, random initialization, file loading) is not in the header.

## Findings

| source | as written | input that shows it | evidently intended | confidence | as-written member | corrected member |
|---|---|---|---|---|---|---|
| gtsam/geometry/Cal3_S2Stereo.h:82-86 | inside `Cal3_S2Stereo`, the unqualified call `vector()` names the member itself, so `vector()` calls itself without end and never returns. `localCoordinates` (lines 105-107) calls it and fails the same way. | any calibration, for example the default one | the base class's 5-vector (fx, fy, s, u0, v0) followed by the baseline b | high; not executed | `StereoCalibration.VectorAsWrittenNeverReturns` | `StereoCalibration.Cal3_S2Stereo.Vector` |
