/**
  The stereo camera calibration of gtsam/geometry/Cal3_S2Stereo.h: the five
  intrinsics of a monocular calibration (focal lengths fx and fy, skew s,
  principal point u0, v0) plus the stereo baseline b, as an immutable value
  with the manifold operations `retract` and `localCoordinates`.

  The stereo calibration owns a monocular calibration value rather than
  inheriting from it. Scalars are real numbers, so componentwise arithmetic
  is exact.
*/
module StereoCalibration {

  import opened Wrappers

  type Vector = seq<real>

  /** The five-parameter monocular calibration that `Cal3_S2Stereo` extends.
      Only the fields, their accessors and the 5-vector layout are used. */
  datatype Cal3_S2 = Cal3_S2(fx: real, fy: real, s: real, u0: real, v0: real)
  {
    /** The skew between the image axes. */
    function Skew(): (r: real)
      ensures r == Vector()[2]
    {
      s
    }

    /** The principal point's first coordinate. */
    function Px(): (r: real)
      ensures r == Vector()[3]
    {
      u0
    }

    /** The principal point's second coordinate. */
    function Py(): (r: real)
      ensures r == Vector()[4]
    {
      v0
    }

    /** The monocular 5-vector (fx, fy, s, u0, v0). */
    function Vector(): (v: Vector)
      ensures |v| == 5
      ensures v[0] == fx && v[1] == fy && v[2] == s && v[3] == u0 && v[4] == v0
    {
      [fx, fy, s, u0, v0]
    }
  }

  /** The dimension of the calibration manifold (the `dimension` enum). */
  const dimension: nat := 6

  /** `Cal3_S2Stereo::Dim()`, the static tangent-space dimension (named
      apart from the per-object `dim()`, which is `Cal3_S2Stereo.Dim`). */
  function StaticDim(): (n: nat)
    ensures n == dimension
  {
    dimension
  }

  /** Componentwise sum of two vectors of equal length. */
  function Add(a: Vector, b: Vector): (r: Vector)
    requires |a| == |b|
    ensures |r| == |a|
    ensures forall i :: 0 <= i < |r| ==> r[i] == a[i] + b[i]
  {
    seq(|a|, i requires 0 <= i < |a| => a[i] + b[i])
  }

  /** Componentwise difference of two vectors of equal length. */
  function Sub(a: Vector, b: Vector): (r: Vector)
    requires |a| == |b|
    ensures |r| == |a|
    ensures forall i :: 0 <= i < |r| ==> r[i] == a[i] - b[i]
  {
    seq(|a|, i requires 0 <= i < |a| => a[i] - b[i])
  }

  function Zeros(n: nat): (r: Vector)
    ensures |r| == n
    ensures forall i :: 0 <= i < n ==> r[i] == 0.0
  {
    seq(n, i => 0.0)
  }

  datatype Cal3_S2Stereo = Cal3_S2Stereo(k: Cal3_S2, b: real)
  {
    /** `calibration()`: the monocular part, the same for left and right. */
    function Calibration(): (c: Cal3_S2)
      ensures c.Vector() == Vector()[..5]
    {
      k
    }

    /** `baseline()`: the entry the stereo 6-vector adds after the
        monocular five. */
    function Baseline(): (r: real)
      ensures r == Vector()[5]
    {
      b
    }

    /** `vector()` as intended: the monocular 5-vector followed by the
        baseline. (As written, the source's `vector()` calls itself; see
        `VectorAsWritten`.) */
    function Vector(): (v: Vector)
      ensures |v| == dimension
      ensures v[..5] == k.Vector() && v[5] == b
    {
      k.Vector() + [b]
    }

    /** `dim()`, the tangent-space dimension of this calibration. */
    function Dim(): (n: nat)
      ensures n == |Vector()| == StaticDim()
    {
      dimension
    }

    /** `retract(d)`: adds d(0..5) to fx, fy, skew, px, py and the baseline. */
    function Retract(d: Vector): (r: Cal3_S2Stereo)
      requires |d| >= dimension
      ensures r.Vector() == Add(Vector(), d[..dimension])
    {
      NewCal3_S2Stereo(k.fx + d[0], k.fy + d[1], k.Skew() + d[2], k.Px() + d[3],
                       k.Py() + d[4], b + d[5])
    }

    /** `localCoordinates(T2)`: the difference of the two 6-vectors, taken
        with the intended `Vector()`. (As written, the source's
        `localCoordinates` calls the self-recursive `vector()` and so never
        returns either; see `VectorAsWritten`.) */
    function LocalCoordinates(t2: Cal3_S2Stereo): (v: Vector)
      ensures |v| == dimension
      ensures forall i :: 0 <= i < dimension ==> v[i] == t2.Vector()[i] - Vector()[i]
    {
      Sub(t2.Vector(), Vector())
    }
  }

  /** The default constructor: unit focal lengths, no skew, principal point
      at the origin, unit baseline. */
  function DefaultCal3_S2Stereo(): (c: Cal3_S2Stereo)
    ensures c.Vector() == [1.0, 1.0, 0.0, 0.0, 0.0, 1.0]
  {
    Cal3_S2Stereo(Cal3_S2(1.0, 1.0, 0.0, 0.0, 0.0), 1.0)
  }

  /** The constructor from six doubles. */
  function NewCal3_S2Stereo(fx: real, fy: real, s: real, u0: real, v0: real, b: real)
    : (c: Cal3_S2Stereo)
    ensures c.Vector() == [fx, fy, s, u0, v0, b]
    ensures c.Baseline() == b
  {
    Cal3_S2Stereo(Cal3_S2(fx, fy, s, u0, v0), b)
  }

  /** The constructor from a vector, reading d(0) .. d(5). */
  function FromVector(d: Vector): (c: Cal3_S2Stereo)
    requires |d| >= dimension
    ensures c.Vector() == d[..dimension]
  {
    NewCal3_S2Stereo(d[0], d[1], d[2], d[3], d[4], d[5])
  }

  // ---------------------------------------------------------------------
  // Properties
  // ---------------------------------------------------------------------

  /** The 6-vector determines the calibration. */
  lemma VectorInjective(c1: Cal3_S2Stereo, c2: Cal3_S2Stereo)
    requires c1.Vector() == c2.Vector()
    ensures c1 == c2
  {
  }

  /** Constructing from `c.vector()` gives back `c`. */
  lemma FromVectorOfVector(c: Cal3_S2Stereo)
    ensures FromVector(c.Vector()) == c
  {
  }

  /** `vector()` of a calibration built from a 6-vector gives back the vector. */
  lemma VectorOfFromVector(d: Vector)
    requires |d| == dimension
    ensures FromVector(d).Vector() == d
  {
  }

  /** Retracting by the zero vector changes nothing. */
  lemma RetractZero(c: Cal3_S2Stereo)
    ensures c.Retract(Zeros(dimension)) == c
  {
  }

  /** The local coordinates of a calibration with respect to itself are zero. */
  lemma LocalCoordinatesSelf(c: Cal3_S2Stereo)
    ensures c.LocalCoordinates(c) == Zeros(dimension)
  {
  }

  /** `localCoordinates` undoes `retract`. */
  lemma LocalCoordinatesOfRetract(c: Cal3_S2Stereo, d: Vector)
    requires |d| >= dimension
    ensures c.LocalCoordinates(c.Retract(d)) == d[..dimension]
  {
  }

  /** `retract` undoes `localCoordinates`. */
  lemma RetractOfLocalCoordinates(c: Cal3_S2Stereo, t2: Cal3_S2Stereo)
    ensures c.Retract(c.LocalCoordinates(t2)) == t2
  {
  }

  // ---------------------------------------------------------------------
  // vector() as written
  // ---------------------------------------------------------------------

  /** The source's `vector()` as written: inside the class the unqualified
      call `vector()` names the member itself, so every call first makes the
      same call again before it could append the baseline. `depth` bounds the
      call stack; `None` is a call that has not returned when the stack is
      used up. */
  function VectorAsWritten(c: Cal3_S2Stereo, depth: nat): (r: Option<Vector>)
    ensures r.Some? ==> |r.value| > 0 && r.value[|r.value| - 1] == c.b
  {
    if depth == 0 then None
    else
      match VectorAsWritten(c, depth - 1)
      case None => None
      case Some(inner) => Some(inner + [c.b])
  }

  /** However deep the call stack, the as-written `vector()` never returns a
      value. */
  lemma {:induction false} VectorAsWrittenNeverReturns(c: Cal3_S2Stereo, depth: nat)
    ensures VectorAsWritten(c, depth) == None
  {
    if depth > 0 {
      VectorAsWrittenNeverReturns(c, depth - 1);
    }
  }
}
