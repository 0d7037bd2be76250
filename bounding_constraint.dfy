/**
  Bounding (inequality) constraints on a scalar function of one or two
  variables, as in gtsam/slam/BoundingConstraint.h.

  A constraint holds a threshold and a direction flag. The scalar itself is
  produced by a user-supplied `value` function (pure virtual in the source),
  which here is a function parameter `f` returning the scalar together with
  its Jacobian. The rules shared by the unary and the binary constraint
  (when the constraint is active, the signed error, the signed Jacobian) are
  defined once and used by both.
*/
module BoundingConstraint {

  import opened Wrappers

  /** A dense matrix, row by row; the Jacobians of `value` are 1 x N. */
  type Matrix = seq<seq<real>>

  /** The penalty weight used when the constructor is given none. */
  const DefaultMu: real := 1000.0

  /** The dimension of the error vector handed to the constraint base class. */
  const ErrorDim: nat := 1

  // ---------------------------------------------------------------------
  // Shared rules
  // ---------------------------------------------------------------------

  /** The factor the direction applies to the error and to the Jacobians. */
  function Sign(isGreaterThan: bool): (s: real)
    ensures s == 1.0 || s == -1.0
    ensures s > 0.0 <==> isGreaterThan
  {
    if isGreaterThan then 1.0 else -1.0
  }

  function ScaleRow(s: real, row: seq<real>): (r: seq<real>)
    ensures |r| == |row|
    ensures forall j :: 0 <= j < |r| ==> r[j] == s * row[j]
  {
    seq(|row|, j requires 0 <= j < |row| => s * row[j])
  }

  /** `s * m`, entry by entry, as Eigen's scalar-times-matrix. */
  function Scale(s: real, m: Matrix): (r: Matrix)
    ensures |r| == |m|
    ensures forall i :: 0 <= i < |r| ==> r[i] == ScaleRow(s, m[i])
  {
    seq(|m|, i requires 0 <= i < |m| => ScaleRow(s, m[i]))
  }

  lemma ScaleByOne(m: Matrix)
    ensures Scale(1.0, m) == m
  {
    forall i | 0 <= i < |m| ensures Scale(1.0, m)[i] == m[i] {
      assert ScaleRow(1.0, m[i]) == m[i];
    }
  }

  /** The bound the constraint enforces: strictly above the threshold for a
      greater-than constraint, strictly below it for a less-than one. */
  predicate Satisfied(isGreaterThan: bool, threshold: real, x: real)
  {
    if isGreaterThan then threshold < x else x < threshold
  }

  /** Active when the bound is not met; inclusive at the threshold, so a
      value sitting exactly on the threshold keeps the constraint active. */
  function IsActive(isGreaterThan: bool, threshold: real, x: real): (r: bool)
    ensures r <==> !Satisfied(isGreaterThan, threshold, x)
    ensures x == threshold ==> r
  {
    if isGreaterThan then x <= threshold else x >= threshold
  }

  /** The single entry of the error vector: `x - threshold`, negated for a
      less-than constraint. */
  function SignedError(isGreaterThan: bool, threshold: real, x: real): (e: real)
    ensures e == Sign(isGreaterThan) * (x - threshold)
    ensures e <= 0.0 <==> IsActive(isGreaterThan, threshold, x)
  {
    var error := x - threshold;
    if isGreaterThan then error else -1.0 * error
  }

  /** The Jacobian handed back: `D` for greater-than, `-D` for less-than. */
  function SignedJacobian(isGreaterThan: bool, d: Matrix): (h: Matrix)
    ensures h == Scale(Sign(isGreaterThan), d)
  {
    if isGreaterThan then (ScaleByOne(d); d) else Scale(-1.0, d)
  }

  /** An optional out-parameter: written only when the caller asks for it. */
  function Requested(wanted: bool, h: Matrix): (r: Option<Matrix>)
    ensures r.Some? <==> wanted
    ensures r.Some? ==> r.value == h
  {
    if wanted then Some(h) else None
  }

  // ---------------------------------------------------------------------
  // Unary constraint
  // ---------------------------------------------------------------------

  /** What `f(x, H)` produces: the scalar and its 1 x N Jacobian. */
  datatype Evaluation = Evaluation(value: real, jacobian: Matrix)

  /** What `evaluateError(x, H)` produces: the error vector and, when
      requested, the Jacobian written through `H`. */
  datatype Error1 = Error1(error: seq<real>, h: Option<Matrix>)

  /** `BoundingConstraint1`: the key of the constrained variable, the base
      class's dimension and penalty weight, the threshold and the direction. */
  datatype BoundingConstraint1<K(==)> = BoundingConstraint1(
    key: K, dim: nat, mu: real, threshold: real, isGreaterThan: bool)
  {
    /** `threshold()`: the stored bound. */
    function Threshold(): (t: real)
      ensures t == threshold
    {
      threshold
    }

    /** `isGreaterThan()`: the stored direction. */
    function IsGreaterThan(): (g: bool)
      ensures g == isGreaterThan
    {
      isGreaterThan
    }

    /** `active(c)`: looks the variable up in `c` and compares its value with
        the threshold; a missing key makes the lookup fail. */
    function Active<X>(f: X -> Evaluation, c: map<K, X>): (r: Option<bool>)
      ensures r.Some? <==> key in c
      ensures r.Some? ==>
        (r.value <==> !Satisfied(isGreaterThan, threshold, f(c[key]).value))
    {
      if key in c then Some(IsActive(isGreaterThan, threshold, f(c[key]).value))
      else None
    }

    /** `evaluateError(x, H)`. */
    function EvaluateError<X>(f: X -> Evaluation, x: X, wantH: bool): (r: Error1)
      ensures |r.error| == ErrorDim
      ensures r.error[0] == Sign(isGreaterThan) * (f(x).value - threshold)
      ensures r.h.Some? <==> wantH
      ensures wantH ==> r.h.value == Scale(Sign(isGreaterThan), f(x).jacobian)
    {
      var e := f(x);
      Error1([SignedError(isGreaterThan, threshold, e.value)],
             Requested(wantH, SignedJacobian(isGreaterThan, e.jacobian)))
    }
  }

  /** The constructor `BoundingConstraint1(key, threshold, isGreaterThan, mu)`;
      the base class is given dimension 1. */
  function NewBoundingConstraint1<K(==)>(key: K, threshold: real, isGreaterThan: bool,
                                         mu: real := DefaultMu)
    : (r: BoundingConstraint1<K>)
    ensures r.Threshold() == threshold && r.IsGreaterThan() == isGreaterThan
    ensures r.key == key && r.mu == mu && r.dim == ErrorDim
  {
    BoundingConstraint1(key, 1, mu, threshold, isGreaterThan)
  }

  // ---------------------------------------------------------------------
  // Binary constraint
  // ---------------------------------------------------------------------

  /** What `f(x1, x2, H1, H2)` produces: the scalar and its Jacobians with
      respect to each of the two variables. */
  datatype Evaluation2 = Evaluation2(value: real, jacobian1: Matrix, jacobian2: Matrix)

  /** What `evaluateError(x1, x2, H1, H2)` produces. */
  datatype Error2 = Error2(error: seq<real>, h1: Option<Matrix>, h2: Option<Matrix>)

  /** `BoundingConstraint2`: as the unary one, over two variables. The typed
      values container is two maps, one per key type. */
  datatype BoundingConstraint2<K1(==), K2(==)> = BoundingConstraint2(
    key1: K1, key2: K2, dim: nat, mu: real, threshold: real, isGreaterThan: bool)
  {
    /** `threshold()`: the stored bound. */
    function Threshold(): (t: real)
      ensures t == threshold
    {
      threshold
    }

    /** `isGreaterThan()`: the stored direction. */
    function IsGreaterThan(): (g: bool)
      ensures g == isGreaterThan
    {
      isGreaterThan
    }

    /** `active(c)`: both variables are looked up; either missing key makes
        the lookup fail. */
    function Active<X1, X2>(f: (X1, X2) -> Evaluation2, c1: map<K1, X1>, c2: map<K2, X2>)
      : (r: Option<bool>)
      ensures r.Some? <==> key1 in c1 && key2 in c2
      ensures r.Some? ==>
        (r.value <==> !Satisfied(isGreaterThan, threshold, f(c1[key1], c2[key2]).value))
    {
      if key1 in c1 && key2 in c2 then
        Some(IsActive(isGreaterThan, threshold, f(c1[key1], c2[key2]).value))
      else None
    }

    /** `evaluateError(x1, x2, H1, H2)`. */
    function EvaluateError<X1, X2>(f: (X1, X2) -> Evaluation2, x1: X1, x2: X2,
                                   wantH1: bool, wantH2: bool): (r: Error2)
      ensures |r.error| == ErrorDim
      ensures r.error[0] == Sign(isGreaterThan) * (f(x1, x2).value - threshold)
      ensures r.h1.Some? <==> wantH1
      ensures r.h2.Some? <==> wantH2
      ensures wantH1 ==> r.h1.value == Scale(Sign(isGreaterThan), f(x1, x2).jacobian1)
      ensures wantH2 ==> r.h2.value == Scale(Sign(isGreaterThan), f(x1, x2).jacobian2)
    {
      var e := f(x1, x2);
      Error2([SignedError(isGreaterThan, threshold, e.value)],
             Requested(wantH1, SignedJacobian(isGreaterThan, e.jacobian1)),
             Requested(wantH2, SignedJacobian(isGreaterThan, e.jacobian2)))
    }
  }

  /** The constructor `BoundingConstraint2(key1, key2, threshold, isGreaterThan, mu)`. */
  function NewBoundingConstraint2<K1(==), K2(==)>(key1: K1, key2: K2, threshold: real,
                                                  isGreaterThan: bool, mu: real := DefaultMu)
    : (r: BoundingConstraint2<K1, K2>)
    ensures r.Threshold() == threshold && r.IsGreaterThan() == isGreaterThan
    ensures r.key1 == key1 && r.key2 == key2 && r.mu == mu && r.dim == ErrorDim
  {
    BoundingConstraint2(key1, key2, 1, mu, threshold, isGreaterThan)
  }

  // ---------------------------------------------------------------------
  // Properties
  // ---------------------------------------------------------------------

  /** The constraint is active exactly when its error entry is not positive. */
  lemma ActiveIffErrorNonPositive1<K, X>(c: BoundingConstraint1<K>, f: X -> Evaluation,
                                             values: map<K, X>, wantH: bool)
    requires c.key in values
    ensures c.Active(f, values) ==
            Some(c.EvaluateError(f, values[c.key], wantH).error[0] <= 0.0)
  {
  }

  lemma ActiveIffErrorNonPositive2<K1, K2, X1, X2>(
    c: BoundingConstraint2<K1, K2>, f: (X1, X2) -> Evaluation2,
    c1: map<K1, X1>, c2: map<K2, X2>, wantH1: bool, wantH2: bool)
    requires c.key1 in c1 && c.key2 in c2
    ensures c.Active(f, c1, c2) ==
            Some(c.EvaluateError(f, c1[c.key1], c2[c.key2], wantH1, wantH2).error[0] <= 0.0)
  {
  }

  /** At the threshold the constraint is active whichever the direction. */
  lemma ActiveAtThreshold1<K, X>(key: K, threshold: real, mu: real,
                                     f: X -> Evaluation, values: map<K, X>)
    requires key in values && f(values[key]).value == threshold
    ensures NewBoundingConstraint1(key, threshold, true, mu).Active(f, values) == Some(true)
    ensures NewBoundingConstraint1(key, threshold, false, mu).Active(f, values) == Some(true)
  {
  }

  lemma ActiveAtThreshold2<K1, K2, X1, X2>(
    key1: K1, key2: K2, threshold: real, mu: real,
    f: (X1, X2) -> Evaluation2, c1: map<K1, X1>, c2: map<K2, X2>)
    requires key1 in c1 && key2 in c2 && f(c1[key1], c2[key2]).value == threshold
    ensures NewBoundingConstraint2(key1, key2, threshold, true, mu).Active(f, c1, c2) == Some(true)
    ensures NewBoundingConstraint2(key1, key2, threshold, false, mu).Active(f, c1, c2) == Some(true)
  {
  }

  /** Switching the direction and keeping the threshold negates the error. */
  lemma FlipNegatesError1<K, X>(c: BoundingConstraint1<K>, f: X -> Evaluation,
                                    x: X, wantH: bool)
    ensures c.EvaluateError(f, x, wantH).error ==
            ScaleRow(-1.0, c.(isGreaterThan := !c.isGreaterThan).EvaluateError(f, x, wantH).error)
  {
  }

  lemma FlipNegatesError2<K1, K2, X1, X2>(
    c: BoundingConstraint2<K1, K2>, f: (X1, X2) -> Evaluation2,
    x1: X1, x2: X2, wantH1: bool, wantH2: bool)
    ensures c.EvaluateError(f, x1, x2, wantH1, wantH2).error ==
            ScaleRow(-1.0, c.(isGreaterThan := !c.isGreaterThan)
                            .EvaluateError(f, x1, x2, wantH1, wantH2).error)
  {
  }

  /** Which Jacobians are requested changes neither the error nor the other
      Jacobian. */
  lemma RequestsAreIndependent2<K1, K2, X1, X2>(
    c: BoundingConstraint2<K1, K2>, f: (X1, X2) -> Evaluation2,
    x1: X1, x2: X2, wantH1: bool, wantH2: bool)
    ensures var r := c.EvaluateError(f, x1, x2, wantH1, wantH2);
            var all := c.EvaluateError(f, x1, x2, true, true);
            && r.error == all.error
            && r.h1 == (if wantH1 then all.h1 else None)
            && r.h2 == (if wantH2 then all.h2 else None)
  {
  }

  lemma RequestIsIndependent1<K, X>(c: BoundingConstraint1<K>, f: X -> Evaluation, x: X)
    ensures c.EvaluateError(f, x, false).error == c.EvaluateError(f, x, true).error
    ensures c.EvaluateError(f, x, false).h == None
  {
  }

  // ---------------------------------------------------------------------
  // The returned Jacobian is the derivative of the returned error
  // ---------------------------------------------------------------------

  /** The product of a Jacobian row with a tangent vector. */
  function Dot(row: seq<real>, x: seq<real>): (r: real)
    requires |row| == |x|
  {
    if row == [] then 0.0 else row[0] * x[0] + Dot(row[1..], x[1..])
  }

  lemma {:induction false} DotScaleRow(s: real, row: seq<real>, x: seq<real>)
    requires |row| == |x|
    ensures Dot(ScaleRow(s, row), x) == s * Dot(row, x)
  {
    if row != [] {
      forall j | 0 <= j < |row| - 1 ensures ScaleRow(s, row)[1..][j] == ScaleRow(s, row[1..])[j] {
      }
      assert ScaleRow(s, row)[1..] == ScaleRow(s, row[1..]);
      DotScaleRow(s, row[1..], x[1..]);
      calc {
        Dot(ScaleRow(s, row), x);
        s * row[0] * x[0] + Dot(ScaleRow(s, row[1..]), x[1..]);
        s * row[0] * x[0] + s * Dot(row[1..], x[1..]);
        s * (row[0] * x[0] + Dot(row[1..], x[1..]));
      }
    }
  }

  /** The error, as a function of a tangent vector `x` on which the scalar
      depends affinely (`a + row . x`), is itself affine, and its slope is the
      row of the Jacobian handed back: the returned Jacobian is the derivative
      of the returned error, in both directions. */
  lemma SignedJacobianIsDerivative(isGreaterThan: bool, threshold: real, a: real,
                                   row: seq<real>, x: seq<real>)
    requires |x| == |row|
    ensures |SignedJacobian(isGreaterThan, [row])| == 1
    ensures SignedError(isGreaterThan, threshold, a + Dot(row, x))
         == SignedError(isGreaterThan, threshold, a) + Dot(SignedJacobian(isGreaterThan, [row])[0], x)
  {
    var s := Sign(isGreaterThan);
    assert SignedJacobian(isGreaterThan, [row])[0] == ScaleRow(s, row);
    DotScaleRow(s, row, x);
  }

  /** `evaluateError` of a unary constraint whose `value` is affine in the
      tangent vector, reporting its own slope as Jacobian: the error moves
      with `x` exactly along the Jacobian written to `H`. */
  lemma JacobianIsDerivative1<K>(c: BoundingConstraint1<K>, f: seq<real> -> Evaluation,
                                 a: real, row: seq<real>, x: seq<real>)
    requires |x| == |row|
    requires f(x) == Evaluation(a + Dot(row, x), [row])
    ensures var r := c.EvaluateError(f, x, true);
            && r.h == Some(SignedJacobian(c.isGreaterThan, [row]))
            && |r.h.value| == 1
            && r.error[0] == SignedError(c.isGreaterThan, c.threshold, a) + Dot(r.h.value[0], x)
  {
    SignedJacobianIsDerivative(c.isGreaterThan, c.threshold, a, row, x);
  }

  /** The same for a binary constraint, with each variable's Jacobian. */
  lemma JacobianIsDerivative2<K1, K2>(
    c: BoundingConstraint2<K1, K2>, f: (seq<real>, seq<real>) -> Evaluation2,
    a: real, row1: seq<real>, row2: seq<real>, x1: seq<real>, x2: seq<real>)
    requires |x1| == |row1| && |x2| == |row2|
    requires f(x1, x2) == Evaluation2(a + Dot(row1, x1) + Dot(row2, x2), [row1], [row2])
    ensures var r := c.EvaluateError(f, x1, x2, true, true);
            && r.h1 == Some(SignedJacobian(c.isGreaterThan, [row1]))
            && r.h2 == Some(SignedJacobian(c.isGreaterThan, [row2]))
            && |r.h1.value| == 1 && |r.h2.value| == 1
            && r.error[0] == SignedError(c.isGreaterThan, c.threshold, a)
                             + Dot(r.h1.value[0], x1) + Dot(r.h2.value[0], x2)
  {
    SignedJacobianIsDerivative(c.isGreaterThan, c.threshold, a + Dot(row1, x1), row2, x2);
    SignedJacobianIsDerivative(c.isGreaterThan, c.threshold, a, row1, x1);
  }
}
