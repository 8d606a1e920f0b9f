/** Exact values of parameters and gradients, and the engine's in-place update
    `value += multiplier * direction`, written as a pure function.

    The engine works on floating-point arrays; here every entry is an exact `real`.
 */
module Tensors {
  import opened Nn

  /** A row of numbers; the perceptron's `1 x d` weight and its data points are rows. */
  type Vector = seq<real>

  /** A matrix as a sequence of rows. */
  type Matrix = seq<Vector>

  /** `m` is a `s.rows x s.cols` matrix. */
  predicate HasShape(m: Matrix, s: Shape)
  {
    |m| == s.rows && forall i :: 0 <= i < |m| ==> |m[i]| == s.cols
  }

  /** `a` and `b` have the same number of rows and equally long rows. */
  predicate SameShape(a: Matrix, b: Matrix)
  {
    |a| == |b| && forall i :: 0 <= i < |a| ==> |a[i]| == |b[i]|
  }

  /** Dot product of two rows of one length. */
  function Dot(a: Vector, b: Vector): real
    requires |a| == |b|
  {
    if |a| == 0 then 0.0 else a[0] * b[0] + Dot(a[1..], b[1..])
  }

  /** `v + m * d`, entry by entry. */
  function Axpy(v: Vector, d: Vector, m: real): (r: Vector)
    requires |v| == |d|
    ensures |r| == |v|
    ensures forall i :: 0 <= i < |r| ==> r[i] == v[i] + m * d[i]
  {
    seq(|v|, i requires 0 <= i < |v| => v[i] + m * d[i])
  }

  /** `Parameter.update(direction, multiplier)`: every entry of the value moves by
      `multiplier` times the matching entry of the direction, and the shape is kept. */
  function Update(value: Matrix, direction: Matrix, multiplier: real): (r: Matrix)
    requires SameShape(value, direction)
    ensures SameShape(r, value)
    ensures forall s :: HasShape(value, s) ==> HasShape(r, s)
    ensures forall i, j :: 0 <= i < |r| && 0 <= j < |r[i]| ==>
              r[i][j] == value[i][j] + multiplier * direction[i][j]
  {
    seq(|value|, i requires 0 <= i < |value| => Axpy(value[i], direction[i], multiplier))
  }

  /** Moving a row along a direction changes its dot product with `x` linearly:
      `(v + m*d) . x == v . x + m * (d . x)`. */
  lemma {:induction false} DotAxpy(v: Vector, d: Vector, m: real, x: Vector)
    requires |v| == |d| == |x|
    ensures Dot(Axpy(v, d, m), x) == Dot(v, x) + m * Dot(d, x)
  {
    if |v| > 0 {
      var r := Axpy(v, d, m);
      AxpyTail(v, d, m);
      DotAxpy(v[1..], d[1..], m, x[1..]);
      var a, b, c := v[0], d[0], x[0];
      var dv, dd := Dot(v[1..], x[1..]), Dot(d[1..], x[1..]);
      Distribute(a, b, c, m, dd);
      assert Dot(r, x) == (a + m * b) * c + (dv + m * dd);
      assert Dot(v, x) == a * c + dv;
      assert Dot(d, x) == b * c + dd;
    }
  }

  /** The first entry and the rest of `v + m * d`. */
  lemma AxpyTail(v: Vector, d: Vector, m: real)
    requires |v| == |d| > 0
    ensures Axpy(v, d, m)[0] == v[0] + m * d[0]
    ensures Axpy(v, d, m)[1..] == Axpy(v[1..], d[1..], m)
  {
    var r := Axpy(v, d, m);
    var t := Axpy(v[1..], d[1..], m);
    assert forall i :: 0 <= i < |t| ==> t[i] == r[1..][i];
  }

  /** The distributive steps of `DotAxpy`. */
  lemma Distribute(a: real, b: real, c: real, m: real, rest: real)
    ensures (a + m * b) * c == a * c + m * (b * c)
    ensures m * (b * c + rest) == m * (b * c) + m * rest
  {
  }

  /** A row's dot product with itself is a sum of squares, so never negative. */
  lemma {:induction false} DotSelfNonNegative(x: Vector)
    ensures Dot(x, x) >= 0.0
  {
    if |x| > 0 {
      var head := x[0];
      DotSelfNonNegative(x[1..]);
      SquareNonNegative(head);
    }
  }

  /** A square is never negative. */
  lemma SquareNonNegative(a: real)
    ensures a * a >= 0.0
  {
  }

  /** Two updates along one direction add up: `update(g, a)` then `update(g, b)` is
      `update(g, a + b)`. */
  lemma UpdateAdditive(value: Matrix, direction: Matrix, a: real, b: real)
    requires SameShape(value, direction)
    ensures Update(Update(value, direction, a), direction, b) == Update(value, direction, a + b)
  {
    var lhs := Update(Update(value, direction, a), direction, b);
    var rhs := Update(value, direction, a + b);
    forall i | 0 <= i < |lhs|
      ensures lhs[i] == rhs[i]
    {
      forall j | 0 <= j < |lhs[i]|
        ensures lhs[i][j] == rhs[i][j]
      {
        assert lhs[i][j] == value[i][j] + a * direction[i][j] + b * direction[i][j];
      }
    }
  }

  /** An update with multiplier zero leaves the value as it was. */
  lemma UpdateByZero(value: Matrix, direction: Matrix)
    requires SameShape(value, direction)
    ensures Update(value, direction, 0.0) == value
  {
    var r := Update(value, direction, 0.0);
    forall i | 0 <= i < |r|
      ensures r[i] == value[i]
    {
    }
  }
}
