/**
 * Three-dimensional points and 2x3 bounds matrices over the reals.
 * Axis order is ITK's (X, Y, Z for physical points, I, J, K for indices).
 */
module Geometry {
  /** A point, a continuous index or a per-axis vector in three dimensions. */
  type Point = v: seq<real> | |v| == 3 witness [0.0, 0.0, 0.0]

  /** A 2x3 bounds matrix: row 0 holds one corner, row 1 the other. */
  type Box = b: seq<Point> | |b| == 2 witness [Zero, Zero]

  const Zero: Point := [0.0, 0.0, 0.0]

  function Min(a: real, b: real): real { if a <= b then a else b }

  function Max(a: real, b: real): real { if a <= b then b else a }

  function Abs(x: real): real { if x < 0.0 then -x else x }

  /** Python's math.floor. */
  function Floor(x: real): int { x.Floor }

  /** Python's math.ceil. */
  function Ceil(x: real): (n: int)
    ensures n as real - 1.0 < x <= n as real
  {
    -((-x).Floor)
  }

  /** Python's int() on a float: truncation toward zero. */
  function Trunc(x: real): int { if x >= 0.0 then x.Floor else -((-x).Floor) }

  /** numpy.isclose(x, 0) with its default tolerances (atol 1e-8, rtol ignored against 0). */
  predicate IsCloseToZero(x: real) { Abs(x) <= 0.00000001 }

  /** Truncation is the identity on whole numbers. */
  lemma TruncOfWhole(n: int)
    ensures Trunc(n as real) == n
  {
  }

  /** Truncation toward zero preserves order. */
  lemma TruncMonotone(x: real, y: real)
    requires x <= y
    ensures Trunc(x) <= Trunc(y)
  {
  }

  lemma MulPositive(a: real, b: real)
    requires a > 0.0 && b > 0.0
    ensures a * b > 0.0
  {
  }

  lemma MulNonnegative(a: real, b: real)
    requires a >= 0.0 && b >= 0.0
    ensures a * b >= 0.0
  {
  }

  function Add(a: Point, b: Point): (r: Point)
    ensures forall i :: 0 <= i < 3 ==> r[i] == a[i] + b[i]
  {
    seq(3, i requires 0 <= i < 3 => a[i] + b[i])
  }

  function Sub(a: Point, b: Point): (r: Point)
    ensures forall i :: 0 <= i < 3 ==> r[i] == a[i] - b[i]
  {
    seq(3, i requires 0 <= i < 3 => a[i] - b[i])
  }

  function Scale(k: real, a: Point): (r: Point)
    ensures forall i :: 0 <= i < 3 ==> r[i] == k * a[i]
  {
    seq(3, i requires 0 <= i < 3 => k * a[i])
  }

  /** Adds the same scalar to every coordinate (numpy broadcasting of a scalar). */
  function Shift(a: Point, d: real): (r: Point)
    ensures forall i :: 0 <= i < 3 ==> r[i] == a[i] + d
  {
    seq(3, i requires 0 <= i < 3 => a[i] + d)
  }

  function MinPoint(a: Point, b: Point): (r: Point)
    ensures forall i :: 0 <= i < 3 ==> r[i] == Min(a[i], b[i])
  {
    seq(3, i requires 0 <= i < 3 => Min(a[i], b[i]))
  }

  function MaxPoint(a: Point, b: Point): (r: Point)
    ensures forall i :: 0 <= i < 3 ==> r[i] == Max(a[i], b[i])
  {
    seq(3, i requires 0 <= i < 3 => Max(a[i], b[i]))
  }

  /** Lower row below upper row on every axis. */
  predicate IsOrdered(b: Box) { forall i :: 0 <= i < 3 ==> b[0][i] <= b[1][i] }

  /** numpy's [min(b, axis=0), max(b, axis=0)] over the two rows. */
  function Normalize(b: Box): (r: Box)
    ensures IsOrdered(r)
    ensures forall i :: 0 <= i < 3 ==> r[0][i] == Min(b[0][i], b[1][i]) && r[1][i] == Max(b[0][i], b[1][i])
  {
    [MinPoint(b[0], b[1]), MaxPoint(b[0], b[1])]
  }

  /** Normalizing an ordered box changes nothing. */
  lemma NormalizeOrdered(b: Box)
    requires IsOrdered(b)
    ensures Normalize(b) == b
  {
    assert Normalize(b)[0] == b[0];
    assert Normalize(b)[1] == b[1];
  }

  /** numpy.mean over the two rows. */
  function Midpoint(b: Box): (m: Point)
    ensures forall i :: 0 <= i < 3 ==> m[i] == (b[0][i] + b[1][i]) / 2.0
  {
    seq(3, i requires 0 <= i < 3 => (b[0][i] + b[1][i]) / 2.0)
  }

  /** A 2x3 numpy array. */
  predicate Is2x3(m: seq<seq<real>>) { |m| == 2 && |m[0]| == 3 && |m[1]| == 3 }

  function AsBox(m: seq<seq<real>>): (b: Box)
    requires Is2x3(m)
    ensures b == m
  {
    var lo: Point := m[0];
    var hi: Point := m[1];
    [lo, hi]
  }
}
