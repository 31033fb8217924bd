/**
 * ITK image metadata (origin, spacing, direction, largest possible region)
 * and the index <-> physical point mappings ITK derives from it.
 * Only axis-aligned directions are modelled: the direction matrix is a
 * signed permutation, on which the rest of the library relies.
 */
module ImageMeta {
  import opened Geometry
  import opened Regions

  /** A 3x3 direction matrix: row r is physical axis r, column c is index axis c. */
  type Matrix3 = m: seq<seq<real>> | |m| == 3 && |m[0]| == 3 && |m[1]| == 3 && |m[2]| == 3
    witness [[1.0, 0.0, 0.0], [0.0, 1.0, 0.0], [0.0, 0.0, 1.0]]

  const Identity: Matrix3 := [[1.0, 0.0, 0.0], [0.0, 1.0, 0.0], [0.0, 0.0, 1.0]]

  predicate IsUnitEntry(d: real) { d == 0.0 || d == 1.0 || d == -1.0 }

  function NonzeroCount(x: real, y: real, z: real): nat
  {
    (if x != 0.0 then 1 else 0) + (if y != 0.0 then 1 else 0) + (if z != 0.0 then 1 else 0)
  }

  /** Every entry is 0, 1 or -1. */
  predicate UnitEntries(m: Matrix3)
  {
    forall r, c :: 0 <= r < 3 && 0 <= c < 3 ==> IsUnitEntry(m[r][c])
  }

  /** Entries in {-1, 0, 1} with exactly one nonzero entry in every row and every column. */
  predicate SignedPermutation(m: Matrix3)
  {
    UnitEntries(m)
    && (forall r :: 0 <= r < 3 ==> NonzeroCount(m[r][0], m[r][1], m[r][2]) == 1)
    && (forall c :: 0 <= c < 3 ==> NonzeroCount(m[0][c], m[1][c], m[2][c]) == 1)
  }

  /** `d * x` for a direction entry; written by cases so that entries in {-1, 0, 1} stay linear. */
  function Times(d: real, x: real): real
  {
    if d == 0.0 then 0.0 else if d == 1.0 then x else if d == -1.0 then -x else d * x
  }

  /** The index axis that physical axis `r` follows: the first nonzero column of row `r`. */
  function Col(m: Matrix3, r: nat): nat
    requires r < 3
  {
    if m[r][0] != 0.0 then 0 else if m[r][1] != 0.0 then 1 else 2
  }

  /** The physical axis that index axis `c` follows: the first nonzero row of column `c`. */
  function Row(m: Matrix3, c: nat): nat
    requires c < 3
  {
    if m[0][c] != 0.0 then 0 else if m[1][c] != 0.0 then 1 else 2
  }

  /** In a signed permutation, row r has its only nonzero entry, 1 or -1, in column Col(r), and Row undoes Col. */
  lemma RowAxis(m: Matrix3, r: nat)
    requires SignedPermutation(m) && r < 3
    ensures Col(m, r) < 3 && Row(m, Col(m, r)) == r
    ensures m[r][Col(m, r)] == 1.0 || m[r][Col(m, r)] == -1.0
    ensures forall c :: 0 <= c < 3 && c != Col(m, r) ==> m[r][c] == 0.0
  {
    assert NonzeroCount(m[r][0], m[r][1], m[r][2]) == 1;
    var c := Col(m, r);
    assert NonzeroCount(m[0][c], m[1][c], m[2][c]) == 1;
    assert IsUnitEntry(m[r][c]);
  }

  /** In a signed permutation, column c has its only nonzero entry in row Row(c), and Col undoes Row. */
  lemma ColAxis(m: Matrix3, c: nat)
    requires SignedPermutation(m) && c < 3
    ensures Row(m, c) < 3 && Col(m, Row(m, c)) == c
    ensures forall r :: 0 <= r < 3 && r != Row(m, c) ==> m[r][c] == 0.0
  {
    assert NonzeroCount(m[0][c], m[1][c], m[2][c]) == 1;
    var r := Row(m, c);
    assert NonzeroCount(m[r][0], m[r][1], m[r][2]) == 1;
  }

  /** The image metadata ITK keeps beside the pixel buffer. */
  datatype ImageMetadata = ImageMetadata(origin: Point, spacing: Point, direction: Matrix3, largest: ImageRegion)

  /** What ITK guarantees of an image that maps points: an invertible direction and nonzero spacing. */
  predicate ValidMetadata(m: ImageMetadata)
  {
    SignedPermutation(m.direction)
    && m.spacing[0] != 0.0 && m.spacing[1] != 0.0 && m.spacing[2] != 0.0
    && m.largest.WellFormed() && m.largest.Dim() == 3
  }

  type Image = m: ImageMetadata | ValidMetadata(m)
    witness ImageMetadata(Zero, [1.0, 1.0, 1.0], Identity, ImageRegion([0, 0, 0], [0, 0, 0]))

  /** Entry (r, c) of direction * diag(spacing). */
  function StepEntry(direction: Matrix3, spacing: Point, r: nat, c: nat): real
    requires r < 3 && c < 3
  {
    Times(direction[r][c], spacing[c])
  }

  /** Index of the entry of largest magnitude, the first one on ties (numpy.argmax of abs). */
  function ArgMaxAbs(x: real, y: real, z: real): nat
  {
    if Abs(x) >= Abs(y) && Abs(x) >= Abs(z) then 0 else if Abs(y) >= Abs(z) then 1 else 2
  }

  function RowStep(direction: Matrix3, spacing: Point, r: nat): real
    requires r < 3
  {
    var c := ArgMaxAbs(StepEntry(direction, spacing, r, 0), StepEntry(direction, spacing, r, 1),
                       StepEntry(direction, spacing, r, 2));
    StepEntry(direction, spacing, r, c)
  }

  /**
   * The library's "physical step": for each physical axis, the entry of
   * largest magnitude in that row of direction * diag(spacing).
   */
  function PhysicalStep(direction: Matrix3, spacing: Point): (step: Point)
    ensures forall r :: 0 <= r < 3 ==> step[r] == RowStep(direction, spacing, r)
  {
    seq(3, r requires 0 <= r < 3 => RowStep(direction, spacing, r))
  }

  /**
   * For a signed permutation with nonzero spacing the physical step along
   * physical axis r is the signed spacing of index axis Col(r), never zero.
   */
  lemma PhysicalStepAxis(direction: Matrix3, spacing: Point, r: nat)
    requires SignedPermutation(direction) && r < 3
    requires spacing[0] != 0.0 && spacing[1] != 0.0 && spacing[2] != 0.0
    ensures PhysicalStep(direction, spacing)[r] == Times(direction[r][Col(direction, r)], spacing[Col(direction, r)])
    ensures PhysicalStep(direction, spacing)[r] != 0.0
    ensures Abs(PhysicalStep(direction, spacing)[r]) == Abs(spacing[Col(direction, r)])
  {
    RowAxis(direction, r);
    var c := Col(direction, r);
    var v0 := StepEntry(direction, spacing, r, 0);
    var v1 := StepEntry(direction, spacing, r, 1);
    var v2 := StepEntry(direction, spacing, r, 2);
    assert RowStep(direction, spacing, r) == StepEntry(direction, spacing, r, ArgMaxAbs(v0, v1, v2));
    if c == 0 {
      assert v1 == 0.0 && v2 == 0.0 && v0 != 0.0;
    } else if c == 1 {
      assert v0 == 0.0 && v2 == 0.0 && v1 != 0.0;
    } else {
      assert v0 == 0.0 && v1 == 0.0 && v2 != 0.0;
    }
  }

  /** The physical step of an image along each physical axis. */
  function Step(img: Image): (st: Point)
    ensures forall r :: 0 <= r < 3 ==> st[r] != 0.0
  {
    PhysicalStepAxis(img.direction, img.spacing, 0);
    PhysicalStepAxis(img.direction, img.spacing, 1);
    PhysicalStepAxis(img.direction, img.spacing, 2);
    PhysicalStep(img.direction, img.spacing)
  }

  /** The index axis each physical axis follows. */
  function Cols(d: Matrix3): (col: seq<nat>)
    ensures |col| == 3 && forall r :: 0 <= r < 3 ==> col[r] == Col(d, r) && col[r] < 3
  {
    seq(3, r requires 0 <= r < 3 => Col(d, r))
  }

  /** The physical axis each index axis follows. */
  function Rows(d: Matrix3): (row: seq<nat>)
    ensures |row| == 3 && forall c :: 0 <= c < 3 ==> row[c] == Row(d, c) && row[c] < 3
  {
    seq(3, c requires 0 <= c < 3 => Row(d, c))
  }

  /** `col` and `row` are mutually inverse permutations of the three axes. */
  predicate AxisPairing(col: seq<nat>, row: seq<nat>)
  {
    |col| == 3 && |row| == 3
    && (forall r :: 0 <= r < 3 ==> col[r] < 3 && row[col[r]] == r)
    && (forall c :: 0 <= c < 3 ==> row[c] < 3 && col[row[c]] == c)
  }

  lemma SignedPermutationPairing(d: Matrix3)
    requires SignedPermutation(d)
    ensures AxisPairing(Cols(d), Rows(d))
  {
    RowAxis(d, 0);
    RowAxis(d, 1);
    RowAxis(d, 2);
    ColAxis(d, 0);
    ColAxis(d, 1);
    ColAxis(d, 2);
  }

  /** An axis-permuting affine map: coordinate r is o[r] + st[r] * x[col[r]]. */
  function AxisAffine(o: Point, st: Point, col: seq<nat>, x: Point): (p: Point)
    requires |col| == 3 && forall r :: 0 <= r < 3 ==> col[r] < 3
    ensures forall r :: 0 <= r < 3 ==> p[r] == o[r] + st[r] * x[col[r]]
  {
    seq(3, r requires 0 <= r < 3 => o[r] + st[r] * x[col[r]])
  }

  /** Coordinate r of AxisAffine when the index coordinate it reads is known to be v. */
  lemma AxisAffineAt(o: Point, st: Point, col: seq<nat>, x: Point, r: nat, a: real, s: real, v: real)
    requires |col| == 3 && forall k :: 0 <= k < 3 ==> col[k] < 3
    requires r < 3 && o[r] == a && st[r] == s && x[col[r]] == v
    ensures AxisAffine(o, st, col, x)[r] == a + s * v
  {
  }

  /** The inverse of AxisAffine: coordinate c is (p[row[c]] - o[row[c]]) / st[row[c]]. */
  function AxisAffineInverse(o: Point, st: Point, row: seq<nat>, p: Point): (x: Point)
    requires |row| == 3 && forall c :: 0 <= c < 3 ==> row[c] < 3
    requires forall r :: 0 <= r < 3 ==> st[r] != 0.0
    ensures forall c :: 0 <= c < 3 ==> x[c] == (p[row[c]] - o[row[c]]) / st[row[c]]
  {
    seq(3, c requires 0 <= c < 3 => (p[row[c]] - o[row[c]]) / st[row[c]])
  }

  /** Solving v == o + st * x for x. */
  lemma SolveAxis(v: real, o: real, st: real, x: real)
    requires st != 0.0 && v == o + st * x
    ensures (v - o) / st == x
  {
  }

  /** v == o + st * x for the x solved from v. */
  lemma SolvedAxis(v: real, o: real, st: real, x: real)
    requires st != 0.0 && x == (v - o) / st
    ensures o + st * x == v
  {
  }

  lemma AxisAffineInverseAfter(o: Point, st: Point, col: seq<nat>, row: seq<nat>, x: Point)
    requires AxisPairing(col, row)
    requires forall r :: 0 <= r < 3 ==> st[r] != 0.0
    ensures AxisAffineInverse(o, st, row, AxisAffine(o, st, col, x)) == x
  {
    var p := AxisAffine(o, st, col, x);
    var y := AxisAffineInverse(o, st, row, p);
    forall c | 0 <= c < 3
      ensures y[c] == x[c]
    {
      var r := row[c];
      SolveAxis(p[r], o[r], st[r], x[c]);
    }
  }

  lemma AxisAffineAfterInverse(o: Point, st: Point, col: seq<nat>, row: seq<nat>, p: Point)
    requires AxisPairing(col, row)
    requires forall r :: 0 <= r < 3 ==> st[r] != 0.0
    ensures AxisAffine(o, st, col, AxisAffineInverse(o, st, row, p)) == p
  {
    var x := AxisAffineInverse(o, st, row, p);
    var q := AxisAffine(o, st, col, x);
    forall r | 0 <= r < 3
      ensures q[r] == p[r]
    {
      var c := col[r];
      SolvedAxis(p[r], o[r], st[r], x[c]);
    }
  }

  /**
   * Mapping two values through o + s * x, taking the smaller and the larger
   * image and solving back gives the smaller and the larger value again.
   */
  lemma SolveMinMax(o: real, s: real, u: real, v: real)
    requires s != 0.0
    ensures Min((Min(o + s * u, o + s * v) - o) / s, (Max(o + s * u, o + s * v) - o) / s) == Min(u, v)
    ensures Max((Min(o + s * u, o + s * v) - o) / s, (Max(o + s * u, o + s * v) - o) / s) == Max(u, v)
  {
    SolveAxis(o + s * u, o, s, u);
    SolveAxis(o + s * v, o, s, v);
  }

  /**
   * Mapping the two rows of a box through AxisAffine, normalizing, mapping
   * back and normalizing again gives the normalized box: each axis keeps its
   * pair of bounds even when the map flips or permutes axes.
   */
  lemma AxisAffineBoxRoundTrip(o: Point, st: Point, col: seq<nat>, row: seq<nat>, x: Point, y: Point)
    requires AxisPairing(col, row)
    requires forall r :: 0 <= r < 3 ==> st[r] != 0.0
    ensures var lo := AxisAffineInverse(o, st, row, MinPoint(AxisAffine(o, st, col, x), AxisAffine(o, st, col, y)));
            var hi := AxisAffineInverse(o, st, row, MaxPoint(AxisAffine(o, st, col, x), AxisAffine(o, st, col, y)));
            forall c :: 0 <= c < 3 ==> Min(lo[c], hi[c]) == Min(x[c], y[c]) && Max(lo[c], hi[c]) == Max(x[c], y[c])
  {
    var px, py := AxisAffine(o, st, col, x), AxisAffine(o, st, col, y);
    var lo := AxisAffineInverse(o, st, row, MinPoint(px, py));
    var hi := AxisAffineInverse(o, st, row, MaxPoint(px, py));
    forall c | 0 <= c < 3
      ensures Min(lo[c], hi[c]) == Min(x[c], y[c]) && Max(lo[c], hi[c]) == Max(x[c], y[c])
    {
      var r := row[c];
      SolveMinMax(o[r], st[r], x[c], y[c]);
    }
  }

  /**
   * ITK's TransformContinuousIndexToPhysicalPoint, origin + direction * diag(spacing) * index,
   * written per physical axis: for a signed permutation row r of direction * diag(spacing)
   * has its one nonzero entry, the step along r, in column Col(r)
   * (IndexToPhysicalIsMatrixProduct).
   */
  function IndexToPhysical(img: Image, idx: Point): Point
  {
    AxisAffine(img.origin, Step(img), Cols(img.direction), idx)
  }

  /**
   * ITK's TransformPhysicalPointToContinuousIndex, the inverse of
   * direction * diag(spacing) applied to point - origin, written per index
   * axis (PhysicalToIndexIsInverseMatrix).
   */
  function PhysicalToIndex(img: Image, p: Point): Point
  {
    AxisAffineInverse(img.origin, Step(img), Rows(img.direction), p)
  }

  /** ITK's Math::RoundHalfIntegerUp. */
  function RoundHalfUp(x: real): (n: int)
    ensures x - 0.5 < n as real <= x + 0.5
  {
    (x + 0.5).Floor
  }

  /** ITK's TransformPhysicalPointToIndex: the continuous index rounded half up on every axis. */
  function PhysicalToDiscreteIndex(img: Image, p: Point): (idx: seq<int>)
    ensures |idx| == 3
    ensures forall c :: 0 <= c < 3 ==> idx[c] == RoundHalfUp(PhysicalToIndex(img, p)[c])
  {
    var x := PhysicalToIndex(img, p);
    seq(3, c requires 0 <= c < 3 => RoundHalfUp(x[c]))
  }

  function RowDot(img: ImageMetadata, r: nat, idx: Point): real
    requires r < 3
  {
    StepEntry(img.direction, img.spacing, r, 0) * idx[0]
    + StepEntry(img.direction, img.spacing, r, 1) * idx[1]
    + StepEntry(img.direction, img.spacing, r, 2) * idx[2]
  }

  function ColDot(img: ImageMetadata, c: nat, p: Point): real
    requires c < 3
  {
    Times(img.direction[0][c], p[0] - img.origin[0])
    + Times(img.direction[1][c], p[1] - img.origin[1])
    + Times(img.direction[2][c], p[2] - img.origin[2])
  }

  /** A row of direction * diag(spacing) with one nonzero entry, `st` in column c, dots an index to st * idx[c]. */
  lemma RowDotSingle(img: ImageMetadata, r: nat, idx: Point, c: nat, st: real)
    requires r < 3 && c < 3
    requires forall k :: 0 <= k < 3 && k != c ==> StepEntry(img.direction, img.spacing, r, k) == 0.0
    requires StepEntry(img.direction, img.spacing, r, c) == st
    ensures RowDot(img, r, idx) == st * idx[c]
  {
    var v0 := StepEntry(img.direction, img.spacing, r, 0);
    var v1 := StepEntry(img.direction, img.spacing, r, 1);
    var v2 := StepEntry(img.direction, img.spacing, r, 2);
    if c == 0 {
      assert v1 == 0.0 && v2 == 0.0;
    } else if c == 1 {
      assert v0 == 0.0 && v2 == 0.0;
    } else {
      assert v0 == 0.0 && v1 == 0.0;
    }
  }

  lemma RowDotAxis(img: Image, idx: Point, r: nat, c: nat, st: real)
    requires r < 3 && c == Col(img.direction, r) && st == Step(img)[r]
    ensures RowDot(img, r, idx) == st * idx[c]
  {
    RowAxis(img.direction, r);
    PhysicalStepAxis(img.direction, img.spacing, r);
    RowDotSingle(img, r, idx, c, st);
  }

  /** The per-axis form is ITK's matrix product origin + direction * diag(spacing) * index. */
  lemma IndexToPhysicalIsMatrixProduct(img: Image, idx: Point, r: nat)
    requires r < 3
    ensures IndexToPhysical(img, idx)[r] == img.origin[r] + RowDot(img, r, idx)
  {
    RowDotAxis(img, idx, r, Col(img.direction, r), Step(img)[r]);
  }

  lemma SignFlipDivision(d: real, x: real, s: real)
    requires d == 1.0 || d == -1.0
    requires s != 0.0
    ensures Times(d, x) / s == x / Times(d, s)
  {
    if d == -1.0 {
      assert (-x) / s == x / (-s);
    }
  }

  lemma ColDotAxis(img: Image, p: Point, c: nat, r: nat)
    requires c < 3 && r == Row(img.direction, c)
    ensures ColDot(img, c, p) / img.spacing[c] == (p[r] - img.origin[r]) / Step(img)[r]
  {
    ColAxis(img.direction, c);
    RowAxis(img.direction, r);
    PhysicalStepAxis(img.direction, img.spacing, r);
    var d := img.direction[r][c];
    var x := p[r] - img.origin[r];
    assert ColDot(img, c, p) == Times(d, x) by {
      if r == 0 {
        assert img.direction[1][c] == 0.0 && img.direction[2][c] == 0.0;
      } else if r == 1 {
        assert img.direction[0][c] == 0.0 && img.direction[2][c] == 0.0;
      } else {
        assert img.direction[0][c] == 0.0 && img.direction[1][c] == 0.0;
      }
    }
    SignFlipDivision(d, x, img.spacing[c]);
  }

  /** The per-axis form is ITK's inverse matrix diag(1 / spacing) * transpose(direction) applied to point - origin. */
  lemma PhysicalToIndexIsInverseMatrix(img: Image, p: Point, c: nat)
    requires c < 3
    ensures PhysicalToIndex(img, p)[c] == ColDot(img, c, p) / img.spacing[c]
  {
    ColDotAxis(img, p, c, Row(img.direction, c));
  }

  /** Mapping a continuous index to physical space and back gives the index again. */
  lemma IndexToPhysicalToIndex(img: Image, idx: Point)
    ensures PhysicalToIndex(img, IndexToPhysical(img, idx)) == idx
  {
    SignedPermutationPairing(img.direction);
    AxisAffineInverseAfter(img.origin, Step(img), Cols(img.direction), Rows(img.direction), idx);
  }

  /** Mapping a physical point to a continuous index and back gives the point again. */
  lemma PhysicalToIndexToPhysical(img: Image, p: Point)
    ensures IndexToPhysical(img, PhysicalToIndex(img, p)) == p
  {
    SignedPermutationPairing(img.direction);
    AxisAffineAfterInverse(img.origin, Step(img), Cols(img.direction), Rows(img.direction), p);
  }
}
