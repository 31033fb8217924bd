/**
 * Row-major enumeration of the cells of an N-dimensional grid, as
 * numpy.ndindex produces it: the last axis varies fastest.
 */
module NdIndex {
  /** Number of cells in a grid of the given shape (numpy.prod). */
  function Product(shape: seq<nat>): nat
  {
    if |shape| == 0 then 1 else Product(shape[..|shape| - 1]) * shape[|shape| - 1]
  }

  /** `idx` addresses a cell of a grid of shape `shape`. */
  predicate InGrid(idx: seq<nat>, shape: seq<nat>)
  {
    |idx| == |shape| && forall a :: 0 <= a < |shape| ==> idx[a] < shape[a]
  }

  /** numpy.ravel_multi_index: the row-major position of a cell. */
  function Ravel(idx: seq<nat>, shape: seq<nat>): nat
    requires |idx| == |shape|
  {
    if |shape| == 0 then 0
    else Ravel(idx[..|idx| - 1], shape[..|shape| - 1]) * shape[|shape| - 1] + idx[|idx| - 1]
  }

  /** numpy.unravel_index: the cell at row-major position `k`. */
  function Unravel(k: nat, shape: seq<nat>): (idx: seq<nat>)
    requires k < Product(shape)
    ensures InGrid(idx, shape)
    decreases |shape|
  {
    if |shape| == 0 then []
    else
      var n := shape[|shape| - 1];
      var init := shape[..|shape| - 1];
      DivModBelow(k, n, Product(init));
      Unravel(k / n, init) + [k % n]
  }

  /** Splitting a position below m * n into a quotient below m and a remainder below n. */
  lemma DivModBelow(k: nat, n: nat, m: nat)
    requires k < m * n
    ensures n > 0 && k / n < m && k % n < n
  {
  }

  lemma MulMonotone(a: nat, b: nat, n: nat)
    requires a <= b
    ensures a * n <= b * n
  {
  }

  /** Quotient and remainder of q * n + r by n, for r below n. */
  lemma DivModUnique(q: nat, r: nat, n: nat)
    requires r < n
    ensures (q * n + r) / n == q && (q * n + r) % n == r
  {
    var k := q * n + r;
    var q2, r2 := k / n, k % n;
    assert k == q2 * n + r2 && r2 < n;
    if q2 < q {
      MulMonotone(q2 + 1, q, n);
      assert false;
    } else if q < q2 {
      MulMonotone(q + 1, q2, n);
      assert false;
    }
  }

  /** k is rebuilt from its quotient and remainder by n. */
  lemma DivModRebuild(k: nat, n: nat)
    requires n > 0
    ensures k == (k / n) * n + k % n
  {
  }

  /** q * n + r < m * n for a quotient q below m and a remainder r below n. */
  lemma MixedRadixBelow(q: nat, r: nat, n: nat, m: nat)
    requires q < m && r < n
    ensures q * n + r < m * n
  {
    assert q * n <= (m - 1) * n;
  }

  /** A cell of the grid ravels to a position below the number of cells. */
  lemma {:induction false} RavelInRange(idx: seq<nat>, shape: seq<nat>)
    requires InGrid(idx, shape)
    ensures Ravel(idx, shape) < Product(shape)
  {
    if |shape| > 0 {
      var init, n := shape[..|shape| - 1], shape[|shape| - 1];
      RavelInRange(idx[..|idx| - 1], init);
      MixedRadixBelow(Ravel(idx[..|idx| - 1], init), idx[|idx| - 1], n, Product(init));
    }
  }

  /** Unravel undoes Ravel. */
  lemma {:induction false} UnravelRavel(idx: seq<nat>, shape: seq<nat>)
    requires InGrid(idx, shape)
    ensures Ravel(idx, shape) < Product(shape) && Unravel(Ravel(idx, shape), shape) == idx
  {
    RavelInRange(idx, shape);
    if |shape| > 0 {
      var init, n := shape[..|shape| - 1], shape[|shape| - 1];
      var q := Ravel(idx[..|idx| - 1], init);
      DivModUnique(q, idx[|idx| - 1], n);
      UnravelRavel(idx[..|idx| - 1], init);
      assert idx == idx[..|idx| - 1] + [idx[|idx| - 1]];
    }
  }

  /** Ravel undoes Unravel. */
  lemma {:induction false} RavelUnravel(k: nat, shape: seq<nat>)
    requires k < Product(shape)
    ensures Ravel(Unravel(k, shape), shape) == k
    decreases |shape|
  {
    if |shape| > 0 {
      var init, n := shape[..|shape| - 1], shape[|shape| - 1];
      var idx := Unravel(k, shape);
      DivModBelow(k, n, Product(init));
      assert idx[..|idx| - 1] == Unravel(k / n, init);
      RavelUnravel(k / n, init);
      DivModRebuild(k, n);
    }
  }

  /** Distinct positions name distinct cells. */
  lemma UnravelInjective(j: nat, k: nat, shape: seq<nat>)
    requires j < Product(shape) && k < Product(shape) && j != k
    ensures Unravel(j, shape) != Unravel(k, shape)
  {
    RavelUnravel(j, shape);
    RavelUnravel(k, shape);
  }

  /** numpy.ndindex(*shape): every cell of the grid, in row-major order. */
  function NdIndexSeq(shape: seq<nat>): (cells: seq<seq<nat>>)
    ensures |cells| == Product(shape)
    ensures forall k :: 0 <= k < |cells| ==> cells[k] == Unravel(k, shape)
  {
    seq(Product(shape), k requires 0 <= k < Product(shape) => Unravel(k, shape))
  }

  /** Every cell of the grid appears in numpy.ndindex, at its raveled position. */
  lemma NdIndexComplete(idx: seq<nat>, shape: seq<nat>)
    requires InGrid(idx, shape)
    ensures Ravel(idx, shape) < |NdIndexSeq(shape)| && NdIndexSeq(shape)[Ravel(idx, shape)] == idx
  {
    UnravelRavel(idx, shape);
  }

  /**
   * In a 2x2x2 grid the chunk at position 1 is (0,0,1), the one at position
   * 4 is (1,0,0) and the one at position 7 is (1,1,1).
   */
  lemma ChunkOrderExample()
    ensures |NdIndexSeq([2, 2, 2])| == 8
    ensures NdIndexSeq([2, 2, 2])[0] == [0, 0, 0]
    ensures NdIndexSeq([2, 2, 2])[1] == [0, 0, 1]
    ensures NdIndexSeq([2, 2, 2])[4] == [1, 0, 0]
    ensures NdIndexSeq([2, 2, 2])[7] == [1, 1, 1]
  {
    CubeCell(0, 0, 0);
    CubeCell(0, 0, 1);
    CubeCell(1, 0, 0);
    CubeCell(1, 1, 1);
  }

  /** Cell (i, j, k) of the 2x2x2 grid sits at position 4i + 2j + k of its eight. */
  lemma CubeCell(i: nat, j: nat, k: nat)
    requires i < 2 && j < 2 && k < 2
    ensures |NdIndexSeq([2, 2, 2])| == 8
    ensures NdIndexSeq([2, 2, 2])[4 * i + 2 * j + k] == [i, j, k]
  {
    var s: seq<nat> := [2, 2, 2];
    assert Product(s) == 8 by {
      assert s[..2] == [2, 2] && s[..2][..1] == [2] && s[..2][..1][..0] == [];
      assert Product([]) == 1;
      assert Product([2]) == 2;
      assert Product([2, 2]) == 4;
    }
    Ravel3(i, j, k, 2, 2, 2);
    UnravelAt(s, 4 * i + 2 * j + k, [i, j, k]);
  }

  /** Row-major position in three dimensions. */
  lemma Ravel3(i: nat, j: nat, k: nat, a: nat, b: nat, c: nat)
    ensures Ravel([i, j, k], [a, b, c]) == (i * b + j) * c + k
  {
    assert [i, j, k][..2] == [i, j] && [a, b, c][..2] == [a, b];
    assert [i, j][..1] == [i] && [a, b][..1] == [a];
    assert [i][..0] == [] && [a][..0] == [];
    assert Ravel([i], [a]) == i;
    assert Ravel([i, j], [a, b]) == i * b + j;
  }

  lemma UnravelAt(shape: seq<nat>, k: nat, idx: seq<nat>)
    requires InGrid(idx, shape) && Ravel(idx, shape) == k
    ensures k < Product(shape) && Unravel(k, shape) == idx
  {
    UnravelRavel(idx, shape);
  }
}
