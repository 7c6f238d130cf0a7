/** The two nested loops of the second scene preset run a and b over
    [-4, 4), a outermost, and push one value per cell. The values pushed so
    far are the first n cells in that order; this module states that order
    once, for any element type. */
module Grids {

  /** The row of the n-th cell in loop order. */
  function RowOf(n: int): int {
    -4 + n / 8
  }

  /** The column of the n-th cell in loop order. */
  function ColumnOf(n: int): int {
    -4 + n % 8
  }

  /** The position in loop order of cell (a, b). */
  function CellIndex(a: int, b: int): int {
    8 * (a + 4) + (b + 4)
  }

  /** Cell positions and cells correspond one to one on the 8 x 8 grid. */
  lemma CellIndexInverse(a: int, b: int)
    requires -4 <= a < 4 && -4 <= b < 4
    ensures 0 <= CellIndex(a, b) < 64
    ensures RowOf(CellIndex(a, b)) == a && ColumnOf(CellIndex(a, b)) == b
  {
    var n := CellIndex(a, b);
    assert n == (a + 4) * 8 + (b + 4);
  }

  lemma IndexCellInverse(n: int)
    requires 0 <= n < 64
    ensures -4 <= RowOf(n) < 4 && -4 <= ColumnOf(n) < 4
    ensures CellIndex(RowOf(n), ColumnOf(n)) == n
  {
  }

  /** The values of the first n cells, in loop order. */
  function GridPrefix<T>(cell: (int, int) -> T, n: nat): (r: seq<T>)
    ensures |r| == n
    ensures forall k :: 0 <= k < n ==> r[k] == cell(RowOf(k), ColumnOf(k))
  {
    seq(n, k => cell(RowOf(k), ColumnOf(k)))
  }

  /** One more iteration of the inner loop pushes the next cell's value. */
  lemma GridPrefixSnoc<T>(cell: (int, int) -> T, n: nat)
    ensures GridPrefix(cell, n + 1) == GridPrefix(cell, n) + [cell(RowOf(n), ColumnOf(n))]
  {
    var l := GridPrefix(cell, n + 1);
    var r := GridPrefix(cell, n) + [cell(RowOf(n), ColumnOf(n))];
    assert |l| == |r|;
    forall k | 0 <= k < |l|
      ensures l[k] == r[k]
    {
      if k < n {
        assert r[k] == GridPrefix(cell, n)[k];
      }
    }
  }
}
