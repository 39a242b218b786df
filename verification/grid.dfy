/**
 Grid cells `(x, y)` and the matrix conventions shared by the navigation
 code: matrices are row-major, indexed `matrix[y][x]`.
 */
module Grid {

  datatype Cell = Cell(x: int, y: int)

  /** `0 <= x < w and 0 <= y < h` */
  predicate InRect(c: Cell, w: int, h: int)
  {
    0 <= c.x < w && 0 <= c.y < h
  }

  /** Every cell of a `w`×`h` grid. */
  function AllCells(w: nat, h: nat): (r: set<Cell>)
    ensures forall c :: c in r <==> InRect(c, w, h)
  {
    set x, y | 0 <= x < w && 0 <= y < h :: Cell(x, y)
  }

  /** Every row has the width of the first row. */
  predicate Rectangular<T>(m: seq<seq<T>>)
  {
    |m| > 0 && forall y :: 0 <= y < |m| ==> |m[y]| == |m[0]|
  }

  function Abs(a: int): nat { if a < 0 then -a else a }

  /** The eight moves of a king on a chessboard: Chebyshev distance exactly one. */
  predicate Adjacent(a: Cell, b: Cell)
  {
    a != b && Abs(a.x - b.x) <= 1 && Abs(a.y - b.y) <= 1
  }

  predicate Diagonal(a: Cell, b: Cell)
  {
    Abs(a.x - b.x) == 1 && Abs(a.y - b.y) == 1
  }

  function Manhattan(a: Cell, b: Cell): nat
  {
    Abs(a.x - b.x) + Abs(a.y - b.y)
  }

  /** Squared Euclidean distance; the source compares and sums `sqrt` of this. */
  function Dist2(a: Cell, b: Cell): nat
  {
    (a.x - b.x) * (a.x - b.x) + (a.y - b.y) * (a.y - b.y)
  }
}
