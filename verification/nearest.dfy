/**
 * The square search both pathfinding adapters use to replace a blocked
 * cell: for radius 1, 2, ... every offset `(dx, dy)` with `dx` and `dy` from
 * `-r` to `r`, `dx` in the outer loop, and the first acceptable cell wins.
 */
module NearestSearch {
  import opened Wrappers
  import opened Grid

  function Side(r: nat): nat { 2 * r + 1 }

  /** The `i`-th offset visited at radius `r`: `dx` from `i div (2r+1)`, `dy` from `i mod (2r+1)`. */
  function OffsetAt(r: nat, i: int): (d: Cell)
    requires 0 <= i < Side(r) * Side(r)
    ensures Abs(d.x) <= r && Abs(d.y) <= r
  {
    DivBounds(i, Side(r));
    Cell(-(r as int) + i / Side(r), -(r as int) + i % Side(r))
  }

  /** The offsets of one radius in visiting order. */
  function Square(r: nat): (s: seq<Cell>)
    ensures |s| == Side(r) * Side(r)
    ensures forall i :: 0 <= i < |s| ==> s[i] == OffsetAt(r, i)
  {
    seq(Side(r) * Side(r), (i: int) requires 0 <= i < Side(r) * Side(r) => OffsetAt(r, i))
  }

  lemma DivBounds(i: int, n: nat)
    requires n > 0 && 0 <= i < n * n
    ensures 0 <= i / n < n && 0 <= i % n < n
  {
    var q := i / n;
    var m := i % n;
    assert i == n * q + m;
    QuotBound(i, n, q, m);
  }

  lemma QuotBound(i: int, n: nat, q: int, m: int)
    requires n > 0 && 0 <= m < n && i == n * q + m && 0 <= i < n * n
    ensures 0 <= q < n
  {
    MulMonoImp(n, q, n);
    MulMonoImp(n, 0, q + 1);
  }

  /** Multiplication by a natural is monotone. */
  lemma MulMonoImp(a: nat, b: int, c: int)
    ensures c <= b ==> a * b >= a * c
  {
    if c <= b {
      MulMono(a, b, c);
    }
  }

  lemma MulMono(a: nat, b: int, c: int)
    requires c <= b
    ensures a * b >= a * c
  {
    assert a * b - a * c == a * (b - c);
  }

  /** Every offset within Chebyshev distance `r` is visited at radius `r`, at a known position. */
  lemma SquareComplete(r: nat, d: Cell)
    requires Abs(d.x) <= r && Abs(d.y) <= r
    ensures var i := (d.x + r) * Side(r) + (d.y + r);
      0 <= i < |Square(r)| && Square(r)[i] == d
  {
    var n := Side(r);
    var a := d.x + r;
    var b := d.y + r;
    var i := a * n + b;
    assert 0 <= a < n && 0 <= b < n;
    assert i < n * n by { MulMono(n, n - 1, a); assert a * n == n * a; }
    assert i / n == a && i % n == b by { DivModUnique(i, n, a, b); }
  }

  lemma DivModUnique(i: int, n: nat, a: int, b: int)
    requires n > 0 && 0 <= b < n && i == a * n + b
    ensures i / n == a && i % n == b
  {
    var q := i / n;
    var m := i % n;
    assert n * q + m == n * a + b;
    assert n * (q - a) == b - m;
    SmallMultiple(n, q - a);
  }

  /** The only multiple of `n` strictly between `-n` and `n` is zero. */
  lemma SmallMultiple(n: nat, k: int)
    requires n > 0 && -(n as int) < n * k < n
    ensures k == 0
  {
    MulMonoImp(n, k, 1);
    MulMonoImp(n, -1, k);
  }

  /** Radii 1 to `radius`, in increasing order. */
  function Squares(radius: nat): (s: seq<Cell>)
    ensures forall i :: 0 <= i < |s| ==> Abs(s[i].x) <= radius && Abs(s[i].y) <= radius
  {
    if radius == 0 then [] else Squares(radius - 1) + Square(radius)
  }

  /** Every offset within Chebyshev distance `radius` (radius at least 1) is visited. */
  lemma {:induction false} SquaresComplete(radius: nat, d: Cell)
    requires radius >= 1 && Abs(d.x) <= radius && Abs(d.y) <= radius
    ensures d in Squares(radius)
  {
    SquareComplete(radius, d);
    assert Square(radius)[(d.x + radius) * Side(radius) + (d.y + radius)] == d;
    assert Squares(radius) == Squares(radius - 1) + Square(radius);
  }

  function Shift(c: Cell, d: Cell): Cell { Cell(c.x + d.x, c.y + d.y) }

  /**
   * The position of the first offset from `i` on whose shifted cell `ok`
   * holds, or -1 when there is none.
   */
  function FirstFrom(base: Cell, offs: seq<Cell>, ok: Cell -> bool, i: nat): (j: int)
    requires i <= |offs|
    decreases |offs| - i
    ensures j == -1 || i <= j < |offs|
    ensures j >= 0 ==> ok(Shift(base, offs[j]))
    ensures forall k :: i <= k < (if j < 0 then |offs| else j) ==> !ok(Shift(base, offs[k]))
  {
    if i == |offs| then -1
    else if ok(Shift(base, offs[i])) then i
    else FirstFrom(base, offs, ok, i + 1)
  }

  /**
   * The square search: the first acceptable cell within Chebyshev distance
   * `radius`, or None.  None means no cell in that square is acceptable.
   */
  function Search(base: Cell, radius: nat, ok: Cell -> bool): (r: Option<Cell>)
    ensures r.Some? ==> ok(r.value) && Abs(r.value.x - base.x) <= radius && Abs(r.value.y - base.y) <= radius
  {
    var offs := Squares(radius);
    var j := FirstFrom(base, offs, ok, 0);
    if j < 0 then None else Some(Shift(base, offs[j]))
  }

  /** A failed search means every cell of the square is unacceptable. */
  lemma SearchNoneComplete(base: Cell, radius: nat, ok: Cell -> bool, c: Cell)
    requires radius >= 1 && Search(base, radius, ok).None?
    requires Abs(c.x - base.x) <= radius && Abs(c.y - base.y) <= radius
    ensures !ok(c)
  {
    var d := Cell(c.x - base.x, c.y - base.y);
    SquaresComplete(radius, d);
    var offs := Squares(radius);
    var k :| 0 <= k < |offs| && offs[k] == d;
    assert Shift(base, offs[k]) == c;
  }
}
