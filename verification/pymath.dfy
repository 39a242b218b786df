/**
 Integer and real arithmetic with the source languages' semantics where it
 differs from Dafny's Euclidean `/` and `%`: Python's floor division, and
 truncation toward zero (`int(x)` in Python, `Math.trunc`/`Math.floor` in
 JavaScript, `parseInt`).
 */
module PyMath {

  /** Python's `a // b`: the floor of the exact quotient. */
  function FloorDiv(a: int, b: int): (q: int)
    requires b != 0
    ensures b > 0 ==> b * q <= a < b * q + b
    ensures b < 0 ==> b * q >= a > b * q + b
  {
    if b > 0 then a / b else (-a) / (-b)
  }

  /** Python's `a % b`: takes the sign of `b`. */
  function FloorMod(a: int, b: int): (r: int)
    requires b != 0
    ensures a == b * FloorDiv(a, b) + r
    ensures b > 0 ==> 0 <= r < b
    ensures b < 0 ==> b < r <= 0
  {
    a - b * FloorDiv(a, b)
  }

  /** `math.floor(x)` / `x // 1` on a real. */
  function Floor(x: real): (r: int)
    ensures r as real <= x < r as real + 1.0
  {
    x.Floor
  }

  /** `int(x)` in Python / `Math.trunc(x)` in JavaScript: truncation toward zero. */
  function Trunc(x: real): (r: int)
    ensures x >= 0.0 ==> r == Floor(x)
    ensures x < 0.0 ==> r == -Floor(-x)
    ensures (if r < 0 then -r else r) as real <= (if x < 0.0 then -x else x)
  {
    if x >= 0.0 then x.Floor else -((-x).Floor)
  }

  /** `math.ceil(a / b)` for a positive divisor. */
  function CeilDiv(a: int, b: int): (q: int)
    requires b > 0
    ensures b * (q - 1) < a <= b * q
  {
    FloorDiv(a + b - 1, b)
  }
}
