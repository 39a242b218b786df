/**
 * The clock and number formatters of the dashboards.  Every clock field is
 * printed with at least two characters, zero-padded on the left; a negative
 * field keeps its sign and is not padded further (`f"{n:02d}"` in Python and
 * `n.toString().padStart(2, '0')` in JavaScript agree on this).
 *
 * The Python formatters floor-divide the seconds (`//`, `%` take the sign of
 * the divisor); the JavaScript ones use `Math.floor` on a truncating `%`.
 * For non-negative times both print the same text.
 */
module ClockFormat {
  import opened Strs
  import opened PyMath

  // ---------------------------------------------------------------------
  // Two-character fields
  // ---------------------------------------------------------------------

  /** `f"{n:02d}"`: a non-negative field padded to two digits, a negative one as `-` and its digits. */
  function Pad2(n: int): (r: string)
    ensures |r| >= 2
    ensures 0 <= n < 100 ==> |r| == 2
    ensures n >= 0 <==> IsDigit(r[0])
  {
    if n >= 0 then
      SmallNatLength(n);
      ZeroPad(n, 2)
    else "-" + NatToStr(-n)
  }

  lemma SmallNatLength(n: nat)
    ensures n < 100 ==> |NatToStr(n)| <= 2
  {
    if 10 <= n < 100 {
      assert NatToStr(n) == NatToStr(n / 10) + [Digit(n % 10)];
    }
  }

  /** `int(s)` for an optionally signed decimal. */
  function ParseInt(s: string): int
  {
    if |s| > 0 && s[0] == '-' then 0 - StrToNat(s[1..]) as int else StrToNat(s)
  }

  lemma Pad2RoundTrip(n: int)
    ensures ParseInt(Pad2(n)) == n
  {
    if n >= 0 {
      ZeroPadRoundTrip(n, 2);
    } else {
      assert ("-" + NatToStr(-n))[1..] == NatToStr(-n);
      NatToStrRoundTrip(-n);
    }
  }

  // ---------------------------------------------------------------------
  // Floors of real quotients
  // ---------------------------------------------------------------------

  lemma FloorUnique(y: real, q: int)
    requires q as real <= y < q as real + 1.0
    ensures Floor(y) == q
  {
  }

  /** Flooring `x / 60` is dividing the whole seconds of `x` by 60. */
  lemma FloorDiv60(x: real)
    ensures Floor(x / 60.0) == FloorDiv(Floor(x), 60)
  {
    var t, q := Floor(x), FloorDiv(Floor(x), 60);
    assert 60 * q <= t < 60 * q + 60;
    FloorUnique(x / 60.0, q);
  }

  lemma FloorDiv3600(x: real)
    ensures Floor(x / 3600.0) == FloorDiv(Floor(x), 3600)
  {
    var t, q := Floor(x), FloorDiv(Floor(x), 3600);
    assert 3600 * q <= t < 3600 * q + 3600;
    FloorUnique(x / 3600.0, q);
  }

  /** Shifting by a whole number moves the floor by that number. */
  lemma FloorShift(x: real, k: int)
    ensures Floor(x - k as real) == Floor(x) - k
  {
    FloorUnique(x - k as real, Floor(x) - k);
  }

  /** Python's `x // d` and `x % d` on a float with a positive divisor. */
  function PyFloorDivReal(x: real, d: real): int
    requires d > 0.0
  {
    Floor(x / d)
  }

  function PyModReal(x: real, d: real): real
    requires d > 0.0
  {
    x - d * PyFloorDivReal(x, d) as real
  }

  /** JavaScript's `x % d`: the remainder of the truncated quotient. */
  function JsModReal(x: real, d: real): real
    requires d > 0.0
  {
    x - d * Trunc(x / d) as real
  }

  // ---------------------------------------------------------------------
  // Clock strings
  // ---------------------------------------------------------------------

  /** Three fields `HH:MM:SS`. */
  function Clock3(h: int, m: int, s: int): string
  {
    Pad2(h) + ":" + Pad2(m) + ":" + Pad2(s)
  }

  /** Two fields `MM:SS`. */
  function Clock2(m: int, s: int): string
  {
    Pad2(m) + ":" + Pad2(s)
  }

  /** Reading back `HH:MM:SS` whose minute and second fields have two characters. */
  function ParseClock3(r: string): int
    requires |r| >= 8
  {
    3600 * ParseInt(r[..|r| - 6]) + 60 * ParseInt(r[|r| - 5..|r| - 3]) + ParseInt(r[|r| - 2..])
  }

  function ParseClock2(r: string): int
    requires |r| >= 5
  {
    60 * ParseInt(r[..|r| - 3]) + ParseInt(r[|r| - 2..])
  }

  lemma Clock3Fields(h: int, m: int, s: int)
    requires 0 <= m < 60 && 0 <= s < 60
    ensures var r := Clock3(h, m, s);
      |r| >= 8 && r[..|r| - 6] == Pad2(h) && r[|r| - 5..|r| - 3] == Pad2(m) && r[|r| - 2..] == Pad2(s)
  {
    var r := Clock3(h, m, s);
    assert r == Pad2(h) + (":" + Pad2(m) + ":" + Pad2(s));
  }

  lemma Clock3RoundTrip(h: int, m: int, s: int)
    requires 0 <= m < 60 && 0 <= s < 60
    ensures |Clock3(h, m, s)| >= 8 && ParseClock3(Clock3(h, m, s)) == 3600 * h + 60 * m + s
  {
    Clock3Fields(h, m, s);
    Pad2RoundTrip(h);
    Pad2RoundTrip(m);
    Pad2RoundTrip(s);
  }

  lemma Clock2RoundTrip(m: int, s: int)
    requires 0 <= s < 60
    ensures |Clock2(m, s)| >= 5 && ParseClock2(Clock2(m, s)) == 60 * m + s
  {
    Clock2Fields(m, s);
    Pad2RoundTrip(m);
    Pad2RoundTrip(s);
  }

  lemma Clock2Fields(m: int, s: int)
    requires 0 <= s < 60
    ensures var r := Clock2(m, s);
      |r| >= 5 && r[..|r| - 3] == Pad2(m) && r[|r| - 2..] == Pad2(s)
  {
    var r := Clock2(m, s);
    assert |Pad2(s)| == 2;
    assert r[..|r| - 3] == Pad2(m);
    assert r[|r| - 2..] == Pad2(s);
  }

  /**
   * `_format_time_hhmmss` of both desktop dashboards: hours, minutes of the
   * hour and seconds of the minute of the whole seconds; only the hours can
   * be negative.
   */
  function PyHhMmSs(x: real): (r: string)
    ensures exists h: int, m: int, s: int ::
      0 <= m < 60 && 0 <= s < 60 && 3600 * h + 60 * m + s == Floor(x) && r == Clock3(h, m, s)
  {
    var h := PyFloorDivReal(x, 3600.0);
    var m := PyFloorDivReal(PyModReal(x, 3600.0), 60.0);
    var s := Trunc(PyModReal(x, 60.0));
    PyHhMmSsFields(x);
    Clock3(h, m, s)
  }

  lemma PyHhMmSsFields(x: real)
    ensures var t := Floor(x);
      && PyFloorDivReal(x, 3600.0) == FloorDiv(t, 3600)
      && PyFloorDivReal(PyModReal(x, 3600.0), 60.0) == FloorDiv(FloorMod(t, 3600), 60)
      && Trunc(PyModReal(x, 60.0)) == FloorMod(t, 60)
  {
    var t := Floor(x);
    FloorDiv3600(x);
    FloorDiv60(x);
    var h := FloorDiv(t, 3600);
    FloorShift(x, 3600 * h);
    assert x - 3600.0 * h as real == x - (3600 * h) as real;
    FloorDiv60(PyModReal(x, 3600.0));
    FloorShift(x, 60 * FloorDiv(t, 60));
    assert x - 60.0 * FloorDiv(t, 60) as real == x - (60 * FloorDiv(t, 60)) as real;
  }

  /** The printed clock reads back as the whole seconds. */
  lemma PyHhMmSsRoundTrip(x: real)
    ensures |PyHhMmSs(x)| >= 8 && ParseClock3(PyHhMmSs(x)) == Floor(x)
  {
    var t := Floor(x);
    PyHhMmSsFields(x);
    var h, m, s := FloorDiv(t, 3600), FloorDiv(FloorMod(t, 3600), 60), FloorMod(t, 60);
    assert PyHhMmSs(x) == Clock3(h, m, s);
    Clock3RoundTrip(h, m, s);
    HmsDecomposition(t);
  }

  /** Hours, minutes of the hour and seconds of the minute add back up to the seconds. */
  lemma HmsDecomposition(t: int)
    ensures 3600 * FloorDiv(t, 3600) + 60 * FloorDiv(FloorMod(t, 3600), 60) + FloorMod(t, 60) == t
  {
    var h, r := FloorDiv(t, 3600), FloorMod(t, 3600);
    var m := FloorDiv(r, 60);
    var s := FloorMod(r, 60);
    assert t == 3600 * h + r && r == 60 * m + s && 0 <= s < 60;
    assert t == 60 * (60 * h + m) + s;
    assert FloorDiv(t, 60) == 60 * h + m;
  }

  /** `formatTime` of the agent panel: `Math.floor` over JavaScript's truncating `%`. */
  function JsHhMmSs(x: real): (r: string)
    ensures x >= 0.0 ==> r == PyHhMmSs(x)
  {
    var h := Floor(x / 3600.0);
    var m := Floor(JsModReal(x, 3600.0) / 60.0);
    var s := Floor(JsModReal(x, 60.0));
    JsAgreesOnNonNegative(x);
    Clock3(h, m, s)
  }

  lemma JsAgreesOnNonNegative(x: real)
    ensures x >= 0.0 ==> JsModReal(x, 3600.0) == PyModReal(x, 3600.0) && JsModReal(x, 60.0) == PyModReal(x, 60.0)
    ensures x >= 0.0 ==> Floor(JsModReal(x, 60.0)) == Trunc(PyModReal(x, 60.0))
  {
  }

  /** `format_time` of the replay scrubber: `divmod` of the truncated seconds. */
  function ScrubberTime(x: real): (r: string)
    ensures var t := Trunc(x);
      exists m: int, s: int :: 0 <= s < 60 && 60 * m + s == t && r == Clock2(m, s)
  {
    var t := Trunc(x);
    Clock2(FloorDiv(t, 60), FloorMod(t, 60))
  }

  lemma ScrubberTimeRoundTrip(x: real)
    ensures |ScrubberTime(x)| >= 5 && ParseClock2(ScrubberTime(x)) == Trunc(x)
  {
    var t := Trunc(x);
    Clock2RoundTrip(FloorDiv(t, 60), FloorMod(t, 60));
  }

  /** `formatTime` of the replay viewer's controls: minutes may exceed 59. */
  function JsMmSs(x: real): (r: string)
    ensures x >= 0.0 ==> r == ScrubberTime(x)
  {
    FloorDiv60(x);
    JsAgreesOnNonNegative(x);
    Clock2(Floor(x / 60.0), Floor(JsModReal(x, 60.0)))
  }

  /**
   * `_format_time_short`: `MM:SS` under an hour, `HH:MMh` from an hour on
   * (the seconds dropped).
   */
  function ShortTime(x: real): (r: string)
    ensures 0.0 <= x < 3600.0 ==> r == ScrubberTime(x)
    ensures x >= 3600.0 ==> exists h: int, m: int ::
      0 <= m < 60 && 60 * h + m == FloorDiv(Floor(x), 60) && r == Clock2(h, m) + "h"
  {
    PyHhMmSsFields(x);
    FloorDiv60(x);
    if x < 3600.0 then
      Clock2(PyFloorDivReal(x, 60.0), Trunc(PyModReal(x, 60.0)))
    else
      ShortHoursFields(Floor(x));
      Clock2(PyFloorDivReal(x, 3600.0), PyFloorDivReal(PyModReal(x, 3600.0), 60.0)) + "h"
  }

  lemma ShortHoursFields(t: int)
    ensures 60 * FloorDiv(t, 3600) + FloorDiv(FloorMod(t, 3600), 60) == FloorDiv(t, 60)
  {
    var h, r := FloorDiv(t, 3600), FloorMod(t, 3600);
    var m := FloorDiv(r, 60);
    assert t == 3600 * h + r;
    assert 60 * m <= r < 60 * m + 60;
    assert 60 * (60 * h + m) <= t < 60 * (60 * h + m) + 60;
  }

  // ---------------------------------------------------------------------
  // Numbers with a magnitude suffix
  // ---------------------------------------------------------------------

  /**
   * `_format_number`: the value scaled to millions (`M`) from a million on,
   * to thousands (`K`) from a thousand on, unscaled otherwise.  The fixed
   * decimal rendering of the scaled value is not modelled.
   */
  function ScaledNumber(x: real): (r: (real, string))
    ensures r.1 == "M" <==> x >= 1000000.0
    ensures r.1 == "K" <==> 1000.0 <= x < 1000000.0
    ensures r.1 == "" <==> x < 1000.0
    ensures r.0 * (if r.1 == "M" then 1000000.0 else if r.1 == "K" then 1000.0 else 1.0) == x
    ensures r.1 != "" ==> 1.0 <= r.0
    ensures r.1 == "K" ==> r.0 < 1000.0
  {
    if x >= 1000000.0 then (x / 1000000.0, "M")
    else if x >= 1000.0 then (x / 1000.0, "K")
    else (x, "")
  }
}
