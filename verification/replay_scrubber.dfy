/**
 * The replay scrubber: a horizontal bar mapping the mouse's x position to
 * a playback time between `minTime` and `maxTime`.  Pressing the left
 * button inside the bar starts a drag and seeks; moving while dragging
 * seeks again; releasing the left button ends the drag.  The engine's clock
 * updates the bar only while the user is not dragging it.  A seek is
 * reported as the target time it would post.
 */
module ReplayScrubber {
  import opened Wrappers

  datatype Rect = Rect(x: int, y: int, width: int, height: int)

  datatype Scrubber = Scrubber(rect: Rect, minTime: real, maxTime: real, currentTime: real, dragging: bool)

  datatype MouseEvent =
    | ButtonDown(button: int, px: int, py: int)
    | ButtonUp(button: int)
    | Motion(px: int, py: int)
    | OtherEvent

  /** `Rect.collidepoint`: right and bottom edges excluded; an empty rectangle contains nothing. */
  predicate Contains(r: Rect, px: int, py: int)
  {
    r.width > 0 && r.height > 0 && r.x <= px < r.x + r.width && r.y <= py < r.y + r.height
  }

  /**
   * The states the scrubber can be in: times never below the start, a total
   * of at least one second, and a drag only on a bar wide enough to divide by.
   */
  predicate Valid(s: Scrubber)
  {
    s.minTime == 0.0 && s.maxTime >= 1.0 && s.currentTime >= s.minTime && (s.dragging ==> s.rect.width > 0)
  }

  function Init(r: Rect): (s: Scrubber)
    ensures Valid(s) && !s.dragging && s.currentTime == s.minTime && s.rect == r
  {
    Scrubber(r, 0.0, 1.0, 0.0, false)
  }

  /** `max(0.0, min(1.0, p))`. */
  function Clamp01(p: real): (r: real)
    ensures 0.0 <= r <= 1.0
    ensures 0.0 <= p <= 1.0 ==> r == p
    ensures p < 0.0 ==> r == 0.0
    ensures p > 1.0 ==> r == 1.0
  {
    if p < 0.0 then 0.0 else if p > 1.0 then 1.0 else p
  }

  /**
   * `_update_time_from_pos`: the mouse's offset over the bar's width,
   * clamped to [0, 1], scaled onto the time range.  Left of the bar gives
   * the start, right of it the end.
   */
  function TimeAt(s: Scrubber, px: int): (t: real)
    requires s.rect.width > 0 && s.minTime <= s.maxTime
    ensures s.minTime <= t <= s.maxTime
    ensures px <= s.rect.x ==> t == s.minTime
    ensures px >= s.rect.x + s.rect.width ==> t == s.maxTime
  {
    var p := Clamp01(Ratio(px - s.rect.x, s.rect.width));
    ScaleWithin(p, s.maxTime - s.minTime);
    s.minTime + p * (s.maxTime - s.minTime)
  }

  /** `relative_x / width` as a true division. */
  function Ratio(n: int, w: int): (q: real)
    requires w > 0
    ensures q * w as real == n as real
    ensures n <= 0 ==> q <= 0.0
    ensures n >= w ==> q >= 1.0
  {
    var inv := 1.0 / w as real;
    assert n as real / w as real == n as real * inv;
    MulNonneg(0.0 - n as real, inv);
    assert (0.0 - n as real) * inv == 0.0 - n as real * inv;
    MulNonneg(n as real - w as real, inv);
    assert w as real * inv == 1.0;
    assert (n as real - w as real) * inv == n as real * inv - w as real * inv;
    n as real / w as real
  }

  lemma RatioMonotone(a: int, b: int, w: int)
    requires w > 0 && a <= b
    ensures Ratio(a, w) <= Ratio(b, w)
  {
    var inv := 1.0 / w as real;
    assert Ratio(a, w) == a as real * inv;
    assert Ratio(b, w) == b as real * inv;
    MulNonneg(b as real - a as real, inv);
    assert (b as real - a as real) * inv == b as real * inv - a as real * inv;
  }

  lemma MulNonneg(a: real, b: real)
    ensures a >= 0.0 && b >= 0.0 ==> a * b >= 0.0
  {
  }

  lemma ScaleWithin(p: real, d: real)
    requires 0.0 <= p <= 1.0 && d >= 0.0
    ensures 0.0 <= p * d <= d
  {
    assert d - p * d == (1.0 - p) * d;
  }

  /** Further right never means earlier. */
  lemma TimeAtMonotone(s: Scrubber, a: int, b: int)
    requires s.rect.width > 0 && s.minTime <= s.maxTime && a <= b
    ensures TimeAt(s, a) <= TimeAt(s, b)
  {
    var pa := Ratio(a - s.rect.x, s.rect.width);
    var pb := Ratio(b - s.rect.x, s.rect.width);
    RatioMonotone(a - s.rect.x, b - s.rect.x, s.rect.width);
    var ca, cb := Clamp01(pa), Clamp01(pb);
    var d := s.maxTime - s.minTime;
    assert ca <= cb;
    assert cb * d - ca * d == (cb - ca) * d;
  }

  /**
   * `handle_event`: the scrubber after the event and the time it seeks to,
   * if any.
   */
  function HandleEvent(s: Scrubber, e: MouseEvent): (r: (Scrubber, Option<real>))
    requires Valid(s)
    ensures Valid(r.0) && r.0.rect == s.rect && r.0.maxTime == s.maxTime
    ensures r.1.Some? <==> (e.ButtonDown? && e.button == 1 && Contains(s.rect, e.px, e.py)) || (e.Motion? && s.dragging)
    ensures r.1.Some? ==> r.1.value == r.0.currentTime && s.minTime <= r.0.currentTime <= s.maxTime
    ensures r.1.None? ==> r.0.currentTime == s.currentTime
    ensures r.0.dragging == if e.ButtonDown? && e.button == 1 && Contains(s.rect, e.px, e.py) then true
                            else if e.ButtonUp? && e.button == 1 then false
                            else s.dragging
  {
    match e
    case ButtonDown(b, px, py) =>
      if b == 1 && Contains(s.rect, px, py) then
        var t := TimeAt(s, px);
        (s.(dragging := true, currentTime := t), Some(t))
      else (s, None)
    case ButtonUp(b) =>
      if b == 1 && s.dragging then (s.(dragging := false), None) else (s, None)
    case Motion(px, _) =>
      if s.dragging then
        var t := TimeAt(s, px);
        (s.(currentTime := t), Some(t))
      else (s, None)
    case OtherEvent => (s, None)
  }

  /**
   * `update`: the total is raised to at least one second; the current time
   * follows the engine, clamped into range, unless the user is dragging.
   */
  function Update(s: Scrubber, current: real, total: real): (r: Scrubber)
    requires Valid(s)
    ensures Valid(r) && r.rect == s.rect && r.dragging == s.dragging
    ensures r.maxTime >= total && (total >= 1.0 ==> r.maxTime == total)
    ensures s.dragging ==> r.currentTime == s.currentTime
    ensures !s.dragging ==> r.minTime <= r.currentTime <= r.maxTime
    ensures !s.dragging && r.minTime <= current <= r.maxTime ==> r.currentTime == current
  {
    var m := if total > 1.0 then total else 1.0;
    var c := if current < m then current else m;
    if s.dragging then s.(maxTime := m)
    else s.(maxTime := m, currentTime := if s.minTime > c then s.minTime else c)
  }

  /** A press inside the bar followed by a left release leaves the scrubber at the pressed time, not dragging. */
  lemma {:induction false} PressRelease(s: Scrubber, px: int, py: int)
    requires Valid(s) && Contains(s.rect, px, py)
    ensures var p := HandleEvent(s, ButtonDown(1, px, py));
      var q := HandleEvent(p.0, ButtonUp(1));
      && p.1 == Some(TimeAt(s, px)) && !q.0.dragging && q.0.currentTime == TimeAt(s, px) && q.1.None?
  {
    var p := HandleEvent(s, ButtonDown(1, px, py));
    assert p.0.dragging && p.0.currentTime == TimeAt(s, px);
  }

  /**
   * While the user drags, the engine's clock does not move the bar: a
   * shorter total can leave the dragged time past the end.
   */
  lemma DragOutlivesShorterTotal()
    ensures var s := Scrubber(Rect(0, 0, 100, 10), 0.0, 50.0, 40.0, true);
      Valid(s) && Update(s, 0.0, 10.0).currentTime == 40.0 && Update(s, 0.0, 10.0).maxTime == 10.0
  {
  }
}
