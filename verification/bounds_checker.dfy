/**
 * The universal bounds checker: every position and route an operator is
 * given is tested against (or forced into) the bounds of the TMX coordinate
 * authority, and each problem found is counted as a violation.
 */
module BoundsChecker {
  import opened Wrappers
  import opened TmxCoords

  type Point = (real, real)

  datatype Violation = Violation(position: Point, context: string, operatorId: Option<int>, bounds: Rect)

  datatype Checker = Checker(violations: nat, lastViolations: seq<Violation>, debug: bool)

  const Fresh: Checker := Checker(0, [], true)

  function IsValid(c: Coords, p: Point): bool { IsPointValid(c, p.0, p.1) }

  function Clamp(c: Coords, p: Point): Point { ClampPoint(c, p.0, p.1) }

  /**
   * `validate_position`: the answer is the coordinate authority's; an
   * invalid point adds one to the count and is recorded with its context.
   */
  function ValidatePosition(k: Checker, c: Coords, p: Point, context: string, operatorId: Option<int>): (r: (bool, Checker))
    ensures r.0 <==> IsPointValid(c, p.0, p.1)
    ensures r.0 ==> r.1 == k
    ensures !r.0 ==>
      && r.1.violations == k.violations + 1
      && r.1.lastViolations == k.lastViolations + [Violation(p, context, operatorId, GetBounds(c))]
      && r.1.debug == k.debug
  {
    if IsValid(c, p) then (true, k)
    else (false, k.(violations := k.violations + 1,
                    lastViolations := k.lastViolations + [Violation(p, context, operatorId, GetBounds(c))]))
  }

  /**
   * `validate_and_clamp`: the clamped point, counting one violation exactly
   * when clamping moved it.
   */
  function ValidateAndClamp(k: Checker, c: Coords, p: Point): (r: (Point, Checker))
    ensures r.0 == ClampPoint(c, p.0, p.1)
    ensures Ordered(GetBounds(c)) ==> IsPointValid(c, r.0.0, r.0.1)
    ensures r.1.violations == k.violations + (if r.0 != p then 1 else 0)
    ensures r.1.lastViolations == k.lastViolations && r.1.debug == k.debug
    ensures IsPointValid(c, p.0, p.1) ==> r == (p, k)
  {
    var q := Clamp(c, p);
    (q, if q != p then k.(violations := k.violations + 1) else k)
  }

  /** The number of route points outside the bounds. */
  function InvalidCount(c: Coords, route: seq<Point>): (n: nat)
    ensures n <= |route|
  {
    if route == [] then 0
    else InvalidCount(c, route[..|route| - 1]) + (if IsValid(c, route[|route| - 1]) then 0 else 1)
  }

  /** No point is invalid exactly when every point is valid. */
  lemma {:induction false} InvalidCountZero(c: Coords, route: seq<Point>)
    ensures InvalidCount(c, route) == 0 <==> forall i :: 0 <= i < |route| ==> IsValid(c, route[i])
  {
    if route != [] {
      var init := route[..|route| - 1];
      InvalidCountZero(c, init);
      assert forall i :: 0 <= i < |init| ==> init[i] == route[i];
    }
  }

  /**
   * `validate_route`: an empty route is valid; otherwise the route is valid
   * iff all its points are, and each invalid point adds one violation.
   */
  function ValidateRoute(k: Checker, c: Coords, route: seq<Point>): (r: (bool, Checker))
    ensures route == [] ==> r == (true, k)
    ensures r.1.violations == k.violations + InvalidCount(c, route)
    ensures r.1.lastViolations == k.lastViolations && r.1.debug == k.debug
  {
    if route == [] then (true, k)
    else
      var n := InvalidCount(c, route);
      if n > 0 then (false, k.(violations := k.violations + n)) else (true, k)
  }

  /** The route is accepted exactly when every one of its points is valid. */
  lemma ValidateRouteIff(k: Checker, c: Coords, route: seq<Point>)
    ensures ValidateRoute(k, c, route).0 <==> forall i :: 0 <= i < |route| ==> IsValid(c, route[i])
  {
    InvalidCountZero(c, route);
  }

  /** The number of route points that clamping moves. */
  function FixCount(c: Coords, route: seq<Point>): (n: nat)
    ensures n <= |route|
    ensures n == 0 <== forall i :: 0 <= i < |route| ==> IsValid(c, route[i])
  {
    if route == [] then 0
    else FixCount(c, route[..|route| - 1]) + (if Clamp(c, route[|route| - 1]) != route[|route| - 1] then 1 else 0)
  }

  function ClampAll(c: Coords, route: seq<Point>): (r: seq<Point>)
    ensures |r| == |route|
    ensures forall i :: 0 <= i < |route| ==> r[i] == ClampPoint(c, route[i].0, route[i].1)
  {
    seq(|route|, (i: int) requires 0 <= i < |route| => Clamp(c, route[i]))
  }

  /**
   * `validate_and_fix_route`: every point clamped, in order, with one
   * violation per point that moved.
   */
  function ValidateAndFixRoute(k: Checker, c: Coords, route: seq<Point>): (r: (seq<Point>, Checker))
    ensures |r.0| == |route|
    ensures forall i :: 0 <= i < |route| ==> r.0[i] == ClampPoint(c, route[i].0, route[i].1)
    ensures Ordered(GetBounds(c)) ==> forall i :: 0 <= i < |r.0| ==> IsPointValid(c, r.0[i].0, r.0[i].1)
    ensures r.1.violations == k.violations + FixCount(c, route)
    ensures r.1.lastViolations == k.lastViolations && r.1.debug == k.debug
  {
    if route == [] then (route, k)
    else (ClampAll(c, route), k.(violations := k.violations + FixCount(c, route)))
  }

  /** A fixed route needs no further fixing and draws no further violation. */
  lemma FixRouteIdempotent(k: Checker, c: Coords, route: seq<Point>)
    ensures var (fixed, k1) := ValidateAndFixRoute(k, c, route);
      ValidateAndFixRoute(k1, c, fixed) == (fixed, k1)
  {
    var (fixed, k1) := ValidateAndFixRoute(k, c, route);
    forall i | 0 <= i < |fixed|
      ensures Clamp(c, fixed[i]) == fixed[i]
    {
      ClampIdempotent(c, route[i].0, route[i].1);
    }
    FixCountZero(c, fixed);
    assert ClampAll(c, fixed) == fixed;
  }

  /** When no point moves the count stays put. */
  lemma {:induction false} FixCountZero(c: Coords, route: seq<Point>)
    requires forall i :: 0 <= i < |route| ==> Clamp(c, route[i]) == route[i]
    ensures FixCount(c, route) == 0
  {
    if route != [] {
      FixCountZero(c, route[..|route| - 1]);
    }
  }

  /**
   * `check_operator_movement`: both ends are validated (counting
   * violations); with TMX active a non-walkable end rejects the move, and a
   * lookup that raises is propagated.
   */
  function CheckOperatorMovement(k: Checker, c: Coords, operatorId: int, current: Point, target: Point,
                                 context: string): (r: Result<(bool, Checker)>)
    requires Inv(c)
    ensures r.Ok? && r.value.0 ==> IsPointValid(c, current.0, current.1) && IsPointValid(c, target.0, target.1)
    ensures r.Ok? && r.value.0 && IsTmxActive(c) ==>
      IsPixelWalkable(c, current.0, current.1) == Ok(true) && IsPixelWalkable(c, target.0, target.1) == Ok(true)
    ensures r.Ok? ==> (r.value.1.violations ==
      k.violations + (if IsValid(c, current) then 0 else 1) + (if IsValid(c, target) then 0 else 1))
    ensures r.Err? ==> IsTmxActive(c)
  {
    var (curOk, k1) := ValidatePosition(k, c, current, context + " - Posición actual", Some(operatorId));
    var (tgtOk, k2) := ValidatePosition(k1, c, target, context + " - Posición objetivo", Some(operatorId));
    if IsTmxActive(c) then
      var cw := IsPixelWalkable(c, current.0, current.1);
      var tw := IsPixelWalkable(c, target.0, target.1);
      if cw.Err? then Err(cw.error)
      else if tw.Err? then Err(tw.error)
      else if !cw.value || !tw.value then Ok((false, k2))
      else Ok((curOk && tgtOk, k2))
    else Ok((curOk && tgtOk, k2))
  }

  /**
   * `get_safe_alternative_position`: the clamped point when it is valid and
   * (with TMX active) walkable, else the authority's safe starting position.
   */
  function GetSafeAlternativePosition(c: Coords, p: Point, pick: nat): (r: Result<Point>)
    requires Inv(c)
    ensures Ordered(GetBounds(c)) && r.Ok? ==> IsPointValid(c, r.value.0, r.value.1)
    ensures !IsTmxActive(c) ==> r == Ok(ClampPoint(c, p.0, p.1))
    ensures r.Ok? && r.value != ClampPoint(c, p.0, p.1) ==> r.value == GetSafeStartingPosition(c, pick)
  {
    var q := Clamp(c, p);
    if IsValid(c, q) then
      if !IsTmxActive(c) then Ok(q)
      else match IsPixelWalkable(c, q.0, q.1)
        case Err(e) => Err(e)
        case Ok(w) => if w then Ok(q) else Ok(GetSafeStartingPosition(c, pick))
    else Ok(GetSafeStartingPosition(c, pick))
  }

  /** `reset_stats`. */
  function ResetStats(k: Checker): (r: Checker)
    ensures r.violations == 0 && r.lastViolations == [] && r.debug == k.debug
  {
    k.(violations := 0, lastViolations := [])
  }

  datatype Stats = Stats(totalViolations: nat, recentViolations: nat, tmxActive: bool, currentBounds: Rect)

  /** `get_stats`. */
  function GetStats(k: Checker, c: Coords): (s: Stats)
    ensures s.totalViolations == k.violations && s.recentViolations == |k.lastViolations|
    ensures s.tmxActive == IsTmxActive(c) && s.currentBounds == GetBounds(c)
  {
    Stats(k.violations, |k.lastViolations|, IsTmxActive(c), GetBounds(c))
  }
}
