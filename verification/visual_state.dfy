/**
 * The global visual state of the pygame viewer: the operators, work orders
 * and metrics last received, and three user controls: pause, the
 * simulation speed and the dashboard's visibility.  The speed moves along a
 * fixed ladder of factors, one step per key press, and stops at either end.
 */
module VisualState {
  import opened Wrappers
  import Json
  import Dicts

  datatype State = State(operarios: Json.Fields, workOrders: Json.Fields, metricas: Json.Fields,
                         pausa: bool, velocidad: Option<real>, dashboardVisible: bool)

  /** The allowed speed factors, ascending. */
  const Ladder: seq<real> := [0.5, 1.0, 2.0, 5.0, 10.0]

  const DefaultSpeed: real := 1.0

  /** The state after `inicializar_estado` or `limpiar_estado`: nothing received, running at 1x, dashboard shown. */
  function Cleared(): (s: State)
    ensures s.operarios.keys == [] && s.workOrders.keys == [] && s.metricas.keys == []
    ensures !s.pausa && s.dashboardVisible && Speed(s) == 1.0 && Speed(s) in Ladder
  {
    State(Dicts.Empty(), Dicts.Empty(), Dicts.Empty(), false, Some(DefaultSpeed), true)
  }

  /** `obtener_velocidad_simulacion`: the stored speed, 1.0 when the key is missing. */
  function Speed(s: State): (v: real)
    ensures s.velocidad.Some? ==> v == s.velocidad.value
    ensures s.velocidad.None? ==> v == DefaultSpeed
  {
    s.velocidad.GetOr(DefaultSpeed)
  }

  /** `toggle_pausa`: flips the pause flag and reports its new value; nothing else changes. */
  function TogglePausa(s: State): (r: (State, bool))
    ensures r.1 == r.0.pausa && r.1 != s.pausa
    ensures r.0.(pausa := s.pausa) == s
  {
    var t := s.(pausa := !s.pausa);
    (t, t.pausa)
  }

  /** `toggle_dashboard`: flips the visibility and reports its new value; nothing else changes. */
  function ToggleDashboard(s: State): (r: (State, bool))
    ensures r.1 == r.0.dashboardVisible && r.1 != s.dashboardVisible
    ensures r.0.(dashboardVisible := s.dashboardVisible) == s
  {
    var t := s.(dashboardVisible := !s.dashboardVisible);
    (t, t.dashboardVisible)
  }

  lemma {:induction false} ToggleTwiceIsIdentity(s: State)
    ensures TogglePausa(TogglePausa(s).0).0 == s
    ensures ToggleDashboard(ToggleDashboard(s).0).0 == s
  {
    var p := TogglePausa(s).0;
    assert p.pausa == !s.pausa;
    var d := ToggleDashboard(s).0;
    assert d.dashboardVisible == !s.dashboardVisible;
  }

  /** The first ladder value above `v`, scanning the ladder from `i` upwards. */
  function NextAbove(v: real, i: nat): (r: Option<real>)
    requires i <= |Ladder|
    ensures r.Some? ==> r.value in Ladder[i..] && r.value > v
    ensures r.Some? ==> forall j :: i <= j < |Ladder| && Ladder[j] > v ==> r.value <= Ladder[j]
    ensures r.None? <==> forall j :: i <= j < |Ladder| ==> Ladder[j] <= v
    decreases |Ladder| - i
  {
    if i == |Ladder| then None
    else if Ladder[i] > v then Some(Ladder[i])
    else NextAbove(v, i + 1)
  }

  /** The first ladder value below `v`, scanning the ladder from index `i - 1` downwards. */
  function NextBelow(v: real, i: nat): (r: Option<real>)
    requires i <= |Ladder|
    ensures r.Some? ==> r.value in Ladder[..i] && r.value < v
    ensures r.Some? ==> forall j :: 0 <= j < i && Ladder[j] < v ==> Ladder[j] <= r.value
    ensures r.None? <==> forall j :: 0 <= j < i ==> Ladder[j] >= v
  {
    if i == 0 then None
    else if Ladder[i - 1] < v then Some(Ladder[i - 1])
    else NextBelow(v, i - 1)
  }

  /**
   * `aumentar_velocidad`: the smallest allowed speed above the current one,
   * or the top speed when none is above.
   */
  function Aumentar(s: State): (t: State)
    ensures t == s.(velocidad := Some(Speed(t)))
    ensures Speed(t) in Ladder
    ensures Speed(t) > Speed(s) || (Speed(s) >= 10.0 && Speed(t) == 10.0)
    ensures forall x :: x in Ladder && x > Speed(s) ==> Speed(t) <= x
  {
    var v := Speed(s);
    var next := NextAbove(v, 0);
    if next.Some? then s.(velocidad := Some(next.value))
    else s.(velocidad := Some(Ladder[|Ladder| - 1]))
  }

  /**
   * `disminuir_velocidad`: the largest allowed speed below the current one,
   * or the bottom speed when none is below.
   */
  function Disminuir(s: State): (t: State)
    ensures t == s.(velocidad := Some(Speed(t)))
    ensures Speed(t) in Ladder
    ensures Speed(t) < Speed(s) || (Speed(s) <= 0.5 && Speed(t) == 0.5)
    ensures forall x :: x in Ladder && x < Speed(s) ==> x <= Speed(t)
  {
    var v := Speed(s);
    var next := NextBelow(v, |Ladder|);
    if next.Some? then s.(velocidad := Some(next.value))
    else s.(velocidad := Some(Ladder[0]))
  }

  /** One step up then one step down returns to an allowed speed below the top. */
  lemma UpThenDown(s: State)
    requires Speed(s) in Ladder && Speed(s) < 10.0
    ensures Disminuir(Aumentar(s)) == s.(velocidad := Some(Speed(s)))
  {
    var t := Aumentar(s);
    var u := Disminuir(t);
    assert Speed(u) == Speed(s);
  }

  /** One step down then one step up returns to an allowed speed above the bottom. */
  lemma DownThenUp(s: State)
    requires Speed(s) in Ladder && Speed(s) > 0.5
    ensures Aumentar(Disminuir(s)) == s.(velocidad := Some(Speed(s)))
  {
    var t := Disminuir(s);
    var u := Aumentar(t);
    assert Speed(u) == Speed(s);
  }
}
