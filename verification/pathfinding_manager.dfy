/**
 * The switch between the current route planner and the TMX-based one: a
 * mode (current only, improved, or an A/B split), call and error counters,
 * an automatic rollback to the current planner when the improved one fails
 * too often, and a straight-line route when everything fails.  The two
 * planners and the clock are parameters.
 */
module PathfindingManager {
  import opened Wrappers

  type Point = (real, real)

  datatype Mode = Actual | Mejorado | AbTest

  /** `establecer_modo`'s accepted names. */
  function ParseMode(s: string): (r: Option<Mode>)
    ensures r.Some? <==> s in {"ACTUAL", "MEJORADO", "AB_TEST"}
    ensures r == Some(Actual) <==> s == "ACTUAL"
  {
    if s == "ACTUAL" then Some(Actual)
    else if s == "MEJORADO" then Some(Mejorado)
    else if s == "AB_TEST" then Some(AbTest)
    else None
  }

  datatype Stats = Stats(llamadasTotal: nat, llamadasActual: nat, llamadasMejorado: nat,
                         erroresActual: nat, erroresMejorado: nat,
                         tiempoActual: real, tiempoMejorado: real)

  /**
   * The manager.  `improvedReady` says the TMX wrapper has been created
   * (it is created lazily).
   */
  datatype Manager = Manager(modo: Mode, improvedReady: bool, stats: Stats,
                             porcentajeMejorado: int, autoRollback: bool, umbralError: int)

  /** Which planners could be imported. */
  datatype Env = Env(actualDisponible: bool, mejoradoDisponible: bool)

  /** The constructed manager: improved mode, 50% split, rollback above 10% errors. */
  const Initial: Manager := Manager(Mejorado, false, Stats(0, 0, 0, 0, 0, 0.0, 0.0), 50, true, 10)

  /** `inicializar_sistema_mejorado`: create the wrapper once, when the planner exists. */
  function InicializarMejorado(m: Manager, env: Env): (r: (bool, Manager))
    ensures r.0 <==> m.improvedReady || env.mejoradoDisponible
    ensures r.1 == m.(improvedReady := r.0)
  {
    if !m.improvedReady && env.mejoradoDisponible then (true, m.(improvedReady := true))
    else (m.improvedReady, m)
  }

  /**
   * `establecer_modo`: an unknown name raises; asking for an improved mode
   * without the improved planner falls back to ACTUAL and answers False.
   */
  function EstablecerModo(m: Manager, env: Env, nuevo: string): (r: Result<(bool, Manager)>)
    ensures r.Err? <==> ParseMode(nuevo).None?
    ensures r.Ok? ==> r.value.1.stats == m.stats
    ensures r.Ok? && r.value.0 ==> r.value.1.modo == ParseMode(nuevo).value
    ensures r.Ok? && !r.value.0 ==>
      r.value.1.modo == Actual && nuevo != "ACTUAL" && !m.improvedReady && !env.mejoradoDisponible
    ensures nuevo == "ACTUAL" ==> r == Ok((true, m.(modo := Actual)))
  {
    match ParseMode(nuevo)
    case None => Err("ValueError: Modo debe ser uno de: ['ACTUAL', 'MEJORADO', 'AB_TEST']")
    case Some(mode) =>
      var m1 := m.(modo := mode);
      if mode == Actual then Ok((true, m1))
      else
        var (ok, m2) := InicializarMejorado(m1, env);
        if ok then Ok((true, m2)) else Ok((false, m2.(modo := Actual)))
  }

  /** `_usar_sistema_mejorado_decision`. */
  function UsarMejorado(m: Manager): (b: bool)
    ensures m.modo == Actual ==> !b
    ensures m.modo == Mejorado ==> b
    ensures m.modo == AbTest ==> (b <==> m.stats.llamadasTotal % 100 < m.porcentajeMejorado)
  {
    match m.modo
    case Actual => false
    case Mejorado => true
    case AbTest => m.stats.llamadasTotal % 100 < m.porcentajeMejorado
  }

  /** Over any 100 consecutive calls the A/B split sends exactly `p` of them to the improved planner. */
  lemma AbSplitShare(m: Manager, start: nat)
    requires m.modo == AbTest && 0 <= m.porcentajeMejorado <= 100 && start % 100 == 0
    ensures forall n :: start <= n < start + m.porcentajeMejorado ==>
      UsarMejorado(m.(stats := m.stats.(llamadasTotal := n)))
    ensures forall n :: start + m.porcentajeMejorado <= n < start + 100 ==>
      !UsarMejorado(m.(stats := m.stats.(llamadasTotal := n)))
  {
    forall n | start <= n < start + 100
      ensures n % 100 == n - start
    {
      ModOffset(start, n);
    }
  }

  lemma ModOffset(start: nat, n: nat)
    requires start % 100 == 0 && start <= n < start + 100
    ensures n % 100 == n - start
  {
    var k := start / 100;
    assert start == 100 * k;
    assert n == 100 * k + (n - start);
  }

  /** The improved planner's error percentage, with the divisor at least one. */
  function ErrorRate(errors: nat, calls: nat): real
  {
    errors as real / (if calls >= 1 then calls else 1) as real * 100.0
  }

  /** `_necesita_rollback_automatico`. */
  function NecesitaRollback(m: Manager): (b: bool)
    ensures b <==> m.autoRollback && m.modo != Actual && m.stats.llamadasMejorado >= 10
                   && ErrorRate(m.stats.erroresMejorado, m.stats.llamadasMejorado) > m.umbralError as real
  {
    if !m.autoRollback || m.modo == Actual then false
    else if m.stats.llamadasMejorado < 10 then false
    else ErrorRate(m.stats.erroresMejorado, m.stats.llamadasMejorado) > m.umbralError as real
  }

  /** What one call to a planner did: returned a route (or None), or raised. */
  datatype Outcome = Returned(route: Option<seq<Point>>) | Raised(message: string)

  /** The planner's answer when it did not raise. */
  function RouteOf(o: Outcome): Option<seq<Point>>
  {
    if o.Returned? then o.route else None
  }

  /** `_calcular_ruta_actual`: a returned answer counts a call, a raise counts an error; both add the time. */
  function CallActual(s: Stats, o: Outcome, elapsed: real): (r: Stats)
    ensures r.llamadasActual + r.erroresActual == s.llamadasActual + s.erroresActual + 1
    ensures r.tiempoActual == s.tiempoActual + elapsed
    ensures r.llamadasTotal == s.llamadasTotal && r.llamadasMejorado == s.llamadasMejorado
      && r.erroresMejorado == s.erroresMejorado && r.tiempoMejorado == s.tiempoMejorado
    ensures o.Raised? <==> r.erroresActual == s.erroresActual + 1
  {
    match o
    case Returned(_) => s.(llamadasActual := s.llamadasActual + 1, tiempoActual := s.tiempoActual + elapsed)
    case Raised(_) => s.(erroresActual := s.erroresActual + 1, tiempoActual := s.tiempoActual + elapsed)
  }

  /** `_calcular_ruta_mejorado` once the wrapper exists. */
  function CallMejorado(s: Stats, o: Outcome, elapsed: real): (r: Stats)
    ensures r.llamadasMejorado + r.erroresMejorado == s.llamadasMejorado + s.erroresMejorado + 1
    ensures r.tiempoMejorado == s.tiempoMejorado + elapsed
    ensures r.llamadasTotal == s.llamadasTotal && r.llamadasActual == s.llamadasActual
      && r.erroresActual == s.erroresActual && r.tiempoActual == s.tiempoActual
    ensures o.Raised? <==> r.erroresMejorado == s.erroresMejorado + 1
  {
    match o
    case Returned(_) => s.(llamadasMejorado := s.llamadasMejorado + 1, tiempoMejorado := s.tiempoMejorado + elapsed)
    case Raised(_) => s.(erroresMejorado := s.erroresMejorado + 1, tiempoMejorado := s.tiempoMejorado + elapsed)
  }

  /** A call's effect: the manager afterwards and the route, or the message of what it raised. */
  datatype RouteCall = RouteCall(manager: Manager, route: Result<seq<Point>>)

  /** What the planners do on this call, and how long each takes. */
  datatype Planners = Planners(improved: Outcome, improvedTime: real, current: Outcome, currentTime: real)

  /** The current planner when it is importable, else nothing. */
  function TryActual(m: Manager, env: Env, p: Planners): (r: (Manager, Option<seq<Point>>))
    ensures !env.actualDisponible ==> r == (m, None)
    ensures env.actualDisponible ==>
      r.0 == m.(stats := CallActual(m.stats, p.current, p.currentTime)) && r.1 == RouteOf(p.current)
  {
    if env.actualDisponible then (m.(stats := CallActual(m.stats, p.current, p.currentTime)), RouteOf(p.current))
    else (m, None)
  }

  /** The manager with this call counted. */
  function Counted(m: Manager): (r: Manager)
    ensures r.stats.llamadasTotal == m.stats.llamadasTotal + 1
    ensures r.(stats := m.stats) == m
  {
    m.(stats := m.stats.(llamadasTotal := m.stats.llamadasTotal + 1))
  }

  /** The call asks the improved planner: the mode chooses it and no rollback is due. */
  predicate AsksImproved(m: Manager)
  {
    UsarMejorado(Counted(m)) && !NecesitaRollback(Counted(m))
  }

  /** The call falls back past the improved planner: it was not asked, or it gave no route. */
  predicate PastImproved(m: Manager, p: Planners)
  {
    !AsksImproved(m) || RouteOf(p.improved).None?
  }

  /**
   * `calcular_ruta_con_fallback`: count the call, decide the planner (after
   * a possible automatic rollback), try the improved planner and then the
   * current one, and finally return `[start, end]`.  Asking the improved
   * planner before its wrapper can be created raises.
   */
  function CalcularRutaConFallback(m: Manager, env: Env, p: Planners, start: Point, end: Point): (r: RouteCall)
    ensures r.manager.stats.llamadasTotal == m.stats.llamadasTotal + 1
    ensures r.route.Ok? ==>
      r.route.value == [start, end] || Some(r.route.value) == RouteOf(p.improved) || Some(r.route.value) == RouteOf(p.current)
    ensures r.route.Err? ==> !m.improvedReady && !env.mejoradoDisponible
    ensures r.manager.modo == m.modo || r.manager.modo == Actual
    ensures r.route.Err? <==> AsksImproved(m) && !m.improvedReady && !env.mejoradoDisponible
    ensures r.route.Ok? && !PastImproved(m, p) ==> r.route.value == RouteOf(p.improved).value
    ensures r.route.Ok? && PastImproved(m, p) && env.actualDisponible && RouteOf(p.current).Some? ==>
              r.route.value == RouteOf(p.current).value
    ensures r.route.Ok? && PastImproved(m, p) && !(env.actualDisponible && RouteOf(p.current).Some?) ==>
              r.route.value == [start, end]
  {
    var m1 := Counted(m);
    var rollback := NecesitaRollback(m1);
    var usar := UsarMejorado(m1) && !rollback;
    var m2 := if rollback then m1.(modo := Actual) else m1;
    if usar then
      var (ok, m3) := InicializarMejorado(m2, env);
      if !ok then RouteCall(m3, Err("Sistema TMX no disponible"))
      else
        var m4 := m3.(stats := CallMejorado(m3.stats, p.improved, p.improvedTime));
        match RouteOf(p.improved)
        case Some(route) => RouteCall(m4, Ok(route))
        case None =>
          var (m5, fallback) := TryActual(m4, env, p);
          RouteCall(m5, Ok(fallback.GetOr([start, end])))
    else
      var (m3, route) := TryActual(m2, env, p);
      RouteCall(m3, Ok(route.GetOr([start, end])))
  }

  /** In ACTUAL mode the improved planner is never asked. */
  lemma ActualNeverAsksImproved(m: Manager, env: Env, p: Planners, start: Point, end: Point)
    requires m.modo == Actual
    ensures var r := CalcularRutaConFallback(m, env, p, start, end);
      && r.route.Ok?
      && r.manager.stats.llamadasMejorado == m.stats.llamadasMejorado
      && r.manager.stats.erroresMejorado == m.stats.erroresMejorado
  {
  }

  /** Once rollback is due, the call runs in ACTUAL mode. */
  lemma RollbackSwitchesToActual(m: Manager, env: Env, p: Planners, start: Point, end: Point)
    requires NecesitaRollback(m)
    ensures var r := CalcularRutaConFallback(m, env, p, start, end);
      r.manager.modo == Actual && r.route.Ok?
      && r.manager.stats.llamadasMejorado == m.stats.llamadasMejorado
  {
    var m1 := m.(stats := m.stats.(llamadasTotal := m.stats.llamadasTotal + 1));
    assert NecesitaRollback(m1);
  }

  /** The derived part of `obtener_estadisticas`: averages and error percentages, zero without calls. */
  datatype Derived = Derived(tiempoPromedioActual: real, tasaErrorActual: real,
                             tiempoPromedioMejorado: real, tasaErrorMejorado: real)

  function Ratio(a: real, n: nat): real
  {
    if n > 0 then a / n as real else 0.0
  }

  function ObtenerEstadisticas(m: Manager): (d: Derived)
    ensures m.stats.llamadasActual == 0 ==> d.tiempoPromedioActual == 0.0 && d.tasaErrorActual == 0.0
    ensures m.stats.llamadasMejorado == 0 ==> d.tiempoPromedioMejorado == 0.0 && d.tasaErrorMejorado == 0.0
    ensures m.stats.llamadasActual > 0 ==>
      d.tiempoPromedioActual * m.stats.llamadasActual as real == m.stats.tiempoActual
      && d.tasaErrorActual * m.stats.llamadasActual as real == m.stats.erroresActual as real * 100.0
    ensures m.stats.llamadasMejorado > 0 ==>
      d.tiempoPromedioMejorado * m.stats.llamadasMejorado as real == m.stats.tiempoMejorado
      && d.tasaErrorMejorado * m.stats.llamadasMejorado as real == m.stats.erroresMejorado as real * 100.0
  {
    var s := m.stats;
    Derived(Ratio(s.tiempoActual, s.llamadasActual), Ratio(s.erroresActual as real, s.llamadasActual) * 100.0,
            Ratio(s.tiempoMejorado, s.llamadasMejorado), Ratio(s.erroresMejorado as real, s.llamadasMejorado) * 100.0)
  }
}
