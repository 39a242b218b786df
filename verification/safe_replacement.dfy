/**
 * The safe drop-in around the pathfinding manager: activation and rollback
 * of the improved planner, a bounded log of notable events, a periodic
 * health check that rolls back a failing or slow improved planner, and a
 * straight-line route when the manager raises.
 */
module SafeReplacement {
  import opened Wrappers
  import PM = PathfindingManager

  /** Only the most recent events are kept. */
  const MaxEvents: nat := 100

  /** A logged event; its timestamp and statistics snapshot are not modelled. */
  datatype Event = Event(tipo: string, descripcion: string)

  datatype Safe = Safe(manager: PM.Manager, activado: bool, eventos: seq<Event>)

  /** `log_evento`: append, then keep the last 100. */
  function LogEvento(s: Safe, e: Event): (r: Safe)
    ensures |r.eventos| == if |s.eventos| + 1 > MaxEvents then MaxEvents else |s.eventos| + 1
    ensures |r.eventos| > 0 && r.eventos[|r.eventos| - 1] == e
    ensures r.eventos == (s.eventos + [e])[|s.eventos| + 1 - |r.eventos|..]
    ensures r.manager == s.manager && r.activado == s.activado
  {
    var all := s.eventos + [e];
    if |all| > MaxEvents then s.(eventos := all[|all| - MaxEvents..]) else s.(eventos := all)
  }

  /** A log of at most 100 events stays at most 100 events long. */
  lemma LogBounded(s: Safe, e: Event)
    requires |s.eventos| <= MaxEvents
    ensures |LogEvento(s, e).eventos| <= MaxEvents
  {
  }

  /** The last 100 entries of a log (all of it when shorter). */
  function Keep(log: seq<Event>): (r: seq<Event>)
    ensures |r| <= MaxEvents
  {
    if |log| > MaxEvents then log[|log| - MaxEvents..] else log
  }

  /** Logging events one by one keeps exactly the last 100 of everything logged. */
  lemma {:induction false} LogAllKeeps(s: Safe, es: seq<Event>)
    requires |s.eventos| <= MaxEvents
    ensures LogAll(s, es).eventos == Keep(s.eventos + es)
    decreases |es|
  {
    if es == [] {
      assert s.eventos + es == s.eventos;
    } else {
      var init := es[..|es| - 1];
      var last := es[|es| - 1];
      var prev := LogAll(s, init);
      assert prev.eventos == Keep(s.eventos + init) by { LogAllKeeps(s, init); }
      assert LogAll(s, es) == LogEvento(prev, last);
      LogEventoKeeps(prev, last);
      assert Keep(Keep(s.eventos + init) + [last]) == Keep(s.eventos + init + [last]) by {
        KeepSnoc(s.eventos + init, last);
      }
      assert s.eventos + init + [last] == s.eventos + es;
    }
  }

  /** One logged event leaves the last 100 of the log followed by it. */
  lemma LogEventoKeeps(s: Safe, e: Event)
    ensures LogEvento(s, e).eventos == Keep(s.eventos + [e])
  {
  }

  lemma KeepSnoc(a: seq<Event>, x: Event)
    ensures Keep(Keep(a) + [x]) == Keep(a + [x])
  {
  }

  /** Whatever the log held, the last `n` events logged are its tail whenever `n` is at most 100. */
  lemma LogKeepsRecent(s: Safe, es: seq<Event>)
    requires |s.eventos| <= MaxEvents
    ensures var r := LogAll(s, es);
      |r.eventos| <= MaxEvents
      && (|es| <= MaxEvents ==> |es| <= |r.eventos| && r.eventos[|r.eventos| - |es|..] == es)
  {
    LogAllKeeps(s, es);
    var all := s.eventos + es;
    assert all[|all| - |es|..] == es;
  }

  /** Logging several events one after another. */
  function LogAll(s: Safe, es: seq<Event>): (r: Safe)
    decreases |es|
  {
    if es == [] then s else LogEvento(LogAll(s, es[..|es| - 1]), es[|es| - 1])
  }

  /**
   * `activar_sistema_mejorado`: set the A/B share for AB_TEST, switch modes
   * (an unknown mode raises), and log the outcome.
   */
  function Activar(s: Safe, env: PM.Env, modo: string, porcentaje: int): (r: Result<(bool, Safe)>)
    ensures r.Err? <==> PM.ParseMode(modo).None?
    ensures r.Ok? && r.value.0 ==> r.value.1.activado && r.value.1.manager.modo == PM.ParseMode(modo).value
    ensures r.Ok? && !r.value.0 ==> r.value.1.activado == s.activado && r.value.1.manager.modo == PM.Actual
    ensures r.Ok? ==>
      && |r.value.1.eventos| > 0
      && r.value.1.eventos[|r.value.1.eventos| - 1].tipo == (if r.value.0 then "ACTIVACION" else "ERROR_ACTIVACION")
  {
    var m := if modo == "AB_TEST" then s.manager.(porcentajeMejorado := porcentaje) else s.manager;
    match PM.EstablecerModo(m, env, modo)
    case Err(e) => Err(e)
    case Ok((exito, m1)) =>
      if exito then Ok((true, LogEvento(s.(manager := m1, activado := true),
                                        Event("ACTIVACION", "Sistema mejorado activado en modo " + modo))))
      else Ok((false, LogEvento(s.(manager := m1),
                                Event("ERROR_ACTIVACION", "Falló activación en modo " + modo))))
  }

  /** `desactivar_sistema_mejorado`: switching to ACTUAL always succeeds. */
  function Desactivar(s: Safe, env: PM.Env, razon: string): (r: Safe)
    ensures !r.activado && r.manager == s.manager.(modo := PM.Actual)
    ensures |r.eventos| > 0 && r.eventos[|r.eventos| - 1] == Event("ROLLBACK", "Rollback ejecutado - " + razon)
  {
    LogEvento(s.(manager := s.manager.(modo := PM.Actual), activado := false),
              Event("ROLLBACK", "Rollback ejecutado - " + razon))
  }

  /** The first health rule: more than 20 improved calls with an error rate above 15%. */
  predicate HighErrorRate(d: PM.Derived, st: PM.Stats)
  {
    st.llamadasMejorado > 20 && d.tasaErrorMejorado > 15.0
  }

  /** The second health rule: both planners used more than 10 times and the improved one over twice as slow. */
  predicate TooSlow(d: PM.Derived, st: PM.Stats)
  {
    st.llamadasMejorado > 10 && st.llamadasActual > 10 && d.tiempoPromedioMejorado > d.tiempoPromedioActual * 2.0
  }

  /**
   * `monitorear_salud_sistema`: roll back (and answer True) when a health
   * rule fires while the improved planner is active.  When both fire the
   * slowness reason is the one recorded.
   */
  function MonitorearSalud(s: Safe, env: PM.Env): (r: (bool, Safe))
    ensures r.0 <==> s.activado && (HighErrorRate(PM.ObtenerEstadisticas(s.manager), s.manager.stats)
                                    || TooSlow(PM.ObtenerEstadisticas(s.manager), s.manager.stats))
    ensures r.0 ==> !r.1.activado && r.1.manager.modo == PM.Actual
    ensures !r.0 ==> r.1 == s
  {
    var d := PM.ObtenerEstadisticas(s.manager);
    var st := s.manager.stats;
    var razon := if TooSlow(d, st) then "Sistema mejorado demasiado lento"
                 else if HighErrorRate(d, st) then "Tasa de error alta" else "";
    if (HighErrorRate(d, st) || TooSlow(d, st)) && s.activado then (true, Desactivar(s, env, "Auto: " + razon))
    else (false, s)
  }

  /** With fewer than 11 improved calls no health rule can fire. */
  lemma FewCallsNoRollback(s: Safe, env: PM.Env)
    requires s.manager.stats.llamadasMejorado <= 10
    ensures MonitorearSalud(s, env) == (false, s)
  {
  }

  /**
   * `calcular_ruta_realista_safe`: a health check every 50 calls, then the
   * manager's route; when the manager raises, log a critical error, roll
   * back if active, and return `[start, end]`.
   */
  function CalcularRutaSafe(s: Safe, env: PM.Env, p: PM.Planners, start: PM.Point, end: PM.Point): (r: (seq<PM.Point>, Safe))
    ensures r.1.manager.stats.llamadasTotal == s.manager.stats.llamadasTotal + 1
    ensures var checked := if s.manager.stats.llamadasTotal % 50 == 0 then MonitorearSalud(s, env).1 else s;
      var call := PM.CalcularRutaConFallback(checked.manager, env, p, start, end);
      && (call.route.Ok? ==> r.0 == call.route.value && r.1 == checked.(manager := call.manager))
      && (call.route.Err? ==>
            r.0 == [start, end] && !r.1.activado && |r.1.eventos| > 0
            && r.1.eventos[|r.1.eventos| - 1].tipo in {"ERROR_CRITICO", "ROLLBACK"})
  {
    var checked := if s.manager.stats.llamadasTotal % 50 == 0 then MonitorearSalud(s, env).1 else s;
    var call := PM.CalcularRutaConFallback(checked.manager, env, p, start, end);
    match call.route
    case Ok(route) => (route, checked.(manager := call.manager))
    case Err(e) =>
      var logged := LogEvento(checked.(manager := call.manager),
                              Event("ERROR_CRITICO", "Error en pathfinding: " + e));
      var s2 := if logged.activado then Desactivar(logged, env, "Error crítico: " + e) else logged;
      ([start, end], s2)
  }
}
