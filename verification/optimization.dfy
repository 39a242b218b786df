/**
 * Configuration optimisation: a headless run exports a small metrics record
 * (completed, failed and total work orders, simulation time, resources),
 * and the optimiser scores it as throughput per hour over the hourly cost
 * of the fleet plus a penalty per failed work order.  Each trial fixes the
 * fleet sizes and the dispatch strategy in a copy of the base configuration.
 */
module Optimization {
  import opened Wrappers
  import opened Dicts
  import opened Seqs
  import Json
  import D = Dispatcher

  /** The exported record; the resource counts are whatever the configuration held. */
  datatype Metrics = Metrics(completed: int, failed: int, total: int, avgCompletionTime: real,
                             simulationTime: real, groundOperators: int, forklifts: int, strategy: string)

  /**
   * `export_optimization_metrics`: the dispatcher's counts, the failed ones
   * as the rest, the mean time per completed order (one order at least, so
   * never a division by zero), and the configured fleet (0 when unset).
   */
  function ExportMetrics(stats: D.Estadisticas, now: real, ground: Option<int>, forklifts: Option<int>,
                         strategy: Option<string>): (m: Metrics)
    ensures m.completed == stats.completados && m.total == stats.total
    ensures m.completed + m.failed == m.total
    ensures m.simulationTime == now
    ensures m.avgCompletionTime * (if stats.completados > 0 then stats.completados as real else 1.0) == now
    ensures m.groundOperators == (if ground.Some? then ground.value else 0)
    ensures m.forklifts == (if forklifts.Some? then forklifts.value else 0)
    ensures m.strategy == (if strategy.Some? then strategy.value else "unknown")
  {
    var completed := stats.completados;
    var divisor: real := if completed >= 1 then completed as real else 1.0;
    Metrics(completed, stats.total - completed, stats.total, now / divisor, now,
            ground.GetOr(0), forklifts.GetOr(0), strategy.GetOr("unknown"))
  }

  /** The optimiser's prices: per ground operator and per forklift per hour, and per failed order. */
  datatype Costs = Costs(groundOp: real, forklift: real, penaltyFailed: real)

  /** Hourly fleet cost plus the failure penalty. */
  function Denominator(m: Metrics, c: Costs): real
  {
    m.groundOperators as real * c.groundOp + m.forklifts as real * c.forklift + m.failed as real * c.penaltyFailed
  }

  /**
   * `calculate_score`: zero for a run of no time or a non-positive
   * denominator; otherwise completed orders per hour over the denominator.
   */
  function CalculateScore(m: Metrics, c: Costs): (score: real)
    ensures m.simulationTime == 0.0 || Denominator(m, c) <= 0.0 ==> score == 0.0
    ensures m.simulationTime != 0.0 && Denominator(m, c) > 0.0 ==>
      score * Denominator(m, c) * m.simulationTime == m.completed as real * 3600.0
  {
    if m.simulationTime == 0.0 then 0.0
    else
      var throughput := (m.completed as real / m.simulationTime) * 3600.0;
      var denominator := Denominator(m, c);
      if denominator <= 0.0 then 0.0
      else
        var score := throughput / denominator;
        assert score * denominator == throughput;
        score
  }

  /** Completing more orders in the same run with the same fleet never lowers the score. */
  lemma ScoreMonotone(m: Metrics, c: Costs, more: int)
    requires m.simulationTime > 0.0 && Denominator(m, c) > 0.0 && more >= m.completed
    ensures CalculateScore(m, c) <= CalculateScore(m.(completed := more), c)
  {
    var d := Denominator(m, c);
    var t := m.simulationTime;
    assert Denominator(m.(completed := more), c) == d;
    var s1 := CalculateScore(m, c);
    var s2 := CalculateScore(m.(completed := more), c);
    assert (s2 - s1) * (d * t) == (more - m.completed) as real * 3600.0;
    PositiveFactor(s2 - s1, d * t);
  }

  lemma PositiveFactor(x: real, y: real)
    requires y > 0.0 && x * y >= 0.0
    ensures x >= 0.0
  {
  }

  /** An exported run with a positive time and a fleet of positive cost scores its throughput over that cost. */
  lemma ExportedScore(stats: D.Estadisticas, now: real, ground: int, forklifts: int, c: Costs)
    requires now > 0.0
    ensures var m := ExportMetrics(stats, now, Some(ground), Some(forklifts), None);
      Denominator(m, c) > 0.0 ==>
      CalculateScore(m, c) * Denominator(m, c) * now == stats.completados as real * 3600.0
  {
  }

  /** The strategies a trial chooses among. */
  const TrialStrategies: seq<string> := ["Ejecucion de Plan (Filtro por Prioridad)", "FIFO Simple", "Proximity-Based"]

  /** A trial's choices: ground operators in 1..20, forklifts in 1..10, one of the three strategies. */
  predicate ValidTrial(ground: int, forklifts: int, strategy: string)
  {
    1 <= ground <= 20 && 1 <= forklifts <= 10 && strategy in TrialStrategies
  }

  /** The trial configuration: the base with the fleet, the strategy and the fleet total overwritten. */
  function TrialConfig(base: Json.Fields, ground: int, forklifts: int, strategy: string): (cfg: Json.Fields)
    ensures cfg.vals == base.vals["num_operarios_terrestres" := Json.Num(ground as real)]
                                 ["num_montacargas" := Json.Num(forklifts as real)]
                                 ["dispatch_strategy" := Json.Str(strategy)]
                                 ["num_operarios_total" := Json.Num((ground + forklifts) as real)]
    ensures |base.keys| <= |cfg.keys| && cfg.keys[..|base.keys|] == base.keys
  {
    var c1 := Set(base, "num_operarios_terrestres", Json.Num(ground as real));
    var c2 := Set(c1, "num_montacargas", Json.Num(forklifts as real));
    var c3 := Set(c2, "dispatch_strategy", Json.Str(strategy));
    var c4 := Set(c3, "num_operarios_total", Json.Num((ground + forklifts) as real));
    SetKeepsOrder(base, "num_operarios_terrestres", Json.Num(ground as real));
    SetKeepsOrder(c1, "num_montacargas", Json.Num(forklifts as real));
    SetKeepsOrder(c2, "dispatch_strategy", Json.Str(strategy));
    SetKeepsOrder(c3, "num_operarios_total", Json.Num((ground + forklifts) as real));
    PrefixTrans(base.keys, c1.keys, c2.keys);
    PrefixTrans(base.keys, c2.keys, c3.keys);
    PrefixTrans(base.keys, c3.keys, c4.keys);
    c4
  }

  lemma SetKeepsOrder(d: Json.Fields, k: string, v: Json.Value)
    ensures |d.keys| <= |Set(d, k, v).keys| && Set(d, k, v).keys[..|d.keys|] == d.keys
  {
  }

  /** A valid trial's fleet has between 2 and 30 agents in total. */
  lemma TrialFleetBounds(base: Json.Fields, ground: int, forklifts: int, strategy: string)
    requires ValidTrial(ground, forklifts, strategy)
    ensures var cfg := TrialConfig(base, ground, forklifts, strategy);
      cfg.vals["num_operarios_total"].Num? && 2.0 <= cfg.vals["num_operarios_total"].n <= 30.0
      && cfg.vals["num_operarios_total"].n == cfg.vals["num_operarios_terrestres"].n + cfg.vals["num_montacargas"].n
  {
  }
}
