/**
 The parsed simulation configuration (`config.json`) as read by the
 warehouse, the operator factory and the dispatcher. Every key may be
 missing; each reader applies its own default, as the source's
 `configuracion.get(key, default)` calls do.
 */
module SimConfig {
  import opened Wrappers
  import opened Dicts

  /** One entry of `agent_types`. */
  datatype AgentEntry = AgentEntry(
    kind: Option<string>,
    capacity: Option<int>,
    dischargeTime: Option<int>,
    priorities: Option<Dict<string, int>>)

  /** One entry of `distribucion_tipos`: percentage and unit volume of an order type. */
  datatype TypeDist = TypeDist(porcentaje: int, volumen: int)

  datatype Configuration = Configuration(
    agentTypes: Option<seq<AgentEntry>>,
    numTerrestres: Option<int>,
    numMontacargas: Option<int>,
    numOperariosTotal: Option<int>,
    totalOrdenes: Option<int>,
    distribucion: Option<Dict<string, TypeDist>>,
    dispatchStrategy: Option<string>,
    tourType: Option<string>,
    maxWosPorTour: Option<int>,
    radioCercania: Option<int>)
}
