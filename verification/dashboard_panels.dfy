/**
 * The metric panels shared by the pygame dashboards and the browser's agent
 * panel: work in progress and completion percentage from the completed and
 * total work-order counts, the operator cards (at most six), the state icon
 * and status label of an operator, its load level, and the agent list that
 * is rebuilt only when the received agents differ from the last ones shown.
 */
module DashboardPanels {
  import opened Wrappers
  import Strs
  import Json
  import Dicts

  // ---------------------------------------------------------------------
  // Work in progress and completion
  // ---------------------------------------------------------------------

  /** `max(total - completed, 0)`: the orders not yet completed, never negative. */
  function Wip(total: int, completed: int): (w: int)
    ensures w >= 0 && w >= total - completed
    ensures w == 0 || w == total - completed
  {
    if total - completed > 0 then total - completed else 0
  }

  /** While no more are completed than exist, the completed and in-progress orders add up to the total. */
  lemma WipCompletesTotal(total: int, completed: int)
    requires 0 <= completed <= total
    ensures Wip(total, completed) + completed == total
  {
  }

  /** The completion percentage, 0 when there are no orders. */
  function Progress(completed: real, total: real): (p: real)
    ensures total <= 0.0 ==> p == 0.0
    ensures total > 0.0 ==> p * total == completed * 100.0
  {
    if total > 0.0 then completed / total * 100.0 else 0.0
  }

  /** With no more completed than exist, the percentage lies in [0, 100] and reaches 100 exactly when all are done. */
  lemma ProgressBounds(completed: real, total: real)
    requires 0.0 <= completed <= total
    ensures 0.0 <= Progress(completed, total) <= 100.0
    ensures total > 0.0 ==> (Progress(completed, total) == 100.0 <==> completed == total)
  {
    if total > 0.0 {
      var p := Progress(completed, total);
      var q := completed / total;
      var inv := 1.0 / total;
      assert q == completed * inv && total * inv == 1.0;
      MulNonneg(completed, inv);
      MulNonneg(total - completed, inv);
      assert (total - completed) * inv == total * inv - completed * inv;
      assert q * total == completed;
      assert p == q * 100.0;
    }
  }

  lemma MulNonneg(a: real, b: real)
    ensures a >= 0.0 && b >= 0.0 ==> a * b >= 0.0
  {
  }

  /**
   * The browser panel's `metricas.wip || Math.max(total - completadas, 0)`:
   * a non-zero reported figure wins over the computed one.
   */
  function ShownWip(reported: int, total: int, completed: int): (w: int)
    ensures reported != 0 ==> w == reported
    ensures reported == 0 ==> w == Wip(total, completed)
  {
    if reported != 0 then reported else Wip(total, completed)
  }

  // ---------------------------------------------------------------------
  // Operator cards
  // ---------------------------------------------------------------------

  const MaxCards: nat := 6

  /** The operators that get a card: the first six in dictionary order. */
  function CardOperators<T>(ops: seq<T>): (r: seq<T>)
    ensures |r| <= MaxCards && |r| <= |ops|
    ensures r == ops[..|r|]
    ensures |r| == MaxCards || r == ops
  {
    if |ops| <= MaxCards then ops else ops[..MaxCards]
  }

  /** The icon of an operator state on the pygame dashboard. */
  datatype StateIcon = Paused | Truck | Bolt | Package | Inbox | Hourglass | Cross | Question

  /** `_get_operator_state_info`: the icon of a known state, the `'unknown'` entry otherwise. */
  function StateIconOf(estado: string): (r: StateIcon)
    ensures r == Question <==> estado !in {"idle", "moving", "working", "discharging", "loading", "waiting", "error"}
  {
    if estado == "idle" then Paused
    else if estado == "moving" then Truck
    else if estado == "working" then Bolt
    else if estado == "discharging" then Package
    else if estado == "loading" then Inbox
    else if estado == "waiting" then Hourglass
    else if estado == "error" then Cross
    else Question
  }

  /** No two known states share an icon. */
  lemma StateIconsDistinct(a: string, b: string)
    requires StateIconOf(a) != Question && StateIconOf(a) == StateIconOf(b)
    ensures a == b
  {
  }

  // ---------------------------------------------------------------------
  // The browser's agent list
  // ---------------------------------------------------------------------

  const StatusLabels: map<string, string> := map[
    "idle" := "Idle", "moving" := "En ruta", "working" := "Trabajando", "picking" := "Picking",
    "unloading" := "Descargando", "lifting" := "Elevando", "traveling" := "Viajando"]

  const UnknownStatus: string := "Desconocido"

  /** `getStatusText`: the label of the lower-cased status, `Desconocido` for any other. */
  function StatusText(status: string): (r: string)
    ensures Strs.Lower(status) in StatusLabels ==> r == StatusLabels[Strs.Lower(status)]
    ensures r == UnknownStatus <==> Strs.Lower(status) !in StatusLabels
  {
    var k := Strs.Lower(status);
    if k in StatusLabels then StatusLabels[k] else UnknownStatus
  }

  /** The label ignores letter case. */
  lemma StatusTextCaseInsensitive(status: string)
    ensures StatusText(status) == StatusText(Strs.Lower(status))
  {
    Strs.LowerIdempotent(status);
  }

  datatype LoadLevel = Low | Medium | High

  /**
   * The load bar of an agent: cargo over capacity as a percentage (a zero
   * capacity reads as 100 litres, as `capacidad || 100` does), low under
   * 30 %, medium under 70 %, high from there on.
   */
  function LoadPercent(cargo: real, capacidad: real): (p: real)
    ensures capacidad == 0.0 ==> p == cargo
    ensures capacidad > 0.0 ==> p * capacidad == cargo * 100.0
    ensures capacidad < 0.0 ==> p == 0.0
  {
    var capacity := if capacidad != 0.0 then capacidad else 100.0;
    if capacity > 0.0 then cargo / capacity * 100.0 else 0.0
  }

  function LoadLevelOf(percent: real): (l: LoadLevel)
    ensures l == Low <==> percent < 30.0
    ensures l == Medium <==> 30.0 <= percent < 70.0
    ensures l == High <==> percent >= 70.0
  {
    if percent < 30.0 then Low else if percent < 70.0 then Medium else High
  }

  /** The level never drops as the load grows. */
  lemma LoadLevelMonotone(a: real, b: real)
    requires a <= b
    ensures LoadLevelOf(a) == High ==> LoadLevelOf(b) == High
    ensures LoadLevelOf(b) == Low ==> LoadLevelOf(a) == Low
  {
  }

  /** An operator line: its id, the first assigned order, its status label and load level. */
  datatype OperatorItem = OperatorItem(id: string, currentWo: Json.Value, statusText: string, level: LoadLevel)

  /** What the list shows: a notice when there are no agents, one line per agent otherwise. */
  datatype AgentList = NoOperatorsNotice | Items(items: seq<OperatorItem>)

  /** A numeric field read with `|| fallback`: zero, missing or non-numeric values fall back. */
  function NumOr(agent: Json.Value, k: string, fallback: real): (n: real)
    ensures Json.Field(agent, k).Num? && Json.Field(agent, k).n != 0.0 ==> n == Json.Field(agent, k).n
    ensures !(Json.Field(agent, k).Num? && Json.Field(agent, k).n != 0.0) ==> n == fallback
  {
    var v := Json.Field(agent, k);
    if v.Num? && v.n != 0.0 then v.n else fallback
  }

  /** `agent.status || 'idle'`, with a non-text status read as missing. */
  function StatusOf(agent: Json.Value): (s: string)
    ensures Json.Field(agent, "status").Str? && |Json.Field(agent, "status").s| > 0 ==> s == Json.Field(agent, "status").s
    ensures !(Json.Field(agent, "status").Str? && |Json.Field(agent, "status").s| > 0) ==> s == "idle"
  {
    var v := Json.Field(agent, "status");
    if v.Str? && |v.s| > 0 then v.s else "idle"
  }

  /** `createOperatorItem`. */
  function ItemOf(id: string, agent: Json.Value): (it: OperatorItem)
    ensures it.id == id && it.statusText == StatusText(StatusOf(agent))
    ensures it.level == LoadLevelOf(LoadPercent(NumOr(agent, "cargo_volume", 0.0), NumOr(agent, "capacidad", 100.0)))
    ensures var wos := Json.Field(agent, "work_orders_asignadas");
      wos.Arr? && |wos.items| > 0 ==> it.currentWo == Json.Field(wos.items[0], "id")
  {
    var wos := Json.Field(agent, "work_orders_asignadas");
    var wo := if wos.Arr? && |wos.items| > 0 then Json.Field(wos.items[0], "id") else Json.Null;
    var cargo := NumOr(agent, "cargo_volume", 0.0);
    var capacity := NumOr(agent, "capacidad", 100.0);
    OperatorItem(id, wo, StatusText(StatusOf(agent)), LoadLevelOf(LoadPercent(cargo, capacity)))
  }

  /** The line of the agent at position `j` of the dictionary. */
  function ItemAt(agents: Json.Fields, j: nat): (it: OperatorItem)
    requires j < |agents.keys|
    ensures it.id == agents.keys[j]
  {
    Dicts.HasIffKey(agents, agents.keys[j]);
    ItemOf(agents.keys[j], agents.vals[agents.keys[j]])
  }

  /** One line per agent, in dictionary order. */
  function ItemsOf(agents: Json.Fields): (r: seq<OperatorItem>)
    ensures |r| == |agents.keys|
    ensures forall j :: 0 <= j < |r| ==> r[j] == ItemAt(agents, j)
  {
    seq(|agents.keys|, j requires 0 <= j < |agents.keys| => ItemAt(agents, j))
  }

  /** The list rendered for an agents value: a notice for a missing or empty object. */
  function Render(agents: Json.Value): (l: AgentList)
    ensures l.NoOperatorsNotice? <==> !(agents.Obj? && |agents.fields.keys| > 0)
    ensures l.Items? ==>
      && |l.items| == |agents.fields.keys|
      && forall j :: 0 <= j < |l.items| ==> l.items[j].id == agents.fields.keys[j]
  {
    if agents.Obj? && |agents.fields.keys| > 0 then Items(ItemsOf(agents.fields)) else NoOperatorsNotice
  }

  /** The panel: the agents last rendered (compared as their JSON text) and what is shown. */
  datatype Panel = Panel(last: Option<Json.Value>, shown: AgentList)

  /** `updateOperators`: skipped when the agents equal the last ones, rendered and remembered otherwise. */
  function UpdateOperators(p: Panel, agents: Json.Value): (r: Panel)
    ensures p.last == Some(agents) ==> r == p
    ensures p.last != Some(agents) ==> r == Panel(Some(agents), Render(agents))
  {
    if p.last == Some(agents) then p else Panel(Some(agents), Render(agents))
  }

  /** Receiving the same agents again changes nothing. */
  lemma UpdateOperatorsIdempotent(p: Panel, agents: Json.Value)
    ensures UpdateOperators(UpdateOperators(p, agents), agents) == UpdateOperators(p, agents)
  {
  }

  /** After an update the panel shows exactly the rendering of the agents it remembers. */
  lemma UpdateShowsLast(p: Panel, agents: Json.Value)
    requires p.last.Some? ==> p.shown == Render(p.last.value)
    ensures var r := UpdateOperators(p, agents); r.last == Some(agents) && r.shown == Render(agents)
  {
  }
}
