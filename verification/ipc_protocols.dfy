/**
 * The event-sourcing contract between the replay engine and the work-order
 * dashboard: a catalogue of event types with fixed wire tags, and immutable
 * event records whose type is fixed by their kind and whose protocol
 * version defaults to "v1".  Event ids (random UUIDs in the system) are
 * parameters.
 */
module IpcProtocols {
  import opened Wrappers

  datatype EventType =
    | SimulationStart | SimulationEnd | ReplayStart | ReplayEnd
    | StateReset | StateSnapshot
    | WoCreated | WoStatusChanged | WoAssigned | WoUnassigned | WoProgressUpdated | WoCompleted | WoCancelled
    | OperatorStatusChanged | OperatorPositionUpdated | OperatorTaskStarted | OperatorTaskCompleted
    | TimeTick | TimeSeek
    | MetricsUpdated
    | PlaybackPaused | PlaybackResumed | PlaybackSpeedChanged

  /** The wire value of each event type. */
  function Tag(t: EventType): string
  {
    match t
    case SimulationStart => "simulation_start"
    case SimulationEnd => "simulation_end"
    case ReplayStart => "replay_start"
    case ReplayEnd => "replay_end"
    case StateReset => "state_reset"
    case StateSnapshot => "state_snapshot"
    case WoCreated => "wo_created"
    case WoStatusChanged => "wo_status_changed"
    case WoAssigned => "wo_assigned"
    case WoUnassigned => "wo_unassigned"
    case WoProgressUpdated => "wo_progress_updated"
    case WoCompleted => "wo_completed"
    case WoCancelled => "wo_cancelled"
    case OperatorStatusChanged => "operator_status_changed"
    case OperatorPositionUpdated => "operator_position_updated"
    case OperatorTaskStarted => "operator_task_started"
    case OperatorTaskCompleted => "operator_task_completed"
    case TimeTick => "time_tick"
    case TimeSeek => "time_seek"
    case MetricsUpdated => "metrics_updated"
    case PlaybackPaused => "playback_paused"
    case PlaybackResumed => "playback_resumed"
    case PlaybackSpeedChanged => "playback_speed_changed"
  }

  /**
   * `EventType(value)`: the type a wire value names, None for an unknown
   * value.  The lookup first narrows by the value's leading character.
   */
  function FromTag(s: string): (r: Option<EventType>)
    ensures r.Some? ==> Tag(r.value) == s
  {
    if |s| == 0 then None
    else if s[0] == 's' then FromLifecycleTag(s)
    else if s[0] == 'r' then
      if s == "replay_start" then Some(ReplayStart)
      else if s == "replay_end" then Some(ReplayEnd)
      else None
    else if s[0] == 'w' then FromWorkOrderTag(s)
    else if s[0] == 'o' then FromOperatorTag(s)
    else if s[0] == 't' then
      if s == "time_tick" then Some(TimeTick)
      else if s == "time_seek" then Some(TimeSeek)
      else None
    else if s[0] == 'm' then
      if s == "metrics_updated" then Some(MetricsUpdated) else None
    else if s[0] == 'p' then FromPlaybackTag(s)
    else None
  }

  function FromLifecycleTag(s: string): (r: Option<EventType>)
    ensures r.Some? ==> Tag(r.value) == s
  {
    if s == "simulation_start" then Some(SimulationStart)
    else if s == "simulation_end" then Some(SimulationEnd)
    else if s == "state_reset" then Some(StateReset)
    else if s == "state_snapshot" then Some(StateSnapshot)
    else None
  }

  function FromOperatorTag(s: string): (r: Option<EventType>)
    ensures r.Some? ==> Tag(r.value) == s
  {
    if s == "operator_status_changed" then Some(OperatorStatusChanged)
    else if s == "operator_position_updated" then Some(OperatorPositionUpdated)
    else if s == "operator_task_started" then Some(OperatorTaskStarted)
    else if s == "operator_task_completed" then Some(OperatorTaskCompleted)
    else None
  }

  function FromPlaybackTag(s: string): (r: Option<EventType>)
    ensures r.Some? ==> Tag(r.value) == s
  {
    if s == "playback_paused" then Some(PlaybackPaused)
    else if s == "playback_resumed" then Some(PlaybackResumed)
    else if s == "playback_speed_changed" then Some(PlaybackSpeedChanged)
    else None
  }

  function FromWorkOrderTag(s: string): (r: Option<EventType>)
    ensures r.Some? ==> Tag(r.value) == s
  {
    if s == "wo_created" then Some(WoCreated)
    else if s == "wo_status_changed" then Some(WoStatusChanged)
    else if s == "wo_assigned" then Some(WoAssigned)
    else if s == "wo_unassigned" then Some(WoUnassigned)
    else if s == "wo_progress_updated" then Some(WoProgressUpdated)
    else if s == "wo_completed" then Some(WoCompleted)
    else if s == "wo_cancelled" then Some(WoCancelled)
    else None
  }

  /** Every type is recovered from its wire value, so no two types share a value. */
  lemma TagRoundTrip(t: EventType)
    ensures FromTag(Tag(t)) == Some(t)
  {
  }

  lemma TagInjective(a: EventType, b: EventType)
    ensures Tag(a) == Tag(b) ==> a == b
  {
    TagRoundTrip(a);
    TagRoundTrip(b);
  }

  /** The concrete events; each carries its timestamp, version and id. */
  datatype Event =
    | StateResetEvent(timestamp: real, reason: string, targetTime: Option<real>, version: string, eventId: string)
    | StateSnapshotEvent(timestamp: real, workOrders: seq<map<string, string>>, operators: seq<map<string, string>>,
                         metrics: map<string, real>, version: string, eventId: string)
    | WorkOrderStatusChangedEvent(timestamp: real, woId: string, oldStatus: string, newStatus: string,
                                  byAgent: Option<string>, version: string, eventId: string)
    | WorkOrderAssignedEvent(timestamp: real, woId: string, agentId: string, timestampAssigned: real,
                             version: string, eventId: string)
    | WorkOrderProgressUpdatedEvent(timestamp: real, woId: string, cantidadRestante: int, volumenRestante: real,
                                    progressPercentage: real, version: string, eventId: string)
    | TimeTickEvent(timestamp: real, elapsedTime: real, totalDuration: real, version: string, eventId: string)

  /** The type every event of a kind reports, set after construction. */
  function TypeOf(e: Event): (t: EventType)
    ensures e.StateResetEvent? <==> t == StateReset
    ensures e.StateSnapshotEvent? <==> t == StateSnapshot
    ensures e.WorkOrderStatusChangedEvent? <==> t == WoStatusChanged
    ensures e.WorkOrderAssignedEvent? <==> t == WoAssigned
    ensures e.WorkOrderProgressUpdatedEvent? <==> t == WoProgressUpdated
    ensures e.TimeTickEvent? <==> t == TimeTick
  {
    match e
    case StateResetEvent(_, _, _, _, _) => StateReset
    case StateSnapshotEvent(_, _, _, _, _, _) => StateSnapshot
    case WorkOrderStatusChangedEvent(_, _, _, _, _, _, _) => WoStatusChanged
    case WorkOrderAssignedEvent(_, _, _, _, _, _) => WoAssigned
    case WorkOrderProgressUpdatedEvent(_, _, _, _, _, _, _) => WoProgressUpdated
    case TimeTickEvent(_, _, _, _, _) => TimeTick
  }

  const DefaultVersion: string := "v1"

  /** A reset event with the default version and no target time unless given. */
  function NewStateReset(timestamp: real, reason: string, targetTime: Option<real>, eventId: string): (e: Event)
    ensures TypeOf(e) == StateReset && Tag(TypeOf(e)) == "state_reset"
    ensures e.version == DefaultVersion && e.timestamp == timestamp && e.targetTime == targetTime
  {
    StateResetEvent(timestamp, reason, targetTime, DefaultVersion, eventId)
  }

  function NewStateSnapshot(timestamp: real, wos: seq<map<string, string>>, ops: seq<map<string, string>>,
                            metrics: map<string, real>, eventId: string): (e: Event)
    ensures TypeOf(e) == StateSnapshot && Tag(TypeOf(e)) == "state_snapshot"
    ensures e.version == DefaultVersion && e.workOrders == wos && e.operators == ops
  {
    StateSnapshotEvent(timestamp, wos, ops, metrics, DefaultVersion, eventId)
  }

  function NewTimeTick(timestamp: real, elapsed: real, total: real, eventId: string): (e: Event)
    ensures TypeOf(e) == TimeTick && Tag(TypeOf(e)) == "time_tick"
    ensures e.version == DefaultVersion && e.elapsedTime == elapsed && e.totalDuration == total
  {
    TimeTickEvent(timestamp, elapsed, total, DefaultVersion, eventId)
  }

  function NewStatusChanged(timestamp: real, woId: string, oldStatus: string, newStatus: string,
                            agentId: Option<string>, eventId: string): (e: Event)
    ensures TypeOf(e) == WoStatusChanged && Tag(TypeOf(e)) == "wo_status_changed"
    ensures e.version == DefaultVersion && e.woId == woId && e.newStatus == newStatus
  {
    WorkOrderStatusChangedEvent(timestamp, woId, oldStatus, newStatus, agentId, DefaultVersion, eventId)
  }

  function NewAssigned(timestamp: real, woId: string, agentId: string, at: real, eventId: string): (e: Event)
    ensures TypeOf(e) == WoAssigned && Tag(TypeOf(e)) == "wo_assigned"
    ensures e.version == DefaultVersion && e.woId == woId && e.agentId == agentId
  {
    WorkOrderAssignedEvent(timestamp, woId, agentId, at, DefaultVersion, eventId)
  }

  function NewProgressUpdated(timestamp: real, woId: string, cantidad: int, volumen: real, pct: real,
                              eventId: string): (e: Event)
    ensures TypeOf(e) == WoProgressUpdated && Tag(TypeOf(e)) == "wo_progress_updated"
    ensures e.version == DefaultVersion && e.woId == woId && e.cantidadRestante == cantidad
  {
    WorkOrderProgressUpdatedEvent(timestamp, woId, cantidad, volumen, pct, DefaultVersion, eventId)
  }
}
