/**
 * The analytics exporter's bookkeeping: the simulation context an export
 * reads (warehouse, configuration, session time stamp and output directory,
 * event log) and the result an export builds up (files written, errors,
 * warnings, duration), with the rollback that removes the written files
 * after a failure.
 *
 * The warehouse is reduced to whether it is present and the event log it
 * carries, if it has one.  The file system is a parameter of the rollback:
 * which files exist and which removals fail.
 */
module ExportContext {
  import opened Wrappers
  import opened Seqs
  import Json
  import Dicts

  // ---------------------------------------------------------------------
  // Export results
  // ---------------------------------------------------------------------

  /**
   * An export's outcome.  `outputDir` is the directory recorded for the
   * rollback, the empty string when none was recorded.
   */
  datatype ExportResult = ExportResult(success: bool, files: seq<string>, errors: seq<string>, warnings: seq<string>,
                                       executionTime: real, outputDir: string)

  /** A fresh result: successful, nothing recorded. */
  function Fresh(): (r: ExportResult)
    ensures r.success && r.files == [] && r.errors == [] && r.warnings == [] && r.executionTime == 0.0
  {
    ExportResult(true, [], [], [], 0.0, "")
  }

  /** The result's flag tells whether an error was recorded. */
  predicate Consistent(r: ExportResult)
  {
    r.success <==> r.errors == []
  }

  /** `add_file`: appends the path; nothing else changes. */
  function AddFile(r: ExportResult, path: string): (s: ExportResult)
    ensures s.files == r.files + [path] && s.(files := r.files) == r
  {
    r.(files := r.files + [path])
  }

  /** `add_error`: appends the message and marks the export failed. */
  function AddError(r: ExportResult, msg: string): (s: ExportResult)
    ensures s.errors == r.errors + [msg] && !s.success
    ensures s.(errors := r.errors, success := r.success) == r
  {
    r.(errors := r.errors + [msg], success := false)
  }

  /** `add_warning`: appends the message; the outcome is untouched. */
  function AddWarning(r: ExportResult, msg: string): (s: ExportResult)
    ensures s.warnings == r.warnings + [msg] && s.success == r.success
    ensures s.(warnings := r.warnings) == r
  {
    r.(warnings := r.warnings + [msg])
  }

  /** `set_execution_time`: the elapsed time between the two readings. */
  function SetExecutionTime(r: ExportResult, start: real, end: real): (s: ExportResult)
    ensures s.executionTime + start == end && s.(executionTime := r.executionTime) == r
  {
    r.(executionTime := end - start)
  }

  /** The bookkeeping calls an exporter makes. */
  datatype Op = File(path: string) | Error(msg: string) | Warning(msg: string) | Timing(start: real, end: real)

  function Apply(r: ExportResult, op: Op): ExportResult
  {
    match op
    case File(p) => AddFile(r, p)
    case Error(m) => AddError(r, m)
    case Warning(m) => AddWarning(r, m)
    case Timing(s, e) => SetExecutionTime(r, s, e)
  }

  function ApplyAll(r: ExportResult, ops: seq<Op>): ExportResult
    decreases |ops|
  {
    if |ops| == 0 then r else ApplyAll(Apply(r, ops[0]), ops[1..])
  }

  /** The path an operation records, if any. */
  function PathOf(op: Op): seq<string> { if op.File? then [op.path] else [] }

  /** The error an operation records, if any. */
  function MessageOf(op: Op): seq<string> { if op.Error? then [op.msg] else [] }

  function Paths(ops: seq<Op>): seq<string>
  {
    if |ops| == 0 then [] else PathOf(ops[0]) + Paths(ops[1..])
  }

  function Messages(ops: seq<Op>): seq<string>
  {
    if |ops| == 0 then [] else MessageOf(ops[0]) + Messages(ops[1..])
  }

  /** One bookkeeping call keeps the flag consistent and records its path or error. */
  lemma ApplyStep(r: ExportResult, op: Op)
    requires Consistent(r)
    ensures Consistent(Apply(r, op))
    ensures Apply(r, op).files == r.files + PathOf(op)
    ensures Apply(r, op).errors == r.errors + MessageOf(op)
  {
  }

  /**
   * The result is successful exactly when no error was recorded, and it
   * lists every file and every error in the order given.
   */
  lemma {:induction false} BookkeepingConsistent(r: ExportResult, ops: seq<Op>)
    requires Consistent(r)
    ensures Consistent(ApplyAll(r, ops))
    ensures ApplyAll(r, ops).files == r.files + Paths(ops)
    ensures ApplyAll(r, ops).errors == r.errors + Messages(ops)
    decreases |ops|
  {
    if |ops| > 0 {
      var s := Apply(r, ops[0]);
      ApplyStep(r, ops[0]);
      BookkeepingConsistent(s, ops[1..]);
      ConcatAssoc(r.files, PathOf(ops[0]), Paths(ops[1..]));
      ConcatAssoc(r.errors, MessageOf(ops[0]), Messages(ops[1..]));
    }
  }

  /** Warnings never fail an export. */
  lemma WarningsOnly(ops: seq<Op>)
    requires forall i :: 0 <= i < |ops| ==> !ops[i].Error?
    ensures ApplyAll(Fresh(), ops).success
  {
    BookkeepingConsistent(Fresh(), ops);
    NoMessages(ops);
  }

  lemma {:induction false} NoMessages(ops: seq<Op>)
    requires forall i :: 0 <= i < |ops| ==> !ops[i].Error?
    ensures Messages(ops) == []
  {
    if |ops| > 0 {
      NoMessages(ops[1..]);
    }
  }

  /** The outcome of `rollback_on_failure`: whether it succeeded and the files it removed. */
  datatype Rollback = Rollback(ok: bool, removed: seq<string>, dirRemoved: bool)

  /** The files removed in order: those present whose removal does not fail. */
  function RemoveFiles(files: seq<string>, present: set<string>, failing: set<string>): (r: (bool, seq<string>))
    ensures r.0 <==> forall i :: 0 <= i < |files| && files[i] in present ==> files[i] !in failing
    ensures forall f :: f in r.1 <==> f in files && f in present && f !in failing
  {
    if |files| == 0 then (true, [])
    else
      var rest := RemoveFiles(files[1..], present, failing);
      var f := files[0];
      if f in present && f !in failing then (rest.0, [f] + rest.1)
      else if f in present then (false, rest.1)
      else rest
  }

  /**
   * `rollback_on_failure`: nothing to do after a success; otherwise every
   * written file still present is removed, then the output directory if it
   * is now empty.  A removal that fails makes the rollback fail but does not
   * stop it.
   */
  function RollbackOnFailure(r: ExportResult, present: set<string>, failing: set<string>,
                             dirEmpty: bool, dirFails: bool): (rb: Rollback)
    ensures r.success ==> rb == Rollback(true, [], false)
    ensures !r.success ==> forall f :: f in rb.removed <==> f in r.files && f in present && f !in failing
    ensures !r.success ==> (rb.ok <==> (forall i :: 0 <= i < |r.files| && r.files[i] in present ==> r.files[i] !in failing)
                                       && !(r.outputDir != "" && dirFails))
    ensures rb.dirRemoved ==> !r.success && r.outputDir != "" && dirEmpty
  {
    if r.success then Rollback(true, [], false)
    else
      var files := RemoveFiles(r.files, present, failing);
      if r.outputDir == "" then Rollback(files.0, files.1, false)
      else if dirFails then Rollback(false, files.1, false)
      else Rollback(files.0, files.1, dirEmpty)
  }

  // ---------------------------------------------------------------------
  // The simulation context
  // ---------------------------------------------------------------------

  /** The warehouse as the context sees it: present or not, and its event log if it has the attribute. */
  datatype Warehouse = NoWarehouse | Warehouse(eventLog: Option<seq<Json.Value>>)

  datatype Context = Context(almacen: Warehouse, configuracion: Option<Json.Fields>, timestamp: Option<string>,
                             outputDir: Option<string>, eventLog: Option<seq<Json.Value>>)

  /** How Python formats the time stamp inside a path: `None` when it is missing. */
  function StampText(ts: Option<string>): string
  {
    if ts.Some? then ts.value else "None"
  }

  /**
   * `__post_init__`: a missing event log is taken from the warehouse, and a
   * missing output directory becomes `output/simulation_<time stamp>`.
   */
  function PostInit(c: Context): (d: Context)
    ensures d.outputDir.Some?
    ensures c.outputDir.Some? ==> d.outputDir == c.outputDir
    ensures c.outputDir.None? ==> d.outputDir == Some("output/simulation_" + StampText(c.timestamp))
    ensures c.eventLog.Some? || c.almacen.NoWarehouse? || c.almacen.eventLog.None? ==> d.eventLog == c.eventLog
    ensures c.eventLog.None? && c.almacen.Warehouse? && c.almacen.eventLog.Some? ==> d.eventLog == c.almacen.eventLog
    ensures d.(outputDir := c.outputDir, eventLog := c.eventLog) == c
  {
    var log := if c.eventLog.None? && c.almacen.Warehouse? && c.almacen.eventLog.Some? then c.almacen.eventLog else c.eventLog;
    var dir := if c.outputDir.None? then Some("output/simulation_" + StampText(c.timestamp)) else c.outputDir;
    c.(eventLog := log, outputDir := dir)
  }

  /** A list or dictionary is falsy when it is missing or empty. */
  predicate LogTruthy(log: Option<seq<Json.Value>>) { log.Some? && |log.value| > 0 }

  /**
   * `validate`: a warehouse and a non-empty time stamp are required; an
   * empty or missing configuration becomes `{}`; an empty or missing event
   * log is taken from the warehouse when it has one.
   */
  function Validate(c: Context): (r: Result<Context>)
    ensures r.Ok? <==> c.almacen.Warehouse? && c.timestamp.Some? && c.timestamp.value != ""
    ensures r.Ok? ==> r.value.configuracion.Some?
    ensures r.Ok? && c.configuracion.Some? && |c.configuracion.value.keys| > 0 ==> r.value.configuracion == c.configuracion
    ensures r.Ok? && !(c.configuracion.Some? && |c.configuracion.value.keys| > 0) ==> r.value.configuracion.value.keys == []
    ensures r.Ok? ==> r.value.(configuracion := c.configuracion, eventLog := c.eventLog) == c
  {
    if c.almacen.NoWarehouse? then Err("SimulationContext requiere almacen valido")
    else
      var config := if c.configuracion.Some? && |c.configuracion.value.keys| > 0 then c.configuracion else Some(Dicts.Empty());
      if c.timestamp.None? || c.timestamp.value == "" then Err("SimulationContext requiere session_timestamp valido")
      else
        var log := if !LogTruthy(c.eventLog) && c.almacen.eventLog.Some? then c.almacen.eventLog else c.eventLog;
        Ok(c.(configuracion := config, eventLog := log))
  }

  /** Validating twice changes nothing more. */
  lemma ValidateIdempotent(c: Context)
    requires Validate(c).Ok?
    ensures Validate(Validate(c).value) == Validate(c)
  {
    var d := Validate(c).value;
    assert d.configuracion.Some?;
  }

  datatype ExportMetadata = ExportMetadata(timestamp: Option<string>, outputDir: Option<string>, totalEvents: nat,
                                           configurationKeys: seq<string>)

  /** `get_export_metadata`, without the generation time. */
  function Metadata(c: Context): (m: ExportMetadata)
    ensures m.totalEvents == if c.eventLog.Some? then |c.eventLog.value| else 0
    ensures m.configurationKeys == if c.configuracion.Some? then c.configuracion.value.keys else []
    ensures m.timestamp == c.timestamp && m.outputDir == c.outputDir
  {
    ExportMetadata(c.timestamp, c.outputDir,
                   if LogTruthy(c.eventLog) then |c.eventLog.value| else 0,
                   if c.configuracion.Some? && |c.configuracion.value.keys| > 0 then c.configuracion.value.keys else [])
  }
}
