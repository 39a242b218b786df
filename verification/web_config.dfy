/**
 * The web configurator's configuration store: validation of a
 * configuration object, the validated save of the active configuration
 * (with a backup of the previous one), the work areas offered by a sequence
 * file, and named presets of which at most one is the default.
 *
 * Files are parameters: the active configuration is an optional object,
 * the presets a dictionary from id to preset, a preset listing a sequence
 * of file names with their parsed contents.  Ids, timestamps and I/O
 * failures are parameters as well.
 */
module WebConfig {
  import opened Wrappers
  import opened Seqs
  import opened Sorting
  import opened Dicts
  import Strs
  import Json

  // ---------------------------------------------------------------------
  // Validation
  // ---------------------------------------------------------------------

  datatype Issue =
    | TotalOrdenes
    | MissingType(tipo: string)
    | MissingPercentage(tipo: string)
    | MissingVolume(tipo: string)
    | DistributionSum(total: real)
    | MissingDistribution
    | CapacidadCarro
    | StagingSum(total: real)
    | AgentTypesNotList
    | AgentMissingType(idx: nat)
    | AgentCapacity(idx: nat)
    | AgentDischargeTime(idx: nat)

  /** The outcome of `validate_config`: the issues found, or an exception raised while checking. */
  datatype Validation = Checked(issues: seq<Issue>) | Raised

  /** A value Python can add to a number or compare with 0: a number, or a boolean as 0 or 1. */
  function NumOf(v: Json.Value): (r: Option<real>)
    ensures r.Some? <==> v.Num? || v.Bool?
    ensures v.Num? ==> r == Some(v.n)
  {
    match v
    case Num(n) => Some(n)
    case Bool(b) => Some(if b then 1.0 else 0.0)
    case _ => None
  }

  /** `key not in d or d[key] <= 0` reported as `issue`; None where the comparison raises. */
  /** The value under `key` is present and a positive number. */
  predicate Positive(d: Json.Fields, key: string)
  {
    key in d.vals && NumOf(d.vals[key]).Some? && NumOf(d.vals[key]).value > 0.0
  }

  function PositiveCheck(d: Json.Fields, key: string, issue: Issue): (r: Option<seq<Issue>>)
    ensures key !in d.vals ==> r == Some([issue])
    ensures key in d.vals ==> (r.None? <==> NumOf(d.vals[key]).None?)
    ensures r == Some([]) <==> Positive(d, key)
    ensures r.Some? ==> r.value == [] || r.value == [issue]
  {
    if key !in d.vals then Some([issue])
    else match NumOf(d.vals[key])
      case None => None
      case Some(n) => Some(if n <= 0.0 then [issue] else [])
  }

  const Tipos: seq<string> := ["pequeno", "mediano", "grande"]

  /**
   * The checks of one order type: the issues it raises and the percentage
   * it adds to the total.  An entry that is not an object is read as
   * raising.
   */
  function TypeCheck(dist: Json.Fields, tipo: string): (r: Option<(seq<Issue>, real)>)
    ensures tipo !in dist.vals ==> r == Some(([MissingType(tipo)], 0.0))
    ensures r.Some? && r.value.0 == [] <==> TypeComplete(dist, tipo)
    ensures r.Some? && r.value.0 == [] ==> r.value.1 == NumOf(dist.vals[tipo].fields.vals["porcentaje"]).value
  {
    if tipo !in dist.vals then Some(([MissingType(tipo)], 0.0))
    else
      var e := dist.vals[tipo];
      if !e.Obj? then None
      else
        var vol := if "volumen" in e.fields.vals then [] else [MissingVolume(tipo)];
        if "porcentaje" !in e.fields.vals then Some(([MissingPercentage(tipo)] + vol, 0.0))
        else match NumOf(e.fields.vals["porcentaje"])
          case None => None
          case Some(p) => Some((vol, p))
  }

  /** An order type with a numeric percentage and a volume. */
  predicate TypeComplete(dist: Json.Fields, tipo: string)
  {
    && tipo in dist.vals && dist.vals[tipo].Obj?
    && "porcentaje" in dist.vals[tipo].fields.vals && NumOf(dist.vals[tipo].fields.vals["porcentaje"]).Some?
    && "volumen" in dist.vals[tipo].fields.vals
  }

  function Pct(dist: Json.Fields, tipo: string): real
    requires TypeComplete(dist, tipo)
  {
    NumOf(dist.vals[tipo].fields.vals["porcentaje"]).value
  }

  /** The order-type distribution: every type complete, percentages summing to 100. */
  function DistributionCheck(c: Json.Fields): (r: Option<seq<Issue>>)
    ensures "distribucion_tipos" !in c.vals ==> r == Some([MissingDistribution])
    ensures r == Some([]) <==> DistributionOk(c)
  {
    if "distribucion_tipos" !in c.vals then Some([MissingDistribution])
    else
      var d := c.vals["distribucion_tipos"];
      if !d.Obj? then None
      else
        var a, b, g := TypeCheck(d.fields, Tipos[0]), TypeCheck(d.fields, Tipos[1]), TypeCheck(d.fields, Tipos[2]);
        if a.None? || b.None? || g.None? then None
        else
          var total := a.value.1 + b.value.1 + g.value.1;
          Some(a.value.0 + b.value.0 + g.value.0 + (if total != 100.0 then [DistributionSum(total)] else []))
  }

  predicate DistributionOk(c: Json.Fields)
  {
    && "distribucion_tipos" in c.vals && c.vals["distribucion_tipos"].Obj?
    && var d := c.vals["distribucion_tipos"].fields;
    && TypeComplete(d, "pequeno") && TypeComplete(d, "mediano") && TypeComplete(d, "grande")
    && Pct(d, "pequeno") + Pct(d, "mediano") + Pct(d, "grande") == 100.0
  }

  /** The numeric values of an object in key order, None if one is not numeric. */
  function NumericValues(f: Json.Fields, n: nat): (r: Option<seq<real>>)
    requires n <= |f.keys|
    ensures r.Some? ==> |r.value| == n
    ensures r.Some? <==> forall j :: 0 <= j < n ==> f.keys[j] in f.vals && NumOf(f.vals[f.keys[j]]).Some?
  {
    if n == 0 then Some([])
    else
      HasIffKey(f, f.keys[n - 1]);
      var prev := NumericValues(f, n - 1);
      var v := NumOf(f.vals[f.keys[n - 1]]);
      if prev.None? || v.None? then None else Some(prev.value + [v.value])
  }

  /** `sum(staging_dist.values()) != 100`, when a staging distribution is given. */
  function StagingCheck(c: Json.Fields): (r: Option<seq<Issue>>)
    ensures "outbound_staging_distribution" !in c.vals ==> r == Some([])
    ensures r == Some([]) <==> StagingOk(c)
  {
    var k := "outbound_staging_distribution";
    if k !in c.vals then Some([])
    else
      var s := c.vals[k];
      if !s.Obj? then None
      else
        var vs := NumericValues(s.fields, |s.fields.keys|);
        if vs.None? then None
        else Some(if SumR(vs.value) != 100.0 then [StagingSum(SumR(vs.value))] else [])
  }

  predicate StagingOk(c: Json.Fields)
  {
    var k := "outbound_staging_distribution";
    k in c.vals ==>
      && c.vals[k].Obj?
      && NumericValues(c.vals[k].fields, |c.vals[k].fields.keys|).Some?
      && SumR(NumericValues(c.vals[k].fields, |c.vals[k].fields.keys|).value) == 100.0
  }

  /** The issues of one agent type at position `idx`; an entry that is not an object is read as raising. */
  function AgentCheck(agent: Json.Value, idx: nat): (r: Option<seq<Issue>>)
    ensures r == Some([]) <==> AgentOk(agent)
  {
    if !agent.Obj? then None
    else
      var t := if "type" in agent.fields.vals then [] else [AgentMissingType(idx)];
      var cap := PositiveCheck(agent.fields, "capacity", AgentCapacity(idx));
      var dis := PositiveCheck(agent.fields, "discharge_time", AgentDischargeTime(idx));
      if cap.None? || dis.None? then None
      else
        assert t + cap.value + dis.value == [] <==> t == [] && cap.value == [] && dis.value == [];
        Some(t + cap.value + dis.value)
  }

  predicate AgentOk(agent: Json.Value)
  {
    && agent.Obj? && "type" in agent.fields.vals
    && Positive(agent.fields, "capacity")
    && Positive(agent.fields, "discharge_time")
  }

  /** The agent types from position `from` on. */
  function AgentsCheck(agents: seq<Json.Value>, from: nat): (r: Option<seq<Issue>>)
    requires from <= |agents|
    ensures r == Some([]) <==> forall j :: from <= j < |agents| ==> AgentOk(agents[j])
    decreases |agents| - from
  {
    if from == |agents| then Some([])
    else
      var a := AgentCheck(agents[from], from);
      var rest := AgentsCheck(agents, from + 1);
      if a.None? || rest.None? then None else Some(a.value + rest.value)
  }

  function AgentTypesCheck(c: Json.Fields): (r: Option<seq<Issue>>)
    ensures "agent_types" !in c.vals ==> r == Some([])
    ensures "agent_types" in c.vals && !c.vals["agent_types"].Arr? ==> r == Some([AgentTypesNotList])
    ensures r == Some([]) <==> AgentTypesOk(c)
  {
    if "agent_types" !in c.vals then Some([])
    else
      var a := c.vals["agent_types"];
      if !a.Arr? then Some([AgentTypesNotList]) else AgentsCheck(a.items, 0)
  }

  predicate AgentTypesOk(c: Json.Fields)
  {
    "agent_types" in c.vals ==>
      c.vals["agent_types"].Arr? && forall j :: 0 <= j < |c.vals["agent_types"].items| ==> AgentOk(c.vals["agent_types"].items[j])
  }

  /**
   * `validate_config`: the issues of every check in order, or Raised when a
   * value of the wrong kind makes a check raise.
   */
  function Validate(c: Json.Fields): (v: Validation)
    ensures v == Checked([]) <==> Acceptable(c)
    ensures v.Checked? && "total_ordenes" !in c.vals ==> TotalOrdenes in v.issues
    ensures v.Checked? && "distribucion_tipos" !in c.vals ==> MissingDistribution in v.issues
  {
    var checks := [PositiveCheck(c, "total_ordenes", TotalOrdenes), DistributionCheck(c),
                   PositiveCheck(c, "capacidad_carro", CapacidadCarro), StagingCheck(c), AgentTypesCheck(c)];
    if exists i :: 0 <= i < |checks| && checks[i].None? then Raised
    else
      var issues := checks[0].value + checks[1].value + checks[2].value + checks[3].value + checks[4].value;
      assert issues == [] <==> forall i :: 0 <= i < |checks| ==> checks[i].value == [];
      Checked(issues)
  }

  /** What a configuration must satisfy to be accepted. */
  predicate Acceptable(c: Json.Fields)
  {
    && PositiveCheck(c, "total_ordenes", TotalOrdenes) == Some([])
    && DistributionOk(c)
    && PositiveCheck(c, "capacidad_carro", CapacidadCarro) == Some([])
    && StagingOk(c)
    && AgentTypesOk(c)
  }

  /** An accepted configuration has a positive order count and cart capacity, and a full distribution. */
  lemma AcceptedEssentials(c: Json.Fields)
    requires Validate(c) == Checked([])
    ensures "total_ordenes" in c.vals && NumOf(c.vals["total_ordenes"]).Some? && NumOf(c.vals["total_ordenes"]).value > 0.0
    ensures "capacidad_carro" in c.vals && NumOf(c.vals["capacidad_carro"]).Some? && NumOf(c.vals["capacidad_carro"]).value > 0.0
    ensures forall t :: t in Tipos ==> t in c.vals["distribucion_tipos"].fields.vals
  {
  }

  // ---------------------------------------------------------------------
  // Saving the active configuration
  // ---------------------------------------------------------------------

  datatype SaveError = Invalid(issues: seq<Issue>) | ValidationRaised | WriteFailed

  /** The files after a save: the configuration, the backup, and the outcome. */
  datatype Saved = Saved(config: Option<Json.Fields>, backup: Option<Json.Fields>, outcome: Result<()>, errors: seq<SaveError>)

  /**
   * `save_config`: nothing is written unless the configuration validates;
   * otherwise the previous file (if any) is copied to the backup and the new
   * one written.  `writeOk` says whether the file system accepts the writes.
   */
  function SaveConfig(current: Option<Json.Fields>, backup: Option<Json.Fields>, c: Json.Fields, writeOk: bool): (s: Saved)
    ensures s.outcome.Ok? <==> Validate(c) == Checked([]) && writeOk
    ensures s.outcome.Ok? ==> s.config == Some(c) && s.errors == []
    ensures s.outcome.Ok? ==> s.backup == (if current.Some? then current else backup)
    ensures s.outcome.Err? ==> s.config == current && s.backup == backup && |s.errors| > 0
    ensures Validate(c).Checked? && Validate(c).issues != [] ==> s.errors == [Invalid(Validate(c).issues)]
  {
    match Validate(c)
    case Raised => Saved(current, backup, Err("Validation error"), [ValidationRaised])
    case Checked(issues) =>
      if issues != [] then Saved(current, backup, Err("invalid"), [Invalid(issues)])
      else if !writeOk then Saved(current, backup, Err("Error saving config"), [WriteFailed])
      else Saved(Some(c), if current.Some? then current else backup, Ok(()), [])
  }

  /** A save that went through is read back as the configuration saved. */
  lemma SaveThenLoad(current: Option<Json.Fields>, backup: Option<Json.Fields>, c: Json.Fields, default: Json.Fields)
    requires SaveConfig(current, backup, c, true).outcome.Ok?
    ensures LoadConfig(SaveConfig(current, backup, c, true).config, default) == c
  {
  }

  /** `load_config`: the file, or the built-in default when there is none. */
  function LoadConfig(current: Option<Json.Fields>, default: Json.Fields): (c: Json.Fields)
    ensures current.Some? ==> c == current.value
    ensures current.None? ==> c == default
  {
    current.GetOr(default)
  }

  // ---------------------------------------------------------------------
  // Work areas of a sequence file
  // ---------------------------------------------------------------------

  /** The first header mentioning `WorkArea`, if any. */
  function WorkAreaColumn(headers: seq<string>, from: nat): (r: Option<nat>)
    requires from <= |headers|
    ensures r.Some? ==> from <= r.value < |headers| && Strs.Contains(headers[r.value], "WorkArea")
    ensures r.Some? ==> forall j :: from <= j < r.value ==> !Strs.Contains(headers[j], "WorkArea")
    ensures r.None? ==> forall j :: from <= j < |headers| ==> !Strs.Contains(headers[j], "WorkArea")
    decreases |headers| - from
  {
    if from == |headers| then None
    else if Strs.Contains(headers[from], "WorkArea") then Some(from)
    else WorkAreaColumn(headers, from + 1)
  }

  /** The non-empty cells of column `col` over the rows, without repeats, in first-seen order. */
  function AreasIn(rows: seq<seq<string>>, col: nat): (r: seq<string>)
    ensures NoDup(r)
    ensures forall a :: a in r <==> exists i :: 0 <= i < |rows| && col < |rows[i]| && rows[i][col] == a && a != ""
  {
    if |rows| == 0 then []
    else
      var prev := AreasIn(rows[..|rows| - 1], col);
      var last := rows[|rows| - 1];
      assert forall i :: 0 <= i < |rows| - 1 ==> rows[..|rows| - 1][i] == rows[i];
      if col < |last| && last[col] != "" && last[col] !in prev then
        NoDupSnoc(prev, last[col]);
        prev + [last[col]]
      else prev
  }

  function ByText(): (string, string) -> bool
  {
    (a: string, b: string) => Strs.StrLe(a, b)
  }

  lemma ByTextIsPreorder()
    ensures TotalPreorder(ByText())
  {
    forall a: string, b: string ensures ByText()(a, b) || ByText()(b, a) {
      Strs.StrLeTotal(a, b);
    }
    forall a: string, b: string, c: string | ByText()(a, b) && ByText()(b, c) ensures ByText()(a, c) {
      Strs.StrLeTrans(a, b, c);
    }
  }

  /**
   * `extract_work_areas`: the distinct non-empty work areas of the sheet, in
   * text order; nothing when there is no sheet or no `WorkArea` column.
   * `sheet` holds the header row and the rows below it, as text.
   */
  function ExtractWorkAreas(sheet: Option<(seq<string>, seq<seq<string>>)>): (r: seq<string>)
    ensures NoDup(r)
    ensures forall i, j :: 0 <= i < j < |r| ==> Strs.StrLe(r[i], r[j])
    ensures sheet.None? ==> r == []
    ensures sheet.Some? ==> match WorkAreaColumn(sheet.value.0, 0)
      case None => r == []
      case Some(col) => forall a :: a in r <==> a in AreasIn(sheet.value.1, col)
  {
    match sheet
    case None => []
    case Some((headers, rows)) =>
      match WorkAreaColumn(headers, 0)
      case None => []
      case Some(col) =>
        var areas := AreasIn(rows, col);
        ByTextIsPreorder();
        SortSorted(areas, ByText());
        SortPerm(areas, ByText());
        var r := Sort(areas, ByText());
        assert forall a :: a in r <==> a in multiset(r);
        assert forall a :: a in areas <==> a in multiset(areas);
        SubMultisetNoDup(areas, r);
        r
  }

  // ---------------------------------------------------------------------
  // Presets
  // ---------------------------------------------------------------------

  /** A preset file: its metadata and the configuration it stores. */
  datatype Preset = Preset(name: string, description: string, createdAt: string, isDefault: bool, configuration: Json.Fields)

  /** The preset directory: preset files by id, in directory order. */
  type Presets = Dict<string, Preset>

  /** Default flags are exclusive. */
  predicate AtMostOneDefault(ps: Presets)
  {
    forall a, b :: a in ps.vals && b in ps.vals && ps.vals[a].isDefault && ps.vals[b].isDefault ==> a == b
  }

  /** Every preset's default flag set to whether its id is `keep` (Some) or cleared (None). */
  function SetDefaults(ps: Presets, keep: Option<string>): (r: Presets)
    ensures r.keys == ps.keys && r.vals.Keys == ps.vals.Keys
    ensures forall k :: k in r.vals ==> r.vals[k] == ps.vals[k].(isDefault := keep == Some(k))
    ensures AtMostOneDefault(r)
  {
    var r := RawDict(ps.keys, map k | k in ps.vals :: ps.vals[k].(isDefault := keep == Some(k)));
    assert r.vals.Keys == ps.vals.Keys;
    r
  }

  /**
   * `save_configuration`: an invalid configuration is refused; otherwise
   * the preset is stored under its fresh id, and when it is to be the
   * default every other preset loses the flag first.
   */
  function SavePreset(ps: Presets, id: string, name: string, description: string, createdAt: string,
                      c: Json.Fields, isDefault: bool): (r: Result<Presets>)
    requires AtMostOneDefault(ps) && id !in ps.vals
    ensures r.Ok? <==> Validate(c) == Checked([])
    ensures r.Ok? ==> AtMostOneDefault(r.value) && r.value.keys == ps.keys + [id]
    ensures r.Ok? ==> id in r.value.vals && r.value.vals[id] == Preset(name, description, createdAt, isDefault, c)
    ensures r.Ok? ==> forall k :: k in ps.vals ==>
      && k in r.value.vals
      && r.value.vals[k].configuration == ps.vals[k].configuration
      && (r.value.vals[k].isDefault <==> ps.vals[k].isDefault && !isDefault)
  {
    if Validate(c) != Checked([]) then Err("invalid configuration")
    else
      var base := if isDefault then SetDefaults(ps, None) else ps;
      var p := Preset(name, description, createdAt, isDefault, c);
      AddKeepsOneDefault(base, id, p);
      Ok(Set(base, id, p))
  }

  /** Adding a preset keeps the default exclusive when a new default joins a store without one. */
  lemma AddKeepsOneDefault(ps: Presets, id: string, p: Preset)
    requires AtMostOneDefault(ps) && id !in ps.vals
    requires p.isDefault ==> forall k :: k in ps.vals ==> !ps.vals[k].isDefault
    ensures AtMostOneDefault(Set(ps, id, p))
  {
  }

  /** `set_default_configuration`: the chosen preset becomes the only default. */
  function SetDefault(ps: Presets, id: string): (r: Result<Presets>)
    ensures r.Err? <==> id !in ps.vals
    ensures r.Ok? ==> AtMostOneDefault(r.value) && id in r.value.vals && r.value.vals[id].isDefault
    ensures r.Ok? ==> r.value.keys == ps.keys && r.value.vals.Keys == ps.vals.Keys
    ensures r.Ok? ==> forall k :: k in ps.vals ==> r.value.vals[k].configuration == ps.vals[k].configuration
  {
    if id !in ps.vals then Err("Configuration not found") else Ok(SetDefaults(ps, Some(id)))
  }

  /** `delete_configuration`: removes an existing preset and nothing else. */
  function DeletePreset(ps: Presets, id: string): (r: Result<Presets>)
    requires AtMostOneDefault(ps)
    ensures r.Err? <==> id !in ps.vals
    ensures r.Ok? ==> id !in r.value.vals && AtMostOneDefault(r.value)
    ensures r.Ok? ==> forall k :: k in ps.vals && k != id ==> k in r.value.vals && r.value.vals[k] == ps.vals[k]
  {
    if id !in ps.vals then Err("Configuration not found") else Ok(Remove(ps, id))
  }

  /** `load_configuration`: the stored configuration, nothing for an unknown id. */
  function LoadPreset(ps: Presets, id: string): (r: Option<Json.Fields>)
    ensures r.Some? <==> id in ps.vals
    ensures r.Some? ==> r.value == ps.vals[id].configuration
  {
    if id in ps.vals then Some(ps.vals[id].configuration) else None
  }

  /** A saved preset loads back as the configuration given to the save. */
  lemma SaveThenLoadPreset(ps: Presets, id: string, name: string, description: string, createdAt: string,
                           c: Json.Fields, isDefault: bool)
    requires AtMostOneDefault(ps) && id !in ps.vals && Validate(c) == Checked([])
    ensures LoadPreset(SavePreset(ps, id, name, description, createdAt, c, isDefault).value, id) == Some(c)
  {
  }

  /** One line of the preset listing. */
  datatype Entry = Entry(id: string, preset: Preset)

  /** The presets in directory order from position `i` on. */
  function EntriesFrom(ps: Presets, i: nat): (r: seq<Entry>)
    requires i <= |ps.keys|
    ensures |r| == |ps.keys| - i
    ensures forall j :: 0 <= j < |r| ==> ps.keys[i + j] in ps.vals && r[j] == Entry(ps.keys[i + j], ps.vals[ps.keys[i + j]])
    decreases |ps.keys| - i
  {
    if i == |ps.keys| then []
    else
      HasIffKey(ps, ps.keys[i]);
      [Entry(ps.keys[i], ps.vals[ps.keys[i]])] + EntriesFrom(ps, i + 1)
  }

  /** Newest first: `a` may precede `b` when it was created no earlier. */
  function Newest(): (Entry, Entry) -> bool
  {
    (a: Entry, b: Entry) => Strs.StrLe(b.preset.createdAt, a.preset.createdAt)
  }

  lemma NewestIsPreorder()
    ensures TotalPreorder(Newest())
  {
    forall a: Entry, b: Entry ensures Newest()(a, b) || Newest()(b, a) {
      Strs.StrLeTotal(a.preset.createdAt, b.preset.createdAt);
    }
    forall a: Entry, b: Entry, c: Entry | Newest()(a, b) && Newest()(b, c) ensures Newest()(a, c) {
      Strs.StrLeTrans(c.preset.createdAt, b.preset.createdAt, a.preset.createdAt);
    }
  }

  /**
   * `list_configurations`: every preset once, sorted by creation time,
   * newest first; presets created at the same time keep directory order.
   */
  function ListPresets(ps: Presets): (r: seq<Entry>)
    ensures |r| == |ps.keys|
    ensures multiset(r) == multiset(EntriesFrom(ps, 0))
    ensures forall i, j :: 0 <= i < j < |r| ==> Strs.StrLe(r[j].preset.createdAt, r[i].preset.createdAt)
  {
    var es := EntriesFrom(ps, 0);
    NewestIsPreorder();
    SortSorted(es, Newest());
    SortPerm(es, Newest());
    Sort(es, Newest())
  }

  /** The directory listing holds exactly the stored presets, each under its own id. */
  lemma EntriesFromStored(ps: Presets)
    ensures forall e :: e in EntriesFrom(ps, 0) ==> e.id in ps.vals && ps.vals[e.id] == e.preset
    ensures forall k :: k in ps.vals ==> Entry(k, ps.vals[k]) in EntriesFrom(ps, 0)
  {
    var es := EntriesFrom(ps, 0);
    forall e | e in es ensures e.id in ps.vals && ps.vals[e.id] == e.preset {
      var j :| 0 <= j < |es| && es[j] == e;
    }
    forall k | k in ps.vals ensures Entry(k, ps.vals[k]) in es {
      HasIffKey(ps, k);
      var j :| 0 <= j < |ps.keys| && ps.keys[j] == k;
      assert es[j] == Entry(k, ps.vals[k]);
    }
  }

  /** Every listed entry is a stored preset under its own id, and every stored preset is listed. */
  lemma ListPresetsComplete(ps: Presets)
    ensures forall e :: e in ListPresets(ps) ==> e.id in ps.vals && ps.vals[e.id] == e.preset
    ensures forall k :: k in ps.vals ==> Entry(k, ps.vals[k]) in ListPresets(ps)
  {
    var es := EntriesFrom(ps, 0);
    var r := ListPresets(ps);
    EntriesFromStored(ps);
    forall e | e in r ensures e.id in ps.vals && ps.vals[e.id] == e.preset {
      assert e in multiset(r);
      assert e in multiset(es);
    }
    forall k | k in ps.vals ensures Entry(k, ps.vals[k]) in r {
      assert Entry(k, ps.vals[k]) in multiset(es);
      assert Entry(k, ps.vals[k]) in multiset(r);
    }
  }

  /** The first default in a listing. */
  function FirstDefault(es: seq<Entry>): (r: Option<Entry>)
    ensures r.Some? ==> r.value in es && r.value.preset.isDefault
    ensures r.None? <==> forall e :: e in es ==> !e.preset.isDefault
  {
    if |es| == 0 then None
    else if es[0].preset.isDefault then Some(es[0])
    else FirstDefault(es[1..])
  }

  /** `get_default_configuration`: the configuration of the default preset, if there is one. */
  function DefaultConfiguration(ps: Presets): (r: Option<Json.Fields>)
    requires AtMostOneDefault(ps)
    ensures r.Some? <==> exists k :: k in ps.vals && ps.vals[k].isDefault
    ensures forall k :: k in ps.vals && ps.vals[k].isDefault ==> r == Some(ps.vals[k].configuration)
  {
    ListPresetsComplete(ps);
    match FirstDefault(ListPresets(ps))
    case None => None
    case Some(e) => LoadPreset(ps, e.id)
  }

  /** After `set_default_configuration`, the default configuration is the chosen preset's. */
  lemma SetDefaultThenGet(ps: Presets, id: string)
    requires id in ps.vals
    ensures DefaultConfiguration(SetDefault(ps, id).value) == Some(ps.vals[id].configuration)
  {
  }
}
