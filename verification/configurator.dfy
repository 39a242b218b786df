/**
 * The configurators' checks and the desktop configurator's library of saved
 * configurations.
 *
 * The checks: the order-type percentages and the seven staging shares must
 * sum to 100 (the desktop reads each field as an integer and fails on text
 * that is not one; the browser reads such text as 0), the picking settings
 * must be positive, and the browser derives the legacy operator counts from
 * the agent list.
 *
 * The library: an index of configuration entries, each with an id, a name
 * unique up to letter case, tags, and a default flag that `_set_as_default`
 * gives to exactly the entries with the chosen id.
 */
module Configurator {
  import opened Wrappers
  import opened Seqs
  import opened Sorting
  import Strs
  import Json
  import Fleet

  // ---------------------------------------------------------------------
  // Percentage checks
  // ---------------------------------------------------------------------

  /**
   * `validar_porcentajes`: a field that does not hold an integer (None)
   * makes the check fail; otherwise the three must sum to exactly 100.
   */
  function DesktopPercentages(pequeno: Option<int>, mediano: Option<int>, grande: Option<int>): (ok: bool)
    ensures ok ==> pequeno.Some? && mediano.Some? && grande.Some?
    ensures pequeno.Some? && mediano.Some? && grande.Some? ==> (ok <==> pequeno.value + mediano.value + grande.value == 100)
  {
    match (pequeno, mediano, grande)
    case (Some(p), Some(m), Some(g)) => p + m + g == 100
    case _ => false
  }

  /** `parseInt(x) || 0`: text that is not a number (None) counts as 0. */
  function OrZero(v: Option<int>): (n: int)
    ensures v.Some? ==> n == v.value
    ensures v.None? ==> n == 0
  {
    v.GetOr(0)
  }

  /** `validatePercentages`: the three fields, unparsable ones read as 0, sum to exactly 100. */
  function BrowserPercentages(pequeno: Option<int>, mediano: Option<int>, grande: Option<int>): (ok: bool)
    ensures ok <==> OrZero(pequeno) + OrZero(mediano) + OrZero(grande) == 100
  {
    OrZero(pequeno) + OrZero(mediano) + OrZero(grande) == 100
  }

  /** The two editors agree on fields that parse; the browser alone accepts an empty field when the others make 100. */
  lemma PercentagesAgree(p: Option<int>, m: Option<int>, g: Option<int>)
    ensures p.Some? && m.Some? && g.Some? ==> DesktopPercentages(p, m, g) == BrowserPercentages(p, m, g)
    ensures DesktopPercentages(p, m, g) ==> BrowserPercentages(p, m, g)
    ensures BrowserPercentages(None, Some(50), Some(50)) && !DesktopPercentages(None, Some(50), Some(50))
  {
  }

  /** The sum of the parsed shares, None as soon as one does not parse. */
  function SumParsed(vs: seq<Option<int>>): (r: Option<int>)
    ensures r.Some? <==> forall i :: 0 <= i < |vs| ==> vs[i].Some?
  {
    if |vs| == 0 then Some(0)
    else
      var rest := SumParsed(vs[1..]);
      if vs[0].None? || rest.None? then None else Some(vs[0].value + rest.value)
  }

  /** The sum with unparsable shares read as 0. */
  function SumOrZero(vs: seq<Option<int>>): int
  {
    if |vs| == 0 then 0 else OrZero(vs[0]) + SumOrZero(vs[1..])
  }

  lemma {:induction false} SumParsedIsSumOrZero(vs: seq<Option<int>>)
    ensures SumParsed(vs).Some? ==> SumParsed(vs).value == SumOrZero(vs)
  {
    if |vs| > 0 {
      SumParsedIsSumOrZero(vs[1..]);
    }
  }

  /** `_validar_staging_distribution`: every share parses and they sum to exactly 100. */
  function DesktopStaging(shares: seq<Option<int>>): (ok: bool)
    ensures ok ==> forall i :: 0 <= i < |shares| ==> shares[i].Some?
    ensures ok ==> SumOrZero(shares) == 100
  {
    SumParsedIsSumOrZero(shares);
    var s := SumParsed(shares);
    s.Some? && s.value == 100
  }

  /** `validateStagingDistribution`: the seven shares, unparsable ones read as 0, sum to exactly 100. */
  function BrowserStaging(shares: seq<Option<int>>): (ok: bool)
    requires |shares| == 7
    ensures ok <==> SumOrZero(shares) == 100
    ensures DesktopStaging(shares) ==> ok
  {
    SumOrZero(shares) == 100
  }

  /** Why `_validar_configuracion_picking` refuses, in the order it checks. */
  datatype PickingError = NoOrders | PercentagesNot100 | NoCartCapacity | NoResources

  /** `_validar_configuracion_picking`: the first failing condition, if any. */
  function PickingCheck(totalOrdenes: int, pctPequeno: int, pctMediano: int, pctGrande: int,
                        capacidadCarro: int, totalRecursos: int): (r: Option<PickingError>)
    ensures r.None? <==> totalOrdenes > 0 && pctPequeno + pctMediano + pctGrande == 100 && capacidadCarro > 0 && totalRecursos > 0
    ensures r == Some(NoOrders) <==> totalOrdenes <= 0
    ensures r == Some(NoResources) ==> totalOrdenes > 0 && capacidadCarro > 0 && totalRecursos <= 0
  {
    if totalOrdenes <= 0 then Some(NoOrders)
    else if pctPequeno + pctMediano + pctGrande != 100 then Some(PercentagesNot100)
    else if capacidadCarro <= 0 then Some(NoCartCapacity)
    else if totalRecursos <= 0 then Some(NoResources)
    else None
  }

  // ---------------------------------------------------------------------
  // Legacy operator counts
  // ---------------------------------------------------------------------

  datatype LegacyCounts = LegacyCounts(terrestres: nat, montacargas: nat, total: nat)

  function IsGround(a: Fleet.Agent): bool { a.kind == "GroundOperator" }
  function IsForklift(a: Fleet.Agent): bool { a.kind == "Forklift" }

  /** The counts `serializeConfig` stores next to the agent list. */
  function CountsOf(agents: seq<Fleet.Agent>): (c: LegacyCounts)
    ensures c.terrestres == Count(agents, IsGround) && c.montacargas == Count(agents, IsForklift)
    ensures c.total == c.terrestres + c.montacargas
    ensures c.total <= |agents|
  {
    if |agents| == 0 then LegacyCounts(0, 0, 0)
    else
      var rest := CountsOf(agents[1..]);
      var g := if IsGround(agents[0]) then 1 else 0;
      var f := if IsForklift(agents[0]) then 1 else 0;
      LegacyCounts(rest.terrestres + g, rest.montacargas + f, rest.total + g + f)
  }

  lemma {:induction false} CountCopies(a: Fleet.Agent, n: int, p: Fleet.Agent -> bool)
    ensures Count(Fleet.Copies(a, n), p) == if p(a) then |Fleet.Copies(a, n)| else 0
    decreases if n > 0 then n else 0
  {
    if n > 0 {
      CountCopies(a, n - 1, p);
      assert Fleet.Copies(a, n)[1..] == Fleet.Copies(a, n - 1);
    }
  }

  lemma {:induction false} CountExpandOfKind(slots: seq<Fleet.Slot>, kind: string, p: Fleet.Agent -> bool, pk: bool)
    requires forall a: Fleet.Agent :: a.kind == kind ==> p(a) == pk
    ensures Count(Fleet.Expand(Fleet.OfKind(slots, kind), true), p) == if pk then Fleet.SlotTotal(slots) else 0
    decreases |slots|
  {
    var ks := Fleet.OfKind(slots, kind);
    Fleet.SlotTotalKind(slots, kind);
    if |slots| > 0 {
      var a := Fleet.SlotAgent(ks[0], true);
      var copies := Fleet.Copies(a, ks[0].count);
      assert ks[1..] == Fleet.OfKind(slots[1..], kind);
      CountAppend(copies, Fleet.Expand(ks[1..], true), p);
      CountCopies(a, ks[0].count, p);
      CountExpandOfKind(slots[1..], kind, p, pk);
      Fleet.SlotTotalKind(slots[1..], kind);
    }
  }

  /**
   * Serialising a fleet and counting its agents gives back the slot totals:
   * one ground operator per ground-operator slot place, one forklift per
   * forklift slot place, and the total is the length of the agent list.
   */
  lemma SerializedCounts(ground: seq<Fleet.Slot>, forklifts: seq<Fleet.Slot>)
    ensures var agents := Fleet.SerializeFleet(ground, forklifts);
      var c := CountsOf(agents);
      && c.terrestres == Fleet.SlotTotal(ground)
      && c.montacargas == Fleet.SlotTotal(forklifts)
      && c.total == |agents|
  {
    var a := Fleet.Expand(Fleet.OfKind(ground, "GroundOperator"), true);
    var b := Fleet.Expand(Fleet.OfKind(forklifts, "Forklift"), true);
    CountAppend(a, b, IsGround);
    CountAppend(a, b, IsForklift);
    CountExpandOfKind(ground, "GroundOperator", IsGround, true);
    CountExpandOfKind(ground, "GroundOperator", IsForklift, false);
    CountExpandOfKind(forklifts, "Forklift", IsGround, false);
    CountExpandOfKind(forklifts, "Forklift", IsForklift, true);
  }

  // ---------------------------------------------------------------------
  // Restoring a dropdown value
  // ---------------------------------------------------------------------

  /** The first option normalising to the same text as `value`. */
  function FirstNormalized(options: seq<string>, value: string, normalize: string -> string): (r: Option<string>)
    ensures r.Some? ==> r.value in options && normalize(r.value) == normalize(value)
    ensures r.None? <==> forall i :: 0 <= i < |options| ==> normalize(options[i]) != normalize(value)
  {
    if |options| == 0 then None
    else if normalize(options[0]) == normalize(value) then Some(options[0])
    else FirstNormalized(options[1..], value, normalize)
  }

  /**
   * `setSelectValue`: the option equal to the value; failing that the first
   * whose normalised text matches; failing that the selection is unchanged.
   */
  function SetSelectValue(options: seq<string>, selected: string, value: string, normalize: string -> string): (r: string)
    ensures value in options ==> r == value
    ensures value !in options && (exists i :: 0 <= i < |options| && normalize(options[i]) == normalize(value)) ==>
      r in options && normalize(r) == normalize(value)
    ensures (forall i :: 0 <= i < |options| ==> normalize(options[i]) != normalize(value)) ==> r == selected
  {
    if value in options then value
    else match FirstNormalized(options, value, normalize)
      case Some(o) => o
      case None => selected
  }

  // ---------------------------------------------------------------------
  // The library index
  // ---------------------------------------------------------------------

  /** An index entry. */
  datatype Entry = Entry(id: string, name: string, description: string, createdAt: string, modifiedAt: string,
                         tags: seq<string>, isDefault: bool)

  /** `_name_exists`: some entry has the name, ignoring letter case. */
  function NameExists(index: seq<Entry>, name: string): (b: bool)
    ensures b <==> exists i :: 0 <= i < |index| && Strs.Lower(index[i].name) == Strs.Lower(name)
  {
    if |index| == 0 then false
    else Strs.Lower(index[0].name) == Strs.Lower(name) || NameExists(index[1..], name)
  }

  /** Names differ pairwise, ignoring letter case. */
  predicate NamesDistinct(index: seq<Entry>)
  {
    forall i, j :: 0 <= i < j < |index| ==> Strs.Lower(index[i].name) != Strs.Lower(index[j].name)
  }

  /** Ids differ pairwise. */
  predicate IdsDistinct(index: seq<Entry>)
  {
    forall i, j :: 0 <= i < j < |index| ==> index[i].id != index[j].id
  }

  /** `_set_as_default`: exactly the entries with this id are the default. */
  function SetAsDefault(index: seq<Entry>, id: string): (r: seq<Entry>)
    ensures |r| == |index|
    ensures forall i :: 0 <= i < |r| ==> r[i] == index[i].(isDefault := index[i].id == id)
  {
    seq(|index|, i requires 0 <= i < |index| => index[i].(isDefault := index[i].id == id))
  }

  /** With distinct ids, at most one entry is the default afterwards, and the chosen one is if present. */
  lemma SetAsDefaultOneDefault(index: seq<Entry>, id: string)
    requires IdsDistinct(index)
    ensures var r := SetAsDefault(index, id);
      && (forall i, j :: 0 <= i < |r| && 0 <= j < |r| && r[i].isDefault && r[j].isDefault ==> i == j)
      && (forall i :: 0 <= i < |r| && index[i].id == id ==> r[i].isDefault)
  {
  }

  /** The position of the first entry with this id. */
  function FindId(index: seq<Entry>, id: string): (r: Option<nat>)
    ensures r.Some? ==> r.value < |index| && index[r.value].id == id
    ensures r.Some? ==> forall j :: 0 <= j < r.value ==> index[j].id != id
    ensures r.None? <==> forall j :: 0 <= j < |index| ==> index[j].id != id
  {
    if |index| == 0 then None
    else if index[0].id == id then Some(0)
    else
      var r := FindId(index[1..], id);
      if r.Some? then Some(r.value + 1) else None
  }

  /** `delete_configuration`: the first entry with the id is removed; an unknown id is an error. */
  function DeleteEntry(index: seq<Entry>, id: string): (r: Result<seq<Entry>>)
    ensures r.Err? <==> forall j :: 0 <= j < |index| ==> index[j].id != id
    ensures r.Ok? ==> |r.value| == |index| - 1 && multiset(r.value) <= multiset(index)
    ensures r.Ok? && IdsDistinct(index) ==> forall e :: e in r.value <==> e in index && e.id != id
  {
    match FindId(index, id)
    case None => Err("Configuracion no encontrada")
    case Some(i) =>
      var r := index[..i] + index[i + 1..];
      assert index == index[..i] + [index[i]] + index[i + 1..];
      Ok(r)
  }

  /** The id of a new configuration: the lower-cased name with spaces as underscores, and the time stamp. */
  function ConfigId(name: string, stamp: string): string
  {
    "config_" + Strs.Replace(Strs.Lower(name), " ", "_") + "_" + stamp
  }

  /** The first entry whose name matches, ignoring letter case. */
  function FindName(index: seq<Entry>, name: string): (r: Option<nat>)
    ensures r.Some? ==> r.value < |index| && Strs.Lower(index[r.value].name) == Strs.Lower(name)
    ensures r.None? <==> !NameExists(index, name)
  {
    if |index| == 0 then None
    else if Strs.Lower(index[0].name) == Strs.Lower(name) then Some(0)
    else
      var r := FindName(index[1..], name);
      if r.Some? then Some(r.value + 1) else None
  }

  /** What a save asks for; `target` is the id to overwrite, empty when none. */
  datatype SaveRequest = SaveRequest(name: string, description: string, tags: seq<string>, isDefault: bool,
                                     overwrite: bool, target: string, stamp: string, now: string)

  /** The index with the entry at `i` taken out. */
  function RemoveAt(index: seq<Entry>, i: nat): (r: seq<Entry>)
    requires i < |index|
    ensures |r| == |index| - 1
    ensures forall k :: 0 <= k < |r| ==> r[k] == if k < i then index[k] else index[k + 1]
  {
    index[..i] + index[i + 1..]
  }

  /**
   * The part of `save_configuration` before the entry is written, once the
   * name check has passed: the entry being overwritten is deleted (the
   * target id when one is given, otherwise the first entry of the listing
   * with the same name), and the id of the new entry is chosen.
   */
  function Prepare(index: seq<Entry>, req: SaveRequest): (r: Result<(seq<Entry>, string)>)
    ensures r.Ok? ==> r.value.0 == index || exists i :: 0 <= i < |index| && r.value.0 == RemoveAt(index, i)
    ensures r.Ok? && !req.overwrite ==> r.value == (index, ConfigId(req.name, req.stamp))
    ensures r.Err? ==> req.target != "" && req.overwrite
  {
    if req.target != "" && req.overwrite then
      match FindId(index, req.target)
      case None => Err("Configuracion no encontrada")
      case Some(i) => Ok((RemoveAt(index, i), req.target))
    else if req.overwrite && NameExists(index, req.name) then
      var listing := ListEntries(index);
      var k := FindName(listing, req.name);
      if k.None? then Ok((index, ConfigId(req.name, req.stamp)))
      else
        assert listing[k.value] in multiset(index);
        var i := FindId(index, listing[k.value].id);
        Ok((RemoveAt(index, i.value), ConfigId(req.name, req.stamp)))
    else Ok((index, ConfigId(req.name, req.stamp)))
  }

  /** The new entry appended under `id`; a default entry takes the flag from every other id. */
  function Commit(rest: seq<Entry>, id: string, req: SaveRequest): (r: seq<Entry>)
    ensures |r| == |rest| + 1 && r[|rest|] == Entry(id, req.name, req.description, req.now, req.now, req.tags, req.isDefault)
    ensures forall k :: 0 <= k < |rest| ==> r[k].id == rest[k].id && r[k].name == rest[k].name
    ensures req.isDefault ==> forall k :: 0 <= k < |r| ==> (r[k].isDefault <==> r[k].id == id)
    ensures !req.isDefault ==> r == rest + [r[|rest|]]
  {
    var added := rest + [Entry(id, req.name, req.description, req.now, req.now, req.tags, req.isDefault)];
    if req.isDefault then SetAsDefault(added, id) else added
  }

  /**
   * `save_configuration`: an existing name is refused unless overwriting;
   * otherwise the overwritten entry is deleted, the new entry appended and,
   * when it is the default, the only one flagged among the other ids.
   */
  function SaveEntry(index: seq<Entry>, req: SaveRequest): (r: Result<(seq<Entry>, string)>)
    ensures NameExists(index, req.name) && !req.overwrite ==> r.Err?
    ensures !NameExists(index, req.name) && !req.overwrite ==> r.Ok?
    ensures r.Ok? ==> (|r.value.0| > 0 && r.value.0[|r.value.0| - 1].id == r.value.1
                       && r.value.0[|r.value.0| - 1].name == req.name && r.value.0[|r.value.0| - 1].isDefault == req.isDefault)
    ensures r.Ok? && req.isDefault ==> forall i :: 0 <= i < |r.value.0| ==> (r.value.0[i].isDefault <==> r.value.0[i].id == r.value.1)
    ensures r.Ok? && !req.overwrite ==> r.value.1 == ConfigId(req.name, req.stamp) && |r.value.0| == |index| + 1
  {
    if NameExists(index, req.name) && !req.overwrite then Err("Ya existe una configuracion con ese nombre")
    else
      match Prepare(index, req)
      case Err(e) => Err(e)
      case Ok(p) => Ok((Commit(p.0, p.1, req), p.1))
  }

  /** The save with the id made unique, as the comments promise: an id already in use is refused. */
  function SaveEntryUniqueId(index: seq<Entry>, req: SaveRequest): (r: Result<(seq<Entry>, string)>)
    ensures r.Ok? ==> SaveEntry(index, req) == r
    ensures SaveEntry(index, req).Ok? && r.Err? ==> exists e :: e in index && e.id == SaveEntry(index, req).value.1
    ensures IdsDistinct(index) && r.Ok? ==> IdsDistinct(r.value.0)
  {
    if NameExists(index, req.name) && !req.overwrite then Err("Ya existe una configuracion con ese nombre")
    else
      match Prepare(index, req)
      case Err(e) => Err(e)
      case Ok(p) =>
        if FindId(p.0, p.1).Some? then
          assert p.0[FindId(p.0, p.1).value] in index;
          Err("Ya existe una configuracion con ese id")
        else
          RemoveAtKeepsIdsDistinct(index, p.0);
          CommitKeepsIdsDistinct(p.0, p.1, req);
          Ok((Commit(p.0, p.1, req), p.1))
  }

  /** Appending an entry under an unused id keeps the ids distinct. */
  lemma CommitKeepsIdsDistinct(rest: seq<Entry>, id: string, req: SaveRequest)
    requires FindId(rest, id).None?
    ensures IdsDistinct(rest) ==> IdsDistinct(Commit(rest, id, req))
  {
    var r := Commit(rest, id, req);
    if IdsDistinct(rest) {
      forall a, b | 0 <= a < b < |r| ensures r[a].id != r[b].id {
        if b == |rest| {
          assert rest[a].id != id;
        }
      }
    }
  }

  lemma RemoveAtKeepsIdsDistinct(index: seq<Entry>, rest: seq<Entry>)
    requires rest == index || exists i :: 0 <= i < |index| && rest == RemoveAt(index, i)
    ensures IdsDistinct(index) ==> IdsDistinct(rest)
  {
    if rest != index && IdsDistinct(index) {
      var i :| 0 <= i < |index| && rest == RemoveAt(index, i);
      forall a, b | 0 <= a < b < |rest| ensures rest[a].id != rest[b].id {
        var a' := if a < i then a else a + 1;
        var b' := if b < i then b else b + 1;
        assert rest[a] == index[a'] && rest[b] == index[b'];
      }
    }
  }

  /**
   * Ids are not unique as written: names that differ only in a space
   * against an underscore pass the name check, and saved within the same
   * second they get the same id.
   */
  lemma SaveEntryDuplicatesId()
    ensures var req1 := SaveRequest("a b", "", [], false, false, "", "1", "t");
      var req2 := SaveRequest("a_b", "", [], false, false, "", "1", "t");
      var first := SaveEntry([], req1);
      && first.Ok? && SaveEntry(first.value.0, req2).Ok?
      && !IdsDistinct(SaveEntry(first.value.0, req2).value.0)
  {
    var req1 := SaveRequest("a b", "", [], false, false, "", "1", "t");
    var req2 := SaveRequest("a_b", "", [], false, false, "", "1", "t");
    SpaceAndUnderscoreShareId();
    var first := SaveEntry([], req1);
    assert first.value.0 == [Entry(ConfigId("a b", "1"), "a b", "", "t", "t", [], false)];
    assert !NameExists(first.value.0, "a_b");
    var second := SaveEntry(first.value.0, req2).value.0;
    assert second[0].id == second[1].id;
  }

  /** The corrected save refuses the second of those names. */
  lemma UniqueIdRefusesCollision()
    ensures var req1 := SaveRequest("a b", "", [], false, false, "", "1", "t");
      var req2 := SaveRequest("a_b", "", [], false, false, "", "1", "t");
      var first := SaveEntryUniqueId([], req1);
      first.Ok? && SaveEntryUniqueId(first.value.0, req2).Err?
  {
    var req1 := SaveRequest("a b", "", [], false, false, "", "1", "t");
    var req2 := SaveRequest("a_b", "", [], false, false, "", "1", "t");
    SpaceAndUnderscoreShareId();
    var first := SaveEntryUniqueId([], req1);
    assert first.value.0 == [Entry(ConfigId("a b", "1"), "a b", "", "t", "t", [], false)];
    assert !NameExists(first.value.0, "a_b");
    assert FindId(first.value.0, ConfigId("a_b", "1")) == Some(0);
  }

  /** A save without overwriting keeps the names distinct. */
  lemma SaveKeepsNamesDistinct(index: seq<Entry>, req: SaveRequest)
    requires NamesDistinct(index) && !req.overwrite && SaveEntry(index, req).Ok?
    ensures NamesDistinct(SaveEntry(index, req).value.0)
  {
    var r := SaveEntry(index, req).value.0;
    assert forall i :: 0 <= i < |index| ==> r[i].name == index[i].name;
  }

  /**
   * Names that differ only in a space against an underscore pass the name
   * check yet get the same id when saved within the same second.
   */
  lemma SpaceAndUnderscoreShareId()
    ensures !NameExists([Entry(ConfigId("a b", "1"), "a b", "", "", "", [], false)], "a_b")
    ensures ConfigId("a b", "1") == ConfigId("a_b", "1")
  {
    assert Strs.Lower("a b") == "a b" && Strs.Lower("a_b") == "a_b";
    assert Strs.Replace("a b", " ", "_") == "a_b" by {
      assert Strs.StartsWith("a b"[1..], " ");
      assert Strs.Replace("b", " ", "_") == "b";
    }
    assert Strs.Replace("a_b", " ", "_") == "a_b" by {
      assert !Strs.StartsWith("a_b", " ") && !Strs.StartsWith("_b", " ") && !Strs.StartsWith("b", " ");
      assert Strs.Replace("b", " ", "_") == "b";
    }
  }

  /** `search_configurations`'s test: the lower-cased query in the name, the description or a tag. */
  predicate Matches(e: Entry, query: string)
  {
    var q := Strs.Lower(query);
    || Strs.Contains(Strs.Lower(e.name), q)
    || Strs.Contains(Strs.Lower(e.description), q)
    || exists t :: t in e.tags && Strs.Contains(Strs.Lower(t), q)
  }

  /** `any(query in tag.lower() for tag in tags)`. */
  function AnyTag(tags: seq<string>, q: string): (b: bool)
    ensures b <==> exists t :: t in tags && Strs.Contains(Strs.Lower(t), q)
  {
    if |tags| == 0 then false
    else Strs.Contains(Strs.Lower(tags[0]), q) || AnyTag(tags[1..], q)
  }

  /**
   * `search_configurations` over a listing: the name, then the description,
   * then the tags are tried; an entry is taken at the first that matches,
   * so it appears once, in listing order.
   */
  function Search(listing: seq<Entry>, query: string): (r: seq<Entry>)
    ensures r == Filter(listing, (e: Entry) => Matches(e, query))
  {
    if |listing| == 0 then []
    else
      var e := listing[0];
      var q := Strs.Lower(query);
      var hit := if Strs.Contains(Strs.Lower(e.name), q) then true
                 else if Strs.Contains(Strs.Lower(e.description), q) then true
                 else AnyTag(e.tags, q);
      (if hit then [e] else []) + Search(listing[1..], query)
  }

  /** Search returns only matching entries, each taken from the listing, and misses none. */
  lemma SearchSound(listing: seq<Entry>, query: string)
    ensures forall e :: e in Search(listing, query) ==> e in listing && Matches(e, query)
    ensures forall e :: e in listing && Matches(e, query) ==> e in Search(listing, query)
    ensures multiset(Search(listing, query)) <= multiset(listing)
  {
    var p := (e: Entry) => Matches(e, query);
    FilterMembers(listing, p);
    forall e | e in listing && Matches(e, query) ensures e in Search(listing, query) {
      var i :| 0 <= i < |listing| && listing[i] == e;
      assert p(listing[i]);
    }
  }

  /** Most recently modified first. */
  function RecentFirst(): (Entry, Entry) -> bool
  {
    (a: Entry, b: Entry) => Strs.StrLe(b.modifiedAt, a.modifiedAt)
  }

  lemma RecentFirstIsPreorder()
    ensures TotalPreorder(RecentFirst())
  {
    forall a: Entry, b: Entry ensures RecentFirst()(a, b) || RecentFirst()(b, a) {
      Strs.StrLeTotal(a.modifiedAt, b.modifiedAt);
    }
    forall a: Entry, b: Entry, c: Entry | RecentFirst()(a, b) && RecentFirst()(b, c) ensures RecentFirst()(a, c) {
      Strs.StrLeTrans(c.modifiedAt, b.modifiedAt, a.modifiedAt);
    }
  }

  /** `list_configurations`: the index sorted by modification time, newest first, ties in index order. */
  function ListEntries(index: seq<Entry>): (r: seq<Entry>)
    ensures multiset(r) == multiset(index)
    ensures forall i, j :: 0 <= i < j < |r| ==> Strs.StrLe(r[j].modifiedAt, r[i].modifiedAt)
  {
    RecentFirstIsPreorder();
    SortPerm(index, RecentFirst());
    SortSorted(index, RecentFirst());
    Sort(index, RecentFirst())
  }

  /** `get_default_configuration`: the id of the first default entry in index order. */
  function DefaultId(index: seq<Entry>): (r: Option<string>)
    ensures r.Some? <==> exists i :: 0 <= i < |index| && index[i].isDefault
    ensures r.Some? ==> exists i :: (0 <= i < |index| && index[i].isDefault && index[i].id == r.value
                                     && forall j :: 0 <= j < i ==> !index[j].isDefault)
  {
    if |index| == 0 then None
    else if index[0].isDefault then Some(index[0].id)
    else
      var r := DefaultId(index[1..]);
      if r.Some? then
        var i :| 0 <= i < |index| - 1 && index[1..][i].isDefault && index[1..][i].id == r.value
          && forall j :: 0 <= j < i ==> !index[1..][j].isDefault;
        assert index[i + 1] == index[1..][i];
        r
      else r
  }

  /** After marking an id as the default, it is the one found. */
  lemma SetAsDefaultThenDefaultId(index: seq<Entry>, id: string)
    requires exists i :: 0 <= i < |index| && index[i].id == id
    ensures DefaultId(SetAsDefault(index, id)) == Some(id)
  {
    var r := SetAsDefault(index, id);
    var i :| 0 <= i < |index| && index[i].id == id;
    assert r[i].isDefault;
    var k :| 0 <= k < |r| && r[k].isDefault && r[k].id == DefaultId(r).value;
  }

  // ---------------------------------------------------------------------
  // Stored file structure
  // ---------------------------------------------------------------------

  const RequiredMetadata: seq<string> := ["id", "name", "description", "created_at", "version"]

  /** Python's `field in metadata` on a JSON value: a key, a list element, a substring; None where it raises. */
  function PyIn(field: string, v: Json.Value): (r: Option<bool>)
    ensures v.Obj? ==> r == Some(field in v.fields.vals)
    ensures v.Arr? ==> r == Some(Json.Str(field) in v.items)
    ensures v.Str? ==> r == Some(Strs.Contains(v.s, field))
    ensures r.None? <==> !(v.Obj? || v.Arr? || v.Str?)
  {
    match v
    case Obj(f) => Some(field in f.vals)
    case Arr(items) => Some(Json.Str(field) in items)
    case Str(s) => Some(Strs.Contains(s, field))
    case _ => None
  }

  datatype StructureError =
    | NotADict
    | MissingMetadata
    | MissingConfiguration
    | MissingField(field: string)
    | CheckRaised

  /** The first required metadata field from `i` on that is absent. */
  function MissingFrom(metadata: Json.Value, i: nat): (r: Option<StructureError>)
    requires i <= |RequiredMetadata|
    ensures r.None? <==> forall j :: i <= j < |RequiredMetadata| ==> PyIn(RequiredMetadata[j], metadata) == Some(true)
    ensures r.Some? ==> r.value == CheckRaised || exists j :: i <= j < |RequiredMetadata| && r.value == MissingField(RequiredMetadata[j])
    decreases |RequiredMetadata| - i
  {
    if i == |RequiredMetadata| then None
    else match PyIn(RequiredMetadata[i], metadata)
      case None => Some(CheckRaised)
      case Some(false) => Some(MissingField(RequiredMetadata[i]))
      case Some(true) => MissingFrom(metadata, i + 1)
  }

  /** `_validate_configuration`: an object with `metadata` and `configuration`, the metadata naming every required field. */
  function ValidateStructure(v: Json.Value): (r: Option<StructureError>)
    ensures r.None? <==> (v.Obj? && "metadata" in v.fields.vals && "configuration" in v.fields.vals
                          && forall f :: f in RequiredMetadata ==> PyIn(f, v.fields.vals["metadata"]) == Some(true))
    ensures !v.Obj? ==> r == Some(NotADict)
  {
    if !v.Obj? then Some(NotADict)
    else if "metadata" !in v.fields.vals then Some(MissingMetadata)
    else if "configuration" !in v.fields.vals then Some(MissingConfiguration)
    else MissingFrom(v.fields.vals["metadata"], 0)
  }
}
