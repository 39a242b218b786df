/**
 * The dynamic layout loader: scanning the layouts folder for TMX maps,
 * the list the UI shows, loading a map (through a per-path cache) into a
 * navigation matrix and special locations, and the 50x30 fallback used
 * whenever a map cannot be read.  Reading a TMX file is a parameter: the
 * parsed map, or the message of the exception the parser raised.
 */
module LayoutLoader {
  import opened Wrappers
  import opened Seqs
  import opened Sorting
  import Strs
  import PyMath
  import LayoutCreator

  // ---------------------------------------------------------------- paths

  /** The index of the last `c` in `s`, or -1. */
  function LastIndexOf(s: string, c: char): (i: int)
    ensures -1 <= i < |s|
    ensures i >= 0 ==> s[i] == c
    ensures forall j :: i < j < |s| ==> s[j] != c
  {
    if |s| == 0 then -1
    else if s[|s| - 1] == c then |s| - 1
    else LastIndexOf(s[..|s| - 1], c)
  }

  /** `os.path.basename`: what follows the last `/`. */
  function Basename(path: string): (r: string)
    ensures forall j :: 0 <= j < |r| ==> r[j] != '/'
  {
    path[LastIndexOf(path, '/') + 1..]
  }

  /** `Path(name).stem` of a final path component: the name without its last suffix, a leading dot not counting. */
  function Stem(name: string): (r: string)
    ensures StartsWithStr(name, r)
    ensures r != name ==> |r| > 0 && name[|r|] == '.' && |r| < |name| - 1
  {
    var i := LastIndexOf(name, '.');
    if 0 < i < |name| - 1 then name[..i] else name
  }

  predicate StartsWithStr(s: string, p: string) { Strs.StartsWith(s, p) }

  function PathStem(path: string): string
  {
    Stem(Basename(path))
  }

  lemma StemOfTmx(base: string)
    requires |base| > 0 && forall j :: 0 <= j < |base| ==> base[j] != '.' && base[j] != '/'
    ensures PathStem("layouts/" + base + ".tmx") == base
  {
    var p := "layouts/" + base + ".tmx";
    var b := Basename(p);
    assert LastIndexOf(p, '/') == 7 by {
      assert p[7] == '/';
      assert forall j :: 7 < j < |p| ==> p[j] != '/' by {
        forall j | 7 < j < |p| ensures p[j] != '/' {
          if j < 8 + |base| { assert p[j] == base[j - 8]; }
        }
      }
      LastIndexIs(p, '/', 7);
    }
    assert b == base + ".tmx";
    assert LastIndexOf(b, '.') == |base| by {
      assert forall j :: |base| < j < |b| ==> b[j] != '.';
      LastIndexIs(b, '.', |base|);
    }
  }

  /** `LastIndexOf` is the position the character was last seen at. */
  lemma {:induction false} LastIndexIs(s: string, c: char, i: nat)
    requires i < |s| && s[i] == c && forall j :: i < j < |s| ==> s[j] != c
    ensures LastIndexOf(s, c) == i
    decreases |s|
  {
    if s[|s| - 1] != c {
      LastIndexIs(s[..|s| - 1], c, i);
    }
  }

  // ---------------------------------------------------------------- maps

  /** An object of an object layer; pixel coordinates are reals as the parser gives them. */
  datatype MapObject = MapObject(name: string, objType: string, x: real, y: real)

  datatype Layer =
    | TileLayer(name: string, data: seq<seq<int>>)
    | ObjectLayer(name: string, objects: seq<MapObject>)

  /** A parsed map; `tileProps` holds each gid's properties. */
  datatype TmxMap = TmxMap(width: nat, height: nat, tileWidth: int, tileHeight: int,
                           layers: seq<Layer>, properties: map<string, string>,
                           tileProps: map<int, map<string, string>>)

  // ---------------------------------------------------------------- scanning

  /** One entry of the scanned list. */
  datatype Entry = Entry(filename: string, name: string, path: string, valid: bool,
                         width: Option<nat>, height: Option<nat>, description: string, error: Option<string>)

  predicate IsTmx(file: string)
  {
    var l := Strs.Lower(file);
    |l| >= 4 && l[|l| - 4..] == ".tmx"
  }

  /**
   * `_analyze_tmx_file`: without the TMX library an invalid entry; a parser
   * failure raises; otherwise the map's size, and its description property
   * when it has one.
   */
  function AnalyzeTmxFile(path: string, available: bool, parsed: Result<TmxMap>): (r: Result<Entry>)
    ensures !available ==> r.Ok? && !r.value.valid && r.value.error == Some("PyTMX no disponible")
    ensures available ==> (r.Ok? <==> parsed.Ok?)
    ensures r.Ok? ==> r.value.name == PathStem(path) && r.value.filename == Basename(path) && r.value.path == path
    ensures r.Ok? && r.value.valid ==> r.value.width == Some(parsed.value.width) && r.value.height == Some(parsed.value.height)
  {
    if !available then
      Ok(Entry(Basename(path), PathStem(path), path, false, None, None, "Requiere PyTMX para cargar", Some("PyTMX no disponible")))
    else match parsed
      case Err(e) => Err("Error cargando TMX: " + e)
      case Ok(m) =>
        var desc := if "description" in m.properties then m.properties["description"]
                    else "Layout " + Strs.NatToStr(m.width) + "×" + Strs.NatToStr(m.height) + " tiles";
        Ok(Entry(Basename(path), PathStem(path), path, true, Some(m.width), Some(m.height), desc, None))
  }

  /** The entry for one TMX file; a failed analysis still lists the file, marked invalid. */
  function EntryFor(folder: string, file: string, available: bool, parse: string -> Result<TmxMap>): (e: Entry)
    ensures e.filename == Basename(folder + "/" + file) || !e.valid
  {
    var path := folder + "/" + file;
    match AnalyzeTmxFile(path, available, parse(path))
    case Ok(e) => e
    case Err(msg) => Entry(file, Strs.Replace(file, ".tmx", ""), path, false, None, None, "Layout con errores", Some(msg))
  }

  /** The entries of the TMX files of a listing, in listing order. */
  function Collect(folder: string, files: seq<string>, available: bool, parse: string -> Result<TmxMap>): (r: seq<Entry>)
    ensures |r| == Count(files, IsTmx)
  {
    if files == [] then []
    else (if IsTmx(files[0]) then [EntryFor(folder, files[0], available, parse)] else [])
         + Collect(folder, files[1..], available, parse)
  }

  function ByName(): (Entry, Entry) -> bool
  {
    (a: Entry, b: Entry) => Strs.StrLe(a.name, b.name)
  }

  lemma ByNameIsPreorder()
    ensures TotalPreorder(ByName())
  {
    forall a: Entry, b: Entry ensures ByName()(a, b) || ByName()(b, a) {
      Strs.StrLeTotal(a.name, b.name);
    }
    forall a: Entry, b: Entry, c: Entry | ByName()(a, b) && ByName()(b, c) ensures ByName()(a, c) {
      Strs.StrLeTrans(a.name, b.name, c.name);
    }
  }

  /**
   * `scan_available_layouts`: nothing when the folder is missing; otherwise
   * one entry per `.tmx` file (any case), stably sorted by name.
   */
  function ScanAvailableLayouts(folder: string, listing: Option<seq<string>>, available: bool,
                                parse: string -> Result<TmxMap>): (r: seq<Entry>)
    ensures listing.None? ==> r == []
    ensures listing.Some? ==> multiset(r) == multiset(Collect(folder, listing.value, available, parse))
    ensures forall i, j :: 0 <= i < j < |r| ==> Strs.StrLe(r[i].name, r[j].name)
  {
    match listing
    case None => []
    case Some(files) =>
      var entries := Collect(folder, files, available, parse);
      SortPerm(entries, ByName());
      ByNameIsPreorder();
      SortSorted(entries, ByName());
      Sort(entries, ByName())
  }

  /** The scan lists each TMX file of the folder exactly once. */
  lemma ScanCount(folder: string, files: seq<string>, available: bool, parse: string -> Result<TmxMap>)
    ensures |ScanAvailableLayouts(folder, Some(files), available, parse)| == Count(files, IsTmx)
  {
    var r := ScanAvailableLayouts(folder, Some(files), available, parse);
    assert |r| == |multiset(r)|;
    assert |multiset(Collect(folder, files, available, parse))| == |Collect(folder, files, available, parse)|;
  }

  // ---------------------------------------------------------------- UI list

  datatype UiItem = UiItem(displayName: string, filename: string, path: string, valid: bool, description: string)

  /** A dimension as the UI prints it, `?` when unknown. */
  function Dim(d: Option<nat>): (s: string)
    ensures d.None? <==> s == "?"
  {
    match d
    case None => "?"
    case Some(n) => Strs.NatToStr(n)
  }

  function DisplayName(e: Entry): string
  {
    e.name + " (" + Dim(e.width) + "×" + Dim(e.height) + ")"
  }

  /** `get_layouts_list_for_ui`: the scanned entries, in order, with a display name. */
  function LayoutsListForUi(folder: string, listing: Option<seq<string>>, available: bool,
                            parse: string -> Result<TmxMap>): (r: seq<UiItem>)
    ensures var scan := ScanAvailableLayouts(folder, listing, available, parse);
      |r| == |scan|
      && forall i :: 0 <= i < |r| ==>
        && r[i].displayName == DisplayName(scan[i])
        && r[i].filename == scan[i].filename && r[i].path == scan[i].path
        && r[i].valid == scan[i].valid && r[i].description == scan[i].description
  {
    var scan := ScanAvailableLayouts(folder, listing, available, parse);
    seq(|scan|, (i: int) requires 0 <= i < |scan| =>
      UiItem(DisplayName(scan[i]), scan[i].filename, scan[i].path, scan[i].valid, scan[i].description))
  }

  /** The display name begins with the layout's name, and shows `(?×?)` exactly when the size is unknown. */
  lemma DisplayNameShape(e: Entry)
    ensures Strs.StartsWith(DisplayName(e), e.name + " (")
    ensures e.width.None? && e.height.None? ==> DisplayName(e) == e.name + " (?×?)"
    ensures e.width.Some? ==> DisplayName(e)[|e.name| + 2..|e.name| + 2 + |Strs.NatToStr(e.width.value)|] == Strs.NatToStr(e.width.value)
  {
    var d := DisplayName(e);
    assert d[..|e.name + " ("|] == e.name + " (";
  }

  // ---------------------------------------------------------------- loading

  datatype Location = Location(name: Option<string>, pixel: (real, real), tile: (int, int))

  datatype Special = Special(depot: seq<Location>, inbound: seq<Location>, picking: seq<Location>,
                             workstations: seq<Location>, emergency: seq<Location>)

  datatype Layout = Layout(name: string, path: string, width: nat, height: nat, tileWidth: int, tileHeight: int,
                           nav: seq<seq<int>>, special: Special, fromTmx: bool)

  /** The declared size matches the matrix, and every cell is 0 (blocked) or 1 (walkable). */
  predicate WellShaped(l: Layout)
  {
    && |l.nav| == l.height
    && (forall y :: 0 <= y < |l.nav| ==> |l.nav[y]| == l.width)
    && (forall y, x :: 0 <= y < |l.nav| && 0 <= x < l.width ==> l.nav[y][x] in {0, 1})
  }

  const FallbackWidth: nat := 50
  const FallbackHeight: nat := 30

  /** `_create_fallback_layout`: a fully walkable 50x30 map with one depot and one inbound point. */
  function Fallback(path: string): (l: Layout)
    ensures WellShaped(l) && l.width == 50 && l.height == 30 && !l.fromTmx
    ensures forall y, x :: 0 <= y < 30 && 0 <= x < 50 ==> l.nav[y][x] == 1
    ensures l.name == PathStem(path) + " (fallback)"
    ensures |l.special.depot| == 1 && |l.special.inbound| == 1 && l.special.picking == []
  {
    Layout(PathStem(path) + " (fallback)", path, FallbackWidth, FallbackHeight, 32, 32,
           seq(FallbackHeight, (_: int) => seq(FallbackWidth, (_: int) => 1)),
           Special([Location(None, (1440.0, 800.0), (45, 25))], [Location(None, (160.0, 160.0), (5, 5))], [], [], []),
           false)
  }

  /** The fallback's special points sit inside it, their pixels on their tiles. */
  lemma FallbackPointsInside(path: string)
    ensures var l := Fallback(path);
      forall loc :: loc in l.special.depot + l.special.inbound ==>
        && 0 <= loc.tile.0 < l.width && 0 <= loc.tile.1 < l.height
        && loc.pixel == ((loc.tile.0 * l.tileWidth) as real, (loc.tile.1 * l.tileHeight) as real)
  {
  }

  /** The layer navigation is read from: the first tile layer named like "navigation", else the first tile layer. */
  function NavLayer(layers: seq<Layer>): (r: Option<seq<seq<int>>>)
    ensures r.Some? <==> exists i :: 0 <= i < |layers| && layers[i].TileLayer?
  {
    match FirstNamedNavigation(layers)
    case Some(d) => Some(d)
    case None => FirstTileLayer(layers)
  }

  function FirstNamedNavigation(layers: seq<Layer>): (r: Option<seq<seq<int>>>)
    ensures r.Some? ==> exists i :: 0 <= i < |layers| && layers[i].TileLayer? && layers[i].data == r.value
                                    && Strs.Contains(Strs.Lower(layers[i].name), "navigation")
  {
    if layers == [] then None
    else if layers[0].TileLayer? && Strs.Contains(Strs.Lower(layers[0].name), "navigation") then Some(layers[0].data)
    else
      var r := FirstNamedNavigation(layers[1..]);
      assert r.Some? ==> exists i :: 0 <= i < |layers| && layers[i].TileLayer? && layers[i].data == r.value
                                     && Strs.Contains(Strs.Lower(layers[i].name), "navigation") by {
        if r.Some? {
          var i :| 0 <= i < |layers[1..]| && layers[1..][i].TileLayer? && layers[1..][i].data == r.value
                   && Strs.Contains(Strs.Lower(layers[1..][i].name), "navigation");
          assert layers[i + 1] == layers[1..][i];
        }
      }
      r
  }

  function FirstTileLayer(layers: seq<Layer>): (r: Option<seq<seq<int>>>)
    ensures r.Some? <==> exists i :: 0 <= i < |layers| && layers[i].TileLayer?
  {
    if layers == [] then None
    else if layers[0].TileLayer? then Some(layers[0].data)
    else
      var r := FirstTileLayer(layers[1..]);
      assert (exists i :: 0 <= i < |layers| && layers[i].TileLayer?) ==> r.Some? by {
        if exists i :: 0 <= i < |layers| && layers[i].TileLayer? {
          var i :| 0 <= i < |layers| && layers[i].TileLayer?;
          assert layers[1..][i - 1] == layers[i];
        }
      }
      r
  }

  /** A gid blocks navigation when it has a `walkable` property that is not "true" (any case). */
  function NavValue(m: TmxMap, gid: int): (v: int)
    ensures v == 0 <==> gid != 0 && gid in m.tileProps && "walkable" in m.tileProps[gid]
                        && Strs.Lower(m.tileProps[gid]["walkable"]) != "true"
    ensures v == 0 || v == 1
  {
    if gid == 0 then 1
    else if gid in m.tileProps && |m.tileProps[gid]| > 0 then
      var w := if "walkable" in m.tileProps[gid] then m.tileProps[gid]["walkable"] else "true";
      if Strs.Lower(w) == "true" then 1 else 0
    else 1
  }

  /** The layer data covers every `(x, y)` of the map. */
  predicate Covers(data: seq<seq<int>>, width: nat, height: nat)
  {
    height <= |data| && forall y :: 0 <= y < height ==> width <= |data[y]|
  }

  /**
   * `_extract_navigation_matrix`: one value per map cell from the chosen
   * layer; all walkable without a tile layer.  A layer that does not cover
   * the map raises (None).
   */
  function ExtractNavigation(m: TmxMap): (r: Option<seq<seq<int>>>)
    ensures r.None? <==> NavLayer(m.layers).Some? && !Covers(NavLayer(m.layers).value, m.width, m.height)
    ensures r.Some? ==> |r.value| == m.height && forall y :: 0 <= y < m.height ==> |r.value[y]| == m.width
    ensures r.Some? ==> forall y, x :: 0 <= y < m.height && 0 <= x < m.width ==>
      r.value[y][x] == if NavLayer(m.layers).Some? then NavValue(m, NavLayer(m.layers).value[y][x]) else 1
  {
    match NavLayer(m.layers)
    case None => Some(seq(m.height, (_: int) => seq(m.width, (_: int) => 1)))
    case Some(data) =>
      if !Covers(data, m.width, m.height) then None
      else Some(seq(m.height, (y: int) requires 0 <= y < m.height =>
                  seq(m.width, (x: int) requires 0 <= x < m.width => NavValue(m, data[y][x]))))
  }

  /** Every object of every object layer, in layer order. */
  function AllObjects(layers: seq<Layer>): seq<MapObject>
  {
    if layers == [] then []
    else (if layers[0].ObjectLayer? then layers[0].objects else []) + AllObjects(layers[1..])
  }

  function LocationOf(o: MapObject, tw: int, th: int): (l: Location)
    requires tw != 0 && th != 0
    ensures tw > 0 && th > 0 ==>
      && (l.tile.0 * tw) as real <= o.x < ((l.tile.0 + 1) * tw) as real
      && (l.tile.1 * th) as real <= o.y < ((l.tile.1 + 1) * th) as real
  {
    var l := Location(Some(o.name), (o.x, o.y), (PyMath.Floor(o.x / tw as real), PyMath.Floor(o.y / th as real)));
    assert tw > 0 && th > 0 ==> (l.tile.0 * tw) as real <= o.x < ((l.tile.0 + 1) * tw) as real by {
      if tw > 0 { ScaleFloor(o.x, tw); }
    }
    assert tw > 0 && th > 0 ==> (l.tile.1 * th) as real <= o.y < ((l.tile.1 + 1) * th) as real by {
      if th > 0 { ScaleFloor(o.y, th); }
    }
    l
  }

  lemma ScaleFloor(v: real, t: int)
    requires t > 0
    ensures (PyMath.Floor(v / t as real) * t) as real <= v < ((PyMath.Floor(v / t as real) + 1) * t) as real
  {
    var tr := t as real;
    var d := v / tr;
    var q := PyMath.Floor(d);
    calc {
      (q * t) as real;
    ==
      q as real * tr;
    <=  { MulLeReal(q as real, d, tr); }
      d * tr;
    ==
      v;
    }
    calc {
      v;
    ==
      d * tr;
    <   { MulLtReal(d, q as real + 1.0, tr); }
      (q as real + 1.0) * tr;
    ==
      ((q + 1) * t) as real;
    }
  }

  lemma MulLeReal(a: real, b: real, c: real)
    requires a <= b && c > 0.0
    ensures a * c <= b * c
  {
  }

  lemma MulLtReal(a: real, b: real, c: real)
    requires a < b && c > 0.0
    ensures a * c < b * c
  {
  }

  /** The objects of one type (compared in lower case), as locations, in order. */
  function OfType(objs: seq<MapObject>, t: string, tw: int, th: int): (r: seq<Location>)
    requires tw != 0 && th != 0
    ensures |r| == Count(objs, (o: MapObject) => Strs.Lower(o.objType) == t)
  {
    if objs == [] then []
    else (if Strs.Lower(objs[0].objType) == t then [LocationOf(objs[0], tw, th)] else [])
         + OfType(objs[1..], t, tw, th)
  }

  /**
   * `_extract_special_locations`: objects sorted into depot, inbound,
   * picking, workstation and emergency points by type; other types are
   * dropped.  A zero tile size with any object raises (None).
   */
  function ExtractSpecial(m: TmxMap): (r: Option<Special>)
    ensures r.None? <==> |AllObjects(m.layers)| > 0 && (m.tileWidth == 0 || m.tileHeight == 0)
  {
    var objs := AllObjects(m.layers);
    if objs == [] then Some(Special([], [], [], [], []))
    else if m.tileWidth == 0 || m.tileHeight == 0 then None
    else Some(Special(OfType(objs, "depot", m.tileWidth, m.tileHeight), OfType(objs, "inbound", m.tileWidth, m.tileHeight),
                      OfType(objs, "picking", m.tileWidth, m.tileHeight), OfType(objs, "workstation", m.tileWidth, m.tileHeight),
                      OfType(objs, "emergency", m.tileWidth, m.tileHeight)))
  }

  /**
   * `_load_tmx_layout`: the map's matrix and locations, or the fallback
   * when the library is missing, the file does not parse, or extraction
   * raises.
   */
  function LoadTmxLayout(path: string, available: bool, parsed: Result<TmxMap>): (l: Layout)
    ensures WellShaped(l)
    ensures l.fromTmx <==> available && parsed.Ok? && ExtractNavigation(parsed.value).Some?
                           && ExtractSpecial(parsed.value).Some?
    ensures !l.fromTmx ==> l == Fallback(path)
    ensures l.fromTmx ==> l.width == parsed.value.width && l.height == parsed.value.height
                          && l.nav == ExtractNavigation(parsed.value).value && l.name == PathStem(path)
  {
    if !available || parsed.Err? then Fallback(path)
    else
      var m := parsed.value;
      match (ExtractNavigation(m), ExtractSpecial(m))
      case (Some(nav), Some(sp)) => Layout(PathStem(path), path, m.width, m.height, m.tileWidth, m.tileHeight, nav, sp, true)
      case _ => Fallback(path)
  }

  /** The loader's state: the current layout and the per-path cache. */
  datatype Loader = Loader(current: Option<Layout>, currentPath: Option<string>, cache: map<string, Layout>)

  const Initial: Loader := Loader(None, None, map[])

  /**
   * `load_layout`: None for a missing file; a cached path is served from the
   * cache without reading the file; otherwise the file is loaded and cached.
   * A loaded layout becomes the current one.
   */
  function LoadLayout(l: Loader, path: string, exists_: bool, available: bool, parsed: Result<TmxMap>): (r: (Option<Layout>, Loader))
    ensures !exists_ ==> r == (None, l)
    ensures exists_ ==> r.0.Some? && r.1.current == r.0 && r.1.currentPath == Some(path)
                        && path in r.1.cache && r.1.cache[path] == r.0.value
    ensures exists_ && path in l.cache ==> r.0 == Some(l.cache[path]) && r.1.cache == l.cache
    ensures exists_ && path !in l.cache ==> r.0 == Some(LoadTmxLayout(path, available, parsed))
                                            && r.1.cache == l.cache[path := r.0.value]
  {
    if !exists_ then (None, l)
    else if path in l.cache then (Some(l.cache[path]), l.(current := Some(l.cache[path]), currentPath := Some(path)))
    else
      var d := LoadTmxLayout(path, available, parsed);
      (Some(d), Loader(Some(d), Some(path), l.cache[path := d]))
  }

  /** Loading a path a second time returns the first result, whatever the file now holds. */
  lemma ReloadIsCached(l: Loader, path: string, a1: bool, p1: Result<TmxMap>, a2: bool, p2: Result<TmxMap>)
    ensures var first := LoadLayout(l, path, true, a1, p1);
      LoadLayout(first.1, path, true, a2, p2).0 == first.0
  {
  }

  /** `get_layout_for_pathfinding`: the current matrix and locations, None before any load. */
  function LayoutForPathfinding(l: Loader): (r: Option<(seq<seq<int>>, Special)>)
    ensures r.None? <==> l.current.None?
    ensures r.Some? ==> r.value.0 == l.current.value.nav && r.value.1 == l.current.value.special
  {
    match l.current
    case None => None
    case Some(d) => Some((d.nav, d.special))
  }

  /** Every layout the loader serves, cached or current, is well shaped. */
  predicate Valid(l: Loader)
  {
    (l.current.Some? ==> WellShaped(l.current.value)) && forall p :: p in l.cache ==> WellShaped(l.cache[p])
  }

  lemma LoadKeepsValid(l: Loader, path: string, exists_: bool, available: bool, parsed: Result<TmxMap>)
    requires Valid(l)
    ensures Valid(LoadLayout(l, path, exists_, available, parsed).1)
  {
  }

  // ---------------------------------------------------------------- sample layouts

  /** The rack pattern of the warehouse sample map (30x20). */
  function SampleWarehouseTile(x: nat, y: nat): nat
  {
    var width, height := 30, 20;
    if y < 2 || y > height - 3 then 1
    else if x < 2 || x > width - 3 then 1
    else if ((x - 2) % 4 == 1 || (x - 2) % 4 == 2) && 3 <= y <= height - 4 then 2
    else 1
  }

  /** The sample map is the generator's warehouse pattern at 30x20. */
  lemma SampleIsWarehousePattern(x: nat, y: nat)
    requires x < 30 && y < 20
    ensures SampleWarehouseTile(x, y) == LayoutCreator.CreatePattern("warehouse", 30, 20)[y][x]
  {
  }
}
