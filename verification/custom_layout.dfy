/**
 * Custom tilesets: a mapping from tileset ids to tile properties decides
 * which TMX tiles are walkable, and the first tile layer of a map becomes a
 * 0/1 navigation matrix.
 */
module CustomLayout {
  import opened Wrappers

  /** One entry of the tileset mapping; absent keys are None. */
  datatype TileProps = TileProps(id: int, walkable: Option<bool>, tileType: Option<string>,
                                 name: Option<string>, description: Option<string>)

  /** The loaded mapping's tile list; None when no mapping is loaded. */
  type Mapping = Option<seq<TileProps>>

  /** `get_tile_properties_by_id`: the first entry with the id. */
  function PropsById(m: Mapping, id: int): (r: Option<TileProps>)
    ensures r.Some? ==> m.Some? && r.value in m.value && r.value.id == id
    ensures r.None? ==> m.None? || forall t :: t in m.value ==> t.id != id
  {
    match m
    case None => None
    case Some(tiles) => FirstWithId(tiles, id)
  }

  function FirstWithId(tiles: seq<TileProps>, id: int): (r: Option<TileProps>)
    ensures r.Some? ==> r.value in tiles && r.value.id == id
    ensures r.None? ==> forall t :: t in tiles ==> t.id != id
    ensures r.Some? ==> exists i :: 0 <= i < |tiles| && tiles[i] == r.value && forall j :: 0 <= j < i ==> tiles[j].id != id
  {
    if tiles == [] then None
    else if tiles[0].id == id then Some(tiles[0])
    else
      var r := FirstWithId(tiles[1..], id);
      assert r.Some? ==> exists i :: 0 <= i < |tiles| && tiles[i] == r.value && forall j :: 0 <= j < i ==> tiles[j].id != id by {
        if r.Some? {
          var i :| 0 <= i < |tiles[1..]| && tiles[1..][i] == r.value && forall j :: 0 <= j < i ==> tiles[1..][j].id != id;
          assert tiles[i + 1] == r.value;
          assert forall j :: 0 <= j < i + 1 ==> tiles[j].id != id by {
            forall j | 0 <= j < i + 1 ensures tiles[j].id != id {
              if j > 0 { assert tiles[j] == tiles[1..][j - 1]; }
            }
          }
        }
      }
      r
  }

  /** The ids of the entries for which `keep` holds, in mapping order. */
  function IdsWhere(tiles: seq<TileProps>, keep: TileProps -> bool): (ids: seq<int>)
    ensures forall i :: i in ids <==> exists t :: t in tiles && keep(t) && t.id == i
    ensures |ids| <= |tiles|
    ensures ids == [] <==> forall t :: t in tiles ==> !keep(t)
  {
    if tiles == [] then []
    else (if keep(tiles[0]) then [tiles[0].id] else []) + IdsWhere(tiles[1..], keep)
  }

  /** `get_walkable_tile_ids`: entries marked walkable (absent means not), else `[0]`. */
  function WalkableIds(m: Mapping): (ids: seq<int>)
    ensures ids != []
    ensures m.None? ==> ids == [0]
    ensures m.Some? && (exists t :: t in m.value && t.walkable.GetOr(false)) ==>
      forall i :: i in ids <==> exists t :: t in m.value && t.walkable.GetOr(false) && t.id == i
    ensures m.Some? && (forall t :: t in m.value ==> !t.walkable.GetOr(false)) ==> ids == [0]
  {
    match m
    case None => [0]
    case Some(tiles) =>
      var keep := (t: TileProps) => t.walkable.GetOr(false);
      var ids := IdsWhere(tiles, keep);
      assert forall t :: keep(t) == t.walkable.GetOr(false);
      if ids == [] then [0] else ids
  }

  /** `get_obstacle_tile_ids`: entries marked not walkable (absent means walkable), else `[1]`. */
  function ObstacleIds(m: Mapping): (ids: seq<int>)
    ensures ids != []
    ensures m.None? ==> ids == [1]
    ensures m.Some? && (exists t :: t in m.value && !t.walkable.GetOr(true)) ==>
      forall i :: i in ids <==> exists t :: t in m.value && !t.walkable.GetOr(true) && t.id == i
    ensures m.Some? && (forall t :: t in m.value ==> t.walkable.GetOr(true)) ==> ids == [1]
  {
    match m
    case None => [1]
    case Some(tiles) =>
      var keep := (t: TileProps) => !t.walkable.GetOr(true);
      var ids := IdsWhere(tiles, keep);
      assert forall t :: keep(t) == !t.walkable.GetOr(true);
      if ids == [] then [1] else ids
  }

  /** The 28-bit tile id; the top four bits of a gid are flip and rotation flags. */
  const GidMask: int := 0x0FFF_FFFF

  /** `gid & 0x0FFFFFFF`, which for Python integers of any sign is the value modulo 2^28. */
  function TileId(gid: int): (id: int)
    ensures 0 <= id <= GidMask
    ensures 0 <= gid <= GidMask ==> id == gid
  {
    gid % (GidMask + 1)
  }

  datatype TileInfo = TileInfo(walkable: bool, tileType: string, navigationValue: int,
                               name: Option<string>, description: Option<string>)

  /**
   * `interpret_tmx_tile`: gid 0 is an empty walkable tile; otherwise the
   * mapping entry `id - 1` (TMX ids start at 1) decides, and unmapped tiles
   * are walkable.
   */
  function InterpretTmxTile(m: Mapping, gid: int): (r: TileInfo)
    ensures r.navigationValue == (if r.walkable then 1 else 0)
    ensures TileId(gid) == 0 ==> r == TileInfo(true, "empty", 1, None, None)
    ensures TileId(gid) != 0 ==> match PropsById(m, TileId(gid) - 1)
      case None => r == TileInfo(true, "unknown", 1, None, None)
      case Some(p) => r.walkable == p.walkable.GetOr(true) && r.tileType == p.tileType.GetOr("unknown")
                      && r.name == Some(p.name.GetOr("Unknown")) && r.description == Some(p.description.GetOr(""))
  {
    var id := TileId(gid);
    if id == 0 then TileInfo(true, "empty", 1, None, None)
    else match PropsById(m, id - 1)
      case Some(p) =>
        var w := p.walkable.GetOr(true);
        TileInfo(w, p.tileType.GetOr("unknown"), if w then 1 else 0,
                 Some(p.name.GetOr("Unknown")), Some(p.description.GetOr("")))
      case None => TileInfo(true, "unknown", 1, None, None)
  }

  /** Flip and rotation flags never change how a tile is read. */
  lemma FlagsIgnored(m: Mapping, gid: int, flags: int)
    requires 0 <= gid <= GidMask && 0 <= flags < 16
    ensures InterpretTmxTile(m, gid + flags * (GidMask + 1)) == InterpretTmxTile(m, gid)
  {
    assert TileId(gid + flags * (GidMask + 1)) == gid;
  }

  /** A tile blocks navigation only when its mapping entry says it is not walkable. */
  lemma BlockedIffMappedObstacle(m: Mapping, gid: int)
    ensures InterpretTmxTile(m, gid).navigationValue == 0 <==>
      TileId(gid) != 0 && PropsById(m, TileId(gid) - 1).Some? && !PropsById(m, TileId(gid) - 1).value.walkable.GetOr(true)
  {
  }

  /** The navigation value at `(x, y)`: the layer's tile where the layer has one, else walkable. */
  function NavAt(m: Mapping, layer: seq<seq<int>>, x: nat, y: nat): int
  {
    if y < |layer| && x < |layer[y]| then InterpretTmxTile(m, layer[y][x]).navigationValue else 1
  }

  /**
   * `create_navigation_matrix_from_tmx_data`: `height` rows of `width`
   * values, all walkable unless the map's first tile layer (`layer`) covers
   * the cell.
   */
  function NavigationMatrix(m: Mapping, layer: Option<seq<seq<int>>>, width: nat, height: nat): (nav: seq<seq<int>>)
    ensures |nav| == height && forall y :: 0 <= y < height ==> |nav[y]| == width
    ensures forall y, x :: 0 <= y < height && 0 <= x < width ==> nav[y][x] == 0 || nav[y][x] == 1
    ensures layer.None? ==> forall y, x :: 0 <= y < height && 0 <= x < width ==> nav[y][x] == 1
    ensures layer.Some? ==> forall y, x :: 0 <= y < height && 0 <= x < width ==>
      (nav[y][x] == 0 <==> y < |layer.value| && x < |layer.value[y]|
                           && !InterpretTmxTile(m, layer.value[y][x]).walkable)
  {
    match layer
    case None => seq(height, (y: int) => seq(width, (x: int) => 1))
    case Some(l) =>
      seq(height, (y: int) requires 0 <= y < height => seq(width, (x: int) requires 0 <= x < width => NavAt(m, l, x, y)))
  }
}
