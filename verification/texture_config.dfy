/**
 * The texture auto-configurator: texture files in the custom texture folder
 * are assigned to tile categories by keywords in their names, the assigned
 * tiles get consecutive ids, and their images are laid out four to a row in
 * a tileset of 32-pixel tiles.  The folder listing is a parameter (None when
 * the folder does not exist), in the order the file system gives it.
 */
module TextureConfig {
  import opened Wrappers
  import opened Seqs
  import Strs
  import CL = CustomLayout

  const Folder: string := "custom_textures"
  const TileSize: nat := 32
  const TilesPerRow: nat := 4

  predicate EndsWith(s: string, suffix: string)
  {
    |suffix| <= |s| && s[|s| - |suffix|..] == suffix
  }

  /** A texture file: its lower-cased name ends with an image extension. */
  predicate IsTexture(file: string)
  {
    var l := Strs.Lower(file);
    EndsWith(l, ".png") || EndsWith(l, ".jpg") || EndsWith(l, ".jpeg") || EndsWith(l, ".bmp") || EndsWith(l, ".tga")
  }

  /** A tile category and the keywords that select a file for it. */
  datatype Category = Category(key: string, keywords: seq<string>, tileType: string, name: string,
                               walkable: bool, description: string)

  /** The categories, in the order detection tries them. */
  const Categories: seq<Category> := [
    Category("floor", ["floor", "piso", "suelo", "ground"], "floor", "Suelo navegable", true,
             "Suelo normal navegable"),
    Category("rack", ["rack", "estante", "shelf"], "rack", "Racks/Estantes", false,
             "Racks de almacén (obstáculos)"),
    Category("picking", ["pick", "picking", "location"], "picking", "Puntos de picking", true,
             "Ubicaciones de picking frente a racks"),
    Category("parking", ["parking", "estacion", "station", "parck"], "parking", "Zona estacionamiento/inicio", true,
             "Zona donde aparecen los operarios al inicio"),
    Category("depot", ["depot", "outbound", "despacho", "salida"], "depot", "Zona depot/depósito", true,
             "Zona donde se depositan los productos pickeados"),
    Category("inbound", ["inbound", "entrada", "recepcion", "stage"], "inbound", "Zona entrada/recepción", true,
             "Zona de entrada de mercancía")]

  /** Some keyword occurs in `s`. */
  predicate AnyKeyword(s: string, keywords: seq<string>)
    decreases |keywords|
  {
    |keywords| > 0 && (Strs.Contains(s, keywords[0]) || AnyKeyword(s, keywords[1..]))
  }

  /** A file name matches a category when its lower-cased name contains one of the keywords. */
  predicate Matches(file: string, c: Category)
  {
    AnyKeyword(Strs.Lower(file), c.keywords)
  }

  /** A detected tile; its texture path is the folder joined with the file. */
  datatype Tile = Tile(id: nat, category: Category, textureFile: string)

  function TexturePath(t: Tile): string
  {
    Folder + "/" + t.textureFile
  }

  /** The first file, in listing order, that is still unused and matches the category. */
  function FindFile(files: seq<string>, used: set<string>, c: Category): (r: Option<string>)
    ensures r.Some? ==> r.value in files && r.value !in used && Matches(r.value, c)
    ensures r.None? <==> forall f :: f in files && f !in used ==> !Matches(f, c)
  {
    if files == [] then None
    else if files[0] !in used && Matches(files[0], c) then Some(files[0])
    else FindFile(files[1..], used, c)
  }

  /** Detection over the remaining categories, with `used` files taken and `nextId` the next id. */
  function DetectFrom(cats: seq<Category>, files: seq<string>, used: set<string>, nextId: nat): (r: seq<Tile>)
    requires NoDup(cats)
    ensures |r| <= |cats|
    ensures forall i :: 0 <= i < |r| ==> r[i].id == nextId + i
    ensures forall i :: 0 <= i < |r| ==>
      r[i].textureFile in files && r[i].textureFile !in used && r[i].category in cats && Matches(r[i].textureFile, r[i].category)
    ensures forall i, j :: 0 <= i < j < |r| ==> r[i].textureFile != r[j].textureFile && r[i].category != r[j].category
    ensures r == [] <==> forall c, f :: c in cats && f in files && f !in used ==> !Matches(f, c)
    decreases |cats|
  {
    if cats == [] then []
    else
      assert forall k :: 0 <= k < |cats[1..]| ==> cats[1..][k] != cats[0];
      match FindFile(files, used, cats[0])
      case None => DetectFrom(cats[1..], files, used, nextId)
      case Some(f) => [Tile(nextId, cats[0], f)] + DetectFrom(cats[1..], files, used + {f}, nextId + 1)
  }

  /**
   * `auto_detect_texture_mapping`: None when the folder is missing or holds
   * no texture; otherwise the tiles detected over its textures.
   */
  function AutoDetect(folder: Option<seq<string>>): (r: Option<seq<Tile>>)
    ensures r.None? <==> folder.None? || forall i :: 0 <= i < |folder.value| ==> !IsTexture(folder.value[i])
    ensures r.Some? ==> forall i :: 0 <= i < |r.value| ==>
      r.value[i].id == i && r.value[i].textureFile in folder.value && IsTexture(r.value[i].textureFile)
      && Matches(r.value[i].textureFile, r.value[i].category) && r.value[i].category in Categories
    ensures r.Some? ==> forall i, j :: 0 <= i < j < |r.value| ==>
      r.value[i].textureFile != r.value[j].textureFile && r.value[i].category != r.value[j].category
  {
    match folder
    case None => None
    case Some(files) =>
      var textures := Filter(files, IsTexture);
      if textures == [] then None
      else
        FilterMembers(files, IsTexture);
        CategoriesDistinct();
        Some(DetectFrom(Categories, textures, {}, 0))
  }

  lemma CategoriesDistinct()
    ensures NoDup(Categories)
  {
    assert Categories[0].key == "floor" && Categories[1].key == "rack" && Categories[2].key == "picking";
    assert Categories[3].key == "parking" && Categories[4].key == "depot" && Categories[5].key == "inbound";
  }

  /** `(n + 3) // 4`: the tileset rows four tiles to a row need. */
  function RowsNeeded(n: nat): (rows: nat)
    ensures TilesPerRow * rows >= n
    ensures rows > 0 ==> TilesPerRow * (rows - 1) < n
  {
    (n + TilesPerRow - 1) / TilesPerRow
  }

  /** Where tile `i` is pasted in the tileset image. */
  function TileOrigin(i: nat): (nat, nat)
  {
    ((i % TilesPerRow) * TileSize, (i / TilesPerRow) * TileSize)
  }

  /** Each of `n` tiles lies inside the `4*32` by `RowsNeeded(n)*32` image. */
  lemma TileInsideImage(n: nat, i: nat)
    requires i < n
    ensures var (x, y) := TileOrigin(i);
      x + TileSize <= TilesPerRow * TileSize && y + TileSize <= RowsNeeded(n) * TileSize
  {
    var rows := RowsNeeded(n);
    assert i / 4 < rows;
  }

  /** The tile a pixel origin belongs to: the inverse of `TileOrigin`, so tiles never overlap. */
  lemma TileOriginInverse(i: nat)
    ensures var (x, y) := TileOrigin(i);
      (y / TileSize) * TilesPerRow + x / TileSize == i
  {
    var (x, y) := TileOrigin(i);
    assert x / 32 == i % 4;
    assert y / 32 == i / 4;
  }

  /** `save_auto_mapping`: the tile list of the saved mapping, as the custom layout reads it. */
  function SavedMapping(tiles: seq<Tile>): (m: CL.Mapping)
    ensures m.Some? && |m.value| == |tiles|
  {
    Some(seq(|tiles|, (i: int) requires 0 <= i < |tiles| => Props(tiles[i])))
  }

  function Props(t: Tile): CL.TileProps
  {
    CL.TileProps(t.id, Some(t.category.walkable), Some(t.category.tileType), Some(t.category.name),
                 Some(t.category.description))
  }

  /** In the saved mapping of a detection, id `i` finds tile `i`. */
  lemma SavedLookup(folder: Option<seq<string>>, i: nat)
    requires AutoDetect(folder).Some? && i < |AutoDetect(folder).value|
    ensures var tiles := AutoDetect(folder).value;
      CL.PropsById(SavedMapping(tiles), i) == Some(Props(tiles[i]))
  {
    var tiles := AutoDetect(folder).value;
    var m := SavedMapping(tiles);
    assert m.value[i] == Props(tiles[i]);
    var r := CL.PropsById(m, i);
    if r.Some? {
      var k :| 0 <= k < |m.value| && m.value[k] == r.value;
      assert k == i;
    }
  }

  /** A map drawn with the saved tileset is walkable on a tile exactly when its category is. */
  lemma SavedWalkability(folder: Option<seq<string>>, i: nat)
    requires AutoDetect(folder).Some? && i < |AutoDetect(folder).value|
    ensures var tiles := AutoDetect(folder).value;
      CL.InterpretTmxTile(SavedMapping(tiles), i + 1).walkable == tiles[i].category.walkable
  {
    SavedLookup(folder, i);
    assert i < |Categories|;
    assert CL.TileId(i + 1) == i + 1;
  }
}
