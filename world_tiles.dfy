/** The tiles, size presets and cell records shared by every world
    generator (world_gen.py), and the row-major layout of a generated map. */
module WorldTiles {
  import opened Wrappers
  import opened Text

  /** A reusable tile definition. */
  datatype TileDef = TileDef(name: string, symbol: string, resources: seq<string>,
                             difficulty: string, flavor: string)

  /** The keys of `BASE_TILES`. */
  datatype TileKey =
    | Water | DeepWater | Grass | Forest | Mountain | Town
    | Dungeon | Ruins | Industrial | Residential | Road | Park

  /** The key as a string, which is also the biome name some generators emit. */
  function KeyName(k: TileKey): string
  {
    match k
    case Water => "water"
    case DeepWater => "deep_water"
    case Grass => "grass"
    case Forest => "forest"
    case Mountain => "mountain"
    case Town => "town"
    case Dungeon => "dungeon"
    case Ruins => "ruins"
    case Industrial => "industrial"
    case Residential => "residential"
    case Road => "road"
    case Park => "park"
  }

  /** `BASE_TILES[key]`; every tile may be passed to `_cell_payload`, since
      the one tile shown by its name's initial has a name. */
  function BaseTile(k: TileKey): (t: TileDef)
    ensures t.symbol == "=" ==> |t.name| > 0
  {
    match k
    case Water => TileDef("Water", "W", ["Fish"], "Easy", "Calm water surface.")
    case DeepWater => TileDef("Deep Water", "W", ["Fish", "Rare minerals"], "Hard", "Dark, unfathomable depths.")
    case Grass => TileDef("Grass", "G", ["Herbs"], "Easy", "Rolling grassy plains.")
    case Forest => TileDef("Forest", "F", ["Wood", "Fauna"], "Medium", "Dense woodland, full of life.")
    case Mountain => TileDef("Mountain", "M", ["Ore", "Stone"], "Hard", "Steep rocky peaks.")
    case Town => TileDef("Town", "T", ["Supplies", "NPCs"], "Safe", "A small settlement with trade opportunities.")
    case Dungeon => TileDef("Dungeon", "D", ["Loot"], "Hard", "Dark corridors and lurking creatures.")
    case Ruins => TileDef("Ruins", "R", ["Artifacts"], "Medium", "Crumbling remains of a forgotten place.")
    case Industrial => TileDef("Industrial Zone", "I", ["Parts", "Energy"], "Medium", "Heavy machinery and humming reactors.")
    case Residential => TileDef("Residential Block", "H", ["Civilians"], "Safe", "Homes stacked into neon-lit towers.")
    case Road => TileDef("Road", "=", [], "Safe", "Main artery connecting the city sectors.")
    case Park => TileDef("Park", "P", ["Herbs"], "Easy", "A rare patch of green in the neon jungle.")
  }

  /** Different keys have different names, so a biome name identifies its key. */
  lemma KeyNameInjective(k1: TileKey, k2: TileKey)
    requires KeyName(k1) == KeyName(k2)
    ensures k1 == k2
  {
    assert KeyName(k1)[0] == KeyName(k2)[0];
    assert |KeyName(k1)| == |KeyName(k2)|;
    if KeyName(k1)[0] == 'd' || KeyName(k1)[0] == 'r' {
      assert KeyName(k1)[1] == KeyName(k2)[1];
    }
  }

  /** `_pick_size(size)`: the preset (width, height), small for any other size. */
  function PickSize(size: string): (wh: (nat, nat))
    ensures size == "small" ==> wh == (18, 12)
    ensures size == "medium" ==> wh == (24, 16)
    ensures size == "large" ==> wh == (32, 20)
    ensures size != "small" && size != "medium" && size != "large" ==> wh == (18, 12)
  {
    if size == "medium" then (24, 16)
    else if size == "large" then (32, 20)
    else (18, 12)
  }

  /** Every preset is a non-empty grid no larger than 32 by 20. */
  lemma PickSizeBounds(size: string)
    ensures var (w, h) := PickSize(size); 18 <= w <= 32 && 12 <= h <= 20
  {
  }

  /** One cell of a generated map, as the frontend receives it; the biome is
      `None` where the Python value is `None`. */
  datatype Cell = Cell(x: int, y: int, name: string, symbol: string, resources: seq<string>,
                       difficulty: string, flavor: string, biome: Option<string>)

  /** The symbol a tile is shown with: its own, unless that is "=", which is
      replaced by the upper-cased first letter of the name. */
  function ShownSymbol(tile: TileDef): string
    requires tile.symbol == "=" ==> |tile.name| > 0
  {
    if tile.symbol != "=" then tile.symbol else Upper(tile.name[..1])
  }

  /** The cell record for a tile at (x, y), with an optional biome name. */
  function CellPayload(tile: TileDef, x: int, y: int, biome: Option<string>): (c: Cell)
    requires tile.symbol == "=" ==> |tile.name| > 0
    ensures c.x == x && c.y == y && c.biome == biome
    ensures c.name == tile.name && c.resources == tile.resources
    ensures c.difficulty == tile.difficulty && c.flavor == tile.flavor
    ensures tile.symbol != "=" ==> c.symbol == tile.symbol
    ensures tile.symbol == "=" ==> c.symbol == [UpperChar(tile.name[0])]
  {
    Cell(x, y, tile.name, ShownSymbol(tile), tile.resources, tile.difficulty, tile.flavor, biome)
  }

  /** A one-letter upper-case symbol, the form every base tile's symbol but
      the road's has. */
  predicate LetterSymbol(t: TileDef)
  {
    |t.symbol| == 1 && IsUpper(t.symbol[0])
  }

  lemma OpenLandSymbols(k: TileKey)
    requires k == Water || k == DeepWater || k == Grass || k == Forest
    ensures LetterSymbol(BaseTile(k))
  {
  }

  lemma SettledLandSymbols(k: TileKey)
    requires k == Mountain || k == Town || k == Dungeon || k == Ruins
    ensures LetterSymbol(BaseTile(k))
  {
  }

  lemma CitySymbols(k: TileKey)
    requires k == Industrial || k == Residential || k == Park
    ensures LetterSymbol(BaseTile(k))
  {
  }

  /** The road's symbol is "=" and its name starts with 'R'. */
  lemma RoadSymbol()
    ensures BaseTile(Road).symbol == "=" && |BaseTile(Road).name| > 0 && BaseTile(Road).name[0] == 'R'
  {
  }

  /** Every base tile but the road has a one-letter upper-case symbol. */
  lemma BaseSymbol(k: TileKey)
    requires k != Road
    ensures LetterSymbol(BaseTile(k))
  {
    match k
    case Water => OpenLandSymbols(k);
    case DeepWater => OpenLandSymbols(k);
    case Grass => OpenLandSymbols(k);
    case Forest => OpenLandSymbols(k);
    case Mountain => SettledLandSymbols(k);
    case Town => SettledLandSymbols(k);
    case Dungeon => SettledLandSymbols(k);
    case Ruins => SettledLandSymbols(k);
    case Industrial => CitySymbols(k);
    case Residential => CitySymbols(k);
    case Park => CitySymbols(k);
  }

  /** A tile whose symbol is one upper-case letter, or "=" with a name that
      starts with one, is shown as one upper-case letter, never "=". */
  lemma PayloadLetter(t: TileDef, x: int, y: int, biome: Option<string>)
    requires t.symbol == "=" ==> |t.name| > 0 && IsUpper(t.name[0])
    requires t.symbol != "=" ==> LetterSymbol(t)
    ensures var s := CellPayload(t, x, y, biome).symbol;
      |s| == 1 && IsUpper(s[0]) && s != "="
    ensures t.symbol == "=" ==> CellPayload(t, x, y, biome).symbol == t.name[..1]
  {
    var s := CellPayload(t, x, y, biome).symbol;
    if t.symbol == "=" {
      assert UpperChar(t.name[0]) == t.name[0];
      assert s == t.name[..1];
    }
    assert s != "=" by {
      assert s[0] != "="[0];
    }
  }

  /** The payload of a base tile: every base tile may be passed to
      `CellPayload`, and the symbol shown is one upper-case letter, never "=";
      the road is shown as "R". */
  lemma BasePayloadSymbol(k: TileKey, x: int, y: int, biome: Option<string>)
    ensures var s := CellPayload(BaseTile(k), x, y, biome).symbol;
      |s| == 1 && IsUpper(s[0]) && s != "="
    ensures k == Road ==> CellPayload(BaseTile(k), x, y, biome).symbol == "R"
  {
    var t := BaseTile(k);
    if k == Road {
      RoadSymbol();
      PayloadLetter(t, x, y, biome);
    } else {
      BaseSymbol(k);
      assert t.symbol != "=" by {
        assert t.symbol[0] != "="[0];
      }
      PayloadLetter(t, x, y, biome);
    }
  }

  /** The payload of a base tile at (x, y) with the given biome. */
  function BaseCell(k: TileKey, x: int, y: int, biome: Option<string>): Cell
  {
    BasePayloadSymbol(k, x, y, biome);
    CellPayload(BaseTile(k), x, y, biome)
  }

  // ------------------------------------------------------------------
  // Row-major layout
  // ------------------------------------------------------------------

  /** A cell function that records the position it is asked for, as every
      generator's `_cell_payload(…, x, y, …)` call does. */
  ghost predicate Positioned(f: (int, int) -> Cell)
  {
    forall x, y :: f(x, y).x == x && f(x, y).y == y
  }

  /** The cells of a `w` by `h` map in row-major order: the cell at index `i`
      is in column `x` and row `y` with `i == y * w + x`, and is `f(x, y)`. */
  ghost predicate RowMajorGrid(cells: seq<Cell>, w: nat, h: nat, f: (int, int) -> Cell)
  {
    forall i :: 0 <= i < |cells| ==>
      0 <= cells[i].x < w && 0 <= cells[i].y < h && cells[i].y * w + cells[i].x == i
      && cells[i] == f(cells[i].x, cells[i].y)
  }

  /** A finished map: all `w * h` cells, in row-major order. */
  ghost predicate GridOf(cells: seq<Cell>, w: nat, h: nat, f: (int, int) -> Cell)
  {
    |cells| == w * h && RowMajorGrid(cells, w, h, f)
  }

  /** The step of the nested `for y … for x …` loops: after rows `0 .. y-1`
      and `x` cells of row `y`, appending the cell for (x, y) keeps the
      cells in row-major order. */
  lemma GridAppend(cells: seq<Cell>, w: nat, h: nat, x: nat, y: nat, f: (int, int) -> Cell)
    requires Positioned(f)
    requires x < w && y < h && |cells| == y * w + x
    requires RowMajorGrid(cells, w, h, f)
    ensures RowMajorGrid(cells + [f(x, y)], w, h, f)
  {
    var next := cells + [f(x, y)];
    assert next[|cells|] == f(x, y);
    assert f(x, y).x == x && f(x, y).y == y;
  }

  /** The nested `for y in range(h): for x in range(w)` loops every generator
      ends with, appending the payload of cell (x, y) each time; `f` is the
      generator's cell function. */
  method BuildGrid(w: nat, h: nat, f: (int, int) -> Cell) returns (cells: seq<Cell>)
    requires Positioned(f)
    ensures GridOf(cells, w, h, f)
  {
    cells := [];
    for y := 0 to h
      invariant |cells| == y * w && RowMajorGrid(cells, w, h, f)
    {
      ghost var row := y * w;
      for x := 0 to w
        invariant |cells| == row + x && RowMajorGrid(cells, w, h, f)
      {
        GridAppend(cells, w, h, x, y, f);
        cells := cells + [f(x, y)];
      }
      assert (y + 1) * w == row + w;
    }
  }

  /** In a finished map the cell of column `x`, row `y` is at index `y * w + x`. */
  lemma GridCellAt(cells: seq<Cell>, w: nat, h: nat, f: (int, int) -> Cell, x: nat, y: nat, i: nat)
    requires GridOf(cells, w, h, f)
    requires x < w && y < h && i < |cells| && i == y * w + x
    ensures cells[i] == f(x, y)
  {
    var c := cells[i];
    RowMajorUnique(c.x, c.y, x, y, w);
  }

  /** Row-major indices are unique: two positions of a `w`-column grid with
      the same index are the same position. */
  lemma RowMajorUnique(x1: nat, y1: nat, x2: nat, y2: nat, w: nat)
    requires x1 < w && x2 < w && y1 * w + x1 == y2 * w + x2
    ensures x1 == x2 && y1 == y2
  {
    if y1 < y2 {
      assert (y1 + 1) * w == y1 * w + w;
      MulMono(y1 + 1, y2, w);
    } else if y2 < y1 {
      assert (y2 + 1) * w == y2 * w + w;
      MulMono(y2 + 1, y1, w);
    }
  }

  lemma MulMono(a: nat, b: nat, w: nat)
    requires a <= b
    ensures a * w <= b * w
  {
    assert b * w == a * w + (b - a) * w;
  }
}
