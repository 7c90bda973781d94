/** `generate_world_map`: the theme chooses one of the four generators. */
module World {
  import opened Wrappers
  import opened Text
  import opened Rng
  import opened WorldTiles
  import Perlin
  import Voronoi
  import Cellular
  import Wfc

  datatype Algorithm = PerlinNoise | VoronoiRegions | WaveCollapse | CellularCaves

  /** `(theme or "fantasy").lower()`: a missing or empty theme is "fantasy". */
  function ThemeName(theme: Option<string>): string
  {
    match theme
    case None => "fantasy"
    case Some(t) => if t == "" then "fantasy" else Lower(t)
  }

  /** The theme-to-generator table, Perlin noise for every other theme. */
  function ChooseAlgorithm(theme: Option<string>): Algorithm
  {
    var t := ThemeName(theme);
    if t == "fantasy" || t == "post-apocalyptic" then PerlinNoise
    else if t == "sci-fi" || t == "sci fi" || t == "sci_fi" then VoronoiRegions
    else if t == "cyberpunk" then WaveCollapse
    else if t == "dungeon" || t == "caves" then CellularCaves
    else PerlinNoise
  }

  /** The theme name is never empty and already in lower case. */
  lemma ThemeNameNormal(theme: Option<string>)
    ensures ThemeName(theme) != "" && Lower(ThemeName(theme)) == ThemeName(theme)
  {
    match theme
    case None =>
      assert Lower("fantasy") == "fantasy";
    case Some(t) =>
      if t == "" {
        assert Lower("fantasy") == "fantasy";
      } else {
        LowerIdempotent(t);
        assert |Lower(t)| == |t|;
      }
  }

  /** The dispatch table in full: which theme names reach which generator. */
  lemma DispatchTable(theme: Option<string>)
    ensures ChooseAlgorithm(theme) == VoronoiRegions <==> ThemeName(theme) in {"sci-fi", "sci fi", "sci_fi"}
    ensures ChooseAlgorithm(theme) == WaveCollapse <==> ThemeName(theme) == "cyberpunk"
    ensures ChooseAlgorithm(theme) == CellularCaves <==> ThemeName(theme) in {"dungeon", "caves"}
    ensures ChooseAlgorithm(theme) == PerlinNoise <==>
      ThemeName(theme) !in {"sci-fi", "sci fi", "sci_fi", "cyberpunk", "dungeon", "caves"}
  {
  }

  /** The names the table lists. */
  predicate KnownTheme(t: string)
  {
    t in ["fantasy", "post-apocalyptic", "sci-fi", "sci fi", "sci_fi", "cyberpunk", "dungeon", "caves"]
  }

  /** Unknown themes, and a missing theme, are treated as "fantasy". */
  lemma FallbackTheme(theme: Option<string>)
    requires !KnownTheme(ThemeName(theme))
    ensures ChooseAlgorithm(theme) == ChooseAlgorithm(Some("fantasy")) == ChooseAlgorithm(None) == PerlinNoise
  {
    assert ThemeName(Some("fantasy")) == "fantasy" by {
      LowerIdempotent("fantasy");
      assert Lower("fantasy") == "fantasy";
    }
  }

  /** Theme names are matched without regard to ASCII case. */
  lemma ThemeCaseInsensitive(t: string)
    requires t != ""
    ensures ChooseAlgorithm(Some(t)) == ChooseAlgorithm(Some(Lower(t)))
  {
    LowerIdempotent(t);
  }

  /** `generate_world_map(theme, size, seed)`: the map of the chosen
      generator, which every generator makes as the preset grid in
      row-major order; Voronoi runs with seven regions. The random streams,
      the noise and the cave fill are parameters. When the city generator
      runs, `keys` are the city tiles, one per cell, and when `solved` says
      an attempt succeeded every pair of neighbouring tiles obeys the
      adjacency table; the other generators leave both empty and false. */
  method GenerateWorldMap(theme: Option<string>, size: string, seed: int, seeder: Seeder,
                          noise: Perlin.Noise, fill: int -> (nat -> bool))
    returns (columns: nat, cells: seq<Cell>, ghost keys: seq<Wfc.WfcTile>, ghost solved: bool)
    ensures columns == PickSize(size).0 && |cells| == PickSize(size).0 * PickSize(size).1
    ensures var (w, h) := PickSize(size);
      ChooseAlgorithm(theme) == PerlinNoise ==> GridOf(cells, w, h, Perlin.PerlinLayout(noise, seed))
    ensures var (w, h) := PickSize(size);
      ChooseAlgorithm(theme) == VoronoiRegions ==>
        GridOf(cells, w, h, Voronoi.VoronoiLayout(Voronoi.VoronoiCentres(seeder(seed), w, h, 7)))
    ensures var (w, h) := PickSize(size);
      ChooseAlgorithm(theme) == WaveCollapse ==> GridOf(cells, w, h, Wfc.CityLayout(keys, w))
    ensures var (w, h) := PickSize(size);
      ChooseAlgorithm(theme) == WaveCollapse ==> |keys| == w * h && (solved ==> Wfc.ValidTiling(keys, w, h))
    ensures ChooseAlgorithm(theme) != WaveCollapse ==> keys == [] && !solved
    ensures var (w, h) := PickSize(size);
      ChooseAlgorithm(theme) == CellularCaves ==>
        GridOf(cells, w, h, Cellular.CaveLayout(Cellular.Smoothed(Cellular.InitialGrid(fill(seed), w, h), 5)))
  {
    keys, solved := [], false;
    match ChooseAlgorithm(theme)
    case PerlinNoise =>
      columns, cells := Perlin.GeneratePerlin(size, seed, noise);
    case VoronoiRegions =>
      columns, cells := Voronoi.GenerateVoronoi(size, seed, seeder, 7);
    case WaveCollapse =>
      columns, cells, keys, solved := Wfc.GenerateWfc(size, seed, seeder);
    case CellularCaves =>
      columns, cells := Cellular.GenerateCellular(size, seed, fill);
  }
}
