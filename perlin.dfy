/** `generate_perlin_world`: three noise samples per cell choose a layered
    biome. The noise function is a parameter; the thresholds are those of
    the generator, read as exact reals. */
module Perlin {
  import opened Wrappers
  import opened WorldTiles

  /** `_noise2(x, y, seed)`: a noise value for a point and a seed. */
  type Noise = (real, real, int) -> real

  /** `scale`: grid coordinates are divided by it before sampling. */
  const Scale: real := 12.0

  /** The tile key and biome name a cell receives. */
  datatype Terrain = Terrain(key: TileKey, biome: string)

  /** The height/moisture layering: height below 0.25 (after mapping [-1, 1]
      to [0, 1]) is ocean, below 0.32 coast, above 0.8 mountain; other land
      is steppe, plains or forest by moisture. */
  function Layer(h: real, m: real): Terrain
  {
    var h01 := (h + 1.0) / 2.0;
    var m01 := (m + 1.0) / 2.0;
    if h01 < 0.25 then Terrain(DeepWater, "ocean")
    else if h01 < 0.32 then Terrain(Water, "coast")
    else if h01 > 0.8 then Terrain(Mountain, "mountain")
    else if m01 < 0.25 then Terrain(Grass, "steppe")
    else if m01 < 0.55 then Terrain(Grass, "plains")
    else Terrain(Forest, "forest")
  }

  /** The layering followed by the feature sprinkle: a settlement or ruins
      replaces the layered terrain on high enough ground. */
  function Classify(h: real, m: real, feature: real): Terrain
  {
    var h01 := (h + 1.0) / 2.0;
    if h01 > 0.35 && feature > 0.72 then Terrain(Town, "settlement")
    else if h01 > 0.45 && feature < -0.7 then Terrain(Ruins, "ruins")
    else Layer(h, m)
  }

  /** The classification in terms of the raw noise values in [-1, 1]: each
      outcome holds exactly when its thresholds, moved back from [0, 1],
      are met. */
  lemma ClassifySpec(h: real, m: real, f: real)
    ensures Classify(h, m, f) == Terrain(Town, "settlement") <==> h > -0.3 && f > 0.72
    ensures Classify(h, m, f) == Terrain(Ruins, "ruins") <==> h > -0.1 && f < -0.7
    ensures Classify(h, m, f) == Terrain(DeepWater, "ocean") <==> h < -0.5
    ensures Classify(h, m, f) == Terrain(Water, "coast") <==> -0.5 <= h < -0.36
    ensures Classify(h, m, f) == Terrain(Mountain, "mountain") <==>
      h > 0.6 && !(f > 0.72) && !(f < -0.7)
    ensures Classify(h, m, f).key == Grass <==>
      -0.36 <= h <= 0.6 && m < 0.1 && !(h > -0.3 && f > 0.72) && !(h > -0.1 && f < -0.7)
    ensures Classify(h, m, f).key == Forest <==>
      -0.36 <= h <= 0.6 && m >= 0.1 && !(h > -0.3 && f > 0.72) && !(h > -0.1 && f < -0.7)
  {
  }

  /** Water is never overridden, since features need higher ground. */
  lemma WaterStaysWater(h: real, m: real, f: real)
    requires h < -0.36
    ensures Classify(h, m, f).key == DeepWater || Classify(h, m, f).key == Water
  {
  }

  /** The biome name determines the tile key. */
  function BiomeKey(biome: string): Option<TileKey>
  {
    if biome == "ocean" then Some(DeepWater)
    else if biome == "coast" then Some(Water)
    else if biome == "mountain" then Some(Mountain)
    else if biome == "steppe" || biome == "plains" then Some(Grass)
    else if biome == "forest" then Some(Forest)
    else if biome == "settlement" then Some(Town)
    else if biome == "ruins" then Some(Ruins)
    else None
  }

  lemma BiomeDeterminesTile(h: real, m: real, f: real)
    ensures BiomeKey(Classify(h, m, f).biome) == Some(Classify(h, m, f).key)
  {
  }

  /** The three samples of cell (x, y): height, moisture offset by 100 with
      seed + 7, features offset by (200, -200) with seed + 13. */
  function PerlinTerrain(noise: Noise, seed: int, x: int, y: int): Terrain
  {
    var nx := x as real / Scale;
    var ny := y as real / Scale;
    Classify(noise(nx, ny, seed), noise(nx + 100.0, ny + 100.0, seed + 7),
             noise(nx + 200.0, ny - 200.0, seed + 13))
  }

  /** The cell function of the map made with `noise` and `seed`. */
  function PerlinLayout(noise: Noise, seed: int): (f: (int, int) -> Cell)
  {
    (x: int, y: int) =>
      var t := PerlinTerrain(noise, seed, x, y);
      BaseCell(t.key, x, y, Some(t.biome))
  }

  /** `generate_perlin_world(theme, size, seed)`: the preset grid in
      row-major order, each cell the base tile and biome of its noise
      samples. */
  method GeneratePerlin(size: string, seed: int, noise: Noise) returns (columns: nat, cells: seq<Cell>)
    ensures columns == PickSize(size).0
    ensures GridOf(cells, PickSize(size).0, PickSize(size).1, PerlinLayout(noise, seed))
  {
    var (w, h) := PickSize(size);
    columns := w;
    var f := PerlinLayout(noise, seed);
    assert Positioned(f);
    cells := BuildGrid(w, h, f);
  }
}
