# PixelSaga procedural generation core, modelled in Dafny

PixelSaga is a deterministic content generator for tabletop-style games.
From a theme, a size and a seed it builds a tile map, a quest outline and a
forged item, and its world generator can also produce maps with one of four
grid algorithms. This project models three parts of it and proves properties
of the model:

- seed derivation in `backend/seed_engine.py`, with `rng_from_string` and
  `ensure_user_seed` from `backend/app.py`;
- the three table-driven generators in `backend/app.py`: the map grid, the
  quest and the asset forge;
- the grid generators in `backend/world_gen.py`:
  - the size presets and the cell payload;
  - the Perlin-noise biome layering, with the noise function as a parameter;
  - Voronoi regions;
  - cellular-automaton caves;
  - wave function collapse (WFC) over a grid of tile sets;
  - the theme dispatcher.

Layout, one module per file:

| module | file | models |
|---|---|---|
| `Wrappers` | `wrappers.dfy` | `Option` and `Result` |
| `Text` | `text.dfy` | the ASCII behaviour of the Python string operations the core uses: `lower`, `upper`, `strip`, `title`, `int()`, `str()` of an int, `x or default` |
| `Rng` | `rng.dfy` | `random.Random` as a class over an abstract stream of draws |
| `SeedEngine` | `seed_engine.dfy` | `backend/seed_engine.py` |
| `App` | `app.dfy` | the seed helpers and the generators of `backend/app.py` |
| `WorldTiles` | `world_tiles.dfy` | `BASE_TILES`, `SIZE_PRESETS`, `_pick_size`, `_cell_payload`, and the row-major map layout |
| `Perlin`, `Voronoi`, `Cellular`, `Wfc` | `perlin.dfy`, `voronoi.dfy`, `cellular.dfy`, `wfc.dfy` | the four world generators |
| `World` | `world.dfy` | `generate_world_map` |

Foreign code becomes parameters:

- SHA-256 is `Sha256`, any function from strings to 64-digit lower-case hex strings.
- Seeding `random.Random(n)` is `Seeder`, which maps a seed to an infinite stream of natural numbers.
- A `Random` object holds that stream and a position in it. Each `choice(xs)` takes one draw `d` and yields `xs[d % |xs|]`. Each `randint(lo, hi)` takes one draw and yields `lo + d % (hi - lo + 1)`.
- The noise function is `Perlin.Noise`.
- The cave fill is a function from the seed to one boolean per cell.
- The asset's float arithmetic is a pair of functions `bonusOf` and `valueOf`.
- The fresh random seed is a parameter `freshDraw`.

Imperative code stays imperative:

- The generators build their cell lists with nested `for` loops.
- The cellular automaton smooths an `array2<bool>`, as the source rebuilds its grid.
- WFC updates an array of tile sets in place in `Collapse` and `Propagate`.

Each method is proved against a specification function or predicate. The
properties the source promises are then proved about that function as lemmas.

A generated map is specified by `WorldTiles.GridOf(cells, w, h, f)`. It says
there are exactly `w * h` cells in row-major order: the cell at index `i`
records its own column `x` and row `y`, `i == y * w + x`, and the cell equals
`f(x, y)`. For each generator, `f` is that generator's cell function.

Four facts about the code that the model follows:

- `build_map_grid` draws each tile with one uniform `choice` from the palette (backend/app.py:94).
- Any size other than "small" or "medium" gives 400 cells in 20 columns (backend/app.py:85-90).
- A quest always has the three `raw_steps` (backend/app.py:128).
- The value is `base_val * rarity_mult * (0.7 + 0.1 * value_slider)`, which does not depend on power (backend/app.py:197).

## Model

Functions that only compute a value are specified by the lemmas about them,
and the rows name those lemmas:

- `App.ForgeAsset` by `AssetDerivedFields` and `AssetTextFields`;
- `App.ForgeStatus` by `ForgeStatusReadBack`;
- `App.MakeQuest` and `App.QuestOf` by `QuestOfSpec`;
- `App.StepsOf` by `LabelsOfSteps` and `StepsOfAppend`;
- `Perlin.Classify` by `ClassifySpec`;
- `Voronoi.Nearest` by `NearestSpec`;
- `Cellular.StepCell` by `Step`;
- `Wfc.Rules` by `RulesSymmetric` and the `Allowed` lemmas;
- `Wfc.ConstrainedDir`, `ConstrainedCell`, `ConstrainedRow`, `ConstrainedRows` and `Sweeps` by the `Keeps` lemmas;
- `World.ChooseAlgorithm`, `World.ThemeName` and `World.KnownTheme` by `DispatchTable`, `ThemeNameNormal` and `FallbackTheme`;
- `SeedEngine.SeedKey`, `SeedEngine.NormalTheme` and `SeedEngine.NormalSize` by `DeriveSeedsKeys`, `DeriveSeedsNormalises` and `SeedKeysDistinct`;
- `SeedEngine.ParseHex` by `ParseHexBound` and `DigestPrefix`;
- `Cellular.Wall` by `RowsCountAll` and `CornerIsWall`;
- `WorldTiles.ShownSymbol` by `CellPayload` and `PayloadLetter`;
- `Wfc.MinEntropy` and `Wfc.Candidates` by `CandidatesSpec` and `CandidatesWhenNoneEmpty`;
- `App.IntLikeOr`, `App.PowerInput` and `App.SliderInput` by `AssetClamping`;
- `App.AssetTypeOf`, `App.MaterialOf`, `App.EnhancementOf` and `App.RarityOf` by `AssetDerivedFields` and `EmptyRequestFields`.

| member | source | states |
|---|---|---|
| `Text.Lower` | backend/seed_engine.py:42 | `lower()` keeps the length and lower-cases each ASCII letter, other characters unchanged |
| `Text.LowerIdempotent` | backend/seed_engine.py:42 | lower-casing twice is lower-casing once |
| `Text.Upper` | backend/world_gen.py:134 | `upper()` keeps the length and upper-cases each ASCII letter |
| `Text.StripLeft` | backend/app.py:180 | the result is a suffix, everything dropped is whitespace, and it does not start with whitespace |
| `Text.StripRight` | backend/app.py:180 | the result is a prefix, everything dropped is whitespace, and it does not end with whitespace |
| `Text.StripIsTrim` | backend/app.py:180-183 | `strip()` is a contiguous slice whose removed head and tail are all whitespace |
| `Text.StripEnds` | backend/app.py:180-183 | a stripped string is empty or neither starts nor ends with whitespace |
| `Text.StripNoop` | backend/app.py:213 | a string with no whitespace at either end is unchanged by `strip()` |
| `Text.StripIdempotent` | backend/app.py:180-183 | stripping twice is stripping once |
| `Text.Title` | backend/app.py:180-183 | `title()` upper-cases a letter that follows a non-letter (or starts the string) and lower-cases one that follows a letter |
| `Text.TitleIdempotent` | backend/app.py:180-183 | title-casing twice is title-casing once |
| `Text.TitleKeepsSpace` | backend/app.py:180-183 | title-casing changes no character into or out of whitespace |
| `Text.StripTitleIdempotent` | backend/app.py:180-183 | `.strip().title()` applied to its own result changes nothing |
| `Text.NatToDecimal` | backend/seed_engine.py:46 | the decimal digits of `n`: non-empty, all digits, no leading zero, and they read back as `n` |
| `Text.IntToDecimal` | backend/app.py:224 | `str(i)`: non-empty, with a leading minus exactly for negative `i` |
| `Text.ParseInt` | backend/app.py:34 | `int(s)` succeeds exactly on an optional sign followed by at least one ASCII digit |
| `Text.ParseIntRoundTrip` | backend/app.py:34 | `int(str(i)) == i` |
| `Text.IntToDecimalInjective` | backend/seed_engine.py:46-51 | different integers have different decimal forms |
| `Text.ToInt` | backend/app.py:184-185 | `int(v)` of an int is itself; of a string it succeeds exactly on an integer literal |
| `Text.ToStrRoundTrip` | backend/app.py:34 | `int(str(v))` of an int is that int |
| `Text.StrOr` | backend/app.py:180-183 | `a or b` on strings: `a` when present and non-empty, otherwise `b` |
| `Rng.Random.constructor` | backend/seed_engine.py:61-63 | a new generator starts at the first draw of the seed's stream |
| `Rng.Random.Choice` | backend/world_gen.py:237 | `choice(xs)` takes exactly one draw and returns the element that draw selects, a member of `xs` |
| `Rng.Random.RandInt` | backend/world_gen.py:235-236 | `randint(lo, hi)` takes exactly one draw and returns a value in `[lo, hi]` given by that draw |
| `SeedEngine.HexDigitValue` | backend/seed_engine.py:32 | a hex digit is worth less than 16 |
| `SeedEngine.ParseHexBound` | backend/seed_engine.py:32 | `int(s, 16)` of `k` hex digits is below `16^k` |
| `SeedEngine.Pow16Values` | backend/seed_engine.py:31-32 | `16^8 == 2^32` and `16^16 == 2^64` |
| `SeedEngine.DigestPrefix` | backend/seed_engine.py:32 | the first `k` digest digits read as a number below `16^k` |
| `SeedEngine.HashToInt` | backend/seed_engine.py:25-32 | `_hash_to_int` is a 32-bit value, below `2^32` |
| `SeedEngine.HashToIntPrefixOnly` | backend/seed_engine.py:30-32 | only the first eight digest characters matter: keys whose digests share them hash alike |
| `SeedEngine.DeriveSeeds` | backend/seed_engine.py:35-58 | `derive_seeds` fails exactly when `int(user_seed)` fails; every seed of the bundle is below `2^32` |
| `SeedEngine.DeriveSeedsKeys` | backend/seed_engine.py:46-58 | each bundle field is `_hash_to_int` of its own key `prefix\|theme\|size\|seed` over the normalised inputs, prefixes base, map, quest, asset |
| `SeedEngine.DecimalExample` | backend/seed_engine.py:40 | the seed 734974587 is written as "734974587" |
| `SeedEngine.DefaultsAreLower` | backend/seed_engine.py:42-43 | a missing theme is "fantasy" and "small" stays "small" |
| `SeedEngine.ExampleMapKey` | backend/seed_engine.py:39-40 | the documented example key "map\|fantasy\|small\|734974587" is what the key construction builds |
| `SeedEngine.SeedKeysDistinct` | backend/seed_engine.py:46-51 | the four keys of one input are pairwise distinct |
| `SeedEngine.DeriveSeedsNormalises` | backend/seed_engine.py:42-43 | theme and size are case-insensitive, and missing or empty ones are "fantasy" and "small" |
| `SeedEngine.DeriveSeedsIntOrString` | backend/seed_engine.py:44 | a seed given as the integer `n` and as the string `str(n)` gives the same bundle |
| `SeedEngine.DeriveSeedsDeterministic` | backend/seed_engine.py:53-58 | equal normalised inputs give equal bundles |
| `SeedEngine.RngFromSeed` | backend/seed_engine.py:61-63 | `rng_from_seed` is a fresh generator on the stream of `int(seed)` |
| `App.StringSeed` | backend/app.py:23-27 | the seed `rng_from_string` uses is the first 16 digest digits, an integer below `2^64` |
| `App.RngFromString` | backend/app.py:23-27 | `rng_from_string` is a fresh generator on the stream of that 64-bit seed |
| `App.EnsureUserSeed` | backend/app.py:30-34 | a missing or empty seed gives the fresh draw, which lies in `[1, 1_000_000_000]`; an integer is returned unchanged; a string gives `int()` of it, failing exactly when it is no integer literal; there is no range reduction |
| `App.EnsureUserSeedKeepsIntegers` | backend/app.py:34 | an integer, and its decimal string, both come back as that integer |
| `App.Palette` | backend/app.py:82 | `MAP_CATALOG.get(theme, fantasy)`: six tiles, the theme's own when it has a palette |
| `App.PaletteFallback` | backend/app.py:82 | a theme without a palette gets the fantasy palette |
| `App.BuildMapGrid` | backend/app.py:80-106 | columns 10, 15 or 20 by size with any other size giving 20; `columns * columns` tiles; tile `i` is the palette entry drawn by the `i`-th draw of the stream keyed `map:theme:size:seed`, so a copy of a palette tile |
| `App.DrawTiles` | backend/app.py:92-104 | the tile loop on a fresh generator takes one draw per tile, and tile `i` is the palette entry selected by draw `i` |
| `App.DrawnFromPalette` | backend/app.py:92-104 | tiles selected by draws from a non-empty palette are members of it |
| `App.QuestLocations` | backend/app.py:114-123 | three locations: the theme's own, or the fantasy ones for other themes |
| `App.QuestSteps` | backend/app.py:130-133 | the step loop over any list of labels builds the steps of those labels: each label in order with the icon of its position |
| `App.LabelsOfSteps` | backend/app.py:130-143 | the labels read back from the steps are the raw labels, so `steps` and `raw_steps` agree |
| `App.StepsOfAppend` | backend/app.py:130-133 | one more label adds one step at the end, with the icon of the new position: the position's icon while the icon list lasts, then "•" |
| `App.QuestOfSpec` | backend/app.py:135-147 | the quest of any draws has status "success" and the input seed; title, location and difficulty are members of their tables; exactly three steps carrying the raw labels in order with the icons 🧭, 🎯, 🚀; `raw_steps` are the labels; both descriptions are "title at location (Difficulty: d)." |
| `App.QuestChoices` | backend/app.py:119-121 | on a fresh generator, title, location and difficulty are the table entries selected by draws 0, 1 and 2, and three draws are taken |
| `App.BuildQuest` | backend/app.py:109-147 | `build_quest` returns the quest of the stream keyed `quest:theme:size:seed`, so everything the quest of any stream promises holds of it |
| `App.Clamp` | backend/app.py:187-188 | `max(1, min(v, 10))` lies in `[1, 10]`, is `v` inside that range, and 1 or 10 outside it |
| `App.Sentence` | backend/app.py:206-212 | each extra flavour sentence is its words followed by a full stop |
| `App.AssetDescription` | backend/app.py:202 | the description sentence starts with "A" and ends with "." |
| `App.StripTrailingBlank` | backend/app.py:213 | appending one blank and stripping gives back a sentence without blanks at its ends |
| `App.AssetFlavor` | backend/app.py:204-213 | the flavour is the description alone for an enhancement without extra text, and description, blank, extra text otherwise |
| `App.BuildAsset` | backend/app.py:178-233 | `build_asset` fails exactly when `int()` of power or slider fails; otherwise power and value score lie in `[1, 10]` |
| `App.AssetClamping` | backend/app.py:184-188 | power and value score are the clamped `int()` inputs; a missing, empty or zero power gives 1, and so does a slider whose `value` and `value_mod` are both missing, empty or zero |
| `App.CapitalisedWordIsNormal` | backend/app.py:180-183 | a capitalised ASCII word is unchanged by `.strip().title()` |
| `App.AssetDefaults` | backend/app.py:180-201 | an empty request forges an item of type Weapon, material Iron, enhancement None and rarity Common, titled "Iron Weapon of Power" |
| `App.AssetDefaultNumbers` | backend/app.py:184-197 | an empty request forges power 1 and value score 1, with value and bonus computed from the Common multiplier 1.0 and the Weapon base value 120 |
| `App.EmptyRequestFields` | backend/app.py:180-185 | for an empty request type, material, enhancement and rarity default to Weapon, Iron, None, Common and power and slider to 1 |
| `App.EmptyRequestForge` | backend/app.py:178-233 | `build_asset` on an empty request succeeds with the item forged from Weapon, Iron, None, Common at power 1 and value score 1, and the status line for that seed |
| `App.MissingFieldIsDefault` | backend/app.py:180-183 | a missing field takes its capitalised default unchanged |
| `App.DefaultTitle` | backend/app.py:154-201 | for the default fields Weapon, Iron, None and Common the title is "Iron Weapon of Power", the multiplier 1.0 and the base value 120 |
| `App.DefaultsCapitalised` | backend/app.py:180-183 | the four defaults are capitalised ASCII words |
| `App.AssetFallbacks` | backend/app.py:193-213 | an unknown rarity uses multiplier 1.0, an unknown type base value 100, an unknown enhancement the word "Power", and then the flavour is the description alone |
| `App.UnknownEnhancement` | backend/app.py:199-211 | an enhancement without an element title has no extra flavour and gives the title "material type of Power" |
| `App.AssetDerivedFields` | backend/app.py:193-221 | the fields are the normalised inputs; title is "material type of element", `name == title`; bonus and value come from the table lookups with their fallbacks |
| `App.AssetTextFields` | backend/app.py:213-228 | `bonus == "+" + str(numeric_bonus)` and `flavor == description ==` the assembled flavour |
| `App.AssetSeedIndependent` | backend/app.py:215-231 | the forged asset does not depend on theme or seed |
| `App.ForgeStatusReadBack` | backend/app.py:231 | the status line starts with "Seed " and the seed's decimal form, which parses back to the seed, and ends with the power's decimal form, which parses back to the power |
| `App.FieldNormalStable` | backend/app.py:180-183 | feeding a normalised field back in gives the same field |
| `App.AssetFieldsStable` | backend/app.py:180-183 | feeding an asset's normalised fields back in as a request gives the same fields |
| `WorldTiles.BaseTile` | backend/world_gen.py:40-113 | the one base tile with symbol "=" has a non-empty name, so every base tile may be passed to `_cell_payload` |
| `WorldTiles.BaseSymbol` | backend/world_gen.py:40-113 | every base tile other than the road has a one-letter upper-case symbol |
| `WorldTiles.RoadSymbol` | backend/world_gen.py:101-106 | the road's symbol is "=" and its name starts with "R" |
| `WorldTiles.KeyNameInjective` | backend/world_gen.py:40-113 | distinct tile keys have distinct names |
| `WorldTiles.PickSize` | backend/world_gen.py:117-125 | small (18, 12), medium (24, 16), large (32, 20), any other size (18, 12) |
| `WorldTiles.PickSizeBounds` | backend/world_gen.py:117-121 | every preset is between 18 by 12 and 32 by 20 |
| `WorldTiles.CellPayload` | backend/world_gen.py:128-139 | position, biome, name, resources, difficulty and flavour are copied; a symbol other than "=" is kept; "=" becomes the upper-cased first letter of the name |
| `WorldTiles.PayloadLetter` | backend/world_gen.py:128-139 | a tile with a one-letter upper-case symbol, or "=" and a name starting with an upper-case letter, is shown as one upper-case letter, never "=" |
| `WorldTiles.BasePayloadSymbol` | backend/world_gen.py:128-139 | every base tile is shown with one upper-case letter, never "="; the road is shown as "R" |
| `WorldTiles.GridAppend` | backend/world_gen.py:241-253 | appending cell (x, y) after the cells before it in row-major order keeps the row-major layout |
| `WorldTiles.BuildGrid` | backend/world_gen.py:172-215 | the nested `y`/`x` loops that append one payload per position, as the Perlin, cellular and WFC generators do, produce the `w` by `h` grid in row-major order |
| `WorldTiles.GridCellAt` | backend/world_gen.py:241-255 | in a finished map the cell of column `x`, row `y` is at index `y * w + x` |
| `Perlin.ClassifySpec` | backend/world_gen.py:180-213 | in terms of the raw noise values: settlement exactly when height > -0.3 and feature > 0.72; ruins exactly when height > -0.1 and feature < -0.7; ocean exactly when height < -0.5; coast exactly when -0.5 <= height < -0.36; mountain, grass and forest exactly on their height, moisture and no-feature ranges |
| `Perlin.WaterStaysWater` | backend/world_gen.py:185-212 | water tiles are never replaced by a settlement or ruins |
| `Perlin.BiomeDeterminesTile` | backend/world_gen.py:185-213 | the biome name determines the tile chosen |
| `Perlin.GeneratePerlin` | backend/world_gen.py:162-217 | `grid_columns` is the preset width; the cells are the preset grid in row-major order, each the base tile and biome classified from the three noise samples of that cell |
| `Voronoi.Scan` | backend/world_gen.py:244-250 | an index the search has taken is one of the centres scanned |
| `Voronoi.ScanSpec` | backend/world_gen.py:244-250 | after `n` centres the search holds none exactly when all are at least 999999 away; otherwise it holds a centre nearer than 999999, strictly nearer than all earlier ones and no farther than later ones |
| `Voronoi.NearestSpec` | backend/world_gen.py:244-252 | `best` is None exactly when every centre is at least 999999 away (in particular with no centres); otherwise it is the key of the first closest centre |
| `Voronoi.FirstClosestUnique` | backend/world_gen.py:246-250 | at most one centre is the first closest one |
| `Voronoi.TieGoesToFirst` | backend/world_gen.py:248 | with the strict `<`, a later centre at the same distance as an earlier one is never taken |
| `Voronoi.NearestCentre` | backend/world_gen.py:244-250 | the `best`/`best_dist` loop computes the nearest-centre search |
| `Voronoi.InGridCentreIsNear` | backend/world_gen.py:245 | a centre inside a preset map is always nearer than 999999 to a cell of that map |
| `Voronoi.CentreDraw` | backend/world_gen.py:235-237 | a centre is inside the map and its biome is one of `BIOME_KEYS` |
| `Voronoi.VoronoiCentres` | backend/world_gen.py:232-238 | `regions` centres, centre `i` made from draws `3i`, `3i + 1`, `3i + 2` |
| `Voronoi.PlaceCentres` | backend/world_gen.py:232-238 | the centre loop takes three draws per region and yields exactly those centres |
| `Voronoi.VoronoiLayoutPositioned` | backend/world_gen.py:253 | every Voronoi cell records its own position |
| `Voronoi.VoronoiPayload` | backend/world_gen.py:243-253 | the body of the cell loop yields the payload for the nearest centre of (x, y) |
| `Voronoi.ShowVoronoi` | backend/world_gen.py:241-253 | the cell loops list the Voronoi cells in row-major order |
| `Voronoi.GenerateVoronoi` | backend/world_gen.py:224-255 | `grid_columns` is the preset width; the cells are the preset grid in row-major order, each the payload for the nearest of the centres the seeded generator places |
| `Voronoi.NoRegionsIsGrass` | backend/world_gen.py:244-253 | with no regions every cell is grass with no biome |
| `Voronoi.CentresCoverTheMap` | backend/world_gen.py:241-253 | with at least one centre inside the map, every cell is the tile of its first closest centre, named by that centre's key |
| `Voronoi.SeededCentresCoverTheMap` | backend/world_gen.py:224-254 | on a map with at least one seeded region, every cell carries the key and biome name of a centre, a key from `BIOME_KEYS`, so the grass fallback never shows |
| `Cellular.NeighborWalls` | backend/world_gen.py:274-285 | the neighbour count is at most 8 |
| `Cellular.RowCountFull` | backend/world_gen.py:277-284 | one row of the `dx` loop adds the three contributions of that row |
| `Cellular.RowsCountAll` | backend/world_gen.py:276-285 | the nested `dy`/`dx` loops count the eight neighbours, outside cells as walls |
| `Cellular.Step` | backend/world_gen.py:288-297 | one smoothing pass keeps the grid's dimensions, and cell (x, y) becomes the rule's value: a wall stays one with at least 4 wall neighbours, a floor becomes one with more than 4 |
| `Cellular.Smoothed` | backend/world_gen.py:288-297 | any number of passes keeps the grid's dimensions |
| `Cellular.CornerIsWall` | backend/world_gen.py:281-296 | a corner has at least 5 wall neighbours, so one pass always makes it a wall |
| `Cellular.SmoothedCorners` | backend/world_gen.py:288-297 | after one or more passes all four corners are walls |
| `Cellular.WallNeighbors` | backend/world_gen.py:274-285 | `wall_neighbors` on the array computes the neighbour count of its contents |
| `Cellular.NextCell` | backend/world_gen.py:292-296 | the rule applied to one cell of the array gives that cell of the smoothing step |
| `Cellular.SmoothRow` | backend/world_gen.py:290-296 | one row of the new grid is that row of the smoothing step, and no other row changes |
| `Cellular.SmoothStep` | backend/world_gen.py:289-297 | the pass builds a fresh array of the same dimensions holding one smoothing step of the old one |
| `Cellular.InitialGrid` | backend/world_gen.py:272 | the initial fill is a `w` by `h` grid |
| `Cellular.GenerateCellular` | backend/world_gen.py:262-312 | `grid_columns` is the preset width; the cells are the preset grid in row-major order, each rock (a mountain tile) or dungeon floor as the fill after five smoothing passes says |
| `Cellular.CaveCornersAreRock` | backend/world_gen.py:299-310 | the four corners of every cave map are rock |
| `Wfc.RulesSymmetric` | backend/world_gen.py:324-349 | the adjacency table is symmetric: `u` may neighbour `t` exactly when `t` may neighbour `u` |
| `Wfc.Allowed` | backend/world_gen.py:409-411 | a tile is allowed next to a cell exactly when some tile of the cell allows it |
| `Wfc.AllowedAll` | backend/world_gen.py:325-330 | a cell that may still be road allows every tile next to it |
| `Wfc.AllowedSingle` | backend/world_gen.py:409-411 | a cell with a single tile allows exactly that tile's rule list |
| `Wfc.AllowedAdd` | backend/world_gen.py:410-411 | adding one tile to a cell adds that tile's rule list to what it allows |
| `Wfc.AllowedBy` | backend/world_gen.py:409-411 | the union loop over the cell's tiles, in any order, computes the allowed set |
| `Wfc.TileSetSize` | backend/world_gen.py:320 | a cell never holds more than the four tiles |
| `Wfc.SumSizesUpdate` | backend/world_gen.py:412-414 | replacing one cell's set changes the total size by the difference of the two sizes |
| `Wfc.SumSizesMono` | backend/world_gen.py:412-414 | shrinking sets never increases the total size |
| `Wfc.RoundShrinks` | backend/world_gen.py:393-396 | collapsing a cell of two or more tiles to one and then only shrinking sets lowers the total size |
| `Wfc.SumSizesNonEmpty` | backend/world_gen.py:427-430 | a grid without empty cells has total size at least its cell count |
| `Wfc.SumSizesFull` | backend/world_gen.py:420 | the reset grid has total size four per cell |
| `Wfc.FullGridConsistent` | backend/world_gen.py:420 | the reset grid is already arc consistent |
| `Wfc.ConstrainNeighbours` | backend/world_gen.py:404-415 | the new grid is exactly the cell step: an empty cell changes nothing, otherwise the four neighbours are intersected in turn with what the cell's set allows; sets only shrink, a change lowers the total size, and no change leaves the cell consistent with every neighbour |
| `Wfc.ConstrainFour` | backend/world_gen.py:407-415 | the loop over the four directions gives exactly the grid with each direction constrained in turn by the cell's set read before the loop |
| `Wfc.ConstrainDir` | backend/world_gen.py:407-415 | the new grid is exactly the old one with the neighbour, when inside the grid, intersected with what the cell allows, and unchanged otherwise; the cell itself is unchanged, a change lowers the total size, and no change leaves the pair consistent |
| `Wfc.NarrowBy` | backend/world_gen.py:408-415 | one neighbour keeps exactly the tiles the cell allows: all other sets, the cell's included, are unchanged |
| `Wfc.Narrow` | backend/world_gen.py:412-415 | the intersection updates exactly one set, and is a change exactly when it removes a tile, which lowers the total size |
| `Wfc.SweepRow` | backend/world_gen.py:403-415 | a pass over one row gives exactly the grid with the row's cells stepped left to right; it lowers the total size when it changes something and otherwise leaves every cell of the row consistent |
| `Wfc.Sweep` | backend/world_gen.py:401-415 | a pass over the grid gives exactly the grid with the rows stepped top to bottom; it lowers the total size when it changes something and otherwise leaves the grid arc consistent |
| `Wfc.Propagate` | backend/world_gen.py:398-415 | `propagate` ends (the total size strictly drops in every sweep that changes something); the result is some number of full sweeps of the input, every set only shrinks, no tile is removed that a rule-obeying tiling fitting the input uses, and on exit every neighbour of a non-empty cell holds only tiles that cell allows in that direction |
| `Wfc.ConstrainedDirKeeps` | backend/world_gen.py:407-415 | constraining one neighbour by a set that holds the tile a rule-obeying tiling puts on the cell keeps every tile of that tiling |
| `Wfc.ConstrainedDirsKeeps` | backend/world_gen.py:407-415 | so does constraining any number of the four directions in turn |
| `Wfc.ConstrainedCellKeeps` | backend/world_gen.py:404-415 | the step of one cell removes no tile a rule-obeying tiling fitting the grid uses |
| `Wfc.ConstrainedRowKeeps` | backend/world_gen.py:403-415 | nor does a pass over part or all of a row |
| `Wfc.ConstrainedRowsKeeps` | backend/world_gen.py:402-415 | nor does a sweep over part or all of the grid |
| `Wfc.SweepsKeep` | backend/world_gen.py:400-415 | nor does any number of sweeps, so propagation only removes tiles no rule-obeying completion of the grid can use |
| `Wfc.CandidatesSpec` | backend/world_gen.py:375-387 | after scanning `n` cells, `min_entropy` is the least size other than one, 999 exactly when all were singletons, and `coords` holds exactly the cells of that size |
| `Wfc.CandidatesWhenNoneEmpty` | backend/world_gen.py:389-390 | with no empty cell, `coords` is empty exactly when every cell holds one tile, and every cell in it holds at least two |
| `Wfc.ListOf` | backend/world_gen.py:393 | `list(opts)` holds exactly the tiles of the set |
| `Wfc.ScanCell` | backend/world_gen.py:378-387 | one cell of the scan advances `min_entropy` and `coords` by one cell |
| `Wfc.ScanRow` | backend/world_gen.py:377-387 | the scan over one row advances `min_entropy` and `coords` by that row's cells |
| `Wfc.LeastEntropyCells` | backend/world_gen.py:375-387 | the scan loop computes `coords` in row-major order |
| `Wfc.Collapse` | backend/world_gen.py:373-396 | with no empty cell: false, changing nothing and drawing nothing, exactly when every cell holds one tile; otherwise two draws, the first picking a cell of least size from `coords`, which then holds a single tile of its former set while every other cell is unchanged |
| `Wfc.HasEmpty` | backend/world_gen.py:427-430 | the contradiction check finds an empty cell exactly when there is one |
| `Wfc.Round` | backend/world_gen.py:423-432 | one collapse-then-propagate step from an arc-consistent grid without empty cells: no progress means the grid is solved; otherwise it either leaves an empty cell, or keeps the grid non-empty and arc consistent with a smaller total size |
| `Wfc.Attempt` | backend/world_gen.py:419-432 | one attempt from the reset grid ends solved when it reports success and with an empty cell otherwise |
| `Wfc.RunWfc` | backend/world_gen.py:418-434 | after the restart loop, success means every cell holds exactly one tile and the grid is arc consistent; failure means an empty cell is left |
| `Wfc.ChooseTiles` | backend/world_gen.py:440-444 | an empty cell becomes road; any other cell gets one of its own tiles |
| `Wfc.SolvedGivesValidTiling` | backend/world_gen.py:418-449 | tiles read off a solved grid obey the adjacency table for every pair of neighbours |
| `Wfc.GenerateWfc` | backend/world_gen.py:352-449 | `grid_columns` is the preset width; the cells are the preset grid in row-major order, each the base tile of the key chosen for it; when an attempt succeeded, every pair of neighbouring tiles obeys the adjacency table |
| `World.FallbackTheme` | backend/world_gen.py:462-477 | a missing, empty or unknown theme goes to the same generator as "fantasy", Perlin noise |
| `World.ThemeCaseInsensitive` | backend/world_gen.py:462 | theme names are matched ignoring ASCII case |
| `World.ThemeNameNormal` | backend/world_gen.py:461 | the normalised theme is never empty and is already in lower case |
| `World.DispatchTable` | backend/world_gen.py:464-477 | the whole table, both directions: Voronoi exactly for "sci-fi", "sci fi", "sci_fi"; WFC exactly for "cyberpunk"; caves exactly for "dungeon", "caves"; Perlin noise exactly for every other name |
| `World.GenerateWorldMap` | backend/world_gen.py:456-477 | every theme yields the preset number of cells and columns. "fantasy", "post-apocalyptic" and unknown themes give the Perlin map; "sci-fi", "sci fi" and "sci_fi" give the Voronoi map with seven regions; "cyberpunk" gives the WFC city, one tile per cell, which obeys the adjacency table when an attempt succeeded; "dungeon" and "caves" give the cellular cave |

## Left out

- Flask app setup, CORS, the `/api/*` routes, JSON shaping and static files (backend/app.py:13-17, 240-333) are HTTP glue and are not modelled.
- SHA-256 is a foreign library call. It is the parameter `Sha256`, constrained only to return 64 lower-case hex digits.
- The Mersenne Twister is not reproduced. Each `choice` or `randint` takes one draw from an abstract stream. CPython's rejection sampling can take more than one 32-bit word per call, and that draw count is not modelled.
- The fresh seed `random.randint(1, 1_000_000_000)` of `ensure_user_seed` is non-deterministic. It is the parameter `freshDraw`.
- `_noise2`, `_value_noise` and the external `pnoise2` are the parameter `Perlin.Noise`.
- The Perlin thresholds and `x / scale` are computed on exact reals instead of IEEE doubles, so a noise value within rounding distance of a threshold may classify differently.
- The cellular initial fill `rng.random() < 0.45` is a float comparison. It is the parameter `fill`, one boolean per cell in row-major order.
- The asset's `bonus` and `value` float arithmetic (backend/app.py:196-197) is the parameters `bonusOf` and `valueOf`. The multiplier is read as an exact real.
- Python's set iteration order, which is randomised per process for strings, is an unspecified choice. This applies to `list(opts)` in `collapse` and `list(opts)[0]` in the final tile choice.
- `Wfc.ListOf`: states only that the list holds exactly the set's tiles, not that each appears once. Only membership matters for the choice made from it.
- The Python string operations are ASCII only:
  - `int()` accepts an optional sign and ASCII digits, with no surrounding whitespace or underscores;
  - `lower`, `upper`, `title` and `strip` act on ASCII letters and ASCII whitespace only.
- `ensure_user_seed` and `build_asset` receive JSON values. The model admits integers and strings; floats, booleans and other values are not modelled.
- The asset forge's generator `rng_from_string(f"asset:…")` (backend/app.py:191) is never drawn from, so it is not built.
- `WorldTiles.CellPayload` takes a precondition where Python would raise `IndexError`: a tile shown as "=" must have a non-empty name. No base tile breaks it.
- The WFC grid of sets is one flat array of `w * h` sets, the cell of column `x` and row `y` at index `y * w + x`. The source uses a list of rows. The collapse candidates are kept as flat indices rather than `(x, y)` pairs.
- The opposite direction `d2` that `neighbors` yields is unused by the source and is not modelled.
- The generators return `(grid_columns, cells)` instead of a dictionary. Their `theme` argument is unused by the source and is omitted.
