/** The table-driven generators behind the HTTP routes (app.py): the
    seeded generator built from a string, the user-seed rule, the map
    grid, the quest outline and the asset forge. */
module App {
  import opened Wrappers
  import opened Text
  import opened Rng
  import opened SeedEngine

  // ------------------------------------------------------------------
  // Deterministic generator helpers
  // ------------------------------------------------------------------

  /** The number `rng_from_string` seeds with: the first 16 hex digits of the
      digest of the string, a 64-bit value. */
  function StringSeed(seedStr: string, sha: Sha256): (n: nat)
    ensures n < 0x1_0000_0000_0000_0000
  {
    Pow16Values();
    DigestPrefix(sha(seedStr), 16)
  }

  /** A generator seeded from the hash of a seed string. */
  method RngFromString(seedStr: string, sha: Sha256, seeder: Seeder) returns (rng: Random)
    ensures fresh(rng)
    ensures rng.stream == seeder(StringSeed(seedStr, sha)) && rng.pos == 0
  {
    rng := new Random(seeder, StringSeed(seedStr, sha));
  }

  /** `ensure_user_seed(raw_seed)`. An absent or empty seed takes the branch
      that draws `random.randint(1, 1_000_000_000)`; that draw is the
      parameter `freshDraw`, which lies in that range. Otherwise the result
      is `int(str(raw_seed))`, with no reduction into any range, and is a
      failure when the string is not a decimal literal. */
  function EnsureUserSeed(rawSeed: Option<IntLike>, freshDraw: int): (r: Result<int>)
    requires 1 <= freshDraw <= 1_000_000_000
    ensures rawSeed.None? || rawSeed == Some(StrValue("")) ==>
      r == Success(freshDraw) && 1 <= r.value <= 1_000_000_000
    ensures rawSeed.Some? && rawSeed.value.IntValue? ==> r == Success(rawSeed.value.i)
    ensures rawSeed.Some? && rawSeed.value.StrValue? && rawSeed.value.s != "" ==>
      (r.Success? <==> IsIntLiteral(rawSeed.value.s))
      && (r.Success? ==> Some(r.value) == ParseInt(rawSeed.value.s))
  {
    if rawSeed.None? || rawSeed.value == StrValue("") then Success(freshDraw)
    else
      ToStrRoundTrip(rawSeed.value);
      match ParseInt(ToStr(rawSeed.value))
      case Some(n) => Success(n)
      case None => Failure("invalid literal for int() with base 10")
  }

  /** A user seed that is already an integer comes back unchanged, however large. */
  lemma EnsureUserSeedKeepsIntegers(i: int, freshDraw: int)
    requires 1 <= freshDraw <= 1_000_000_000
    ensures EnsureUserSeed(Some(IntValue(i)), freshDraw) == Success(i)
    ensures EnsureUserSeed(Some(StrValue(IntToDecimal(i))), freshDraw) == Success(i)
  {
    ParseIntRoundTrip(i);
  }

  // ------------------------------------------------------------------
  // Map catalog and map grid
  // ------------------------------------------------------------------

  /** One palette entry; `cssClass` is the entry's "class". */
  datatype MapTile = MapTile(symbol: string, cssClass: string, name: string,
                             resources: seq<string>, difficulty: string, flavor: string)

  const FantasyPalette: seq<MapTile> := [
    MapTile("G", "fantasy-grass", "Grass", ["Herbs"], "Easy", "Open emerald plains."),
    MapTile("W", "fantasy-water", "Water", ["Fish"], "Medium", "Glowing rivers and lakes."),
    MapTile("M", "fantasy-mountain", "Mountain", ["Ore"], "Hard", "Jagged crystal peaks."),
    MapTile("F", "fantasy-forest", "Forest", ["Wood"], "Medium", "Dense neon woods."),
    MapTile("T", "fantasy-town", "Town", ["Supplies"], "Safe", "Soft-lit settlements."),
    MapTile("D", "fantasy-dungeon", "Dungeon", ["Treasure"], "Very Hard", "Ancient ruins beneath the surface.")
  ]

  const SciFiPalette: seq<MapTile> := [
    MapTile("H", "scifi-hub", "Hub", ["Credits"], "Medium", "Central trade nexus."),
    MapTile("V", "scifi-vacuum", "Void", ["Dark Matter"], "Hard", "Exposed starless regions."),
    MapTile("B", "scifi-base", "Outpost", ["Fuel"], "Medium", "Frontier research stations."),
    MapTile("A", "scifi-asteroid", "Field", ["Ore"], "Hard", "Drifting asteroid belts."),
    MapTile("L", "scifi-lab", "Lab", ["Data"], "Easy", "Bright experimental labs."),
    MapTile("G", "scifi-gate", "Gate", ["Access"], "Very Hard", "Heavily shielded jump gates.")
  ]

  const PostApocPalette: seq<MapTile> := [
    MapTile("T", "pa-town", "Town Ruin", ["Scrap"], "Medium", "Shattered settlements."),
    MapTile("R", "pa-rubble", "Rubble", ["Metal"], "Easy", "Collapsed structures."),
    MapTile("F", "pa-fire", "Fires", ["Heat"], "Hard", "Burning wastelands."),
    MapTile("W", "pa-water", "Toxic", ["Contaminants"], "Medium", "Irradiated pools."),
    MapTile("M", "pa-mine", "Mine", ["Ammo"], "Hard", "Trapped resource pits."),
    MapTile("B", "pa-bunker", "Bunker", ["Tech"], "Very Hard", "Hidden sealed vaults.")
  ]

  const CyberpunkPalette: seq<MapTile> := [
    MapTile("S", "cp-streets", "Streets", ["Credchips"], "Medium", "Crowded chrome avenues."),
    MapTile("C", "cp-commercial", "Market", ["Gear"], "Safe", "Endless neon stalls."),
    MapTile("I", "cp-industrial", "Industrial", ["Parts"], "Dangerous", "Smog-filled factories."),
    MapTile("R", "cp-residential", "Residential", ["Contacts"], "Medium", "Stacked megablocks."),
    MapTile("W", "cp-water", "Waterway", ["Filtered H₂O"], "Easy", "Underground channels."),
    MapTile("H", "cp-hq", "Corp HQ", ["Secrets"], "Very Hard", "Armoured skyline spires.")
  ]

  /** The preset map tiles of a theme, when the catalogue has that theme. */
  function MapCatalog(theme: string): Option<seq<MapTile>>
  {
    if theme == "fantasy" then Some(FantasyPalette)
    else if theme == "sci-fi" then Some(SciFiPalette)
    else if theme == "post-apoc" then Some(PostApocPalette)
    else if theme == "cyberpunk" then Some(CyberpunkPalette)
    else None
  }

  /** `MAP_CATALOG.get(theme, MAP_CATALOG["fantasy"])`: the theme's six tiles,
      the fantasy tiles for a theme the catalog does not know. */
  function Palette(theme: string): (p: seq<MapTile>)
    ensures |p| == 6
    ensures MapCatalog(theme).Some? ==> p == MapCatalog(theme).value
  {
    MapCatalog(theme).GetOr(FantasyPalette)
  }

  /** An unknown theme draws from the fantasy palette (its draws still come
      from a key built with the raw theme, so its tiles need not equal the
      fantasy tiles for the same seed). */
  lemma PaletteFallback(theme: string)
    requires theme !in {"fantasy", "sci-fi", "post-apoc", "cyberpunk"}
    ensures Palette(theme) == FantasyPalette
  {
  }

  /** The key the map generator is seeded from: f"map:{theme}:{size}:{seed}". */
  function MapKey(theme: string, size: string, seed: int): string
  {
    "map:" + theme + ":" + size + ":" + IntToDecimal(seed)
  }

  /** The draws `build_map_grid` consumes. */
  function MapStream(theme: string, size: string, seed: int, sha: Sha256, seeder: Seeder): Stream
  {
    seeder(StringSeed(MapKey(theme, size, seed), sha))
  }

  /** `build_map_grid(theme, size, seed)`: "small" gives a 10 x 10 grid,
      "medium" 15 x 15 and every other size 20 x 20; tile `i` is a copy of
      the palette entry chosen by the `i`-th draw. */
  method BuildMapGrid(theme: string, size: string, seed: int, sha: Sha256, seeder: Seeder)
    returns (tiles: seq<MapTile>, columns: nat)
    ensures columns == if size == "small" then 10 else if size == "medium" then 15 else 20
    ensures |tiles| == columns * columns
    ensures forall i :: 0 <= i < |tiles| ==> tiles[i] in Palette(theme)
    ensures forall i :: 0 <= i < |tiles| ==>
      tiles[i] == Palette(theme)[MapStream(theme, size, seed, sha, seeder)(i) % 6]
  {
    var palette := Palette(theme);
    var rng := RngFromString(MapKey(theme, size, seed), sha, seeder);

    var cellCount: nat;
    if size == "small" {
      cellCount, columns := 100, 10;
    } else if size == "medium" {
      cellCount, columns := 225, 15;
    } else {
      cellCount, columns := 400, 20;
    }

    tiles := DrawTiles(rng, palette, cellCount);
    DrawnFromPalette(tiles, palette, rng.stream);
  }

  /** Tiles drawn by index from a palette are members of it. */
  lemma DrawnFromPalette(tiles: seq<MapTile>, palette: seq<MapTile>, s: Stream)
    requires |palette| > 0
    requires forall i :: 0 <= i < |tiles| ==> tiles[i] == palette[s(i) % |palette|]
    ensures forall i :: 0 <= i < |tiles| ==> tiles[i] in palette
  {
  }

  /** The tile loop of `build_map_grid`: one draw per tile, each tile a
      field-for-field copy of the palette entry drawn. */
  method DrawTiles(rng: Random, palette: seq<MapTile>, count: nat) returns (tiles: seq<MapTile>)
    requires |palette| > 0 && rng.pos == 0
    modifies rng
    ensures rng.pos == count && |tiles| == count
    ensures forall i :: 0 <= i < count ==> tiles[i] == palette[rng.stream(i) % |palette|]
  {
    tiles := [];
    for k := 0 to count
      invariant rng.pos == k && |tiles| == k
      invariant forall i :: 0 <= i < k ==> tiles[i] == palette[rng.stream(i) % |palette|]
    {
      var tileDef := rng.Choice(palette);
      var tile := MapTile(tileDef.symbol, tileDef.cssClass, tileDef.name,
                          tileDef.resources, tileDef.difficulty, tileDef.flavor);
      assert tile == tileDef;
      tiles := tiles + [tile];
    }
  }

  // ------------------------------------------------------------------
  // Quest outline
  // ------------------------------------------------------------------

  /** One quest beat; `text` is the step's "label". */
  datatype QuestStep = QuestStep(text: string, icon: string)

  datatype Quest = Quest(status: string, seed: int, title: string, location: string,
                         difficulty: string, steps: seq<QuestStep>, rawSteps: seq<string>,
                         description: string, descriptionAi: string)

  const QuestTitles: seq<string> := ["Recovery", "Rescue", "Heist", "Escort", "Scan"]
  const QuestDifficulties: seq<string> := ["Easy", "Medium", "Hard"]
  const StepIcons: seq<string> := ["🧭", "🎯", "🚀", "📦", "🏁"]
  const RawSteps: seq<string> := ["Travel to location", "Complete objective", "Return safely"]

  /** The quest locations of a theme, when the table has that theme. */
  function LocationTable(theme: string): Option<seq<string>>
  {
    if theme == "fantasy" then Some(["Ancient Ruins", "Crystal Forest", "Sunken Keep"])
    else if theme == "sci-fi" then Some(["Orbital Relay", "Abandoned Complex", "Crystal Belt"])
    else if theme == "post-apoc" then Some(["Crater City", "Dust Highway", "Flooded Mall"])
    else if theme == "cyberpunk" then Some(["Neon District", "Corporate Spire", "Dockside Grid"])
    else None
  }

  /** `locations.get(theme, locations["fantasy"])`: three places, the fantasy
      ones for a theme the table does not know. */
  function QuestLocations(theme: string): (p: seq<string>)
    ensures |p| == 3
    ensures LocationTable(theme).Some? ==> p == LocationTable(theme).value
    ensures LocationTable(theme).None? ==> p == LocationTable("fantasy").value
  {
    LocationTable(theme).GetOr(["Ancient Ruins", "Crystal Forest", "Sunken Keep"])
  }

  /** The key the quest generator is seeded from: f"quest:{theme}:{size}:{seed}". */
  function QuestKey(theme: string, size: string, seed: int): string
  {
    "quest:" + theme + ":" + size + ":" + IntToDecimal(seed)
  }

  function QuestStream(theme: string, size: string, seed: int, sha: Sha256, seeder: Seeder): Stream
  {
    seeder(StringSeed(QuestKey(theme, size, seed), sha))
  }

  /** The icon of the step at position `i`: the icon list in order, then "•". */
  function IconAt(i: nat): string
  {
    if i < |StepIcons| then StepIcons[i] else "•"
  }

  /** The steps for a list of labels: each label with the icon of its position. */
  function StepsOf(labels: seq<string>): seq<QuestStep>
  {
    seq(|labels|, i requires 0 <= i < |labels| => QuestStep(labels[i], IconAt(i)))
  }

  /** The labels of a list of steps. */
  function Labels(steps: seq<QuestStep>): seq<string>
  {
    seq(|steps|, i requires 0 <= i < |steps| => steps[i].text)
  }

  /** The labels read back from the steps are the raw labels, which is why
      the record can carry both lists. */
  lemma LabelsOfSteps(labels: seq<string>)
    ensures Labels(StepsOf(labels)) == labels
  {
  }

  /** Appending a label appends one step, with the icon of the new position:
      the step list is built one label at a time. */
  lemma StepsOfAppend(labels: seq<string>, next: string)
    ensures StepsOf(labels + [next]) == StepsOf(labels) + [QuestStep(next, IconAt(|labels|))]
  {
  }

  /** The step loop of `build_quest`: each label with the icon at its
      position, "•" past the end of the icon list. */
  method QuestSteps(labels: seq<string>) returns (steps: seq<QuestStep>)
    ensures steps == StepsOf(labels)
  {
    steps := [];
    for i := 0 to |labels|
      invariant steps == StepsOf(labels[..i])
    {
      var icon := if i < |StepIcons| then StepIcons[i] else "•";
      StepsOfAppend(labels[..i], labels[i]);
      assert labels[..i + 1] == labels[..i] + [labels[i]];
      steps := steps + [QuestStep(labels[i], icon)];
    }
    assert labels[..|labels|] == labels;
  }

  /** The quest record for the three choices: the steps of the raw labels,
      the raw labels and the description sentence, returned twice. */
  function MakeQuest(seed: int, title: string, location: string, difficulty: string): Quest
  {
    var description := title + " at " + location + " (Difficulty: " + difficulty + ").";
    Quest("success", seed, title, location, difficulty, StepsOf(RawSteps), RawSteps, description, description)
  }

  /** The quest made from the draws `s`: title, location and difficulty are
      the first three draws into their tables. */
  function QuestOf(theme: string, seed: int, s: Stream): Quest
  {
    MakeQuest(seed, QuestTitles[s(0) % 5], QuestLocations(theme)[s(1) % 3], QuestDifficulties[s(2) % 3])
  }

  /** The quest of `s` is the record of its three table choices. */
  lemma QuestOfChoices(theme: string, seed: int, s: Stream, title: string, location: string, difficulty: string)
    requires title == QuestTitles[s(0) % 5]
    requires location == QuestLocations(theme)[s(1) % 3]
    requires difficulty == QuestDifficulties[s(2) % 3]
    ensures QuestOf(theme, seed, s) == MakeQuest(seed, title, location, difficulty)
  {
  }

  /** What every quest promises: status "success" and the input seed; title,
      location and difficulty taken from their tables; each of the three
      steps labelled by its raw step and carrying the first three icons;
      both descriptions the sentence "title at location (Difficulty: d)." */
  lemma QuestOfSpec(theme: string, seed: int, s: Stream)
    ensures var q := QuestOf(theme, seed, s);
      q.status == "success" && q.seed == seed
      && q.title in QuestTitles && q.location in QuestLocations(theme) && q.difficulty in QuestDifficulties
      && q.rawSteps == RawSteps && |q.steps| == |q.rawSteps| == 3
      && (forall i :: 0 <= i < |q.steps| ==> q.steps[i].text == q.rawSteps[i] && q.steps[i].icon == StepIcons[i])
      && q.description == q.title + " at " + q.location + " (Difficulty: " + q.difficulty + ")."
      && q.descriptionAi == q.description
  {
  }

  /** The three draws of `build_quest`: title, location, difficulty. */
  method QuestChoices(rng: Random, theme: string) returns (title: string, location: string, difficulty: string)
    requires rng.pos == 0
    modifies rng
    ensures rng.pos == 3
    ensures title == QuestTitles[rng.stream(0) % 5]
    ensures location == QuestLocations(theme)[rng.stream(1) % 3]
    ensures difficulty == QuestDifficulties[rng.stream(2) % 3]
  {
    title := rng.Choice(QuestTitles);
    location := rng.Choice(QuestLocations(theme));
    difficulty := rng.Choice(QuestDifficulties);
  }

  /** `build_quest(theme, size, seed)`: the quest of the stream keyed
      `quest:theme:size:seed`. */
  method BuildQuest(theme: string, size: string, seed: int, sha: Sha256, seeder: Seeder)
    returns (q: Quest)
    ensures q == QuestOf(theme, seed, QuestStream(theme, size, seed, sha, seeder))
  {
    var rng := RngFromString(QuestKey(theme, size, seed), sha, seeder);
    var title, location, difficulty := QuestChoices(rng, theme);
    var steps := QuestSteps(RawSteps);

    var description := title + " at " + location + " (Difficulty: " + difficulty + ").";
    q := Quest("success", seed, title, location, difficulty, steps, RawSteps, description, description);
    assert q == MakeQuest(seed, title, location, difficulty);
    assert rng.stream == QuestStream(theme, size, seed, sha, seeder);
    QuestOfChoices(theme, seed, rng.stream, title, location, difficulty);
  }

  // ------------------------------------------------------------------
  // Asset forge
  // ------------------------------------------------------------------

  /** The value multiplier of a rarity, when the table lists that rarity. */
  function RarityMultiplier(rarity: string): Option<real>
  {
    if rarity == "Common" then Some(1.0)
    else if rarity == "Uncommon" then Some(1.3)
    else if rarity == "Rare" then Some(1.7)
    else if rarity == "Epic" then Some(2.3)
    else if rarity == "Legendary" then Some(3.0)
    else None
  }

  /** The base value of an item type, when the table lists that type. */
  function BaseValue(assetType: string): Option<int>
  {
    if assetType == "Weapon" then Some(120)
    else if assetType == "Armor" then Some(140)
    else if assetType == "Artifact" then Some(220)
    else if assetType == "Consumable" then Some(60)
    else None
  }

  /** The title word of an enhancement, when the table lists it. */
  function ElementTitle(enhancement: string): Option<string>
  {
    if enhancement == "None" then Some("Power")
    else if enhancement == "Fire" then Some("Flames")
    else if enhancement == "Ice" then Some("Frost")
    else if enhancement == "Poison" then Some("Venom")
    else if enhancement == "Cyber" then Some("Systems")
    else None
  }

  /** The extra flavour sentence per enhancement, less its full stop. */
  function ExtraWords(enhancement: string): Option<string>
  {
    if enhancement == "Fire" then Some("Glows faintly with internal embers")
    else if enhancement == "Ice" then Some("Always feels a few degrees colder than the air")
    else if enhancement == "Poison" then Some("Carries a subtle iridescent sheen along its edges")
    else if enhancement == "Cyber" then Some("Laced with humming circuitry along the core")
    else if enhancement == "None" then Some("Reliable hardware with no visible distortions")
    else None
  }

  /** The words followed by a full stop. */
  function Sentence(words: string): (s: string)
    ensures |s| == |words| + 1 && s[..|words|] == words && s[|words|] == '.'
  {
    words + "."
  }

  /** The extra flavour sentence per enhancement: each one its words and a
      full stop. */
  function ExtraFlavor(enhancement: string): Option<string>
  {
    match ExtraWords(enhancement)
    case None => None
    case Some(w) => Some(Sentence(w))
  }

  /** The request body fields the forge reads; each may be missing. */
  datatype AssetRequest = AssetRequest(
    assetType: Option<string>,   // "type"
    assetTypeAlt: Option<string>, // "asset_type"
    material: Option<string>,
    enhancement: Option<string>,
    rarity: Option<string>,
    power: Option<IntLike>,
    value: Option<IntLike>,
    valueMod: Option<IntLike>)

  /** Python's `a or b` for an optional number or string. */
  function IntLikeOr(a: Option<IntLike>, b: IntLike): IntLike
  {
    if a.Some? && Truthy(a.value) then a.value else b
  }

  /** Clamps a slider value into the range 1 to 10. */
  function Clamp(v: int): (r: int)
    ensures 1 <= r <= 10
    ensures 1 <= v <= 10 ==> r == v
    ensures v < 1 ==> r == 1
    ensures v > 10 ==> r == 10
  {
    if v < 1 then 1 else if v > 10 then 10 else v
  }

  datatype Asset = Asset(title: string, name: string, assetType: string, material: string,
                         enhancement: string, rarity: string, power: int, valueScore: int,
                         bonus: string, numericBonus: int, value: int,
                         description: string, flavor: string)

  /** The normalised item fields: defaulted when missing or empty, then stripped
      and title-cased. */
  function AssetTypeOf(data: AssetRequest): string
  {
    StripTitle(StrOr(data.assetType, StrOr(data.assetTypeAlt, "Weapon")))
  }
  function MaterialOf(data: AssetRequest): string { StripTitle(StrOr(data.material, "Iron")) }
  function EnhancementOf(data: AssetRequest): string { StripTitle(StrOr(data.enhancement, "None")) }
  function RarityOf(data: AssetRequest): string { StripTitle(StrOr(data.rarity, "Common")) }

  /** `int(data.get("power") or 1)` and `int(data.get("value") or data.get("value_mod") or 1)`. */
  function PowerInput(data: AssetRequest): IntLike { IntLikeOr(data.power, IntValue(1)) }
  function SliderInput(data: AssetRequest): IntLike { IntLikeOr(data.value, IntLikeOr(data.valueMod, IntValue(1))) }

  /** The sentence `desc` the flavour starts with:
      f"A {rarity.lower()} {asset_type.lower()} crafted from {material.lower()}." */
  function AssetDescription(rarity: string, assetType: string, material: string): (d: string)
    ensures |d| > 0 && d[0] == 'A' && d[|d| - 1] == '.'
  {
    "A " + Lower(rarity) + " " + Lower(assetType) + " crafted from " + Lower(material) + "."
  }

  /** Stripping a sentence followed by a blank drops just the blank. */
  lemma StripTrailingBlank(d: string)
    requires |d| > 0 && !IsSpace(d[0]) && !IsSpace(d[|d| - 1])
    ensures Strip(d + " ") == d
  {
    var padded := d + " ";
    assert padded[..|padded| - 1] == d;
    assert StripLeft(padded) == padded;
    StripNoop(d);
  }

  /** `(desc + " " + extra).strip()`: the description, then a blank and the
      enhancement's sentence when it has one, and the description alone when
      it has none. */
  function AssetFlavor(rarity: string, assetType: string, material: string, enhancement: string): (f: string)
    ensures ExtraFlavor(enhancement).None? ==> f == AssetDescription(rarity, assetType, material)
    ensures ExtraFlavor(enhancement).Some? ==>
      f == AssetDescription(rarity, assetType, material) + " " + ExtraFlavor(enhancement).value
  {
    var desc := AssetDescription(rarity, assetType, material);
    match ExtraWords(enhancement)
    case None =>
      StripTrailingBlank(desc);
      assert desc + " " + "" == desc + " ";
      Strip(desc + " " + "")
    case Some(w) =>
      var full := desc + " " + Sentence(w);
      assert full[|full| - 1] == Sentence(w)[|w|] && full[0] == desc[0];
      StripNoop(full);
      Strip(full)
  }

  /** The item title: material, item type, "of" and the title word of the
      enhancement, which falls back to "Power". */
  function AssetTitle(material: string, assetType: string, enhancement: string): string
  {
    material + " " + assetType + " of " + ElementTitle(enhancement).GetOr("Power")
  }

  /** The item record built from the normalised fields and the clamped numbers. */
  function ForgeAsset(assetType: string, material: string, enhancement: string, rarity: string,
                      power: int, slider: int,
                      bonusOf: (real, int) -> int, valueOf: (int, real, int) -> int): Asset
  {
    var rarityMult := RarityMultiplier(rarity).GetOr(1.0);
    var baseVal := BaseValue(assetType).GetOr(100);
    var bonus := bonusOf(rarityMult, power);
    var title := AssetTitle(material, assetType, enhancement);
    var flavor := AssetFlavor(rarity, assetType, material, enhancement);
    Asset(title, title, assetType, material, enhancement, rarity, power, slider,
          "+" + IntToDecimal(bonus), bonus, valueOf(baseVal, rarityMult, slider), flavor, flavor)
  }

  /** The forge status line: the seed, the rarity in upper case with the
      item type, and the power, separated by middle dots. */
  function ForgeStatus(seed: int, rarity: string, assetType: string, power: int): string
  {
    "Seed " + IntToDecimal(seed) + (" · " + Upper(rarity) + " " + assetType + " · Power ") + IntToDecimal(power)
  }

  /** The status line reads back: after "Seed " comes the seed's decimal
      form, which parses to the seed, and the line ends with the power's
      decimal form, which parses to the power. */
  lemma ForgeStatusReadBack(seed: int, rarity: string, assetType: string, power: int)
    ensures var st := ForgeStatus(seed, rarity, assetType, power);
      var n := |IntToDecimal(seed)|;
      var m := |IntToDecimal(power)|;
      5 + n <= |st| - m && st[..5] == "Seed "
      && ParseInt(st[5..5 + n]) == Some(seed) && ParseInt(st[|st| - m..]) == Some(power)
  {
    ThreeParts("Seed ", IntToDecimal(seed), " · " + Upper(rarity) + " " + assetType + " · Power ", IntToDecimal(power));
    ParseIntRoundTrip(seed);
    ParseIntRoundTrip(power);
  }

  /** Where the parts of `a + b + c + d` sit. */
  lemma ThreeParts(a: string, b: string, c: string, d: string)
    ensures var s := a + b + c + d;
      s[..|a|] == a && s[|a|..|a| + |b|] == b && s[|s| - |d|..] == d
  {
    var s := a + b + c + d;
    assert s == (a + b) + (c + d);
    assert (a + b)[..|a|] == a;
    assert (a + b)[|a|..] == b;
  }

  /** `build_asset(theme, seed, data)`. The float arithmetic of `bonus` and
      `value` is given as `bonusOf(rarity_mult, power)` and
      `valueOf(base_val, rarity_mult, value_slider)`. The result is a failure
      when `int()` rejects the power or the value input; otherwise it is the
      item and the `forge_status` line. The generator the source seeds at
      this point is never drawn from, so it is not built here. */
  function BuildAsset(theme: string, seed: int, data: AssetRequest,
                      bonusOf: (real, int) -> int, valueOf: (int, real, int) -> int)
    : (r: Result<(Asset, string)>)
    ensures r.Failure? <==> ToInt(PowerInput(data)).None? || ToInt(SliderInput(data)).None?
    ensures r.Success? ==> 1 <= r.value.0.power <= 10 && 1 <= r.value.0.valueScore <= 10
  {
    match (ToInt(PowerInput(data)), ToInt(SliderInput(data)))
    case (None, _) => Failure("invalid literal for int() with base 10")
    case (_, None) => Failure("invalid literal for int() with base 10")
    case (Some(p), Some(v)) =>
      var power := Clamp(p);
      var asset := ForgeAsset(AssetTypeOf(data), MaterialOf(data), EnhancementOf(data), RarityOf(data),
                              power, Clamp(v), bonusOf, valueOf);
      Success((asset, ForgeStatus(seed, RarityOf(data), AssetTypeOf(data), power)))
  }

  /** Power and value inputs are clamped into [1, 10]. A power that is
      missing, zero or empty becomes 1, and so does a value score whose
      `value` and `value_mod` are both missing, zero or empty. */
  lemma AssetClamping(theme: string, seed: int, data: AssetRequest,
                      bonusOf: (real, int) -> int, valueOf: (int, real, int) -> int)
    requires ToInt(PowerInput(data)).Some? && ToInt(SliderInput(data)).Some?
    ensures var a := BuildAsset(theme, seed, data, bonusOf, valueOf).value.0;
      a.power == Clamp(ToInt(PowerInput(data)).value)
      && a.valueScore == Clamp(ToInt(SliderInput(data)).value)
      && (data.power.None? || data.power == Some(StrValue("")) || data.power == Some(IntValue(0)) ==> a.power == 1)
      && (!(data.power.Some? && Truthy(data.power.value)) ==> a.power == 1)
      && ((!(data.value.Some? && Truthy(data.value.value))
           && !(data.valueMod.Some? && Truthy(data.valueMod.value))) ==> a.valueScore == 1)
  {
  }

  /** A capitalised ASCII word is left alone by the normalisation. */
  lemma CapitalisedWordIsNormal(w: string)
    requires Capitalised(w)
    ensures StripTitle(w) == w
  {
    StripNoop(w);
    var t := Title(w);
    forall i | 0 <= i < |w|
      ensures t[i] == w[i]
    {
      if i > 0 {
        assert IsLetter(w[i - 1]);
      }
    }
  }

  /** An upper-case ASCII letter followed by lower-case ones. */
  predicate Capitalised(w: string)
  {
    |w| > 0 && IsUpper(w[0]) && forall i :: 1 <= i < |w| ==> IsLower(w[i])
  }

  /** The four field defaults are capitalised words. */
  lemma DefaultsCapitalised()
    ensures Capitalised("Weapon") && Capitalised("Iron") && Capitalised("None") && Capitalised("Common")
  {
  }

  /** A request in which every field is missing. */
  predicate IsEmptyRequest(data: AssetRequest)
  {
    data.assetType.None? && data.assetTypeAlt.None? && data.material.None? && data.enhancement.None?
    && data.rarity.None? && data.power.None? && data.value.None? && data.valueMod.None?
  }

  /** Missing item fields default to Weapon, Iron, None and Common, and the
      item then reads "Iron Weapon of Power". */
  lemma AssetDefaults(theme: string, seed: int, data: AssetRequest,
                      bonusOf: (real, int) -> int, valueOf: (int, real, int) -> int)
    requires IsEmptyRequest(data)
    ensures BuildAsset(theme, seed, data, bonusOf, valueOf).Success?
    ensures var a := BuildAsset(theme, seed, data, bonusOf, valueOf).value.0;
      a.assetType == "Weapon" && a.material == "Iron" && a.enhancement == "None" && a.rarity == "Common"
      && a.title == "Iron Weapon of Power"
  {
    EmptyRequestForge(theme, seed, data, bonusOf, valueOf);
    DefaultTitle("Weapon", "Iron", "None", "Common");
  }

  /** Without fields the power and value score are 1, and the numbers use the
      Common multiplier 1.0 and the Weapon base value 120. */
  lemma AssetDefaultNumbers(theme: string, seed: int, data: AssetRequest,
                            bonusOf: (real, int) -> int, valueOf: (int, real, int) -> int)
    requires IsEmptyRequest(data)
    ensures BuildAsset(theme, seed, data, bonusOf, valueOf).Success?
    ensures var a := BuildAsset(theme, seed, data, bonusOf, valueOf).value.0;
      a.power == 1 && a.valueScore == 1
      && a.value == valueOf(120, 1.0, 1) && a.numericBonus == bonusOf(1.0, 1)
  {
    EmptyRequestForge(theme, seed, data, bonusOf, valueOf);
    DefaultTitle("Weapon", "Iron", "None", "Common");
  }

  /** A request with no fields forges the default item. */
  lemma EmptyRequestForge(theme: string, seed: int, data: AssetRequest,
                          bonusOf: (real, int) -> int, valueOf: (int, real, int) -> int)
    requires IsEmptyRequest(data)
    ensures BuildAsset(theme, seed, data, bonusOf, valueOf)
      == Success((ForgeAsset("Weapon", "Iron", "None", "Common", 1, 1, bonusOf, valueOf),
                  ForgeStatus(seed, "Common", "Weapon", 1)))
  {
    EmptyRequestFields(data);
  }

  /** The normalised fields of a request with no fields are the defaults. */
  lemma EmptyRequestFields(data: AssetRequest)
    requires IsEmptyRequest(data)
    ensures AssetTypeOf(data) == "Weapon" && MaterialOf(data) == "Iron"
    ensures EnhancementOf(data) == "None" && RarityOf(data) == "Common"
    ensures ToInt(PowerInput(data)) == Some(1) && ToInt(SliderInput(data)) == Some(1)
  {
    DefaultsCapitalised();
    MissingFieldIsDefault(data.assetTypeAlt, "Weapon");
    assert StrOr(data.assetType, StrOr(data.assetTypeAlt, "Weapon")) == StrOr(data.assetTypeAlt, "Weapon");
    MissingFieldIsDefault(data.material, "Iron");
    MissingFieldIsDefault(data.enhancement, "None");
    MissingFieldIsDefault(data.rarity, "Common");
    assert PowerInput(data) == IntValue(1);
    assert SliderInput(data) == IntValue(1);
  }

  /** A missing field normalises to its default when the default is a
      capitalised word. */
  lemma MissingFieldIsDefault(field: Option<string>, default: string)
    requires field.None? && Capitalised(default)
    ensures StripTitle(StrOr(field, default)) == default
  {
    CapitalisedWordIsNormal(default);
  }

  /** The default item's title, multiplier and base value. */
  lemma DefaultTitle(assetType: string, material: string, enhancement: string, rarity: string)
    requires assetType == "Weapon" && material == "Iron" && enhancement == "None" && rarity == "Common"
    ensures AssetTitle(material, assetType, enhancement) == "Iron Weapon of Power"
    ensures RarityMultiplier(rarity) == Some(1.0) && BaseValue(assetType) == Some(120)
  {
  }

  /** Lookups fall back: an unknown rarity uses multiplier 1.0, an unknown type
      base value 100, and an unknown enhancement the title word "Power" and no
      extra flavour, so the flavour is the description sentence alone. */
  lemma AssetFallbacks(theme: string, seed: int, data: AssetRequest,
                       bonusOf: (real, int) -> int, valueOf: (int, real, int) -> int)
    requires ToInt(PowerInput(data)).Some? && ToInt(SliderInput(data)).Some?
    requires RarityMultiplier(RarityOf(data)).None?
    requires BaseValue(AssetTypeOf(data)).None?
    requires ElementTitle(EnhancementOf(data)).None?
    ensures var a := BuildAsset(theme, seed, data, bonusOf, valueOf).value.0;
      a.numericBonus == bonusOf(1.0, a.power)
      && a.value == valueOf(100, 1.0, a.valueScore)
      && a.title == a.material + " " + a.assetType + " of Power"
      && a.flavor == AssetDescription(a.rarity, a.assetType, a.material)
  {
    AssetDerivedFields(theme, seed, data, bonusOf, valueOf);
    UnknownEnhancement(MaterialOf(data), AssetTypeOf(data), EnhancementOf(data));
  }

  /** An enhancement without a title word has no extra sentence either, and
      its title ends in "of Power". */
  lemma UnknownEnhancement(material: string, assetType: string, enhancement: string)
    requires ElementTitle(enhancement).None?
    ensures ExtraFlavor(enhancement).None?
    ensures AssetTitle(material, assetType, enhancement) == material + " " + assetType + " of Power"
  {
  }

  /** The item's fields follow the normalised inputs: the name is the title
      "{material} {type} of {element}", and the numbers come from the rarity
      multiplier and the base value, 1.0 and 100 when the lookup misses. */
  lemma AssetDerivedFields(theme: string, seed: int, data: AssetRequest,
                           bonusOf: (real, int) -> int, valueOf: (int, real, int) -> int)
    requires ToInt(PowerInput(data)).Some? && ToInt(SliderInput(data)).Some?
    ensures var a := BuildAsset(theme, seed, data, bonusOf, valueOf).value.0;
      a.assetType == AssetTypeOf(data) && a.material == MaterialOf(data)
      && a.enhancement == EnhancementOf(data) && a.rarity == RarityOf(data)
      && a.title == AssetTitle(a.material, a.assetType, a.enhancement) && a.name == a.title
      && a.numericBonus == bonusOf(RarityMultiplier(a.rarity).GetOr(1.0), a.power)
      && a.value == valueOf(BaseValue(a.assetType).GetOr(100), RarityMultiplier(a.rarity).GetOr(1.0), a.valueScore)
  {
  }

  /** The bonus text is "+" and the numeric bonus, and the flavour, which is
      also the description, is built from the normalised fields. */
  lemma AssetTextFields(theme: string, seed: int, data: AssetRequest,
                        bonusOf: (real, int) -> int, valueOf: (int, real, int) -> int)
    requires ToInt(PowerInput(data)).Some? && ToInt(SliderInput(data)).Some?
    ensures var a := BuildAsset(theme, seed, data, bonusOf, valueOf).value.0;
      a.bonus == "+" + IntToDecimal(a.numericBonus)
      && a.flavor == a.description == AssetFlavor(RarityOf(data), AssetTypeOf(data), MaterialOf(data), EnhancementOf(data))
  {
  }

  /** Nothing in the item depends on the theme or the seed: only the status
      line mentions the seed. */
  lemma AssetSeedIndependent(t1: string, s1: int, t2: string, s2: int, data: AssetRequest,
                             bonusOf: (real, int) -> int, valueOf: (int, real, int) -> int)
    requires ToInt(PowerInput(data)).Some? && ToInt(SliderInput(data)).Some?
    ensures BuildAsset(t1, s1, data, bonusOf, valueOf).value.0 == BuildAsset(t2, s2, data, bonusOf, valueOf).value.0
  {
  }

  /** One field's normalisation, applied to its own output, gives that output
      back (unless the output is empty, which then takes the default). */
  lemma FieldNormalStable(field: Option<string>, default: string)
    requires StripTitle(StrOr(field, default)) != ""
    ensures StripTitle(StrOr(Some(StripTitle(StrOr(field, default))), default)) == StripTitle(StrOr(field, default))
  {
    StripTitleIdempotent(StrOr(field, default));
  }

  /** Feeding a produced item's fields back into the forge gives the same fields. */
  lemma AssetFieldsStable(data: AssetRequest)
    requires AssetTypeOf(data) != "" && MaterialOf(data) != "" && EnhancementOf(data) != "" && RarityOf(data) != ""
    ensures var d := AssetRequest(Some(AssetTypeOf(data)), None, Some(MaterialOf(data)),
                                  Some(EnhancementOf(data)), Some(RarityOf(data)), data.power, data.value, data.valueMod);
      AssetTypeOf(d) == AssetTypeOf(data) && MaterialOf(d) == MaterialOf(data)
      && EnhancementOf(d) == EnhancementOf(data) && RarityOf(d) == RarityOf(data)
  {
    FieldNormalStable(Some(StrOr(data.assetType, StrOr(data.assetTypeAlt, "Weapon"))), "Weapon");
    FieldNormalStable(data.material, "Iron");
    FieldNormalStable(data.enhancement, "None");
    FieldNormalStable(data.rarity, "Common");
  }
}
