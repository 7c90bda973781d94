/** Deterministic seed derivation (seed_engine.py): one user seed plus the
    theme and size give four 32-bit seeds, one per generator, each read
    from the first eight hex digits of the SHA-256 digest of its own key.
    SHA-256 itself is a parameter. */
module SeedEngine {
  import opened Wrappers
  import opened Text
  import opened Rng

  predicate IsLowerHexChar(c: char) { IsDigit(c) || 'a' <= c <= 'f' }

  /** What `hashlib.sha256(...).hexdigest()` returns: 64 lower-case hex digits. */
  type HexDigest = s: string | |s| == 64 && forall i :: 0 <= i < |s| ==> IsLowerHexChar(s[i])
    witness seq(64, _ => '0')

  /** The SHA-256 digest of a key's UTF-8 bytes, as lower-case hex; a
      parameter of the model. */
  type Sha256 = string -> HexDigest

  /** Every hex digit `int(..., 16)` accepts. */
  predicate IsHexChar(c: char) { IsDigit(c) || 'a' <= c <= 'f' || 'A' <= c <= 'F' }

  predicate AllHex(s: string) { forall i :: 0 <= i < |s| ==> IsHexChar(s[i]) }

  function HexDigitValue(c: char): (d: nat)
    requires IsHexChar(c)
    ensures d < 16
  {
    if IsDigit(c) then c as int - '0' as int
    else if 'a' <= c <= 'f' then c as int - 'a' as int + 10
    else c as int - 'A' as int + 10
  }

  function Pow16(n: nat): (p: nat)
    ensures p >= 1
  {
    if n == 0 then 1 else 16 * Pow16(n - 1)
  }

  /** `int(s, 16)` for a string of hex digits, most significant first. */
  function ParseHex(s: string): nat
    requires AllHex(s)
  {
    if s == [] then 0 else 16 * ParseHex(s[..|s| - 1]) + HexDigitValue(s[|s| - 1])
  }

  /** `k` hex digits hold a value below `16^k`. */
  lemma {:induction false} ParseHexBound(s: string)
    requires AllHex(s)
    ensures ParseHex(s) < Pow16(|s|)
  {
    if s != [] {
      var init := s[..|s| - 1];
      ParseHexBound(init);
      assert ParseHex(s) <= 16 * (Pow16(|init|) - 1) + 15;
    }
  }

  lemma Pow16Values()
    ensures Pow16(8) == 0x1_0000_0000
    ensures Pow16(16) == 0x1_0000_0000_0000_0000
  {
    assert Pow16(4) == 0x1_0000;
    assert Pow16(8) == 0x1_0000 * Pow16(4);
    assert Pow16(12) == 0x1_0000 * Pow16(8);
    assert Pow16(16) == 0x1_0000 * Pow16(12);
  }

  /** The value of the first `k` hex digits of a digest, below `16^k`. */
  function DigestPrefix(h: HexDigest, k: nat): (n: nat)
    requires k <= 64
    ensures n < Pow16(k)
  {
    ParseHexBound(h[..k]);
    ParseHex(h[..k])
  }

  /** `_hash_to_int(key)`: the first 8 hex digits of the key's digest, so a
      32-bit value. */
  function HashToInt(key: string, sha: Sha256): (r: nat)
    ensures r < 0x1_0000_0000
  {
    Pow16Values();
    DigestPrefix(sha(key), 8)
  }

  /** `_hash_to_int` reads the first 8 hex digits and nothing else. */
  lemma HashToIntPrefixOnly(k1: string, k2: string, sha: Sha256)
    requires sha(k1)[..8] == sha(k2)[..8]
    ensures HashToInt(k1, sha) == HashToInt(k2, sha)
  {
  }

  /** A frozen `SeedBundle`. */
  datatype SeedBundle = SeedBundle(base: nat, mapSeed: nat, questSeed: nat, assetSeed: nat)

  /** The theme in lower case; a missing or empty theme is "fantasy". */
  function NormalTheme(theme: Option<string>): string
  {
    Lower(StrOr(theme, "fantasy"))
  }

  /** The size in lower case; a missing or empty size is "small". */
  function NormalSize(size: Option<string>): string
  {
    Lower(StrOr(size, "small"))
  }

  /** The hash key: prefix, theme, size and seed joined by vertical bars. */
  function SeedKey(prefix: string, theme: string, size: string, seed: int): string
  {
    prefix + "|" + theme + "|" + size + "|" + IntToDecimal(seed)
  }

  /** `derive_seeds(theme, size, user_seed)`. The seed goes through `int()`,
      which fails on a string that is not a decimal literal. */
  function DeriveSeeds(theme: Option<string>, size: Option<string>, userSeed: IntLike, sha: Sha256): (r: Result<SeedBundle>)
    ensures r.Failure? <==> ToInt(userSeed).None?
    ensures r.Success? ==>
      r.value.base < 0x1_0000_0000 && r.value.mapSeed < 0x1_0000_0000
      && r.value.questSeed < 0x1_0000_0000 && r.value.assetSeed < 0x1_0000_0000
  {
    match ToInt(userSeed)
    case None => Failure("invalid literal for int() with base 10")
    case Some(n) =>
      var t := NormalTheme(theme);
      var z := NormalSize(size);
      Success(SeedBundle(
        base := HashToInt(SeedKey("base", t, z, n), sha),
        mapSeed := HashToInt(SeedKey("map", t, z, n), sha),
        questSeed := HashToInt(SeedKey("quest", t, z, n), sha),
        assetSeed := HashToInt(SeedKey("asset", t, z, n), sha)))
  }

  /** Each field of the bundle is `_hash_to_int` of the key built from its own
      prefix, the normalised theme, the normalised size and the integer seed;
      the docstring's example key is "map|fantasy|small|734974587". */
  lemma DeriveSeedsKeys(theme: Option<string>, size: Option<string>, userSeed: IntLike, sha: Sha256)
    requires ToInt(userSeed).Some?
    ensures var n := ToInt(userSeed).value;
      var b := DeriveSeeds(theme, size, userSeed, sha).value;
      b.mapSeed == HashToInt(SeedKey("map", NormalTheme(theme), NormalSize(size), n), sha)
      && b.questSeed == HashToInt(SeedKey("quest", NormalTheme(theme), NormalSize(size), n), sha)
      && b.assetSeed == HashToInt(SeedKey("asset", NormalTheme(theme), NormalSize(size), n), sha)
      && b.base == HashToInt(SeedKey("base", NormalTheme(theme), NormalSize(size), n), sha)
  {
  }

  lemma DecimalExample()
    ensures IntToDecimal(734974587) == "734974587"
  {
    assert NatToDecimal(7) == "7";
    assert NatToDecimal(73) == "73";
    assert NatToDecimal(734) == "734";
    assert NatToDecimal(7349) == "7349";
    assert NatToDecimal(73497) == "73497";
    assert NatToDecimal(734974) == "734974";
    assert NatToDecimal(7349745) == "7349745";
    assert NatToDecimal(73497458) == "73497458";
  }

  lemma DefaultsAreLower()
    ensures NormalTheme(None) == "fantasy" && NormalSize(Some("small")) == "small"
  {
    assert Lower("fantasy") == "fantasy";
    assert Lower("small") == "small";
  }

  /** The docstring's example: the map key for ("fantasy", "small", 734974587). */
  lemma ExampleMapKey()
    ensures SeedKey("map", NormalTheme(None), NormalSize(Some("small")), 734974587)
      == "map|fantasy|small|734974587"
  {
    DecimalExample();
    DefaultsAreLower();
    assert SeedKey("map", "fantasy", "small", 734974587)
      == "map" + "|" + "fantasy" + "|" + "small" + "|" + "734974587";
    assert "map" + "|" + "fantasy" == "map|fantasy";
    assert "map|fantasy" + "|" + "small" == "map|fantasy|small";
    assert "map|fantasy|small" + "|" + "734974587" == "map|fantasy|small|734974587";
  }

  /** The four keys differ pairwise, whatever the theme, size and seed. */
  lemma SeedKeysDistinct(theme: string, size: string, seed: int)
    ensures |{SeedKey("base", theme, size, seed), SeedKey("map", theme, size, seed),
              SeedKey("quest", theme, size, seed), SeedKey("asset", theme, size, seed)}| == 4
  {
    var b, m, q, a := SeedKey("base", theme, size, seed), SeedKey("map", theme, size, seed),
                      SeedKey("quest", theme, size, seed), SeedKey("asset", theme, size, seed);
    assert b[0] == 'b' && m[0] == 'm' && q[0] == 'q' && a[0] == 'a';
  }

  /** Theme and size are case-insensitive and default when absent or empty:
      "Fantasy"/"SMALL" give the same bundle as "fantasy"/"small", and
      `None` gives the same bundle as "fantasy"/"small". */
  lemma DeriveSeedsNormalises(theme: string, size: string, userSeed: IntLike, sha: Sha256)
    ensures DeriveSeeds(Some(Lower(theme)), Some(Lower(size)), userSeed, sha)
         == DeriveSeeds(Some(theme), Some(size), userSeed, sha)
    ensures DeriveSeeds(None, None, userSeed, sha) == DeriveSeeds(Some(""), Some(""), userSeed, sha)
         == DeriveSeeds(Some("fantasy"), Some("small"), userSeed, sha)
  {
    LowerIdempotent(theme);
    LowerIdempotent(size);
    assert NormalTheme(Some(Lower(theme))) == NormalTheme(Some(theme));
    assert NormalSize(Some(Lower(size))) == NormalSize(Some(size));
    DeriveSeedsDeterministic(Some(Lower(theme)), Some(Lower(size)), userSeed, Some(theme), Some(size), userSeed, sha);
    DefaultsAreLower();
    assert NormalTheme(Some("fantasy")) == "fantasy" && NormalSize(None) == "small";
    DeriveSeedsDeterministic(None, None, userSeed, Some(""), Some(""), userSeed, sha);
    DeriveSeedsDeterministic(None, None, userSeed, Some("fantasy"), Some("small"), userSeed, sha);
  }

  /** The seed is passed through `int()`, so 5 and "5" derive the same bundle. */
  lemma DeriveSeedsIntOrString(theme: Option<string>, size: Option<string>, n: int, sha: Sha256)
    ensures DeriveSeeds(theme, size, StrValue(IntToDecimal(n)), sha) == DeriveSeeds(theme, size, IntValue(n), sha)
  {
    ParseIntRoundTrip(n);
  }

  /** Equal normalised inputs give equal bundles. */
  lemma DeriveSeedsDeterministic(t1: Option<string>, z1: Option<string>, u1: IntLike,
                                 t2: Option<string>, z2: Option<string>, u2: IntLike, sha: Sha256)
    requires NormalTheme(t1) == NormalTheme(t2) && NormalSize(z1) == NormalSize(z2)
    requires ToInt(u1) == ToInt(u2)
    ensures DeriveSeeds(t1, z1, u1, sha) == DeriveSeeds(t2, z2, u2, sha)
  {
  }

  /** `rng_from_seed(seed)`: a fresh generator at the start of the seed's stream. */
  method RngFromSeed(seed: int, seeder: Seeder) returns (rng: Random)
    ensures fresh(rng)
    ensures rng.stream == seeder(seed) && rng.pos == 0
  {
    rng := new Random(seeder, seed);
  }
}
