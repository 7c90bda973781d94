/** `generate_voronoi_world`: random region centres, then every cell takes
    the biome of the nearest centre by integer squared distance, the first
    centre winning ties. */
module Voronoi {
  import opened Wrappers
  import opened Rng
  import opened WorldTiles

  /** The biomes a region can take, in table order. */
  const BiomeKeys: seq<TileKey> := [Grass, Forest, Mountain, Water, Town, Ruins]

  /** The initial `best_dist`: a centre this far away or farther is never taken. */
  const FarAway: int := 999999

  /** One region centre `(cx, cy, biome_key)`. */
  datatype Centre = Centre(cx: int, cy: int, key: TileKey)

  /** The squared distance from a centre to (x, y). */
  function SqDist(c: Centre, x: int, y: int): int
  {
    (c.cx - x) * (c.cx - x) + (c.cy - y) * (c.cy - y)
  }

  /** The state of the search loop after the first `n` centres: the index of
      the centre taken so far, if any, and `best_dist`. */
  function Scan(cs: seq<Centre>, x: int, y: int, n: nat): (r: (Option<nat>, int))
    requires n <= |cs|
    ensures r.0.Some? ==> r.0.value < n
  {
    if n == 0 then (None, FarAway)
    else
      var prev := Scan(cs, x, y, n - 1);
      var d := SqDist(cs[n - 1], x, y);
      if d < prev.1 then (Some(n - 1), d) else prev
  }

  /** The biome key of the nearest centre, `None` when no centre is nearer than `FarAway`. */
  function Nearest(cs: seq<Centre>, x: int, y: int): Option<TileKey>
  {
    match Scan(cs, x, y, |cs|).0
    case None => None
    case Some(i) => Some(cs[i].key)
  }

  /** Centre `i` is nearer than `FarAway`, strictly nearer than every earlier
      centre and no farther than any later one. */
  ghost predicate FirstClosest(cs: seq<Centre>, x: int, y: int, i: int)
  {
    0 <= i < |cs| && SqDist(cs[i], x, y) < FarAway
    && (forall j :: 0 <= j < i ==> SqDist(cs[j], x, y) > SqDist(cs[i], x, y))
    && (forall j :: i < j < |cs| ==> SqDist(cs[j], x, y) >= SqDist(cs[i], x, y))
  }

  /** What the search loop computes over the first `n` centres. */
  lemma {:induction false} ScanSpec(cs: seq<Centre>, x: int, y: int, n: nat)
    requires n <= |cs|
    ensures Scan(cs, x, y, n).0.None? <==> forall j :: 0 <= j < n ==> SqDist(cs[j], x, y) >= FarAway
    ensures Scan(cs, x, y, n).0.None? ==> Scan(cs, x, y, n).1 == FarAway
    ensures Scan(cs, x, y, n).0.Some? ==>
      var i := Scan(cs, x, y, n).0.value;
      Scan(cs, x, y, n).1 == SqDist(cs[i], x, y) < FarAway
      && (forall j :: 0 <= j < i ==> SqDist(cs[j], x, y) > SqDist(cs[i], x, y))
      && (forall j :: i < j < n ==> SqDist(cs[j], x, y) >= SqDist(cs[i], x, y))
  {
    if n > 0 {
      ScanSpec(cs, x, y, n - 1);
    }
  }

  /** The nearest-centre search returns the key of the first closest centre,
      and `None` exactly when every centre is at least `FarAway` away (in
      particular when there are no centres). */
  lemma NearestSpec(cs: seq<Centre>, x: int, y: int)
    ensures Nearest(cs, x, y).None? <==> forall j :: 0 <= j < |cs| ==> SqDist(cs[j], x, y) >= FarAway
    ensures Nearest(cs, x, y).Some? ==>
      exists i :: FirstClosest(cs, x, y, i) && cs[i].key == Nearest(cs, x, y).value
  {
    ScanSpec(cs, x, y, |cs|);
    if Scan(cs, x, y, |cs|).0.Some? {
      var i := Scan(cs, x, y, |cs|).0.value;
      assert FirstClosest(cs, x, y, i);
    }
  }

  /** At most one centre is the first closest, so the characterisation
      above determines the result. */
  lemma FirstClosestUnique(cs: seq<Centre>, x: int, y: int, i: nat, j: nat)
    requires FirstClosest(cs, x, y, i) && FirstClosest(cs, x, y, j)
    ensures i == j
  {
  }

  /** Among centres at the same distance the earliest is taken. */
  lemma TieGoesToFirst(cs: seq<Centre>, x: int, y: int, i: nat, j: nat)
    requires i < j < |cs| && SqDist(cs[i], x, y) == SqDist(cs[j], x, y)
    ensures !FirstClosest(cs, x, y, j)
  {
  }

  /** `nearest` loop over the centres, with `best` and `best_dist`. */
  method NearestCentre(cs: seq<Centre>, x: int, y: int) returns (best: Option<TileKey>)
    ensures best == Nearest(cs, x, y)
  {
    best := None;
    var bestDist := FarAway;
    for n := 0 to |cs|
      invariant bestDist == Scan(cs, x, y, n).1
      invariant best == match Scan(cs, x, y, n).0 case None => None case Some(i) => Some(cs[i].key)
    {
      var c := cs[n];
      var d := SqDist(c, x, y);
      if d < bestDist {
        bestDist := d;
        best := Some(c.key);
      }
    }
  }

  /** No map is large enough for a centre inside it to be `FarAway` from a cell. */
  lemma InGridCentreIsNear(c: Centre, x: int, y: int, w: nat, h: nat)
    requires w <= 32 && h <= 20
    requires 0 <= c.cx < w && 0 <= c.cy < h && 0 <= x < w && 0 <= y < h
    ensures SqDist(c, x, y) < FarAway
  {
    var dx, dy := c.cx - x, c.cy - y;
    assert -32 < dx < 32 && -20 < dy < 20;
    assert dx * dx <= 32 * 32 by { SquareBound(dx, 32); }
    assert dy * dy <= 20 * 20 by { SquareBound(dy, 20); }
  }

  lemma SquareBound(a: int, b: int)
    requires -b <= a <= b
    ensures a * a <= b * b
  {
    var m := if a < 0 then -a else a;
    assert a * a == m * m;
    assert m * m <= m * b <= b * b;
  }

  /** A cell's payload: the nearest centre's tile and key, or grass with no
      biome when there is none. */
  function VoronoiCell(best: Option<TileKey>, x: int, y: int): Cell
  {
    match best
    case None => BaseCell(Grass, x, y, None)
    case Some(k) => BaseCell(k, x, y, Some(KeyName(k)))
  }

  /** The centre drawn at stream position `p`: `randint(0, w-1)`,
      `randint(0, h-1)`, then `choice(BIOME_KEYS)`. */
  function CentreDraw(s: Stream, p: nat, w: nat, h: nat): (c: Centre)
    requires w > 0 && h > 0
    ensures 0 <= c.cx < w && 0 <= c.cy < h && c.key in BiomeKeys
  {
    Centre(s(p) % w, s(p + 1) % h, BiomeKeys[s(p + 2) % |BiomeKeys|])
  }

  /** The centres a fresh generator on stream `s` places. */
  function VoronoiCentres(s: Stream, w: nat, h: nat, regions: nat): (cs: seq<Centre>)
    requires w > 0 && h > 0
    ensures |cs| == regions
    ensures forall i :: 0 <= i < regions ==> cs[i] == CentreDraw(s, 3 * i, w, h)
  {
    seq(regions, i requires 0 <= i < regions => CentreDraw(s, 3 * i, w, h))
  }

  /** The centre loop: three draws per region. */
  method PlaceCentres(rng: Random, w: nat, h: nat, regions: nat) returns (cs: seq<Centre>)
    requires w > 0 && h > 0
    modifies rng
    ensures rng.pos == old(rng.pos) + 3 * regions
    ensures |cs| == regions
    ensures forall i :: 0 <= i < regions ==> cs[i] == CentreDraw(rng.stream, old(rng.pos) + 3 * i, w, h)
  {
    cs := [];
    for n := 0 to regions
      invariant rng.pos == old(rng.pos) + 3 * n && |cs| == n
      invariant forall i :: 0 <= i < n ==> cs[i] == CentreDraw(rng.stream, old(rng.pos) + 3 * i, w, h)
    {
      var cx := rng.RandInt(0, w - 1);
      var cy := rng.RandInt(0, h - 1);
      var key := rng.Choice(BiomeKeys);
      cs := cs + [Centre(cx, cy, key)];
    }
  }

  /** The cell function of the map whose centres are `cs`. */
  function VoronoiLayout(cs: seq<Centre>): (f: (int, int) -> Cell)
  {
    (x: int, y: int) => VoronoiCell(Nearest(cs, x, y), x, y)
  }

  lemma VoronoiLayoutPositioned(cs: seq<Centre>)
    ensures Positioned(VoronoiLayout(cs))
  {
  }

  /** `generate_voronoi_world(theme, size, seed, regions)`: `grid_columns` is
      the preset width and the map is the preset grid in row-major order, each
      cell the payload for the nearest of the centres the seeded generator
      places. */
  method GenerateVoronoi(size: string, seed: int, seeder: Seeder, regions: nat)
    returns (columns: nat, cells: seq<Cell>)
    ensures columns == PickSize(size).0
    ensures GridOf(cells, PickSize(size).0, PickSize(size).1,
                   VoronoiLayout(VoronoiCentres(seeder(seed), PickSize(size).0, PickSize(size).1, regions)))
  {
    var (w, h) := PickSize(size);
    columns := w;
    var rng := new Random(seeder, seed);
    var centres := PlaceCentres(rng, w, h, regions);
    assert centres == VoronoiCentres(seeder(seed), w, h, regions);
    cells := ShowVoronoi(centres, w, h);
  }

  /** The body of the cell loop: the nearest-centre loop, then the payload
      of its result. */
  method VoronoiPayload(centres: seq<Centre>, x: int, y: int) returns (c: Cell)
    ensures c == VoronoiLayout(centres)(x, y)
  {
    var best := NearestCentre(centres, x, y);
    c := VoronoiCell(best, x, y);
  }

  /** The cell loop: for each cell, row by row, the nearest-centre loop and
      the payload of its result. */
  method ShowVoronoi(centres: seq<Centre>, w: nat, h: nat) returns (cells: seq<Cell>)
    ensures GridOf(cells, w, h, VoronoiLayout(centres))
  {
    ghost var f := VoronoiLayout(centres);
    VoronoiLayoutPositioned(centres);
    cells := [];
    for y := 0 to h
      invariant |cells| == y * w && RowMajorGrid(cells, w, h, f)
    {
      ghost var row := y * w;
      for x := 0 to w
        invariant |cells| == row + x && RowMajorGrid(cells, w, h, f)
      {
        var c := VoronoiPayload(centres, x, y);
        GridAppend(cells, w, h, x, y, f);
        cells := cells + [c];
      }
      assert (y + 1) * w == row + w;
    }
  }

  /** With no regions every cell is grass with no biome. */
  lemma NoRegionsIsGrass(x: int, y: int)
    ensures VoronoiLayout([])(x, y) == BaseCell(Grass, x, y, None)
  {
    NearestSpec([], x, y);
  }

  /** With at least one centre inside a preset-sized map, every cell of the
      map is named after the key of its first closest centre. */
  lemma CentresCoverTheMap(cs: seq<Centre>, w: nat, h: nat, x: int, y: int)
    requires w <= 32 && h <= 20 && 0 <= x < w && 0 <= y < h
    requires |cs| > 0 && forall i :: 0 <= i < |cs| ==> 0 <= cs[i].cx < w && 0 <= cs[i].cy < h
    ensures exists i :: (FirstClosest(cs, x, y, i)
      && VoronoiLayout(cs)(x, y) == BaseCell(cs[i].key, x, y, Some(KeyName(cs[i].key))))
  {
    InGridCentreIsNear(cs[0], x, y, w, h);
    NearestSpec(cs, x, y);
    var i :| FirstClosest(cs, x, y, i) && cs[i].key == Nearest(cs, x, y).value;
    assert VoronoiLayout(cs)(x, y) == BaseCell(cs[i].key, x, y, Some(KeyName(cs[i].key)));
  }

  /** On the map `GenerateVoronoi` builds with at least one region, every
      cell is named after one of the seeded centres, so its key is one of
      `BiomeKeys` and its biome is given: the grass fallback never shows. */
  lemma SeededCentresCoverTheMap(s: Stream, size: string, regions: nat, x: int, y: int)
    requires regions >= 1
    requires 0 <= x < PickSize(size).0 && 0 <= y < PickSize(size).1
    ensures var cs := VoronoiCentres(s, PickSize(size).0, PickSize(size).1, regions);
      exists k :: k in BiomeKeys && VoronoiLayout(cs)(x, y) == BaseCell(k, x, y, Some(KeyName(k)))
  {
    var (w, h) := PickSize(size);
    PickSizeBounds(size);
    var cs := VoronoiCentres(s, w, h, regions);
    CentresCoverTheMap(cs, w, h, x, y);
    var i :| FirstClosest(cs, x, y, i)
      && VoronoiLayout(cs)(x, y) == BaseCell(cs[i].key, x, y, Some(KeyName(cs[i].key)));
    assert cs[i] == CentreDraw(s, 3 * i, w, h);
  }
}
