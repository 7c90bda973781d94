/** `generate_wfc_world`: wave function collapse over a grid of tile sets.
    The grid of sets is one flat array of `w * h` sets, the cell in column
    `x` of row `y` at index `y * w + x`. */
module Wfc {
  import opened Wrappers
  import opened Rng
  import opened WorldTiles

  /** `WFC_TILES`: the four city tiles. */
  type WfcTile = k: TileKey | k == Road || k == Residential || k == Industrial || k == Park
    witness Road

  /** `set(WFC_TILES)`, every cell's initial possibilities. */
  const AllTiles: set<WfcTile> := {Road, Residential, Industrial, Park}

  /** The four neighbour directions, named as in `WFC_RULES`. */
  datatype Dir = N | S | E | W

  /** The order in which `neighbors(x, y)` yields the directions. */
  const Dirs: seq<Dir> := [N, S, E, W]

  /** The neighbour position in direction `d`: north is one row up. */
  function Neighbour(x: int, y: int, d: Dir): (int, int)
  {
    match d
    case N => (x, y - 1)
    case S => (x, y + 1)
    case E => (x + 1, y)
    case W => (x - 1, y)
  }

  /** `WFC_RULES[t][d]`: the tiles allowed next to `t` in direction `d`.
      The table is the same in every direction. */
  function Rules(t: WfcTile, d: Dir): set<WfcTile>
  {
    if t == Road then AllTiles
    else if t == Industrial then {Road, Industrial}
    else {Road, Residential, Park}
  }

  /** The rules are symmetric: `u` may follow `t` exactly when `t` may follow `u`. */
  lemma RulesSymmetric(t: WfcTile, u: WfcTile, d: Dir, e: Dir)
    ensures u in Rules(t, d) <==> t in Rules(u, e)
  {
  }

  /** The union of the rules of every tile still possible in a cell. */
  function Allowed(current: set<WfcTile>, d: Dir): (r: set<WfcTile>)
    ensures forall u :: u in r <==> exists t :: t in current && u in Rules(t, d)
  {
    set t, u | t in current && u in Rules(t, d) :: u
  }

  /** A road in the cell allows everything next to it, so the full set does. */
  lemma AllowedAll(current: set<WfcTile>, d: Dir)
    requires Road in current
    ensures Allowed(current, d) == AllTiles
  {
    forall u: WfcTile
      ensures u in Allowed(current, d)
    {
      assert u in Rules(Road, d);
    }
  }

  /** A single tile allows exactly its own rule set. */
  lemma AllowedSingle(t: WfcTile, d: Dir)
    ensures Allowed({t}, d) == Rules(t, d)
  {
  }

  /** Adding one tile to a cell adds its rule set. */
  lemma AllowedAdd(done: set<WfcTile>, t: WfcTile, d: Dir)
    ensures Allowed(done + {t}, d) == Allowed(done, d) + Rules(t, d)
  {
    forall u | u in Allowed(done + {t}, d)
      ensures u in Allowed(done, d) + Rules(t, d)
    {
      var s :| s in done + {t} && u in Rules(s, d);
      if s != t {
        assert s in done;
      }
    }
    forall u | u in Allowed(done, d) + Rules(t, d)
      ensures u in Allowed(done + {t}, d)
    {
      if u in Rules(t, d) {
        assert t in done + {t};
      } else {
        var s :| s in done && u in Rules(s, d);
        assert s in done + {t};
      }
    }
  }

  /** The loop `for t in current: allowed |= set(WFC_RULES[t][d1])`; the
      order in which the set is visited is left open. */
  method AllowedBy(current: set<WfcTile>, d: Dir) returns (allowed: set<WfcTile>)
    ensures allowed == Allowed(current, d)
  {
    allowed := {};
    var rest := current;
    while rest != {}
      invariant rest <= current
      invariant allowed == Allowed(current - rest, d)
      decreases |rest|
    {
      var t :| t in rest;
      AllowedAdd(current - rest, t, d);
      assert current - (rest - {t}) == (current - rest) + {t};
      allowed := allowed + Rules(t, d);
      rest := rest - {t};
    }
    assert current - rest == current;
  }

  // ------------------------------------------------------------------
  // Set sizes
  // ------------------------------------------------------------------

  lemma SubsetCard<T>(a: set<T>, b: set<T>)
    requires a <= b
    ensures |a| <= |b|
    ensures a < b ==> |a| < |b|
  {
    var rest := b - a;
    assert b == a + rest && a * rest == {};
    if a < b {
      var t :| t in b && t !in a;
      assert t in rest;
    }
  }

  /** A cell never has more than the four tiles. */
  lemma TileSetSize(st: set<WfcTile>)
    ensures |st| <= 4
  {
    assert st <= AllTiles;
    SubsetCard(st, AllTiles);
  }

  /** The total number of possibilities left over all cells: the measure
      `propagate` decreases. */
  function SumSizes(s: seq<set<WfcTile>>): nat
  {
    if s == [] then 0 else SumSizes(s[..|s| - 1]) + |s[|s| - 1]|
  }

  lemma {:induction false} SumSizesUpdate(s: seq<set<WfcTile>>, i: nat, v: set<WfcTile>)
    requires i < |s|
    ensures SumSizes(s[i := v]) == SumSizes(s) - |s[i]| + |v|
  {
    var t := s[i := v];
    if i == |s| - 1 {
      assert t[..|t| - 1] == s[..|s| - 1];
    } else {
      assert t[..|t| - 1] == s[..|s| - 1][i := v];
      SumSizesUpdate(s[..|s| - 1], i, v);
    }
  }

  lemma {:induction false} SumSizesMono(s: seq<set<WfcTile>>, t: seq<set<WfcTile>>)
    requires |s| == |t| && forall i :: 0 <= i < |s| ==> t[i] <= s[i]
    ensures SumSizes(t) <= SumSizes(s)
  {
    if s != [] {
      SubsetCard(t[|t| - 1], s[|s| - 1]);
      SumSizesMono(s[..|s| - 1], t[..|t| - 1]);
    }
  }

  /** A round of collapse then propagation lowers the total size: the
      collapsed cell lost at least one tile and propagation only shrinks. */
  lemma RoundShrinks(before: seq<set<WfcTile>>, collapsed: seq<set<WfcTile>>, after: seq<set<WfcTile>>, i: nat)
    requires i < |before| == |collapsed| && |before[i]| >= 2 && |collapsed[i]| == 1 && collapsed == before[i := collapsed[i]]
    requires |after| == |collapsed| && forall j :: 0 <= j < |after| ==> after[j] <= collapsed[j]
    ensures SumSizes(after) < SumSizes(before)
  {
    SumSizesUpdate(before, i, collapsed[i]);
    SumSizesMono(collapsed, after);
  }

  lemma {:induction false} SumSizesNonEmpty(s: seq<set<WfcTile>>)
    requires forall i :: 0 <= i < |s| ==> s[i] != {}
    ensures SumSizes(s) >= |s|
  {
    if s != [] {
      SumSizesNonEmpty(s[..|s| - 1]);
    }
  }

  lemma {:induction false} SumSizesFull(s: seq<set<WfcTile>>)
    requires forall i :: 0 <= i < |s| ==> s[i] == AllTiles
    ensures SumSizes(s) == 4 * |s|
  {
    if s != [] {
      SumSizesFull(s[..|s| - 1]);
    }
  }

  // ------------------------------------------------------------------
  // Grid positions, consistency and the solved state
  // ------------------------------------------------------------------

  /** A cell of the grid lies in the flat array. */
  lemma IndexInRange(x: nat, y: nat, w: nat, h: nat)
    requires x < w && y < h
    ensures y * w + x < w * h
  {
    MulMono(y + 1, h, w);
  }

  /** Distinct cells have distinct indices. */
  lemma DistinctIndex(x1: nat, y1: nat, x2: nat, y2: nat, w: nat)
    requires x1 < w && x2 < w && (x1 != x2 || y1 != y2)
    ensures y1 * w + x1 != y2 * w + x2
  {
    if y1 * w + x1 == y2 * w + x2 {
      RowMajorUnique(x1, y1, x2, y2, w);
    }
  }

  /** The possibilities of cell (x, y), empty outside the grid. */
  function At(s: seq<set<WfcTile>>, w: nat, x: int, y: int): set<WfcTile>
  {
    if 0 <= x < w && 0 <= y * w + x < |s| then s[y * w + x] else {}
  }

  /** The neighbour of (x, y) in direction `d`, when inside the grid, keeps
      only tiles that (x, y)'s possibilities allow there. */
  ghost predicate DirConsistent(s: seq<set<WfcTile>>, w: nat, h: nat, x: int, y: int, d: Dir)
  {
    var (nx, ny) := Neighbour(x, y, d);
    0 <= nx < w && 0 <= ny < h ==> At(s, w, nx, ny) <= Allowed(At(s, w, x, y), d)
  }

  /** A non-empty cell constrains all four of its neighbours; an empty one
      constrains nothing. */
  ghost predicate CellConsistent(s: seq<set<WfcTile>>, w: nat, h: nat, x: int, y: int)
  {
    At(s, w, x, y) != {} ==> forall d :: DirConsistent(s, w, h, x, y, d)
  }

  /** The fixed point `propagate` reaches. */
  ghost predicate ArcConsistent(s: seq<set<WfcTile>>, w: nat, h: nat)
  {
    forall x, y :: 0 <= x < w && 0 <= y < h ==> CellConsistent(s, w, h, x, y)
  }

  /** Every cell has exactly one tile left and the grid is arc consistent. */
  ghost predicate Solved(s: seq<set<WfcTile>>, w: nat, h: nat)
  {
    (forall i :: 0 <= i < |s| ==> |s[i]| == 1) && ArcConsistent(s, w, h)
  }

  /** Every set of city tiles is a subset of the full set. */
  lemma WithinAllTiles(st: set<WfcTile>)
    ensures st <= AllTiles
  {
  }

  /** The initial grid, every cell holding every tile, is arc consistent. */
  lemma FullGridConsistent(s: seq<set<WfcTile>>, w: nat, h: nat)
    requires forall i :: 0 <= i < |s| ==> s[i] == AllTiles
    ensures ArcConsistent(s, w, h)
  {
    forall x, y | 0 <= x < w && 0 <= y < h
      ensures CellConsistent(s, w, h, x, y)
    {
      FullCellConsistent(s, w, h, x, y);
    }
  }

  lemma FullCellConsistent(s: seq<set<WfcTile>>, w: nat, h: nat, x: int, y: int)
    requires forall i :: 0 <= i < |s| ==> s[i] == AllTiles
    ensures CellConsistent(s, w, h, x, y)
  {
    var c := At(s, w, x, y);
    if c != {} {
      assert c == AllTiles;
      forall d
        ensures DirConsistent(s, w, h, x, y, d)
      {
        AllowedAll(c, d);
        var (nx, ny) := Neighbour(x, y, d);
        WithinAllTiles(At(s, w, nx, ny));
      }
    }
  }

  // ------------------------------------------------------------------
  // propagate
  // ------------------------------------------------------------------

  /** The grid after the neighbour of (x, y) in direction `d`, when inside
      the grid, keeps only what `current` allows there. */
  ghost function ConstrainedDir(s: seq<set<WfcTile>>, w: nat, h: nat, x: int, y: int, current: set<WfcTile>, d: Dir): seq<set<WfcTile>>
  {
    ConstrainedAt(s, w, h, Neighbour(x, y, d).0, Neighbour(x, y, d).1, Allowed(current, d))
  }

  /** The grid after cell (nx, ny), when inside the grid, keeps only `allowed`. */
  ghost function ConstrainedAt(s: seq<set<WfcTile>>, w: nat, h: nat, nx: int, ny: int, allowed: set<WfcTile>): seq<set<WfcTile>>
  {
    if 0 <= nx < w && 0 <= ny < h && 0 <= ny * w + nx < |s| then
      s[ny * w + nx := s[ny * w + nx] * allowed]
    else s
  }

  /** The grid after the first `k` directions of `Dirs`, all constrained by
      the same set `current`. */
  ghost function ConstrainedDirs(s: seq<set<WfcTile>>, w: nat, h: nat, x: int, y: int, current: set<WfcTile>, k: nat): (r: seq<set<WfcTile>>)
    requires k <= |Dirs|
    ensures |r| == |s|
  {
    if k == 0 then s
    else ConstrainedDir(ConstrainedDirs(s, w, h, x, y, current, k - 1), w, h, x, y, current, Dirs[k - 1])
  }

  /** The body of the cell loop for (x, y): an empty cell is skipped,
      otherwise its four neighbours are constrained in turn by the set the
      cell holds. */
  ghost function ConstrainedCell(s: seq<set<WfcTile>>, w: nat, h: nat, x: int, y: int): (r: seq<set<WfcTile>>)
    ensures |r| == |s|
  {
    var current := At(s, w, x, y);
    if current == {} then s else ConstrainedDirs(s, w, h, x, y, current, 4)
  }

  /** Row `y` after its first `k` cells, left to right. */
  ghost function ConstrainedRow(s: seq<set<WfcTile>>, w: nat, h: nat, y: int, k: nat): (r: seq<set<WfcTile>>)
    ensures |r| == |s|
  {
    if k == 0 then s
    else ConstrainedCell(ConstrainedRow(s, w, h, y, k - 1), w, h, k - 1, y)
  }

  /** The first `k` rows of one sweep, top to bottom, each over all `w` cells. */
  ghost function ConstrainedRows(s: seq<set<WfcTile>>, w: nat, h: nat, k: nat): (r: seq<set<WfcTile>>)
    ensures |r| == |s|
  {
    if k == 0 then s
    else ConstrainedRow(ConstrainedRows(s, w, h, k - 1), w, h, k - 1, w)
  }

  /** `n` full sweeps of the grid. */
  ghost function Sweeps(s: seq<set<WfcTile>>, w: nat, h: nat, n: nat): (r: seq<set<WfcTile>>)
    ensures |r| == |s|
  {
    if n == 0 then s
    else ConstrainedRows(Sweeps(s, w, h, n - 1), w, h, h)
  }

  /** `keys` picks, for every cell, a tile the cell still allows. */
  ghost predicate Fits(keys: seq<WfcTile>, s: seq<set<WfcTile>>)
  {
    |keys| == |s| && forall j :: 0 <= j < |s| ==> keys[j] in s[j]
  }

  /** Going from `before` to `after` removes no tile that a tiling obeying
      the rules uses: every such tiling that fits `before` fits `after`. */
  ghost predicate KeepsTilings(before: seq<set<WfcTile>>, after: seq<set<WfcTile>>, w: nat, h: nat)
  {
    forall keys :: ValidTiling(keys, w, h) && Fits(keys, before) ==> Fits(keys, after)
  }

  /** Constraining one neighbour by a set that holds the tile a valid tiling
      puts at (x, y) keeps that tiling: the rules allow its neighbour tile. */
  lemma ConstrainedDirKeeps(s: seq<set<WfcTile>>, keys: seq<WfcTile>, w: nat, h: nat, x: nat, y: nat, current: set<WfcTile>, d: Dir)
    requires |s| == w * h && x < w && y < h
    requires ValidTiling(keys, w, h) && Fits(keys, s)
    requires KeyAt(keys, w, x, y) in current
    ensures Fits(keys, ConstrainedDir(s, w, h, x, y, current, d))
  {
    var (nx, ny) := Neighbour(x, y, d);
    if 0 <= nx < w && 0 <= ny < h && 0 <= ny * w + nx < |s| {
      var ni := ny * w + nx;
      var t := KeyAt(keys, w, x, y);
      assert PairValid(keys, w, h, x, y, d);
      assert keys[ni] == KeyAt(keys, w, nx, ny);
      AllowedHas(current, t, keys[ni], d);
      FitsUpdate(keys, s, ni, s[ni] * Allowed(current, d));
    }
  }

  /** A tile allowed by one tile of a cell is allowed by the cell. */
  lemma AllowedHas(current: set<WfcTile>, t: WfcTile, u: WfcTile, d: Dir)
    requires t in current && u in Rules(t, d)
    ensures u in Allowed(current, d)
  {
  }

  /** Replacing one cell by a set that still holds its key keeps the fit. */
  lemma FitsUpdate(keys: seq<WfcTile>, s: seq<set<WfcTile>>, j: nat, t: set<WfcTile>)
    requires Fits(keys, s) && j < |s| && keys[j] in t
    ensures Fits(keys, s[j := t])
  {
  }

  lemma {:induction false} ConstrainedDirsKeeps(s: seq<set<WfcTile>>, keys: seq<WfcTile>, w: nat, h: nat, x: nat, y: nat, current: set<WfcTile>, k: nat)
    requires |s| == w * h && x < w && y < h && k <= |Dirs|
    requires ValidTiling(keys, w, h) && Fits(keys, s)
    requires KeyAt(keys, w, x, y) in current
    ensures Fits(keys, ConstrainedDirs(s, w, h, x, y, current, k))
  {
    if k > 0 {
      ConstrainedDirsKeeps(s, keys, w, h, x, y, current, k - 1);
      ConstrainedDirKeeps(ConstrainedDirs(s, w, h, x, y, current, k - 1), keys, w, h, x, y, current, Dirs[k - 1]);
    }
  }

  /** The cell loop body for (x, y) keeps every valid tiling. */
  lemma ConstrainedCellKeeps(s: seq<set<WfcTile>>, w: nat, h: nat, x: nat, y: nat)
    requires |s| == w * h && x < w && y < h
    ensures KeepsTilings(s, ConstrainedCell(s, w, h, x, y), w, h)
  {
    IndexInRange(x, y, w, h);
    forall keys | ValidTiling(keys, w, h) && Fits(keys, s)
      ensures Fits(keys, ConstrainedCell(s, w, h, x, y))
    {
      var current := At(s, w, x, y);
      if current != {} {
        assert KeyAt(keys, w, x, y) == keys[y * w + x];
        ConstrainedDirsKeeps(s, keys, w, h, x, y, current, 4);
      }
    }
  }

  /** Every prefix of a row pass keeps every valid tiling. */
  lemma {:induction false} ConstrainedRowKeeps(s: seq<set<WfcTile>>, w: nat, h: nat, y: nat, k: nat)
    requires |s| == w * h && y < h && k <= w
    ensures KeepsTilings(s, ConstrainedRow(s, w, h, y, k), w, h)
  {
    if k > 0 {
      ConstrainedRowKeeps(s, w, h, y, k - 1);
      ConstrainedCellKeeps(ConstrainedRow(s, w, h, y, k - 1), w, h, k - 1, y);
    }
  }

  /** Every prefix of a sweep keeps every valid tiling. */
  lemma {:induction false} ConstrainedRowsKeeps(s: seq<set<WfcTile>>, w: nat, h: nat, k: nat)
    requires |s| == w * h && k <= h
    ensures KeepsTilings(s, ConstrainedRows(s, w, h, k), w, h)
  {
    if k > 0 {
      ConstrainedRowsKeeps(s, w, h, k - 1);
      ConstrainedRowKeeps(ConstrainedRows(s, w, h, k - 1), w, h, k - 1, w);
    }
  }

  /** Any number of sweeps keeps every valid tiling: propagation only
      removes tiles that no rule-obeying completion of the grid can use. */
  lemma {:induction false} SweepsKeep(s: seq<set<WfcTile>>, w: nat, h: nat, n: nat)
    requires |s| == w * h
    ensures KeepsTilings(s, Sweeps(s, w, h, n), w, h)
  {
    if n > 0 {
      SweepsKeep(s, w, h, n - 1);
      ConstrainedRowsKeeps(Sweeps(s, w, h, n - 1), w, h, h);
    }
  }

  /** The body of `propagate`'s loops for one cell (x, y): every neighbour
      inside the grid is intersected with what the cell allows. Sets only
      shrink; when a set changed the total size dropped, and when none did
      the cell is consistent with its neighbours. */
  method ConstrainNeighbours(a: array<set<WfcTile>>, w: nat, h: nat, x: nat, y: nat) returns (changed: bool)
    requires a.Length == w * h && x < w && y < h
    modifies a
    ensures forall j :: 0 <= j < a.Length ==> a[j] <= old(a[j])
    ensures changed ==> SumSizes(a[..]) < SumSizes(old(a[..]))
    ensures !changed ==> a[..] == old(a[..]) && CellConsistent(a[..], w, h, x, y)
    ensures a[..] == ConstrainedCell(old(a[..]), w, h, x, y)
  {
    IndexInRange(x, y, w, h);
    var i := y * w + x;
    assert At(a[..], w, x, y) == a[i];
    changed := false;
    if a[i] == {} {
      return;
    }
    assert ConstrainedCell(a[..], w, h, x, y) == ConstrainedDirs(a[..], w, h, x, y, a[i], 4);
    changed := ConstrainFour(a, w, h, x, y, i);
    if !changed {
      forall d
        ensures DirConsistent(a[..], w, h, x, y, d)
      {
        assert d == Dirs[0] || d == Dirs[1] || d == Dirs[2] || d == Dirs[3];
      }
    }
  }

  /** The loop over the four directions of a cell, read from its set before
      the loop. */
  method ConstrainFour(a: array<set<WfcTile>>, w: nat, h: nat, x: nat, y: nat, i: nat) returns (changed: bool)
    requires a.Length == w * h && x < w && y < h && i == y * w + x && i < a.Length
    modifies a
    ensures forall j :: 0 <= j < a.Length ==> a[j] <= old(a[j])
    ensures changed ==> SumSizes(a[..]) < SumSizes(old(a[..]))
    ensures !changed ==> a[..] == old(a[..]) && forall k :: 0 <= k < 4 ==> DirConsistent(a[..], w, h, x, y, Dirs[k])
    ensures a[..] == ConstrainedDirs(old(a[..]), w, h, x, y, old(a[i]), 4)
  {
    var current := a[i];
    changed := false;
    for k := 0 to 4
      invariant a[i] == current
      invariant a[..] == ConstrainedDirs(old(a[..]), w, h, x, y, current, k)
      invariant forall j :: 0 <= j < a.Length ==> a[j] <= old(a[j])
      invariant changed ==> SumSizes(a[..]) < SumSizes(old(a[..]))
      invariant !changed ==> a[..] == old(a[..])
      invariant !changed ==> forall j :: 0 <= j < k ==> DirConsistent(a[..], w, h, x, y, Dirs[j])
    {
      ghost var before := a[..];
      var c := ConstrainDir(a, w, h, x, y, i, Dirs[k]);
      SumSizesMono(before, a[..]);
      changed := changed || c;
    }
  }

  /** One direction of the cell loop: the neighbour of (x, y) in direction
      `d`, when inside the grid, is intersected with what (x, y) allows. */
  method ConstrainDir(a: array<set<WfcTile>>, w: nat, h: nat, x: nat, y: nat, i: nat, d: Dir) returns (changed: bool)
    requires a.Length == w * h && x < w && y < h && i == y * w + x && i < a.Length
    modifies a
    ensures a[i] == old(a[i])
    ensures forall j :: 0 <= j < a.Length ==> a[j] <= old(a[j])
    ensures changed ==> SumSizes(a[..]) < SumSizes(old(a[..]))
    ensures !changed ==> a[..] == old(a[..]) && DirConsistent(a[..], w, h, x, y, d)
    ensures a[..] == ConstrainedDir(old(a[..]), w, h, x, y, old(a[i]), d)
  {
    var (nx, ny) := Neighbour(x, y, d);
    if 0 <= nx < w && 0 <= ny < h {
      IndexInRange(nx, ny, w, h);
      DistinctIndex(nx, ny, x, y, w);
      var ni := ny * w + nx;
      ghost var before := a[..];
      assert ConstrainedDir(before, w, h, x, y, a[i], d) == before[ni := before[ni] * Allowed(a[i], d)];
      changed := NarrowBy(a, i, ni, d);
      if !changed {
        NeighbourConsistent(a[..], w, h, x, y, d, i, ni);
      }
    } else {
      changed := false;
    }
  }

  /** A neighbour inside the grid that already holds only what (x, y)
      allows makes the pair consistent. */
  lemma NeighbourConsistent(s: seq<set<WfcTile>>, w: nat, h: nat, x: nat, y: nat, d: Dir, i: nat, ni: nat)
    requires x < w && i == y * w + x && i < |s|
    requires 0 <= Neighbour(x, y, d).0 < w && 0 <= Neighbour(x, y, d).1 < h
    requires ni == Neighbour(x, y, d).1 * w + Neighbour(x, y, d).0 && ni < |s|
    requires s[ni] <= Allowed(s[i], d)
    ensures DirConsistent(s, w, h, x, y, d)
  {
    var (nx, ny) := Neighbour(x, y, d);
    assert At(s, w, nx, ny) == s[ni] && At(s, w, x, y) == s[i];
  }

  /** Cell `j` keeps only what cell `i` allows next to it in direction `d`. */
  method NarrowBy(a: array<set<WfcTile>>, i: nat, j: nat, d: Dir) returns (changed: bool)
    requires i < a.Length && j < a.Length && i != j
    modifies a
    ensures a[..] == old(a[..])[j := old(a[j]) * Allowed(old(a[i]), d)]
    ensures forall k :: 0 <= k < a.Length ==> a[k] <= old(a[k])
    ensures a[i] == old(a[i])
    ensures changed ==> SumSizes(a[..]) < SumSizes(old(a[..]))
    ensures !changed ==> a[..] == old(a[..]) && a[j] <= Allowed(a[i], d)
  {
    var allowed := AllowedBy(a[i], d);
    changed := Narrow(a, j, allowed);
  }

  /** The intersection step of the cell loop: cell `j` keeps only what
      `allowed` permits, and it is a change exactly when that removes
      something, which lowers the total size. */
  method Narrow(a: array<set<WfcTile>>, j: nat, allowed: set<WfcTile>) returns (changed: bool)
    requires j < a.Length
    modifies a
    ensures a[..] == old(a[..])[j := old(a[j]) * allowed]
    ensures changed <==> old(a[j]) * allowed != old(a[j])
    ensures changed ==> SumSizes(a[..]) < SumSizes(old(a[..]))
    ensures !changed ==> a[..] == old(a[..]) && a[j] <= allowed
  {
    var opts := a[j];
    var narrowed := opts * allowed;
    changed := narrowed != opts;
    if changed {
      SubsetCard(narrowed, opts);
      SumSizesUpdate(a[..], j, narrowed);
      a[j] := narrowed;
    } else {
      assert a[..] == a[..][j := narrowed];
    }
  }

  /** `propagate()`: sweep the grid until a sweep changes nothing. Every set
      only shrinks, the total size strictly drops in every sweep that
      changes something (so the loop ends), and on exit the grid is arc
      consistent. */
  method Propagate(a: array<set<WfcTile>>, w: nat, h: nat)
    requires a.Length == w * h
    modifies a
    ensures forall j :: 0 <= j < a.Length ==> a[j] <= old(a[j])
    ensures ArcConsistent(a[..], w, h)
    ensures exists n :: a[..] == Sweeps(old(a[..]), w, h, n)
    ensures KeepsTilings(old(a[..]), a[..], w, h)
  {
    var changed := true;
    ghost var n := 0;
    while changed
      invariant forall j :: 0 <= j < a.Length ==> a[j] <= old(a[j])
      invariant !changed ==> ArcConsistent(a[..], w, h)
      invariant a[..] == Sweeps(old(a[..]), w, h, n)
      decreases SumSizes(a[..]) + (if changed then 1 else 0)
    {
      changed := Sweep(a, w, h);
      n := n + 1;
    }
    SweepsKeep(old(a[..]), w, h, n);
  }

  /** One pass of `propagate()`'s loop over the rows. */
  method Sweep(a: array<set<WfcTile>>, w: nat, h: nat) returns (changed: bool)
    requires a.Length == w * h
    modifies a
    ensures forall j :: 0 <= j < a.Length ==> a[j] <= old(a[j])
    ensures changed ==> SumSizes(a[..]) < SumSizes(old(a[..]))
    ensures !changed ==> a[..] == old(a[..]) && ArcConsistent(a[..], w, h)
    ensures a[..] == ConstrainedRows(old(a[..]), w, h, h)
  {
    changed := false;
    for y := 0 to h
      invariant a[..] == ConstrainedRows(old(a[..]), w, h, y)
      invariant forall j :: 0 <= j < a.Length ==> a[j] <= old(a[j])
      invariant changed ==> SumSizes(a[..]) < SumSizes(old(a[..]))
      invariant !changed ==> a[..] == old(a[..])
      invariant !changed ==> forall yy, xx :: 0 <= yy < y && 0 <= xx < w ==> CellConsistent(a[..], w, h, xx, yy)
    {
      ghost var before := a[..];
      assert ConstrainedRows(old(a[..]), w, h, y + 1) == ConstrainedRow(before, w, h, y, w);
      var c := SweepRow(a, w, h, y);
      SumSizesMono(before, a[..]);
      changed := changed || c;
    }
  }

  /** The pass over the cells of row `y`. */
  method SweepRow(a: array<set<WfcTile>>, w: nat, h: nat, y: nat) returns (changed: bool)
    requires a.Length == w * h && y < h
    modifies a
    ensures forall j :: 0 <= j < a.Length ==> a[j] <= old(a[j])
    ensures changed ==> SumSizes(a[..]) < SumSizes(old(a[..]))
    ensures !changed ==> a[..] == old(a[..]) && forall xx :: 0 <= xx < w ==> CellConsistent(a[..], w, h, xx, y)
    ensures a[..] == ConstrainedRow(old(a[..]), w, h, y, w)
  {
    changed := false;
    for x := 0 to w
      invariant a[..] == ConstrainedRow(old(a[..]), w, h, y, x)
      invariant forall j :: 0 <= j < a.Length ==> a[j] <= old(a[j])
      invariant changed ==> SumSizes(a[..]) < SumSizes(old(a[..]))
      invariant !changed ==> a[..] == old(a[..])
      invariant !changed ==> forall xx :: 0 <= xx < x ==> CellConsistent(a[..], w, h, xx, y)
    {
      ghost var before := a[..];
      assert ConstrainedRow(old(a[..]), w, h, y, x + 1) == ConstrainedCell(before, w, h, x, y);
      var c := ConstrainNeighbours(a, w, h, x, y);
      SumSizesMono(before, a[..]);
      changed := changed || c;
    }
  }

  // ------------------------------------------------------------------
  // collapse
  // ------------------------------------------------------------------

  /** `min_entropy` after scanning the first `n` cells: the smallest size
      other than one seen so far, starting from 999. */
  function MinEntropy(s: seq<set<WfcTile>>, n: nat): nat
    requires n <= |s|
  {
    if n == 0 then 999
    else
      var m := MinEntropy(s, n - 1);
      var l := |s[n - 1]|;
      if l != 1 && l < m then l else m
  }

  /** `coords` after scanning the first `n` cells, as indices: reset on a new
      minimum, extended on a tie, singletons skipped. */
  function Candidates(s: seq<set<WfcTile>>, n: nat): seq<nat>
    requires n <= |s|
  {
    if n == 0 then []
    else
      var c := Candidates(s, n - 1);
      var m := MinEntropy(s, n - 1);
      var l := |s[n - 1]|;
      if l == 1 then c
      else if l < m then [n - 1]
      else if l == m then c + [n - 1]
      else c
  }

  /** The scan keeps exactly the cells, among the first `n`, whose size is
      not one and equals the smallest such size. */
  lemma {:induction false} CandidatesSpec(s: seq<set<WfcTile>>, n: nat)
    requires n <= |s|
    requires forall i :: 0 <= i < |s| ==> |s[i]| < 999
    ensures forall j :: 0 <= j < n && |s[j]| != 1 ==> MinEntropy(s, n) <= |s[j]|
    ensures MinEntropy(s, n) == 999 <==> forall j :: 0 <= j < n ==> |s[j]| == 1
    ensures Candidates(s, n) == [] <==> MinEntropy(s, n) == 999
    ensures forall i :: i in Candidates(s, n) <==> 0 <= i < n && |s[i]| != 1 && |s[i]| == MinEntropy(s, n)
  {
    if n > 0 {
      CandidatesSpec(s, n - 1);
    }
  }

  /** With no empty cell, `collapse` finds nothing to do exactly when every
      cell has a single tile; any cell it picks has at least two. */
  lemma CandidatesWhenNoneEmpty(s: seq<set<WfcTile>>)
    requires forall i :: 0 <= i < |s| ==> s[i] != {}
    ensures Candidates(s, |s|) == [] <==> forall i :: 0 <= i < |s| ==> |s[i]| == 1
    ensures forall i :: i in Candidates(s, |s|) ==> i < |s| && |s[i]| >= 2
  {
    forall i | 0 <= i < |s|
      ensures |s[i]| < 999
    {
      TileSetSize(s[i]);
    }
    CandidatesSpec(s, |s|);
    if Candidates(s, |s|) != [] {
      var i := Candidates(s, |s|)[0];
      assert i in Candidates(s, |s|);
    }
  }

  /** `list(opts)`: the tiles of a set in some order. */
  method ListOf(st: set<WfcTile>) returns (xs: seq<WfcTile>)
    ensures forall t :: t in xs <==> t in st
  {
    xs := [];
    var rest := st;
    while rest != {}
      invariant rest <= st
      invariant forall t :: t in xs <==> t in st - rest
      decreases |rest|
    {
      var t :| t in rest;
      xs := xs + [t];
      rest := rest - {t};
    }
  }

  /** One cell of the scan: a singleton is skipped, a smaller size starts
      the list afresh, an equal size joins it. */
  method ScanCell(a: array<set<WfcTile>>, i: nat, minEntropy: nat, coords: seq<nat>)
    returns (minEntropy': nat, coords': seq<nat>)
    requires i < a.Length
    requires minEntropy == MinEntropy(a[..], i) && coords == Candidates(a[..], i)
    ensures minEntropy' == MinEntropy(a[..], i + 1) && coords' == Candidates(a[..], i + 1)
  {
    var l := |a[i]|;
    minEntropy', coords' := minEntropy, coords;
    if l != 1 {
      if l < minEntropy {
        minEntropy', coords' := l, [i];
      } else if l == minEntropy {
        coords' := coords + [i];
      }
    }
  }

  /** The scan at the start of `collapse()`: the cells of least size other
      than one, in row-major order. */
  method LeastEntropyCells(a: array<set<WfcTile>>, w: nat, h: nat) returns (coords: seq<nat>)
    requires a.Length == w * h
    ensures coords == Candidates(a[..], a.Length)
  {
    coords := [];
    var minEntropy := 999;
    for y := 0 to h
      invariant y * w <= a.Length
      invariant minEntropy == MinEntropy(a[..], y * w) && coords == Candidates(a[..], y * w)
    {
      MulMono(y + 1, h, w);
      assert (y + 1) * w == y * w + w;
      minEntropy, coords := ScanRow(a, y * w, w, minEntropy, coords);
    }
  }

  /** The scan over one row: the `w` cells from index `row` on. */
  method ScanRow(a: array<set<WfcTile>>, row: nat, w: nat, minEntropy: nat, coords: seq<nat>)
    returns (minEntropy': nat, coords': seq<nat>)
    requires row + w <= a.Length
    requires minEntropy == MinEntropy(a[..], row) && coords == Candidates(a[..], row)
    ensures minEntropy' == MinEntropy(a[..], row + w) && coords' == Candidates(a[..], row + w)
  {
    minEntropy', coords' := minEntropy, coords;
    for x := 0 to w
      invariant minEntropy' == MinEntropy(a[..], row + x) && coords' == Candidates(a[..], row + x)
    {
      minEntropy', coords' := ScanCell(a, row + x, minEntropy', coords');
    }
  }

  /** `collapse()`. Without an empty cell: it returns false, changing
      nothing, exactly when every cell has a single tile; otherwise it
      picks one of the row-major list of cells of least size above one with
      the next draw, and sets that cell to one of its own tiles, chosen by
      the draw after. */
  method Collapse(a: array<set<WfcTile>>, w: nat, h: nat, rng: Random) returns (progress: bool)
    requires a.Length == w * h
    requires forall i :: 0 <= i < a.Length ==> a[i] != {}
    modifies a, rng
    ensures !progress <==> forall i :: 0 <= i < a.Length ==> |old(a[i])| == 1
    ensures !progress ==> a[..] == old(a[..]) && rng.pos == old(rng.pos)
    ensures progress ==>
      var c := Candidates(old(a[..]), a.Length);
      |c| > 0 && rng.pos == old(rng.pos) + 2
      && var i := c[rng.stream(old(rng.pos)) % |c|];
      i < a.Length && |old(a[i])| >= 2 && |a[i]| == 1 && a[i] <= old(a[i])
      && a[..] == old(a[..])[i := a[i]]
  {
    ghost var s := a[..];
    var coords := LeastEntropyCells(a, w, h);
    CandidatesWhenNoneEmpty(s);
    if coords == [] {
      return false;
    }
    var i := rng.Choice(coords);
    assert i in Candidates(s, |s|);
    var opts := ListOf(a[i]);
    var choice := rng.Choice(opts);
    a[i] := {choice};
    return true;
  }

  /** The contradiction check: whether any cell has no tile left, row by row. */
  method HasEmpty(a: array<set<WfcTile>>) returns (found: bool)
    ensures found <==> exists i :: 0 <= i < a.Length && a[i] == {}
  {
    for i := 0 to a.Length
      invariant forall j :: 0 <= j < i ==> a[j] != {}
    {
      if |a[i]| == 0 {
        return true;
      }
    }
    return false;
  }

  // ------------------------------------------------------------------
  // The restart loop
  // ------------------------------------------------------------------

  /** One round of an attempt: collapse, propagate, then the contradiction
      check. A grid with nothing left to collapse is solved; otherwise the
      round either finds an empty cell or leaves a consistent grid with no
      empty cell and a smaller total size. */
  method Round(a: array<set<WfcTile>>, w: nat, h: nat, rng: Random) returns (progress: bool, empty: bool)
    requires a.Length == w * h
    requires forall i :: 0 <= i < a.Length ==> a[i] != {}
    requires ArcConsistent(a[..], w, h)
    modifies a, rng
    ensures !progress ==> Solved(a[..], w, h)
    ensures progress && empty ==> exists i :: 0 <= i < a.Length && a[i] == {}
    ensures progress && !empty ==>
      (forall i :: 0 <= i < a.Length ==> a[i] != {}) && ArcConsistent(a[..], w, h)
      && SumSizes(a[..]) < SumSizes(old(a[..]))
  {
    ghost var before := a[..];
    progress := Collapse(a, w, h, rng);
    empty := false;
    if !progress {
      assert a[..] == before;
      return;
    }
    ghost var collapsed := a[..];
    ghost var i :| 0 <= i < a.Length && |before[i]| >= 2 && |collapsed[i]| == 1 && collapsed == before[i := collapsed[i]];
    Propagate(a, w, h);
    RoundShrinks(before, collapsed, a[..], i);
    empty := HasEmpty(a);
  }

  /** One attempt of the restart loop: from the full grid, at most
      `w * h * 4` rounds. The total size drops in every round, so the round
      limit is never what ends an attempt: it ends solved, or with an empty
      cell. */
  method Attempt(w: nat, h: nat, rng: Random) returns (a: array<set<WfcTile>>, ok: bool)
    modifies rng
    ensures fresh(a) && a.Length == w * h
    ensures ok ==> Solved(a[..], w, h)
    ensures !ok ==> exists i :: 0 <= i < a.Length && a[i] == {}
  {
    var n := w * h;
    a := new set<WfcTile>[n](_ => AllTiles);
    SumSizesFull(a[..]);
    FullGridConsistent(a[..], w, h);
    ok := true;
    var step := 0;
    while step < n * 4
      invariant a.Length == n
      invariant forall i :: 0 <= i < a.Length ==> a[i] != {}
      invariant ArcConsistent(a[..], w, h)
      invariant SumSizes(a[..]) + step <= 4 * n
    {
      var progress, empty := Round(a, w, h, rng);
      if !progress {
        return;
      }
      if empty {
        ok := false;
        return;
      }
      step := step + 1;
    }
    SumSizesNonEmpty(a[..]);
  }

  /** The restart loop: up to eight attempts. When it reports success the
      grid is solved: one tile per cell, consistent with the rules. When all
      eight attempts failed, the grid left has an empty cell. */
  method RunWfc(w: nat, h: nat, rng: Random) returns (a: array<set<WfcTile>>, ok: bool)
    modifies rng
    ensures fresh(a) && a.Length == w * h
    ensures ok ==> Solved(a[..], w, h)
    ensures !ok ==> exists i :: 0 <= i < a.Length && a[i] == {}
  {
    a := new set<WfcTile>[w * h](_ => AllTiles);
    ok := false;
    for attempt := 0 to 8
      invariant fresh(a) && a.Length == w * h && !ok
      invariant attempt > 0 ==> exists i :: 0 <= i < a.Length && a[i] == {}
    {
      a, ok := Attempt(w, h, rng);
      if ok {
        break;
      }
    }
  }

  // ------------------------------------------------------------------
  // Final choice and output
  // ------------------------------------------------------------------

  /** The final choice per cell: "road" for an empty cell, otherwise one of
      its tiles (`list(opts)[0]`, in an order left open). */
  method ChooseTiles(a: array<set<WfcTile>>) returns (keys: seq<WfcTile>)
    ensures |keys| == a.Length
    ensures forall i :: 0 <= i < a.Length ==> (a[i] == {} ==> keys[i] == Road) && (a[i] != {} ==> keys[i] in a[i])
  {
    keys := [];
    for i := 0 to a.Length
      invariant |keys| == i
      invariant forall j :: 0 <= j < i ==> (a[j] == {} ==> keys[j] == Road) && (a[j] != {} ==> keys[j] in a[j])
    {
      var k: WfcTile;
      if a[i] == {} {
        k := Road;
      } else {
        k :| k in a[i];
      }
      keys := keys + [k];
    }
  }

  /** The tile chosen for (x, y). */
  function KeyAt(keys: seq<WfcTile>, w: nat, x: int, y: int): WfcTile
  {
    if 0 <= x < w && 0 <= y * w + x < |keys| then keys[y * w + x] else Road
  }

  /** The cell function of a city map: the chosen tile, named by its key. */
  function CityLayout(keys: seq<WfcTile>, w: nat): (f: (int, int) -> Cell)
  {
    (x: int, y: int) => BaseCell(KeyAt(keys, w, x, y), x, y, Some(KeyName(KeyAt(keys, w, x, y))))
  }

  /** The tile at (x, y) allows the tile of its neighbour in direction `d`,
      when that neighbour is inside the grid. */
  ghost predicate PairValid(keys: seq<WfcTile>, w: nat, h: nat, x: int, y: int, d: Dir)
  {
    0 <= Neighbour(x, y, d).0 < w && 0 <= Neighbour(x, y, d).1 < h ==>
      KeyAt(keys, w, Neighbour(x, y, d).0, Neighbour(x, y, d).1) in Rules(KeyAt(keys, w, x, y), d)
  }

  /** Every pair of neighbouring tiles obeys `WFC_RULES`. */
  ghost predicate ValidTiling(keys: seq<WfcTile>, w: nat, h: nat)
  {
    forall x, y, d :: 0 <= x < w && 0 <= y < h ==> PairValid(keys, w, h, x, y, d)
  }

  /** Reading off a solved grid gives a tiling that obeys the rules. */
  lemma SolvedGivesValidTiling(s: seq<set<WfcTile>>, keys: seq<WfcTile>, w: nat, h: nat)
    requires |s| == w * h && |keys| == |s| && Solved(s, w, h)
    requires forall i :: 0 <= i < |s| ==> keys[i] in s[i]
    ensures ValidTiling(keys, w, h)
  {
    forall x, y, d | 0 <= x < w && 0 <= y < h
      ensures PairValid(keys, w, h, x, y, d)
    {
      if 0 <= Neighbour(x, y, d).0 < w && 0 <= Neighbour(x, y, d).1 < h {
        SolvedPair(s, keys, w, h, x, y, d);
      }
    }
  }

  lemma SolvedPair(s: seq<set<WfcTile>>, keys: seq<WfcTile>, w: nat, h: nat, x: nat, y: nat, d: Dir)
    requires |s| == w * h && |keys| == |s| && Solved(s, w, h)
    requires forall i :: 0 <= i < |s| ==> keys[i] in s[i]
    requires x < w && y < h && 0 <= Neighbour(x, y, d).0 < w && 0 <= Neighbour(x, y, d).1 < h
    ensures KeyAt(keys, w, Neighbour(x, y, d).0, Neighbour(x, y, d).1) in Rules(KeyAt(keys, w, x, y), d)
  {
    var (nx, ny) := Neighbour(x, y, d);
    SolvedCell(s, keys, w, h, x, y);
    SolvedCell(s, keys, w, h, nx, ny);
    assert CellConsistent(s, w, h, x, y);
    NeighbourAllowed(s, keys, w, h, x, y, d);
  }

  lemma NeighbourAllowed(s: seq<set<WfcTile>>, keys: seq<WfcTile>, w: nat, h: nat, x: nat, y: nat, d: Dir)
    requires At(s, w, x, y) == {KeyAt(keys, w, x, y)}
    requires DirConsistent(s, w, h, x, y, d)
    requires 0 <= Neighbour(x, y, d).0 < w && 0 <= Neighbour(x, y, d).1 < h
    requires At(s, w, Neighbour(x, y, d).0, Neighbour(x, y, d).1) == {KeyAt(keys, w, Neighbour(x, y, d).0, Neighbour(x, y, d).1)}
    ensures KeyAt(keys, w, Neighbour(x, y, d).0, Neighbour(x, y, d).1) in Rules(KeyAt(keys, w, x, y), d)
  {
    AllowedSingle(KeyAt(keys, w, x, y), d);
  }

  /** In a solved grid a cell holds exactly the tile read off it. */
  lemma SolvedCell(s: seq<set<WfcTile>>, keys: seq<WfcTile>, w: nat, h: nat, x: nat, y: nat)
    requires |s| == w * h && |keys| == |s|
    requires forall i :: 0 <= i < |s| ==> |s[i]| == 1 && keys[i] in s[i]
    requires x < w && y < h
    ensures At(s, w, x, y) == {KeyAt(keys, w, x, y)}
  {
    IndexInRange(x, y, w, h);
    var i := y * w + x;
    SingletonOf(s[i], keys[i]);
  }

  lemma SingletonOf(st: set<WfcTile>, t: WfcTile)
    requires |st| == 1 && t in st
    ensures st == {t}
  {
    SubsetCard({t}, st);
  }

  /** `generate_wfc_world(theme, size, seed)`. The map is the preset grid in
      row-major order, each cell showing the tile chosen for it and named by
      its key; `solved` tells whether an attempt succeeded, and then every
      pair of neighbouring tiles obeys the rules. */
  method GenerateWfc(size: string, seed: int, seeder: Seeder)
    returns (columns: nat, cells: seq<Cell>, ghost keys: seq<WfcTile>, ghost solved: bool)
    ensures columns == PickSize(size).0
    ensures |keys| == PickSize(size).0 * PickSize(size).1
    ensures GridOf(cells, PickSize(size).0, PickSize(size).1, CityLayout(keys, PickSize(size).0))
    ensures solved ==> ValidTiling(keys, PickSize(size).0, PickSize(size).1)
  {
    var (w, h) := PickSize(size);
    columns := w;
    var rng := new Random(seeder, seed);
    var a, ok := RunWfc(w, h, rng);
    var chosen := ChooseTiles(a);
    if ok {
      forall i | 0 <= i < a.Length
        ensures a[i] != {}
      {
        assert |a[i]| == 1;
      }
      SolvedGivesValidTiling(a[..], chosen, w, h);
    }
    keys, solved := chosen, ok;
    var shown := CityLayout(chosen, w);
    assert Positioned(shown);
    cells := BuildGrid(w, h, shown);
  }
}
