/** `generate_cellular_world`: a random wall/floor grid smoothed five times
    by the cave rule, then shown as rock and dungeon tiles. The grid is an
    `array2` indexed `[y, x]` with `h` rows and `w` columns; the rule itself
    is specified on the value of the grid, a sequence of rows. */
module Cellular {
  import opened Wrappers
  import opened WorldTiles

  /** The value of a grid: a sequence of rows, `true` for a wall. */
  type Grid = seq<seq<bool>>

  /** `s` has `h` rows of `w` cells each. */
  predicate IsGrid(s: Grid, w: nat, h: nat)
  {
    |s| == h && forall y :: 0 <= y < h ==> |s[y]| == w
  }

  /** Whether (x, y) counts as a wall: cells outside the grid do. */
  function Wall(s: Grid, x: int, y: int): bool
  {
    if 0 <= y < |s| && 0 <= x < |s[y]| then s[y][x] else true
  }

  function Count(b: bool): nat
  {
    if b then 1 else 0
  }

  /** The number of walls among the eight neighbours of (x, y). */
  function NeighborWalls(s: Grid, x: int, y: int): (n: nat)
    ensures n <= 8
  {
    Count(Wall(s, x - 1, y - 1)) + Count(Wall(s, x, y - 1)) + Count(Wall(s, x + 1, y - 1))
    + Count(Wall(s, x - 1, y)) + Count(Wall(s, x + 1, y))
    + Count(Wall(s, x - 1, y + 1)) + Count(Wall(s, x, y + 1)) + Count(Wall(s, x + 1, y + 1))
  }

  /** What the neighbour at offset (dx, dy) adds to the count: nothing for
      the cell itself, one for a wall. */
  function Contribution(s: Grid, x: int, y: int, dx: int, dy: int): nat
  {
    if dx == 0 && dy == 0 then 0 else Count(Wall(s, x + dx, y + dy))
  }

  /** The count over the first `n` offsets `dx` of the row `dy`, in the order
      of the loop `for dx in (-1, 0, 1)`. */
  function RowCount(s: Grid, x: int, y: int, dy: int, n: nat): nat
    requires n <= 3
  {
    if n == 0 then 0 else RowCount(s, x, y, dy, n - 1) + Contribution(s, x, y, n - 2, dy)
  }

  /** The count over the first `r` rows of the loop `for dy in (-1, 0, 1)`. */
  function RowsCount(s: Grid, x: int, y: int, r: nat): nat
    requires r <= 3
  {
    if r == 0 then 0 else RowsCount(s, x, y, r - 1) + RowCount(s, x, y, r - 2, 3)
  }

  /** A full row of the inner loop adds its three offsets. */
  lemma RowCountFull(s: Grid, x: int, y: int, dy: int)
    ensures RowCount(s, x, y, dy, 3)
      == Contribution(s, x, y, -1, dy) + Contribution(s, x, y, 0, dy) + Contribution(s, x, y, 1, dy)
  {
    assert RowCount(s, x, y, dy, 1) == Contribution(s, x, y, -1, dy);
    assert RowCount(s, x, y, dy, 2) == RowCount(s, x, y, dy, 1) + Contribution(s, x, y, 0, dy);
  }

  /** Running both loops to the end counts the eight neighbours. */
  lemma RowsCountAll(s: Grid, x: int, y: int)
    ensures RowsCount(s, x, y, 3) == NeighborWalls(s, x, y)
  {
    RowCountFull(s, x, y, -1);
    RowCountFull(s, x, y, 0);
    RowCountFull(s, x, y, 1);
    assert RowsCount(s, x, y, 1) == RowCount(s, x, y, -1, 3);
    assert RowsCount(s, x, y, 2) == RowsCount(s, x, y, 1) + RowCount(s, x, y, 0, 3);
  }

  /** The cave rule for one cell: a wall stays a wall with at least four wall
      neighbours, a floor becomes a wall with more than four. */
  function StepCell(s: Grid, x: int, y: int): bool
  {
    if Wall(s, x, y) then NeighborWalls(s, x, y) >= 4 else NeighborWalls(s, x, y) > 4
  }

  /** One smoothing pass over the whole grid. */
  function Step(s: Grid): (t: Grid)
    ensures |t| == |s| && forall y :: 0 <= y < |s| ==> |t[y]| == |s[y]|
    ensures forall y, x :: 0 <= y < |s| && 0 <= x < |s[y]| ==> t[y][x] == StepCell(s, x, y)
  {
    seq(|s|, y requires 0 <= y < |s| => seq(|s[y]|, x requires 0 <= x < |s[y]| => StepCell(s, x, y)))
  }

  /** `k` smoothing passes. */
  function Smoothed(s: Grid, k: nat): (t: Grid)
    ensures |t| == |s| && forall y :: 0 <= y < |s| ==> |t[y]| == |s[y]|
  {
    if k == 0 then s else Step(Smoothed(s, k - 1))
  }

  /** A corner has at least five neighbours outside the grid, so after a
      smoothing pass every corner of a non-empty grid is a wall. */
  lemma CornerIsWall(s: Grid, w: nat, h: nat, x: int, y: int)
    requires IsGrid(s, w, h) && w > 0 && h > 0
    requires (x == 0 || x == w - 1) && (y == 0 || y == h - 1)
    ensures NeighborWalls(s, x, y) >= 5
    ensures StepCell(s, x, y)
  {
    if x == 0 {
      assert Wall(s, x - 1, y - 1) && Wall(s, x - 1, y) && Wall(s, x - 1, y + 1);
    } else {
      assert Wall(s, x + 1, y - 1) && Wall(s, x + 1, y) && Wall(s, x + 1, y + 1);
    }
    if y == 0 {
      assert Wall(s, x - 1, y - 1) && Wall(s, x, y - 1) && Wall(s, x + 1, y - 1);
    } else {
      assert Wall(s, x - 1, y + 1) && Wall(s, x, y + 1) && Wall(s, x + 1, y + 1);
    }
  }

  /** After one or more passes the four corners are walls. */
  lemma SmoothedCorners(s: Grid, w: nat, h: nat, k: nat)
    requires IsGrid(s, w, h) && w > 0 && h > 0 && k > 0
    ensures var t := Smoothed(s, k); t[0][0] && t[0][w - 1] && t[h - 1][0] && t[h - 1][w - 1]
  {
    var p := Smoothed(s, k - 1);
    assert IsGrid(p, w, h);
    CornerIsWall(p, w, h, 0, 0);
    CornerIsWall(p, w, h, w - 1, 0);
    CornerIsWall(p, w, h, 0, h - 1);
    CornerIsWall(p, w, h, w - 1, h - 1);
  }

  /** The value of an array grid. */
  function Snapshot(g: array2<bool>): (s: Grid)
    reads g
    ensures IsGrid(s, g.Length1, g.Length0)
    ensures forall y, x :: 0 <= y < g.Length0 && 0 <= x < g.Length1 ==> s[y][x] == g[y, x]
  {
    seq(g.Length0, y requires 0 <= y < g.Length0 reads g =>
      seq(g.Length1, x requires 0 <= x < g.Length1 reads g => g[y, x]))
  }

  /** Two grids with the same shape and the same cells are equal. */
  lemma GridExt(s: Grid, t: Grid, w: nat, h: nat)
    requires IsGrid(s, w, h) && IsGrid(t, w, h)
    requires forall y, x :: 0 <= y < h && 0 <= x < w ==> s[y][x] == t[y][x]
    ensures s == t
  {
    forall y | 0 <= y < h
      ensures s[y] == t[y]
    {
      assert forall x :: 0 <= x < w ==> s[y][x] == t[y][x];
    }
  }

  /** Counts the walls among the eight neighbours of (x, y). */
  method WallNeighbors(g: array2<bool>, x: int, y: int) returns (c: nat)
    ensures c == NeighborWalls(Snapshot(g), x, y)
  {
    ghost var s := Snapshot(g);
    c := 0;
    for dy := -1 to 2
      invariant c == RowsCount(s, x, y, dy + 1)
    {
      for dx := -1 to 2
        invariant c == RowsCount(s, x, y, dy + 1) + RowCount(s, x, y, dy, dx + 1)
      {
        if dx == 0 && dy == 0 {
          continue;
        }
        var nx, ny := x + dx, y + dy;
        if nx < 0 || nx >= g.Length1 || ny < 0 || ny >= g.Length0 {
          c := c + 1;
        } else if g[ny, nx] {
          c := c + 1;
        }
      }
    }
    RowsCountAll(s, x, y);
  }

  /** The body of the smoothing loop: the cave rule for cell (x, y). */
  method NextCell(g: array2<bool>, x: nat, y: nat) returns (next: bool)
    requires y < g.Length0 && x < g.Length1
    ensures next == StepCell(Snapshot(g), x, y)
  {
    var walls := WallNeighbors(g, x, y);
    if g[y, x] {
      next := walls >= 4;
    } else {
      next := walls > 4;
    }
  }

  /** One pass of the smoothing loop: a new grid filled cell by cell. */
  method SmoothStep(g: array2<bool>) returns (n: array2<bool>)
    ensures fresh(n)
    ensures n.Length0 == g.Length0 && n.Length1 == g.Length1
    ensures Snapshot(n) == Step(Snapshot(g))
  {
    ghost var s := Snapshot(g);
    var w, h := g.Length1, g.Length0;
    n := new bool[h, w]((_, _) => false);
    for y := 0 to h
      invariant forall yy, xx :: 0 <= yy < y && 0 <= xx < w ==> n[yy, xx] == StepCell(s, xx, yy)
    {
      SmoothRow(g, n, y);
    }
    GridExt(Snapshot(n), Step(s), w, h);
  }

  /** Row `y` of a smoothing pass, written into `n`; the other rows of `n`
      are left as they were. */
  method SmoothRow(g: array2<bool>, n: array2<bool>, y: nat)
    requires n != g && n.Length0 == g.Length0 && n.Length1 == g.Length1 && y < g.Length0
    modifies n
    ensures forall xx :: 0 <= xx < n.Length1 ==> n[y, xx] == StepCell(Snapshot(g), xx, y)
    ensures forall yy, xx :: 0 <= yy < n.Length0 && yy != y && 0 <= xx < n.Length1 ==> n[yy, xx] == old(n[yy, xx])
  {
    ghost var s := Snapshot(g);
    for x := 0 to n.Length1
      invariant forall xx :: 0 <= xx < x ==> n[y, xx] == StepCell(s, xx, y)
      invariant forall yy, xx :: 0 <= yy < n.Length0 && yy != y && 0 <= xx < n.Length1 ==> n[yy, xx] == old(n[yy, xx])
    {
      var next := NextCell(g, x, y);
      n[y, x] := next;
    }
  }

  /** The initial grid: cell (x, y) is the `(y * w + x)`-th coin of the
      seeded generator, `rng.random() < 0.45` drawn row by row. */
  function InitialGrid(coins: nat -> bool, w: nat, h: nat): (s: Grid)
    ensures IsGrid(s, w, h)
  {
    seq(h, y requires 0 <= y < h => seq(w, x requires 0 <= x < w => coins(y * w + x)))
  }

  /** A wall is shown as mountain with biome "rock", a floor as dungeon. */
  function CaveCell(wall: bool, x: int, y: int): Cell
  {
    if wall then BaseCell(Mountain, x, y, Some("rock")) else BaseCell(Dungeon, x, y, Some("dungeon"))
  }

  /** The cell function of the map shown from the grid `s`. */
  function CaveLayout(s: Grid): (f: (int, int) -> Cell)
  {
    (x: int, y: int) => CaveCell(Wall(s, x, y), x, y)
  }

  /** `generate_cellular_world(theme, size, seed)`. Whether the `k`-th
      `rng.random()` of the generator seeded with `seed` is below 0.45 is
      `fill(seed)(k)`. The map is the preset grid in row-major order, showing
      the initial grid after five smoothing passes. */
  method GenerateCellular(size: string, seed: int, fill: int -> (nat -> bool))
    returns (columns: nat, cells: seq<Cell>)
    ensures columns == PickSize(size).0
    ensures var (w, h) := PickSize(size);
      GridOf(cells, w, h, CaveLayout(Smoothed(InitialGrid(fill(seed), w, h), 5)))
  {
    var (w, h) := PickSize(size);
    columns := w;
    var coins := fill(seed);
    var grid := new bool[h, w]((y: nat, x: nat) => coins(y * w + x));
    ghost var init := InitialGrid(coins, w, h);
    GridExt(Snapshot(grid), init, w, h);

    for pass := 0 to 5
      invariant grid.Length0 == h && grid.Length1 == w
      invariant Snapshot(grid) == Smoothed(init, pass)
    {
      grid := SmoothStep(grid);
    }

    var shown := CaveLayout(Snapshot(grid));
    assert Positioned(shown);
    cells := BuildGrid(w, h, shown);
  }

  /** The four corners of every cave map are mountain tiles with biome "rock". */
  lemma CaveCornersAreRock(coins: nat -> bool, size: string)
    ensures var (w, h) := PickSize(size);
      var f := CaveLayout(Smoothed(InitialGrid(coins, w, h), 5));
      f(0, 0) == BaseCell(Mountain, 0, 0, Some("rock"))
      && f(w - 1, h - 1) == BaseCell(Mountain, w - 1, h - 1, Some("rock"))
      && f(w - 1, 0) == BaseCell(Mountain, w - 1, 0, Some("rock"))
      && f(0, h - 1) == BaseCell(Mountain, 0, h - 1, Some("rock"))
  {
    var (w, h) := PickSize(size);
    var s := InitialGrid(coins, w, h);
    SmoothedCorners(s, w, h, 5);
  }
}
