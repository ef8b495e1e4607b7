/** `read_tilemap`: the C game's map is a 40 x 30 grid of tile numbers
    (`WINDOW_WIDTH / TILE_SIZE` by `WINDOW_HEIGHT / TILE_SIZE`), read from a
    text file of integers row by row. A file is modelled by the integers
    `fscanf("%d")` can read from it, in order; `None` stands for a file that
    cannot be opened. */
module Tilemap {
  import opened CString
  import opened Movement

  /** `WINDOW_WIDTH / TILE_SIZE` and `WINDOW_HEIGHT / TILE_SIZE`. */
  const MAP_COLUMNS := 40
  const MAP_ROWS := 30

  lemma MapSize()
    ensures MAP_COLUMNS == WINDOW_WIDTH / TILE_SIZE && MAP_ROWS == WINDOW_HEIGHT / TILE_SIZE
  {
  }

  /** The integer that fills cell (`x`, `y`): rows (`y`) are the outer loop. */
  function Cell(x: nat, y: nat): (k: nat)
    ensures x < MAP_COLUMNS ==> y * MAP_COLUMNS <= k < (y + 1) * MAP_COLUMNS
  {
    y * 40 + x
  }

  /** Every cell has its own integer, and together they are the first 1200. */
  lemma CellsDistinct(x1: nat, y1: nat, x2: nat, y2: nat)
    requires x1 < MAP_COLUMNS && x2 < MAP_COLUMNS && y1 < MAP_ROWS && y2 < MAP_ROWS
    ensures Cell(x1, y1) < MAP_COLUMNS * MAP_ROWS
    ensures Cell(x1, y1) == Cell(x2, y2) ==> x1 == x2 && y1 == y2
  {
    if y1 < y2 {
      assert Cell(x1, y1) < (y1 + 1) * MAP_COLUMNS <= y2 * MAP_COLUMNS <= Cell(x2, y2);
    } else if y2 < y1 {
      assert Cell(x2, y2) < (y2 + 1) * MAP_COLUMNS <= y1 * MAP_COLUMNS <= Cell(x1, y1);
    }
  }

  /** The grid as rows of columns: `Grid(tiles)[x][y] == tiles[x, y]`. */
  ghost function Grid(tiles: array2<int>): (g: seq<seq<int>>)
    reads tiles
    ensures |g| == tiles.Length0
    ensures forall x :: 0 <= x < tiles.Length0 ==> |g[x]| == tiles.Length1
    ensures forall x, y :: 0 <= x < tiles.Length0 && 0 <= y < tiles.Length1 ==> g[x][y] == tiles[x, y]
  {
    seq(tiles.Length0, x requires 0 <= x < tiles.Length0 reads tiles =>
      seq(tiles.Length1, y requires 0 <= y < tiles.Length1 reads tiles => tiles[x, y]))
  }

  /** The first `k` integers are in their cells; the other cells hold what they held. */
  ghost predicate Filled(tiles: array2<int>, ints: seq<int>, k: nat, orig: seq<seq<int>>)
    reads tiles
  {
    tiles.Length0 == MAP_COLUMNS && tiles.Length1 == MAP_ROWS && k <= |ints| &&
    |orig| == MAP_COLUMNS && (forall x :: 0 <= x < MAP_COLUMNS ==> |orig[x]| == MAP_ROWS) &&
    forall x, y :: 0 <= x < MAP_COLUMNS && 0 <= y < MAP_ROWS ==>
      tiles[x, y] == if Cell(x, y) < k then ints[Cell(x, y)] else orig[x][y]
  }

  /** `read_tilemap(filepath, map)` with `map->tiles` as `tiles[x, y]`: true
      exactly when the file opens and holds 1200 integers. Each cell whose
      integer was read holds it, even when the read fails further on; the
      rest keep their values. */
  method ReadTilemap(file: Option<seq<int>>, tiles: array2<int>) returns (ok: bool)
    requires tiles.Length0 == MAP_COLUMNS && tiles.Length1 == MAP_ROWS
    modifies tiles
    ensures ok <==> file.Some? && |file.value| >= MAP_COLUMNS * MAP_ROWS
    ensures file.None? ==> forall x, y :: 0 <= x < MAP_COLUMNS && 0 <= y < MAP_ROWS ==> tiles[x, y] == old(tiles[x, y])
    ensures file.Some? ==> forall x, y :: 0 <= x < MAP_COLUMNS && 0 <= y < MAP_ROWS ==>
      tiles[x, y] == if Cell(x, y) < |file.value| then file.value[Cell(x, y)] else old(tiles[x, y])
  {
    if file.None? {
      return false;
    }
    var ints := file.value;
    ghost var orig := Grid(tiles);
    var y := 0;
    while y < MAP_ROWS
      invariant y <= MAP_ROWS
      invariant Filled(tiles, ints, y * 40, orig)
      invariant forall i, j :: 0 <= i < MAP_COLUMNS && 0 <= j < MAP_ROWS ==> orig[i][j] == old(tiles[i, j])
    {
      var x := 0;
      while x < MAP_COLUMNS
        invariant x <= MAP_COLUMNS
        invariant Filled(tiles, ints, y * 40 + x, orig)
        invariant forall i, j :: 0 <= i < MAP_COLUMNS && 0 <= j < MAP_ROWS ==> orig[i][j] == old(tiles[i, j])
      {
        if Cell(x, y) >= |ints| {
          FilledAll(tiles, ints, Cell(x, y), orig);
          return false;
        }
        FillCell(tiles, ints, x, y, orig);
        x := x + 1;
      }
      y := y + 1;
    }
    FilledAll(tiles, ints, 1200, orig);
    return true;
  }

  /** Reading the integer of cell (`x`, `y`), the next one to fill. */
  method FillCell(tiles: array2<int>, ints: seq<int>, x: nat, y: nat, ghost orig: seq<seq<int>>)
    requires x < MAP_COLUMNS && y < MAP_ROWS && Cell(x, y) < |ints|
    requires Filled(tiles, ints, Cell(x, y), orig)
    modifies tiles
    ensures Filled(tiles, ints, Cell(x, y) + 1, orig)
  {
    tiles[x, y] := ints[Cell(x, y)];
    forall i, j | 0 <= i < MAP_COLUMNS && 0 <= j < MAP_ROWS
      ensures tiles[i, j] == if Cell(i, j) < Cell(x, y) + 1 then ints[Cell(i, j)] else orig[i][j]
    {
      CellsDistinct(i, j, x, y);
    }
  }

  /** Once the integers run out at `k`, every cell is as the contract says. */
  lemma FilledAll(tiles: array2<int>, ints: seq<int>, k: nat, orig: seq<seq<int>>)
    requires Filled(tiles, ints, k, orig)
    requires k == |ints| || k == MAP_COLUMNS * MAP_ROWS
    ensures forall x, y :: 0 <= x < MAP_COLUMNS && 0 <= y < MAP_ROWS ==>
      tiles[x, y] == if Cell(x, y) < |ints| then ints[Cell(x, y)] else orig[x][y]
  {
    forall x, y | 0 <= x < MAP_COLUMNS && 0 <= y < MAP_ROWS
      ensures tiles[x, y] == if Cell(x, y) < |ints| then ints[Cell(x, y)] else orig[x][y]
    {
      CellsDistinct(x, y, x, y);
    }
  }
}
