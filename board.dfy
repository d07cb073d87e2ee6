/**
 * The board engine as the turn engine and the clients see it. Board.js is not
 * part of this model: its tile grid is a value here, and the three operations
 * the server calls on it (`inBounds`, `Board.areNear`, `applyMove`) are
 * function values that a caller supplies, so every property proved below holds
 * whatever those operations do.
 */
module Board {
  import opened Wrappers

  /** A board cell `{x, y}`. */
  datatype Cell = Cell(x: int, y: int)

  /** The engine's `selected` field: `{}` when nothing is selected, else a cell. */
  datatype Selection = NoSelection | Selected(cell: Cell)

  /** The first argument of `applyMove`: `null` for a simple move, otherwise
      the selection the move starts from. */
  datatype Origin = NullOrigin | FromSelection(sel: Selection)

  /** `tiles[x][y]`: 0 for an empty cell, otherwise the tile id of its owner. */
  type Grid = seq<seq<int>>

  const EMPTY: int := 0

  predicate OnGrid(g: Grid, c: Cell)
  {
    0 <= c.x < |g| && 0 <= c.y < |g[c.x]|
  }

  /** `tiles[x][y]`, or `None` where the grid has no such cell (the source
      then reads `undefined`, which equals no tile id). */
  function TileAt(g: Grid, c: Cell): (t: Option<int>)
    ensures t.Some? <==> OnGrid(g, c)
  {
    if OnGrid(g, c) then Some(g[c.x][c.y]) else None
  }

  /** The board's dimensions and the operations the server consumes. */
  datatype Rules = Rules(
    width: int,
    height: int,
    inBounds: (int, int) -> bool,
    areNear: (Cell, Selection, nat) -> bool,
    applyMove: (Origin, Cell, int, Grid) -> Grid)
}
