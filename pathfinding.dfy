/** The walkability view the path finder works on: the grid it holds (shared
    by reference with the map), read and written cell by cell. The search
    itself belongs to an external library and is not part of this model. */
module PathfindingManager {
  import opened MapManager

  class PathfindingManager {
    var grid: array2<int>

    constructor (gridData: array2<int>)
      ensures grid == gridData
    {
      grid := gridData;
    }

    /** `isTileWalkable`: false off the grid, otherwise whether the cell is empty
        (water and obstacles both block). */
    function IsTileWalkable(x: int, y: int): (walkable: bool)
      reads this, grid
      ensures walkable ==> 0 <= y < grid.Length0 && 0 <= x < grid.Length1
      ensures walkable <==> 0 <= y < grid.Length0 && 0 <= x < grid.Length1 && grid[y, x] == EMPTY
    {
      if !(0 <= y < grid.Length0 && 0 <= x < grid.Length1) then false
      else grid[y, x] == EMPTY
    }

    /** `setTileWalkable`: on the grid, the cell becomes 0 or 1; off the grid,
        nothing happens. Afterwards the tile reads back as requested. */
    method SetTileWalkable(x: int, y: int, walkable: bool)
      modifies this, grid
      ensures grid == old(grid)
      ensures 0 <= y < grid.Length0 && 0 <= x < grid.Length1 ==>
        grid[y, x] == (if walkable then EMPTY else OBSTACLE) && IsTileWalkable(x, y) == walkable
      ensures forall r, c :: 0 <= r < grid.Length0 && 0 <= c < grid.Length1 && (r, c) != (y, x) ==>
        grid[r, c] == old(grid[r, c])
      ensures !(0 <= y < grid.Length0 && 0 <= x < grid.Length1) ==> unchanged(grid)
    {
      if 0 <= y < grid.Length0 && 0 <= x < grid.Length1 {
        grid[y, x] := if walkable then EMPTY else OBSTACLE;
        UpdateGrid(grid);
      }
    }

    /** `updateGrid`: the finder now reads the given grid. */
    method UpdateGrid(gridData: array2<int>)
      modifies this
      ensures grid == gridData
    {
      grid := gridData;
    }
  }
}
