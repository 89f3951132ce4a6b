/** Conversions between grid cells and screen positions in the 2:1-ish
    isometric projection (tiles 64 wide and 37 high), over exact reals. */
module IsoMath {

  const TILE_WIDTH: real := 64.0
  const TILE_HEIGHT: real := 37.0

  datatype Point = Point(x: real, y: real)

  /** `gridToIso`: the screen position of a grid position for a map origin. */
  function GridToIso(x: real, y: real, originX: real, originY: real): (p: Point)
    ensures p.x == originX + (x - y) * 32.0
    ensures p.y == originY + (x + y) * 18.5
  {
    var isoX := (x - y) * (TILE_WIDTH / 2.0);
    var isoY := (x + y) * (TILE_HEIGHT / 2.0);
    Point(originX + isoX, originY + isoY)
  }

  /** The inverse formula of `isoToGrid`, before rounding. */
  function IsoToGridExact(screenX: real, screenY: real, originX: real, originY: real): Point
  {
    var adjX := screenX - originX;
    var adjY := screenY - originY;
    var halfW := TILE_WIDTH / 2.0;
    var halfH := TILE_HEIGHT / 2.0;
    var gridY := (adjY / halfH - adjX / halfW) / 2.0;
    var gridX := (adjY / halfH + adjX / halfW) / 2.0;
    Point(gridX, gridY)
  }

  /** `Math.round`: the nearest integer, halves rounded up. */
  function Round(v: real): (n: int)
    ensures n as real - 0.5 <= v < n as real + 0.5
  {
    (v + 0.5).Floor
  }

  /** Rounding gives the one integer within half a unit below or above. */
  lemma RoundUnique(v: real, n: int)
    requires n as real - 0.5 <= v < n as real + 0.5
    ensures Round(v) == n
  {
  }

  /** `isoToGrid`: the cell under a screen position. */
  function IsoToGrid(screenX: real, screenY: real, originX: real, originY: real): (cell: (int, int))
    ensures var g := IsoToGridExact(screenX, screenY, originX, originY);
      cell.0 as real - 0.5 <= g.x < cell.0 as real + 0.5 && cell.1 as real - 0.5 <= g.y < cell.1 as real + 0.5
  {
    var g := IsoToGridExact(screenX, screenY, originX, originY);
    (Round(g.x), Round(g.y))
  }

  /** Before rounding, the inverse formula undoes `gridToIso` for every real position. */
  lemma ExactRoundTrip(x: real, y: real, originX: real, originY: real)
    ensures var p := GridToIso(x, y, originX, originY);
      IsoToGridExact(p.x, p.y, originX, originY) == Point(x, y)
  {
    var p := GridToIso(x, y, originX, originY);
    assert (p.y - originY) / 18.5 == x + y;
    assert (p.x - originX) / 32.0 == x - y;
  }

  /** For integer cells `isoToGrid(gridToIso(x, y))` is (x, y). */
  lemma CellRoundTrip(x: int, y: int, originX: real, originY: real)
    ensures var p := GridToIso(x as real, y as real, originX, originY);
      IsoToGrid(p.x, p.y, originX, originY) == (x, y)
  {
    ExactRoundTrip(x as real, y as real, originX, originY);
    RoundUnique(x as real, x);
    RoundUnique(y as real, y);
  }

  /** Moving the origin moves every screen position by the same amount, and
      leaves the cell under a correspondingly moved screen position unchanged. */
  lemma Translation(x: real, y: real, sx: real, sy: real, originX: real, originY: real, dx: real, dy: real)
    ensures GridToIso(x, y, originX + dx, originY + dy)
         == Point(GridToIso(x, y, originX, originY).x + dx, GridToIso(x, y, originX, originY).y + dy)
    ensures IsoToGrid(sx + dx, sy + dy, originX + dx, originY + dy) == IsoToGrid(sx, sy, originX, originY)
  {
    assert (sx + dx) - (originX + dx) == sx - originX;
    assert (sy + dy) - (originY + dy) == sy - originY;
  }

  /** A step along the x axis moves the screen position by (32, 18.5), one
      along the y axis by (-32, 18.5). */
  lemma UnitSteps(x: real, y: real, originX: real, originY: real)
    ensures GridToIso(x + 1.0, y, originX, originY)
         == Point(GridToIso(x, y, originX, originY).x + 32.0, GridToIso(x, y, originX, originY).y + 18.5)
    ensures GridToIso(x, y + 1.0, originX, originY)
         == Point(GridToIso(x, y, originX, originY).x - 32.0, GridToIso(x, y, originX, originY).y + 18.5)
  {
  }

  /** `getDebugPoints`: the top, right, bottom and left corners of the tile diamond. */
  function DebugPoints(): (ps: seq<Point>)
    ensures |ps| == 4
  {
    var hw := TILE_WIDTH / 2.0;
    var hh := TILE_HEIGHT / 2.0;
    [Point(0.0, -hh), Point(hw, 0.0), Point(0.0, hh), Point(-hw, 0.0)]
  }

  /** The diamond is the outline of a cell: its corners are the images of the
      half-cell corners (-1/2, -1/2), (1/2, -1/2), (1/2, 1/2), (-1/2, 1/2) about
      the cell at the origin. */
  lemma DebugPointsOutlineCell()
    ensures DebugPoints() == [
      GridToIso(-0.5, -0.5, 0.0, 0.0), GridToIso(0.5, -0.5, 0.0, 0.0),
      GridToIso(0.5, 0.5, 0.0, 0.0), GridToIso(-0.5, 0.5, 0.0, 0.0)]
  {
  }
}
