/** The client map: a MAP_SIZE x MAP_SIZE grid of cell codes indexed [y, x]
    (0 empty, 1 obstacle, 2 water), filled with zeros, stamped with square
    lakes and then sprinkled with obstacles, the house floor forced back to
    empty. The random draws are inputs. */
module MapManager {
  import opened GameConfig
  import ServerWorld

  const EMPTY: int := 0
  const OBSTACLE: int := 1
  const WATER: int := 2

  /** `isInsideHouse`: the half-open rectangle [15, 21) x [15, 21). */
  function IsInsideHouse(x: int, y: int): (inside: bool)
    ensures inside ==> InRect(HOUSE_MARGIN, x, y) && !InRect(START_AREA, x, y)
    ensures inside ==> 0 <= x < MAP_SIZE && 0 <= y < MAP_SIZE
  {
    x >= HOUSE_X && x < HOUSE_X + HOUSE_WIDTH && y >= HOUSE_Y && y < HOUSE_Y + HOUSE_HEIGHT
  }

  /** The client's house is the cell set the server keeps free of resources. */
  lemma HouseAgreesWithServer(x: int, y: int)
    ensures IsInsideHouse(x, y) <==> ServerWorld.InHouse(x, y)
  {
  }

  /** An axis-aligned rectangle of cells. */
  datatype Rect = Rect(x: int, y: int, width: int, height: int)

  predicate InRect(r: Rect, x: int, y: int)
  {
    r.x <= x < r.x + r.width && r.y <= y < r.y + r.height
  }

  /** `Rectangle.Overlaps`: the interiors intersect (touching edges do not count). */
  predicate Overlaps(a: Rect, b: Rect)
  {
    a.x < b.x + b.width && a.x + a.width > b.x && a.y < b.y + b.height && a.y + a.height > b.y
  }

  /** Rectangles that do not overlap share no cell. */
  lemma {:induction false} DisjointCells(a: Rect, b: Rect, x: int, y: int)
    requires !Overlaps(a, b) && InRect(a, x, y)
    ensures !InRect(b, x, y)
  {
  }

  /** The house widened by a margin of two cells, and the start area. */
  const HOUSE_MARGIN: Rect := Rect(HOUSE_X - 2, HOUSE_Y - 2, HOUSE_WIDTH + 4, HOUSE_HEIGHT + 4)
  const START_AREA: Rect := Rect(0, 0, 5, 5)

  /** One attempt of `placeLakes`: the picked size and the origin drawn by
      `Between(1, MAP_SIZE - size - 1)`. */
  datatype LakeDraw = LakeDraw(size: int, x: int, y: int)

  predicate ValidDraw(d: LakeDraw)
  {
    d.size in LAKE_SIZES && 1 <= d.x <= MAP_SIZE - d.size - 1 && 1 <= d.y <= MAP_SIZE - d.size - 1
  }

  function LakeRect(d: LakeDraw): Rect
  {
    Rect(d.x, d.y, d.size, d.size)
  }

  predicate InLake(d: LakeDraw, x: int, y: int)
  {
    InRect(LakeRect(d), x, y)
  }

  /** Every cell of a drawn lake lies inside the map and off its border. */
  lemma LakeInBounds(d: LakeDraw, x: int, y: int)
    requires ValidDraw(d) && InLake(d, x, y)
    ensures 1 <= x <= MAP_SIZE - 2 && 1 <= y <= MAP_SIZE - 2
  {
  }

  /** The centre `(x + size / 2, y + size / 2)` recorded for a placed lake. */
  function Center(d: LakeDraw): (real, real)
  {
    (d.x as real + d.size as real / 2.0, d.y as real + d.size as real / 2.0)
  }

  /** `Distance.Between(p, q) < minDistance`, compared on squares (both sides
      are non-negative, so the square root can be dropped). */
  predicate TooClose(p: (real, real), q: (real, real))
  {
    (p.0 - q.0) * (p.0 - q.0) + (p.1 - q.1) * (p.1 - q.1) < LAKE_MIN_DISTANCE * LAKE_MIN_DISTANCE
  }

  /** The protected-zone test: the lake overlaps neither the widened house nor the start area. */
  predicate Clear(d: LakeDraw)
  {
    !Overlaps(LakeRect(d), HOUSE_MARGIN) && !Overlaps(LakeRect(d), START_AREA)
  }

  /** An attempt is kept when it is clear and not too close to a lake already placed. */
  predicate Accepted(d: LakeDraw, placed: seq<LakeDraw>)
  {
    Clear(d) && forall k :: 0 <= k < |placed| ==> !TooClose(Center(d), Center(placed[k]))
  }

  /** The lakes `placeLakes` stamps, in order of placement. */
  function PlacedLakes(draws: seq<LakeDraw>): (ls: seq<LakeDraw>)
    ensures forall l :: l in ls ==> l in draws && Clear(l)
    ensures forall i, j :: 0 <= i < j < |ls| ==> !TooClose(Center(ls[j]), Center(ls[i]))
    decreases |draws|
  {
    if draws == [] then []
    else
      var placed := PlacedLakes(draws[..|draws| - 1]);
      var d := draws[|draws| - 1];
      if Accepted(d, placed) then placed + [d] else placed
  }

  /** Whether some lake of the list covers the cell. */
  predicate Covered(lakes: seq<LakeDraw>, x: int, y: int)
  {
    exists k :: 0 <= k < |lakes| && InLake(lakes[k], x, y)
  }

  /** A cell covered by a placed lake is off the border, at least two cells
      from the house and outside the start area. */
  lemma {:induction false} CoveredCellSafe(draws: seq<LakeDraw>, x: int, y: int)
    requires forall k :: 0 <= k < |draws| ==> ValidDraw(draws[k])
    requires Covered(PlacedLakes(draws), x, y)
    ensures 1 <= x <= MAP_SIZE - 2 && 1 <= y <= MAP_SIZE - 2
    ensures !InRect(HOUSE_MARGIN, x, y) && !IsInsideHouse(x, y)
    ensures !InRect(START_AREA, x, y)
  {
    var ls := PlacedLakes(draws);
    var k :| 0 <= k < |ls| && InLake(ls[k], x, y);
    assert ls[k] in draws;
    LakeInBounds(ls[k], x, y);
    DisjointCells(LakeRect(ls[k]), HOUSE_MARGIN, x, y);
    DisjointCells(LakeRect(ls[k]), START_AREA, x, y);
  }

  /** The cell `finalizeMap` leaves, from the cell before it and the draw of
      `Math.random()` for that cell. */
  function FinalCell(c: int, x: int, y: int, roll: real): (r: int)
    ensures IsInsideHouse(x, y) ==> r == EMPTY
    ensures !IsInsideHouse(x, y) && c != EMPTY ==> r == c
    ensures r != c ==>
      (r == OBSTACLE && c == EMPTY && !IsInsideHouse(x, y) && (x, y) != (0, 0) && roll < OBSTACLE_CHANCE) ||
      (r == EMPTY && IsInsideHouse(x, y))
    ensures !IsInsideHouse(x, y) && c == EMPTY && (x, y) != (0, 0) && roll < OBSTACLE_CHANCE ==> r == OBSTACLE
  {
    if IsInsideHouse(x, y) then EMPTY
    else if c == EMPTY && (x != 0 || y != 0) && roll < OBSTACLE_CHANCE then OBSTACLE
    else c
  }

  /** The map a full `generate` produces: lakes on an empty grid, then obstacles. */
  function GeneratedCell(draws: seq<LakeDraw>, roll: (int, int) -> real, x: int, y: int): int
  {
    FinalCell(if Covered(PlacedLakes(draws), x, y) then WATER else EMPTY, x, y, roll(x, y))
  }

  /** Whatever the draws, the generated map has an empty house, an empty
      spawn cell (0, 0), no water in the start area, and only 0, 1, 2. */
  lemma GeneratedMapFacts(draws: seq<LakeDraw>, roll: (int, int) -> real, x: int, y: int)
    requires forall k :: 0 <= k < |draws| ==> ValidDraw(draws[k])
    ensures IsInsideHouse(x, y) ==> GeneratedCell(draws, roll, x, y) == EMPTY
    ensures (x, y) == (0, 0) ==> GeneratedCell(draws, roll, x, y) == EMPTY
    ensures InRect(START_AREA, x, y) ==> GeneratedCell(draws, roll, x, y) != WATER
    ensures GeneratedCell(draws, roll, x, y) in {EMPTY, OBSTACLE, WATER}
  {
    if Covered(PlacedLakes(draws), x, y) {
      CoveredCellSafe(draws, x, y);
    }
  }

  lemma {:induction false} CoveredSnoc(lakes: seq<LakeDraw>, d: LakeDraw, x: int, y: int)
    ensures Covered(lakes + [d], x, y) <==> Covered(lakes, x, y) || InLake(d, x, y)
  {
    var ls := lakes + [d];
    if Covered(lakes, x, y) {
      var k :| 0 <= k < |lakes| && InLake(lakes[k], x, y);
      assert ls[k] == lakes[k];
    }
    if InLake(d, x, y) {
      assert ls[|lakes|] == d;
    }
    if Covered(ls, x, y) {
      var k :| 0 <= k < |ls| && InLake(ls[k], x, y);
      if k < |lakes| {
        assert ls[k] == lakes[k];
      }
    }
  }

  class MapManager {
    var grid: array2<int>

    /** The grid is empty until `generate` runs. */
    constructor ()
      ensures grid.Length0 == 0 && grid.Length1 == 0
    {
      grid := new int[0, 0];
    }

    /** `generate`: an empty grid, then the lakes, then the obstacles. */
    method Generate(draws: seq<LakeDraw>, roll: (int, int) -> real)
      requires |draws| == LAKE_ATTEMPTS
      requires forall k :: 0 <= k < |draws| ==> ValidDraw(draws[k])
      modifies this
      ensures fresh(grid) && grid.Length0 == MAP_SIZE && grid.Length1 == MAP_SIZE
      ensures forall y, x :: 0 <= y < MAP_SIZE && 0 <= x < MAP_SIZE ==> grid[y, x] == GeneratedCell(draws, roll, x, y)
    {
      InitGrid();
      PlaceLakes(draws);
      FinalizeMap(roll);
    }

    /** `initGrid`: a fresh MAP_SIZE x MAP_SIZE grid of zeros, row by row. */
    method InitGrid()
      modifies this
      ensures fresh(grid) && grid.Length0 == MAP_SIZE && grid.Length1 == MAP_SIZE
      ensures forall y, x :: 0 <= y < MAP_SIZE && 0 <= x < MAP_SIZE ==> grid[y, x] == EMPTY
    {
      var g := new int[MAP_SIZE, MAP_SIZE];
      var y := 0;
      while y < MAP_SIZE
        invariant 0 <= y <= MAP_SIZE
        invariant forall r, c :: 0 <= r < y && 0 <= c < MAP_SIZE ==> g[r, c] == EMPTY
      {
        var x := 0;
        while x < MAP_SIZE
          invariant 0 <= x <= MAP_SIZE
          invariant forall r, c :: 0 <= r < y && 0 <= c < MAP_SIZE ==> g[r, c] == EMPTY
          invariant forall c :: 0 <= c < x ==> g[y, c] == EMPTY
        {
          g[y, x] := EMPTY;
          x := x + 1;
        }
        y := y + 1;
      }
      grid := g;
    }

    /** `placeLakes`: each attempt that is clear of the protected zones and far
        enough from the lakes already placed stamps a square of water. */
    method PlaceLakes(draws: seq<LakeDraw>)
      requires grid.Length0 == MAP_SIZE && grid.Length1 == MAP_SIZE
      requires |draws| == LAKE_ATTEMPTS
      requires forall k :: 0 <= k < |draws| ==> ValidDraw(draws[k])
      modifies grid
      ensures forall y, x :: 0 <= y < MAP_SIZE && 0 <= x < MAP_SIZE ==>
        grid[y, x] == if Covered(PlacedLakes(draws), x, y) then WATER else old(grid[y, x])
    {
      var lakeCenters: seq<(real, real)> := [];
      ghost var placed: seq<LakeDraw> := [];
      var i := 0;
      while i < LAKE_ATTEMPTS
        invariant 0 <= i <= LAKE_ATTEMPTS
        invariant placed == PlacedLakes(draws[..i])
        invariant |lakeCenters| == |placed|
        invariant forall k :: 0 <= k < |placed| ==> lakeCenters[k] == Center(placed[k])
        invariant forall y, x :: 0 <= y < MAP_SIZE && 0 <= x < MAP_SIZE ==>
          grid[y, x] == if Covered(placed, x, y) then WATER else old(grid[y, x])
      {
        var d := draws[i];
        assert draws[..i + 1][..i] == draws[..i];
        if Overlaps(LakeRect(d), HOUSE_MARGIN) || Overlaps(LakeRect(d), START_AREA) {
          i := i + 1;
          continue;
        }
        var tooClose := false;
        var k := 0;
        while k < |lakeCenters|
          invariant 0 <= k <= |lakeCenters|
          invariant forall m :: 0 <= m < k ==> !TooClose(Center(d), lakeCenters[m])
        {
          if TooClose(Center(d), lakeCenters[k]) {
            tooClose := true;
            break;
          }
          k := k + 1;
        }
        if tooClose {
          i := i + 1;
          continue;
        }
        StampLake(d);
        forall y, x | 0 <= y < MAP_SIZE && 0 <= x < MAP_SIZE
          ensures Covered(placed + [d], x, y) <==> Covered(placed, x, y) || InLake(d, x, y)
        {
          CoveredSnoc(placed, d, x, y);
        }
        placed := placed + [d];
        lakeCenters := lakeCenters + [Center(d)];
        i := i + 1;
      }
      assert draws[..LAKE_ATTEMPTS] == draws;
    }

    /** The stamping of one lake: every cell of its square becomes water. */
    method StampLake(d: LakeDraw)
      requires grid.Length0 == MAP_SIZE && grid.Length1 == MAP_SIZE && ValidDraw(d)
      modifies grid
      ensures forall y, x :: 0 <= y < MAP_SIZE && 0 <= x < MAP_SIZE ==>
        grid[y, x] == if InLake(d, x, y) then WATER else old(grid[y, x])
    {
      var ly := 0;
      while ly < d.size
        invariant 0 <= ly <= d.size
        invariant forall y, x :: 0 <= y < MAP_SIZE && 0 <= x < MAP_SIZE ==>
          grid[y, x] == if InLake(d, x, y) && y < d.y + ly then WATER else old(grid[y, x])
      {
        var lx := 0;
        while lx < d.size
          invariant 0 <= lx <= d.size
          invariant forall y, x :: 0 <= y < MAP_SIZE && 0 <= x < MAP_SIZE ==>
            grid[y, x] == if InLake(d, x, y) && (y < d.y + ly || (y == d.y + ly && x < d.x + lx)) then WATER else old(grid[y, x])
        {
          grid[d.y + ly, d.x + lx] := WATER;
          lx := lx + 1;
        }
        ly := ly + 1;
      }
    }

    /** `finalizeMap`, grid effects only: row by row, each cell becomes its
        `FinalCell` for the draw `roll(x, y)`. */
    method FinalizeMap(roll: (int, int) -> real)
      requires grid.Length0 == MAP_SIZE && grid.Length1 == MAP_SIZE
      modifies grid
      ensures forall y, x :: 0 <= y < MAP_SIZE && 0 <= x < MAP_SIZE ==>
        grid[y, x] == FinalCell(old(grid[y, x]), x, y, roll(x, y))
    {
      var y := 0;
      while y < MAP_SIZE
        invariant 0 <= y <= MAP_SIZE
        invariant forall r, c :: 0 <= r < MAP_SIZE && 0 <= c < MAP_SIZE ==>
          grid[r, c] == if r < y then FinalCell(old(grid[r, c]), c, r, roll(c, r)) else old(grid[r, c])
      {
        FinalizeRow(y, roll);
        y := y + 1;
      }
    }

    method FinalizeRow(y: int, roll: (int, int) -> real)
      requires grid.Length0 == MAP_SIZE && grid.Length1 == MAP_SIZE && 0 <= y < MAP_SIZE
      modifies grid
      ensures forall r, c :: 0 <= r < MAP_SIZE && 0 <= c < MAP_SIZE ==>
        grid[r, c] == if r == y then FinalCell(old(grid[r, c]), c, r, roll(c, r)) else old(grid[r, c])
    {
      var x := 0;
      while x < MAP_SIZE
        invariant 0 <= x <= MAP_SIZE
        invariant forall r, c :: 0 <= r < MAP_SIZE && 0 <= c < MAP_SIZE ==>
          grid[r, c] == if r == y && c < x then FinalCell(old(grid[r, c]), c, r, roll(c, r)) else old(grid[r, c])
      {
        var cellType := grid[y, x];
        var isInHouse := IsInsideHouse(x, y);
        if cellType == EMPTY && !isInHouse && (x != 0 || y != 0) {
          if roll(x, y) < OBSTACLE_CHANCE {
            cellType := OBSTACLE;
            grid[y, x] := OBSTACLE;
          }
        }
        if isInHouse {
          if cellType != EMPTY {
            cellType := EMPTY;
            grid[y, x] := EMPTY;
          }
        }
        x := x + 1;
      }
    }

    /** `updateCell`: writes the cell when it lies on the grid. */
    method UpdateCell(x: int, y: int, cellType: int)
      modifies grid
      ensures forall r, c :: 0 <= r < grid.Length0 && 0 <= c < grid.Length1 ==>
        grid[r, c] == if (r, c) == (y, x) then cellType else old(grid[r, c])
    {
      if 0 <= y < grid.Length0 && 0 <= x < grid.Length1 {
        grid[y, x] := cellType;
      }
    }
  }
}
