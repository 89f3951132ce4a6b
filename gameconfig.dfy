/** The client's central configuration: the constants the grid managers and
    the input handler read. */
module GameConfig {

  const MAP_SIZE: int := 100

  /** The house rectangle: origin (15, 15), 6 by 6 cells. */
  const HOUSE_X: int := 15
  const HOUSE_Y: int := 15
  const HOUSE_WIDTH: int := 6
  const HOUSE_HEIGHT: int := 6

  /** Chance that an empty cell outside the house becomes an obstacle. */
  const OBSTACLE_CHANCE: real := 0.15

  /** Lake placement: five attempts, square sizes 3 or 4, centres at least 30 apart. */
  const LAKE_ATTEMPTS: int := 5
  const LAKE_MIN_DISTANCE: real := 30.0
  const LAKE_SIZES: seq<int> := [3, 4]

  /** Camera zoom bounds and step. */
  const MIN_ZOOM: real := 0.5
  const MAX_ZOOM: real := 2.0
  const ZOOM_SPEED: real := 0.1
}
