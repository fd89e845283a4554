/**
 * The shapes of the perception data the tasks and the refill helpers read:
 * grayscale screenshots, pixel coordinates, bounding boxes and the per-cycle
 * context with its namespaced entries (`ng_screenshot`, `ng_cave`,
 * `gameWindow`, `ng_targeting`).
 */
module Perception {
  import opened Wrappers

  /** A grayscale screenshot as rows of pixels; `len(screenshot)` is its number of rows. */
  type Image = seq<seq<int>>

  /** A pixel coordinate `(x, y)` in screenshot space. */
  datatype Point = Point(x: int, y: int)

  /** An axis-aligned box `(x, y, width, height)` as visual search returns it. */
  datatype BBox = BBox(x: int, y: int, width: int, height: int)

  /** A creature or player entry; only the fields the tasks read are kept. */
  datatype Creature = Creature(name: string, kind: string, windowCoordinate: Point)

  /** The `ng_cave` entry. */
  datatype Cave = Cave(
    targetCreature: Option<Creature>,
    closestCreature: Option<Creature>,
    isAttackingSomeCreature: bool)

  /** The `gameWindow` entry. */
  datatype GameWindow = GameWindow(players: seq<Creature>)

  /** The `ng_targeting` entry. */
  datatype Targeting = Targeting(hasIgnorableCreatures: bool)

  /** One perception snapshot; `ng_targeting` may be missing altogether. */
  datatype Context = Context(
    screenshot: Image,
    cave: Cave,
    gameWindow: GameWindow,
    targeting: Option<Targeting>)
}
