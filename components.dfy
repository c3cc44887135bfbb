/** The game's global constants and its component data: the entities (paddles and ball) with
    their sprite geometry, Velocity, Force and PlayerData, and the MatchState score. */
module Components {

  const GameWidth: int := 800
  const GameHeight: int := 800
  const BallSpeed: int := 7
  const BaseForce: int := 30

  /** A sprite's `area`: left, top, right and bottom edges. */
  datatype Rect = Rect(left: int, top: int, right: int, bottom: int)

  /** The values of one entity's sprite and Velocity at some instant. */
  datatype Snapshot = Snapshot(x: int, y: int, w: int, h: int, vx: int, vy: real)
  {
    function Area(): Rect {
      Rect(x, y, x + w, y + h)
    }
  }

  /** One rectangle of the arena: the bounds each system is constructed with. */
  datatype Bounds = Bounds(minx: int, miny: int, maxx: int, maxy: int)

  /** A game entity. The sprite's position is updated in place and its size is fixed; the
      Velocity's `vx` only ever holds integers while `vy` holds the floats produced by the
      momentum system; its `min` and `max` are set once. A paddle (Player) also carries a Force
      and the PlayerData `ai` flag; the ball carries neither, and no system reads them on it. */
  class Entity {
    var x: int
    var y: int
    const w: int
    const h: int
    var vx: int
    var vy: real
    const vmin: int
    const vmax: int
    var force: int
    const ai: bool

    /** `Player(world, sprite, posx, posy, ai)`: a fresh Velocity and a zero Force. */
    constructor Player(posx: int, posy: int, width: int, height: int, isAI: bool)
      ensures x == posx && y == posy && w == width && h == height
      ensures vx == 0 && vy == 0.0 && vmin == -8 && vmax == 8
      ensures force == 0 && ai == isAI
    {
      x, y, w, h := posx, posy, width, height;
      vx, vy, vmin, vmax := 0, 0.0, -8, 8;
      force, ai := 0, isAI;
    }

    /** `Ball(world, sprite, posx, posy)`: a fresh Velocity, no Force and no PlayerData. */
    constructor Ball(posx: int, posy: int, width: int, height: int)
      ensures x == posx && y == posy && w == width && h == height
      ensures vx == 0 && vy == 0.0 && vmin == -8 && vmax == 8
      ensures force == 0 && !ai
    {
      x, y, w, h := posx, posy, width, height;
      vx, vy, vmin, vmax := 0, 0.0, -8, 8;
      force, ai := 0, false;
    }

    function Snap(): Snapshot
      reads this
    {
      Snapshot(x, y, w, h, vx, vy)
    }
  }

  /** The entities a system is handed are distinct objects. */
  predicate Distinct(es: seq<Entity>) {
    forall i, j :: 0 <= i < j < |es| ==> es[i] != es[j]
  }

  /** The score of a match, one counter per side. */
  class MatchState {
    var score: seq<nat>

    constructor ()
      ensures score == [0, 0]
    {
      score := [0, 0];
    }
  }
}
