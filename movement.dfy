/** The movement system: adds the velocity to each sprite's position and keeps the sprite
    inside the arena, clamping the near edge first and then the far edge. */
module Movement {
  import opened Numbers
  import opened Components

  /** One axis of the clamp: `p := max(lo, p)`, then, if the far edge `p + size` passes `hi`,
      `p := hi - size`. The far edge never passes `hi`; the near edge stays at or after `lo`
      whenever the sprite fits between the two. */
  function ClampAxis(p: int, lo: int, hi: int, size: int): (r: int)
    ensures r + size <= hi
    ensures lo + size <= hi ==> lo <= r
  {
    var q := if lo < p then p else lo;
    if q + size > hi then hi - size else q
  }

  /** A position already inside the bounds is kept; one that undershoots lands exactly on the
      near bound; one whose far edge overshoots lands exactly on the far bound. The collision and
      score systems rely on this exact contact. */
  lemma ClampExactContact(p: int, lo: int, hi: int, size: int)
    requires lo + size <= hi
    ensures lo <= p && p + size <= hi ==> ClampAxis(p, lo, hi, size) == p
    ensures p < lo ==> ClampAxis(p, lo, hi, size) == lo
    ensures p + size > hi ==> ClampAxis(p, lo, hi, size) == hi - size
  {
  }

  /** A sprite larger than the arena ends with its far edge on the far bound. */
  lemma ClampOversized(p: int, lo: int, hi: int, size: int)
    requires lo + size > hi
    ensures ClampAxis(p, lo, hi, size) == hi - size
  {
  }

  /** Clamping an already clamped position changes nothing. */
  lemma ClampIdempotent(p: int, lo: int, hi: int, size: int)
    ensures ClampAxis(ClampAxis(p, lo, hi, size), lo, hi, size) == ClampAxis(p, lo, hi, size)
  {
  }

  /** The x the movement system gives `s`; `int(vx)` is `vx` since `vx` is an integer. */
  function MovedX(s: Snapshot, b: Bounds): int {
    ClampAxis(s.x + s.vx, b.minx, b.maxx, s.w)
  }

  /** The y the movement system gives `s`; `int(vy)` truncates the float `vy` toward zero. */
  function MovedY(s: Snapshot, b: Bounds): int {
    ClampAxis(s.y + Trunc(s.vy), b.miny, b.maxy, s.h)
  }

  /** The sprite of `s` lies inside the bounds. */
  predicate Inside(s: Snapshot, b: Bounds) {
    b.minx <= s.x && s.x + s.w <= b.maxx && b.miny <= s.y && s.y + s.h <= b.maxy
  }

  /** The sprite of `s` is no larger than the arena. */
  predicate Fits(s: Snapshot, b: Bounds) {
    b.minx + s.w <= b.maxx && b.miny + s.h <= b.maxy
  }

  /** Movement leaves every sprite that fits the arena inside it; only the position changes. */
  lemma MovedInside(s: Snapshot, b: Bounds)
    requires Fits(s, b)
    ensures Inside(s.(x := MovedX(s, b), y := MovedY(s, b)), b)
  {
  }

  /** A sprite at rest inside the bounds stays put (a paddle with `vx == 0` keeps its x). */
  lemma AtRestStays(s: Snapshot, b: Bounds)
    requires Inside(s, b) && s.vx == 0
    ensures MovedX(s, b) == s.x
  {
  }

  class MovementSystem {
    const minx: int
    const miny: int
    const maxx: int
    const maxy: int

    constructor (minx: int, miny: int, maxx: int, maxy: int)
      ensures this.minx == minx && this.miny == miny && this.maxx == maxx && this.maxy == maxy
    {
      this.minx, this.miny, this.maxx, this.maxy := minx, miny, maxx, maxy;
    }

    function Arena(): Bounds {
      Bounds(minx, miny, maxx, maxy)
    }

    /** `process`: moves and clamps every entity that has a Velocity and a sprite. */
    method Process(es: seq<Entity>)
      requires Distinct(es)
      modifies es
      ensures forall i :: 0 <= i < |es| ==>
        es[i].x == MovedX(old(es[i].Snap()), Arena()) && es[i].y == MovedY(old(es[i].Snap()), Arena())
      ensures forall i :: 0 <= i < |es| ==>
        es[i].vx == old(es[i].vx) && es[i].vy == old(es[i].vy) && es[i].force == old(es[i].force)
      ensures forall i :: 0 <= i < |es| && Fits(old(es[i].Snap()), Arena()) ==> Inside(es[i].Snap(), Arena())
    {
      for i := 0 to |es|
        invariant forall k :: 0 <= k < i ==>
          es[k].x == MovedX(old(es[k].Snap()), Arena()) && es[k].y == MovedY(old(es[k].Snap()), Arena())
        invariant forall k :: i <= k < |es| ==> es[k].x == old(es[k].x) && es[k].y == old(es[k].y)
        invariant forall k :: 0 <= k < |es| ==>
          es[k].vx == old(es[k].vx) && es[k].vy == old(es[k].vy) && es[k].force == old(es[k].force)
      {
        var sprite := es[i];
        var swidth, sheight := sprite.w, sprite.h;
        sprite.x := sprite.x + sprite.vx;
        sprite.y := sprite.y + Trunc(sprite.vy);
        sprite.x := if minx < sprite.x then sprite.x else minx;
        sprite.y := if miny < sprite.y then sprite.y else miny;
        var pmaxx := sprite.x + swidth;
        var pmaxy := sprite.y + sheight;
        if pmaxx > maxx {
          sprite.x := maxx - swidth;
        }
        if pmaxy > maxy {
          sprite.y := maxy - sheight;
        }
      }
      forall i | 0 <= i < |es| && Fits(old(es[i].Snap()), Arena())
        ensures Inside(es[i].Snap(), Arena())
      {
        MovedInside(old(es[i].Snap()), Arena());
      }
    }
  }
}
