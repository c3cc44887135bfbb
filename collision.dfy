/** The collision system: rebounds the ball off the paddles it overlaps, off the top and bottom
    bounds, and puts it back in the middle when it reaches the left or right bound. */
module Collision {
  import opened Numbers
  import opened Components

  /** Where the ball is put after passing a paddle: `GAME_WIDTH // 2 - 20 // 2` and
      `GAME_HEIGHT // 2 - 20 // 2`. */
  const ResetX: int := GameWidth / 2 - 20 / 2
  const ResetY: int := GameHeight / 2 - 20 / 2

  /** The overlap test of `_overlap` once the ball itself has been excluded. */
  predicate Overlap(item: Rect, ball: Rect) {
    ball.left < item.right && ball.right > item.left &&
    ball.top < item.bottom && ball.bottom > item.top
  }

  /** The point (px, py) lies strictly inside `r`. */
  predicate InsideOpen(r: Rect, px: real, py: real) {
    r.left as real < px < r.right as real && r.top as real < py < r.bottom as real
  }

  predicate NonEmpty(r: Rect) {
    r.left < r.right && r.top < r.bottom
  }

  /** For rectangles of positive size, the test holds exactly when the open rectangles have a
      point in common. */
  lemma OverlapIffCommonPoint(item: Rect, ball: Rect)
    requires NonEmpty(item) && NonEmpty(ball)
    ensures Overlap(item, ball) <==>
      exists px: real, py: real :: InsideOpen(item, px, py) && InsideOpen(ball, px, py)
  {
    if Overlap(item, ball) {
      var lo := if item.left < ball.left then ball.left else item.left;
      var hi := if item.right < ball.right then item.right else ball.right;
      var top := if item.top < ball.top then ball.top else item.top;
      var bottom := if item.bottom < ball.bottom then item.bottom else ball.bottom;
      var px := (lo + hi) as real / 2.0;
      var py := (top + bottom) as real / 2.0;
      assert InsideOpen(item, px, py) && InsideOpen(ball, px, py);
    }
  }

  /** Rectangles that share only an edge do not collide. */
  lemma TouchingIsNoOverlap(item: Rect, ball: Rect)
    requires ball.right == item.left || ball.left == item.right ||
             ball.bottom == item.top || ball.top == item.bottom
    ensures !Overlap(item, ball)
  {
  }

  /** The test does not depend on which rectangle is the ball. */
  lemma OverlapSymmetric(a: Rect, b: Rect)
    ensures Overlap(a, b) == Overlap(b, a)
  {
  }

  /** `_overlap`: the ball itself never counts as overlapping the ball. */
  predicate OverlapsBall(item: Entity, ball: Entity)
    reads item, ball
  {
    item != ball && Overlap(item.Snap().Area(), ball.Snap().Area())
  }

  lemma BallNeverHitsItself(ball: Entity)
    ensures !OverlapsBall(ball, ball)
  {
  }

  /** No entity before position `k` of `items` overlaps the ball. */
  predicate NoHitBefore(items: seq<Entity>, ball: Entity, k: int)
    requires k <= |items|
    reads items, ball
  {
    forall j :: 0 <= j < k ==> !OverlapsBall(items[j], ball)
  }

  /** `collitems`: the entities that overlap the ball, in the order they are given. */
  function Hits(items: seq<Entity>, ball: Entity): (hs: seq<Entity>)
    reads items, ball
    ensures forall i :: 0 <= i < |hs| ==> hs[i] in items && OverlapsBall(hs[i], ball)
    ensures forall k :: 0 <= k < |items| && OverlapsBall(items[k], ball) ==> items[k] in hs
    ensures hs != [] ==>
      exists k :: 0 <= k < |items| && items[k] == hs[0] && NoHitBefore(items, ball, k)
  {
    if items == [] then []
    else
      var rest := Hits(items[1..], ball);
      assert forall i :: 0 <= i < |rest| ==> rest[i] in items[1..];
      assert forall k :: 1 <= k < |items| ==> items[k] == items[1..][k - 1];
      if OverlapsBall(items[0], ball) then
        assert NoHitBefore(items, ball, 0);
        [items[0]] + rest
      else
        assert rest != [] ==> exists k :: 1 <= k < |items| && items[k] == rest[0] && NoHitBefore(items, ball, k)
        by {
          if rest != [] {
            var k' :| 0 <= k' < |items[1..]| && items[1..][k'] == rest[0] && NoHitBefore(items[1..], ball, k');
            assert items[k' + 1] == rest[0];
            assert NoHitBefore(items, ball, k' + 1);
          }
        }
        rest
  }

  /** The sprite of the first overlapping entity, if any. */
  function FirstHit(items: seq<Entity>, ball: Entity): Option<Snapshot>
    reads items, ball
  {
    var hs := Hits(items, ball);
    if hs == [] then None else Some(hs[0].Snap())
  }

  datatype Option<T> = None | Some(value: T)

  /** `stepSize` of a paddle of height `paddleH`. */
  function StepSize(paddleH: int): int {
    paddleH / 2 / 10
  }

  /** The ball's centre height differs from the paddle's: the only case in which the rebound
      divides by `stepSize`. */
  predicate OffCentre(ballY: int, ballH: int, paddleY: int, paddleH: int) {
    ballY + ballH / 2 != paddleY + paddleH / 2
  }

  /** The rebound off `hit` can be computed: a hit off the paddle's centre needs a positive
      `stepSize`, since `//` by 0 raises ZeroDivisionError. */
  predicate CanRebound(ball: Snapshot, hit: Option<Snapshot>) {
    hit.Some? && OffCentre(ball.y, ball.h, hit.value.y, hit.value.h) ==> StepSize(hit.value.h) > 0
  }

  /** `round(factor * degrees)` for a ball `dist` away from the paddle's centre, where `factor`
      is `dist // stepSize` and `degrees` is 0.7. */
  function ReboundSpeed(dist: int, paddleH: int): (n: int)
    requires dist >= 0 && StepSize(paddleH) > 0
    ensures n >= 0
  {
    var factor := dist / StepSize(paddleH);
    Round(factor as real * 0.7)
  }

  /** The rebound `vy` after a hit on a paddle at `paddleY` of height `paddleH`, computed from
      the distance between the ball's centre and the paddle's centre; equal centres negate `vy`. */
  function ReboundVy(ballY: int, ballH: int, paddleY: int, paddleH: int, vy: real): real
    requires OffCentre(ballY, ballH, paddleY, paddleH) ==> StepSize(paddleH) > 0
  {
    var ballCenterY := ballY + ballH / 2;
    var paddleCenterY := paddleY + paddleH / 2;
    if ballCenterY < paddleCenterY then -(ReboundSpeed(paddleCenterY - ballCenterY, paddleH) as real)
    else if ballCenterY > paddleCenterY then ReboundSpeed(ballCenterY - paddleCenterY, paddleH) as real
    else -vy
  }

  /** Hitting above the paddle's centre sends the ball up (or level), below sends it down (or
      level), dead centre reverses `vy`; the size of the new `vy` is `round(0.7 * factor)` where
      `factor` is the centre distance in whole steps. */
  lemma ReboundDirection(ballY: int, ballH: int, paddleY: int, paddleH: int, vy: real)
    requires OffCentre(ballY, ballH, paddleY, paddleH) ==> StepSize(paddleH) > 0
    ensures var d := (ballY + ballH / 2) - (paddleY + paddleH / 2);
      var r := ReboundVy(ballY, ballH, paddleY, paddleH, vy);
      && (d < 0 ==> r <= 0.0 && -r == Round(((-d) / StepSize(paddleH)) as real * 0.7) as real)
      && (d > 0 ==> r >= 0.0 && r == Round((d / StepSize(paddleH)) as real * 0.7) as real)
      && (d == 0 ==> r == -vy)
  {
  }

  /** With the game's paddles (100 high) and ball (20 high), an overlapping ball is at most 59
      from the paddle's centre, so `factor` is at most 11, `round` agrees with the half-up
      `(7 * factor + 5) / 10`, and the rebound speed is at most 8. */
  lemma {:induction false} ReboundBounded(ballY: int, paddleY: int, vy: real)
    requires ballY < paddleY + 100 && ballY + 20 > paddleY
    ensures var d := (ballY + 10) - (paddleY + 50);
      var factor := (if d < 0 then -d else d) / 5;
      0 <= factor <= 11 && Round(factor as real * 0.7) == (7 * factor + 5) / 10
    ensures ballY + 10 != paddleY + 50 ==> -8.0 <= ReboundVy(ballY, 20, paddleY, 100, vy) <= 8.0
  {
    var d := (ballY + 10) - (paddleY + 50);
    var a := if d < 0 then -d else d;
    var factor := a / 5;
    assert 0 <= a <= 59 && 0 <= factor <= 11;
    RoundSevenTenths(factor);
    var n := Round(factor as real * 0.7);
    assert n == (7 * factor + 5) / 10 <= 8;
    assert StepSize(100) == 5;
    ReboundDirection(ballY, 20, paddleY, 100, vy);
  }

  /** The ball's velocity after a hit on the first overlapping paddle, if there is one:
      `vx` reversed and `vy` from `ReboundVy`. */
  function AfterPaddles(ball: Snapshot, hit: Option<Snapshot>): Snapshot
    requires CanRebound(ball, hit)
  {
    match hit
    case None => ball
    case Some(p) => ball.(vx := -ball.vx, vy := ReboundVy(ball.y, ball.h, p.y, p.h, ball.vy))
  }

  /** The ball touches the top or the bottom bound. */
  predicate AtWall(ball: Snapshot, b: Bounds) {
    ball.y == b.miny || ball.y == b.maxy - ball.h
  }

  /** The ball touches the left or the right bound. */
  predicate AtGoal(ball: Snapshot, b: Bounds) {
    ball.x == b.minx || ball.x == b.maxx - ball.w
  }

  /** The ball's state after one `process` of the collision system: the paddle rebound, then the
      wall bounce, then the reset after a pass (each independent of the others). */
  function Collided(ball: Snapshot, hit: Option<Snapshot>, b: Bounds, resetVy: int): Snapshot
    requires CanRebound(ball, hit)
  {
    var s1 := AfterPaddles(ball, hit);
    var s2 := if AtWall(s1, b) then s1.(vy := -s1.vy) else s1;
    if AtGoal(s2, b) then s2.(x := ResetX, y := ResetY, vx := -s2.vx, vy := resetVy as real) else s2
  }

  /** Size never changes, and the ball keeps its horizontal speed: `vx` is reversed once for a
      paddle hit (however many paddles overlap) and once more for a pass. */
  lemma {:induction false} CollidedVx(ball: Snapshot, hit: Option<Snapshot>, b: Bounds, resetVy: int)
    requires CanRebound(ball, hit)
    ensures var r := Collided(ball, hit, b, resetVy);
      r.w == ball.w && r.h == ball.h &&
      r.vx == (if hit.Some? != AtGoal(ball, b) then -ball.vx else ball.vx)
  {
  }

  /** A paddle hit that is not also a pass reverses `vx` exactly once and takes `vy` from the
      rebound rule (reversed again if the ball also touches a wall). */
  lemma PaddleHit(ball: Snapshot, p: Snapshot, b: Bounds, resetVy: int)
    requires CanRebound(ball, Some(p)) && !AtGoal(ball, b)
    ensures var r := Collided(ball, Some(p), b, resetVy);
      var v := ReboundVy(ball.y, ball.h, p.y, p.h, ball.vy);
      r.x == ball.x && r.y == ball.y && r.vx == -ball.vx &&
      r.vy == (if AtWall(ball, b) then -v else v)
  {
  }

  /** Touching a wall reverses `vy` whether or not a paddle was hit in the same call. */
  lemma WallBounce(ball: Snapshot, b: Bounds, resetVy: int)
    requires AtWall(ball, b) && !AtGoal(ball, b)
    ensures Collided(ball, None, b, resetVy) == ball.(vy := -ball.vy)
  {
  }

  /** Reaching the left or right bound puts the ball at (390, 390), reverses `vx` once more and
      takes the supplied `vy`. */
  lemma PassResets(ball: Snapshot, hit: Option<Snapshot>, b: Bounds, resetVy: int)
    requires CanRebound(ball, hit)
    requires AtGoal(ball, b)
    ensures var r := Collided(ball, hit, b, resetVy);
      r.x == 390 && r.y == 390 && r.vx == -AfterPaddles(ball, hit).vx && r.vy == resetVy as real
  {
  }

  /** With no hit, no wall and no pass, the ball is untouched. */
  lemma QuietFrame(ball: Snapshot, b: Bounds, resetVy: int)
    requires !AtWall(ball, b) && !AtGoal(ball, b)
    ensures Collided(ball, None, b, resetVy) == ball
  {
  }

  /** The ball of the game (20 high) hitting a paddle of the game (100 high) that it overlaps
      keeps `|vy| <= 8` if it had it, given a reset `vy` within [-2, 2]. */
  lemma {:induction false} CollidedVyBounded(ball: Snapshot, hit: Option<Snapshot>, b: Bounds, resetVy: int)
    requires ball.h == 20 && -8.0 <= ball.vy <= 8.0 && -2 <= resetVy <= 2
    requires hit.Some? ==> hit.value.h == 100 && ball.y < hit.value.y + 100 && ball.y + 20 > hit.value.y
    ensures CanRebound(ball, hit)
    ensures -8.0 <= Collided(ball, hit, b, resetVy).vy <= 8.0
  {
    if hit.Some? {
      ReboundBounded(ball.y, hit.value.y, ball.vy);
    }
  }

  /** The ball's position changes only by the reset after a pass. */
  lemma CollidedPosition(ball: Snapshot, hit: Option<Snapshot>, b: Bounds, resetVy: int)
    requires CanRebound(ball, hit)
    ensures var r := Collided(ball, hit, b, resetVy);
      if AtGoal(ball, b) then r.x == ResetX && r.y == ResetY else r.x == ball.x && r.y == ball.y
  {
  }

  class CollisionSystem {
    const ball: Entity
    const minx: int
    const miny: int
    const maxx: int
    const maxy: int

    constructor (minx: int, miny: int, maxx: int, maxy: int, ball: Entity)
      ensures this.minx == minx && this.miny == miny && this.maxx == maxx && this.maxy == maxy
      ensures this.ball == ball
    {
      this.minx, this.miny, this.maxx, this.maxy := minx, miny, maxx, maxy;
      this.ball := ball;
    }

    function Arena(): Bounds {
      Bounds(minx, miny, maxx, maxy)
    }

    /** `process`: only the ball is written; `resetVy` is the `random.randint(-2, 2)` draw. */
    method Process(items: seq<Entity>, resetVy: int)
      requires -2 <= resetVy <= 2
      requires CanRebound(ball.Snap(), FirstHit(items, ball))
      modifies ball
      ensures ball.Snap() == Collided(old(ball.Snap()), old(FirstHit(items, ball)), Arena(), resetVy)
      ensures ball.force == old(ball.force)
    {
      ghost var before := ball.Snap();
      ghost var hit := FirstHit(items, ball);
      var collitems := Hits(items, ball);
      if collitems != [] {
        ball.vx := -ball.vx;
        var sprite := collitems[0];
        ball.vy := ReboundVy(ball.y, ball.h, sprite.y, sprite.h, ball.vy);
      }
      assert ball.Snap() == AfterPaddles(before, hit);
      if ball.y == miny || ball.y == maxy - ball.h {
        ball.vy := -ball.vy;
      }
      if ball.x == minx || ball.x == maxx - ball.w {
        ball.x, ball.y := ResetX, ResetY;
        ball.vx := -ball.vx;
        ball.vy := resetVy as real;
      }
    }
  }
}
