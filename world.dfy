/** The game world of `run`: two paddles and a ball in an 800 by 800 arena, and the systems in
    the order they are added to the world, which is the order in which one frame runs them. */
module Pong {
  import opened Components
  import opened Movement
  import opened Momentum
  import opened Collision
  import opened TrackingAI
  import opened Scoring

  /** The whole window: every system is constructed with these bounds. */
  function Arena(): Bounds {
    Bounds(0, 0, GameWidth, GameHeight)
  }

  /** Two paddles of the game, one at x 20 and one at x 760, cannot both overlap a 20-wide
      ball: it is never hit by more than one paddle in a frame. */
  lemma OnePaddleAtMost(p1: Rect, p2: Rect, ball: Rect)
    requires p1.left == 20 && p1.right == 40 && p2.left == 760 && p2.right == 780
    requires ball.right == ball.left + 20
    ensures !(Overlap(p1, ball) && Overlap(p2, ball))
  {
  }

  /** The first of two paddles, in the order given, that the ball overlaps. */
  function FirstPaddleHit(p1: Snapshot, p2: Snapshot, ball: Snapshot): (hit: Option<Snapshot>)
    ensures hit.Some? ==> (hit.value == p1 || hit.value == p2) && Overlap(hit.value.Area(), ball.Area())
    ensures hit.None? <==> !Overlap(p1.Area(), ball.Area()) && !Overlap(p2.Area(), ball.Area())
    ensures Overlap(p1.Area(), ball.Area()) ==> hit == Some(p1)
  {
    if Overlap(p1.Area(), ball.Area()) then Some(p1)
    else if Overlap(p2.Area(), ball.Area()) then Some(p2)
    else None
  }

  /** Handed two paddles and the ball, the collision system rebounds off the first paddle the
      ball overlaps. */
  lemma {:induction false} FirstHitOfPaddles(p1: Entity, p2: Entity, ball: Entity)
    requires p1 != ball && p2 != ball
    ensures FirstHit([p1, p2, ball], ball) == FirstPaddleHit(p1.Snap(), p2.Snap(), ball.Snap())
  {
    var items := [p1, p2, ball];
    assert items[1..] == [p2, ball] && [p2, ball][1..] == [ball] && [ball][1..] == [];
    assert Hits([ball], ball) == [] by {
      assert !OverlapsBall(ball, ball);
      assert Hits([ball], ball) == Hits([], ball);
    }
    var tail := Hits([p2, ball], ball);
    assert tail == if OverlapsBall(p2, ball) then [p2] else [];
    assert Hits(items, ball) == if OverlapsBall(p1, ball) then [p1] + tail else tail;
  }

  /** Since at most one paddle of the game overlaps the ball, the result of the collision system
      does not depend on the order in which it is handed the paddles. */
  lemma {:induction false} PaddleOrderIrrelevant(p1: Snapshot, p2: Snapshot, ball: Snapshot)
    requires p1.x == 20 && p1.w == 20 && p2.x == 760 && p2.w == 20 && ball.w == 20
    ensures FirstPaddleHit(p1, p2, ball) == FirstPaddleHit(p2, p1, ball)
  {
    OnePaddleAtMost(p1.Area(), p2.Area(), ball.Area());
  }

  /** The ball of the game, moved inside the arena, leaves the collision system inside it, with
      its size, with `vx` still `BALL_SPEED` either way and `|vy| <= 8`, at its place unless it
      is at the left or right bound, and then in the middle. */
  lemma BallStaysValid(ball: Snapshot, hit: Option<Snapshot>, resetVy: int)
    requires ball.w == 20 && ball.h == 20 && -8.0 <= ball.vy <= 8.0 && -2 <= resetVy <= 2
    requires ball.vx == BallSpeed || ball.vx == -BallSpeed
    requires Inside(ball, Arena())
    requires hit.Some? ==> hit.value.h == 100 && ball.y < hit.value.y + 100 && ball.y + 20 > hit.value.y
    ensures CanRebound(ball, hit)
    ensures var r := Collided(ball, hit, Arena(), resetVy);
      && r.w == 20 && r.h == 20 && (r.vx == BallSpeed || r.vx == -BallSpeed)
      && -8.0 <= r.vy <= 8.0 && Inside(r, Arena())
      && (if AtGoal(ball, Arena()) then r.x == ResetX && r.y == ResetY else r.x == ball.x && r.y == ball.y)
  {
    CollidedVyBounded(ball, hit, Arena(), resetVy);
    CollidedPosition(ball, hit, Arena(), resetVy);
    CollidedVx(ball, hit, Arena(), resetVy);
  }

  class World {
    const paddle1: Entity
    const paddle2: Entity
    const ball: Entity
    const matchState: MatchState
    const movement: MovementSystem
    const momentum: MomentumSystem
    const score: ScoreTracker
    const collision: CollisionSystem
    const aicontroller: TrackingAIController

    /** What every frame keeps: the systems' wiring, the sprite sizes, the paddles fixed at their
        x with no horizontal speed, the ball moving at `BALL_SPEED` either way with `|vy| <= 8`,
        every sprite inside the arena, and a two-counter score. */
    predicate Valid()
      reads this, paddle1, paddle2, ball, matchState
    {
      && paddle1 != paddle2 && paddle1 != ball && paddle2 != ball
      && movement.Arena() == Arena() && collision.Arena() == Arena()
      && collision.ball == ball && aicontroller.ball == ball && aicontroller.maxy == GameHeight
      && score.ball == ball && score.matchState == matchState
      && score.minx == 0 && score.maxx == GameWidth
      && paddle1.w == 20 && paddle1.h == 100 && paddle2.w == 20 && paddle2.h == 100
      && ball.w == 20 && ball.h == 20
      && !paddle1.ai && paddle2.ai
      && paddle1.x == 20 && paddle2.x == GameWidth - 20 - 20
      && paddle1.vx == 0 && paddle2.vx == 0
      && (ball.vx == BallSpeed || ball.vx == -BallSpeed)
      && -8.0 <= ball.vy <= 8.0
      && Inside(paddle1.Snap(), Arena()) && Inside(paddle2.Snap(), Arena())
      && Inside(ball.Snap(), Arena())
      && |matchState.score| == 2
    }

    /** The set-up of `run`; `startVy` is the `random.randint(-2, 2)` draw. */
    constructor (startVy: int)
      requires -2 <= startVy <= 2
      ensures Valid()
      ensures paddle1.y == 350 && paddle2.y == 350 && ball.x == 390 && ball.y == 390
      ensures ball.vx == BallSpeed && ball.vy == startVy as real
      ensures paddle1.vy == 0.0 && paddle2.vy == 0.0 && paddle1.force == 0 && paddle2.force == 0
      ensures matchState.score == [0, 0]
      ensures fresh(paddle1) && fresh(paddle2) && fresh(ball) && fresh(matchState)
    {
      var m := new MovementSystem(0, 0, GameWidth, GameHeight);
      var mo := new MomentumSystem();
      var p1 := new Entity.Player(20, GameHeight / 2 - 100 / 2, 20, 100, false);
      var p2 := new Entity.Player(GameWidth - 20 - 20, GameHeight / 2 - 100 / 2, 20, 100, true);
      var b := new Entity.Ball(GameWidth / 2 - 20 / 2, GameHeight / 2 - 20 / 2, 20, 20);
      b.vx := BallSpeed;
      b.vy := startVy as real;
      var c := new CollisionSystem(0, 0, GameWidth, GameHeight, b);
      var ai := new TrackingAIController(0, GameHeight, b);
      var ms := new MatchState();
      var sc := new ScoreTracker(0, GameWidth, b, ms);
      paddle1, paddle2, ball, matchState := p1, p2, b, ms;
      movement, momentum, score, collision, aicontroller := m, mo, sc, c, ai;
    }

    /** One pass of the game loop: the player's paddle gets the force from the input (`-30`,
        `0` or `30`), then `world.process()` runs movement, momentum, score, collision and the
        AI in that order. `dT` is the elapsed time the momentum system reads from the clock,
        `resetVy` the draw for a reset ball and `jitter` the AI's draws. The AI never meets a
        ball with `vx == 0`; a point is scored exactly when the moved ball is at the left or
        right bound, and that ball is then put back in the middle. */
    method Tick(input: int, dT: real, resetVy: int, jitter: seq<Jitter>) returns (err: bool)
      requires Valid()
      requires input == -BaseForce || input == 0 || input == BaseForce
      requires dT >= 0.0 && -2 <= resetVy <= 2
      requires |jitter| == 2 && JitterInRange(jitter[0]) && JitterInRange(jitter[1])
      modifies paddle1, paddle2, ball, matchState
      ensures Valid()
      ensures !err
      ensures paddle1.force == input
      ensures paddle2.force == BaseForce || paddle2.force == 0 || paddle2.force == -BaseForce
      ensures paddle1.y == MovedY(old(paddle1.Snap()), Arena()) && paddle2.y == MovedY(old(paddle2.Snap()), Arena())
      ensures paddle1.vy == NextVy(old(paddle1.vy), input, paddle1.vmin, paddle1.vmax, dT)
      ensures paddle2.vy == NextVy(old(paddle2.vy), old(paddle2.force), paddle2.vmin, paddle2.vmax, dT)
      ensures var b0 := old(ball.Snap());
        var moved := b0.(x := MovedX(b0, Arena()), y := MovedY(b0, Arena()));
        ball.Snap() == Collided(moved, FirstPaddleHit(paddle1.Snap(), paddle2.Snap(), moved), Arena(), resetVy)
      ensures Chosen(paddle2.force) == ChooseForce(paddle2.Snap(), ball.Snap(), GameHeight, jitter[1])
      ensures var mx := MovedX(old(ball.Snap()), Arena());
        && (mx == 0 ==>
              matchState.score == [old(matchState.score[0]), old(matchState.score[1]) + 1] &&
              ball.x == ResetX && ball.y == ResetY)
        && (mx == GameWidth - 20 ==>
              matchState.score == [old(matchState.score[0]) + 1, old(matchState.score[1])] &&
              ball.x == ResetX && ball.y == ResetY)
        && (mx != 0 && mx != GameWidth - 20 ==>
              matchState.score == old(matchState.score) && ball.x == mx)
    {
      ghost var s0 := matchState.score;
      Move(input, dT);
      ghost var moved := ball.Snap();
      score.Process();
      ghost var s1 := matchState.score;
      assert s1 == ScoreAfter(s0, ball.x, 20, 0, GameWidth);
      ghost var q1, q2 := paddle1.Snap(), paddle2.Snap();
      Collide(resetVy);
      ghost var collided := ball.Snap();
      assert collided == Collided(moved, FirstPaddleHit(q1, q2, moved), Arena(), resetVy);
      err := RunAI(jitter);
      assert paddle1.Snap() == q1 && paddle2.Snap() == q2 && ball.Snap() == collided;
    }

    /** The movement and momentum stages of a frame, after the player's input: every sprite is
        moved with its speed from before the momentum update, then the paddles' `vy` change. */
    method Move(input: int, dT: real)
      requires Valid()
      requires input == -BaseForce || input == 0 || input == BaseForce
      requires dT >= 0.0
      modifies paddle1, paddle2, ball
      ensures Valid()
      ensures ball.x == MovedX(old(ball.Snap()), Arena()) && ball.y == MovedY(old(ball.Snap()), Arena())
      ensures ball.vx == old(ball.vx) && ball.vy == old(ball.vy) && paddle1.force == input
      ensures paddle1.y == MovedY(old(paddle1.Snap()), Arena()) && paddle2.y == MovedY(old(paddle2.Snap()), Arena())
      ensures paddle1.vy == NextVy(old(paddle1.vy), input, paddle1.vmin, paddle1.vmax, dT)
      ensures paddle2.vy == NextVy(old(paddle2.vy), old(paddle2.force), paddle2.vmin, paddle2.vmax, dT)
      ensures paddle2.force == old(paddle2.force)
    {
      ghost var b0, q1, q2 := ball.Snap(), paddle1.Snap(), paddle2.Snap();
      paddle1.force := input;
      assert ball.Snap() == b0 && paddle1.Snap() == q1;
      AtRestStays(paddle1.Snap(), Arena());
      AtRestStays(paddle2.Snap(), Arena());
      var sprites := [paddle1, paddle2, ball];
      movement.Process(sprites);
      assert sprites[2].x == MovedX(b0, Arena()) && sprites[2].y == MovedY(b0, Arena());
      assert sprites[0].y == MovedY(q1, Arena()) && sprites[1].y == MovedY(q2, Arena());
      assert Inside(paddle1.Snap(), Arena()) && Inside(paddle2.Snap(), Arena()) && Inside(ball.Snap(), Arena())
      by {
        assert Fits(old(paddle1.Snap()), Arena()) && Fits(old(paddle2.Snap()), Arena());
        assert Fits(old(ball.Snap()), Arena());
        assert sprites[0] == paddle1 && sprites[1] == paddle2 && sprites[2] == ball;
      }
      ghost var v1, v2 := paddle1.vy, paddle2.vy;
      assert v1 == q1.vy && v2 == q2.vy;
      var players := [paddle1, paddle2];
      momentum.Process(players, dT);
      assert players[0].vy == NextVy(v1, input, paddle1.vmin, paddle1.vmax, dT);
      assert players[1].vy == NextVy(v2, paddle2.force, paddle2.vmin, paddle2.vmax, dT);
    }

    /** The collision stage of a frame: only the ball changes, to `Collided` of itself and the
        first paddle it overlaps (whichever order the paddles are taken in); it is put in the
        middle exactly when it is at the left or right bound. */
    method Collide(resetVy: int)
      requires Valid()
      requires -2 <= resetVy <= 2
      modifies ball
      ensures Valid() && paddle1.force == old(paddle1.force)
      ensures ball.Snap() ==
        Collided(old(ball.Snap()), FirstPaddleHit(paddle1.Snap(), paddle2.Snap(), old(ball.Snap())), Arena(), resetVy)
      ensures ball.Snap() ==
        Collided(old(ball.Snap()), FirstPaddleHit(paddle2.Snap(), paddle1.Snap(), old(ball.Snap())), Arena(), resetVy)
      ensures if AtGoal(old(ball.Snap()), Arena()) then ball.x == ResetX && ball.y == ResetY
        else ball.x == old(ball.x) && ball.y == old(ball.y)
    {
      var sprites := [paddle1, paddle2, ball];
      ghost var hit := FirstHit(sprites, ball);
      ghost var before := ball.Snap();
      assert hit.Some? ==> hit.value.h == 100 && before.y < hit.value.y + 100 && before.y + 20 > hit.value.y
      by {
        var hs := Hits(sprites, ball);
        if hs != [] {
          assert hs[0] in sprites && OverlapsBall(hs[0], ball);
        }
      }
      FirstHitOfPaddles(paddle1, paddle2, ball);
      PaddleOrderIrrelevant(paddle1.Snap(), paddle2.Snap(), before);
      BallStaysValid(before, hit, resetVy);
      collision.Process(sprites, resetVy);
    }

    /** The AI stage of a frame: only forces change; the AI paddle's force is chosen from the
        ball as it is now, and with the ball's `vx` at `BALL_SPEED` either way the AI never
        divides by zero. */
    method RunAI(jitter: seq<Jitter>) returns (err: bool)
      requires Valid()
      requires |jitter| == 2 && JitterInRange(jitter[0]) && JitterInRange(jitter[1])
      modifies paddle1, paddle2
      ensures Valid() && !err
      ensures paddle1.force == old(paddle1.force)
      ensures paddle2.force == BaseForce || paddle2.force == 0 || paddle2.force == -BaseForce
      ensures Chosen(paddle2.force) == ChooseForce(paddle2.Snap(), ball.Snap(), GameHeight, jitter[1])
      ensures paddle1.Snap() == old(paddle1.Snap()) && paddle2.Snap() == old(paddle2.Snap())
      ensures ball.Snap() == old(ball.Snap())
      ensures unchanged(matchState)
    {
      var players := [paddle1, paddle2];
      ghost var s1, s2 := paddle1.Snap(), paddle2.Snap();
      err := aicontroller.Process(players, jitter);
      assert players[0].Snap() == s1 && players[1].Snap() == s2;
      assert players[1].ai && !players[0].ai;
    }
  }
}
