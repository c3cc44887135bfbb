/** The tracking AI: sets the Force of every AI paddle so that it returns to the middle while the
    ball moves away and heads for the ball's projected height while the ball approaches. */
module TrackingAI {
  import opened Components

  /** Half-width of the dead zone around the paddle centre (`momentumAdjustment`). */
  const MomentumAdjustment: int := 30

  /** The two `random.uniform` draws: the overshoot factor for a target below the arena
      (`uniform(1.5, 2.5)`) and the one for a target above it (`uniform(1.3, 2.8)`). */
  datatype Jitter = Jitter(below: real, above: real)

  predicate JitterInRange(j: Jitter) {
    1.5 <= j.below <= 2.5 && 1.3 <= j.above <= 2.8
  }

  /** The outcome of the choice for one paddle: a force, or the division by a zero `ballVelX`. */
  datatype Choice = Chosen(force: int) | ZeroDivisionError

  function Abs(r: real): real {
    if r < 0.0 then -r else r
  }

  /** While the ball recedes: push toward the middle height `maxy // 2` unless within 30 of it. */
  function ReturnToCentre(paddleY: int, maxy: int): int {
    if paddleY < maxy / 2 - 30 then BaseForce
    else if paddleY > maxy / 2 + 30 then -BaseForce
    else 0
  }

  /** A target outside the arena is pulled back past the edge by a random factor. */
  function AdjustTarget(targetY: real, j: Jitter): real {
    if targetY > GameHeight as real then
      targetY - (Abs(targetY) - GameHeight as real) * j.below
    else if targetY < 0.0 then
      targetY + Abs(targetY) * j.above
    else targetY
  }

  /** Head for `targetY` unless it is within the dead zone of the paddle centre. */
  function Steer(targetY: real, paddleY: int): int {
    if targetY > (paddleY + MomentumAdjustment) as real then BaseForce
    else if targetY < (paddleY - MomentumAdjustment) as real then -BaseForce
    else 0
  }

  /** The straight-line projection of the ball's bottom edge to the paddle's x. */
  function TargetY(xToBall: int, ballVelX: int, ballVelY: real, ballY: int): real
    requires ballVelX != 0
  {
    (xToBall as real / ballVelX as real) * ballVelY + ballY as real
  }

  /** The force the AI gives `paddle` for the ball `ball`; `paddleY` is the paddle's centre and
      `ballY` the ball's bottom edge. */
  function ChooseForce(paddle: Snapshot, ball: Snapshot, maxy: int, j: Jitter): (c: Choice)
    ensures c.ZeroDivisionError? <==> ball.vx == 0
    ensures c.Chosen? ==> c.force == BaseForce || c.force == 0 || c.force == -BaseForce
  {
    var ballX := ball.x;
    var ballY := ball.y + ball.h;
    var paddleY := paddle.y + paddle.h / 2;
    var xToBall := paddle.x - ballX;
    if ball.vx < 0 then
      Chosen(ReturnToCentre(paddleY, maxy))
    else if ball.vx == 0 then
      ZeroDivisionError
    else
      var targetY := TargetY(xToBall, ball.vx, ball.vy, ballY);
      if (xToBall as real) < GameWidth as real * 0.75 then
        Chosen(Steer(AdjustTarget(targetY, j), paddleY))
      else
        Chosen(0)
  }

  /** While the ball recedes the force is 0 exactly inside the band of 30 around the middle
      height, +30 above the band (smaller y) and -30 below it. */
  lemma Receding(paddle: Snapshot, ball: Snapshot, maxy: int, j: Jitter)
    requires ball.vx < 0
    ensures var paddleY := paddle.y + paddle.h / 2;
      var c := ChooseForce(paddle, ball, maxy, j);
      && (c.force == 0 <==> maxy / 2 - 30 <= paddleY <= maxy / 2 + 30)
      && (paddleY < maxy / 2 - 30 <==> c.force == 30)
      && (paddleY > maxy / 2 + 30 <==> c.force == -30)
  {
  }

  /** An approaching ball still 600 or more away is ignored. */
  lemma FarBallIgnored(paddle: Snapshot, ball: Snapshot, maxy: int, j: Jitter)
    requires ball.vx > 0 && paddle.x - ball.x >= 600
    ensures ChooseForce(paddle, ball, maxy, j) == Chosen(0)
  {
  }

  /** An approaching ball within 600 is tracked: the force is 0 exactly when the (adjusted)
      target is within 30 of the paddle centre, and otherwise points toward the target. */
  lemma Tracking(paddle: Snapshot, ball: Snapshot, maxy: int, j: Jitter)
    requires ball.vx > 0 && paddle.x - ball.x < 600
    ensures var paddleY := paddle.y + paddle.h / 2;
      var t := AdjustTarget(TargetY(paddle.x - ball.x, ball.vx, ball.vy, ball.y + ball.h), j);
      var c := ChooseForce(paddle, ball, maxy, j);
      && (c.force == 0 <==> (paddleY - 30) as real <= t <= (paddleY + 30) as real)
      && (c.force == 30 <==> t > (paddleY + 30) as real)
      && (c.force == -30 <==> t < (paddleY - 30) as real)
  {
  }

  /** A target inside [0, GAME_HEIGHT] is compared against the dead zone unchanged. */
  lemma TargetInArenaUnadjusted(targetY: real, j: Jitter)
    requires 0.0 <= targetY <= GameHeight as real
    ensures AdjustTarget(targetY, j) == targetY
  {
  }

  /** A target below the arena (beyond its height `H`) is moved back above `H` by between half
      and one and a half times its overshoot; one above the arena (negative) is moved to between
      0.3 and 1.8 times its distance beyond 0, on the other side of 0. */
  lemma {:induction false} AdjustedTargetReflects(targetY: real, j: Jitter)
    requires JitterInRange(j)
    ensures var t := AdjustTarget(targetY, j); var over := targetY - GameHeight as real;
      targetY > GameHeight as real ==>
        GameHeight as real - 1.5 * over <= t <= GameHeight as real - 0.5 * over < GameHeight as real
    ensures var t := AdjustTarget(targetY, j);
      targetY < 0.0 ==> 0.0 < 0.3 * -targetY <= t <= 1.8 * -targetY
  {
    if targetY > GameHeight as real {
      BelowReflected(targetY, j);
    } else if targetY < 0.0 {
      AboveReflected(targetY, j);
    }
  }

  lemma BelowReflected(targetY: real, j: Jitter)
    requires 1.5 <= j.below <= 2.5 && targetY > GameHeight as real
    ensures var over := targetY - GameHeight as real;
      GameHeight as real - 1.5 * over <= AdjustTarget(targetY, j) <= GameHeight as real - 0.5 * over
  {
    PullBack(targetY, GameHeight as real, j.below, 1.5, 2.5);
  }

  lemma AboveReflected(targetY: real, j: Jitter)
    requires 1.3 <= j.above <= 2.8 && targetY < 0.0
    ensures 0.3 * -targetY <= AdjustTarget(targetY, j) <= 1.8 * -targetY
  {
    PullBack(targetY, 0.0, j.above, 1.3, 2.8);
  }

  /** Moving `x` back across `edge` by `u` times its distance from it, for `lo <= u <= hi`, puts
      it between `lo - 1` and `hi - 1` times that distance on the other side. */
  lemma PullBack(x: real, edge: real, u: real, lo: real, hi: real)
    requires lo <= u <= hi
    ensures var d := x - edge; var r := x - d * u;
      (d >= 0.0 ==> edge - (hi - 1.0) * d <= r <= edge - (lo - 1.0) * d) &&
      (d <= 0.0 ==> edge - (lo - 1.0) * d <= r <= edge - (hi - 1.0) * d)
  {
    var d := x - edge;
    if d >= 0.0 {
      assert d * (u - lo) >= 0.0;
      assert d * (hi - u) >= 0.0;
    } else {
      assert -d * (u - lo) >= 0.0;
      assert -d * (hi - u) >= 0.0;
    }
  }

  class TrackingAIController {
    const miny: int
    const maxy: int
    const ball: Entity

    constructor (miny: int, maxy: int, ball: Entity)
      ensures this.miny == miny && this.maxy == maxy && this.ball == ball
    {
      this.miny, this.maxy, this.ball := miny, maxy, ball;
    }

    /** `process`: sets the force of every AI paddle; `jitter[i]` holds the random draws for
      `paddles[i]`. Failing with ZeroDivisionError (a ball with `vx == 0` and an AI paddle to
      steer) happens at the first AI paddle, before any force has been written. */
    method Process(paddles: seq<Entity>, jitter: seq<Jitter>) returns (err: bool)
      requires Distinct(paddles) && |jitter| == |paddles|
      requires forall i :: 0 <= i < |jitter| ==> JitterInRange(jitter[i])
      modifies paddles
      ensures err <==> ball.vx == 0 && exists i :: 0 <= i < |paddles| && paddles[i].ai
      ensures forall i :: 0 <= i < |paddles| && paddles[i].ai && !err ==>
        ChooseForce(old(paddles[i].Snap()), old(ball.Snap()), maxy, jitter[i]) == Chosen(paddles[i].force)
      ensures forall i :: 0 <= i < |paddles| && !(paddles[i].ai && !err) ==>
        paddles[i].force == old(paddles[i].force)
      ensures forall i :: 0 <= i < |paddles| ==> paddles[i].Snap() == old(paddles[i].Snap())
      ensures ball.Snap() == old(ball.Snap())
    {
      err := false;
      for i := 0 to |paddles|
        invariant forall k :: 0 <= k < i && paddles[k].ai ==>
          ChooseForce(old(paddles[k].Snap()), old(ball.Snap()), maxy, jitter[k]) == Chosen(paddles[k].force)
        invariant forall k :: 0 <= k < |paddles| && !(k < i && paddles[k].ai) ==>
          paddles[k].force == old(paddles[k].force)
        invariant forall k :: 0 <= k < |paddles| ==> paddles[k].Snap() == old(paddles[k].Snap())
        invariant ball.Snap() == old(ball.Snap())
        invariant ball.vx == 0 ==> forall k :: 0 <= k < i ==> !paddles[k].ai
      {
        var f := paddles[i];
        if !f.ai {
          continue;
        }
        var choice := ChooseForce(f.Snap(), ball.Snap(), maxy, jitter[i]);
        if choice.ZeroDivisionError? {
          err := true;
          return;
        }
        f.force := choice.force;
      }
    }
  }
}
