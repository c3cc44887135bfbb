# Pong simulation systems in Dafny

This project models the simulation core of a two-paddle Pong game written against pysdl2's
entity-component `World`. Each frame runs these systems over the entities:

- the **movement system** adds each sprite's velocity to its position and clamps the sprite to
  the arena;
- the **momentum system** turns a paddle's force into a change of its vertical speed over the
  elapsed time;
- the **score tracker** counts a point when the ball reaches the left or right bound;
- the **collision system** rebounds the ball off the first paddle it overlaps and off the top and
  bottom bounds, and puts it back in the middle after a pass;
- the **tracking AI** picks the force of the computer's paddle.

The model is imperative, like the source:

- **Entities.** A game entity (paddle or ball) is an `Entity` object. Its sprite position,
  Velocity and Force are fields that the systems update in place.
- **Systems.** Each system is a class with a `Process` method, proved against a pure function of
  the old state. The movement, momentum and AI systems loop over a sequence of entities
  (`MovedX`/`MovedY`, `NextVy`, `ChooseForce`). The collision system filters its entities through
  the recursive `Hits` and then updates the ball (`Collided`). The score tracker reads the ball
  and updates the score, with no loop (`ScoreAfter`).
- **Lemmas.** The properties of the game are lemmas about those functions.
- **The world.** `Pong.World` assembles the game as `run` sets it up. `Tick` runs one frame in
  the order the systems are added to the world: movement, momentum, score, collision, AI. Its
  contract states the new state as that composition:
  - each paddle's y is moved with its old `vy`, and only then is `vy` updated by `NextVy`;
  - the score is taken from the moved ball;
  - the ball is `Collided` of the moved ball and the first paddle it overlaps;
  - the AI paddle's force is `ChooseForce` of the collided ball.

  `Tick` preserves the invariant `Valid`. Because of it, the AI's division by the ball's `vx`
  never fails. `Tick` also counts a pass exactly once, in the same frame that puts the ball back
  in the middle.

Points where the code behaves differently from what one might expect, and the model follows it:

- **Speed bound.** The momentum system does not keep `vy` within `[min, max]`
  (`Momentum.ForceCanPassMax`).
- **Decay.** The decay does not stop at zero (`Momentum.DecayCanFlipSign`).
- **System order.** The systems run in the order the code adds them. Movement comes before
  momentum, and score before collision.
- **AI adjustment.** The AI adjusts an off-screen target only when the ball is closer than
  `0.75 * GAME_WIDTH`; when it is farther, the force is 0.
- **No match end.** There is no match-over rule: `winCondition` is never read. The game still
  stops: the renderer looks up `NUMBERS[score]`, which holds the digits 0-9 only, so on the
  first frame after either counter reaches 10 it raises KeyError and `run` ends. `Tick` does
  not model that stop and scores without limit.

Numbers:

- Positions and sizes are `int`s.
- Python floats are modelled as exact `real`s.
- `int()` on a float truncates toward zero (`Numbers.Trunc`).
- `round` rounds half to even (`Numbers.Round`).
- Every `//` in the game has a positive divisor, so Python's floor division is Dafny's `/`.

## Model

| member | source | states |
|---|---|---|
| Numbers.Trunc | pysdl2_pong.py:87-88 | `int(vy)` is the integer between 0 and `vy` that is less than 1 away from it |
| Numbers.Round | pysdl2_pong.py:175-178 | `round` gives an integer within 1/2 of its argument, and an even one on a tie |
| Numbers.RoundUnique | pysdl2_pong.py:175-178 | the half-to-even rule has exactly one answer |
| Numbers.RoundSevenTenths | pysdl2_pong.py:174-178 | over exact reals, `round(factor * 0.7)` equals `(7 * factor + 5) / 10`, except one less when `factor % 20 == 15` |
| Movement.ClampAxis | pysdl2_pong.py:89-100 | after the clamp the far edge is within the bound, and the near edge too when the sprite fits |
| Movement.MovementSystem.constructor | pysdl2_pong.py:72-78 | the system keeps the arena bounds `minx`, `miny`, `maxx`, `maxy` it is given (0, 0, 800, 800 in `run`) |
| Movement.ClampExactContact | pysdl2_pong.py:89-100 | a position inside is kept; an undershoot lands exactly on the near bound; an overshoot exactly on `max - size` |
| Movement.ClampOversized | pysdl2_pong.py:95-100 | a sprite larger than the arena ends on `max - size` |
| Movement.ClampIdempotent | pysdl2_pong.py:89-100 | clamping a clamped position changes nothing |
| Movement.MovedX | pysdl2_pong.py:86-98 | definition: `x + int(vx)`, raised to `minx`, then pulled back to `maxx - width` if the far edge passes `maxx`; properties in `ClampAxis`, `ClampExactContact`, `MovedInside`, `AtRestStays` |
| Movement.MovedY | pysdl2_pong.py:88-100 | definition: the same for `y`, `int(vy)`, `miny`, `maxy` and the height; properties in `ClampAxis`, `MovedInside` |
| Movement.MovedInside | pysdl2_pong.py:83-100 | after moving, every sprite that fits the arena lies inside it |
| Movement.AtRestStays | pysdl2_pong.py:86-100 | a sprite inside the arena with `vx == 0` keeps its x |
| Movement.MovementSystem.Process | pysdl2_pong.py:82-100 | each entity's new x and y are the moved and clamped ones; speeds and force unchanged; fitting sprites end inside |
| Momentum.NoTimeNoChange | pysdl2_pong.py:118-133 | with `dT == 0`, `vy` is unchanged |
| Momentum.DecayWithoutForce | pysdl2_pong.py:129-133 | with no force, positive `vy` drops by `15 * dT`, negative rises by `15 * dT`, zero stays zero |
| Momentum.ForceAccelerates | pysdl2_pong.py:118-128 | within the bound, `vy` changes by `force * dT` in the force's direction |
| Momentum.ForceBeyondBoundPullsBack | pysdl2_pong.py:119-126 | beyond the bound in the force's direction, `vy` moves back by `abs(force) * dT` |
| Momentum.DecayCanFlipSign | pysdl2_pong.py:129-131 | one second of decay from `vy = 1` gives -14 |
| Momentum.ForceCanPassMax | pysdl2_pong.py:124-128 | one second of full force from `vy = 8` gives 38 |
| Momentum.MomentumSystem.Process | pysdl2_pong.py:109-133 | each entity's new `vy` follows the three-way rule `NextVy`; position, `vx` and force unchanged |
| Momentum.MomentumSystem.constructor | pysdl2_pong.py:104-107 | the system has no configuration; `lastUpdate` and `SDL_GetTicks` are left out (see "## Left out"), the elapsed time is a parameter of `Process` |
| Momentum.NextVy | pysdl2_pong.py:118-133 | definition: the three-way rule on the sign of the force with the bound checks, and decay by `BASE_FORCE/2` without force; properties in `NoTimeNoChange`, `DecayWithoutForce`, `ForceAccelerates`, `ForceBeyondBoundPullsBack`, `DecayCanFlipSign`, `ForceCanPassMax` |
| Collision.OverlapIffCommonPoint | pysdl2_pong.py:148-157 | the overlap test holds exactly when the two open rectangles share a point |
| Collision.TouchingIsNoOverlap | pysdl2_pong.py:156-157 | rectangles that only share an edge do not overlap |
| Collision.OverlapSymmetric | pysdl2_pong.py:156-157 | the test is symmetric in the two rectangles |
| Collision.BallNeverHitsItself | pysdl2_pong.py:150-151 | the ball never overlaps itself |
| Collision.Overlap | pysdl2_pong.py:153-157 | definition: the strict four-way comparison of the two areas; properties in `OverlapIffCommonPoint`, `TouchingIsNoOverlap`, `OverlapSymmetric` |
| Collision.OverlapsBall | pysdl2_pong.py:148-157 | definition: `_overlap`, false for the ball itself, else `Overlap` of the areas; properties in `BallNeverHitsItself`, `Hits` |
| Collision.Hits | pysdl2_pong.py:163 | `collitems` holds exactly the overlapping entities, and its head is the first of them in order |
| Collision.FirstHit | pysdl2_pong.py:163-168 | definition: the sprite of `collitems[0]`, or none when `collitems` is empty; properties in `Hits`, `Pong.FirstHitOfPaddles` |
| Collision.StepSize | pysdl2_pong.py:170-171 | definition: `size[1] // 2 // 10`; properties in `ReboundBounded` (5 for a 100-high paddle) |
| Collision.OffCentre | pysdl2_pong.py:169-177 | definition: the ball centre differs from the paddle centre, the two branches that divide by `stepSize`; used by `CanRebound` |
| Collision.CanRebound | pysdl2_pong.py:168-178 | definition: an off-centre first hit needs a positive `stepSize`; established by `CollidedVyBounded` and `Pong.BallStaysValid` |
| Collision.ReboundSpeed | pysdl2_pong.py:169-178 | the rebound speed `round(factor * 0.7)` is never negative |
| Collision.ReboundDirection | pysdl2_pong.py:166-181 | above the paddle centre the ball goes up (or level), below down (or level), at the centre `vy` reverses; size `round(0.7 * factor)` |
| Collision.ReboundVy | pysdl2_pong.py:169-181 | definition: `-int(round(factor * 0.7))` above the centre, `int(round(factor * 0.7))` below, `-vy` at it; properties in `ReboundDirection`, `ReboundBounded` |
| Collision.ReboundBounded | pysdl2_pong.py:166-179 | for the game's paddles and ball, `factor <= 11`, `round` is half-up and the new `abs(vy) <= 8` |
| Collision.AfterPaddles | pysdl2_pong.py:164-181 | definition: without a hit the ball is kept, with one `vx` is reversed and `vy` is `ReboundVy`; properties in `CollidedVx`, `PaddleHit` |
| Collision.AtWall | pysdl2_pong.py:184 | definition: `y` is `miny` or `maxy - height`; properties in `WallBounce`, `PaddleHit` |
| Collision.AtGoal | pysdl2_pong.py:187 | definition: `x` is `minx` or `maxx - width`; properties in `PassResets`, `CollidedPosition` |
| Collision.Collided | pysdl2_pong.py:161-190 | definition: paddle rebound, then wall bounce, then the reset after a pass; properties in `CollidedVx`, `PaddleHit`, `WallBounce`, `PassResets`, `QuietFrame`, `CollidedVyBounded`, `CollidedPosition` |
| Collision.CollidedVx | pysdl2_pong.py:164-190 | size is kept, and `vx` flips once for any number of overlapping paddles and once more for a pass |
| Collision.PaddleHit | pysdl2_pong.py:164-185 | a hit that is not a pass flips `vx` once and sets `vy` by the rebound rule, reversed again at a wall |
| Collision.WallBounce | pysdl2_pong.py:184-185 | at the top or bottom bound `vy` reverses, and nothing else changes |
| Collision.PassResets | pysdl2_pong.py:187-190 | at the left or right bound the ball goes to (390, 390), `vx` flips and `vy` is the drawn value |
| Collision.QuietFrame | pysdl2_pong.py:161-190 | with no hit, wall or pass, the ball is untouched |
| Collision.CollidedVyBounded | pysdl2_pong.py:164-190 | with the game's sizes, `abs(vy) <= 8` is kept |
| Collision.CollidedPosition | pysdl2_pong.py:184-190 | the ball moves only when it is reset after a pass |
| Collision.CollisionSystem.Process | pysdl2_pong.py:161-190 | the ball's new state is `Collided` of its old state and the first overlapping paddle; only the ball is written; needs a positive `stepSize` only for an off-centre hit, where the source divides by it |
| Collision.CollisionSystem.constructor | pysdl2_pong.py:138-145 | the system keeps the bounds it is given (0, 0, 800, 800 in `run`) and the ball `run` hands it at line 367 |
| TrackingAI.ChooseForce | pysdl2_pong.py:207-244 | the force is 30, 0 or -30, and the division fails exactly when the ball's `vx` is 0 |
| TrackingAI.ReturnToCentre | pysdl2_pong.py:217-222 | definition: +30 below `maxy // 2 - 30`, -30 above `maxy // 2 + 30`, else 0; properties in `Receding` |
| TrackingAI.TargetY | pysdl2_pong.py:226 | definition: `(XToBall / ballVelX) * ballVelY + ballY` in true division, for a non-zero `ballVelX`; properties in `Tracking`, `FarBallIgnored` |
| TrackingAI.AdjustTarget | pysdl2_pong.py:232-235 | definition: a target past either edge pulled back by the drawn factor; properties in `TargetInArenaUnadjusted`, `AdjustedTargetReflects` |
| TrackingAI.Steer | pysdl2_pong.py:237-242 | definition: +30 when the target exceeds the paddle centre by more than 30, -30 when it is more than 30 short of it, else 0; properties in `Tracking` |
| TrackingAI.Receding | pysdl2_pong.py:214-222 | for a receding ball: force 0 exactly inside `maxy // 2 ± 30`, +30 above the band, -30 below it |
| TrackingAI.FarBallIgnored | pysdl2_pong.py:228-244 | an approaching ball 600 or more away gives force 0 |
| TrackingAI.Tracking | pysdl2_pong.py:226-242 | an approaching ball nearer than 600: force 0 exactly when the adjusted target is within 30 of the paddle centre, else toward it |
| TrackingAI.TargetInArenaUnadjusted | pysdl2_pong.py:232-235 | a target inside `[0, GAME_HEIGHT]` is not adjusted |
| TrackingAI.AdjustedTargetReflects | pysdl2_pong.py:232-235 | a target below the arena is moved back above its bottom; one above it is moved to the other side of 0, between 0.3 and 1.8 times its distance |
| TrackingAI.PullBack | pysdl2_pong.py:233-235 | scaling the distance to an edge by a factor in `[lo, hi]` puts the result between `lo - 1` and `hi - 1` times that distance past the edge |
| TrackingAI.TrackingAIController.Process | pysdl2_pong.py:202-244 | every AI paddle's force is `ChooseForce`; others keep their force; nothing else changes; error exactly when `vx == 0` and an AI paddle exists |
| TrackingAI.TrackingAIController.constructor | pysdl2_pong.py:195-200 | the controller keeps `miny`, `maxy` (0 and 800 in `run`) and the ball `run` hands it at line 368 |
| Scoring.ScoreAfter | pysdl2_pong.py:272-277 | ball at `minx` adds one to `score[1]`; otherwise at `maxx - w` adds one to `score[0]`; otherwise no change |
| Scoring.ScoreMonotone | pysdl2_pong.py:274-277 | no counter decreases, and at most one point is scored per call |
| Scoring.PointIffAtBound | pysdl2_pong.py:274-277 | the score changes exactly when the ball is at the left or right bound |
| Scoring.ScoreTracker.Process | pysdl2_pong.py:272-277 | the new score is `ScoreAfter` of the old score and the ball's x; only the score is written |
| Scoring.ScoreTracker.constructor | pysdl2_pong.py:263-270 | the tracker keeps the bounds `minx`, `maxx` (0 and 800 in `run`), and the ball and the match `run` hands it at lines 369 and 373 |
| Components.Entity.Player | pysdl2_pong.py:283-319 | a paddle starts with zero Velocity, bounds ±8, zero Force and its `ai` flag |
| Components.Entity.Ball | pysdl2_pong.py:321-325 | the ball starts with zero Velocity and bounds ±8 |
| Components.MatchState.constructor | pysdl2_pong.py:304-307 | a match starts at `[0, 0]` |
| Pong.OnePaddleAtMost | pysdl2_pong.py:163-165 | the game's two paddles never both overlap the ball |
| Pong.FirstPaddleHit | pysdl2_pong.py:163-167 | the hit is a paddle the ball overlaps, the first one if it overlaps that, and none exactly when it overlaps neither |
| Pong.FirstHitOfPaddles | pysdl2_pong.py:163-167 | handed `[paddle1, paddle2, ball]`, `collitems[0]` is the first paddle the ball overlaps |
| Pong.PaddleOrderIrrelevant | pysdl2_pong.py:163-167 | for the game's paddles the hit does not depend on the order the paddles are handed over |
| Pong.BallStaysValid | pysdl2_pong.py:161-190 | the collision system keeps the ball's size, `abs(vx) == 7`, `abs(vy) <= 8` and its place inside the arena |
| Pong.World.Valid | pysdl2_pong.py:316-351 | definition of the frame invariant: the entities and systems wired as `run` wires them, the game's sizes and paddle columns, `abs(vx) == 7`, `abs(vy) <= 8` for the ball, every sprite inside the arena; established by the constructor and kept by `Tick`, `Move`, `Collide`, `RunAI` |
| Pong.World.constructor | pysdl2_pong.py:339-374 | the set-up of `run`: paddles at (20, 350) and (760, 350), ball at (390, 390) with `vx = 7` and the drawn `vy`; both paddles at rest (`vy = 0`, `force = 0`); the score `[0, 0]`; the invariant holds |
| Pong.World.Tick | pysdl2_pong.py:346-351 | one frame is movement, then momentum, score, collision and AI: paddle y from the old `vy`, then `NextVy`; the ball `Collided` after moving; the AI force `ChooseForce` of the collided ball; the invariant is kept; the AI never fails; a moved ball at x 0 or 780 scores one point for the other side and is put at (390, 390) |
| Pong.World.Move | pysdl2_pong.py:347-348 | the input force, then movement (every sprite moved with its old speed), then momentum (paddle `vy` by `NextVy`); the invariant is kept |
| Pong.World.Collide | pysdl2_pong.py:350 | the ball becomes `Collided` of itself and the first paddle it overlaps, in either paddle order; the invariant is kept |
| Pong.World.RunAI | pysdl2_pong.py:351 | the AI paddle's force is `ChooseForce` of the current paddle and ball; only forces change; the AI never fails |

## Left out

- Rendering (`SoftwareRenderer.render`, `renderScore`) and the `NUMBERS` digit table are not modelled: they draw to an SDL surface. `renderScore` looks up `NUMBERS[score]`, which holds digits 0-9 only, so the first frame after either counter reaches 10 raises KeyError and the game stops; `Tick` does not model that stop.
- The window, the sprite factory, the game controller, the event loop, `SDL_Delay` and the quit path in `run` are I/O. The player's input enters `Tick` as a force of -30, 0 or 30.
- `SDL_GetTicks` and `lastUpdate` are not modelled: the momentum system takes the elapsed time `dT >= 0` in seconds as a parameter.
- The draws of `random.randint(-2, 2)` and `random.uniform` are parameters with their ranges as preconditions. Both AI draws are always supplied; the source draws one only when the target is off-screen.
- Floats are exact `real`s. IEEE rounding of `dT`, `targetY` and `factor * 0.7` is not modelled.
- pysdl2's component-type dispatch is not modelled: each system is handed its entity sequence explicitly. Movement and collision get paddles and ball; momentum and the AI get the paddles.
- `TrackingAIController.miny` is kept in the class but never read, as in the source.
- The commented-out dash code is not modelled.
- `MatchState.rally`, `MatchState.winCondition` and `PlayerData.points` are not modelled: no code reads them.
- Collision.CollisionSystem.Process: requires a positive step size `h / 2 / 10` whenever the first overlapping entity is hit off its centre. There the source raises ZeroDivisionError, after it has already reversed `vx`, and that error path is not modelled.
- TrackingAI.TrackingAIController.Process: the per-paddle decision is the pure function `ChooseForce` called inside the loop. The source computes the same decision inline, but these steps are not modelled one by one.
