/** The score tracker: counts a point for the right-hand player when the ball reaches the left
    bound and for the left-hand player when it reaches the right bound. */
module Scoring {
  import opened Components

  /** The score after one `process`: counter 1 gains a point when the ball's x is `minx`,
      otherwise counter 0 gains one when the ball's right edge is at `maxx`. */
  function ScoreAfter(score: seq<nat>, ballX: int, ballW: int, minx: int, maxx: int): (r: seq<nat>)
    requires |score| == 2
    ensures |r| == 2
    ensures ballX == minx ==> r == [score[0], score[1] + 1]
    ensures ballX != minx && ballX == maxx - ballW ==> r == [score[0] + 1, score[1]]
    ensures ballX != minx && ballX != maxx - ballW ==> r == score
  {
    if ballX == minx then score[1 := score[1] + 1]
    else if ballX == maxx - ballW then score[0 := score[0] + 1]
    else score
  }

  /** No counter ever goes down, and at most one point is scored per call. */
  lemma ScoreMonotone(score: seq<nat>, ballX: int, ballW: int, minx: int, maxx: int)
    requires |score| == 2
    ensures var r := ScoreAfter(score, ballX, ballW, minx, maxx);
      score[0] <= r[0] && score[1] <= r[1] && r[0] + r[1] <= score[0] + score[1] + 1
  {
  }

  /** A point is scored exactly when the ball is at the left or the right bound. */
  lemma PointIffAtBound(score: seq<nat>, ballX: int, ballW: int, minx: int, maxx: int)
    requires |score| == 2
    ensures var r := ScoreAfter(score, ballX, ballW, minx, maxx);
      r != score <==> ballX == minx || ballX == maxx - ballW
  {
  }

  class ScoreTracker {
    const minx: int
    const maxx: int
    const ball: Entity
    const matchState: MatchState

    constructor (minx: int, maxx: int, ball: Entity, matchState: MatchState)
      ensures this.minx == minx && this.maxx == maxx
      ensures this.ball == ball && this.matchState == matchState
    {
      this.minx, this.maxx := minx, maxx;
      this.ball, this.matchState := ball, matchState;
    }

    /** `process`: updates the match score from the ball's current position. */
    method Process()
      requires |matchState.score| == 2
      modifies matchState
      ensures matchState.score == ScoreAfter(old(matchState.score), ball.x, ball.w, minx, maxx)
    {
      if ball.x == minx {
        matchState.score := matchState.score[1 := matchState.score[1] + 1];
      } else if ball.x == maxx - ball.w {
        matchState.score := matchState.score[0 := matchState.score[0] + 1];
      }
    }
  }
}
