/** The collision detector: a read-only classifier that looks at the ball,
    the canvas edges and the two paddles and names the one event that
    happens, edges first. */
module Collisions {
  import opened Rectangles

  /** `Pong.Collision`. */
  datatype Collision = None | LeftEdge | TopEdge | RightEdge | BottomEdge | LeftPaddle | RightPaddle

  predicate IsBallAtLeftEdge(ball: Box) {
    ball.posX <= 0.0
  }

  predicate IsBallAtRightEdge(arenaWidth: real, ball: Box) {
    ball.posX + ball.width >= arenaWidth
  }

  predicate IsBallAtTopEdge(ball: Box) {
    ball.posY <= 0.0
  }

  predicate IsBallAtBottomEdge(arenaHeight: real, ball: Box) {
    ball.posY + ball.height >= arenaHeight
  }

  /** Some edge condition holds. */
  predicate AtSomeEdge(arenaWidth: real, arenaHeight: real, ball: Box) {
    IsBallAtLeftEdge(ball) || IsBallAtRightEdge(arenaWidth, ball)
    || IsBallAtTopEdge(ball) || IsBallAtBottomEdge(arenaHeight, ball)
  }

  /** `detect()`: the first of left edge, right edge, top edge, bottom edge,
      left paddle, right paddle that holds, or `None`. Each tag is returned
      exactly when its own condition holds and no earlier one does. */
  function Detect(arenaWidth: real, arenaHeight: real, ball: Box, leftPaddle: Box, rightPaddle: Box): (r: Collision)
    ensures r == LeftEdge <==> IsBallAtLeftEdge(ball)
    ensures r == RightEdge <==> !IsBallAtLeftEdge(ball) && IsBallAtRightEdge(arenaWidth, ball)
    ensures r == TopEdge <==>
              !IsBallAtLeftEdge(ball) && !IsBallAtRightEdge(arenaWidth, ball) && IsBallAtTopEdge(ball)
    ensures r == BottomEdge <==>
              !IsBallAtLeftEdge(ball) && !IsBallAtRightEdge(arenaWidth, ball) && !IsBallAtTopEdge(ball)
              && IsBallAtBottomEdge(arenaHeight, ball)
    ensures r == LeftPaddle <==> !AtSomeEdge(arenaWidth, arenaHeight, ball) && IsOverlapping(ball, leftPaddle)
    ensures r == RightPaddle <==>
              !AtSomeEdge(arenaWidth, arenaHeight, ball) && !IsOverlapping(ball, leftPaddle)
              && IsOverlapping(ball, rightPaddle)
    ensures r == None <==>
              !AtSomeEdge(arenaWidth, arenaHeight, ball) && !IsOverlapping(ball, leftPaddle)
              && !IsOverlapping(ball, rightPaddle)
  {
    if IsBallAtLeftEdge(ball) then LeftEdge
    else if IsBallAtRightEdge(arenaWidth, ball) then RightEdge
    else if IsBallAtTopEdge(ball) then TopEdge
    else if IsBallAtBottomEdge(arenaHeight, ball) then BottomEdge
    else if IsOverlapping(ball, leftPaddle) then LeftPaddle
    else if IsOverlapping(ball, rightPaddle) then RightPaddle
    else None
  }

  /** A ball past the left edge is reported as `LeftEdge` even when it also
      overlaps the left paddle. */
  lemma EdgeBeatsPaddle(arenaWidth: real, arenaHeight: real, ball: Box, leftPaddle: Box, rightPaddle: Box)
    requires ball.posX <= 0.0 && IsOverlapping(ball, leftPaddle)
    ensures Detect(arenaWidth, arenaHeight, ball, leftPaddle, rightPaddle) == LeftEdge
  {
  }

  /** When nothing is detected the ball lies strictly inside the canvas. */
  lemma NoneMeansInside(arenaWidth: real, arenaHeight: real, ball: Box, leftPaddle: Box, rightPaddle: Box)
    requires Detect(arenaWidth, arenaHeight, ball, leftPaddle, rightPaddle) == None
    ensures 0.0 < ball.posX && ball.posX + ball.width < arenaWidth
    ensures 0.0 < ball.posY && ball.posY + ball.height < arenaHeight
  {
  }
}
