/** The computer player: a steering rule for the right paddle. */
module Steering {
  import opened Numeric
  import opened Rectangles
  import opened Paddles
  import opened Balls

  /** How far the ball's vertical centre is from the paddle's, in units of
      half the paddle's height: -1 is the paddle's top edge, 1 its bottom edge. */
  function SteeringOffset(ball: Box, paddle: Box): real
    requires paddle.height > 0.0
  {
    var paddleY := paddle.posY + paddle.height / 2.0;
    var ballY := ball.posY + ball.height / 2.0;
    (ballY - paddleY) / (paddle.height / 2.0)
  }

  /** The steering offset is the paddle offset of the deflection before
      scaling: `calcPaddleOffset` is its percentage, rounded. */
  lemma OffsetsAgree(ball: Box, paddle: Box)
    requires paddle.height > 0.0
    ensures CalcPaddleOffset(ball, paddle) == RoundHalfUp(SteeringOffset(ball, paddle) * 100.0)
  {
  }

  /** The vertical speed `followClosely` gives the paddle: full speed down
      from offset 1, full speed up from offset -1, and proportionally less in
      between. The speed never exceeds the move speed, is strictly below it
      inside the paddle, and points toward the ball. */
  function FollowSpeed(ball: Box, paddle: Box, moveSpeed: real): (r: real)
    requires paddle.height > 0.0
    ensures SteeringOffset(ball, paddle) >= 1.0 ==> r == moveSpeed
    ensures SteeringOffset(ball, paddle) <= -1.0 ==> r == -moveSpeed
    ensures -1.0 < SteeringOffset(ball, paddle) < 1.0 ==> r == moveSpeed * SteeringOffset(ball, paddle)
    ensures moveSpeed >= 0.0 ==> Abs(r) <= moveSpeed
    ensures moveSpeed > 0.0 && -1.0 < SteeringOffset(ball, paddle) < 1.0 ==> Abs(r) < moveSpeed
    ensures moveSpeed > 0.0 && SteeringOffset(ball, paddle) > 0.0 ==> r > 0.0
    ensures moveSpeed > 0.0 && SteeringOffset(ball, paddle) < 0.0 ==> r < 0.0
    ensures SteeringOffset(ball, paddle) == 0.0 ==> r == 0.0
  {
    var offset := SteeringOffset(ball, paddle);
    if offset >= 1.0 then moveSpeed
    else if offset <= -1.0 then -moveSpeed
    else
      ProportionalSpeed(moveSpeed, offset);
      moveSpeed * offset
  }

  /** A fraction of the move speed strictly between -1 and 1 stays below the
      move speed and keeps the sign of the fraction. */
  lemma ProportionalSpeed(moveSpeed: real, offset: real)
    requires -1.0 < offset < 1.0
    ensures moveSpeed >= 0.0 ==> Abs(moveSpeed * offset) <= moveSpeed
    ensures moveSpeed > 0.0 ==> Abs(moveSpeed * offset) < moveSpeed
    ensures moveSpeed > 0.0 && offset > 0.0 ==> moveSpeed * offset > 0.0
    ensures moveSpeed > 0.0 && offset < 0.0 ==> moveSpeed * offset < 0.0
    ensures offset == 0.0 ==> moveSpeed * offset == 0.0
  {
    if moveSpeed > 0.0 {
      if offset >= 0.0 {
        assert moveSpeed * offset < moveSpeed * 1.0;
      } else {
        assert moveSpeed * -offset < moveSpeed * 1.0;
      }
    }
  }

  /** The paddle state after `followClosely`: horizontal speed 0, vertical
      speed from `FollowSpeed`; position and accumulators untouched. */
  function FollowedClosely(ball: Box, g: Geometry, m: Motion, moveSpeed: real): (r: Motion)
    requires g.height > 0.0
    ensures r.speedX == 0.0
    ensures r.posX == m.posX && r.posY == m.posY
    ensures r.accumTimeX == m.accumTimeX && r.accumTimeY == m.accumTimeY
    ensures moveSpeed >= 0.0 ==> Abs(r.speedY) <= moveSpeed
  {
    WithSpeed(m, 0.0, FollowSpeed(ball, BoxOf(g, m), moveSpeed))
  }

  /** The paddle state after `followPerfectly`: its vertical centre is put on
      the ball's top edge, without clamping; speeds are untouched. */
  function FollowedPerfectly(ball: Box, g: Geometry, m: Motion): (r: Motion)
    ensures r.posY + g.height / 2.0 == ball.posY
    ensures r.(posY := m.posY) == m
  {
    m.(posY := ball.posY - g.height / 2.0)
  }

  /** `Pong.ComputerAI`: steers the right paddle after the ball. */
  class ComputerAI {
    const rightPaddle: Paddle
    const ball: Ball

    /** The paddle and the ball are different rectangles, and the paddle has a height to divide by. */
    predicate Valid() {
      rightPaddle.rect != ball.rect && rightPaddle.rect.height > 0.0
    }

    constructor (rightPaddle: Paddle, ball: Ball)
      ensures this.rightPaddle == rightPaddle && this.ball == ball
    {
      this.rightPaddle := rightPaddle;
      this.ball := ball;
    }

    method FollowClosely()
      requires Valid()
      modifies rightPaddle.rect
      ensures rightPaddle.rect.State()
              == FollowedClosely(ball.rect.Bounds(), rightPaddle.rect.Geom(), old(rightPaddle.rect.State()),
                                 rightPaddle.moveSpeed)
    {
      var paddleY := rightPaddle.rect.posY + rightPaddle.rect.height / 2.0;
      var ballY := ball.rect.posY + ball.rect.height / 2.0;
      var offset := (ballY - paddleY) / (rightPaddle.rect.height / 2.0);
      if offset >= 1.0 {
        rightPaddle.rect.SetSpeed(0.0, rightPaddle.moveSpeed);
      } else if offset <= -1.0 {
        rightPaddle.rect.SetSpeed(0.0, -rightPaddle.moveSpeed);
      } else {
        rightPaddle.rect.SetSpeed(0.0, rightPaddle.moveSpeed * offset);
      }
    }

    /** Needs no height to divide by, only distinct rectangles. */
    method FollowPerfectly()
      requires rightPaddle.rect != ball.rect
      modifies rightPaddle.rect
      ensures rightPaddle.rect.State()
              == FollowedPerfectly(ball.rect.Bounds(), rightPaddle.rect.Geom(), old(rightPaddle.rect.State()))
    {
      rightPaddle.rect.posY := ball.rect.posY - rightPaddle.rect.height / 2.0;
    }

    /** The policy the game uses: `followClosely`. */
    method Update()
      requires Valid()
      modifies rightPaddle.rect
      ensures rightPaddle.rect.State()
              == FollowedClosely(ball.rect.Bounds(), rightPaddle.rect.Geom(), old(rightPaddle.rect.State()),
                                 rightPaddle.moveSpeed)
    {
      FollowClosely();
    }
  }
}
