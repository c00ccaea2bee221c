/** The ball: a moving rectangle that remembers its starting position and
    speed, is served again after a point, and bounces off paddles at an
    angle that depends on where it hit them. */
module Balls {
  import opened Numeric
  import opened Rectangles
  import opened Paddles

  datatype Result<T> = Ok(value: T) | Err(message: string)

  /** The configured size, starting position and starting speed of the ball. */
  datatype BallConfig = BallConfig(width: real, height: real, posX: real, posY: real,
                                   speedX: real, speedY: real)

  /** `randInt(min, max)`, where `random` is the value `Math.random()`
      returned: an inverted range is an error, an empty one gives `max`,
      otherwise `floor(random * (max - min + 1) + min)`. */
  function RandInt(min: int, max: int, random: real): (r: Result<int>)
    requires 0.0 <= random < 1.0
    ensures r.Err? <==> min > max
    ensures min == max ==> r == Ok(max)
    ensures r.Ok? ==> min <= r.value <= max
  {
    if min > max then Err("randInt: min > max")
    else if min == max then Ok(max)
    else
      var span := (max - min + 1) as real;
      assert 0.0 <= random * span < span by {
        assert random * span < 1.0 * span;
      }
      Ok((random * span + min as real).Floor)
  }

  /** Every integer of a non-empty range is drawn by some value of `Math.random()`. */
  lemma RandIntCovers(min: int, max: int, v: int)
    requires min < max && min <= v <= max
    ensures exists random :: 0.0 <= random < 1.0 && RandInt(min, max, random) == Ok(v)
  {
    var span := (max - min + 1) as real;
    var random := (v - min) as real / span;
    FractionOfSpan((v - min) as real, span);
    var drawn := random * span + min as real;
    assert drawn == v as real;
    assert drawn.Floor == v;
    assert RandInt(min, max, random) == Ok(drawn.Floor);
  }

  /** `d / span` for `0 <= d < span` is a valid random value that scales back to `d`. */
  lemma FractionOfSpan(d: real, span: real)
    requires 0.0 <= d < span
    ensures 0.0 <= d / span < 1.0
    ensures d / span * span == d
  {
  }

  /** `calcPaddleOffset`: how far the ball's vertical centre is from the
      paddle's, as a rounded percentage of half the paddle's height. */
  function CalcPaddleOffset(ball: Box, paddle: Box): int
    requires paddle.height > 0.0
  {
    var ballCenterY := ball.posY + ball.height / 2.0;
    var paddleCenterY := paddle.posY + paddle.height / 2.0;
    var maxDistance := paddle.height / 2.0;
    var distance := ballCenterY - paddleCenterY;
    RoundHalfUp(distance / maxDistance * 100.0)
  }

  /** A ball centred on the paddle has offset 0; one centred on the
      paddle's bottom edge +100, on its top edge -100. */
  lemma PaddleOffsetLandmarks(ball: Box, paddle: Box)
    requires paddle.height > 0.0
    ensures ball.posY + ball.height / 2.0 == paddle.posY + paddle.height / 2.0 ==>
              CalcPaddleOffset(ball, paddle) == 0
    ensures ball.posY + ball.height / 2.0 == paddle.posY + paddle.height ==>
              CalcPaddleOffset(ball, paddle) == 100
    ensures ball.posY + ball.height / 2.0 == paddle.posY ==>
              CalcPaddleOffset(ball, paddle) == -100
  {
    var maxDistance := paddle.height / 2.0;
    assert maxDistance / maxDistance == 1.0;
    assert -maxDistance / maxDistance == -1.0;
  }

  /** The offset is non-negative for a ball below the paddle's centre and
      non-positive for one above it. */
  lemma PaddleOffsetSign(ball: Box, paddle: Box)
    requires paddle.height > 0.0
    ensures ball.posY + ball.height / 2.0 >= paddle.posY + paddle.height / 2.0 ==>
              CalcPaddleOffset(ball, paddle) >= 0
    ensures ball.posY + ball.height / 2.0 <= paddle.posY + paddle.height / 2.0 ==>
              CalcPaddleOffset(ball, paddle) <= 0
  {
    var maxDistance := paddle.height / 2.0;
    var distance := (ball.posY + ball.height / 2.0) - (paddle.posY + paddle.height / 2.0);
    if distance >= 0.0 {
      assert distance / maxDistance >= 0.0;
    } else {
      assert distance / maxDistance < 0.0;
    }
  }

  /** The state after `deflectOffPaddle(paddle)` for a ball moving
      horizontally: it is put 1 px outside the paddle on the side it came
      from (without clamping), its horizontal speed is reversed and its
      vertical speed becomes 8 times the offset measured before the move. */
  function Deflected(g: Geometry, m: Motion, paddle: Box): (r: Motion)
    requires m.speedX != 0.0 && paddle.height > 0.0
    ensures !IsOverlapping(BoxOf(g, r), paddle)
    ensures r.speedX == -m.speedX
    ensures r.speedY == (8 * CalcPaddleOffset(BoxOf(g, m), paddle)) as real
    ensures r.posY == m.posY && r.accumTimeX == m.accumTimeX && r.accumTimeY == m.accumTimeY
    ensures m.speedX < 0.0 ==> r.posX == paddle.posX + paddle.width + 1.0
    ensures m.speedX > 0.0 ==> r.posX + g.width == paddle.posX - 1.0
  {
    var bounceSpeed := CalcPaddleOffset(BoxOf(g, m), paddle) * 8;
    var x := if m.speedX < 0.0 then paddle.posX + paddle.width + 1.0
             else paddle.posX - g.width - 1.0;
    m.(posX := x, speedX := -m.speedX, speedY := bounceSpeed as real)
  }

  /** After the deflection the ball heads away from the paddle. */
  lemma DeflectedMovesAway(g: Geometry, m: Motion, paddle: Box)
    requires m.speedX != 0.0 && paddle.height > 0.0
    ensures m.speedX < 0.0 ==>
              Deflected(g, m, paddle).speedX > 0.0 && Deflected(g, m, paddle).posX > paddle.posX + paddle.width
    ensures m.speedX > 0.0 ==>
              Deflected(g, m, paddle).speedX < 0.0 && Deflected(g, m, paddle).posX + g.width < paddle.posX
  {
  }

  /** The served state after `reset`, where `random` is what `Math.random()`
      returned: the starting position (through `setPosition`, so clamped),
      the starting horizontal speed and a vertical speed drawn from
      [-200, 200]. The accumulators are not touched. */
  function ResetBall(b: Ball, m: Motion, random: real): (r: Motion)
    requires 0.0 <= random < 1.0
    ensures b.rect.Geom().Fits() ==> InBounds(b.rect.Geom(), r)
    ensures r.posX == ClampCoord(b.origPosX, b.rect.Geom().MaxX())
    ensures r.posY == ClampCoord(b.origPosY, b.rect.Geom().MaxY())
    ensures r.speedX == b.origSpeedX
    ensures -200.0 <= r.speedY <= 200.0 && r.speedY == r.speedY.Floor as real
    ensures r.accumTimeX == m.accumTimeX && r.accumTimeY == m.accumTimeY
  {
    var speedY := RandInt(-200, 200, random);
    WithSpeed(PlacedAt(b.rect.Geom(), m, b.origPosX, b.origPosY), b.origSpeedX, speedY.value as real)
  }

  /** Any vertical speed in [-200, 200] can come out of a reset. */
  lemma ResetBallCoversSpeeds(b: Ball, m: Motion, v: int)
    requires -200 <= v <= 200
    ensures exists random :: 0.0 <= random < 1.0 && ResetBall(b, m, random).speedY == v as real
  {
    RandIntCovers(-200, 200, v);
    var random :| 0.0 <= random < 1.0 && RandInt(-200, 200, random) == Ok(v);
    assert ResetBall(b, m, random).speedY == v as real;
  }

  /** Two resets leave the ball at the same position with the same
      horizontal speed, whatever the draws. */
  lemma ResetBallRepeatable(b: Ball, m: Motion, random1: real, random2: real)
    requires 0.0 <= random1 < 1.0 && 0.0 <= random2 < 1.0
    ensures ResetBall(b, ResetBall(b, m, random1), random2).(speedY := 0.0)
            == ResetBall(b, m, random1).(speedY := 0.0)
  {
  }

  /** `Pong.Ball`: a rectangle plus its starting position and speed. */
  class Ball {
    const rect: Rectangle
    const origPosX: real
    const origPosY: real
    const origSpeedX: real
    const origSpeedY: real

    /** Takes size, position and speed from the configuration (the position
        is not clamped) and remembers position and speed for `Reset`. */
    constructor (arenaWidth: real, arenaHeight: real, config: BallConfig)
      ensures fresh(rect)
      ensures rect.Geom() == Geometry(arenaWidth, arenaHeight, config.width, config.height)
      ensures rect.State() == Motion(config.posX, config.posY, config.speedX, config.speedY, 0.0, 0.0)
      ensures origPosX == config.posX && origPosY == config.posY
      ensures origSpeedX == config.speedX && origSpeedY == config.speedY
    {
      rect := new Rectangle(arenaWidth, arenaHeight, config.width, config.height,
                            config.posX, config.posY, config.speedX, config.speedY);
      origPosX, origPosY := config.posX, config.posY;
      origSpeedX, origSpeedY := config.speedX, config.speedY;
    }

    method Reset(random: real)
      requires 0.0 <= random < 1.0
      modifies rect
      ensures rect.State() == ResetBall(this, old(rect.State()), random)
    {
      rect.SetPosition(origPosX, origPosY);
      var speedY := RandInt(-200, 200, random);
      rect.SetSpeed(origSpeedX, speedY.value as real);
    }

    /** The source throws when the horizontal speed is 0; here that is the
        first precondition. */
    method DeflectOffPaddle(paddle: Paddle)
      requires rect.speedX != 0.0
      requires paddle.rect != rect && paddle.rect.height > 0.0
      modifies rect
      ensures rect.State() == Deflected(rect.Geom(), old(rect.State()), paddle.rect.Bounds())
    {
      var bounceSpeed := CalcPaddleOffset(rect.Bounds(), paddle.rect.Bounds()) * 8;
      if rect.speedX < 0.0 {
        rect.posX := paddle.rect.posX + paddle.rect.width + 1.0;
      } else {
        rect.posX := paddle.rect.posX - rect.width - 1.0;
      }
      rect.speedX := -rect.speedX;
      rect.speedY := bounceSpeed as real;
    }
  }

  /** The worked example: a 100 px paddle at y = 250 hit by a ball centred at
      y = 350 gives offset 100, and the deflection sets the vertical speed to 800. */
  lemma HitAtBottomEdgeExample(g: Geometry, m: Motion, paddle: Box)
    requires g.height == 10.0 && m.posY == 345.0 && m.speedX == 400.0
    requires paddle.posY == 250.0 && paddle.height == 100.0
    ensures CalcPaddleOffset(BoxOf(g, m), paddle) == 100
    ensures Deflected(g, m, paddle).speedY == 800.0
  {
    PaddleOffsetLandmarks(BoxOf(g, m), paddle);
  }
}
