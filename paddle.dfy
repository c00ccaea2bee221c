/** A paddle: a moving rectangle that remembers where it started and how
    fast it may be driven. It has no movement logic of its own; the player's
    keys and the computer player set its speed. */
module Paddles {
  import opened Rectangles

  /** The configured size, starting position and driving speed of a paddle. */
  datatype PaddleConfig = PaddleConfig(width: real, height: real, posX: real, posY: real, moveSpeed: real)

  /** The state after `reset`: back at the starting position (through
      `setPosition`, so clamped) with both speeds 0. The accumulators are
      not touched. */
  function ResetPaddle(p: Paddle, m: Motion): (r: Motion)
    ensures p.rect.Geom().Fits() ==> InBounds(p.rect.Geom(), r)
    ensures r.posX == ClampCoord(p.origX, p.rect.Geom().MaxX())
    ensures r.posY == ClampCoord(p.origY, p.rect.Geom().MaxY())
    ensures r.speedX == 0.0 && r.speedY == 0.0
    ensures r.accumTimeX == m.accumTimeX && r.accumTimeY == m.accumTimeY
  {
    WithSpeed(PlacedAt(p.rect.Geom(), m, p.origX, p.origY), 0.0, 0.0)
  }

  /** A starting position on the canvas is restored exactly. */
  lemma ResetPaddleAtOrigin(p: Paddle, m: Motion)
    requires 0.0 <= p.origX <= p.rect.Geom().MaxX() && 0.0 <= p.origY <= p.rect.Geom().MaxY()
    ensures ResetPaddle(p, m).posX == p.origX && ResetPaddle(p, m).posY == p.origY
  {
  }

  /** Resetting twice is the same as resetting once. */
  lemma ResetPaddleIdempotent(p: Paddle, m: Motion)
    ensures ResetPaddle(p, ResetPaddle(p, m)) == ResetPaddle(p, m)
  {
  }

  /** `Pong.Paddle`: a rectangle plus its starting position and move speed. */
  class Paddle {
    const rect: Rectangle
    const moveSpeed: real
    const origX: real
    const origY: real

    /** Takes position and size from the configuration (the position is not
        clamped); the speed starts at 0. */
    constructor (arenaWidth: real, arenaHeight: real, config: PaddleConfig)
      ensures fresh(rect)
      ensures rect.Geom() == Geometry(arenaWidth, arenaHeight, config.width, config.height)
      ensures rect.State() == Motion(config.posX, config.posY, 0.0, 0.0, 0.0, 0.0)
      ensures moveSpeed == config.moveSpeed
      ensures origX == config.posX && origY == config.posY
    {
      rect := new Rectangle(arenaWidth, arenaHeight, config.width, config.height,
                            config.posX, config.posY, 0.0, 0.0);
      moveSpeed := config.moveSpeed;
      origX, origY := config.posX, config.posY;
    }

    method Reset()
      modifies rect
      ensures rect.State() == ResetPaddle(this, old(rect.State()))
    {
      rect.SetPosition(origX, origY);
      rect.SetSpeed(0.0, 0.0);
    }
  }
}
