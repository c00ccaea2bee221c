/** The moving rectangle shared by the ball and the paddles: an axis-aligned
    box on a canvas, with a top-left position, signed speeds in pixels per
    second and one time accumulator (milliseconds) per axis. */
module Rectangles {
  import opened Numeric

  /** What is fixed when a rectangle is built: the size of the canvas it
      lives on and its own size, in pixels. */
  datatype Geometry = Geometry(arenaWidth: real, arenaHeight: real, width: real, height: real) {
    /** The largest coordinates the top-left corner may take on the canvas. */
    function MaxX(): real { arenaWidth - width }
    function MaxY(): real { arenaHeight - height }

    /** The rectangle is no larger than the canvas. */
    predicate Fits() { width <= arenaWidth && height <= arenaHeight }
  }

  /** What changes while the game runs. */
  datatype Motion = Motion(posX: real, posY: real, speedX: real, speedY: real,
                           accumTimeX: real, accumTimeY: real)

  /** A read-only view of a rectangle: position and size. */
  datatype Box = Box(posX: real, posY: real, width: real, height: real)

  function BoxOf(g: Geometry, m: Motion): Box {
    Box(m.posX, m.posY, g.width, g.height)
  }

  /** The rectangle lies entirely on the canvas. */
  predicate InBounds(g: Geometry, m: Motion) {
    0.0 <= m.posX <= g.MaxX() && 0.0 <= m.posY <= g.MaxY()
  }

  /** One coordinate of `setPosition`: below 0 becomes 0, above `max` becomes
      `max`, anything else is kept. */
  function ClampCoord(v: real, max: real): (r: real)
    ensures 0.0 <= max ==> 0.0 <= r <= max
    ensures 0.0 <= v <= max ==> r == v
    ensures r == v || r == 0.0 || r == max
  {
    if v < 0.0 then 0.0 else if v > max then max else v
  }

  /** On a non-empty range the clamped value is the point of the range nearest to `v`. */
  lemma ClampIsNearest(v: real, max: real, z: real)
    requires 0.0 <= z <= max
    ensures Abs(ClampCoord(v, max) - v) <= Abs(z - v)
  {
  }

  /** The state after `setPosition(x, y)`. */
  function PlacedAt(g: Geometry, m: Motion, x: real, y: real): (r: Motion)
    ensures g.Fits() ==> InBounds(g, r)
    ensures r.speedX == m.speedX && r.speedY == m.speedY
    ensures r.accumTimeX == m.accumTimeX && r.accumTimeY == m.accumTimeY
  {
    m.(posX := ClampCoord(x, g.MaxX()), posY := ClampCoord(y, g.MaxY()))
  }

  /** Coordinates already on the canvas are stored exactly. */
  lemma PlacedAtExact(g: Geometry, m: Motion, x: real, y: real)
    requires 0.0 <= x <= g.MaxX() && 0.0 <= y <= g.MaxY()
    ensures PlacedAt(g, m, x, y).posX == x && PlacedAt(g, m, x, y).posY == y
  {
  }

  /** Coordinates off the canvas snap to the nearest edge. */
  lemma PlacedAtSnaps(g: Geometry, m: Motion, x: real, y: real)
    requires g.Fits()
    ensures x < 0.0 ==> PlacedAt(g, m, x, y).posX == 0.0
    ensures x > g.MaxX() ==> PlacedAt(g, m, x, y).posX == g.MaxX()
    ensures y < 0.0 ==> PlacedAt(g, m, x, y).posY == 0.0
    ensures y > g.MaxY() ==> PlacedAt(g, m, x, y).posY == g.MaxY()
  {
  }

  /** The state after `move(dx, dy)`: a relative `setPosition`. */
  function MovedBy(g: Geometry, m: Motion, dx: real, dy: real): (r: Motion)
    ensures g.Fits() ==> InBounds(g, r)
    ensures r.speedX == m.speedX && r.speedY == m.speedY
    ensures r.accumTimeX == m.accumTimeX && r.accumTimeY == m.accumTimeY
  {
    PlacedAt(g, m, m.posX + dx, m.posY + dy)
  }

  /** `move` keeps a rectangle that fits on the canvas, and changes no speed or accumulator. */
  lemma MovedByInBounds(g: Geometry, m: Motion, dx: real, dy: real)
    requires g.Fits()
    ensures InBounds(g, MovedBy(g, m, dx, dy))
    ensures MovedBy(g, m, dx, dy).speedX == m.speedX && MovedBy(g, m, dx, dy).speedY == m.speedY
  {
  }

  /** `move(0, 0)` on an in-bounds rectangle changes nothing. */
  lemma MovedByZero(g: Geometry, m: Motion)
    requires InBounds(g, m)
    ensures MovedBy(g, m, 0.0, 0.0) == m
  {
  }

  /** The state after `setSpeed(sx, sy)`. */
  function WithSpeed(m: Motion, sx: real, sy: real): (r: Motion)
    ensures r.speedX == sx && r.speedY == sy
    ensures r.posX == m.posX && r.posY == m.posY
    ensures r.accumTimeX == m.accumTimeX && r.accumTimeY == m.accumTimeY
  {
    m.(speedX := sx, speedY := sy)
  }

  /** `setSpeed` changes the two speeds and nothing else. */
  lemma WithSpeedOnlySpeeds(m: Motion, sx: real, sy: real)
    ensures WithSpeed(m, sx, sy).speedX == sx && WithSpeed(m, sx, sy).speedY == sy
    ensures WithSpeed(m, sx, sy).(speedX := m.speedX, speedY := m.speedY) == m
  {
  }

  /** Enough time has been accumulated to move at least one pixel: `accum`
      reaches `|1000 / speed|`; never when the speed is 0 (where the source
      divides by zero and compares against Infinity). */
  predicate Reached(accum: real, speed: real) {
    speed != 0.0 && accum >= Abs(1000.0 / speed)
  }

  /** The signed number of pixels `update` moves: `parseInt(accum / (1000 / speed))`. */
  function Pixels(accum: real, speed: real): (r: int)
    requires speed != 0.0
    ensures r == Trunc(accum * speed / 1000.0)
  {
    assert accum / (1000.0 / speed) == accum * speed / 1000.0;
    Trunc(accum / (1000.0 / speed))
  }

  /** The state after `update(dt)`: accumulate `dt` on each axis whose speed
      is non-zero; on the X axis, once the accumulator reaches the time of one
      pixel, move by the whole number of pixels it is worth and zero it; then
      the same on the Y axis. Each move goes through `setPosition`, which
      clamps both coordinates. */
  function Integrated(g: Geometry, m: Motion, dt: real): (r: Motion)
    ensures g.Fits() && InBounds(g, m) ==> InBounds(g, r)
    ensures r.speedX == m.speedX && r.speedY == m.speedY
  {
    var ax := m.accumTimeX + (if m.speedX != 0.0 then dt else 0.0);
    var ay := m.accumTimeY + (if m.speedY != 0.0 then dt else 0.0);
    var m1 := m.(accumTimeX := ax, accumTimeY := ay);
    var m2 := if Reached(ax, m.speedX)
              then MovedBy(g, m1, Pixels(ax, m.speedX) as real, 0.0).(accumTimeX := 0.0)
              else m1;
    if Reached(ay, m.speedY)
    then MovedBy(g, m2, 0.0, Pixels(ay, m.speedY) as real).(accumTimeY := 0.0)
    else m2
  }

  /** For a non-zero speed, `accum >= |1000 / speed|` is the same test as
      `accum * |speed| >= 1000`. */
  lemma ReachedIffScaled(accum: real, speed: real)
    requires speed != 0.0
    ensures Reached(accum, speed) <==> accum * Abs(speed) >= 1000.0
  {
    var s := Abs(speed);
    assert Abs(1000.0 / speed) == 1000.0 / s;
    assert s > 0.0;
    assert (1000.0 / s) * s == 1000.0;
    if accum >= 1000.0 / s {
      assert accum * s >= (1000.0 / s) * s;
    } else {
      assert accum * s < (1000.0 / s) * s;
    }
  }

  /** The pixel count is `trunc(accum * speed / 1000)`; once the threshold is
      reached it is at least one pixel, in the direction of the speed. */
  lemma PixelsDirection(accum: real, speed: real)
    requires Reached(accum, speed)
    ensures Pixels(accum, speed) == Trunc(accum * speed / 1000.0)
    ensures speed > 0.0 ==> Pixels(accum, speed) >= 1
    ensures speed < 0.0 ==> Pixels(accum, speed) <= -1
  {
    assert accum / (1000.0 / speed) == accum * speed / 1000.0;
    ReachedIffScaled(accum, speed);
    if speed > 0.0 {
      assert accum * speed >= 1000.0;
      assert accum * speed / 1000.0 >= 1.0;
    } else {
      assert accum * -speed >= 1000.0;
      assert accum * speed / 1000.0 <= -1.0;
    }
  }

  /** An axis whose speed is 0 neither moves nor accumulates time (as long
      as that coordinate is on the canvas, since a move along the other axis
      re-clamps it). */
  lemma IntegratedIdleAxis(g: Geometry, m: Motion, dt: real)
    ensures m.speedX == 0.0 && 0.0 <= m.posX <= g.MaxX() ==>
              Integrated(g, m, dt).posX == m.posX && Integrated(g, m, dt).accumTimeX == m.accumTimeX
    ensures m.speedY == 0.0 && 0.0 <= m.posY <= g.MaxY() ==>
              Integrated(g, m, dt).posY == m.posY && Integrated(g, m, dt).accumTimeY == m.accumTimeY
  {
  }

  /** Below the threshold an axis keeps its position and its accumulator
      grows by exactly `dt`. */
  lemma IntegratedWaits(g: Geometry, m: Motion, dt: real)
    ensures m.speedX != 0.0 && !Reached(m.accumTimeX + dt, m.speedX) && 0.0 <= m.posX <= g.MaxX() ==>
              Integrated(g, m, dt).posX == m.posX && Integrated(g, m, dt).accumTimeX == m.accumTimeX + dt
    ensures m.speedY != 0.0 && !Reached(m.accumTimeY + dt, m.speedY) && 0.0 <= m.posY <= g.MaxY() ==>
              Integrated(g, m, dt).posY == m.posY && Integrated(g, m, dt).accumTimeY == m.accumTimeY + dt
  {
  }

  /** At the threshold the X axis moves by the pixel count (clamped to the
      canvas) and its accumulator is reset to 0; `PixelsDirection` says that
      count is `trunc(accum * speed / 1000)`. */
  lemma IntegratedMovesX(g: Geometry, m: Motion, dt: real)
    requires g.Fits()
    requires Reached(m.accumTimeX + dt, m.speedX)
    ensures Integrated(g, m, dt).posX
              == ClampCoord(m.posX + Pixels(m.accumTimeX + dt, m.speedX) as real, g.MaxX())
    ensures Integrated(g, m, dt).accumTimeX == 0.0
  {
  }

  /** The same on the Y axis, for a rectangle whose Y coordinate is on the
      canvas (the X move, which comes first, re-clamps it). */
  lemma IntegratedMovesY(g: Geometry, m: Motion, dt: real)
    requires g.Fits()
    requires Reached(m.accumTimeY + dt, m.speedY) && 0.0 <= m.posY <= g.MaxY()
    ensures Integrated(g, m, dt).posY
              == ClampCoord(m.posY + Pixels(m.accumTimeY + dt, m.speedY) as real, g.MaxY())
    ensures Integrated(g, m, dt).accumTimeY == 0.0
  {
  }

  /** A rectangle moving right (or not at all) is never moved left by
      `update`, as long as it starts no further right than its limit. */
  lemma IntegratedNotBehind(g: Geometry, m: Motion, dt: real)
    requires g.Fits() && m.speedX >= 0.0 && m.posX <= g.MaxX()
    ensures Integrated(g, m, dt).posX >= m.posX
  {
    var ax := m.accumTimeX + (if m.speedX != 0.0 then dt else 0.0);
    if Reached(ax, m.speedX) {
      PixelsDirection(ax, m.speedX);
    }
  }

  /** A rectangle moving left (or not at all) is never moved right by
      `update`, as long as it starts at or right of 0. */
  lemma IntegratedNotAhead(g: Geometry, m: Motion, dt: real)
    requires g.Fits() && m.speedX <= 0.0 && 0.0 <= m.posX
    ensures Integrated(g, m, dt).posX <= m.posX
  {
    var ax := m.accumTimeX + (if m.speedX != 0.0 then dt else 0.0);
    if Reached(ax, m.speedX) {
      PixelsDirection(ax, m.speedX);
    }
  }

  /** `n` updates of `dt` milliseconds in a row. */
  function IntegratedTimes(g: Geometry, m: Motion, dt: real, n: nat): Motion
    decreases n
  {
    if n == 0 then m else Integrated(g, IntegratedTimes(g, m, dt, n - 1), dt)
  }

  /** An update of `dt` milliseconds at `speed` is worth exactly `k` pixels. */
  predicate WorthPixels(dt: real, speed: real, k: nat) {
    dt * speed == 1000.0 * k as real
  }

  /** One update worth exactly `k` pixels moves exactly `k` pixels and
      leaves the accumulator at 0. */
  lemma SteadyStep(g: Geometry, m: Motion, dt: real, k: nat)
    requires m.speedX > 0.0 && m.speedY == 0.0 && m.accumTimeX == 0.0
    requires k >= 1 && WorthPixels(dt, m.speedX, k)
    requires 0.0 <= m.posY <= g.MaxY()
    requires 0.0 <= m.posX && m.posX + k as real <= g.MaxX()
    ensures Integrated(g, m, dt) == m.(posX := m.posX + k as real)
  {
    ReachedIffScaled(dt, m.speedX);
    PixelsDirection(dt, m.speedX);
    assert dt * m.speedX / 1000.0 == k as real;
    assert Pixels(dt, m.speedX) == k;
  }

  /** No drift: when each update is worth exactly `k` pixels
      (`dt * speed == 1000 * k`), `n` updates move exactly `n * k` pixels,
      as long as the canvas does not stop the rectangle. */
  lemma {:induction false} SteadyMotionIsExact(g: Geometry, m: Motion, dt: real, k: nat, n: nat)
    requires m.speedX > 0.0 && m.speedY == 0.0 && m.accumTimeX == 0.0
    requires k >= 1 && WorthPixels(dt, m.speedX, k)
    requires 0.0 <= m.posY <= g.MaxY()
    requires 0.0 <= m.posX && m.posX + (n * k) as real <= g.MaxX()
    ensures IntegratedTimes(g, m, dt, n) == m.(posX := m.posX + (n * k) as real)
  {
    if n > 0 {
      var before := (n - 1) * k;
      NatProductStep(n, k);
      var prev := m.(posX := m.posX + before as real);
      SteadyMotionIsExact(g, m, dt, k, n - 1);
      SteadyStep(g, prev, dt, k);
      assert IntegratedTimes(g, m, dt, n - 1) == prev;
      assert Integrated(g, prev, dt) == prev.(posX := prev.posX + k as real);
    }
  }

  lemma NatProductStep(n: nat, k: nat)
    requires n > 0
    ensures (n - 1) * k <= n * k
    ensures ((n - 1) * k) as real + k as real == (n * k) as real
  {
    assert n * k == (n - 1) * k + k;
  }

  /** A rectangle at 100 px/s updated 100 times by 10 ms moves exactly 100 px. */
  lemma HundredStepsOfTenMilliseconds(g: Geometry, m: Motion)
    requires m.speedX == 100.0 && m.speedY == 0.0 && m.accumTimeX == 0.0
    requires 0.0 <= m.posY <= g.MaxY() && 0.0 <= m.posX && m.posX + 100.0 <= g.MaxX()
    ensures IntegratedTimes(g, m, 10.0, 100).posX == m.posX + 100.0
  {
    SteadyMotionIsExact(g, m, 10.0, 1, 100);
  }

  /** The remainder is dropped: at 30 px/s, four updates of 10 ms add up to
      40 ms, worth 40 * 30 / 1000 = 1.2 px, yet they move 1 px and zero the
      accumulator, so the 0.2 px is lost. */
  lemma RemainderIsDropped()
    ensures IntegratedTimes(Geometry(800.0, 600.0, 10.0, 10.0), Motion(100.0, 100.0, 30.0, 0.0, 0.0, 0.0), 10.0, 4)
            == Motion(101.0, 100.0, 30.0, 0.0, 0.0, 0.0)
  {
    var g := Geometry(800.0, 600.0, 10.0, 10.0);
    var m := Motion(100.0, 100.0, 30.0, 0.0, 0.0, 0.0);
    ReachedIffScaled(10.0, 30.0);
    ReachedIffScaled(20.0, 30.0);
    ReachedIffScaled(30.0, 30.0);
    ReachedIffScaled(40.0, 30.0);
    assert IntegratedTimes(g, m, 10.0, 1) == m.(accumTimeX := 10.0);
    assert IntegratedTimes(g, m, 10.0, 2) == m.(accumTimeX := 20.0);
    assert IntegratedTimes(g, m, 10.0, 3) == m.(accumTimeX := 30.0);
    assert Pixels(40.0, 30.0) == 1;
  }

  /** `isOverlapping`: closed intervals on both axes, so boxes that
      only touch still overlap. */
  predicate IsOverlapping(a: Box, b: Box) {
    var ax1, ay1, ax2, ay2 := a.posX, a.posY, a.posX + a.width, a.posY + a.height;
    var bx1, by1, bx2, by2 := b.posX, b.posY, b.posX + b.width, b.posY + b.height;
    ax1 <= bx2 && ax2 >= bx1 && ay1 <= by2 && ay2 >= by1
  }

  /** Overlap does not depend on which box asks. */
  lemma OverlapSymmetric(a: Box, b: Box)
    ensures IsOverlapping(a, b) <==> IsOverlapping(b, a)
  {
  }

  /** Boxes whose vertical ranges meet and that touch at a vertical edge overlap. */
  lemma TouchingEdgesOverlap(a: Box, b: Box)
    requires a.width >= 0.0 && b.width >= 0.0
    requires a.posX + a.width == b.posX
    requires a.posY <= b.posY + b.height && b.posY <= a.posY + a.height
    ensures IsOverlapping(a, b)
  {
  }

  /** A box separated from another horizontally by a positive gap, on either side, does not overlap it. */
  lemma SeparatedDoNotOverlap(a: Box, b: Box)
    requires a.posX > b.posX + b.width || a.posX + a.width < b.posX
    ensures !IsOverlapping(a, b)
  {
  }

  /** A rectangle on a canvas: `Pong.Rectangle`. Its size and canvas never
      change after construction; `State()` is the part that does. */
  class Rectangle {
    const arenaWidth: real
    const arenaHeight: real
    const width: real
    const height: real
    var posX: real
    var posY: real
    var speedX: real
    var speedY: real
    var accumTimeX: real
    var accumTimeY: real

    function Geom(): Geometry {
      Geometry(arenaWidth, arenaHeight, width, height)
    }

    function State(): Motion
      reads this
    {
      Motion(posX, posY, speedX, speedY, accumTimeX, accumTimeY)
    }

    function Bounds(): Box
      reads this
    {
      BoxOf(Geom(), State())
    }

    /** Position and speed are stored as given (not clamped); the
        accumulators start at 0. */
    constructor (arenaWidth: real, arenaHeight: real, width: real, height: real,
                 posX: real, posY: real, speedX: real, speedY: real)
      ensures Geom() == Geometry(arenaWidth, arenaHeight, width, height)
      ensures State() == Motion(posX, posY, speedX, speedY, 0.0, 0.0)
    {
      this.arenaWidth, this.arenaHeight := arenaWidth, arenaHeight;
      this.width, this.height := width, height;
      this.posX, this.posY := posX, posY;
      this.speedX, this.speedY := speedX, speedY;
      this.accumTimeX, this.accumTimeY := 0.0, 0.0;
    }

    method SetPosition(x: real, y: real)
      modifies this
      ensures State() == PlacedAt(Geom(), old(State()), x, y)
    {
      var minX, minY := 0.0, 0.0;
      var maxX := arenaWidth - width;
      var maxY := arenaHeight - height;
      if x < minX { posX := minX; }
      else if x > maxX { posX := maxX; }
      else { posX := x; }
      if y < minY { posY := minY; }
      else if y > maxY { posY := maxY; }
      else { posY := y; }
    }

    method SetSpeed(x: real, y: real)
      modifies this
      ensures State() == WithSpeed(old(State()), x, y)
    {
      speedX := x;
      speedY := y;
    }

    method Move(x: real, y: real)
      modifies this
      ensures State() == MovedBy(Geom(), old(State()), x, y)
    {
      SetPosition(posX + x, posY + y);
    }

    method Update(timeDiff: real)
      modifies this
      ensures State() == Integrated(Geom(), old(State()), timeDiff)
    {
      accumTimeX := accumTimeX + if speedX != 0.0 then timeDiff else 0.0;
      accumTimeY := accumTimeY + if speedY != 0.0 then timeDiff else 0.0;
      if speedX != 0.0 && accumTimeX >= Abs(1000.0 / speedX) {
        var x := Trunc(accumTimeX / (1000.0 / speedX));
        Move(x as real, 0.0);
        accumTimeX := 0.0;
      }
      if speedY != 0.0 && accumTimeY >= Abs(1000.0 / speedY) {
        var y := Trunc(accumTimeY / (1000.0 / speedY));
        Move(0.0, y as real);
        accumTimeY := 0.0;
      }
    }
  }
}
