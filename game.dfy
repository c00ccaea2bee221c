/** The game: owns the two paddles, the ball, the computer player, the two
    scores and the pause flag. Each update detects one collision, responds
    to it, lets the computer steer and then moves every rectangle; an
    animation frame splits the elapsed time into fixed steps. */
module Games {
  import opened Numeric
  import opened Rectangles
  import opened Paddles
  import opened Balls
  import opened Collisions
  import opened Steering

  /** The logical keys the game reacts to (already decoded from the event). */
  datatype Controls = Controls(upKey: string, downKey: string, pauseKey: string, resetKey: string)

  datatype Configuration = Configuration(ball: BallConfig, leftPaddle: PaddleConfig,
                                         rightPaddle: PaddleConfig, controls: Controls)

  /** Everything an update may change: the three rectangles' motion, the
      scores and the pause flag. */
  datatype World = World(left: Motion, right: Motion, ball: Motion,
                         leftScore: nat, rightScore: nat, isPaused: bool)

  /** The longest simulated step of an animation frame: 1000/30 ms. */
  const MaxDelta: real := 1000.0 / 30.0

  function LeftBox(g: Game, w: World): Box { BoxOf(g.leftPaddle.rect.Geom(), w.left) }
  function RightBox(g: Game, w: World): Box { BoxOf(g.rightPaddle.rect.Geom(), w.right) }
  function BallBox(g: Game, w: World): Box { BoxOf(g.ball.rect.Geom(), w.ball) }

  /** The collision the detector reports in `w`. */
  function DetectIn(g: Game, w: World): Collision {
    Detect(g.arenaWidth, g.arenaHeight, BallBox(g, w), LeftBox(g, w), RightBox(g, w))
  }

  /** The update does not reach the source's "zero speed" fault: a paddle
      collision happens only to a ball that moves horizontally. */
  predicate CanRespond(g: Game, w: World) {
    (DetectIn(g, w) == LeftPaddle || DetectIn(g, w) == RightPaddle) ==> w.ball.speedX != 0.0
  }

  /** `reset`: both paddles, then the ball. Scores and pause are kept. */
  function ResetAll(g: Game, w: World, random: real): (r: World)
    requires 0.0 <= random < 1.0
    ensures r.leftScore == w.leftScore && r.rightScore == w.rightScore && r.isPaused == w.isPaused
    ensures r.ball.speedX == g.ball.origSpeedX
  {
    w.(left := ResetPaddle(g.leftPaddle, w.left),
       right := ResetPaddle(g.rightPaddle, w.right),
       ball := ResetBall(g.ball, w.ball, random))
  }

  /** The response to one collision: deflect off the matching paddle, bounce
      off the top or bottom edge, or score for the other side and reset. */
  function Respond(g: Game, w: World, c: Collision, random: real): (r: World)
    requires g.Valid() && 0.0 <= random < 1.0
    requires (c == LeftPaddle || c == RightPaddle) ==> w.ball.speedX != 0.0
    ensures r.leftScore == w.leftScore + (if c == RightEdge then 1 else 0)
    ensures r.rightScore == w.rightScore + (if c == LeftEdge then 1 else 0)
    ensures r.isPaused == w.isPaused
    ensures c !in {LeftEdge, RightEdge} ==> r.left == w.left && r.right == w.right
  {
    match c
    case LeftPaddle => w.(ball := Deflected(g.ball.rect.Geom(), w.ball, LeftBox(g, w)))
    case RightPaddle => w.(ball := Deflected(g.ball.rect.Geom(), w.ball, RightBox(g, w)))
    case BottomEdge => w.(ball := w.ball.(speedY := -w.ball.speedY))
    case TopEdge => w.(ball := w.ball.(speedY := -w.ball.speedY))
    case LeftEdge => ResetAll(g, w.(rightScore := w.rightScore + 1), random)
    case RightEdge => ResetAll(g, w.(leftScore := w.leftScore + 1), random)
    case None => w
  }

  /** The computer player's step: `followClosely` on the right paddle. */
  function Steer(g: Game, w: World): (r: World)
    requires g.Valid()
    ensures r.(right := w.right) == w
    ensures r.right.speedX == 0.0 && r.right.posX == w.right.posX && r.right.posY == w.right.posY
  {
    w.(right := FollowedClosely(BallBox(g, w), g.rightPaddle.rect.Geom(), w.right, g.rightPaddle.moveSpeed))
  }

  /** Motion for everybody: left paddle, right paddle, ball. */
  function IntegrateAll(g: Game, w: World, dt: real): (r: World)
    ensures r.leftScore == w.leftScore && r.rightScore == w.rightScore && r.isPaused == w.isPaused
    ensures r.left.speedX == w.left.speedX && r.left.speedY == w.left.speedY
    ensures r.right.speedX == w.right.speedX && r.right.speedY == w.right.speedY
    ensures r.ball.speedX == w.ball.speedX && r.ball.speedY == w.ball.speedY
  {
    w.(left := Integrated(g.leftPaddle.rect.Geom(), w.left, dt),
       right := Integrated(g.rightPaddle.rect.Geom(), w.right, dt),
       ball := Integrated(g.ball.rect.Geom(), w.ball, dt))
  }

  /** One `update(dt)`, where `random` is the draw a reset would use:
      detect, respond, steer, integrate. Scores never decrease and go up by
      at most one in total; the pause flag is untouched; and a ball that
      moves horizontally keeps doing so when it is always served that way. */
  function Tick(g: Game, w: World, dt: real, random: real): (r: World)
    requires g.Valid() && 0.0 <= random < 1.0 && CanRespond(g, w)
    ensures r.leftScore >= w.leftScore && r.rightScore >= w.rightScore
    ensures r.leftScore + r.rightScore <= w.leftScore + w.rightScore + 1
    ensures r.isPaused == w.isPaused
    ensures g.ball.origSpeedX != 0.0 && w.ball.speedX != 0.0 ==> r.ball.speedX != 0.0
    ensures w.left.speedX == 0.0 ==> r.left.speedX == 0.0
  {
    IntegrateAll(g, Steer(g, Respond(g, w, DetectIn(g, w), random)), dt)
  }

  /** A ball past the left edge gives the right side a point and serves
      again; the left score is unchanged. Symmetrically for the right edge. */
  lemma EdgeScores(g: Game, w: World, random: real)
    requires g.Valid() && 0.0 <= random < 1.0
    ensures DetectIn(g, w) == LeftEdge ==>
              Respond(g, w, LeftEdge, random)
                == ResetAll(g, w, random).(rightScore := w.rightScore + 1)
    ensures DetectIn(g, w) == RightEdge ==>
              Respond(g, w, RightEdge, random)
                == ResetAll(g, w, random).(leftScore := w.leftScore + 1)
  {
  }

  /** Over a whole update, a ball past the left edge adds exactly one point
      to the right score and none to the left score; symmetrically for the
      right edge; every other collision leaves both scores alone. */
  lemma TickScores(g: Game, w: World, dt: real, random: real)
    requires g.Valid() && 0.0 <= random < 1.0 && CanRespond(g, w)
    ensures DetectIn(g, w) == LeftEdge ==>
              Tick(g, w, dt, random).rightScore == w.rightScore + 1
              && Tick(g, w, dt, random).leftScore == w.leftScore
    ensures DetectIn(g, w) == RightEdge ==>
              Tick(g, w, dt, random).leftScore == w.leftScore + 1
              && Tick(g, w, dt, random).rightScore == w.rightScore
    ensures DetectIn(g, w) !in {LeftEdge, RightEdge} ==>
              Tick(g, w, dt, random).leftScore == w.leftScore
              && Tick(g, w, dt, random).rightScore == w.rightScore
  {
  }

  /** A top or bottom edge reverses the ball's vertical speed and nothing else. */
  lemma EdgeBounce(g: Game, w: World, random: real)
    requires g.Valid() && 0.0 <= random < 1.0
    ensures Respond(g, w, TopEdge, random) == w.(ball := w.ball.(speedY := -w.ball.speedY))
    ensures Respond(g, w, BottomEdge, random) == w.(ball := w.ball.(speedY := -w.ball.speedY))
  {
  }

  /** After a paddle response the ball no longer overlaps that paddle, so the
      same collision is not detected again straight away. */
  lemma NoDuplicatePaddleCollision(g: Game, w: World, random: real)
    requires g.Valid() && 0.0 <= random < 1.0 && w.ball.speedX != 0.0
    ensures !IsOverlapping(BallBox(g, Respond(g, w, LeftPaddle, random)), LeftBox(g, w))
    ensures !IsOverlapping(BallBox(g, Respond(g, w, RightPaddle, random)), RightBox(g, w))
  {
  }

  /** No duplicate collision in the next update: a ball that was deflected
      off the left paddle is, after the whole update (steering and motion
      included), clear of that paddle, so the next `detect` does not report
      it again. The left paddle only ever moves vertically, and the ball
      bounces to a spot on the canvas. */
  lemma NoRepeatLeftPaddleCollision(g: Game, w: World, dt: real, random: real)
    requires g.Valid() && 0.0 <= random < 1.0 && CanRespond(g, w)
    requires DetectIn(g, w) == LeftPaddle && w.ball.speedX < 0.0
    requires g.ball.rect.Geom().Fits() && g.leftPaddle.rect.Geom().Fits()
    requires w.left.speedX == 0.0 && InBounds(g.leftPaddle.rect.Geom(), w.left)
    requires LeftBox(g, w).posX + LeftBox(g, w).width + 1.0 <= g.ball.rect.Geom().MaxX()
    ensures DetectIn(g, Tick(g, w, dt, random)) != LeftPaddle
  {
    var r := Respond(g, w, LeftPaddle, random);
    var s := Steer(g, r);
    var t := Tick(g, w, dt, random);
    assert t == IntegrateAll(g, s, dt);
    assert s.ball == r.ball && s.left == w.left;
    assert s.ball.posX == LeftBox(g, w).posX + LeftBox(g, w).width + 1.0 && s.ball.speedX > 0.0;
    IntegratedNotBehind(g.ball.rect.Geom(), s.ball, dt);
    IntegratedIdleAxis(g.leftPaddle.rect.Geom(), s.left, dt);
    assert t.left.posX == w.left.posX;
    assert !IsOverlapping(BallBox(g, t), LeftBox(g, t));
  }

  /** The same for the right paddle, which the computer player only ever
      drives vertically. */
  lemma NoRepeatRightPaddleCollision(g: Game, w: World, dt: real, random: real)
    requires g.Valid() && 0.0 <= random < 1.0 && CanRespond(g, w)
    requires DetectIn(g, w) == RightPaddle && w.ball.speedX > 0.0
    requires g.ball.rect.Geom().Fits() && g.rightPaddle.rect.Geom().Fits()
    requires InBounds(g.rightPaddle.rect.Geom(), w.right)
    requires 0.0 <= RightBox(g, w).posX - g.ball.rect.Geom().width - 1.0
    ensures DetectIn(g, Tick(g, w, dt, random)) != RightPaddle
  {
    var r := Respond(g, w, RightPaddle, random);
    var s := Steer(g, r);
    var t := Tick(g, w, dt, random);
    assert t == IntegrateAll(g, s, dt);
    assert s.ball == r.ball && s.right.posX == w.right.posX && s.right.speedX == 0.0;
    assert s.ball.posX + g.ball.rect.Geom().width == RightBox(g, w).posX - 1.0 && s.ball.speedX < 0.0;
    IntegratedNotAhead(g.ball.rect.Geom(), s.ball, dt);
    IntegratedIdleAxis(g.rightPaddle.rect.Geom(), s.right, dt);
    assert t.right.posX == w.right.posX;
    assert !IsOverlapping(BallBox(g, t), RightBox(g, t));
  }

  /** The state after `onKeyDown` for a decoded key, tested in the order of
      the source's `switch`: up, down, pause, reset. */
  function KeyDown(g: Game, w: World, key: string, random: real): (r: World)
    requires 0.0 <= random < 1.0
    ensures r.leftScore == w.leftScore && r.rightScore == w.rightScore
    ensures key != g.controls.resetKey ==> r.right == w.right && r.ball == w.ball
    ensures w.left.speedX == 0.0 ==> r.left.speedX == 0.0
  {
    if key == g.controls.upKey then w.(left := w.left.(speedY := -g.leftPaddle.moveSpeed))
    else if key == g.controls.downKey then w.(left := w.left.(speedY := g.leftPaddle.moveSpeed))
    else if key == g.controls.pauseKey then w.(isPaused := !w.isPaused)
    else if key == g.controls.resetKey then ResetAll(g, w, random)
    else w
  }

  /** The state after `onKeyUp`: releasing up or down stops the left paddle. */
  function KeyUp(g: Game, w: World, key: string): (r: World)
    ensures r.(left := w.left) == w
    ensures r.left.(speedY := w.left.speedY) == w.left
    ensures w.left.speedX == 0.0 ==> r.left.speedX == 0.0
  {
    if key == g.controls.upKey || key == g.controls.downKey then w.(left := w.left.(speedY := 0.0))
    else w
  }

  /** Pressing pause twice restores the pause flag and changes nothing else. */
  lemma PauseTwiceRestores(g: Game, w: World, random: real)
    requires 0.0 <= random < 1.0
    requires g.controls.pauseKey != g.controls.upKey && g.controls.pauseKey != g.controls.downKey
    ensures KeyDown(g, w, g.controls.pauseKey, random).isPaused == !w.isPaused
    ensures KeyDown(g, KeyDown(g, w, g.controls.pauseKey, random), g.controls.pauseKey, random) == w
  {
  }

  /** The up key drives the left paddle up at its move speed and the down
      key down; releasing either stops it. Nothing else changes. */
  lemma ArrowKeysSteer(g: Game, w: World, random: real)
    requires 0.0 <= random < 1.0 && g.controls.upKey != g.controls.downKey
    ensures KeyDown(g, w, g.controls.upKey, random) == w.(left := w.left.(speedY := -g.leftPaddle.moveSpeed))
    ensures KeyDown(g, w, g.controls.downKey, random) == w.(left := w.left.(speedY := g.leftPaddle.moveSpeed))
    ensures KeyUp(g, w, g.controls.upKey) == w.(left := w.left.(speedY := 0.0))
    ensures KeyUp(g, w, g.controls.downKey) == w.(left := w.left.(speedY := 0.0))
  {
  }

  /** Keys that are not controls change nothing. */
  lemma OtherKeysIgnored(g: Game, w: World, key: string, random: real)
    requires 0.0 <= random < 1.0
    requires key !in {g.controls.upKey, g.controls.downKey, g.controls.pauseKey, g.controls.resetKey}
    ensures KeyDown(g, w, key, random) == w && KeyUp(g, w, key) == w
  {
  }

  /** The reset key resets the entities and keeps the scores. */
  lemma ResetKeyKeepsScores(g: Game, w: World, random: real)
    requires 0.0 <= random < 1.0
    requires g.controls.resetKey !in {g.controls.upKey, g.controls.downKey, g.controls.pauseKey}
    ensures KeyDown(g, w, g.controls.resetKey, random) == ResetAll(g, w, random)
    ensures KeyDown(g, w, g.controls.resetKey, random).leftScore == w.leftScore
    ensures KeyDown(g, w, g.controls.resetKey, random).rightScore == w.rightScore
  {
  }

  /** The steps of one unpaused animation frame of `d` milliseconds: as many
      whole `MaxDelta` steps as fit, then the remainder (which is one more
      step, possibly of 0 ms). */
  function FrameSteps(d: real): (steps: seq<real>)
    ensures |steps| == Max(0, (d / MaxDelta).Floor) + 1
    ensures forall i :: 0 <= i < |steps| - 1 ==> steps[i] == MaxDelta
    ensures steps[|steps| - 1] == d - (|steps| - 1) as real * MaxDelta
  {
    var n := Max(0, (d / MaxDelta).Floor);
    seq(n, _ => MaxDelta) + [d - n as real * MaxDelta]
  }

  /** The total of a sequence of step lengths. */
  function Sum(s: seq<real>): real
    decreases |s|
  {
    if s == [] then 0.0 else Sum(s[..|s| - 1]) + s[|s| - 1]
  }

  /** `n` equal steps add up to `n` times the step. */
  lemma {:induction false} SumOfEqualSteps(s: seq<real>, c: real)
    requires forall i :: 0 <= i < |s| ==> s[i] == c
    ensures Sum(s) == |s| as real * c
  {
    if s != [] {
      SumOfEqualSteps(s[..|s| - 1], c);
    }
  }

  /** The whole steps are `MaxDelta` each, the last one is the remainder,
      shorter than `MaxDelta` and not negative for a non-negative `d`, and
      together they add up to `d`. */
  lemma {:induction false} FrameStepsShape(d: real)
    ensures Sum(FrameSteps(d)) == d
    ensures FrameSteps(d)[|FrameSteps(d)| - 1] < MaxDelta
    ensures 0.0 <= d ==> 0.0 <= FrameSteps(d)[|FrameSteps(d)| - 1]
  {
    var steps := FrameSteps(d);
    var n := |steps| - 1;
    var whole := steps[..n];
    assert steps[..|steps| - 1] == whole;
    SumOfEqualSteps(whole, MaxDelta);
    FloorBounds(d, n);
  }

  /** `n = max(0, floor(d / MaxDelta))` whole steps fit in `d`, and one more does not. */
  lemma FloorBounds(d: real, n: int)
    requires n == Max(0, (d / MaxDelta).Floor)
    ensures d - n as real * MaxDelta < MaxDelta
    ensures 0.0 <= d ==> n as real * MaxDelta <= d
  {
    var q := d / MaxDelta;
    assert q * MaxDelta == d;
    assert (q.Floor as real) <= q < q.Floor as real + 1.0;
    if q.Floor >= 0 {
      assert n == q.Floor;
      assert n as real * MaxDelta <= q * MaxDelta;
      assert q * MaxDelta < (n as real + 1.0) * MaxDelta;
    } else {
      assert n == 0;
      assert q < 0.0;
    }
  }

  /** The frame loop runs a whole step exactly while fewer than `n` have run. */
  lemma LoopGuard(d: real, i: int, n: int)
    requires n == Max(0, (d / MaxDelta).Floor) && 0 <= i <= n
    ensures d - i as real * MaxDelta >= MaxDelta <==> i < n
  {
    FloorBounds(d, n);
    if i < n {
      assert (i + 1) as real * MaxDelta <= n as real * MaxDelta;
    } else {
      assert i == n;
    }
  }

  /** The frame step drifts too: at 400 px/s one `MaxDelta` update is worth
      13.33 px but moves 13 px, so a ball served at that speed covers
      390 px per second of game time instead of 400. */
  lemma FrameStepDrift()
    ensures Integrated(Geometry(800.0, 600.0, 10.0, 10.0), Motion(100.0, 100.0, 400.0, 0.0, 0.0, 0.0), MaxDelta).posX
            == 113.0
  {
    ReachedIffScaled(MaxDelta, 400.0);
    assert MaxDelta * 400.0 / 1000.0 == 40.0 / 3.0;
    assert Pixels(MaxDelta, 400.0) == 13;
  }

  /** Updates for `steps` in order, the i-th using the i-th random draw. */
  function Run(g: Game, w: World, steps: seq<real>, draws: seq<real>): (r: World)
    requires g.Valid() && g.ball.origSpeedX != 0.0 && w.ball.speedX != 0.0
    requires |steps| <= |draws| && forall i :: 0 <= i < |draws| ==> 0.0 <= draws[i] < 1.0
    ensures r.ball.speedX != 0.0
    ensures r.leftScore >= w.leftScore && r.rightScore >= w.rightScore
    ensures r.isPaused == w.isPaused
    ensures w.left.speedX == 0.0 ==> r.left.speedX == 0.0
    decreases |steps|
  {
    if steps == [] then w
    else
      var prev := Run(g, w, steps[..|steps| - 1], draws);
      Tick(g, prev, steps[|steps| - 1], draws[|steps| - 1])
  }

  /** Running one more step is one more `Tick` after the earlier ones. */
  lemma RunOneMore(g: Game, w: World, steps: seq<real>, draws: seq<real>, i: nat)
    requires g.Valid() && g.ball.origSpeedX != 0.0 && w.ball.speedX != 0.0
    requires i < |steps| <= |draws| && forall k :: 0 <= k < |draws| ==> 0.0 <= draws[k] < 1.0
    ensures Run(g, w, steps[..i + 1], draws) == Tick(g, Run(g, w, steps[..i], draws), steps[i], draws[i])
  {
    assert steps[..i + 1][..i] == steps[..i];
  }

  /** One animation frame of `d` milliseconds: nothing when paused,
      otherwise the updates for `FrameSteps(d)`. */
  function Frame(g: Game, w: World, d: real, draws: seq<real>): (r: World)
    requires g.Valid() && g.ball.origSpeedX != 0.0 && w.ball.speedX != 0.0
    requires |FrameSteps(d)| <= |draws| && forall i :: 0 <= i < |draws| ==> 0.0 <= draws[i] < 1.0
    ensures r.leftScore >= w.leftScore && r.rightScore >= w.rightScore
    ensures w.isPaused ==> r == w
  {
    if w.isPaused then w else Run(g, w, FrameSteps(d), draws)
  }

  /** `Pong.Game`. The scoreboard's two scores are plain fields here. */
  class Game {
    const arenaWidth: real
    const arenaHeight: real
    const controls: Controls
    const leftPaddle: Paddle
    const rightPaddle: Paddle
    const ball: Ball
    const computerAI: ComputerAI
    var leftScore: nat
    var rightScore: nat
    var isPaused: bool

    /** The three rectangles are distinct and share the game's canvas; the
        computer player steers this game's right paddle after this game's
        ball; both paddles have a height to divide by. */
    predicate Valid() {
      && leftPaddle.rect != rightPaddle.rect
      && leftPaddle.rect != ball.rect
      && rightPaddle.rect != ball.rect
      && computerAI.rightPaddle == rightPaddle && computerAI.ball == ball
      && computerAI.Valid()
      && leftPaddle.rect.height > 0.0
      && leftPaddle.rect.arenaWidth == arenaWidth && leftPaddle.rect.arenaHeight == arenaHeight
      && rightPaddle.rect.arenaWidth == arenaWidth && rightPaddle.rect.arenaHeight == arenaHeight
      && ball.rect.arenaWidth == arenaWidth && ball.rect.arenaHeight == arenaHeight
    }

    function State(): World
      reads this, leftPaddle.rect, rightPaddle.rect, ball.rect
    {
      World(leftPaddle.rect.State(), rightPaddle.rect.State(), ball.rect.State(),
            leftScore, rightScore, isPaused)
    }

    /** A new game on a canvas of the given size: entities from the
        configuration, scores 0, not paused. */
    constructor (arenaWidth: real, arenaHeight: real, config: Configuration)
      requires config.leftPaddle.height > 0.0 && config.rightPaddle.height > 0.0
      ensures Valid()
      ensures this.arenaWidth == arenaWidth && this.arenaHeight == arenaHeight
      ensures controls == config.controls
      ensures fresh(leftPaddle.rect) && fresh(rightPaddle.rect) && fresh(ball.rect)
      ensures leftPaddle.rect.Geom()
              == Geometry(arenaWidth, arenaHeight, config.leftPaddle.width, config.leftPaddle.height)
      ensures rightPaddle.rect.Geom()
              == Geometry(arenaWidth, arenaHeight, config.rightPaddle.width, config.rightPaddle.height)
      ensures ball.rect.Geom() == Geometry(arenaWidth, arenaHeight, config.ball.width, config.ball.height)
      ensures leftPaddle.origX == config.leftPaddle.posX && leftPaddle.origY == config.leftPaddle.posY
      ensures rightPaddle.origX == config.rightPaddle.posX && rightPaddle.origY == config.rightPaddle.posY
      ensures ball.origPosX == config.ball.posX && ball.origPosY == config.ball.posY
      ensures ball.origSpeedY == config.ball.speedY
      ensures leftPaddle.moveSpeed == config.leftPaddle.moveSpeed
      ensures rightPaddle.moveSpeed == config.rightPaddle.moveSpeed
      ensures ball.origSpeedX == config.ball.speedX
      ensures State() == World(
                Motion(config.leftPaddle.posX, config.leftPaddle.posY, 0.0, 0.0, 0.0, 0.0),
                Motion(config.rightPaddle.posX, config.rightPaddle.posY, 0.0, 0.0, 0.0, 0.0),
                Motion(config.ball.posX, config.ball.posY, config.ball.speedX, config.ball.speedY, 0.0, 0.0),
                0, 0, false)
    {
      this.arenaWidth, this.arenaHeight := arenaWidth, arenaHeight;
      controls := config.controls;
      leftScore, rightScore := 0, 0;
      var left := new Paddle(arenaWidth, arenaHeight, config.leftPaddle);
      var right := new Paddle(arenaWidth, arenaHeight, config.rightPaddle);
      var b := new Ball(arenaWidth, arenaHeight, config.ball);
      leftPaddle, rightPaddle, ball := left, right, b;
      computerAI := new ComputerAI(right, b);
      isPaused := false;
    }

    method Reset(random: real)
      requires Valid() && 0.0 <= random < 1.0
      modifies leftPaddle.rect, rightPaddle.rect, ball.rect
      ensures State() == ResetAll(this, old(State()), random)
    {
      leftPaddle.Reset();
      rightPaddle.Reset();
      ball.Reset(random);
    }

    /** One `update(timeDiff)`; `random` is the draw a reset would use. */
    method Update(timeDiff: real, random: real)
      requires Valid() && 0.0 <= random < 1.0 && CanRespond(this, State())
      modifies this, leftPaddle.rect, rightPaddle.rect, ball.rect
      ensures State() == Tick(this, old(State()), timeDiff, random)
    {
      var collision := Detect(arenaWidth, arenaHeight, ball.rect.Bounds(),
                              leftPaddle.rect.Bounds(), rightPaddle.rect.Bounds());
      assert collision == DetectIn(this, State());
      match collision {
        case LeftPaddle => ball.DeflectOffPaddle(leftPaddle);
        case RightPaddle => ball.DeflectOffPaddle(rightPaddle);
        case BottomEdge => ball.rect.speedY := -ball.rect.speedY;
        case TopEdge => ball.rect.speedY := -ball.rect.speedY;
        case LeftEdge =>
          rightScore := rightScore + 1;
          Reset(random);
        case RightEdge =>
          leftScore := leftScore + 1;
          Reset(random);
        case None =>
      }
      assert State() == Respond(this, old(State()), collision, random);
      computerAI.Update();
      assert State() == Steer(this, Respond(this, old(State()), collision, random));
      leftPaddle.rect.Update(timeDiff);
      rightPaddle.rect.Update(timeDiff);
      ball.rect.Update(timeDiff);
    }

    method OnKeyDown(key: string, random: real)
      requires Valid() && 0.0 <= random < 1.0
      modifies this, leftPaddle.rect, rightPaddle.rect, ball.rect
      ensures State() == KeyDown(this, old(State()), key, random)
    {
      if key == controls.upKey {
        leftPaddle.rect.speedY := -leftPaddle.moveSpeed;
      } else if key == controls.downKey {
        leftPaddle.rect.speedY := leftPaddle.moveSpeed;
      } else if key == controls.pauseKey {
        isPaused := if isPaused then false else true;
      } else if key == controls.resetKey {
        Reset(random);
      }
    }

    method OnKeyUp(key: string)
      requires Valid()
      modifies leftPaddle.rect
      ensures State() == KeyUp(this, old(State()), key)
    {
      if key == controls.upKey || key == controls.downKey {
        leftPaddle.rect.speedY := 0.0;
      }
    }

    /** The body of one animation frame after the elapsed time `elapsed` has
        been measured: nothing when paused; otherwise `update(maxDelta)`
        while at least `maxDelta` is left, then one `update` with the rest.
        `draws` are the values `Math.random()` would return, one per update. */
    method AnimationFrame(elapsed: real, draws: seq<real>)
      requires Valid() && ball.origSpeedX != 0.0 && ball.rect.speedX != 0.0
      requires |FrameSteps(elapsed)| <= |draws| && forall i :: 0 <= i < |draws| ==> 0.0 <= draws[i] < 1.0
      modifies this, leftPaddle.rect, rightPaddle.rect, ball.rect
      ensures State() == Frame(this, old(State()), elapsed, draws)
    {
      if isPaused {
        return;
      }
      ghost var start := State();
      ghost var steps := FrameSteps(elapsed);
      ghost var n := |steps| - 1;
      var maxDelta := MaxDelta;
      var diffTime := elapsed;
      var i := 0;
      while diffTime >= maxDelta
        invariant 0 <= i <= n
        invariant diffTime == elapsed - i as real * MaxDelta
        invariant State() == Run(this, start, steps[..i], draws)
        invariant ball.rect.speedX != 0.0
        decreases n - i
      {
        LoopGuard(elapsed, i, n);
        RunOneMore(this, start, steps, draws, i);
        Update(maxDelta, draws[i]);
        diffTime := diffTime - maxDelta;
        i := i + 1;
      }
      LoopGuard(elapsed, i, n);
      assert i == n && diffTime == steps[n];
      RunOneMore(this, start, steps, draws, n);
      Update(diffTime, draws[i]);
      assert steps[..n + 1] == steps;
      assert State() == Run(this, start, steps, draws);
    }
  }
}
