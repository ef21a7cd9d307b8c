/** The simulation of the Pong table as values: one function per phase of a
    frame, each stating what that phase promises, and `Tick`, the whole
    per-frame `update()` composed from them. The class in game.dfy performs
    the same phases by assignment and is proved equal to these functions. */
module Physics {
  import opened Geometry

  const PaddleWidth: real := 12.0
  const PaddleHeight: real := 80.0
  const PaddleOffset: real := 20.0
  const PaddleSpeed: real := 6.0
  const BallSize: real := 14.0
  /** Horizontal speed of a served ball. */
  const ServeSpeed: real := 5.0
  /** Vertical speed added per unit of distance between ball and paddle centres. */
  const SpinFactor: real := 0.08

  /** The canvas, fixed at start-up. A valid field is tall enough for a
      paddle and wide enough that the two paddle bands and a served ball's
      first move stay well apart. */
  datatype Field = Field(width: real, height: real) {
    predicate Valid() {
      height >= PaddleHeight && width > 2.0 * (PaddleOffset + PaddleWidth + BallSize)
    }

    /** Largest top edge a paddle may have. */
    function PaddleLimit(): real { height - PaddleHeight }

    /** Largest top edge the ball may have. */
    function BallLimit(): real { height - BallSize }

    /** x of the left paddle's inner face. */
    function LeftFace(): real { PaddleOffset + PaddleWidth }

    /** x of the right paddle's inner face. */
    function RightFace(): real { width - PaddleOffset - PaddleWidth }

    /** Top-left corner of a ball centred on the canvas. */
    function CentreX(): real { width / 2.0 - BallSize / 2.0 }
    function CentreY(): real { height / 2.0 - BallSize / 2.0 }
  }

  /** The values `Math.random()` yields during one `resetBall()`, in the
      order the source evaluates them: the horizontal sign, the vertical
      magnitude, the vertical sign. */
  datatype Draw = Draw(sideX: real, spread: real, sideY: real) {
    predicate Valid() { Unit(sideX) && Unit(spread) && Unit(sideY) }
  }

  /** The range of `Math.random()`. */
  predicate Unit(u: real) { 0.0 <= u < 1.0 }

  /** `Math.random() > 0.5 ? 1 : -1` */
  function Sign(u: real): (s: real)
    ensures s == 1.0 || s == -1.0
    ensures s > 0.0 <==> u > 0.5
  {
    if u > 0.5 then 1.0 else -1.0
  }

  /** Everything one frame reads and writes: the ball, both paddles and the
      three counters the page displays. */
  datatype World = World(
    ballX: real, ballY: real,
    ballSpeedX: real, ballSpeedY: real,
    leftPaddleY: real, rightPaddleY: real,
    playerScore: int, cpuScore: int, level: int)

  /** The module-level state when the script is loaded: centred ball moving
      at 5 horizontally and 4 vertically with random signs, centred paddles.
      The counters start at the page's initial 0. */
  function Initial(f: Field, sideX: real, sideY: real): World {
    World(f.CentreX(), f.CentreY(),
          ServeSpeed * Sign(sideX), 4.0 * Sign(sideY),
          f.height / 2.0 - PaddleHeight / 2.0, f.height / 2.0 - PaddleHeight / 2.0,
          0, 0, 0)
  }

  // ---------------------------------------------------------------- input

  /** Top edge of the left paddle for a pointer at canvas-relative height
      `pointerY`: centred on the pointer, kept on the canvas. */
  function PointerPaddle(f: Field, pointerY: real): (y: real)
    requires f.Valid()
    ensures 0.0 <= y <= f.PaddleLimit()
    ensures var centred := pointerY - PaddleHeight / 2.0;
            (0.0 <= centred <= f.PaddleLimit() ==> y == centred) &&
            (centred < 0.0 ==> y == 0.0) &&
            (centred > f.PaddleLimit() ==> y == f.PaddleLimit())
  {
    Clamp(pointerY - PaddleHeight / 2.0, 0.0, f.PaddleLimit())
  }

  /** A mouse-move or touch-move event: only the left paddle moves. */
  function Pointer(f: Field, w: World, pointerY: real): (r: World)
    requires f.Valid()
    ensures r == w.(leftPaddleY := r.leftPaddleY)
    ensures 0.0 <= r.leftPaddleY <= f.PaddleLimit()
  {
    w.(leftPaddleY := PointerPaddle(f, pointerY))
  }

  // ------------------------------------------------------------- opponent

  /** Where the opponent wants its top edge: centred on the ball. */
  function AiTarget(ballY: real): real {
    ballY - PaddleHeight / 2.0 + BallSize / 2.0
  }

  /** `aiMove()` on the right paddle: a step toward the target of at most
      `PaddleSpeed`, then kept on the canvas. From an on-canvas position the
      paddle never moves away from the target, never overshoots it, reaches
      it when it is close, and otherwise moves at full speed unless the
      canvas edge stops it. */
  function AiPaddle(f: Field, ballY: real, paddleY: real): (y: real)
    requires f.Valid()
    ensures 0.0 <= y <= f.PaddleLimit()
    ensures 0.0 <= paddleY <= f.PaddleLimit() ==> Abs(y - paddleY) <= PaddleSpeed
    ensures 0.0 <= paddleY <= f.PaddleLimit() ==>
              var t := AiTarget(ballY);
              (paddleY <= t ==> paddleY <= y <= t) &&
              (t <= paddleY ==> t <= y <= paddleY)
    ensures (0.0 <= AiTarget(ballY) <= f.PaddleLimit() && Abs(AiTarget(ballY) - paddleY) <= PaddleSpeed)
              ==> y == AiTarget(ballY)
    ensures (0.0 <= paddleY && AiTarget(ballY) - paddleY > PaddleSpeed && paddleY + PaddleSpeed <= f.PaddleLimit())
              ==> y == paddleY + PaddleSpeed
    ensures (paddleY <= f.PaddleLimit() && paddleY - AiTarget(ballY) > PaddleSpeed && paddleY - PaddleSpeed >= 0.0)
              ==> y == paddleY - PaddleSpeed
  {
    var delta := AiTarget(ballY) - paddleY;
    Clamp(paddleY + Clamp(delta, -PaddleSpeed, PaddleSpeed), 0.0, f.PaddleLimit())
  }

  /** The opponent's move as a change of the world: only the right paddle moves. */
  function AiStep(f: Field, w: World): (r: World)
    requires f.Valid()
    ensures r == w.(rightPaddleY := r.rightPaddleY)
    ensures 0.0 <= r.rightPaddleY <= f.PaddleLimit()
  {
    w.(rightPaddleY := AiPaddle(f, w.ballY, w.rightPaddleY))
  }

  // -------------------------------------------------------------- physics

  /** Ball position += velocity: one frame is one time unit. */
  function Integrate(w: World): World {
    w.(ballX := w.ballX + w.ballSpeedX, ballY := w.ballY + w.ballSpeedY)
  }

  predicate HitsTop(y: real) { y <= 0.0 }

  predicate HitsBottom(f: Field, y: real) { y + BallSize >= f.height }

  /** The two wall tests, in sequence as the source runs them. On a valid
      field at most one fires; the ball ends between the walls, and its
      vertical speed is negated exactly when a wall was hit. */
  function Walls(f: Field, w: World): (r: World)
    requires f.Valid()
    ensures !(HitsTop(w.ballY) && HitsBottom(f, w.ballY))
    ensures r == w.(ballY := r.ballY, ballSpeedY := r.ballSpeedY)
    ensures 0.0 <= r.ballY <= f.BallLimit()
    ensures r.ballSpeedY == if HitsTop(w.ballY) || HitsBottom(f, w.ballY) then -w.ballSpeedY else w.ballSpeedY
    ensures HitsTop(w.ballY) ==> r.ballY == 0.0
    ensures HitsBottom(f, w.ballY) ==> r.ballY == f.BallLimit()
    ensures !HitsTop(w.ballY) && !HitsBottom(f, w.ballY) ==> r.ballY == w.ballY
  {
    var top := if HitsTop(w.ballY) then w.(ballY := 0.0, ballSpeedY := -w.ballSpeedY) else w;
    if HitsBottom(f, top.ballY) then top.(ballY := f.height - BallSize, ballSpeedY := -top.ballSpeedY) else top
  }

  /** The vertical speed a paddle hit adds: the distance from the paddle's
      centre to the ball's, scaled by the spin factor. */
  function Spin(ballY: real, paddleY: real): real {
    ((ballY + BallSize / 2.0) - (paddleY + PaddleHeight / 2.0)) * SpinFactor
  }

  /** Half the vertical reach of a paddle hit, measured between centres. */
  const Reach: real := (PaddleHeight + BallSize) / 2.0

  /** The ball's left edge is in the left paddle's band and the two overlap vertically. */
  predicate LeftHit(f: Field, w: World) {
    w.ballX <= f.LeftFace() && w.ballY + BallSize > w.leftPaddleY && w.ballY < w.leftPaddleY + PaddleHeight
  }

  /** The ball's right edge is in the right paddle's band and the two overlap vertically. */
  predicate RightHit(f: Field, w: World) {
    w.ballX + BallSize >= f.RightFace() && w.ballY + BallSize > w.rightPaddleY && w.ballY < w.rightPaddleY + PaddleHeight
  }

  /** Left paddle collision: the ball is put against the paddle's face, its
      horizontal speed is negated and spin is added; hits below the paddle's
      centre push the ball down, hits above it push it up, and the added
      spin is less than the spin factor times the reach. */
  function LeftBounce(f: Field, w: World): (r: World)
    ensures r == w.(ballX := r.ballX, ballSpeedX := r.ballSpeedX, ballSpeedY := r.ballSpeedY)
    ensures !LeftHit(f, w) ==> r == w
    ensures LeftHit(f, w) ==>
              r.ballX == f.LeftFace() &&
              r.ballSpeedX == -w.ballSpeedX &&
              r.ballSpeedY == w.ballSpeedY + Spin(w.ballY, w.leftPaddleY)
    ensures LeftHit(f, w) ==> Abs(r.ballSpeedY - w.ballSpeedY) < SpinFactor * Reach
    ensures LeftHit(f, w) ==>
              (r.ballSpeedY >= w.ballSpeedY <==> w.ballY + BallSize / 2.0 >= w.leftPaddleY + PaddleHeight / 2.0)
  {
    if LeftHit(f, w) then
      w.(ballX := f.LeftFace(), ballSpeedX := -w.ballSpeedX,
         ballSpeedY := w.ballSpeedY + Spin(w.ballY, w.leftPaddleY))
    else w
  }

  /** Right paddle collision: the mirror image of `LeftBounce`. */
  function RightBounce(f: Field, w: World): (r: World)
    ensures r == w.(ballX := r.ballX, ballSpeedX := r.ballSpeedX, ballSpeedY := r.ballSpeedY)
    ensures !RightHit(f, w) ==> r == w
    ensures RightHit(f, w) ==>
              r.ballX + BallSize == f.RightFace() &&
              r.ballSpeedX == -w.ballSpeedX &&
              r.ballSpeedY == w.ballSpeedY + Spin(w.ballY, w.rightPaddleY)
    ensures RightHit(f, w) ==> Abs(r.ballSpeedY - w.ballSpeedY) < SpinFactor * Reach
    ensures RightHit(f, w) ==>
              (r.ballSpeedY >= w.ballSpeedY <==> w.ballY + BallSize / 2.0 >= w.rightPaddleY + PaddleHeight / 2.0)
  {
    if RightHit(f, w) then
      w.(ballX := f.width - PaddleOffset - PaddleWidth - BallSize, ballSpeedX := -w.ballSpeedX,
         ballSpeedY := w.ballSpeedY + Spin(w.ballY, w.rightPaddleY))
    else w
  }

  /** Steps 1-4 of `update()`: move, walls, left paddle, right paddle. */
  function Advance(f: Field, w: World): World
    requires f.Valid()
  {
    RightBounce(f, LeftBounce(f, Walls(f, Integrate(w))))
  }

  // -------------------------------------------------------------- scoring

  /** The ball has fully left the canvas on the left. */
  predicate PastLeft(w: World) { w.ballX + BallSize < 0.0 }

  /** The ball has fully left the canvas on the right. */
  predicate PastRight(f: Field, w: World) { w.ballX > f.width }

  predicate OutOfPlay(f: Field, w: World) { PastLeft(w) || PastRight(f, w) }

  /** The score check: a ball past the left edge is a point for the
      computer, otherwise one past the right edge is a point for the player;
      exactly one counter grows by one on a point, none otherwise. */
  function Tally(f: Field, w: World): (r: World)
    ensures r == w.(playerScore := r.playerScore, cpuScore := r.cpuScore)
    ensures PastLeft(w) ==> r.cpuScore == w.cpuScore + 1 && r.playerScore == w.playerScore
    ensures !PastLeft(w) && PastRight(f, w) ==> r.playerScore == w.playerScore + 1 && r.cpuScore == w.cpuScore
    ensures !OutOfPlay(f, w) ==> r == w
    ensures r.playerScore + r.cpuScore == w.playerScore + w.cpuScore + (if OutOfPlay(f, w) then 1 else 0)
  {
    if PastLeft(w) then w.(cpuScore := w.cpuScore + 1)
    else if PastRight(f, w) then w.(playerScore := w.playerScore + 1)
    else w
  }

  /** `resetBall()`: the ball is centred, moves horizontally at 5 and
      vertically at a speed in [2, 6), each with the sign its draw picks;
      paddles and counters are untouched. */
  function Serve(f: Field, w: World, d: Draw): (r: World)
    requires d.Valid()
    ensures r == w.(ballX := r.ballX, ballY := r.ballY, ballSpeedX := r.ballSpeedX, ballSpeedY := r.ballSpeedY)
    ensures r.ballX == f.width / 2.0 - BallSize / 2.0 && r.ballY == f.height / 2.0 - BallSize / 2.0
    ensures Abs(r.ballSpeedX) == ServeSpeed
    ensures 2.0 <= Abs(r.ballSpeedY) < 6.0
    ensures r.ballSpeedX > 0.0 <==> d.sideX > 0.5
    ensures r.ballSpeedY > 0.0 <==> d.sideY > 0.5
  {
    w.(ballX := f.CentreX(), ballY := f.CentreY(),
       ballSpeedX := ServeSpeed * Sign(d.sideX),
       ballSpeedY := (d.spread * 4.0 + 2.0) * Sign(d.sideY))
  }

  /** The counter part of `increaseLevel()`. */
  function LevelUp(w: World): World {
    w.(level := w.level + 1)
  }

  /** The ball as `Serve` leaves it: centred, horizontal speed 5, vertical below 6. */
  predicate JustServed(f: Field, w: World) {
    w.ballX == f.CentreX() && w.ballY == f.CentreY() &&
    Abs(w.ballSpeedX) == ServeSpeed && Abs(w.ballSpeedY) < 6.0
  }

  /** The nested `update()` that `increaseLevel()` runs on the ball just
      served. That ball touches no paddle and cannot leave the canvas on this
      step, so the nested call never reaches its own reset and level branch:
      the re-entry is one extra step, not a recursion. Only the ball and the
      right paddle change. */
  function Replay(f: Field, w: World): (r: World)
    requires f.Valid() && JustServed(f, w)
    ensures !OutOfPlay(f, Advance(f, w))
    ensures !LeftHit(f, Walls(f, Integrate(w)))
    ensures !RightHit(f, LeftBounce(f, Walls(f, Integrate(w))))
    ensures r.playerScore == w.playerScore && r.cpuScore == w.cpuScore && r.level == w.level
    ensures r.leftPaddleY == w.leftPaddleY && r.ballSpeedX == w.ballSpeedX
    ensures r.ballX == w.ballX + w.ballSpeedX
    ensures r.ballY == w.ballY + w.ballSpeedY && r.ballSpeedY == w.ballSpeedY
    ensures 0.0 <= r.ballY <= f.BallLimit()
    ensures 0.0 <= r.rightPaddleY <= f.PaddleLimit()
  {
    AiStep(f, Tally(f, Advance(f, w)))
  }

  /** One frame, `update()`: advance the ball, count a point if it left the
      canvas, and in that case serve, raise the level and run the nested
      step; the opponent moves last. A point raises the level by exactly one
      and exactly one score by one; otherwise no counter changes. The left
      paddle never moves; the ball ends between the walls and not
      beyond either scoring line. */
  function Tick(f: Field, w: World, d: Draw): (r: World)
    requires f.Valid() && d.Valid()
    ensures var a := Advance(f, w);
            (PastLeft(a) ==> r.cpuScore == w.cpuScore + 1 && r.playerScore == w.playerScore && r.level == w.level + 1) &&
            (!PastLeft(a) && PastRight(f, a) ==> r.playerScore == w.playerScore + 1 && r.cpuScore == w.cpuScore && r.level == w.level + 1) &&
            (!OutOfPlay(f, a) ==> r.playerScore == w.playerScore && r.cpuScore == w.cpuScore && r.level == w.level)
    ensures OutOfPlay(f, Advance(f, w)) ==>
              r.ballSpeedX == Serve(f, w, d).ballSpeedX &&
              Abs(r.ballSpeedX) == ServeSpeed && r.ballX == f.CentreX() + r.ballSpeedX &&
              r.ballSpeedY == Serve(f, w, d).ballSpeedY && 2.0 <= Abs(r.ballSpeedY) < 6.0 &&
              r.ballY == f.CentreY() + r.ballSpeedY
    ensures r.leftPaddleY == w.leftPaddleY
    ensures 0.0 <= r.ballY <= f.BallLimit()
    ensures -BallSize <= r.ballX <= f.width
    ensures 0.0 <= r.rightPaddleY <= f.PaddleLimit()
  {
    var a := Tally(f, Advance(f, w));
    if OutOfPlay(f, a) then AiStep(f, Replay(f, LevelUp(Serve(f, a, d))))
    else AiStep(f, a)
  }

  /** The reset button: both scores and the level go to 0 and the ball is
      served; the speeds of 1 it writes first are overwritten by the serve,
      so the result is exactly a serve with cleared counters. */
  function Restart(f: Field, w: World, d: Draw): (r: World)
    requires d.Valid()
    ensures r == Serve(f, w, d).(playerScore := 0, cpuScore := 0, level := 0)
    ensures r.leftPaddleY == w.leftPaddleY && r.rightPaddleY == w.rightPaddleY
  {
    var cleared := w.(ballSpeedX := 1.0, ballSpeedY := 1.0, playerScore := 0, cpuScore := 0);
    Serve(f, cleared, d).(level := 0)
  }
}
