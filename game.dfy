/** The script's module-level variables as one object, and its functions and
    event-handler bodies as methods that assign those fields step by step in
    the source's order. Each method is proved to leave exactly the state the
    matching function of `Physics` describes, and the whole-frame and
    whole-event methods keep the invariant `Playable`. */
module Game {
  import opened Geometry
  import opened Physics
  import opened Invariants

  class Pong {
    /** The canvas, fixed when the script loads. */
    const field: Field

    var ballX: real
    var ballY: real
    var ballSpeedX: real
    var ballSpeedY: real
    var leftPaddleY: real
    var rightPaddleY: real
    /** The three counters the page keeps in its text. */
    var playerScore: int
    var cpuScore: int
    var level: int

    /** The fields as a value. */
    ghost function State(): World
      reads this
    {
      World(ballX, ballY, ballSpeedX, ballSpeedY, leftPaddleY, rightPaddleY, playerScore, cpuScore, level)
    }

    ghost predicate Valid()
      reads this
    {
      field.Valid() && Playable(field, State())
    }

    /** The script's top-level initialisation; `sideX` and `sideY` are the
        two `Math.random()` values it draws. */
    constructor (width: real, height: real, sideX: real, sideY: real)
      requires Field(width, height).Valid()
      ensures field == Field(width, height)
      ensures State() == Initial(field, sideX, sideY)
      ensures Valid()
    {
      field := Field(width, height);
      ballX := width / 2.0 - BallSize / 2.0;
      ballY := height / 2.0 - BallSize / 2.0;
      ballSpeedX := 5.0 * (if sideX > 0.5 then 1.0 else -1.0);
      ballSpeedY := 4.0 * (if sideY > 0.5 then 1.0 else -1.0);
      leftPaddleY := height / 2.0 - PaddleHeight / 2.0;
      rightPaddleY := height / 2.0 - PaddleHeight / 2.0;
      playerScore, cpuScore, level := 0, 0, 0;
      new;
      InitialIsPlayable(field, sideX, sideY);
    }

    /** `resetBall()`, consuming the three random values of `d`. */
    method ResetBall(d: Draw)
      requires d.Valid()
      modifies this
      ensures State() == Serve(field, old(State()), d)
    {
      ballX := field.width / 2.0 - BallSize / 2.0;
      ballY := field.height / 2.0 - BallSize / 2.0;
      ballSpeedX := 5.0 * (if d.sideX > 0.5 then 1.0 else -1.0);
      ballSpeedY := (d.spread * 4.0 + 2.0) * (if d.sideY > 0.5 then 1.0 else -1.0);
    }

    /** The body of the mousemove and touchmove handlers: `clientY` and
        `rectTop` are the event's and the canvas's vertical page positions. */
    method PointerMove(clientY: real, rectTop: real)
      requires Valid()
      modifies this
      ensures Valid()
      ensures State() == Pointer(field, old(State()), clientY - rectTop)
      ensures 0.0 <= leftPaddleY <= field.height - PaddleHeight
    {
      var pointerY := clientY - rectTop;
      leftPaddleY := Clamp(pointerY - PaddleHeight / 2.0, 0.0, field.height - PaddleHeight);
      PointerKeepsPlayable(field, old(State()), pointerY);
    }

    /** `aiMove()`. */
    method AiMove()
      requires field.Valid()
      modifies this
      ensures State() == AiStep(field, old(State()))
      ensures 0.0 <= rightPaddleY <= field.height - PaddleHeight
      ensures 0.0 <= old(rightPaddleY) <= field.height - PaddleHeight ==>
                Abs(rightPaddleY - old(rightPaddleY)) <= PaddleSpeed
    {
      var target := ballY - PaddleHeight / 2.0 + BallSize / 2.0;
      var delta := target - rightPaddleY;
      rightPaddleY := rightPaddleY + Clamp(delta, -PaddleSpeed, PaddleSpeed);
      rightPaddleY := Clamp(rightPaddleY, 0.0, field.height - PaddleHeight);
    }

    /** Step 1 of `update()`. */
    method MoveBall()
      modifies this
      ensures State() == Integrate(old(State()))
    {
      ballX := ballX + ballSpeedX;
      ballY := ballY + ballSpeedY;
    }

    /** Step 2 of `update()`: the top wall, then the bottom wall. */
    method BounceWalls()
      requires field.Valid()
      modifies this
      ensures State() == Walls(field, old(State()))
      ensures 0.0 <= ballY <= field.height - BallSize
    {
      if ballY <= 0.0 {
        ballY := 0.0;
        ballSpeedY := ballSpeedY * -1.0;
      }
      if ballY + BallSize >= field.height {
        ballY := field.height - BallSize;
        ballSpeedY := ballSpeedY * -1.0;
      }
    }

    /** Step 3 of `update()`: the left paddle. */
    method BounceLeftPaddle()
      modifies this
      ensures State() == LeftBounce(field, old(State()))
    {
      if ballX <= PaddleOffset + PaddleWidth && ballY + BallSize > leftPaddleY && ballY < leftPaddleY + PaddleHeight {
        ballX := PaddleOffset + PaddleWidth;
        ballSpeedX := ballSpeedX * -1.0;
        var hitPos := (ballY + BallSize / 2.0) - (leftPaddleY + PaddleHeight / 2.0);
        ballSpeedY := ballSpeedY + hitPos * SpinFactor;
      }
    }

    /** Step 4 of `update()`: the right paddle. */
    method BounceRightPaddle()
      modifies this
      ensures State() == RightBounce(field, old(State()))
    {
      if ballX + BallSize >= field.width - PaddleOffset - PaddleWidth &&
         ballY + BallSize > rightPaddleY && ballY < rightPaddleY + PaddleHeight
      {
        ballX := field.width - PaddleOffset - PaddleWidth - BallSize;
        ballSpeedX := ballSpeedX * -1.0;
        var hitPos := (ballY + BallSize / 2.0) - (rightPaddleY + PaddleHeight / 2.0);
        ballSpeedY := ballSpeedY + hitPos * SpinFactor;
      }
    }

    /** The score check of `update()`. */
    method ScoreCheck()
      modifies this
      ensures State() == Tally(field, old(State()))
    {
      if ballX + BallSize < 0.0 {
        cpuScore := cpuScore + 1;
      } else if ballX > field.width {
        playerScore := playerScore + 1;
      }
    }

    /** `increaseLevel()`, called right after `resetBall()`: the level goes
        up by one and the whole of `update()` runs again on the served ball.
        That ball cannot leave the canvas on this step, so the nested score
        branch, and with it any further re-entry, never runs. */
    method IncreaseLevel()
      requires field.Valid() && JustServed(field, State())
      modifies this
      ensures State() == Replay(field, LevelUp(old(State())))
    {
      level := level + 1;
      MoveBall();
      BounceWalls();
      BounceLeftPaddle();
      BounceRightPaddle();
      ScoreCheck();
      assert !(ballX + BallSize < 0.0 || ballX > field.width);
      AiMove();
    }

    /** `update()`, one animation frame; `d` holds the random values a serve
        in this frame would consume. */
    method Update(d: Draw)
      requires Valid() && d.Valid()
      modifies this
      ensures Valid()
      ensures State() == Tick(field, old(State()), d)
    {
      MoveBall();
      BounceWalls();
      BounceLeftPaddle();
      BounceRightPaddle();
      ScoreCheck();
      if ballX + BallSize < 0.0 || ballX > field.width {
        ResetBall(d);
        IncreaseLevel();
      }
      AiMove();
      TickKeepsPlayable(field, old(State()), d);
    }

    /** The body of the reset button's click handler (its `draw()` call
        aside). */
    method ResetClick(d: Draw)
      requires Valid() && d.Valid()
      modifies this
      ensures Valid()
      ensures State() == Restart(field, old(State()), d)
      ensures playerScore == 0 && cpuScore == 0 && level == 0
    {
      ballSpeedX := 1.0;
      ballSpeedY := 1.0;
      playerScore := 0;
      cpuScore := 0;
      ResetBall(d);
      level := 0;
      RestartIsPlayable(field, old(State()), d);
    }
  }
}
