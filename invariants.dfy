/** What holds of the table in every state the page can reach: the state
    invariant `Playable`, preserved by every event the page reacts to, and
    so by any sequence of them starting from the loaded script. */
module Invariants {
  import opened Geometry
  import opened Physics

  /** Both paddles are on the canvas, the ball is between the walls and not
      beyond either scoring line, the ball moves horizontally at serve
      speed, a ball moving right is not left of the left paddle's face and
      one moving left is not right of the right paddle's face, and every
      point scored since the last reset raised the level once. */
  predicate Playable(f: Field, w: World) {
    0.0 <= w.leftPaddleY <= f.PaddleLimit() &&
    0.0 <= w.rightPaddleY <= f.PaddleLimit() &&
    0.0 <= w.ballY <= f.BallLimit() &&
    -BallSize <= w.ballX <= f.width &&
    (w.ballSpeedX == ServeSpeed || w.ballSpeedX == -ServeSpeed) &&
    (w.ballSpeedX > 0.0 ==> w.ballX >= f.LeftFace()) &&
    (w.ballSpeedX < 0.0 ==> w.ballX + BallSize <= f.RightFace()) &&
    0 <= w.playerScore && 0 <= w.cpuScore && w.playerScore + w.cpuScore == w.level
  }

  /** The state the script starts from is playable. */
  lemma InitialIsPlayable(f: Field, sideX: real, sideY: real)
    requires f.Valid()
    ensures Playable(f, Initial(f, sideX, sideY))
  {
  }

  /** In a playable state a paddle only ever turns back a ball that is
      coming toward it, and the ball ends the move against the paddle's face
      rather than past it: the left paddle reverses a ball moving left and
      leaves it at its face, the right one a ball moving right. No frame
      hits both paddles. */
  lemma PaddlesReflectApproachingBall(f: Field, w: World)
    requires f.Valid() && Playable(f, w)
    ensures var b := Walls(f, Integrate(w));
            (LeftHit(f, b) ==>
               w.ballSpeedX < 0.0 && Advance(f, w).ballSpeedX > 0.0 && Advance(f, w).ballX == f.LeftFace()) &&
            (RightHit(f, LeftBounce(f, b)) ==>
               w.ballSpeedX > 0.0 && Advance(f, w).ballSpeedX < 0.0 && Advance(f, w).ballX + BallSize == f.RightFace()) &&
            !(LeftHit(f, b) && RightHit(f, LeftBounce(f, b)))
  {
  }

  /** Steps 1-4 of a frame keep everything `Playable` says except the
      horizontal bounds, which the score check restores. */
  lemma AdvanceKeepsShape(f: Field, w: World)
    requires f.Valid() && Playable(f, w)
    ensures var a := Advance(f, w);
            a.leftPaddleY == w.leftPaddleY && a.rightPaddleY == w.rightPaddleY &&
            a.playerScore == w.playerScore && a.cpuScore == w.cpuScore && a.level == w.level &&
            0.0 <= a.ballY <= f.BallLimit() &&
            (a.ballSpeedX == ServeSpeed || a.ballSpeedX == -ServeSpeed) &&
            (a.ballSpeedX > 0.0 ==> a.ballX >= f.LeftFace()) &&
            (a.ballSpeedX < 0.0 ==> a.ballX + BallSize <= f.RightFace())
  {
  }

  /** A frame keeps the table playable. */
  lemma TickKeepsPlayable(f: Field, w: World, d: Draw)
    requires f.Valid() && d.Valid() && Playable(f, w)
    ensures Playable(f, Tick(f, w, d))
  {
  }

  /** The opponent is capped at `PaddleSpeed` per `aiMove()`, but a frame
      that scores runs `aiMove()` twice (once in the nested step), so over a
      scoring frame the right paddle may move up to twice the cap. */
  lemma OpponentTravelPerFrame(f: Field, w: World, d: Draw)
    requires f.Valid() && d.Valid() && Playable(f, w)
    ensures var r := Tick(f, w, d);
            (!OutOfPlay(f, Advance(f, w)) ==> Abs(r.rightPaddleY - w.rightPaddleY) <= PaddleSpeed) &&
            Abs(r.rightPaddleY - w.rightPaddleY) <= 2.0 * PaddleSpeed
  {
  }

  /** A concrete scoring frame in which the opponent moves 12, twice the
      cap: the ball leaves on the left, is served upward-right from the
      centre, and both `aiMove()` calls pull the paddle down from the top. */
  lemma ScoringFrameMovesOpponentTwice()
    ensures var f := Field(400.0, 300.0);
            var w := World(-10.0, 10.0, -5.0, 0.0, 200.0, 0.0, 0, 0, 0);
            var d := Draw(0.9, 0.0, 0.9);
            Playable(f, w) && OutOfPlay(f, Advance(f, w)) &&
            Tick(f, w, d).rightPaddleY == 12.0
  {
    var f := Field(400.0, 300.0);
    var w := World(-10.0, 10.0, -5.0, 0.0, 200.0, 0.0, 0, 0, 0);
    var d := Draw(0.9, 0.0, 0.9);
    var a := Advance(f, w);
    assert a == World(-15.0, 10.0, -5.0, 0.0, 200.0, 0.0, 0, 0, 0);
    var s := LevelUp(Serve(f, Tally(f, a), d));
    assert s == World(193.0, 143.0, 5.0, 2.0, 200.0, 0.0, 0, 1, 1);
    var n := Advance(f, s);
    assert n == World(198.0, 145.0, 5.0, 2.0, 200.0, 0.0, 0, 1, 1);
    assert Replay(f, s).rightPaddleY == 6.0;
  }

  /** The opponent from the bottom of the canvas, with the ball at the top:
      it moves exactly `PaddleSpeed` up, not to its target. */
  lemma OpponentCannotTeleport(f: Field)
    requires f.Valid() && f.PaddleLimit() >= PaddleSpeed
    ensures AiPaddle(f, 0.0, f.PaddleLimit()) == f.PaddleLimit() - PaddleSpeed
  {
  }

  /** A pointer move and the reset button keep the table playable. */
  lemma PointerKeepsPlayable(f: Field, w: World, pointerY: real)
    requires f.Valid() && Playable(f, w)
    ensures Playable(f, Pointer(f, w, pointerY))
  {
  }

  lemma RestartIsPlayable(f: Field, w: World, d: Draw)
    requires f.Valid() && d.Valid() && Playable(f, w)
    ensures Playable(f, Restart(f, w, d))
  {
  }

  // ------------------------------------------------------- event sequences

  /** An event the page reacts to: a mouse or touch move at a canvas-relative
      height, an animation frame, a click on the reset button. The frame and
      the reset carry the random values their serve would consume. */
  datatype Event = Move(pointerY: real) | Frame(d: Draw) | Reset(d: Draw)

  predicate ValidEvent(e: Event) {
    match e
    case Move(_) => true
    case Frame(d) => d.Valid()
    case Reset(d) => d.Valid()
  }

  function Step(f: Field, w: World, e: Event): World
    requires f.Valid() && ValidEvent(e)
  {
    match e
    case Move(y) => Pointer(f, w, y)
    case Frame(d) => Tick(f, w, d)
    case Reset(d) => Restart(f, w, d)
  }

  /** The state after a sequence of events, in order. */
  function Run(f: Field, w: World, es: seq<Event>): World
    requires f.Valid() && forall i :: 0 <= i < |es| ==> ValidEvent(es[i])
    decreases |es|
  {
    if es == [] then w else Run(f, Step(f, w, es[0]), es[1..])
  }

  /** Every event keeps the table playable. */
  lemma StepKeepsPlayable(f: Field, w: World, e: Event)
    requires f.Valid() && ValidEvent(e) && Playable(f, w)
    ensures Playable(f, Step(f, w, e))
  {
  }

  /** Any sequence of events keeps the table playable. */
  lemma {:induction false} RunKeepsPlayable(f: Field, w: World, es: seq<Event>)
    requires f.Valid() && (forall i :: 0 <= i < |es| ==> ValidEvent(es[i])) && Playable(f, w)
    ensures Playable(f, Run(f, w, es))
    decreases |es|
  {
    if es != [] {
      StepKeepsPlayable(f, w, es[0]);
      RunKeepsPlayable(f, Step(f, w, es[0]), es[1..]);
    }
  }

  /** However the game is played from the loaded script, both paddles
      stay on the canvas, the ball between the walls and not beyond either
      scoring line, the ball keeps serve speed horizontally,
      and the two scores add up to the level. */
  lemma {:induction false} GameStaysPlayable(f: Field, sideX: real, sideY: real, es: seq<Event>)
    requires f.Valid() && forall i :: 0 <= i < |es| ==> ValidEvent(es[i])
    ensures var w := Run(f, Initial(f, sideX, sideY), es);
            0.0 <= w.leftPaddleY <= f.PaddleLimit() && 0.0 <= w.rightPaddleY <= f.PaddleLimit() &&
            0.0 <= w.ballY <= f.BallLimit() && -BallSize <= w.ballX <= f.width &&
            Abs(w.ballSpeedX) == ServeSpeed &&
            w.playerScore + w.cpuScore == w.level
  {
    InitialIsPlayable(f, sideX, sideY);
    RunKeepsPlayable(f, Initial(f, sideX, sideY), es);
  }
}
