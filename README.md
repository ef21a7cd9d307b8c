# Pong simulation core, in Dafny

A model of the simulation in `js/script.js` of a browser Pong game in which
the player's left paddle follows the mouse or a finger and a computer
opponent drives the right paddle. The model covers the game state (ball
position and velocity, both paddle positions, the player score, the
computer score and the level) and everything that changes it:

- `clamp`
- the mousemove and touchmove handlers
- the opponent's `aiMove`
- the per-frame `update` (move, wall bounce, paddle bounce with spin, score
  check, serve, level increase and the nested `update` that the level increase
  runs, opponent move)
- `resetBall`
- the reset button's handler

Files (one module each):

- `geometry.dfy`: `Clamp` and the small real-number helpers.
- `physics.dfy`: the game as values. `Field` is the canvas size, `World` the
  state, and `Draw` the three `Math.random()` results one serve uses. There is
  one function per phase of a frame, each with a contract saying what the phase
  promises. `Tick` is the whole `update()`.
- `invariants.dfy`: the state invariant `Playable`. A lemma proves that every
  event preserves it: a pointer move, a frame, or a reset click. An induction
  extends this to any sequence of events starting from the script's initial
  state.
- `game.dfy`: class `Pong`. The script's module-level variables are its
  fields. Its methods assign those fields in the source's order, and each is
  proved to produce exactly the state the matching `Physics` function gives.

Modelling decisions:

- Numbers are Dafny `real`s, not IEEE doubles.
- `Math.random()` is replaced by parameters in [0, 1). Signs use the source's
  own test, `u > 0.5 ? 1 : -1`. `Draw(sideX, spread, sideY)` lists the three
  values in the order `resetBall` evaluates them.
- The canvas size is the parameter `Field(width, height)`. `Field.Valid`
  requires a height of at least one paddle (80) and a width over 92 (twice the
  paddle offset plus paddle width plus ball size). Every operation whose
  contract needs it requires a valid field.
- The counters are plain integers. The source keeps them in page text and
  reads them back with `Number()`. The page's initial value for each is taken
  to be 0.
- `increaseLevel` calls `update()` again (js/script.js:184). The model follows
  the code here: a scoring frame serves the ball, raises the level, runs one
  more complete step on the served ball (`Replay`), and then runs the outer
  `aiMove`. `Replay` proves that a ball just served from the centre touches no
  paddle and cannot leave the canvas. The nested score branch, and any further
  re-entry, therefore never runs, so the recursion is bounded at one extra
  step. One consequence is proved: the opponent moves twice in a scoring frame,
  and so can travel up to twice `PADDLE_SPEED` (`OpponentTravelPerFrame`,
  `ScoringFrameMovesOpponentTwice`). The re-entry looks unintended; the model
  keeps the code's behaviour.

## Model

| member | source | states |
|---|---|---|
| Geometry.Clamp | js/script.js:48-50 | result is at least `min`; when `min <= max` it lies in [min, max], equals `val` when `val` is already in range and the nearer bound otherwise; when `min > max` it is `min` |
| Physics.Sign | js/script.js:44-45 | the random sign is 1 or -1, and positive exactly when the draw exceeds 0.5 |
| Physics.PointerPaddle | js/script.js:53-57 | the left paddle's new top edge is in [0, HEIGHT - PADDLE_HEIGHT] for every pointer height; it centres the paddle on the pointer when that fits, else sits against the nearer edge |
| Physics.Pointer | js/script.js:59-67 | a pointer or touch move changes only `leftPaddleY`, and leaves it in [0, HEIGHT - PADDLE_HEIGHT] |
| Physics.AiPaddle | js/script.js:69-75 | `rightPaddleY` ends in [0, HEIGHT - PADDLE_HEIGHT]; from an in-bounds start it moves at most PADDLE_SPEED, never away from the target, never past it, reaches the target when the target is on the canvas and within PADDLE_SPEED, and otherwise moves exactly PADDLE_SPEED unless a canvas edge stops it |
| Physics.AiStep | js/script.js:73-74 | the opponent's move changes only `rightPaddleY` and leaves it on the canvas |
| Physics.Walls | js/script.js:82-90 | at most one wall test fires; afterwards `0 <= ballY <= HEIGHT - BALL_SIZE`; `ballSpeedY` is negated exactly when a wall test fired; a top hit puts the ball at 0, a bottom hit at HEIGHT - BALL_SIZE; nothing else changes |
| Physics.LeftBounce | js/script.js:92-103 | on a left-paddle hit `ballX` becomes PADDLE_OFFSET + PADDLE_WIDTH, `ballSpeedX` is negated and `ballSpeedY` grows by exactly the centre offset times 0.08; the spin is below 0.08 * 47 in size and points the way the ball is off the paddle's centre; paddles and `ballY` do not change; without a hit nothing changes |
| Physics.RightBounce | js/script.js:105-115 | the mirror image: `ballX` becomes WIDTH - PADDLE_OFFSET - PADDLE_WIDTH - BALL_SIZE, `ballSpeedX` is negated, the same spin rule applies with `rightPaddleY`; without a hit nothing changes |
| Physics.Tally | js/script.js:117-127 | when `ballX + BALL_SIZE < 0` only the computer's score rises, by exactly 1; otherwise when `ballX > WIDTH` only the player's score rises, by exactly 1; otherwise nothing changes |
| Physics.Serve | js/script.js:41-46 | the ball is at (WIDTH/2 - BALL_SIZE/2, HEIGHT/2 - BALL_SIZE/2); `abs(ballSpeedX) == 5`; `2 <= abs(ballSpeedY) < 6`; each sign follows its draw; paddles and counters are untouched |
| Physics.Replay | js/script.js:180-185 | the nested `update()` run on a just-served ball hits no paddle and cannot score, so it never re-enters; it changes no counter and neither speed, moves the ball exactly one step by its velocity, keeps the ball between the walls and the right paddle on the canvas |
| Physics.Tick | js/script.js:77-136 | one frame: a ball past the left edge gives the computer exactly one point, otherwise one past the right edge gives the player exactly one point; either way the level rises by exactly 1 and the ball is re-served (both speeds the serve's: horizontal speed 5 with the drawn sign, vertical speed in [2, 6), and one step from the centre in both directions); with no point no counter changes; the left paddle never moves; the right paddle ends on the canvas, and the ball between the walls and not past either scoring line (`-BALL_SIZE <= ballX <= WIDTH`) |
| Physics.Restart | js/script.js:165-177 | the reset click equals a serve with both scores and the level set to 0: the speeds of 1 it writes first are overwritten; paddles do not move |
| Invariants.InitialIsPlayable | js/script.js:15-24 | the state the script loads with satisfies the invariant `Playable` |
| Invariants.PaddlesReflectApproachingBall | js/script.js:92-115 | in a playable state the left paddle reverses only a ball moving left and leaves it exactly at its face, the right paddle only a ball moving right, and no frame hits both paddles (no tunnelling, no double bounce) |
| Invariants.AdvanceKeepsShape | js/script.js:78-115 | moving and bouncing keep the paddles and counters, keep the ball between the walls and at horizontal speed 5, and keep a ball moving away from a paddle in front of that paddle's face |
| Invariants.TickKeepsPlayable | js/script.js:77-136 | a frame preserves `Playable`: paddles on the canvas, the ball between the walls and not past either scoring line (`-BALL_SIZE <= ballX <= WIDTH`), `abs(ballSpeedX) == 5`, player score plus computer score equal to the level |
| Invariants.OpponentTravelPerFrame | js/script.js:129-135 | in a frame without a point the right paddle moves at most PADDLE_SPEED; in a scoring frame, where `aiMove` runs twice, at most twice that |
| Invariants.ScoringFrameMovesOpponentTwice | js/script.js:180-185 | a concrete scoring frame on a 400x300 canvas in which the right paddle moves 12, twice PADDLE_SPEED |
| Invariants.OpponentCannotTeleport | js/script.js:69-75 | with the ball at the top and the opponent at the bottom, the opponent moves exactly PADDLE_SPEED up, not to its target |
| Invariants.PointerKeepsPlayable | js/script.js:53-67 | a pointer or touch move preserves `Playable` |
| Invariants.RestartIsPlayable | js/script.js:165-177 | the reset click leads to a playable state |
| Invariants.StepKeepsPlayable | js/script.js:159-163 | each event the page handles (pointer move, frame, reset click) preserves `Playable` |
| Invariants.RunKeepsPlayable | js/script.js:159-163 | any sequence of events preserves `Playable` (by induction on the sequence) |
| Invariants.GameStaysPlayable | js/script.js:15-24 | from the initial state and after any sequence of events: both paddles are on the canvas, the ball is between the walls and not past either scoring line (`-BALL_SIZE <= ballX <= WIDTH`), the ball's horizontal speed is 5, and the two scores add up to the level |
| Game.Pong.constructor | js/script.js:15-24 | the fields start as the script's initial state, and the object invariant holds |
| Game.Pong.ResetBall | js/script.js:41-46 | the fields become exactly `Serve` of the old state |
| Game.Pong.PointerMove | js/script.js:53-67 | only `leftPaddleY` changes, to the clamped pointer position; the invariant is kept |
| Game.Pong.AiMove | js/script.js:69-75 | only `rightPaddleY` changes, to `AiPaddle` of the old state; on the canvas and at most PADDLE_SPEED from an in-bounds start |
| Game.Pong.MoveBall | js/script.js:78-80 | the ball's position advances by its velocity, nothing else changes |
| Game.Pong.BounceWalls | js/script.js:82-90 | the fields become `Walls` of the old state; the ball ends between the walls |
| Game.Pong.BounceLeftPaddle | js/script.js:92-103 | the fields become `LeftBounce` of the old state |
| Game.Pong.BounceRightPaddle | js/script.js:105-115 | the fields become `RightBounce` of the old state |
| Game.Pong.ScoreCheck | js/script.js:117-127 | the counters become `Tally` of the old state |
| Game.Pong.IncreaseLevel | js/script.js:180-185 | the level rises by one and the nested update runs once; its inner score branch is proved unreachable |
| Game.Pong.Update | js/script.js:77-136 | the fields become `Tick` of the old state, and the invariant is kept |
| Game.Pong.ResetClick | js/script.js:165-177 | the fields become `Restart` of the old state: counters 0, ball served; the invariant is kept |

## Left out

- Drawing (`drawRect`, `drawBall`, `draw`, js/script.js:29-39 and 138-157) only calls the canvas API and changes no state. The `draw()` call in the reset handler is left out for the same reason.
- Page access is not modelled. This covers the element lookups, `getBoundingClientRect` (its `top` is the parameter `rectTop` of `PointerMove`) and the `innerHTML`/`Number()` round trip of the counters. The counters are integers, and their initial page value is taken to be 0.
- The audio `play()` calls (js/script.js:121, 126, 189) are fire-and-forget calls into the browser.
- `preventDefault()` in the touch handler affects only the browser's scrolling.
- The loop driver is not modelled: `gameLoop`, `requestAnimationFrame`/`cancelAnimationFrame`, and the start and end buttons with their listener wiring (js/script.js:159-202). These are host callbacks. The model replaces them with a sequence of events (`Invariants.Run`). Duplicated loops from repeated start clicks add `update()` calls between events, and duplicated reset listeners repeat reset clicks; both are sequences of `Frame` and `Reset` events, which `Invariants.RunKeepsPlayable` covers. The loops' interleaving with the host is not modelled.
- `Math.random()` is replaced by parameters constrained to [0, 1). The model does not state the probability distribution.
- IEEE-754 rounding is not modelled: the model computes with exact reals.
- Canvases narrower than `Field.Valid` allows (width 92 or less) or shorter than a paddle are not modelled. On those the nested step might touch a paddle, so its bound would need a different proof.
- Physics.Tick: takes the serve's random values on every frame, but uses them only on a frame that scores.
