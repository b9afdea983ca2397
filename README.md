# Ping-pong engine, modelled in Dafny

This project models the simulation core of a two-paddle volley game: a
player paddle, an AI paddle and a ball on a screen (800 by 600 in the game).
It covers paddle motion with clamping; ball motion, wall bounce, bounding
square and re-centring; and the engine. The engine part is the per-frame
`update` (advance, wall bounce, player paddle then AI paddle collision,
scoring, AI move), win detection, `reset_game`, the replay keys 3/5/7, and
the held-key part of the run loop.

Every entity has two forms:

- A value datatype (`PaddleState`, `BallState`, `EngineState`) with pure
  functions, one per operation (`MovedUp`, `Advanced`, `WallBounced`, `Scored`,
  `Stepped`, ...). Each function's contract states what the operation promises.
- A class (`Paddle`, `Ball`, `GameEngine`) with the source's mutable fields.
  Its methods update them in place, as the Python methods do. Each method is
  proved to leave `State()` equal to the matching function applied to the old
  state. The method frames (``modifies this`y`` for a paddle move, for
  instance) say which fields may change.

`match.dfy` builds the states of play on top of these. It defines an
invariant `Valid` of the engine value, kept by every step of the run loop:

- both paddles stay on the screen;
- the ball keeps `|velocity| = speed` on each axis and stays between the walls;
- while a match is in play, the ball is not at a scoring edge;
- no score passes the winning score, and the match is over exactly when one
  side (never both) has reached it, with that side as the winner.

It then proves the invariant over any sequence of frames (`RunValid`), for
any inputs.

Modelling choices:

- All coordinates are integers. The `width / 2` and `height / 2` centre
  comparisons of the source become doubled comparisons:
  `2 * ball.x < 2 * paddle.x + paddle.width`. Python's `// 2` is Dafny's
  `/ 2`, which floors for a positive divisor.
- `pygame.Rect.colliderect` is the strict overlap predicate
  `Geometry.CollideRect`. Rectangles that only share an edge do not collide.
- The winner is `Option<Side>`, not the strings `"Player"` / `"AI"` / `None`.
- Keys are `Key`: `Digit(n)`, `Escape` or any other key.

Notes on the program's behaviour:

- `reset` reverses `velocity_x` and leaves `velocity_y` as it was. It does
  not restore the vertical speed.
- The engine starts with winning score 5 (first to 5). That is not one of
  the best-of-N options, which exist only for replays.
- `update` calls the engine's own `check_wall_bounce`
  (game/game_engine.py:121-134), not the ball's. Both are modelled.
  `Engine.WallBounced` is proved to agree with `Balls.BallState.WallBounced`.

## Model

| member | source | states |
|---|---|---|
| `Paddles.PaddleState.MovedUp` | game/paddle.py:24-28 | y ends up >= 0. It drops by exactly speed when y - speed >= 0, and is 0 otherwise. Only y changes. |
| `Paddles.PaddleState.MovedDown` | game/paddle.py:30-34 | y + height ends up <= screen height. y rises by exactly speed when that stays in bounds, and is screen height - height otherwise. Only y changes. |
| `Paddles.PaddleState.GetRect` | game/paddle.py:40-42 | The rectangle is exactly (x, y, width, height). |
| `Paddles.MovesPreserveBounds` | game/paddle.py:24-34 | With speed >= 0 and height <= screen height, both moves keep 0 <= y <= screen height - height. |
| `Paddles.MovesIdempotentAtClamp` | game/paddle.py:24-34 | move_up at y = 0 and move_down at y = screen height - height change nothing. Two move_up calls end at 0, or exactly 2 * speed higher. |
| `Paddles.Paddle.constructor` | game/paddle.py:6-21 | The new paddle's state is the given x, y, width, height and speed. |
| `Paddles.Paddle.MoveUp` | game/paddle.py:24-28 | Changes only the y field, which becomes `MovedUp` of the old state. |
| `Paddles.Paddle.MoveDown` | game/paddle.py:30-34 | Changes only the y field, which becomes `MovedDown` of the old state. |
| `Balls.BallState.Advanced` | game/ball.py:24-27 | The position moves by exactly the velocity. The velocity, radius and speed are unchanged. |
| `Balls.BallState.WallBounced` | game/ball.py:29-44 | Top case (y - radius <= 0): velocity_y is negated and y = radius. Otherwise, bottom case (y + radius >= height): velocity_y is negated and y = height - radius. Otherwise the ball is unchanged. x and velocity_x never change. When 2 * radius <= height, the ball ends between the walls. |
| `Balls.BallState.GetRect` | game/ball.py:50-53 | The rectangle is a square of side 2 * radius centred on the ball. |
| `Balls.BallState.Recentred` | game/ball.py:55-59 | The ball goes to (width // 2, height // 2), as floor halves. velocity_x is negated, and velocity_y, radius and speed are unchanged. |
| `Balls.SpeedInvariantPreserved` | game/ball.py:24-59 | update, check_wall_bounce and reset keep each velocity component equal to +speed or -speed. |
| `Balls.Ball.constructor` | game/ball.py:6-21 | A new ball has velocity (speed, speed), so it satisfies the speed invariant. |
| `Balls.Ball.Update` | game/ball.py:24-27 | Changes only x and y, and the new state is `Advanced` of the old one. |
| `Balls.Ball.CheckWallBounce` | game/ball.py:29-44 | Changes only y and velocity_y, and the new state is `WallBounced` of the old one. |
| `Balls.Ball.Reset` | game/ball.py:55-59 | Changes only x, y and velocity_x, and the new state is `Recentred` of the old one. |
| `Engine.PaddleCollision` | game/game_engine.py:85-119 | Hit iff the ball's square strictly overlaps the paddle's rectangle. On a hit, velocity_x is negated once, and the ball sits flush: its right edge at paddle.x if its centre was left of the paddle's centre, else its left edge at paddle.x + width. After a hit the square no longer overlaps the paddle. y, velocity_y, radius and speed never change. With no hit, nothing changes. |
| `Engine.WallBounced` | game/game_engine.py:121-134 | The engine's combined test-then-snap gives the same ball as the ball's own check_wall_bounce, and changes nothing else. |
| `Engine.GameOverChecked` | game/game_engine.py:159-166 | The player is tested first: player_score >= winning gives game over with winner Player. Otherwise ai_score >= winning gives game over with winner AI. Otherwise nothing changes. Only game_over and winner can change. |
| `Engine.Scored` | game/game_engine.py:136-157 | A left exit adds one to ai_score only. Otherwise a right exit adds one to player_score only. Otherwise nothing changes. After a point, the match is checked for its end, and the ball is re-centred iff the match is not over (on the winning point it stays where it exited). |
| `Engine.Restarted` | game/game_engine.py:225-246 | Both scores 0, not over, no winner, winning score n. Both paddle y values are height // 2 - 60. The ball is at (width // 2, height // 2) with velocity (speed, speed). |
| `Engine.AiDecision` | game/game_engine.py:248-253 | Down iff the ball is below the AI paddle's centre, Up iff above, otherwise Hold. |
| `Engine.AiUpdated` | game/game_engine.py:248-253 | The AI paddle moves down, moves up or holds, exactly as `AiDecision` says. Nothing else changes. |
| `Engine.AiMovesTowardBall` | game/game_engine.py:248-253 | For an on-screen AI paddle with speed >= 0, the paddle never moves away from the ball, and holds when the ball is level with its centre. |
| `Engine.Stepped` | game/game_engine.py:255-272 | update does nothing when the match is over. It never moves the player paddle, and never changes the winning score or the screen. |
| `Engine.InputApplied` | game/game_engine.py:329-335 | Held keys do nothing when the match is over. They change only the player paddle: up alone is move_up, down alone is move_down, and both held is move_up followed by move_down. |
| `Engine.ReplayWinningScore` | game/game_engine.py:211-219 | Only the keys 3, 5 and 7 choose a match. The winning score is (N + 1) / 2 for best of N, so 2, 3 and 4. |
| `Engine.ReplayChosen` | game/game_engine.py:314-325 | A key press restarts the match with the chosen winning score only when the match is over and the key is 3, 5 or 7. Otherwise nothing changes. This is the run loop's handler, and it also stands for the replay wait loop at game/game_engine.py:211-219, which is the reset path that actually runs. |
| `Engine.GameEngine.constructor` | game/game_engine.py:9-34 | The new engine's state: paddles at x 30 and width - 40, at height // 2 - 60, size 10x120, speeds 6 and 5. Ball at the centre with radius 10 and speed 5. Scores 0, winning score 5, in play. |
| `Engine.GameEngine.CheckPaddleCollision` | game/game_engine.py:85-119 | Changes only the ball, which becomes `PaddleCollision`'s ball. Returns its hit flag. |
| `Engine.GameEngine.CheckWallBounce` | game/game_engine.py:121-134 | The new state is `WallBounced` of the old one. |
| `Engine.GameEngine.CheckGameOver` | game/game_engine.py:159-166 | The new state is `GameOverChecked` of the old one. |
| `Engine.GameEngine.CheckScore` | game/game_engine.py:136-157 | The new state is `Scored` of the old one. |
| `Engine.GameEngine.ResetGame` | game/game_engine.py:225-246 | The new state is `Restarted` of the old one with the new winning score. |
| `Engine.GameEngine.UpdateAi` | game/game_engine.py:248-253 | The new state is `AiUpdated` of the old one. |
| `Engine.GameEngine.Update` | game/game_engine.py:255-272 | The new state is `Stepped` of the old one, from the in-place calls in the source's order. |
| `Engine.GameEngine.ApplyInput` | game/game_engine.py:329-335 | The new state is `InputApplied` of the old one. |
| `Engine.GameEngine.HandleReplayKey` | game/game_engine.py:314-325 | The new state is `ReplayChosen` of the old one. |
| `Match.InitialStateValid` | game/game_engine.py:22-34 | A new engine on a screen at least 22 wide and 120 high satisfies the invariant. |
| `Match.RestartedValid` | game/game_engine.py:225-246 | reset_game with a positive winning score gives a state in play that satisfies the invariant. |
| `Match.BallMovedKeeps` | game/game_engine.py:257-266 | After motion, wall bounce and both paddle tests, the ball is between the walls and keeps its speed. Nothing but the ball has changed. |
| `Match.ScoredValid` | game/game_engine.py:136-166 | Scoring during play restores the score invariant. The match is over exactly when one side reached the winning score, and that side is the winner. If play goes on, the ball is back in play. |
| `Match.AiUpdatedValid` | game/game_engine.py:248-253 | update_ai keeps the invariant, including the AI paddle on the screen. |
| `Match.SteppedValid` | game/game_engine.py:255-272 | update keeps the invariant. |
| `Match.SteppedScore` | game/game_engine.py:255-272 | From a valid state, update is a no-op after game over. Otherwise at most one score rises, and by exactly one. |
| `Match.WinningPointFreezesBall` | game/game_engine.py:136-147 | If the AI is one point short and the ball exits left, the frame ends the match with winner AI. The ball stays where it exited. |
| `Match.InputAppliedValid` | game/game_engine.py:329-335 | Held keys keep the invariant, including the player paddle on the screen. |
| `Match.KeysHandledValid` | game/game_engine.py:310-327 | Any sequence of key presses in one frame keeps the invariant. The key handling is the run loop's (game/game_engine.py:316-327), standing for the wait loop at game/game_engine.py:211-219. |
| `Match.RunValid` | game/game_engine.py:303-343 | Over any sequence of frames and inputs, every state satisfies the invariant. In particular, paddles stay on the screen and scores never pass the winning score. |
| `Match.GameRunValid` | main.py:9-16 | From the game's start on its 800 by 600 screen, every run satisfies the invariant. |

## Left out

- main.py beyond the screen size: pygame initialisation and starting the loop.
- Rendering: `render`, the drawing half of `display_game_over`, `Paddle.display`, `Ball.display`, fonts, the overlay and the display flip. These are library calls with no effect on the simulation state.
- Sound: `load_sounds`, `play_sound` and the debug prints. No sound events are modelled either; `CheckPaddleCollision` still returns its hit flag.
- Timing: `pygame.time.delay(200)` after a point, the frame-rate `clock.tick` calls. They only pace real time.
- Quitting: the QUIT event and the Escape key end the process, which the model does not represent.
- The blocking replay wait inside `display_game_over` (game/game_engine.py:203-223). It is I/O that only returns after a reset or `exit()`. `run` calls it as soon as a frame ends the match (game/game_engine.py:342-343), so the run loop's own replay branch (316-327) never runs with `game_over` set, and the resets that happen are those at 211-219. The model's `ReplayChosen` and `KeysHandled` stand for that wait loop. Its key table is the same as the run loop's; unlike the run loop, it does not re-check `game_over` for later keys in the same batch.
- Event polling itself: the keys pressed and held in a frame are inputs (`FrameInput`).
- `pygame.Rect` internals: truncation of coordinates to integers and the special handling of zero-size rectangles. All coordinates here are integers, and collision is the strict overlap predicate.
- Floating point: the model uses no floats. The source's only divisions by 2 are written as doubled integer comparisons.
- `get_rect` as a member of the ball and paddle objects: it is modelled on their values (`Balls.BallState.GetRect`, `Paddles.PaddleState.GetRect`), which the engine reads through `State()`.
