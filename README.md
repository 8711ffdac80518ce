# Pong game loop in Dafny

This project models the Pong game of `main.rb`. A 1024×768 window holds two
paddles and a ball. Everything is integer-valued and advances one frame at a time:

- **Paddle** (`Paddles`). It has a fixed x and a y clamped to `[0, MaxY]`
  (`MaxY = 768 - 256 = 512`). It moves by its movement speed according to the
  held key (`w`/`up` moves up, `s`/`down` moves down). An auto-player instead
  steps greedily towards the ball's vertical midpoint. A paddle owns two keys:
  `w`/`s` on the left side, `up`/`down` on any other side. A ball hits a paddle
  when a corner of the ball's last drawn square lies inside the paddle's last
  drawn rectangle.
- **Ball** (`Balls`). It starts at `(768/2, 1024/2)`: the source swaps the axes.
  It has size 31 and velocities 8 and 8. It bounces on an axis by negating that
  velocity. A move first bounces on y at the top or bottom edge, then sets
  `x := x - xv` and `y := y + yv`. At most once per second a ramp check fires and grows
  both velocity magnitudes by one, keeping the sign; a velocity of 0 becomes -1.
  The game is over when the ball reaches the left or right edge.
- **Session** (`Pong`). This is the `update` frame and the key handlers over
  the three top-level objects. A frame does four things in order:
  1. If either paddle is hit, the ball bounces on x.
  2. If the game is over, the ball is finished. Otherwise both paddles move,
     then the ball.
  3. Everything is drawn: the shapes are recorded.
  4. The ramp check runs. When it fires, both paddles speed up.

  Key-held and key-up events set or clear the direction of the paddles that own
  the key. On a finished game, key-down `r`/`R` rebuilds all three objects and
  `q`/`Q` sets an exit flag.

Each of `Paddle`, `Ball` and `Session` is a class whose methods update fields
in place. Each method is proved to leave the abstract value `State()` equal to
a pure function of the old value (`PaddleMoved`, `BallMoved`, `Frame`, …). The
properties are proved about those functions. Timestamps are integer
milliseconds passed in as `now`. The window size is the pair of constants
`Window.Width` and `Window.Height`.

A finished ball is not frozen entirely. `move` never looks at `finished`
(`Balls.MoveIgnoresFinished`); the frame simply stops calling it. The ramp and
the x-bounce still run after finish, so the velocities keep changing
(`Pong.FrameSpeeds`). Only the positions are frozen
(`Pong.FrozenAfterGameOver`).

## Model

| member | source | states |
|---|---|---|
| `Window.AnyInside` | main.rb:58-60 | the `any?` over corners is true iff some listed point is inside the rectangle |
| `Window.CornersInsideIff` | main.rb:56-62 | some corner of the square is inside the rectangle iff one vertical edge of the square lies on the rectangle's x-span and one horizontal edge on its y-span (inclusive) |
| `Window.Corners` | main.rb:58 | the four points are the corners of the square: each is a combination of `x`/`x+size` with `y`/`y+size`, and every such combination occurs |
| `Balls.Dimensions` | main.rb:93-96 | start position (384, 512), size 31 and velocities 8, 8 for the 1024×768 window |
| `Balls.NewBall` | main.rb:93-105 | the ball starts at x = height/2, y = width/2 (axes swapped), unfinished, with no ramp baseline and no shape |
| `Balls.BallBounced` | main.rb:114-117 | `x` negates only xv and `y` negates only yv; magnitudes and position are kept; any other axis changes nothing |
| `Balls.BounceTwice` | main.rb:114-117 | bouncing twice on the same axis restores the ball |
| `Balls.BallMoved` | main.rb:120-125 | yv flips exactly when `y <= 0 \|\| y >= H - size`; then x decreases by xv and y increases by the possibly flipped yv; size, xv and the flags are unchanged |
| `Balls.WallBounceAtTop` | main.rb:120-125 | a ball at y = 0 leaves with yv negated and y = -yv |
| `Balls.MoveIgnoresFinished` | main.rb:120-125 | `move` does not look at `finished`: a finished ball with nonzero xv still changes x |
| `Balls.Grow` | main.rb:132-133 | the ramp adds one to the magnitude; a positive value stays positive, and zero or a negative value becomes negative |
| `Balls.BallRamped` | main.rb:127-140 | fires iff `now - baseline >= 1 s`, where the baseline is first set to `now` when absent; on firing, both magnitudes grow by one with the sign kept and the baseline is cleared; otherwise the velocities are unchanged and the baseline is recorded |
| `Balls.RampFiresAtMostOncePerSecond` | main.rb:127-140 | two checks less than a second after the baseline cannot both fire, and the second changes no velocity |
| `Balls.RampRearms` | main.rb:131-135 | the check right after a firing never fires |
| `Balls.AtTopOrBottom` | main.rb:162-164 | the ball is off the top and bottom edges iff it lies strictly inside the window vertically |
| `Balls.IsGameOver` | main.rb:147-149 | the game is not over iff the ball lies strictly inside the window horizontally |
| `Balls.MiddleOf` | main.rb:155-157 | the ball's midpoint lies between its top and bottom, at or above the exact centre because `size / 2` rounds down |
| `Balls.BallFinished` | main.rb:151-153 | `finish` sets the flag and nothing else |
| `Balls.BallDrawn` | main.rb:108-111 | drawing records the current square unless finished; a finished ball keeps its last square |
| `Balls.Ball.constructor` | main.rb:93-105 | the new object's state is `NewBall` of the arguments |
| `Balls.Ball.Bounce` | main.rb:114-117 | the new state is `BallBounced` of the old one |
| `Balls.Ball.Move` | main.rb:120-125 | the new state is `BallMoved` of the old one |
| `Balls.Ball.CheckIncreaseSpeed` | main.rb:127-140 | the new state and the returned flag are `BallRamped` of the old state and `now` |
| `Balls.Ball.Finish` | main.rb:151-153 | the new state is `BallFinished` of the old one |
| `Balls.Ball.Draw` | main.rb:108-111 | the new state is `BallDrawn` of the old one |
| `Balls.Ball.HitLowerUpperEdges` | main.rb:162-164 | agrees with `AtTopOrBottom` on the ball's state |
| `Balls.Ball.HitLeftRightSides` | main.rb:166-168 | agrees with `IsGameOver` on the ball's state |
| `Balls.Ball.GameOver` | main.rb:147-149 | agrees with `IsGameOver` on the ball's state |
| `Balls.Ball.YMiddle` | main.rb:155-157 | agrees with `MiddleOf` on the ball's state |
| `Paddles.Dimensions` | main.rb:10-19 | paddle 34×256, indent 40, speed 9, start y 256, `max_y` 512 |
| `Paddles.NewPaddle` | main.rb:10-30 | a new paddle is inside the window, at x = indent on the left and at width - paddle width - indent on any other side, with no direction and no shape |
| `Paddles.OwnedKeys` | main.rb:22-28 | a left paddle owns exactly `w` and `s`; any other side owns exactly `up` and `down` |
| `Paddles.ManualY` | main.rb:38-44 | with no up/down key held y is unchanged; otherwise y moves by at most speed towards the key's side, stopping at 0 or `max_y`, and stays in `[0, max_y]` |
| `Paddles.TrackY` | main.rb:78-84 | y grows iff the ball's midpoint is below the paddle's and the paddle is not at `max_y`; it shrinks iff the midpoint is above and the paddle is not at 0; it is unchanged when they are equal; a step is exactly speed, clamped at 0 or `max_y`; y stays in `[0, max_y]` |
| `Paddles.PaddleMoved` | main.rb:38-49 | `move` changes only y: an auto-player's new y is `TrackY` towards the ball's midpoint and a manual paddle's is `ManualY` of its held key; a paddle with nonnegative speed stays in `[0, max_y]` |
| `Paddles.MovePolicies` | main.rb:38-47 | an auto-player ignores the direction; a manual paddle ignores the ball |
| `Paddles.PaddleSpedUp` | main.rb:64-66 | the movement speed grows by exactly one and nothing else changes |
| `Paddles.PaddleDrawn` | main.rb:33-35 | drawing records the rectangle at the current x, y |
| `Paddles.InBounds` | main.rb:70-72 | `0 <= y <= max_y` means the whole paddle is inside the window |
| `Paddles.Middle` | main.rb:74-76 | the paddle's midpoint lies halfway between its top and bottom |
| `Paddles.Owns` | main.rb:51-53 | a paddle with the left keys owns exactly `w` and `s`; one with the right keys owns exactly `up` and `down` |
| `Paddles.Hits` | main.rb:56-62 | a nil ball shape never hits; otherwise a hit iff one of the square's four corners is inside the paddle's last drawn rectangle |
| `Paddles.HitsIff` | main.rb:56-62 | for a paddle drawn where it stands, a nil ball shape never hits; otherwise a hit means the square's edges meet the paddle's spans |
| `Paddles.SettledStays` | main.rb:78-84 | once within one speed step of the ball's midpoint (or held at the edge on its side), an auto-player stays so |
| `Paddles.TrackConverges` | main.rb:78-84 | after n frames with n·speed at least the initial distance, an auto-player tracking a still ball is settled and inside the window |
| `Paddles.Paddle.constructor` | main.rb:10-30 | the new object's state is `NewPaddle` of the arguments |
| `Paddles.Paddle.Draw` | main.rb:33-35 | the new state is `PaddleDrawn` of the old one |
| `Paddles.Paddle.Move` | main.rb:38-49 | the new state is `PaddleMoved` of the old one and the ball's midpoint |
| `Paddles.Paddle.IncreaseMovementSpeed` | main.rb:64-66 | the new state is `PaddleSpedUp` of the old one |
| `Paddles.Paddle.TrackTheBall` | main.rb:78-84 | only y changes, to `TrackY` of the old y |
| `Paddles.Paddle.IsAllowedKey` | main.rb:51-53 | agrees with `Owns` on the paddle's state |
| `Paddles.Paddle.HitThePaddles` | main.rb:56-62 | agrees with `Hits` on the paddle's state |
| `Pong.Initial` | main.rb:174-176 | the start-up session is reachable: a manual left paddle, an auto-player right paddle, both at speed 9, and an unfinished ramping ball with velocities 8, 8 |
| `Pong.Reset` | main.rb:213-215 | a retry restores all three objects to their constructor values |
| `Pong.Collide` | main.rb:182-184 | the collision step negates xv exactly when either paddle is hit and changes nothing else |
| `Pong.CollisionBounces` | main.rb:182-184 | in a reachable session the ball bounces on x exactly when it has been drawn and its square's edges meet either paddle's current rectangle |
| `Pong.Advance` | main.rb:187-193 | a ball over the left or right edge is finished and nothing else changes; otherwise both paddles move with the ball's midpoint from before the ball moves, then the ball moves; the finished flag is kept, and both paddles in the window stay in it |
| `Pong.DrawAll` | main.rb:196-198 | after drawing, the ball's shape is present only with both paddles' shapes |
| `Pong.RampPhase` | main.rb:201-204 | the ramp step keeps the shapes consistent |
| `Pong.Frame` | main.rb:179-206 | a frame keeps x and the ball size; if the game is over, the ball becomes finished and neither paddle's y nor the ball's position changes |
| `Pong.RampFiresIff` | main.rb:201 | the ramp fires in a frame iff it is switched on and a second has passed since the baseline the frame starts with |
| `Pong.FrameSpeeds` | main.rb:201-204 | in every frame, finished or not, both paddle speeds and both ball velocity magnitudes grow by exactly one iff the ramp fires |
| `Pong.FramePreservesValid` | main.rb:179-206 | a frame keeps the session reachable: paddles in the window, drawn shapes equal to the current fields, a finished ball still over the edge |
| `Pong.RunPreservesValid` | main.rb:179-206 | over any sequence of frames both paddles stay in `[0, max_y]` |
| `Pong.FrozenAfterGameOver` | main.rb:187-193 | once the game is over, it stays over in every later frame, the ball stays finished, and no position changes |
| `Pong.KeyHeld` | main.rb:223-226 | key-held sets the direction of exactly the paddles that own the key and changes nothing else |
| `Pong.KeyUp` | main.rb:229-233 | key-up clears the direction of exactly the paddles that own the key and changes nothing else |
| `Pong.KeyRouting` | main.rb:223-233 | in a reachable session `w`/`s` steer only the left paddle and `up`/`down` only the right; hold-then-release equals release; a released manual paddle stands still |
| `Pong.KeysPreserveValid` | main.rb:209-233 | key events keep a session reachable |
| `Pong.DowncaseLetter` | main.rb:211 | a key downcases to a lower-case letter iff it is that letter in lower or upper case |
| `Pong.KeyDown` | main.rb:209-220 | key-down leaves an unfinished game alone; otherwise it either does nothing, resets the three objects, or sets the exit flag |
| `Pong.KeyDownEffect` | main.rb:209-220 | key-down changes nothing unless the game is finished; then `r`/`R` resets to the start-up objects, `q`/`Q` sets the exit flag, and other keys do nothing |
| `Pong.Session.constructor` | main.rb:174-176 | the session starts as `Initial` with two distinct, newly built paddles and a newly built ball |
| `Pong.Session.Update` | main.rb:179-206 | the new session state is `Frame` of the old one at `now` |
| `Pong.Session.KeyDownEvent` | main.rb:209-220 | the new session state is `KeyDown` of the old one; each object is either kept or newly built |
| `Pong.Session.KeyHeldEvent` | main.rb:223-226 | the new session state is `KeyHeld` of the old one |
| `Pong.Session.KeyUpEvent` | main.rb:229-233 | the new session state is `KeyUp` of the old one |

## Left out

- Rendering is not modelled: `set`, `clear`, `show`, and what `Rectangle.new`, `Square.new` and `Text.new` put on screen. Drawing only records the shape built from the current fields. The drawn shape is what the collision test reads in the next frame.
- `Rectangle#contains?` belongs to ruby2d and is not part of this model. It is assumed to be the inclusive axis-aligned test (`Window.Contains`).
- `text_message` and `@start_time` are not modelled. They only format the elapsed time as a rounded float for display.
- The wall clock is not modelled. `Time.now` becomes an integer millisecond timestamp `now` per frame. The source reads the clock twice in `increase_speed?`; the model reads it once.
- `exit` on `q` is modelled only as the terminal flag `exited`. Nothing is modelled after it.
- The host's event scheduling and frame timing are not modelled. Any order of `Update` and key events can be composed from the methods.
- `Pong.Frame`: its precondition `ShapesReady` excludes a ball shape drawn while a paddle has none. Ruby would fail there, calling `contains?` on `nil`. Every reachable session satisfies the precondition (`Pong.Valid`).
- `Pong.Downcase`: lowers ASCII letters only. Key names are ASCII, and no other character downcases to `r` or `q`.
- Ruby's numbers may be floats if a caller passes them to the constructors. The model uses integers throughout, as the game's own constructor calls do.
