/** The game session: the two paddles and the ball bound at top level, the
    per-frame `update` and the `key_down`, `key_held` and `key_up` handlers.
    The session is Playing until the ball's `finished` flag is set, and
    Finished from then until a retry rebuilds all three objects. */
module Pong {
  import opened Common
  import opened Window
  import opened Paddles
  import opened Balls

  datatype SessionState = SessionState(p1: PaddleState, p2: PaddleState, ball: BallState, exited: bool)

  /** The objects built at start-up and on retry: a manual left paddle, an
      auto-player right paddle and a ramping ball. */
  function Initial(): (s: SessionState)
    ensures Valid(s) && !s.ball.finished && !s.exited
    ensures !s.p1.auto && s.p2.auto && s.p1.speed == s.p2.speed == DefaultSpeed
    ensures s.ball.xv == DefaultXVelocity && s.ball.yv == DefaultYVelocity && s.ball.rampOn
  {
    SessionState(
      NewPaddle("left", DefaultSpeed, false),
      NewPaddle("right", DefaultSpeed, true),
      NewBall(DefaultXVelocity, DefaultYVelocity, true),
      false)
  }

  /** The three objects rebuilt; the exit flag is not touched. */
  function Reset(s: SessionState): (r: SessionState)
    ensures r == Initial().(exited := s.exited)
  {
    s.(p1 := Initial().p1, p2 := Initial().p2, ball := Initial().ball)
  }

  /** The ball can only have been drawn in a frame that also drew both
      paddles; without this `hit_the_paddles?` would fail on a `nil` shape. */
  predicate ShapesReady(s: SessionState)
  {
    s.ball.shape.Some? ==> s.p1.shape.Some? && s.p2.shape.Some?
  }

  /** What holds of every session the game reaches between events. */
  predicate Valid(s: SessionState)
  {
    ShapesReady(s) &&
    InBounds(s.p1.y) && InBounds(s.p2.y) && s.p1.speed >= 0 && s.p2.speed >= 0 &&
    s.p1.keys == LeftKeys && s.p2.keys == RightKeys &&
    // what was drawn last is where the objects are now
    (s.p1.shape.Some? ==> s.p1.shape.value == PaddleRect(s.p1)) &&
    (s.p2.shape.Some? ==> s.p2.shape.value == PaddleRect(s.p2)) &&
    (s.ball.shape.Some? ==> s.ball.shape.value == BallSquare(s.ball)) &&
    // a finished ball is still over the edge it went over
    (s.ball.finished ==> IsGameOver(s.ball))
  }

  /** Frame phase 1: a hit on either paddle bounces the ball on x. */
  function Collide(s: SessionState): (r: SessionState)
    requires ShapesReady(s)
    ensures r == s.(ball := r.ball)
    ensures r.ball == s.ball.(xv := r.ball.xv)
    ensures r.ball.xv == if Hits(s.p1, s.ball.shape) || Hits(s.p2, s.ball.shape) then -s.ball.xv else s.ball.xv
  {
    if Hits(s.p1, s.ball.shape) || Hits(s.p2, s.ball.shape) then s.(ball := BallBounced(s.ball, "x"))
    else s
  }

  /** In a reachable session the collision step bounces the ball on x exactly
      when the square the ball was last drawn with meets the rectangle either
      paddle was last drawn with, and these are where the objects stand now. */
  lemma CollisionBounces(s: SessionState)
    requires Valid(s)
    ensures var hit := s.ball.shape.Some? &&
              (EdgesMeet(PaddleRect(s.p1), BallSquare(s.ball)) || EdgesMeet(PaddleRect(s.p2), BallSquare(s.ball)));
            Collide(s).ball == if hit then BallBounced(s.ball, "x") else s.ball
  {
    HitsIff(s.p1, s.ball.shape);
    HitsIff(s.p2, s.ball.shape);
  }

  /** Frame phase 2: a ball over the left or right edge is finished and nothing
      moves; otherwise both paddles move (seeing the same ball) and then the ball. */
  function Advance(s: SessionState): (r: SessionState)
    ensures r.exited == s.exited && r.ball.size == s.ball.size
    ensures IsGameOver(s.ball) ==> r == s.(ball := s.ball.(finished := true))
    ensures !IsGameOver(s.ball) ==> r.ball.finished == s.ball.finished && r.ball.x == s.ball.x - s.ball.xv
    ensures !IsGameOver(s.ball) ==>
      r.p1 == PaddleMoved(s.p1, MiddleOf(s.ball)) && r.p2 == PaddleMoved(s.p2, MiddleOf(s.ball)) &&
      r.ball == BallMoved(s.ball)
    ensures !IsGameOver(s.ball) && s.p1.speed >= 0 && InBounds(s.p1.y) ==> InBounds(r.p1.y)
    ensures !IsGameOver(s.ball) && s.p2.speed >= 0 && InBounds(s.p2.y) ==> InBounds(r.p2.y)
  {
    if IsGameOver(s.ball) then s.(ball := BallFinished(s.ball))
    else
      var m := MiddleOf(s.ball);
      s.(p1 := PaddleMoved(s.p1, m), p2 := PaddleMoved(s.p2, m), ball := BallMoved(s.ball))
  }

  /** Frame phase 3: drawing records the shapes the next frame's collision test uses. */
  function DrawAll(s: SessionState): (r: SessionState)
    ensures ShapesReady(r)
  {
    s.(p1 := PaddleDrawn(s.p1), p2 := PaddleDrawn(s.p2), ball := BallDrawn(s.ball))
  }

  /** Whether the ramp fires in phase 4: `ball.increase_speed && ball.increase_speed?`. */
  predicate RampFires(s: SessionState, now: int)
  {
    s.ball.rampOn && BallRamped(s.ball, now).1
  }

  /** Frame phase 4: the ramp check, and on firing both paddles speed up. */
  function RampPhase(s: SessionState, now: int): (r: SessionState)
    ensures ShapesReady(s) ==> ShapesReady(r)
  {
    if !s.ball.rampOn then s
    else
      var (b, fired) := BallRamped(s.ball, now);
      if fired then s.(p1 := PaddleSpedUp(s.p1), p2 := PaddleSpedUp(s.p2), ball := b)
      else s.(ball := b)
  }

  function PreRamp(s: SessionState): SessionState
    requires ShapesReady(s)
  {
    DrawAll(Advance(Collide(s)))
  }

  /** One call of `update` at time `now`. */
  function Frame(s: SessionState, now: int): (r: SessionState)
    requires ShapesReady(s)
    ensures ShapesReady(r) && r.p1.shape.Some? && r.p2.shape.Some?
    ensures r.p1.x == s.p1.x && r.p2.x == s.p2.x && r.ball.size == s.ball.size && r.exited == s.exited
    ensures IsGameOver(s.ball) ==>
      r.ball.finished && r.ball.x == s.ball.x && r.ball.y == s.ball.y &&
      r.p1.y == s.p1.y && r.p2.y == s.p2.y
  {
    RampPhase(PreRamp(s), now)
  }

  /** The ramp fires in a frame exactly when it is switched on and a second
      has passed since the baseline the frame starts with: nothing before
      the ramp check touches the baseline. */
  lemma RampFiresIff(s: SessionState, now: int)
    requires ShapesReady(s)
    ensures RampFires(PreRamp(s), now) <==> s.ball.rampOn && now - BaselineOr(s.ball, now) >= RampInterval
  {
  }

  /** In every frame, finished or not, both paddles' speeds and both of the
      ball's velocity magnitudes grow by exactly one when the ramp fires, and
      stay as they are otherwise. A finished ball's velocities keep growing. */
  lemma FrameSpeeds(s: SessionState, now: int)
    requires ShapesReady(s)
    ensures var r := Frame(s, now);
            var up := if RampFires(PreRamp(s), now) then 1 else 0;
            r.p1.speed == s.p1.speed + up && r.p2.speed == s.p2.speed + up &&
            Abs(r.ball.xv) == Abs(s.ball.xv) + up && Abs(r.ball.yv) == Abs(s.ball.yv) + up
  {
  }

  /** Every frame keeps a reachable session reachable: in particular both
      paddles stay inside the window. */
  lemma FramePreservesValid(s: SessionState, now: int)
    requires Valid(s)
    ensures Valid(Frame(s, now))
  {
  }

  /** The frames of a run at the timestamps `nows`, in order. */
  function Run(s: SessionState, nows: seq<int>): (r: SessionState)
    requires ShapesReady(s)
    ensures ShapesReady(r)
    decreases |nows|
  {
    if nows == [] then s else Run(Frame(s, nows[0]), nows[1..])
  }

  /** Paddles stay in the window in every frame of every run. */
  lemma {:induction false} RunPreservesValid(s: SessionState, nows: seq<int>)
    requires Valid(s)
    ensures Valid(Run(s, nows))
    ensures InBounds(Run(s, nows).p1.y) && InBounds(Run(s, nows).p2.y)
    decreases |nows|
  {
    if nows != [] {
      FramePreservesValid(s, nows[0]);
      RunPreservesValid(Frame(s, nows[0]), nows[1..]);
    }
  }

  /** Once the ball is over the left or right edge, every later frame finishes
      it again and moves nothing: the positions are frozen for good. */
  lemma {:induction false} FrozenAfterGameOver(s: SessionState, nows: seq<int>)
    requires ShapesReady(s) && IsGameOver(s.ball)
    ensures var r := Run(s, nows);
            IsGameOver(r.ball) && (nows != [] ==> r.ball.finished) &&
            r.ball.x == s.ball.x && r.ball.y == s.ball.y &&
            r.p1.y == s.p1.y && r.p2.y == s.p2.y
    decreases |nows|
  {
    if nows != [] {
      FrozenAfterGameOver(Frame(s, nows[0]), nows[1..]);
    }
  }

  /** `key_held`: every paddle that owns the key takes it as its direction. */
  function KeyHeld(s: SessionState, key: string): (r: SessionState)
    ensures r == s.(p1 := r.p1, p2 := r.p2)
    ensures r.p1 == s.p1.(direction := r.p1.direction) && r.p2 == s.p2.(direction := r.p2.direction)
    ensures r.p1.direction == if Owns(s.p1, key) then Some(key) else s.p1.direction
    ensures r.p2.direction == if Owns(s.p2, key) then Some(key) else s.p2.direction
  {
    s.(p1 := if Owns(s.p1, key) then s.p1.(direction := Some(key)) else s.p1,
       p2 := if Owns(s.p2, key) then s.p2.(direction := Some(key)) else s.p2)
  }

  /** `key_up`: every paddle that owns the key lets go of its direction. */
  function KeyUp(s: SessionState, key: string): (r: SessionState)
    ensures r == s.(p1 := r.p1, p2 := r.p2)
    ensures r.p1 == s.p1.(direction := r.p1.direction) && r.p2 == s.p2.(direction := r.p2.direction)
    ensures r.p1.direction == if Owns(s.p1, key) then None else s.p1.direction
    ensures r.p2.direction == if Owns(s.p2, key) then None else s.p2.direction
  {
    s.(p1 := if Owns(s.p1, key) then s.p1.(direction := None) else s.p1,
       p2 := if Owns(s.p2, key) then s.p2.(direction := None) else s.p2)
  }

  /** In a reachable session "w" and "s" steer only the left paddle and "up"
      and "down" only the right one; other keys steer nothing. Releasing a
      key after holding it leaves the owner without a direction, so a manual
      owner then stands still. */
  lemma KeyRouting(s: SessionState, key: string, m: int)
    requires Valid(s)
    ensures KeyHeld(s, key).p1 != s.p1 ==> key == "w" || key == "s"
    ensures KeyHeld(s, key).p2 != s.p2 ==> key == "up" || key == "down"
    ensures (key == "w" || key == "s") ==>
      KeyHeld(s, key).p1.direction == Some(key) && KeyHeld(s, key).p2 == s.p2
    ensures (key == "up" || key == "down") ==>
      KeyHeld(s, key).p2.direction == Some(key) && KeyHeld(s, key).p1 == s.p1
    ensures KeyUp(KeyHeld(s, key), key) == KeyUp(s, key)
    ensures (key == "w" || key == "s") && !s.p1.auto ==>
      PaddleMoved(KeyUp(s, key).p1, m) == KeyUp(s, key).p1
  {
  }

  /** Key events change only directions, so they keep a session reachable. */
  lemma KeysPreserveValid(s: SessionState, key: string)
    requires Valid(s)
    ensures Valid(KeyHeld(s, key)) && Valid(KeyUp(s, key)) && Valid(KeyDown(s, key))
  {
  }

  /** ASCII `downcase` of one character. */
  function LowerChar(c: char): char
  {
    if 'A' <= c <= 'Z' then (c as int + 32) as char else c
  }

  /** `String#downcase` on the key names of the input events (ASCII letters only). */
  function Downcase(s: string): (r: string)
    ensures |r| == |s|
    ensures forall i :: 0 <= i < |s| ==> r[i] == LowerChar(s[i])
  {
    seq(|s|, i requires 0 <= i < |s| => LowerChar(s[i]))
  }

  /** A key name downcases to a single lower-case letter exactly when it is
      that letter in lower or upper case. */
  lemma DowncaseLetter(key: string, lower: char)
    requires 'a' <= lower <= 'z'
    ensures Downcase(key) == [lower] <==> key == [lower] || key == [(lower as int - 32) as char]
  {
  }

  /** `key_down`: only a finished game listens; "r" rebuilds the three objects
      and "q" quits. */
  function KeyDown(s: SessionState, key: string): (r: SessionState)
    ensures !s.ball.finished ==> r == s
    ensures r == s || r == Reset(s) || r == s.(exited := true)
  {
    if !s.ball.finished then s
    else if Downcase(key) == "r" then Reset(s)
    else if Downcase(key) == "q" then s.(exited := true)
    else s
  }

  /** A key-down has an effect only on a finished game, and then only for
      r/R (a full reset to the start-up objects) and q/Q (quit). */
  lemma KeyDownEffect(s: SessionState, key: string)
    ensures !s.ball.finished ==> KeyDown(s, key) == s
    ensures s.ball.finished && (key == "r" || key == "R") ==> KeyDown(s, key) == Initial().(exited := s.exited)
    ensures s.ball.finished && (key == "q" || key == "Q") ==> KeyDown(s, key) == s.(exited := true)
    ensures key !in {"r", "R", "q", "Q"} ==> KeyDown(s, key) == s
  {
    DowncaseLetter(key, 'r');
    DowncaseLetter(key, 'q');
  }

  /** The top-level bindings `paddle1`, `paddle2` and `ball` of the game. */
  class Session {
    var paddle1: Paddle
    var paddle2: Paddle
    var ball: Ball
    var exited: bool

    /** The abstract value of the session. */
    function State(): SessionState
      reads this, paddle1, paddle2, ball
    {
      SessionState(paddle1.State(), paddle2.State(), ball.State(), exited)
    }

    constructor ()
      ensures paddle1 != paddle2 && State() == Initial()
      ensures fresh(paddle1) && fresh(paddle2) && fresh(ball)
    {
      paddle1 := new Paddle("left", Height / 80, false);
      paddle2 := new Paddle("right", Height / 80, true);
      ball := new Ball(Width / 128, Height / 96, true);
      exited := false;
    }

    /** The `update` block, with the clock passed in as `now`. Drawing records
        the shapes; the rendering itself is not modelled. */
    method Update(now: int)
      requires paddle1 != paddle2 && ShapesReady(State())
      modifies paddle1, paddle2, ball
      ensures State() == Frame(old(State()), now)
    {
      ghost var s0 := State();
      if paddle1.HitThePaddles(ball.shape) || paddle2.HitThePaddles(ball.shape) {
        ball.Bounce("x");
      }
      ghost var s1 := State();
      assert s1 == Collide(s0);

      if ball.GameOver() {
        ball.Finish();
      } else {
        paddle1.Move(ball);
        paddle2.Move(ball);
        ball.Move();
      }
      ghost var s2 := State();
      assert s2 == Advance(s1);

      paddle1.Draw();
      paddle2.Draw();
      ball.Draw();
      ghost var s3 := State();
      assert s3 == DrawAll(s2);

      if ball.increaseSpeed {
        var increased := ball.CheckIncreaseSpeed(now);
        if increased {
          paddle1.IncreaseMovementSpeed();
          paddle2.IncreaseMovementSpeed();
        }
      }
    }

    /** The `key_down` handler. */
    method KeyDownEvent(key: string)
      requires paddle1 != paddle2
      modifies this
      ensures paddle1 != paddle2 && State() == KeyDown(old(State()), key)
      ensures (paddle1 == old(paddle1) || fresh(paddle1)) && (paddle2 == old(paddle2) || fresh(paddle2))
      ensures ball == old(ball) || fresh(ball)
    {
      if ball.finished {
        var k := Downcase(key);
        if k == "r" {
          paddle1 := new Paddle("left", Height / 80, false);
          paddle2 := new Paddle("right", Height / 80, true);
          ball := new Ball(Width / 128, Height / 96, true);
        } else if k == "q" {
          exited := true;
        }
      }
    }

    /** The `key_held` handler. */
    method KeyHeldEvent(key: string)
      requires paddle1 != paddle2
      modifies paddle1, paddle2
      ensures State() == KeyHeld(old(State()), key)
    {
      if paddle1.IsAllowedKey(key) {
        paddle1.direction := Some(key);
      }
      if paddle2.IsAllowedKey(key) {
        paddle2.direction := Some(key);
      }
    }

    /** The `key_up` handler. */
    method KeyUpEvent(key: string)
      requires paddle1 != paddle2
      modifies paddle1, paddle2
      ensures State() == KeyUp(old(State()), key)
    {
      if paddle1.IsAllowedKey(key) {
        paddle1.direction := None;
      }
      if paddle2.IsAllowedKey(key) {
        paddle2.direction := None;
      }
    }
  }
}
