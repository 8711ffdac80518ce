/** A paddle: a fixed x, a y clamped to the window, a movement speed that the
    ramp raises, an optional held key (`direction`) and an auto-player flag.
    The pure functions over `PaddleState` say what each operation does; the
    class `Paddle` performs them in place and is proved against them. */
module Paddles {
  import opened Common
  import opened Window
  import Balls

  const PadWidth: int := Width / 30
  const PadHeight: int := Height / 3
  const PadIndent: int := Width / 25
  const DefaultSpeed: int := Height / 80
  const PadStartY: int := Height / 3
  /** `max_y` */
  const MaxY: int := Height - PadHeight

  const LeftKeys: seq<string> := ["w", "s"]
  const RightKeys: seq<string> := ["up", "down"]
  const UpKeys: seq<string> := ["w", "up"]
  const DownKeys: seq<string> := ["s", "down"]

  lemma Dimensions()
    ensures PadWidth == 34 && PadHeight == 256 && PadIndent == 40
    ensures DefaultSpeed == 9 && PadStartY == 256 && MaxY == 512
  {
  }

  datatype PaddleState = PaddleState(
    x: int, y: int,
    speed: int,                 // `@movement_speed`
    auto: bool,                 // `@auto_player`
    direction: Option<string>,  // the key last held, `nil` when released
    keys: seq<string>,          // `@allowed_keys`
    shape: Option<Rect>)        // the rectangle last drawn, `nil` before the first draw

  /** `0 <= y <= max_y`: the whole paddle is inside the window. */
  predicate InBounds(y: int)
    ensures InBounds(y) <==> 0 <= y && y + PadHeight <= Height
  {
    0 <= y <= MaxY
  }

  /** `y_middle` */
  function Middle(y: int): (m: int)
    ensures y <= m <= y + PadHeight && m - y == y + PadHeight - m
  {
    y + PadHeight / 2
  }

  /** `Paddle.new(side, movement_speed, auto_player)`: any side other than
      "left" is the right side. */
  function NewPaddle(side: string, speed: int, auto: bool): (p: PaddleState)
    ensures p.y == PadStartY && InBounds(p.y)
    ensures p.speed == speed && p.auto == auto && p.direction == None && p.shape == None
    ensures 0 <= p.x && p.x + PadWidth <= Width
    ensures p.x < Width / 2 <==> side == "left"
    ensures p.x - PadIndent == if side == "left" then 0 else Width - PadWidth - 2 * PadIndent
  {
    if side == "left" then
      PaddleState(PadIndent, PadStartY, speed, auto, None, LeftKeys, None)
    else
      PaddleState(Width - PadWidth - PadIndent, PadStartY, speed, auto, None, RightKeys, None)
  }

  /** `is_allowed_key?` */
  predicate Owns(p: PaddleState, key: string)
    ensures p.keys == LeftKeys ==> (Owns(p, key) <==> key == "w" || key == "s")
    ensures p.keys == RightKeys ==> (Owns(p, key) <==> key == "up" || key == "down")
  {
    key in p.keys
  }

  /** A left paddle owns exactly "w" and "s"; a paddle on any other side owns
      exactly "up" and "down". */
  lemma OwnedKeys(side: string, speed: int, auto: bool, key: string)
    ensures Owns(NewPaddle(side, speed, auto), key) <==>
      if side == "left" then key == "w" || key == "s" else key == "up" || key == "down"
  {
  }

  predicate IsUp(direction: Option<string>)
  {
    direction.Some? && direction.value in UpKeys
  }

  predicate IsDown(direction: Option<string>)
  {
    direction.Some? && direction.value in DownKeys
  }

  /** The new y of a manual paddle: up by `speed` stopping at 0, down by
      `speed` stopping at `MaxY`, and still for any other held key or none. */
  function ManualY(y: int, speed: int, direction: Option<string>): (r: int)
    ensures !IsUp(direction) && !IsDown(direction) ==> r == y
    ensures speed >= 0 && InBounds(y) ==> InBounds(r) && Abs(r - y) <= speed
    ensures speed >= 0 && InBounds(y) && IsUp(direction) ==> r <= y && (r == y - speed || r == 0)
    ensures speed >= 0 && InBounds(y) && IsDown(direction) ==> r >= y && (r == y + speed || r == MaxY)
  {
    if IsUp(direction) then Max(y - speed, 0)
    else if IsDown(direction) then Min(y + speed, MaxY)
    else y
  }

  /** `track_the_ball?`: the new y of an auto-player, one greedy step towards
      the ball's vertical midpoint. */
  function TrackY(y: int, speed: int, ballMiddle: int): (r: int)
    ensures ballMiddle == Middle(y) ==> r == y
    ensures speed >= 0 && InBounds(y) ==> InBounds(r) && Abs(r - y) <= speed
    ensures speed > 0 && InBounds(y) ==> (r > y <==> ballMiddle > Middle(y) && y < MaxY)
    ensures speed > 0 && InBounds(y) ==> (r < y <==> ballMiddle < Middle(y) && y > 0)
    ensures speed >= 0 && InBounds(y) && ballMiddle > Middle(y) ==> r == y + speed || r == MaxY
    ensures speed >= 0 && InBounds(y) && ballMiddle < Middle(y) ==> r == y - speed || r == 0
  {
    if ballMiddle > Middle(y) then Min(y + speed, MaxY)
    else if ballMiddle < Middle(y) then Max(y - speed, 0)
    else y
  }

  /** `move(ball)`, given the ball's vertical midpoint: only y changes, and a
      paddle in the window stays in it. */
  function PaddleMoved(p: PaddleState, ballMiddle: int): (r: PaddleState)
    ensures r == p.(y := r.y)
    ensures r.y == if p.auto then TrackY(p.y, p.speed, ballMiddle) else ManualY(p.y, p.speed, p.direction)
    ensures p.speed >= 0 && InBounds(p.y) ==> InBounds(r.y)
  {
    p.(y := if p.auto then TrackY(p.y, p.speed, ballMiddle) else ManualY(p.y, p.speed, p.direction))
  }

  /** An auto-player ignores the held key; a manual paddle ignores the ball. */
  lemma MovePolicies(p: PaddleState, d: Option<string>, m1: int, m2: int)
    ensures p.auto ==> PaddleMoved(p.(direction := d), m1).y == PaddleMoved(p, m1).y
    ensures !p.auto ==> PaddleMoved(p, m1).y == PaddleMoved(p, m2).y
  {
  }

  /** `increase_movement_speed` */
  function PaddleSpedUp(p: PaddleState): (r: PaddleState)
    ensures r.speed == p.speed + 1 && r == p.(speed := r.speed)
  {
    p.(speed := p.speed + 1)
  }

  /** The rectangle `draw` would create from the current fields. */
  function PaddleRect(p: PaddleState): Rect
  {
    Rect(p.x, p.y, PadWidth, PadHeight)
  }

  /** `draw` */
  function PaddleDrawn(p: PaddleState): (r: PaddleState)
    ensures r.shape == Some(PaddleRect(p)) && r == p.(shape := r.shape)
  {
    p.(shape := Some(PaddleRect(p)))
  }

  /** `hit_the_paddles?(ball_shape)`: a `nil` ball shape never hits; otherwise
      some corner of the ball's square must lie in the rectangle this paddle
      was last drawn with (Ruby would fail on a paddle never drawn). */
  predicate Hits(p: PaddleState, ballShape: Option<Square>)
    requires ballShape.Some? ==> p.shape.Some?
    ensures ballShape.None? ==> !Hits(p, ballShape)
    ensures Hits(p, ballShape) <==> (ballShape.Some? &&
      exists i :: 0 <= i < 4 && Contains(p.shape.value, Corners(ballShape.value)[i]))
  {
    ballShape.Some? && AnyInside(p.shape.value, Corners(ballShape.value))
  }

  /** For a paddle drawn at its current place, a hit means the ball's square
      and the paddle's rectangle share a corner point of the square. */
  lemma HitsIff(p: PaddleState, ballShape: Option<Square>)
    requires ballShape.Some? ==> p.shape == Some(PaddleRect(p))
    ensures Hits(p, ballShape) <==> ballShape.Some? && EdgesMeet(PaddleRect(p), ballShape.value)
  {
    if ballShape.Some? {
      CornersInsideIff(PaddleRect(p), ballShape.value);
    }
  }

  /** `n` frames of an auto-player tracking a ball whose midpoint stays at `m`. */
  function TrackSteps(y: int, speed: int, m: int, n: nat): int
    decreases n
  {
    if n == 0 then y else TrackSteps(TrackY(y, speed, m), speed, m, n - 1)
  }

  /** The paddle's midpoint is within one step of `m`, or the paddle is held
      at the edge of the window on the side of `m`. */
  predicate Settled(y: int, speed: int, m: int)
  {
    Abs(Middle(y) - m) <= speed || (y == MaxY && m > Middle(y)) || (y == 0 && m < Middle(y))
  }

  /** Once settled, a tracking paddle stays settled (it may swing by one step
      around `m`, but never further). */
  lemma SettledStays(y: int, speed: int, m: int)
    requires InBounds(y) && speed >= 0 && Settled(y, speed, m)
    ensures Settled(TrackY(y, speed, m), speed, m)
  {
  }

  /** Tracking converges: starting in the window with a positive speed, after
      any `n` frames with `n * speed` at least the initial distance, the paddle
      is settled and still in the window. */
  lemma {:induction false} TrackConverges(y: int, speed: int, m: int, n: nat)
    requires InBounds(y) && speed > 0
    requires Settled(y, speed, m) || n * speed >= Abs(Middle(y) - m)
    ensures Settled(TrackSteps(y, speed, m, n), speed, m)
    ensures InBounds(TrackSteps(y, speed, m, n))
    decreases n
  {
    if n > 0 {
      var y' := TrackY(y, speed, m);
      if Settled(y, speed, m) {
        SettledStays(y, speed, m);
      } else {
        assert (n - 1) * speed == n * speed - speed;
      }
      TrackConverges(y', speed, m, n - 1);
    }
  }

  /** The paddle object of the game. */
  class Paddle {
    const x: int
    var y: int
    var movementSpeed: int
    const autoPlayer: bool
    var direction: Option<string>
    const allowedKeys: seq<string>
    var shape: Option<Rect>

    /** The abstract value of this paddle. */
    function State(): PaddleState
      reads this
    {
      PaddleState(x, y, movementSpeed, autoPlayer, direction, allowedKeys, shape)
    }

    constructor (side: string, movementSpeed0: int, autoPlayer0: bool)
      ensures State() == NewPaddle(side, movementSpeed0, autoPlayer0)
    {
      autoPlayer := autoPlayer0;
      movementSpeed := movementSpeed0;
      direction := None;
      y := Height / 3;
      if side == "left" {
        x := PadIndent;
        allowedKeys := ["w", "s"];
      } else {
        x := Width - PadWidth - PadIndent;
        allowedKeys := ["up", "down"];
      }
      shape := None;
    }

    method Draw()
      modifies this
      ensures State() == PaddleDrawn(old(State()))
    {
      shape := Some(Rect(x, y, PadWidth, PadHeight));
    }

    method Move(ball: Balls.Ball)
      modifies this
      ensures State() == PaddleMoved(old(State()), ball.YMiddle())
    {
      if !autoPlayer {
        if direction.Some? && direction.value in ["w", "up"] {
          y := Max(y - movementSpeed, 0);
        } else if direction.Some? && direction.value in ["s", "down"] {
          y := Min(y + movementSpeed, MaxY);
        }
      } else {
        TrackTheBall(ball);
      }
    }

    predicate IsAllowedKey(key: string)
      reads this
      ensures IsAllowedKey(key) == Owns(State(), key)
    {
      key in allowedKeys
    }

    predicate HitThePaddles(ballShape: Option<Square>)
      reads this
      requires ballShape.Some? ==> shape.Some?
      ensures HitThePaddles(ballShape) == Hits(State(), ballShape)
    {
      ballShape.Some? && AnyInside(shape.value, Corners(ballShape.value))
    }

    method IncreaseMovementSpeed()
      modifies this
      ensures State() == PaddleSpedUp(old(State()))
    {
      movementSpeed := movementSpeed + 1;
    }

    method TrackTheBall(ball: Balls.Ball)
      modifies this
      ensures State() == old(State()).(y := TrackY(old(y), movementSpeed, ball.YMiddle()))
    {
      if ball.YMiddle() > Middle(y) {
        y := Min(y + movementSpeed, MaxY);
      } else if ball.YMiddle() < Middle(y) {
        y := Max(y - movementSpeed, 0);
      }
    }
  }
}
