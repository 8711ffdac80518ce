/** The ball: its position, signed velocities, fixed size, the lazily set
    baseline of the once-per-second speed ramp and the `finished` flag.
    The pure functions over `BallState` say what each operation does; the
    class `Ball` performs them in place and is proved against them. */
module Balls {
  import opened Common
  import opened Window

  /** `Window.height / 2`: the start x is taken from the HEIGHT (the axes are swapped). */
  const BallStartX: int := Height / 2
  /** `Window.width / 2`: the start y is taken from the WIDTH. */
  const BallStartY: int := Width / 2
  const Size: int := Height * Width / 25000
  const DefaultXVelocity: int := Width / 128
  const DefaultYVelocity: int := Height / 96
  /** One second, in the millisecond timestamps the ramp is given. */
  const RampInterval: int := 1000

  lemma Dimensions()
    ensures BallStartX == 384 && BallStartY == 512 && Size == 31
    ensures DefaultXVelocity == 8 && DefaultYVelocity == 8
  {
  }

  datatype BallState = BallState(
    x: int, y: int,
    xv: int, yv: int,
    size: int,
    rampOn: bool,            // `@increase_speed`
    baseline: Option<int>,   // `@time`, set by the first ramp check and cleared when the ramp fires
    finished: bool,
    shape: Option<Square>)   // the square last drawn, `nil` before the first draw

  function NewBall(xv: int, yv: int, rampOn: bool): (b: BallState)
    ensures b.x == Height / 2 && b.y == Width / 2
    ensures b.xv == xv && b.yv == yv && b.size == Size && b.rampOn == rampOn
    ensures b.baseline == None && !b.finished && b.shape == None
  {
    BallState(BallStartX, BallStartY, xv, yv, Size, rampOn, None, false, None)
  }

  /** `hit_lower_upper_edges?` */
  predicate AtTopOrBottom(b: BallState)
    ensures !AtTopOrBottom(b) <==> 0 < b.y && b.y + b.size < Height
  {
    b.y <= 0 || b.y >= Height - b.size
  }

  /** `hit_left_right_sides?`, which is all `game_over?` asks. */
  predicate IsGameOver(b: BallState)
    ensures !IsGameOver(b) <==> 0 < b.x && b.x + b.size < Width
  {
    b.x <= 0 || b.x >= Width - b.size
  }

  /** `y_middle` */
  function MiddleOf(b: BallState): (m: int)
    ensures b.size >= 0 ==> b.y <= m <= b.y + b.size && m - b.y <= b.y + b.size - m
  {
    b.y + b.size / 2
  }

  /** `bounce(axis)`: negates the velocity on the named axis; any other axis name changes nothing. */
  function BallBounced(b: BallState, axis: string): (r: BallState)
    ensures r == b.(xv := r.xv, yv := r.yv)
    ensures Abs(r.xv) == Abs(b.xv) && Abs(r.yv) == Abs(b.yv)
    ensures axis == "x" ==> r.xv == -b.xv && r.yv == b.yv
    ensures axis == "y" ==> r.yv == -b.yv && r.xv == b.xv
    ensures axis != "x" && axis != "y" ==> r == b
  {
    var b1 := if axis == "x" then b.(xv := -b.xv) else b;
    if axis == "y" then b1.(yv := -b1.yv) else b1
  }

  lemma BounceTwice(b: BallState, axis: string)
    ensures BallBounced(BallBounced(b, axis), axis) == b
  {
  }

  /** `move`: first bounces on y at the top or bottom edge, then steps by the
      (possibly flipped) velocities; x moves AGAINST `xv`. It does not look at
      `finished`. */
  function BallMoved(b: BallState): (r: BallState)
    ensures r == b.(x := r.x, y := r.y, yv := r.yv)
    ensures r.yv == if AtTopOrBottom(b) then -b.yv else b.yv
    ensures r.x == b.x - r.xv && r.y == b.y + r.yv
  {
    var b1 := if AtTopOrBottom(b) then BallBounced(b, "y") else b;
    b1.(x := b1.x - b1.xv, y := b1.y + b1.yv)
  }

  /** A ball at the top edge leaves it with its vertical velocity negated, and
      the step already uses the negated velocity. */
  lemma WallBounceAtTop(b: BallState)
    requires b.y == 0
    ensures BallMoved(b).yv == -b.yv && BallMoved(b).y == -b.yv
    ensures BallMoved(b).x == b.x - b.xv
  {
  }

  /** `move` moves a finished ball like any other: the game stops a finished
      ball only by not calling `move`. */
  lemma MoveIgnoresFinished(b: BallState)
    ensures BallMoved(b.(finished := true)) == BallMoved(b).(finished := true)
    ensures b.xv != 0 ==> BallMoved(b.(finished := true)).x != b.x
  {
  }

  /** One ramp step of a velocity component: `v > 0 ? v + 1 : v - 1`.
      Its magnitude grows by one; zero becomes -1. */
  function Grow(v: int): (r: int)
    ensures Abs(r) == Abs(v) + 1
    ensures v > 0 ==> r > 0
    ensures v <= 0 ==> r < 0
  {
    if v > 0 then v + 1 else v - 1
  }

  /** The ramp's baseline as `@time ||= now` leaves it. */
  function BaselineOr(b: BallState, now: int): int
  {
    if b.baseline.Some? then b.baseline.value else now
  }

  /** `increase_speed?` at time `now`: fires when a full second has passed
      since the baseline (recording `now` as the baseline when there is none);
      on firing both velocity magnitudes grow by one and the baseline is cleared. */
  function BallRamped(b: BallState, now: int): (r: (BallState, bool))
    ensures r.0 == b.(xv := r.0.xv, yv := r.0.yv, baseline := r.0.baseline)
    ensures r.1 <==> now - BaselineOr(b, now) >= RampInterval
    ensures r.1 ==> r.0.baseline == None
    ensures r.1 ==> Abs(r.0.xv) == Abs(b.xv) + 1 && Abs(r.0.yv) == Abs(b.yv) + 1
    ensures r.1 ==> (b.xv > 0 <==> r.0.xv > 0) && (b.yv > 0 <==> r.0.yv > 0)
    ensures !r.1 ==> r.0.xv == b.xv && r.0.yv == b.yv && r.0.baseline == Some(BaselineOr(b, now))
  {
    var base := BaselineOr(b, now);
    if now - base >= RampInterval then
      (b.(xv := Grow(b.xv), yv := Grow(b.yv), baseline := None), true)
    else
      (b.(baseline := Some(base)), false)
  }

  /** The first check after a firing (or ever) only records the baseline:
      two checks less than a second apart cannot both fire. */
  lemma RampFiresAtMostOncePerSecond(b: BallState, t1: int, t2: int)
    requires t1 <= t2 < BaselineOr(b, t1) + RampInterval
    ensures var (b1, fired1) := BallRamped(b, t1);
            var (b2, fired2) := BallRamped(b1, t2);
            !fired2 && b2.xv == b1.xv && b2.yv == b1.yv
  {
  }

  /** A check that fires re-arms the timer: the next one cannot fire. */
  lemma RampRearms(b: BallState, t1: int, t2: int)
    requires BallRamped(b, t1).1
    ensures !BallRamped(BallRamped(b, t1).0, t2).1
  {
  }

  /** `finish` */
  function BallFinished(b: BallState): (r: BallState)
    ensures r.finished && r == b.(finished := r.finished)
  {
    b.(finished := true)
  }

  /** The square `draw` would create from the current fields. */
  function BallSquare(b: BallState): Square
  {
    Square(b.x, b.y, b.size)
  }

  /** `draw`: a finished ball keeps the square it was last drawn with. */
  function BallDrawn(b: BallState): (r: BallState)
    ensures r == b.(shape := r.shape)
    ensures !b.finished ==> r.shape == Some(BallSquare(b))
    ensures b.finished ==> r == b
  {
    if b.finished then b else b.(shape := Some(BallSquare(b)))
  }

  /** The ball object of the game. */
  class Ball {
    var x: int
    var y: int
    var xVelocity: int
    var yVelocity: int
    const size: int
    const increaseSpeed: bool
    var time: Option<int>
    var finished: bool
    var shape: Option<Square>

    /** The abstract value of this ball. */
    function State(): BallState
      reads this
    {
      BallState(x, y, xVelocity, yVelocity, size, increaseSpeed, time, finished, shape)
    }

    constructor (xVelocity0: int, yVelocity0: int, increaseSpeed0: bool)
      ensures State() == NewBall(xVelocity0, yVelocity0, increaseSpeed0)
    {
      x := Height / 2;
      y := Width / 2;
      size := Height * Width / 25000;
      xVelocity := xVelocity0;
      yVelocity := yVelocity0;
      increaseSpeed := increaseSpeed0;
      time := None;
      finished := false;
      shape := None;
    }

    method Bounce(axis: string)
      modifies this
      ensures State() == BallBounced(old(State()), axis)
    {
      if axis == "x" {
        xVelocity := -xVelocity;
      }
      if axis == "y" {
        yVelocity := -yVelocity;
      }
    }

    predicate HitLowerUpperEdges()
      reads this
      ensures HitLowerUpperEdges() == AtTopOrBottom(State())
    {
      y <= 0 || y >= Height - size
    }

    predicate HitLeftRightSides()
      reads this
      ensures HitLeftRightSides() == IsGameOver(State())
    {
      x <= 0 || x >= Width - size
    }

    predicate GameOver()
      reads this
      ensures GameOver() == IsGameOver(State())
    {
      HitLeftRightSides()
    }

    function YMiddle(): (m: int)
      reads this
      ensures m == MiddleOf(State())
    {
      y + size / 2
    }

    method Move()
      modifies this
      ensures State() == BallMoved(old(State()))
    {
      if HitLowerUpperEdges() {
        Bounce("y");
      }
      x := x - xVelocity;
      y := y + yVelocity;
    }

    /** `increase_speed?`, with the clock passed in as `now`. */
    method CheckIncreaseSpeed(now: int) returns (increased: bool)
      modifies this
      ensures (State(), increased) == BallRamped(old(State()), now)
    {
      if time.None? {
        time := Some(now);
      }
      if now - time.value >= RampInterval {
        if xVelocity > 0 { xVelocity := xVelocity + 1; } else { xVelocity := xVelocity - 1; }
        if yVelocity > 0 { yVelocity := yVelocity + 1; } else { yVelocity := yVelocity - 1; }
        time := None;
        return true;
      }
      return false;
    }

    method Finish()
      modifies this
      ensures State() == BallFinished(old(State()))
    {
      finished := true;
    }

    method Draw()
      modifies this
      ensures State() == BallDrawn(old(State()))
    {
      if !finished {
        shape := Some(Square(x, y, size));
      }
    }
  }
}
