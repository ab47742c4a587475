/**
 * The ball of the brick game: time-scaled motion, a short trail of past positions,
 * wall clamping and reflection, the "ball lost" signal, the circle-versus-rectangle
 * collision test and the two bounce responses (paddle and brick).
 *
 * The pure functions on `BallState` specify each operation; class `Ball` holds the
 * mutable fields and its methods are proved to equal those functions.
 */
module Kinematics {
  import opened Common

  datatype Point = Point(x: real, y: real)

  /** The fields of a ball, as one value. */
  datatype BallState = BallState(
    x: real, y: real, dx: real, dy: real, speed: real, size: real, active: bool, trail: seq<Point>)

  /** The result of one step that may signal that the ball was lost. */
  datatype Step = Step(ball: BallState, lost: bool)

  const MaxTrailLength: nat := 5
  const InitialSpeed: real := 5.0
  const BallSize: real := 8.0
  const SpeedIncrement: real := 0.05
  const SpeedCap: real := 10.0
  const PI: real := 3.141592653589793

  /** The ball after `reset`: centred horizontally, 60 px above the bottom, moving straight up. */
  function ResetState(gameWidth: real, gameHeight: real): (s: BallState)
    ensures s.active && s.trail == [] && s.speed == InitialSpeed && s.size == BallSize
    ensures s.dx == 0.0 && s.dy == -s.speed && s.dy < 0.0
    ensures s.x == gameWidth / 2.0 && s.y == gameHeight - 60.0
  {
    BallState(gameWidth / 2.0, gameHeight - 60.0, 0.0, -InitialSpeed, InitialSpeed, BallSize, true, [])
  }

  /** `unshift` the new position, then `pop` once if the trail grew past its maximum length. */
  function PushTrail(trail: seq<Point>, p: Point): (r: seq<Point>)
    ensures |r| > 0 && r[0] == p
    ensures |r| == if |trail| + 1 > MaxTrailLength then |trail| else |trail| + 1
    ensures r[1..] == trail[..|r| - 1]
    ensures |trail| <= MaxTrailLength ==> |r| <= MaxTrailLength
  {
    var grown := [p] + trail;
    if |grown| > MaxTrailLength then grown[..|grown| - 1] else grown
  }

  /**
   * `checkBoundaries`: the left wall is tested first and the right wall only when the
   * left did not trigger; then the top wall; then the bottom edge, which deactivates
   * the ball and signals the loss.
   */
  function ResolveWalls(s: BallState, gameWidth: real, gameHeight: real): (r: Step)
    ensures s.x - s.size <= 0.0 ==> r.ball.x == s.size && r.ball.dx == Abs(s.dx) && r.ball.dx >= 0.0
    ensures s.x - s.size > 0.0 && s.x + s.size >= gameWidth ==>
              r.ball.x == gameWidth - s.size && r.ball.dx == -Abs(s.dx) && r.ball.dx <= 0.0
    ensures s.x - s.size > 0.0 && s.x + s.size < gameWidth ==> r.ball.x == s.x && r.ball.dx == s.dx
    ensures s.y - s.size <= 0.0 ==> r.ball.y == s.size && r.ball.dy == Abs(s.dy) && r.ball.dy >= 0.0
    ensures s.y - s.size > 0.0 ==> r.ball.y == s.y && r.ball.dy == s.dy
    ensures r.lost <==> r.ball.y + s.size > gameHeight
    ensures r.lost ==> !r.ball.active
    ensures !r.lost ==> r.ball.active == s.active
    ensures r.ball.speed == s.speed && r.ball.size == s.size && r.ball.trail == s.trail
    // the circle ends up inside the left and right walls whenever the field is wide enough
    ensures 2.0 * s.size <= gameWidth ==> s.size <= r.ball.x <= gameWidth - s.size
    ensures s.size <= r.ball.y || s.y - s.size > 0.0
  {
    var horizontal :=
      if s.x - s.size <= 0.0 then s.(x := s.size, dx := Abs(s.dx))
      else if s.x + s.size >= gameWidth then s.(x := gameWidth - s.size, dx := -Abs(s.dx))
      else s;
    var vertical :=
      if horizontal.y - horizontal.size <= 0.0 then horizontal.(y := horizontal.size, dy := Abs(horizontal.dy))
      else horizontal;
    if vertical.y + vertical.size > gameHeight then Step(vertical.(active := false), true)
    else Step(vertical, false)
  }

  /** The position after moving for `dt` milliseconds at the current velocity. */
  function Moved(s: BallState, dt: real): (p: Point)
    ensures dt == 0.0 ==> p == Point(s.x, s.y)
    ensures dt == FrameMs ==> p == Point(s.x + s.dx, s.y + s.dy)
    ensures s.dx == 0.0 ==> p.x == s.x
  {
    Point(s.x + s.dx * (dt / FrameMs), s.y + s.dy * (dt / FrameMs))
  }

  /**
   * `update(deltaTime)`: nothing at all while the ball is inactive; otherwise move by
   * `velocity * dt / 16.67`, record the new position at the head of the trail, and
   * resolve the walls.
   */
  function Advance(s: BallState, dt: real, gameWidth: real, gameHeight: real): (r: Step)
    ensures !s.active ==> r == Step(s, false)
    ensures r.lost ==> s.active && !r.ball.active
    ensures r.ball.speed == s.speed && r.ball.size == s.size
    ensures s.active ==> r == ResolveWalls(s.(x := Moved(s, dt).x, y := Moved(s, dt).y,
                                             trail := PushTrail(s.trail, Moved(s, dt))), gameWidth, gameHeight)
    ensures s.active ==> r.ball.trail == PushTrail(s.trail, Moved(s, dt))
    ensures s.active ==> |r.ball.trail| > 0 && r.ball.trail[0] == Moved(s, dt)
    ensures |s.trail| <= MaxTrailLength ==> |r.ball.trail| <= MaxTrailLength
  {
    if !s.active then Step(s, false)
    else
      var p := Moved(s, dt);
      ResolveWalls(s.(x := p.x, y := p.y, trail := PushTrail(s.trail, p)), gameWidth, gameHeight)
  }

  /** Successive frames: the final ball and how many times the loss was signalled. */
  function Run(s: BallState, dts: seq<real>, gameWidth: real, gameHeight: real): (BallState, nat)
    decreases |dts|
  {
    if dts == [] then (s, 0)
    else
      var first := Advance(s, dts[0], gameWidth, gameHeight);
      var rest := Run(first.ball, dts[1..], gameWidth, gameHeight);
      (rest.0, rest.1 + if first.lost then 1 else 0)
  }

  /** The loss is signalled at most once after a reset, and never by an inactive ball. */
  lemma {:induction false} LossSignalledAtMostOnce(s: BallState, dts: seq<real>, gameWidth: real, gameHeight: real)
    ensures Run(s, dts, gameWidth, gameHeight).1 <= if s.active then 1 else 0
    ensures !s.active ==> Run(s, dts, gameWidth, gameHeight).0 == s
    decreases |dts|
  {
    if dts != [] {
      var first := Advance(s, dts[0], gameWidth, gameHeight);
      LossSignalledAtMostOnce(first.ball, dts[1..], gameWidth, gameHeight);
    }
  }

  predicate InRect(px: real, py: real, rect: Rect) {
    rect.x <= px <= rect.x + rect.width && rect.y <= py <= rect.y + rect.height
  }

  /**
   * `collideWith`: false for a missing target or one whose x, y, width or height is not
   * a number; otherwise the squared distance from the centre to the nearest point of the
   * rectangle (the centre clamped to it) is compared with the squared radius.
   */
  function Collides(cx: real, cy: real, radius: real, target: Option<Shape>): (hit: bool)
    ensures hit ==> target.Some? && target.value.IsNumeric()
    ensures target.Some? && target.value.IsNumeric() &&
            InRect(cx, cy, Rect(target.value.x.v, target.value.y.v, target.value.width.v, target.value.height.v))
            ==> hit
  {
    match target
    case None => false
    case Some(t) =>
      if !t.IsNumeric() then false
      else
        var nearestX := Clamp(cx, t.x.v, t.x.v + t.width.v);
        var nearestY := Clamp(cy, t.y.v, t.y.v + t.height.v);
        Sq(cx - nearestX) + Sq(cy - nearestY) <= Sq(radius)
  }

  lemma SqMonotone(a: real, b: real)
    requires 0.0 <= a <= b
    ensures Sq(a) <= Sq(b)
  {
    MulNonnegative(a, b - a);
    MulNonnegative(b, b - a);
  }

  lemma MulNonnegative(a: real, b: real)
    requires a >= 0.0 && b >= 0.0
    ensures a * b >= 0.0
  {
  }

  lemma MulPositive(a: real, b: real)
    requires a > 0.0 && b > 0.0
    ensures a * b > 0.0
  {
  }

  lemma SqStrictlyMonotone(a: real, b: real)
    requires 0.0 <= a < b
    ensures Sq(a) < Sq(b)
  {
    MulNonnegative(a, b - a);
    MulPositive(b, b - a);
  }

  /** The clamped point is at least as close to `v` as any other point of `[lo, hi]`. */
  lemma NearestIsClosest(v: real, lo: real, hi: real, p: real)
    requires lo <= p <= hi
    ensures Sq(v - Clamp(v, lo, hi)) <= Sq(v - p)
  {
    if v < lo {
      SqMonotone(lo - v, p - v);
      assert Sq(v - lo) == Sq(lo - v) && Sq(v - p) == Sq(p - v);
    } else if v > hi {
      SqMonotone(v - hi, v - p);
    }
  }

  /** Some point of the rectangle lies within `radius` of the centre. */
  ghost predicate Reachable(cx: real, cy: real, radius: real, rect: Rect) {
    exists px: real, py: real :: InRect(px, py, rect) && Sq(cx - px) + Sq(cy - py) <= Sq(radius)
  }

  /** Reference definition: on a well-formed rectangle the test holds iff some point of it is within reach. */
  lemma {:induction false} CollidesIffReachable(cx: real, cy: real, radius: real, rect: Rect)
    requires rect.width >= 0.0 && rect.height >= 0.0
    ensures Collides(cx, cy, radius, Some(rect.AsShape())) <==> Reachable(cx, cy, radius, rect)
  {
    var qx := Clamp(cx, rect.x, rect.x + rect.width);
    var qy := Clamp(cy, rect.y, rect.y + rect.height);
    assert InRect(qx, qy, rect);
    if Reachable(cx, cy, radius, rect) {
      var px: real, py: real :| InRect(px, py, rect) && Sq(cx - px) + Sq(cy - py) <= Sq(radius);
      NearestIsClosest(cx, rect.x, rect.x + rect.width, px);
      NearestIsClosest(cy, rect.y, rect.y + rect.height, py);
    }
  }

  /** A circle whose centre is more than one radius outside the rectangle never collides with it. */
  lemma {:induction false} FarOutsideNeverCollides(cx: real, cy: real, radius: real, rect: Rect)
    requires radius >= 0.0
    requires cx < rect.x - radius || cy < rect.y - radius ||
             (rect.width >= 0.0 && cx > rect.x + rect.width + radius) ||
             (rect.height >= 0.0 && cy > rect.y + rect.height + radius)
    ensures !Collides(cx, cy, radius, Some(rect.AsShape()))
  {
    var qx := Clamp(cx, rect.x, rect.x + rect.width);
    var qy := Clamp(cy, rect.y, rect.y + rect.height);
    if cx < rect.x - radius {
      SqStrictlyMonotone(radius, qx - cx);
      assert Sq(cx - qx) == Sq(qx - cx);
    } else if cy < rect.y - radius {
      SqStrictlyMonotone(radius, qy - cy);
      assert Sq(cy - qy) == Sq(qy - cy);
    } else if rect.width >= 0.0 && cx > rect.x + rect.width + radius {
      SqStrictlyMonotone(radius, cx - qx);
    } else {
      SqStrictlyMonotone(radius, cy - qy);
    }
  }

  /** `(x - (paddle.x + paddle.width / 2)) / (paddle.width / 2)` */
  function RelativePosition(x: real, paddle: Rect): (rel: real)
    requires paddle.width != 0.0
    ensures rel * (paddle.width / 2.0) == x - (paddle.x + paddle.width / 2.0)
    ensures paddle.width > 0.0 && paddle.x <= x <= paddle.x + paddle.width ==> -1.0 <= rel <= 1.0
  {
    var half := paddle.width / 2.0;
    var rel := (x - (paddle.x + half)) / half;
    assert rel * half == x - (paddle.x + half);
    if paddle.width > 0.0 && paddle.x <= x <= paddle.x + paddle.width then
      QuotientWithinUnit(x - (paddle.x + half), half);
      rel
    else rel
  }

  lemma QuotientWithinUnit(n: real, d: real)
    requires d > 0.0 && -d <= n <= d
    ensures -1.0 <= n / d <= 1.0
  {
  }

  /** The bounce angle: the relative position times 60 degrees. */
  function BounceAngle(x: real, paddle: Rect): (a: real)
    requires paddle.width != 0.0
    ensures x == paddle.x + paddle.width / 2.0 ==> a == 0.0
    ensures paddle.width > 0.0 && paddle.x <= x <= paddle.x + paddle.width ==> -PI / 3.0 <= a <= PI / 3.0
    ensures paddle.width > 0.0 ==> (a > 0.0 <==> x > paddle.x + paddle.width / 2.0)
  {
    var rel := RelativePosition(x, paddle);
    assert paddle.width > 0.0 ==> (rel > 0.0 <==> rel * (paddle.width / 2.0) > 0.0);
    rel * PI / 3.0
  }

  /**
   * `handlePaddleCollision`: the new velocity is `speed` along the bounce angle
   * (`dx = speed * sin a`, `dy = -speed * cos a`), then `dy` is forced upward and the
   * ball is put just above the paddle. `sin` and `cos` stand for `Math.sin` and `Math.cos`.
   */
  function PaddleBounce(s: BallState, paddle: Rect, sin: real -> real, cos: real -> real): (r: BallState)
    requires paddle.width != 0.0
    ensures r.dy <= 0.0
    ensures r.dy == -Abs(s.speed * cos(BounceAngle(s.x, paddle)))
    ensures r.dx == s.speed * sin(BounceAngle(s.x, paddle))
    ensures r.y == paddle.y - s.size
    ensures r == s.(dx := r.dx, dy := r.dy, y := r.y)
  {
    var angle := BounceAngle(s.x, paddle);
    var dy := -s.speed * cos(angle);
    s.(dx := s.speed * sin(angle), dy := if dy > 0.0 then -dy else dy, y := paddle.y - s.size)
  }

  /** With a faithful sine and cosine, the paddle bounce keeps the magnitude of the velocity equal to `speed`. */
  lemma PaddleBounceKeepsSpeed(s: BallState, paddle: Rect, sin: real -> real, cos: real -> real)
    requires paddle.width != 0.0
    requires Sq(sin(BounceAngle(s.x, paddle))) + Sq(cos(BounceAngle(s.x, paddle))) == 1.0
    ensures Sq(PaddleBounce(s, paddle, sin, cos).dx) + Sq(PaddleBounce(s, paddle, sin, cos).dy) == Sq(s.speed)
  {
    var a := BounceAngle(s.x, paddle);
    var r := PaddleBounce(s, paddle, sin, cos);
    assert Sq(r.dx) == Sq(s.speed) * Sq(sin(a));
    assert Sq(r.dy) == Sq(s.speed * cos(a)) == Sq(s.speed) * Sq(cos(a));
    assert Sq(s.speed) * Sq(sin(a)) + Sq(s.speed) * Sq(cos(a)) == Sq(s.speed) * (Sq(sin(a)) + Sq(cos(a)));
  }

  /**
   * `handleBrickCollision`: a centre above or below the brick's vertical midline reflects
   * `dy`, a centre exactly on it reflects `dx`; the speed grows by 0.05 up to 10. The
   * velocity components are not rescaled to the new speed.
   */
  function BrickBounce(s: BallState, brickY: real, brickHeight: real): (r: BallState)
    ensures s.y != brickY + brickHeight / 2.0 ==> r.dy == -s.dy && r.dx == s.dx
    ensures s.y == brickY + brickHeight / 2.0 ==> r.dx == -s.dx && r.dy == s.dy
    ensures r.speed == Min(s.speed + SpeedIncrement, SpeedCap)
    ensures r == s.(dx := r.dx, dy := r.dy, speed := r.speed)
  {
    var mid := brickY + brickHeight / 2.0;
    var hitFromBottom := s.y > mid;
    var hitFromTop := s.y < mid;
    var bounced := if hitFromBottom || hitFromTop then s.(dy := -s.dy) else s.(dx := -s.dx);
    var faster := bounced.speed + SpeedIncrement;
    bounced.(speed := if faster > SpeedCap then SpeedCap else faster)
  }

  /** `n` successive hits on the same brick. */
  function BrickHits(s: BallState, brickY: real, brickHeight: real, n: nat): BallState
  {
    if n == 0 then s else BrickBounce(BrickHits(s, brickY, brickHeight, n - 1), brickY, brickHeight)
  }

  /** From any speed within the cap, `n` brick hits give `min(speed + 0.05 n, 10)`: non-decreasing and capped. */
  lemma {:induction false} SpeedAfterBrickHits(s: BallState, brickY: real, brickHeight: real, n: nat)
    requires s.speed <= SpeedCap
    ensures BrickHits(s, brickY, brickHeight, n).speed == Min(s.speed + n as real * SpeedIncrement, SpeedCap)
    ensures s.speed <= BrickHits(s, brickY, brickHeight, n).speed <= SpeedCap
  {
    if n > 0 {
      SpeedAfterBrickHits(s, brickY, brickHeight, n - 1);
    }
  }

  /** Two hits on the same brick restore the original direction: the ball does not move in between. */
  lemma TwoBrickBouncesRestoreDirection(s: BallState, brickY: real, brickHeight: real)
    ensures BrickHits(s, brickY, brickHeight, 2).dx == s.dx
    ensures BrickHits(s, brickY, brickHeight, 2).dy == s.dy
  {
    assert BrickHits(s, brickY, brickHeight, 1) == BrickBounce(s, brickY, brickHeight);
  }

  /** `resize`: pull the centre back inside the right and bottom edges; never moves it right or down. */
  function FitToField(s: BallState, gameWidth: real, gameHeight: real): (r: BallState)
    ensures r.x <= s.x && r.y <= s.y
    ensures r.x <= gameWidth - s.size && r.y <= gameHeight - s.size
    ensures s.x <= gameWidth - s.size ==> r.x == s.x
    ensures s.y <= gameHeight - s.size ==> r.y == s.y
    ensures r == s.(x := r.x, y := r.y)
  {
    s.(x := Min(s.x, gameWidth - s.size), y := Min(s.y, gameHeight - s.size))
  }

  /** The ball object; `gameWidth`/`gameHeight` are read from the owning game and passed in. */
  class Ball {
    var x: real
    var y: real
    var dx: real
    var dy: real
    var speed: real
    var size: real
    var active: bool
    var trail: seq<Point>

    function State(): BallState
      reads this
    {
      BallState(x, y, dx, dy, speed, size, active, trail)
    }

    ghost predicate Valid()
      reads this
    {
      |trail| <= MaxTrailLength
    }

    constructor (gameWidth: real, gameHeight: real)
      ensures Valid() && State() == ResetState(gameWidth, gameHeight)
    {
      new;
      Reset(gameWidth, gameHeight);
      trail := [];
    }

    method Reset(gameWidth: real, gameHeight: real)
      modifies this
      ensures Valid() && State() == ResetState(gameWidth, gameHeight)
    {
      x := gameWidth / 2.0;
      y := gameHeight - 60.0;
      speed := InitialSpeed;
      dx := 0.0;
      dy := -speed;
      size := BallSize;
      active := true;
      trail := [];
    }

    /** Returns whether this frame signalled `handleBallLost`. */
    method Update(deltaTime: real, gameWidth: real, gameHeight: real) returns (lost: bool)
      requires Valid()
      modifies this
      ensures Valid()
      ensures Step(State(), lost) == Advance(old(State()), deltaTime, gameWidth, gameHeight)
    {
      if !active {
        return false;
      }
      ghost var p := Moved(State(), deltaTime);
      x := x + dx * (deltaTime / FrameMs);
      y := y + dy * (deltaTime / FrameMs);
      trail := [Point(x, y)] + trail;
      if |trail| > MaxTrailLength {
        trail := trail[..|trail| - 1];
      }
      assert State() == old(State()).(x := p.x, y := p.y, trail := PushTrail(old(trail), p));
      lost := CheckBoundaries(gameWidth, gameHeight);
    }

    method CheckBoundaries(gameWidth: real, gameHeight: real) returns (lost: bool)
      modifies this
      ensures Step(State(), lost) == ResolveWalls(old(State()), gameWidth, gameHeight)
    {
      if x - size <= 0.0 {
        x := size;
        dx := Abs(dx);
      } else if x + size >= gameWidth {
        x := gameWidth - size;
        dx := -Abs(dx);
      }
      if y - size <= 0.0 {
        y := size;
        dy := Abs(dy);
      }
      lost := false;
      if y + size > gameHeight {
        active := false;
        lost := true;
      }
    }

    function CollideWith(target: Option<Shape>): (hit: bool)
      reads this
      ensures hit ==> target.Some? && target.value.IsNumeric()
      ensures target.Some? && target.value.IsNumeric() &&
              InRect(x, y, Rect(target.value.x.v, target.value.y.v, target.value.width.v, target.value.height.v))
              ==> hit
    {
      Collides(x, y, size, target)
    }

    method HandlePaddleCollision(paddle: Rect, sin: real -> real, cos: real -> real)
      requires paddle.width != 0.0
      modifies this
      ensures State() == PaddleBounce(old(State()), paddle, sin, cos)
    {
      var relativePosition := (x - (paddle.x + paddle.width / 2.0)) / (paddle.width / 2.0);
      var angle := relativePosition * PI / 3.0;
      dx := speed * sin(angle);
      dy := -speed * cos(angle);
      if dy > 0.0 {
        dy := -dy;
      }
      y := paddle.y - size;
    }

    method HandleBrickCollision(brickY: real, brickHeight: real)
      modifies this
      ensures State() == BrickBounce(old(State()), brickY, brickHeight)
    {
      var hitFromBottom := y > brickY + brickHeight / 2.0;
      var hitFromTop := y < brickY + brickHeight / 2.0;
      if hitFromBottom || hitFromTop {
        dy := -dy;
      } else {
        dx := -dx;
      }
      speed := speed + SpeedIncrement;
      if speed > SpeedCap {
        speed := SpeedCap;
      }
    }

    method Resize(gameWidth: real, gameHeight: real)
      modifies this
      ensures State() == FitToField(old(State()), gameWidth, gameHeight)
    {
      x := Min(x, gameWidth - size);
      y := Min(y, gameHeight - size);
    }
  }
}
