/**
 * The paddle: keyboard speed with inertial damping, pointer and touch positioning,
 * the width and laser upgrades, laser firing with a count cap, and the per-frame
 * laser update (move up, grow, drop the ones that left the screen).
 */
module Paddle {
  import opened Common

  const PaddleWidth: real := 100.0
  const PaddleHeight: real := 15.0
  const BottomMargin: real := 10.0
  const MaxSpeed: real := 10.0
  const MaxLasers: nat := 5
  const Smoothing: real := 0.5
  const Damping: real := 0.9
  const RestSpeed: real := 0.1
  const BeamWidth: real := 3.0
  const BeamSpeed: real := 8.0

  /** A laser beam: its foot rises while its length grows, so `y + height` stays the firing height. */
  datatype Laser = Laser(x: real, y: real, width: real, height: real, speed: real, active: bool)
  {
    function Tip(): real { y + height }
  }

  /**
   * The paddle's fields. `originalWidth`, `hasLaser`, `laserWidth` and `laserDamage`
   * are written only by the power-up effects; `None` stands for a property not yet set.
   */
  datatype PlayerState = PlayerState(
    x: real, y: real, width: real, speed: real, laserEnabled: bool, lasers: seq<Laser>,
    originalWidth: Option<real>, hasLaser: bool, laserWidth: Option<real>, laserDamage: Option<int>)
  {
    /** What the ball's and the pickups' collision tests read from the paddle. */
    function Bounds(): Rect { Rect(x, y, width, PaddleHeight) }
  }

  /** `reset`: centred, 10 px above the bottom edge, at rest, without lasers; the width is kept. */
  function ResetPaddle(p: PlayerState, gameWidth: real, gameHeight: real): (r: PlayerState)
    ensures r.x + r.width / 2.0 == gameWidth / 2.0
    ensures r.y + PaddleHeight + BottomMargin == gameHeight
    ensures r.speed == 0.0 && r.lasers == [] && r.width == p.width
    ensures r == p.(x := r.x, y := r.y, speed := 0.0, lasers := [])
  {
    p.(x := gameWidth / 2.0 - p.width / 2.0, y := gameHeight - PaddleHeight - BottomMargin, speed := 0.0, lasers := [])
  }

  /** The constructor: width 100, at rest, laser disabled, then `reset`. */
  function InitialPlayer(gameWidth: real, gameHeight: real): (r: PlayerState)
    ensures r.width == PaddleWidth && !r.laserEnabled && !r.hasLaser && r.lasers == []
    ensures r.originalWidth.None? && r.laserWidth.None? && r.laserDamage.None?
    ensures r == ResetPaddle(r, gameWidth, gameHeight)
  {
    ResetPaddle(PlayerState(0.0, 0.0, PaddleWidth, 0.0, false, [], None, false, None, None), gameWidth, gameHeight)
  }

  /** `move(direction)`: the speed becomes `direction * maxSpeed`; nothing moves yet. */
  function Steer(p: PlayerState, direction: real): (r: PlayerState)
    ensures r.speed == direction * MaxSpeed
    ensures direction == -1.0 ==> r.speed == -MaxSpeed
    ensures direction == 1.0 ==> r.speed == MaxSpeed
    ensures r == p.(speed := r.speed)
  {
    p.(speed := direction * MaxSpeed)
  }

  /**
   * `handleTouch`, position arithmetic only: `scaledX` is the first touch point in canvas
   * pixels, `None` an event without touches. The paddle moves halfway toward centring
   * itself on the touch point, then is clamped left and right.
   */
  function Touch(p: PlayerState, scaledX: Option<real>, gameWidth: real): (r: PlayerState)
    ensures scaledX.None? ==> r == p
    ensures scaledX.Some? && gameWidth - p.width >= 0.0 ==> 0.0 <= r.x <= gameWidth - p.width
    ensures scaledX.Some? ==>
              var target := scaledX.value - p.width / 2.0;
              var halfway := p.x + (target - p.x) * Smoothing;
              r.x == ClampToField(halfway, p.width, gameWidth) &&
              (0.0 <= halfway <= gameWidth - p.width ==> r.x - p.x == target - r.x)
    ensures r == p.(x := r.x)
  {
    match scaledX
    case None => p
    case Some(sx) =>
      var target := sx - p.width / 2.0;
      p.(x := ClampToField(p.x + (target - p.x) * Smoothing, p.width, gameWidth))
  }

  /**
   * `applySwipeInertia`: above the rest speed the paddle moves by `speed` and the speed
   * decays by 10%; at or below it the speed is zeroed. Then the left and right walls
   * clamp the position, and contact with either zeroes the speed.
   */
  function Inertia(p: PlayerState, gameWidth: real): (r: PlayerState)
    ensures Abs(p.speed) > RestSpeed ==>
              r.x == ClampToField(p.x + p.speed, p.width, gameWidth) &&
              (r.speed == p.speed * Damping || r.speed == 0.0)
    ensures Abs(p.speed) <= RestSpeed ==> r.x == ClampToField(p.x, p.width, gameWidth) && r.speed == 0.0
    ensures gameWidth - p.width >= 0.0 ==> 0.0 <= r.x <= gameWidth - p.width
    ensures r.speed != 0.0 ==> 0.0 <= r.x && r.x + r.width <= gameWidth
    ensures Abs(r.speed) <= Damping * Abs(p.speed)
    ensures r == p.(x := r.x, speed := r.speed)
  {
    var moved := if Abs(p.speed) > RestSpeed then p.(x := p.x + p.speed, speed := p.speed * Damping) else p.(speed := 0.0);
    var left := if moved.x < 0.0 then moved.(x := 0.0, speed := 0.0) else moved;
    if left.x + left.width > gameWidth then left.(x := gameWidth - left.width, speed := 0.0) else left
  }

  /** `v * 0.9^n` */
  function Decayed(v: real, n: nat): (r: real)
    ensures v >= 0.0 ==> 0.0 <= r <= v
  {
    if n == 0 then v else Damping * Decayed(v, n - 1)
  }

  /** `n` frames without input. */
  function Glide(p: PlayerState, gameWidth: real, n: nat): (r: PlayerState)
    ensures r == p.(x := r.x, speed := r.speed)
    ensures n > 0 && gameWidth - p.width >= 0.0 ==> 0.0 <= r.x <= gameWidth - p.width
  {
    if n == 0 then p else Inertia(Glide(p, gameWidth, n - 1), gameWidth)
  }

  /** Without input the speed decays at least geometrically, by 0.9 per frame. */
  lemma {:induction false} GlideSpeedDecays(p: PlayerState, gameWidth: real, n: nat)
    ensures Abs(Glide(p, gameWidth, n).speed) <= Decayed(Abs(p.speed), n)
    ensures Glide(p, gameWidth, n).width == p.width && Glide(p, gameWidth, n).lasers == p.lasers
  {
    if n > 0 {
      GlideSpeedDecays(p, gameWidth, n - 1);
    }
  }

  /** A beam as `fireLaser` creates it. */
  function Beam(x: real, y: real): (l: Laser)
    ensures l.active && l.height == 0.0 && l.Tip() == y
  {
    Laser(x, y, BeamWidth, 0.0, BeamSpeed, true)
  }

  datatype Firing = Firing(player: PlayerState, fired: bool)

  /**
   * `fireLaser`: refused (false, nothing changes) while the laser is disabled or five or
   * more beams exist; otherwise two beams at 20% and 80% of the width are appended.
   */
  function Shoot(p: PlayerState): (r: Firing)
    ensures r.fired <==> p.laserEnabled && |p.lasers| < MaxLasers
    ensures !r.fired ==> r.player == p
    ensures r.fired ==> r.player == p.(lasers := p.lasers + [Beam(p.x + p.width * 0.2, p.y), Beam(p.x + p.width * 0.8, p.y)])
    ensures r.fired ==> |r.player.lasers| == |p.lasers| + 2
    ensures |p.lasers| <= MaxLasers + 1 ==> |r.player.lasers| <= MaxLasers + 1
    ensures r.fired ==> var n := |p.lasers|;
              r.player.lasers[n].x - p.x == (p.x + p.width) - r.player.lasers[n + 1].x
  {
    if !p.laserEnabled then Firing(p, false)
    else if |p.lasers| >= MaxLasers then Firing(p, false)
    else
      var leftBeam := Beam(p.x + p.width * 0.2, p.y);
      var rightBeam := Beam(p.x + p.width * 0.8, p.y);
      Firing(p.(lasers := p.lasers + [leftBeam, rightBeam]), true)
  }

  /**
   * `upgrade(type)`: "expand" grows the width to `min(1.5 w, W / 2)` keeping the centre,
   * "laser" enables firing, anything else only re-clamps; the position is always
   * clamped left then right afterwards.
   */
  function Upgraded(p: PlayerState, kind: string, gameWidth: real): (r: PlayerState)
    ensures kind == "expand" ==> r.width == Min(p.width * 1.5, gameWidth * 0.5)
    ensures kind == "expand" ==>
              var shifted := p.x - (r.width - p.width) / 2.0;
              r.x == ClampToField(shifted, r.width, gameWidth) &&
              shifted + r.width / 2.0 == p.x + p.width / 2.0
    ensures kind != "expand" ==> r.width == p.width && r.x == ClampToField(p.x, p.width, gameWidth)
    ensures r.laserEnabled == (p.laserEnabled || kind == "laser")
    ensures gameWidth - r.width >= 0.0 ==> 0.0 <= r.x <= gameWidth - r.width
    ensures r == p.(x := r.x, width := r.width, laserEnabled := r.laserEnabled)
  {
    var upgraded :=
      if kind == "expand" then
        var w := Min(p.width * 1.5, gameWidth * 0.5);
        p.(width := w, x := p.x - (w - p.width) / 2.0)
      else if kind == "laser" then p.(laserEnabled := true)
      else p;
    upgraded.(x := ClampToField(upgraded.x, upgraded.width, gameWidth))
  }

  /** One frame of one beam: an active beam rises and grows by the same amount and goes out once wholly above the top edge. */
  function StepLaser(l: Laser, deltaTime: real): (r: Laser)
    ensures r.Tip() == l.Tip()
    ensures !l.active ==> r == l
    ensures l.active ==> (r.active <==> l.Tip() >= 0.0)
    ensures r.x == l.x && r.width == l.width && r.speed == l.speed
  {
    if !l.active then l
    else
      var d := l.speed * (deltaTime / FrameMs);
      var m := l.(y := l.y - d, height := l.height + d);
      if m.y + m.height < 0.0 then m.(active := false) else m
  }

  function StepAll(ls: seq<Laser>, deltaTime: real): (r: seq<Laser>)
    ensures |r| == |ls| && forall i :: 0 <= i < |ls| ==> r[i] == StepLaser(ls[i], deltaTime)
  {
    seq(|ls|, i requires 0 <= i < |ls| => StepLaser(ls[i], deltaTime))
  }

  /** `filter(laser => laser.active)`, order kept. */
  function KeepActive(ls: seq<Laser>): (r: seq<Laser>)
    ensures |r| <= |ls|
    ensures forall l :: l in r <==> l in ls && l.active
  {
    if ls == [] then []
    else KeepActive(ls[..|ls| - 1]) + (if ls[|ls| - 1].active then [ls[|ls| - 1]] else [])
  }

  /** The filter keeps order: filtering a concatenation concatenates the filtered parts. */
  lemma {:induction false} KeepActiveDistributes(a: seq<Laser>, b: seq<Laser>)
    ensures KeepActive(a + b) == KeepActive(a) + KeepActive(b)
    decreases |b|
  {
    if b == [] {
      assert a + b == a;
    } else {
      var init := b[..|b| - 1];
      assert (a + b)[..|a + b| - 1] == a + init;
      KeepActiveDistributes(a, init);
    }
  }

  /** The laser list after `update`'s `forEach` and filter. */
  function UpdatedLasers(ls: seq<Laser>, deltaTime: real): (r: seq<Laser>)
    ensures |r| <= |ls|
    ensures forall l :: l in r ==> l.active
  {
    KeepActive(StepAll(ls, deltaTime))
  }

  /** The beams that `update` keeps: those still active whose firing height is not above the top edge. */
  function Survivors(ls: seq<Laser>): (r: seq<Laser>)
    ensures |r| <= |ls|
  {
    if ls == [] then []
    else
      var last := ls[|ls| - 1];
      Survivors(ls[..|ls| - 1]) + (if last.active && last.Tip() >= 0.0 then [last] else [])
  }

  /**
   * `update` keeps exactly the surviving beams, in order, each with the same x and the
   * same firing height; a beam fired at or below the top edge is therefore never removed.
   */
  lemma {:induction false} UpdateKeepsSurvivors(ls: seq<Laser>, deltaTime: real)
    ensures |UpdatedLasers(ls, deltaTime)| == |Survivors(ls)|
    ensures forall i :: 0 <= i < |Survivors(ls)| ==>
              UpdatedLasers(ls, deltaTime)[i].x == Survivors(ls)[i].x &&
              UpdatedLasers(ls, deltaTime)[i].Tip() == Survivors(ls)[i].Tip()
  {
    if ls != [] {
      var init := ls[..|ls| - 1];
      UpdateKeepsSurvivors(init, deltaTime);
      assert StepAll(ls, deltaTime)[..|ls| - 1] == StepAll(init, deltaTime);
    }
  }

  /** With every beam active and fired at or below the top edge, `update` drops none of them. */
  lemma {:induction false} LasersNeverExpire(ls: seq<Laser>, deltaTime: real)
    requires forall i :: 0 <= i < |ls| ==> ls[i].active && ls[i].Tip() >= 0.0
    ensures Survivors(ls) == ls
    ensures |UpdatedLasers(ls, deltaTime)| == |ls|
  {
    AllSurvive(ls);
    UpdateKeepsSurvivors(ls, deltaTime);
  }

  lemma {:induction false} AllSurvive(ls: seq<Laser>)
    requires forall i :: 0 <= i < |ls| ==> ls[i].active && ls[i].Tip() >= 0.0
    ensures Survivors(ls) == ls
  {
    if ls != [] {
      var init := ls[..|ls| - 1];
      assert forall i :: 0 <= i < |init| ==> init[i] == ls[i];
      AllSurvive(init);
      assert ls == init + [ls[|ls| - 1]];
    }
  }

  /** `update(deltaTime)`: inertia first, then the laser list. */
  function PlayerUpdate(p: PlayerState, deltaTime: real, gameWidth: real): (r: PlayerState)
    ensures r == Inertia(p, gameWidth).(lasers := UpdatedLasers(p.lasers, deltaTime))
  {
    Inertia(p, gameWidth).(lasers := UpdatedLasers(p.lasers, deltaTime))
  }

  /** `resize`: re-derive `y` from the new height and clamp only the right edge. */
  function ResizePaddle(p: PlayerState, gameWidth: real, gameHeight: real): (r: PlayerState)
    ensures r.y + PaddleHeight + BottomMargin == gameHeight
    ensures r.x <= p.x && r.x + r.width <= gameWidth
    ensures p.x + p.width <= gameWidth ==> r.x == p.x
    ensures r == p.(x := r.x, y := r.y)
  {
    p.(y := gameHeight - PaddleHeight - BottomMargin,
       x := if p.x + p.width > gameWidth then gameWidth - p.width else p.x)
  }

  /** Once five or more beams exist and none leaves the screen, no later shot fires. */
  lemma FiringStaysRefused(p: PlayerState, deltaTime: real, gameWidth: real)
    requires |p.lasers| >= MaxLasers
    requires forall i :: 0 <= i < |p.lasers| ==> p.lasers[i].active && p.lasers[i].Tip() >= 0.0
    ensures |PlayerUpdate(p, deltaTime, gameWidth).lasers| >= MaxLasers
    ensures !Shoot(PlayerUpdate(p, deltaTime, gameWidth)).fired
  {
    LasersNeverExpire(p.lasers, deltaTime);
  }

  class Player {
    var x: real
    var y: real
    var width: real
    var speed: real
    var laserEnabled: bool
    var lasers: seq<Laser>
    var originalWidth: Option<real>
    var hasLaser: bool
    var laserWidth: Option<real>
    var laserDamage: Option<int>

    function State(): PlayerState
      reads this
    {
      PlayerState(x, y, width, speed, laserEnabled, lasers, originalWidth, hasLaser, laserWidth, laserDamage)
    }

    constructor (gameWidth: real, gameHeight: real)
      ensures State() == InitialPlayer(gameWidth, gameHeight)
    {
      width := PaddleWidth;
      speed := 0.0;
      laserEnabled := false;
      lasers := [];
      originalWidth := None;
      hasLaser := false;
      laserWidth := None;
      laserDamage := None;
      new;
      Reset(gameWidth, gameHeight);
    }

    method Reset(gameWidth: real, gameHeight: real)
      modifies this
      ensures State() == ResetPaddle(old(State()), gameWidth, gameHeight)
    {
      x := gameWidth / 2.0 - width / 2.0;
      y := gameHeight - PaddleHeight - BottomMargin;
      speed := 0.0;
      lasers := [];
    }

    method Move(direction: real)
      modifies this
      ensures State() == Steer(old(State()), direction)
    {
      speed := direction * MaxSpeed;
    }

    method MoveLeft()
      modifies this
      ensures State() == Steer(old(State()), -1.0)
    {
      Move(-1.0);
    }

    method MoveRight()
      modifies this
      ensures State() == Steer(old(State()), 1.0)
    {
      Move(1.0);
    }

    method HandleTouch(scaledX: Option<real>, gameWidth: real)
      modifies this
      ensures State() == Touch(old(State()), scaledX, gameWidth)
    {
      if scaledX.None? {
        return;
      }
      var targetX := scaledX.value - width / 2.0;
      x := x + (targetX - x) * Smoothing;
      if x < 0.0 {
        x := 0.0;
      }
      if x + width > gameWidth {
        x := gameWidth - width;
      }
    }

    method ApplySwipeInertia(gameWidth: real)
      modifies this
      ensures State() == Inertia(old(State()), gameWidth)
    {
      if Abs(speed) > RestSpeed {
        x := x + speed;
        speed := speed * Damping;
      } else {
        speed := 0.0;
      }
      if x < 0.0 {
        x := 0.0;
        speed := 0.0;
      }
      if x + width > gameWidth {
        x := gameWidth - width;
        speed := 0.0;
      }
    }

    method FireLaser() returns (fired: bool)
      modifies this
      ensures Firing(State(), fired) == Shoot(old(State()))
    {
      if !laserEnabled {
        return false;
      }
      if |lasers| >= MaxLasers {
        return false;
      }
      var leftLaser := Laser(x + width * 0.2, y, BeamWidth, 0.0, BeamSpeed, true);
      var rightLaser := Laser(x + width * 0.8, y, BeamWidth, 0.0, BeamSpeed, true);
      lasers := lasers + [leftLaser, rightLaser];
      return true;
    }

    method Upgrade(kind: string, gameWidth: real) returns (ok: bool)
      modifies this
      ensures ok
      ensures State() == Upgraded(old(State()), kind, gameWidth)
    {
      if kind == "expand" {
        var oldWidth := width;
        width := Min(width * 1.5, gameWidth * 0.5);
        x := x - (width - oldWidth) / 2.0;
      } else if kind == "laser" {
        laserEnabled := true;
      }
      ghost var upgraded := State();
      assert Upgraded(old(State()), kind, gameWidth) == upgraded.(x := ClampToField(upgraded.x, upgraded.width, gameWidth));
      if x < 0.0 {
        x := 0.0;
      }
      if x + width > gameWidth {
        x := gameWidth - width;
      }
      return true;
    }

    method Update(deltaTime: real, gameWidth: real)
      modifies this
      ensures State() == PlayerUpdate(old(State()), deltaTime, gameWidth)
    {
      ApplySwipeInertia(gameWidth);
      UpdateLasers(deltaTime);
    }

    /** The `forEach` over the beams, then the filter reassignment. */
    method UpdateLasers(deltaTime: real)
      modifies this
      ensures State() == old(State()).(lasers := UpdatedLasers(old(lasers), deltaTime))
    {
      StepLasers(deltaTime);
      DropInactive();
    }

    /** The `forEach`: each active beam takes its step, in place. */
    method StepLasers(deltaTime: real)
      modifies this
      ensures State() == old(State()).(lasers := StepAll(old(lasers), deltaTime))
    {
      ghost var before := lasers;
      var i := 0;
      while i < |lasers|
        invariant 0 <= i <= |lasers| == |before|
        invariant forall k :: 0 <= k < i ==> lasers[k] == StepLaser(before[k], deltaTime)
        invariant forall k :: i <= k < |lasers| ==> lasers[k] == before[k]
        invariant State() == old(State()).(lasers := lasers)
      {
        var laser := lasers[i];
        if laser.active {
          var d := laser.speed * (deltaTime / FrameMs);
          laser := laser.(y := laser.y - d, height := laser.height + d);
          if laser.y + laser.height < 0.0 {
            laser := laser.(active := false);
          }
        }
        assert laser == StepLaser(before[i], deltaTime);
        lasers := lasers[i := laser];
        i := i + 1;
      }
      assert lasers == StepAll(before, deltaTime);
    }

    /** `lasers = lasers.filter(laser => laser.active)`. */
    method DropInactive()
      modifies this
      ensures State() == old(State()).(lasers := KeepActive(old(lasers)))
    {
      var kept: seq<Laser> := [];
      var j := 0;
      while j < |lasers|
        invariant 0 <= j <= |lasers|
        invariant kept == KeepActive(lasers[..j])
        invariant State() == old(State())
      {
        assert lasers[..j + 1][..j] == lasers[..j];
        if lasers[j].active {
          kept := kept + [lasers[j]];
        }
        j := j + 1;
      }
      assert lasers[..j] == lasers;
      lasers := kept;
    }

    method Resize(gameWidth: real, gameHeight: real)
      modifies this
      ensures State() == ResizePaddle(old(State()), gameWidth, gameHeight)
    {
      y := gameHeight - PaddleHeight - BottomMargin;
      if x + width > gameWidth {
        x := gameWidth - width;
      }
    }
  }
}
