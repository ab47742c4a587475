/**
 * The game object: the four-state machine (START, PLAYING, PAUSED, GAMEOVER), the frame
 * loop with its delta-time clamp, the per-frame update order, the collision and scoring
 * pass over the current level's bricks, and the pointer and keyboard handlers.
 */
module Game {
  import opened Common
  import Kinematics
  import Paddle
  import Levels
  import Scoring
  import PowerupTypes
  import Powerups

  /** `this.states`. */
  datatype GameState = Start | Playing | Paused | GameOver
  {
    function Code(): int
    {
      match this
      case Start => 0
      case Playing => 1
      case Paused => 2
      case GameOver => 3
    }
  }

  /** The events that assign `currentState`. */
  datatype Event =
    | OnStart       // `startGame` (also behind `restartGame`)
    | OnPause       // `pauseGame`
    | OnToggle      // `togglePause`: the Escape key and the resume button
    | OnClick       // a click on the canvas
    | OnBallLost    // `handleBallLost`
    | OnAllCleared  // `levelManager.update` with no level after the current one
    | OnMainMenu    // the main-menu button

  /** The state after an event. */
  function Next(s: GameState, e: Event): (r: GameState)
    ensures e == OnBallLost || e == OnAllCleared ==> r == GameOver
    ensures r == GameOver ==> s == GameOver || e == OnBallLost || e == OnAllCleared
    ensures r == Playing ==> s == Playing || e == OnStart || e == OnToggle
    ensures e == OnMainMenu ==> r == Start
  {
    match e
    case OnStart => Playing
    case OnPause => if s == Playing then Paused else s
    case OnToggle => if s == Playing then Paused else if s == Paused then Playing else s
    case OnClick => if s == GameOver then Start else s
    case OnBallLost => GameOver
    case OnAllCleared => GameOver
    case OnMainMenu => Start
  }

  /** `pauseGame` only leaves PLAYING, `togglePause` swaps PLAYING and PAUSED, and a click leaves only GAMEOVER. */
  lemma TransitionTable(s: GameState)
    ensures Next(s, OnPause) == Paused <==> s == Playing || s == Paused
    ensures s != Playing ==> Next(s, OnPause) == s
    ensures Next(Next(s, OnToggle), OnToggle) == s
    ensures s != Playing && s != Paused ==> Next(s, OnToggle) == s
    ensures Next(s, OnClick) == Start <==> s == GameOver || s == Start
    ensures Next(s, OnClick) != Playing || s == Playing
  {
  }

  /** PLAYING is entered only by starting a game or by resuming a paused one. */
  lemma PlayingIsEnteredByStartOrResume(s: GameState, e: Event)
    requires s != Playing && Next(s, e) == Playing
    ensures e == OnStart || (e == OnToggle && s == Paused)
  {
  }

  /** GAMEOVER is entered only by losing the ball or clearing the last level, and left only by a click, a start or the menu. */
  lemma GameOverEntryAndExit(s: GameState, e: Event)
    ensures s != GameOver && Next(s, e) == GameOver ==> e == OnBallLost || e == OnAllCleared
    ensures s == GameOver && Next(s, e) != GameOver ==> e == OnClick || e == OnStart || e == OnMainMenu
  {
  }

  /** `timestamp || performance.now()`: a zero timestamp falls back to the clock. */
  function FrameTime(timestamp: real, clock: real): (now: real)
    ensures timestamp != 0.0 ==> now == timestamp
    ensures timestamp == 0.0 ==> now == clock
  {
    if timestamp != 0.0 then timestamp else clock
  }

  /** `now - (lastTime || now)`, replaced by one nominal frame when above 100 ms. */
  function FrameDelta(now: real, lastTime: real): (delta: real)
    ensures delta <= 100.0
    ensures lastTime == 0.0 ==> delta == 0.0
    ensures lastTime != 0.0 && now - lastTime <= 100.0 ==> delta == now - lastTime
    ensures lastTime != 0.0 && now - lastTime > 100.0 ==> delta == FrameMs
  {
    var raw := now - (if lastTime != 0.0 then lastTime else now);
    if raw > 100.0 then FrameMs else raw
  }

  /** A frame after a long stall moves the ball as one nominal frame does: by its velocity exactly. */
  lemma StallMovesOneFrame(s: Kinematics.BallState, now: real, lastTime: real)
    requires lastTime != 0.0 && now - lastTime > 100.0
    ensures Kinematics.Moved(s, FrameDelta(now, lastTime)) == Kinematics.Point(s.x + s.dx, s.y + s.dy)
  {
  }

  /** `handleMouseMove` in PLAYING: centre the paddle on the pointer, then clamp left and then right. */
  function PointerX(mouseX: real, width: real, gameWidth: real): (x: real)
    ensures 0.0 <= gameWidth - width ==> 0.0 <= x <= gameWidth - width
    ensures 0.0 <= mouseX - width / 2.0 <= gameWidth - width ==> x == mouseX - width / 2.0
    ensures gameWidth - width < 0.0 ==> x == gameWidth - width
  {
    ClampToField(mouseX - width / 2.0, width, gameWidth)
  }

  /** `resize`: the field is at most 600 wide, 40 narrower than the window, and 80% of its height. */
  function FieldSize(innerWidth: real, innerHeight: real): (r: (real, real))
    ensures r.0 <= 600.0 && r.0 <= innerWidth - 40.0 && (r.0 == 600.0 || r.0 == innerWidth - 40.0)
    ensures r.1 == innerHeight * 0.8
  {
    (Min(innerWidth - 40.0, 600.0), innerHeight * 0.8)
  }

  // ------------------------------------------------------------------
  // The collision pass
  // ------------------------------------------------------------------

  /** What `checkCollisions` changes besides the bricks: the ball, the score state, the daily challenge and the pickups it spawns. */
  datatype Pass = Pass(
    ball: Kinematics.BallState, scores: Scoring.ScoreState, daily: Scoring.DailyState,
    spawned: seq<Powerups.Pickup>)

  datatype BrickResult = BrickResult(pass: Pass, brick: Levels.Brick)

  datatype PassResult = PassResult(pass: Pass, bricks: seq<Levels.Brick>)

  /** `health -= 1`, and the brick goes out once its health is no longer positive. */
  function Strike(b: Levels.Brick): (r: Levels.Brick)
    ensures r.health == b.health - 1
    ensures r.active <==> b.active && b.health > 1
    ensures r == b.(health := r.health, active := r.active)
  {
    var hit := b.(health := b.health - 1);
    if hit.health <= 0 then hit.(active := false) else hit
  }

  /** `n` strikes in a row. */
  function Strikes(b: Levels.Brick, n: nat): Levels.Brick
  {
    if n == 0 then b else Strike(Strikes(b, n - 1))
  }

  /** A brick with health `h` survives `h - 1` strikes and goes out on the `h`-th. */
  lemma {:induction false} BrickTakesHealthStrikes(b: Levels.Brick, n: nat)
    requires b.active && 0 < b.health && n <= b.health
    ensures Strikes(b, n).health == b.health - n
    ensures Strikes(b, n).active <==> n < b.health
    ensures Strikes(b, n) == b.(health := b.health - n, active := n < b.health)
  {
    if n > 0 {
      BrickTakesHealthStrikes(b, n - 1);
    }
  }

  /** A steel brick (health 3) takes three strikes. */
  lemma SteelTakesThree(b: Levels.Brick)
    requires b.active && b.kind == Levels.Steel && b.health == 3
    ensures Strikes(b, 2).active && !Strikes(b, 3).active
  {
    BrickTakesHealthStrikes(b, 2);
    BrickTakesHealthStrikes(b, 3);
  }

  /** `recordBrickBreak`: the daily challenge counts one brick, paying its reward into the coins. */
  function Broken(p: Pass): (r: Pass)
    ensures var progress := Scoring.ProgressStep(p.daily, "bricks", 1.0);
            r.daily == progress.daily && r.scores.coins == p.scores.coins + progress.reward
    ensures r == p.(daily := r.daily, scores := p.scores.(coins := r.scores.coins))
  {
    var progress := Scoring.ProgressStep(p.daily, "bricks", 1.0);
    p.(daily := progress.daily, scores := p.scores.(coins := p.scores.coins + progress.reward))
  }

  /** `addScore(10)`: the scoring step, then the daily challenge counts the ten points. */
  function Scored(p: Pass): (r: Pass)
    ensures r.scores.combo == p.scores.combo + 1
    ensures r.scores.totalScore == p.scores.totalScore + (10.0 + (p.scores.combo / 5) as real) * p.scores.multiplier
    ensures r.daily == Scoring.ProgressStep(p.daily, "score", 10.0).daily
    ensures r.ball == p.ball && r.spawned == p.spawned
  {
    var hit := Scoring.ScoreHit(p.scores, 10.0);
    var progress := Scoring.ProgressStep(p.daily, "score", 10.0);
    p.(scores := hit.(coins := hit.coins + progress.reward), daily := progress.daily)
  }

  /** Whether the ball hits this brick: both active and overlapping; percentage geometry never overlaps. */
  predicate Hits(ball: Kinematics.BallState, b: Levels.Brick)
    ensures Hits(ball, b) ==> b.active && ball.active && b.x.Num? && b.width.Num?
  {
    b.active && ball.active && Kinematics.Collides(ball.x, ball.y, ball.size, Some(b.Target()))
  }

  /** Whether a struck brick spawns a pickup: a power-up brick that went out and carries a power-up. */
  predicate Spawns(struck: Levels.Brick)
    ensures Spawns(struck) ==> struck.kind == Levels.PowerupBrick && struck.powerup.Some? && !struck.active
  {
    struck.kind.PowerupBrick? && !struck.active && struck.powerup.Some?
  }

  /**
   * One brick of the `forEach`: a hit strikes it, a brick that went out is recorded, the ball
   * bounces, ten points are scored whether or not the brick went out, and a spawning brick
   * drops its power-up at its own position.
   */
  function BrickStep(p: Pass, b: Levels.Brick): (r: BrickResult)
    ensures !Hits(p.ball, b) ==> r == BrickResult(p, b)
    ensures Hits(p.ball, b) ==> r.brick == Strike(b) && r.pass.scores.combo == p.scores.combo + 1
    ensures Hits(p.ball, b) ==> r.pass.ball == Kinematics.BrickBounce(p.ball, b.y, b.height)
    ensures Hits(p.ball, b) && Spawns(r.brick) ==>
              r.pass.spawned == p.spawned + [Powerups.NewPickup(b.x, b.y, Powerups.FromBrick(b.powerup.value))]
    ensures !(Hits(p.ball, b) && Spawns(r.brick)) ==> r.pass.spawned == p.spawned
  {
    if !Hits(p.ball, b) then BrickResult(p, b)
    else
      var struck := Strike(b);
      var recorded := if !struck.active then Broken(p) else p;
      var bounced := recorded.(ball := Kinematics.BrickBounce(recorded.ball, struck.y, struck.height));
      var scored := Scored(bounced);
      var spawned :=
        if Spawns(struck) then scored.(spawned := scored.spawned + [Powerups.NewPickup(struck.x, struck.y, Powerups.FromBrick(struck.powerup.value))])
        else scored;
      BrickResult(spawned, struck)
  }

  /** The brick loop of `checkCollisions`, in the level's order; later bricks see the ball as earlier hits left it. */
  function BrickPass(p: Pass, bricks: seq<Levels.Brick>): (r: PassResult)
    ensures |r.bricks| == |bricks|
    decreases |bricks|
  {
    if bricks == [] then PassResult(p, [])
    else
      var step := BrickStep(p, bricks[0]);
      var rest := BrickPass(step.pass, bricks[1..]);
      PassResult(rest.pass, [step.brick] + rest.bricks)
  }

  /** The paddle test of `checkCollisions`: an active ball touching the paddle bounces, then the combo grows. */
  function PaddleStep(p: Pass, paddle: Rect, sin: real -> real, cos: real -> real): (r: Pass)
    requires paddle.width != 0.0
    ensures p.ball.active && Kinematics.Collides(p.ball.x, p.ball.y, p.ball.size, Some(paddle.AsShape())) ==>
              r == p.(ball := Kinematics.PaddleBounce(p.ball, paddle, sin, cos), scores := Scoring.ComboStep(p.scores))
    ensures !(p.ball.active && Kinematics.Collides(p.ball.x, p.ball.y, p.ball.size, Some(paddle.AsShape()))) ==> r == p
  {
    if p.ball.active && Kinematics.Collides(p.ball.x, p.ball.y, p.ball.size, Some(paddle.AsShape())) then
      p.(ball := Kinematics.PaddleBounce(p.ball, paddle, sin, cos), scores := Scoring.ComboStep(p.scores))
    else p
  }

  /** Each brick is left alone or struck exactly once (and only an active one); the ball keeps its position and activity; spawns are only appended. */
  lemma {:induction false} PassStrikesEachBrickAtMostOnce(p: Pass, bricks: seq<Levels.Brick>)
    ensures var r := BrickPass(p, bricks);
            (forall i :: 0 <= i < |bricks| ==>
               r.bricks[i] == bricks[i] || (bricks[i].active && r.bricks[i] == Strike(bricks[i]))) &&
            r.pass.ball.x == p.ball.x && r.pass.ball.y == p.ball.y && r.pass.ball.active == p.ball.active &&
            r.pass.ball.size == p.ball.size &&
            |p.spawned| <= |r.pass.spawned| && r.pass.spawned[..|p.spawned|] == p.spawned
    decreases |bricks|
  {
    if bricks != [] {
      var step := BrickStep(p, bricks[0]);
      PassStrikesEachBrickAtMostOnce(step.pass, bricks[1..]);
      var rest := BrickPass(step.pass, bricks[1..]);
      assert step.pass.spawned[..|p.spawned|] == p.spawned;
      assert rest.pass.spawned[..|p.spawned|] == rest.pass.spawned[..|step.pass.spawned|][..|p.spawned|];
      forall i | 0 <= i < |bricks|
        ensures BrickPass(p, bricks).bricks[i] == bricks[i] || (bricks[i].active && BrickPass(p, bricks).bricks[i] == Strike(bricks[i]))
      {
        if i > 0 {
          assert BrickPass(p, bricks).bricks[i] == rest.bricks[i - 1];
          assert bricks[1..][i - 1] == bricks[i];
        }
      }
    }
  }

  /** Number of bricks whose health the pass lowered. */
  function StruckCount(before: seq<Levels.Brick>, after: seq<Levels.Brick>): nat
    requires |before| == |after|
    decreases |before|
  {
    if before == [] then 0
    else (if after[0].health < before[0].health then 1 else 0) + StruckCount(before[1..], after[1..])
  }

  /** Every strike adds exactly one to the combo: the pass's combo gain is the number of struck bricks. */
  lemma {:induction false} ComboCountsStrikes(p: Pass, bricks: seq<Levels.Brick>)
    ensures BrickPass(p, bricks).pass.scores.combo == p.scores.combo + StruckCount(bricks, BrickPass(p, bricks).bricks)
    decreases |bricks|
  {
    if bricks != [] {
      var step := BrickStep(p, bricks[0]);
      ComboCountsStrikes(step.pass, bricks[1..]);
      var r := BrickPass(p, bricks);
      assert r.bricks[1..] == BrickPass(step.pass, bricks[1..]).bricks;
    }
  }

  /** A lost ball strikes nothing: the pass then changes nothing at all. */
  lemma {:induction false} InactiveBallStrikesNothing(p: Pass, bricks: seq<Levels.Brick>)
    requires !p.ball.active
    ensures BrickPass(p, bricks) == PassResult(p, bricks)
    decreases |bricks|
  {
    if bricks != [] {
      InactiveBallStrikesNothing(p, bricks[1..]);
      assert [bricks[0]] + bricks[1..] == bricks;
    }
  }

  /** Pointwise fewer active bricks means no more active bricks in all. */
  lemma {:induction false} ActiveCountMonotone(after: seq<Levels.Brick>, before: seq<Levels.Brick>)
    requires |after| == |before|
    requires forall i :: 0 <= i < |after| && after[i].active ==> before[i].active
    ensures Levels.ActiveCount(after) <= Levels.ActiveCount(before)
    decreases |after|
  {
    if after != [] {
      var n := |after| - 1;
      ActiveCountMonotone(after[..n], before[..n]);
    }
  }

  /** The pass never brings a brick back, so the count `levelManager.update` tests never grows. */
  lemma PassNeverRevives(p: Pass, bricks: seq<Levels.Brick>)
    ensures Levels.ActiveCount(BrickPass(p, bricks).bricks) <= Levels.ActiveCount(bricks)
  {
    PassStrikesEachBrickAtMostOnce(p, bricks);
    ActiveCountMonotone(BrickPass(p, bricks).bricks, bricks);
  }

  /** One more brick of the loop of `checkCollisions`: what is done grows by the stepped brick and the rest of the pass is unchanged. */
  lemma PassLoopStep(cur: Pass, bricks: seq<Levels.Brick>, i: nat, done: seq<Levels.Brick>, final: PassResult)
    requires i < |bricks| && |done| == i
    requires BrickPass(cur, bricks[i..]).pass == final.pass && done + BrickPass(cur, bricks[i..]).bricks == final.bricks
    ensures var step := BrickStep(cur, bricks[i]);
            BrickPass(step.pass, bricks[i + 1..]).pass == final.pass &&
            (done + [step.brick]) + BrickPass(step.pass, bricks[i + 1..]).bricks == final.bricks &&
            (done + bricks[i..])[i := step.brick] == (done + [step.brick]) + bricks[i + 1..]
  {
    assert bricks[i..][1..] == bricks[i + 1..];
    var step := BrickStep(cur, bricks[i]);
    var rest := BrickPass(step.pass, bricks[i + 1..]).bricks;
    assert done + ([step.brick] + rest) == (done + [step.brick]) + rest;
  }

  datatype LevelView = LevelView(number: int, bricks: seq<Levels.Brick>)

  datatype BossView = BossView(pos: Levels.BossPos, moveSpeed: real)

  /**
   * Everything one frame reads and writes: the game state, the ball, the paddle, the power-up
   * manager, the scores, the daily challenge, the current level (if any), the level-change
   * timers and the boss (if any).
   */
  datatype World = World(
    state: GameState, ball: Kinematics.BallState, player: Paddle.PlayerState, manager: Powerups.ManagerState,
    scores: Scoring.ScoreState, daily: Scoring.DailyState, level: Option<LevelView>,
    pendingLoads: map<Handle, int>, nextHandle: Handle, boss: Option<BossView>)

  /** The first two calls of `update`: the paddle, then the ball, whose loss ends the game. */
  function MovedWorld(w: World, dt: real, gameWidth: real, gameHeight: real): (r: World)
    ensures r.player == Paddle.PlayerUpdate(w.player, dt, gameWidth)
    ensures r.ball == Kinematics.Advance(w.ball, dt, gameWidth, gameHeight).ball
    ensures r.state == if Kinematics.Advance(w.ball, dt, gameWidth, gameHeight).lost then Next(w.state, OnBallLost) else w.state
  {
    var moved := Kinematics.Advance(w.ball, dt, gameWidth, gameHeight);
    w.(player := Paddle.PlayerUpdate(w.player, dt, gameWidth), ball := moved.ball,
       state := if moved.lost then GameOver else w.state)
  }

  /** The power-up manager's `update`: the pickups step against the paddle as it now is, and the inactive ones go. */
  function FallenPickups(w: World, dt: real, gameHeight: real): (r: seq<Powerups.Pickup>)
    ensures |r| <= |w.manager.powerups|
    ensures forall q :: q in r ==> q.active
  {
    Powerups.ActiveOnly(Powerups.StepPickups(w.manager.powerups, dt, gameHeight, w.player.Bounds()))
  }

  /** What the level manager's `update` decides for this world. */
  function Completion(w: World): (c: Levels.Completion)
    ensures w.level.None? ==> c == Levels.InProgress
    ensures w.level.Some? ==> c == Levels.CompletionRule([1, 2, 5], w.level.value.number, Levels.ActiveCount(w.level.value.bricks))
  {
    match w.level
    case None => Levels.InProgress
    case Some(l) => Levels.CompletionRule([1, 2, 5], l.number, Levels.ActiveCount(l.bricks))
  }

  /** The level manager's `update` with the game's reaction: victory ends the game, a clear with a successor arms its load, and the boss steps. */
  function LevelStep(w: World): (r: World)
    ensures r == w.(state := r.state, pendingLoads := r.pendingLoads, nextHandle := r.nextHandle, boss := r.boss)
    ensures r.state == (if Completion(w) == Levels.Victory then GameOver else w.state)
    ensures Completion(w).NextLevel? ==>
              r.pendingLoads == w.pendingLoads[w.nextHandle := Completion(w).number] && r.nextHandle == w.nextHandle + 1
    ensures !Completion(w).NextLevel? ==> r.pendingLoads == w.pendingLoads && r.nextHandle == w.nextHandle
  {
    match Completion(w)
    case InProgress => w.(boss := BossMoved(w))
    case NextLevel(n) => w.(pendingLoads := w.pendingLoads[w.nextHandle := n], nextHandle := w.nextHandle + 1, boss := BossMoved(w))
    case Victory => w.(state := Next(w.state, OnAllCleared), boss := BossMoved(w))
  }

  /** `LevelStep` from the facts the level manager's `update` establishes. */
  lemma LevelStepOf(w: World, c: Levels.Completion, loads: map<Handle, int>, next: Handle, state: GameState)
    requires c == Completion(w)
    requires c.NextLevel? ==> loads == w.pendingLoads[w.nextHandle := c.number] && next == w.nextHandle + 1
    requires !c.NextLevel? ==> loads == w.pendingLoads && next == w.nextHandle
    requires state == if c == Levels.Victory then GameOver else w.state
    ensures LevelStep(w) == w.(state := state, pendingLoads := loads, nextHandle := next, boss := BossMoved(w))
  {
  }

  /** The boss steps only while a level is current. */
  function BossMoved(w: World): (r: Option<BossView>)
    ensures r.Some? <==> w.boss.Some?
    ensures w.level.None? ==> r == w.boss
    ensures r.Some? ==> r.value.moveSpeed == w.boss.value.moveSpeed
  {
    if w.level.Some? && w.boss.Some? then
      Some(w.boss.value.(pos := Levels.BossStep(w.boss.value.pos, w.boss.value.moveSpeed)))
    else w.boss
  }

  /** `checkCollisions` on a world: nothing without a level, otherwise the paddle test and the brick pass. */
  function Collided(w: World, sin: real -> real, cos: real -> real): (r: World)
    requires w.player.width != 0.0
    ensures w.level.None? ==> r == w
    ensures r.state == w.state && r.player == w.player && r.boss == w.boss
    ensures r.pendingLoads == w.pendingLoads && r.nextHandle == w.nextHandle
    ensures w.level.Some? ==> r.level.Some? && r.level.value.number == w.level.value.number &&
                              |r.level.value.bricks| == |w.level.value.bricks|
    ensures |w.manager.powerups| <= |r.manager.powerups| && r.manager.powerups[..|w.manager.powerups|] == w.manager.powerups
  {
    match w.level
    case None => w
    case Some(l) =>
      var result := BrickPass(PaddleStep(Pass(w.ball, w.scores, w.daily, []), w.player.Bounds(), sin, cos), l.bricks);
      w.(ball := result.pass.ball, scores := result.pass.scores, daily := result.pass.daily,
         level := Some(l.(bricks := result.bricks)),
         manager := w.manager.(powerups := w.manager.powerups + result.pass.spawned))
  }

  /** The world after the power-up manager's `update`. */
  function Fallen(w: World, dt: real, gameHeight: real): (r: World)
    ensures r == w.(manager := w.manager.(powerups := r.manager.powerups))
    ensures |r.manager.powerups| <= |w.manager.powerups|
  {
    w.(manager := w.manager.(powerups := FallenPickups(w, dt, gameHeight)))
  }

  /** One frame of `update`, in the source's order: paddle, ball, pickups, level, collisions. */
  function FrameStep(w: World, dt: real, sin: real -> real, cos: real -> real, gameWidth: real, gameHeight: real): (r: World)
    requires w.player.width > 0.0
    ensures r.level.Some? <==> w.level.Some?
    ensures w.level.Some? ==> r.level.value.number == w.level.value.number
    ensures r.nextHandle >= w.nextHandle
  {
    Collided(LevelStep(Fallen(MovedWorld(w, dt, gameWidth, gameHeight), dt, gameHeight)), sin, cos)
  }

  /**
   * A frame ends the game exactly when the ball is lost or the level, as it was when the frame
   * began, was cleared with no level after it; otherwise the state is kept.
   */
  lemma FrameState(w: World, dt: real, sin: real -> real, cos: real -> real, gameWidth: real, gameHeight: real)
    requires w.player.width > 0.0
    ensures var r := FrameStep(w, dt, sin, cos, gameWidth, gameHeight);
            r.state == (if Kinematics.Advance(w.ball, dt, gameWidth, gameHeight).lost || Completion(w) == Levels.Victory
                        then GameOver else w.state)
    ensures FrameStep(w, dt, sin, cos, gameWidth, gameHeight).player == Paddle.PlayerUpdate(w.player, dt, gameWidth)
  {
    var moved := MovedWorld(w, dt, gameWidth, gameHeight);
    assert Completion(moved) == Completion(w);
  }

  /**
   * Breaking the last brick does not end the game in the same frame: completion is judged
   * before the collision pass, so the level is found cleared one frame later.
   */
  lemma ClearingIsSeenNextFrame(w: World, dt: real, sin: real -> real, cos: real -> real, gameWidth: real, gameHeight: real)
    requires w.player.width > 0.0 && w.level.Some? && Levels.ActiveCount(w.level.value.bricks) > 0
    requires !Kinematics.Advance(w.ball, dt, gameWidth, gameHeight).lost
    ensures FrameStep(w, dt, sin, cos, gameWidth, gameHeight).state == w.state
    ensures FrameStep(w, dt, sin, cos, gameWidth, gameHeight).pendingLoads == w.pendingLoads
  {
    FrameState(w, dt, sin, cos, gameWidth, gameHeight);
  }

  /** In the frame that loses the ball nothing is struck and nothing is scored. */
  lemma LosingFrameScoresNothing(w: World, dt: real, sin: real -> real, cos: real -> real, gameWidth: real, gameHeight: real)
    requires w.player.width > 0.0 && Kinematics.Advance(w.ball, dt, gameWidth, gameHeight).lost
    ensures var r := FrameStep(w, dt, sin, cos, gameWidth, gameHeight);
            r.state == GameOver && r.scores == w.scores && r.daily == w.daily && r.level == w.level &&
            !r.ball.active
  {
    var moved := MovedWorld(w, dt, gameWidth, gameHeight);
    var ball := Kinematics.Advance(w.ball, dt, gameWidth, gameHeight).ball;
    var fallen := Fallen(moved, dt, gameHeight);
    var leveled := LevelStep(fallen);
    if w.level.Some? {
      var start := PaddleStep(Pass(ball, w.scores, w.daily, []), leveled.player.Bounds(), sin, cos);
      InactiveBallStrikesNothing(start, w.level.value.bricks);
      assert leveled.level == w.level;
    }
    FrameState(w, dt, sin, cos, gameWidth, gameHeight);
  }

  /** A frame never brings a brick back. */
  lemma FrameNeverRevives(w: World, dt: real, sin: real -> real, cos: real -> real, gameWidth: real, gameHeight: real)
    requires w.player.width > 0.0 && w.level.Some?
    ensures var r := FrameStep(w, dt, sin, cos, gameWidth, gameHeight);
            r.level.Some? && r.level.value.number == w.level.value.number &&
            Levels.ActiveCount(r.level.value.bricks) <= Levels.ActiveCount(w.level.value.bricks)
  {
    var moved := MovedWorld(w, dt, gameWidth, gameHeight);
    var fallen := Fallen(moved, dt, gameHeight);
    var leveled := LevelStep(fallen);
    assert leveled.level == w.level;
    var start := PaddleStep(Pass(leveled.ball, leveled.scores, leveled.daily, []), leveled.player.Bounds(), sin, cos);
    PassNeverRevives(start, w.level.value.bricks);
  }

  /** Regrouping a concatenation; stated once so the brick loop's invariant stays cheap to re-establish. */
  lemma Concat3<T>(a: seq<T>, b: seq<T>, c: seq<T>)
    ensures a + (b + c) == (a + b) + c
  {
  }

  /** The keys the `keydown` handler reacts to; the debug keys are not modelled. */
  datatype Key = ArrowLeft | ArrowRight | Escape | OtherKey

  /** The game object with its collaborators. */
  class Game {
    const ball: Kinematics.Ball
    const player: Paddle.Player
    const levelManager: Levels.LevelManager
    const powerupManager: Powerups.PowerupManager
    const scoreSystem: Scoring.ScoreSystem
    var currentState: GameState
    var gameWidth: real
    var gameHeight: real
    var deltaTime: real
    var lastTime: real

    /** The ball's trail bound, the level manager's invariant, the shipped level numbers and a positive paddle width. */
    ghost predicate Valid()
      reads this, ball, player, levelManager
    {
      ball.Valid() && levelManager.Valid() && Levels.NumbersOf(levelManager.levels) == [1, 2, 5] && player.width > 0.0
    }

    constructor (gameWidth: real, gameHeight: real, choose: (nat, nat, nat) -> Levels.PowerupKind, seed: nat)
      ensures Valid() && currentState == Start && lastTime == 0.0 && deltaTime == 0.0
      ensures this.gameWidth == gameWidth && this.gameHeight == gameHeight
    {
      this.gameWidth := gameWidth;
      this.gameHeight := gameHeight;
      currentState := Start;
      player := new Paddle.Player(gameWidth, gameHeight);
      ball := new Kinematics.Ball(gameWidth, gameHeight);
      levelManager := new Levels.LevelManager(choose);
      powerupManager := new Powerups.PowerupManager();
      scoreSystem := new Scoring.ScoreSystem(seed);
      lastTime := 0.0;
      deltaTime := 0.0;
    }

    /** The values one frame reads and writes. */
    ghost function Snap(): World
      reads this, ball, player, powerupManager, levelManager, levelManager.currentLevel, levelManager.boss, scoreSystem, scoreSystem.daily
    {
      World(currentState, ball.State(), player.State(), powerupManager.State(), scoreSystem.State(), scoreSystem.daily.State(),
            if levelManager.currentLevel == null then None
            else Some(LevelView(levelManager.currentLevel.number, levelManager.currentLevel.bricks)),
            levelManager.pendingLoads, levelManager.nextHandle,
            if levelManager.boss == null then None
            else Some(BossView(Levels.BossPos(levelManager.boss.x, levelManager.boss.direction), levelManager.boss.moveSpeed)))
    }

    /** `update(deltaTime)`. */
    method Update(dt: real, sin: real -> real, cos: real -> real)
      requires Valid()
      modifies this, ball, player, powerupManager, levelManager, levelManager.boss, levelManager.currentLevel, scoreSystem, scoreSystem.daily
      ensures Valid()
      ensures Snap() == FrameStep(old(Snap()), dt, sin, cos, gameWidth, gameHeight)
      ensures levelManager.currentLevel == old(levelManager.currentLevel) && levelManager.boss == old(levelManager.boss)
      ensures gameWidth == old(gameWidth) && gameHeight == old(gameHeight) && deltaTime == old(deltaTime) && lastTime == old(lastTime)
    {
      Motion(dt);
      Resolution(sin, cos);
    }

    /** The first half of `update`: the paddle, the ball and the falling pickups move. */
    method Motion(dt: real)
      requires Valid()
      modifies this, ball, player, powerupManager
      ensures Valid() && Snap() == Fallen(MovedWorld(old(Snap()), dt, gameWidth, gameHeight), dt, gameHeight)
      ensures gameWidth == old(gameWidth) && gameHeight == old(gameHeight) && deltaTime == old(deltaTime) && lastTime == old(lastTime)
    {
      MoveParts(dt);
      FallPickups(dt);
    }

    /** The second half of `update`: the level's progress, then the collision pass. */
    method Resolution(sin: real -> real, cos: real -> real)
      requires Valid()
      modifies this`currentState, ball, powerupManager, levelManager, levelManager.boss, levelManager.currentLevel, scoreSystem, scoreSystem.daily
      ensures Valid() && Snap() == Collided(LevelStep(old(Snap())), sin, cos)
      ensures levelManager.currentLevel == old(levelManager.currentLevel) && levelManager.boss == old(levelManager.boss)
    {
      StepLevel();
      CheckCollisions(sin, cos);
    }

    /** The paddle's and the ball's `update`; a lost ball calls `handleBallLost`. */
    method MoveParts(dt: real)
      requires Valid()
      modifies this, ball, player
      ensures Valid() && Snap() == MovedWorld(old(Snap()), dt, gameWidth, gameHeight)
      ensures gameWidth == old(gameWidth) && gameHeight == old(gameHeight) && deltaTime == old(deltaTime) && lastTime == old(lastTime)
    {
      player.Update(dt, gameWidth);
      var lost := ball.Update(dt, gameWidth, gameHeight);
      if lost {
        HandleBallLost();
      }
    }

    /** The power-up manager's `update`, against the paddle as it now is. */
    method FallPickups(dt: real)
      requires Valid()
      modifies powerupManager, player
      ensures Valid()
      ensures Snap() == Fallen(old(Snap()), dt, gameHeight)
    {
      powerupManager.Update(dt, gameHeight, player);
    }

    /** The level manager's `update`, and the game's reaction to a victory. */
    method StepLevel()
      requires Valid()
      modifies this`currentState, levelManager, levelManager.boss
      ensures Valid() && Snap() == LevelStep(old(Snap()))
      ensures levelManager.currentLevel == old(levelManager.currentLevel) && levelManager.boss == old(levelManager.boss)
    {
      ghost var w := Snap();
      var completion := levelManager.Update();
      assert completion == Completion(w);
      ghost var mid := Snap();
      assert mid == w.(pendingLoads := mid.pendingLoads, nextHandle := mid.nextHandle, boss := BossMoved(w));
      if completion == Levels.Victory && currentState != GameOver {
        currentState := GameOver;
      }
      LevelStepOf(w, completion, mid.pendingLoads, mid.nextHandle, currentState);
    }

    /**
     * `gameLoop(timestamp)`: the frame time, the clamped delta, and `update` only in PLAYING;
     * `clock` stands for `performance.now()`. Drawing and the next animation frame are not modelled.
     */
    method GameLoop(timestamp: real, clock: real, sin: real -> real, cos: real -> real)
      requires Valid()
      modifies this, ball, player, powerupManager, levelManager, levelManager.boss, levelManager.currentLevel, scoreSystem, scoreSystem.daily
      ensures Valid()
      ensures lastTime == FrameTime(timestamp, clock) && deltaTime == FrameDelta(FrameTime(timestamp, clock), old(lastTime))
      ensures gameWidth == old(gameWidth) && gameHeight == old(gameHeight)
      ensures levelManager.currentLevel == old(levelManager.currentLevel) && levelManager.boss == old(levelManager.boss)
      ensures old(currentState) == Playing ==> Snap() == FrameStep(old(Snap()), deltaTime, sin, cos, gameWidth, gameHeight)
      ensures old(currentState) != Playing ==> Snap() == old(Snap())
    {
      ghost var w := Snap();
      Tick(timestamp, clock);
      assert Snap() == w;
      if currentState == Playing {
        Update(deltaTime, sin, cos);
      }
    }

    /** The frame clock of `gameLoop`: the timestamp, the raw delta and its clamp. */
    method Tick(timestamp: real, clock: real)
      modifies this`deltaTime, this`lastTime
      ensures lastTime == FrameTime(timestamp, clock) && deltaTime == FrameDelta(FrameTime(timestamp, clock), old(lastTime))
    {
      var now := if timestamp != 0.0 then timestamp else clock;
      deltaTime := now - (if lastTime != 0.0 then lastTime else now);
      lastTime := now;
      if deltaTime > 100.0 {
        deltaTime := FrameMs;
      }
    }

    /**
     * The resets of `startGame`: PLAYING, ball and paddle reset, scores reset, level 1 loaded.
     * The power-up manager is not reset, so pickups and armed reverts carry over.
     */
    method Begin()
      requires Valid()
      modifies this, ball, player, scoreSystem, levelManager, levelManager.levels
      ensures Valid()
      ensures currentState == Next(old(currentState), OnStart) && currentState == Playing
      ensures ball.State() == Kinematics.ResetState(gameWidth, gameHeight)
      ensures player.State() == Paddle.ResetPaddle(old(player.State()), gameWidth, gameHeight)
      ensures scoreSystem.State() == Scoring.ScoreReset(old(scoreSystem.State()))
      ensures levelManager.currentLevel == levelManager.levels[0] && levelManager.background == Some(levelManager.levels[0].background)
      ensures levelManager.boss == old(levelManager.boss) || fresh(levelManager.boss)
      ensures gameWidth == old(gameWidth) && gameHeight == old(gameHeight) && lastTime == old(lastTime) && deltaTime == old(deltaTime)
    {
      currentState := Playing;
      ball.Reset(gameWidth, gameHeight);
      player.Reset(gameWidth, gameHeight);
      scoreSystem.Reset();
      assert Levels.FirstIndex(Levels.NumbersOf(levelManager.levels), 1) == Some(0);
      var outcome := levelManager.LoadLevel(1, gameWidth);
    }

    /** `startGame`: the resets, then, if the loop has never run, a first frame at the current clock (of zero length). */
    method StartGame(clock: real, sin: real -> real, cos: real -> real)
      requires Valid()
      modifies this, ball, player, powerupManager, levelManager, levelManager.levels, levelManager.boss, scoreSystem, scoreSystem.daily
      ensures Valid()
      ensures old(lastTime) != 0.0 ==>
                currentState == Playing && ball.State() == Kinematics.ResetState(gameWidth, gameHeight) &&
                player.State() == Paddle.ResetPaddle(old(player.State()), gameWidth, gameHeight) &&
                scoreSystem.State() == Scoring.ScoreReset(old(scoreSystem.State())) &&
                levelManager.currentLevel == levelManager.levels[0] && powerupManager.State() == old(powerupManager.State())
      ensures old(lastTime) == 0.0 ==> lastTime == clock && deltaTime == 0.0
    {
      Begin();
      if lastTime == 0.0 {
        GameLoop(0.0, clock, sin, cos);
      }
    }

    /** `pauseGame`. */
    method PauseGame()
      modifies this
      ensures currentState == Next(old(currentState), OnPause)
      ensures unchanged(this`gameWidth, this`gameHeight, this`deltaTime, this`lastTime)
    {
      if currentState == Playing {
        currentState := Paused;
      }
    }

    /** `togglePause`. */
    method TogglePause()
      modifies this
      ensures currentState == Next(old(currentState), OnToggle)
      ensures unchanged(this`gameWidth, this`gameHeight, this`deltaTime, this`lastTime)
    {
      if currentState == Playing {
        PauseGame();
      } else if currentState == Paused {
        currentState := Playing;
      }
    }

    /** `handleBallLost`. */
    method HandleBallLost()
      modifies this`currentState
      ensures currentState == Next(old(currentState), OnBallLost)
    {
      currentState := GameOver;
    }

    /** The main-menu button. */
    method MainMenu()
      modifies this`currentState
      ensures currentState == Next(old(currentState), OnMainMenu)
    {
      currentState := Start;
    }

    /** `handleMouseMove`, given the pointer's x in canvas pixels: only in PLAYING the paddle follows it. */
    method HandleMouseMove(mouseX: real)
      modifies player
      ensures currentState == Playing ==> player.State() == old(player.State()).(x := PointerX(mouseX, old(player.width), gameWidth))
      ensures currentState != Playing ==> player.State() == old(player.State())
    {
      if currentState == Playing {
        player.x := mouseX - player.width / 2.0;
        if player.x < 0.0 {
          player.x := 0.0;
        }
        if player.x + player.width > gameWidth {
          player.x := gameWidth - player.width;
        }
      }
    }

    /** `handleMouseClick`: GAMEOVER returns to START; in PLAYING an enabled laser fires. */
    method HandleMouseClick()
      modifies this`currentState, player
      ensures currentState == Next(old(currentState), OnClick)
      ensures old(currentState) == Playing && old(player.laserEnabled) ==> player.State() == Paddle.Shoot(old(player.State())).player
      ensures !(old(currentState) == Playing && old(player.laserEnabled)) ==> player.State() == old(player.State())
    {
      if currentState == GameOver {
        currentState := Start;
      }
      if currentState == Playing {
        if player.laserEnabled {
          var _ := player.FireLaser();
        }
      }
    }

    /** The `keydown` handler: ignored outside PLAYING; arrows steer, Escape toggles the pause. */
    method HandleKey(key: Key)
      modifies this`currentState, player
      ensures old(currentState) != Playing ==> currentState == old(currentState) && player.State() == old(player.State())
      ensures old(currentState) == Playing ==>
                player.State() == (match key
                                   case ArrowLeft => Paddle.Steer(old(player.State()), -1.0)
                                   case ArrowRight => Paddle.Steer(old(player.State()), 1.0)
                                   case _ => old(player.State())) &&
                currentState == (if key == Escape then Next(old(currentState), OnToggle) else old(currentState))
    {
      if currentState != Playing {
        return;
      }
      if key == ArrowLeft {
        player.MoveLeft();
      }
      if key == ArrowRight {
        player.MoveRight();
      }
      if key == Escape {
        currentState := Paused;
      }
    }

    /** `handleTouch`: handed to the paddle whatever the state. */
    method HandleTouch(scaledX: Option<real>)
      modifies player
      ensures player.State() == Paddle.Touch(old(player.State()), scaledX, gameWidth)
    {
      player.HandleTouch(scaledX, gameWidth);
    }

    /** `resize`, given the window's inner size. */
    method Resize(innerWidth: real, innerHeight: real)
      requires Valid()
      modifies this, ball, player, levelManager.currentLevel
      ensures Valid()
      ensures (gameWidth, gameHeight) == FieldSize(innerWidth, innerHeight)
      ensures player.State() == Paddle.ResizePaddle(old(player.State()), gameWidth, gameHeight)
      ensures ball.State() == Kinematics.FitToField(old(ball.State()), gameWidth, gameHeight)
      ensures levelManager.currentLevel != null ==>
                levelManager.currentLevel.bricks == Levels.ResizedBricks(old(levelManager.currentLevel.bricks), gameWidth)
      ensures currentState == old(currentState)
    {
      gameWidth := Min(innerWidth - 40.0, 600.0);
      gameHeight := innerHeight * 0.8;
      player.Resize(gameWidth, gameHeight);
      ball.Resize(gameWidth, gameHeight);
      levelManager.Resize(gameWidth);
    }

    /** A level-change timer fires: the level loads, then the ball and the paddle are reset (not when the load throws). */
    method FireLevelLoad(h: Handle) returns (outcome: Outcome)
      requires Valid() && h in levelManager.pendingLoads
      modifies ball, player, levelManager, levelManager.levels
      ensures Valid()
      ensures outcome == Done <==> old(levelManager.pendingLoads[h]) in [1, 2, 5]
      ensures outcome == Done ==>
                ball.State() == Kinematics.ResetState(gameWidth, gameHeight) &&
                player.State() == Paddle.ResetPaddle(old(player.State()), gameWidth, gameHeight)
      ensures outcome != Done ==> ball.State() == old(ball.State()) && player.State() == old(player.State())
      ensures levelManager.pendingLoads == old(levelManager.pendingLoads) - {h}
    {
      var levelNumber;
      levelNumber, outcome := levelManager.FireLoad(h, gameWidth);
      if outcome == Done {
        ball.Reset(gameWidth, gameHeight);
        player.Reset(gameWidth, gameHeight);
      }
    }

    /**
     * `checkCollisions`: nothing without a current level; otherwise the paddle test, then
     * every brick of the current level in order.
     */
    method CheckCollisions(sin: real -> real, cos: real -> real)
      requires Valid()
      modifies ball, scoreSystem, scoreSystem.daily, powerupManager, levelManager.currentLevel
      ensures Valid()
      ensures Snap() == Collided(old(Snap()), sin, cos)
    {
      var level := levelManager.currentLevel;
      if level == null {
        return;
      }
      PaddleTest(sin, cos);
      StrikeBricks(level);
    }

    /** The paddle test of `checkCollisions`: a bounce off the paddle feeds the combo. */
    method PaddleTest(sin: real -> real, cos: real -> real)
      requires player.width != 0.0
      modifies ball, scoreSystem
      ensures Snapshot(ball.State(), scoreSystem.State(), scoreSystem.daily.State()) ==
              PaddleStep(Snapshot(old(ball.State()), old(scoreSystem.State()), old(scoreSystem.daily.State())), player.State().Bounds(), sin, cos)
      ensures ball.trail == old(ball.trail)
    {
      var paddle := player.State().Bounds();
      if ball.active && ball.CollideWith(Some(paddle.AsShape())) {
        ball.HandlePaddleCollision(paddle, sin, cos);
        scoreSystem.AddCombo();
      }
    }

    /** The collision pass's starting point: the ball, the scores and the daily challenge, nothing spawned yet. */
    static function Snapshot(ball: Kinematics.BallState, scores: Scoring.ScoreState, daily: Scoring.DailyState): Pass
    {
      Pass(ball, scores, daily, [])
    }

    /** The brick `forEach` of `checkCollisions`. */
    method StrikeBricks(level: Levels.Level)
      modifies ball, scoreSystem, scoreSystem.daily, powerupManager, level
      ensures var r := BrickPass(Snapshot(old(ball.State()), old(scoreSystem.State()), old(scoreSystem.daily.State())), old(level.bricks));
              ball.State() == r.pass.ball && scoreSystem.State() == r.pass.scores &&
              scoreSystem.daily.State() == r.pass.daily && level.bricks == r.bricks &&
              powerupManager.State() == old(powerupManager.State()).(powerups := old(powerupManager.powerups) + r.pass.spawned)
      ensures ball.trail == old(ball.trail)
    {
      ghost var bricks := level.bricks;
      ghost var cur := Snapshot(ball.State(), scoreSystem.State(), scoreSystem.daily.State());
      ghost var final := BrickPass(cur, bricks);
      ghost var done: seq<Levels.Brick> := [];
      var i := 0;
      while i < |level.bricks|
        invariant 0 <= i <= |bricks| && |done| == i
        invariant level.bricks == done + bricks[i..]
        invariant ball.State() == cur.ball && scoreSystem.State() == cur.scores && scoreSystem.daily.State() == cur.daily
        invariant BrickPass(cur, bricks[i..]).pass == final.pass && done + BrickPass(cur, bricks[i..]).bricks == final.bricks
        invariant powerupManager.State() == old(powerupManager.State()).(powerups := old(powerupManager.powerups) + cur.spawned)
        invariant ball.trail == old(ball.trail)
      {
        ghost var step := BrickStep(cur, bricks[i]);
        PassLoopStep(cur, bricks, i, done, final);
        assert level.bricks[i] == bricks[i];
        ghost var before := powerupManager.powerups;
        ghost var added := HitBrick(level, i, cur.spawned);
        assert before == old(powerupManager.powerups) + cur.spawned;
        assert old(powerupManager.powerups) + (cur.spawned + added) == before + added by {
          Concat3(old(powerupManager.powerups), cur.spawned, added);
        }
        cur := step.pass;
        done := done + [step.brick];
        i := i + 1;
      }
      assert bricks[i..] == [];
    }

    /** One brick of the `forEach` in `checkCollisions`; `added` is what it appended to the pickups. */
    method HitBrick(level: Levels.Level, i: nat, ghost spawned: seq<Powerups.Pickup>) returns (ghost added: seq<Powerups.Pickup>)
      requires i < |level.bricks|
      modifies ball, scoreSystem, scoreSystem.daily, powerupManager, level
      ensures var step := BrickStep(Pass(old(ball.State()), old(scoreSystem.State()), old(scoreSystem.daily.State()), spawned),
                                    old(level.bricks[i]));
              ball.State() == step.pass.ball && scoreSystem.State() == step.pass.scores &&
              scoreSystem.daily.State() == step.pass.daily && step.pass.spawned == spawned + added &&
              level.bricks == old(level.bricks)[i := step.brick]
      ensures powerupManager.State() == old(powerupManager.State()).(powerups := old(powerupManager.powerups) + added)
    {
      added := [];
      var brick := level.bricks[i];
      if brick.active && ball.active && ball.CollideWith(Some(brick.Target())) {
        brick := StrikeAt(level, i);
        ball.HandleBrickCollision(brick.y, brick.height);
        scoreSystem.AddScore(10.0);
        added := DropPowerup(brick);
      }
    }

    /** A struck power-up brick that went out drops its power-up at its own position. */
    method DropPowerup(brick: Levels.Brick) returns (ghost added: seq<Powerups.Pickup>)
      modifies powerupManager
      ensures added == if Spawns(brick) then [Powerups.NewPickup(brick.x, brick.y, Powerups.FromBrick(brick.powerup.value))] else []
      ensures powerupManager.State() == old(powerupManager.State()).(powerups := old(powerupManager.powerups) + added)
    {
      added := [];
      if brick.kind.PowerupBrick? && !brick.active && brick.powerup.Some? {
        // A type is given, so nothing is drawn at random.
        powerupManager.SpawnPowerup(brick.x, brick.y, Some(Powerups.FromBrick(brick.powerup.value)), PowerupTypes.ExtraBall);
        added := [Powerups.NewPickup(brick.x, brick.y, Powerups.FromBrick(brick.powerup.value))];
      }
    }

    /** The strike on brick `i`: one health less, and a break is recorded once it goes out. */
    method StrikeAt(level: Levels.Level, i: nat) returns (brick: Levels.Brick)
      requires i < |level.bricks| && level.bricks[i].active
      modifies scoreSystem, scoreSystem.daily, level
      ensures brick == Strike(old(level.bricks[i])) && level.bricks == old(level.bricks)[i := brick]
      ensures var p := Snapshot(ball.State(), old(scoreSystem.State()), old(scoreSystem.daily.State()));
              var r := if !brick.active then Broken(p) else p;
              scoreSystem.State() == r.scores && scoreSystem.daily.State() == r.daily
    {
      brick := level.bricks[i];
      brick := brick.(health := brick.health - 1);
      if brick.health <= 0 {
        brick := brick.(active := false);
        scoreSystem.RecordBrickBreak();
      }
      level.bricks := level.bricks[i := brick];
    }
  }
}
