/**
 * The table of timed power-up effects (`POWERUP_TYPES`), shared by both power-up schedulers,
 * with the field updates each entry's `apply` and `revert` make on the paddle.
 */
module PowerupTypes {
  import opened Common
  import Paddle

  /** The three registered effects, in declaration order. */
  datatype EffectType = ExtraBall | ExpandPaddle | Laser
  {
    /** The `id` field: the key under which a scheduler records the effect. */
    function Id(): string
    {
      match this
      case ExtraBall => "extra-ball"
      case ExpandPaddle => "expand-paddle"
      case Laser => "laser"
    }

    /** The property name of the entry in the table. */
    function Key(): string
    {
      match this
      case ExtraBall => "EXTRA_BALL"
      case ExpandPaddle => "EXPAND_PADDLE"
      case Laser => "LASER"
    }

    /** The `duration` field, in milliseconds; zero means the effect is never reverted. */
    function Duration(): nat
    {
      match this
      case ExtraBall => 0
      case ExpandPaddle => 10000
      case Laser => 8000
    }

    /** Whether the entry has a `revert` function. */
    predicate HasRevert()
    {
      !ExtraBall?
    }

    /** Both conditions under which a scheduler arms a revert timer. */
    predicate Timed()
    {
      Duration() > 0 && HasRevert()
    }
  }

  const Registered: seq<EffectType> := [ExtraBall, ExpandPaddle, Laser]

  const ExpandFactor: real := 1.5

  lemma IdsAreDistinct(e: EffectType, f: EffectType)
    ensures e.Id() == f.Id() <==> e == f
    ensures e.Key() == f.Key() <==> e == f
    ensures e.Id() != f.Key()
  {
  }

  /** Exactly the effects with a revert are the timed ones, and every registered effect is listed once. */
  lemma TimedIffReverted(e: EffectType)
    ensures e.Timed() <==> e.HasRevert()
    ensures e in Registered
    ensures e.Timed() <==> e != ExtraBall
  {
  }

  /**
   * `apply`, as seen on the paddle: EXPAND_PADDLE remembers the width and widens by half,
   * LASER raises `hasLaser` (a flag nothing else reads; the firing gate is `laserEnabled`),
   * EXTRA_BALL builds a ball nobody keeps, so the paddle is untouched.
   */
  function Applied(e: EffectType, p: Paddle.PlayerState): (r: Paddle.PlayerState)
    ensures e.ExpandPaddle? ==> r.originalWidth == Some(p.width) && r.width == ExpandFactor * p.width
    ensures e.Laser? ==> r.hasLaser && r.width == p.width && r.originalWidth == p.originalWidth
    ensures r.x == p.x && r.y == p.y && r.speed == p.speed && r.lasers == p.lasers
    ensures r.laserEnabled == p.laserEnabled && r.laserWidth == p.laserWidth && r.laserDamage == p.laserDamage
    ensures !e.ExpandPaddle? ==> r.width == p.width && r.originalWidth == p.originalWidth
    ensures !e.Laser? ==> r.hasLaser == p.hasLaser
  {
    match e
    case ExtraBall => p
    case ExpandPaddle => p.(originalWidth := Some(p.width), width := p.width * ExpandFactor)
    case Laser => p.(hasLaser := true)
  }

  /**
   * `revert`: EXPAND_PADDLE writes back the remembered width, LASER lowers `hasLaser`.
   * EXTRA_BALL has no revert; the model leaves the paddle unchanged for it.
   */
  function Reverted(e: EffectType, p: Paddle.PlayerState): (r: Paddle.PlayerState)
    ensures e.ExpandPaddle? && p.originalWidth.Some? ==> r.width == p.originalWidth.value
    ensures e.Laser? ==> !r.hasLaser
    ensures r.x == p.x && r.y == p.y && r.speed == p.speed && r.lasers == p.lasers && r.originalWidth == p.originalWidth
    ensures r.laserEnabled == p.laserEnabled && r.laserWidth == p.laserWidth && r.laserDamage == p.laserDamage
    ensures !(e.ExpandPaddle? && p.originalWidth.Some?) ==> r.width == p.width
    ensures !e.Laser? ==> r.hasLaser == p.hasLaser
  {
    match e
    case ExtraBall => p
    case ExpandPaddle => if p.originalWidth.Some? then p.(width := p.originalWidth.value) else p
    case Laser => p.(hasLaser := false)
  }

  /** A revert right after its apply gives back the paddle's width and laser flag. */
  lemma RevertUndoesApply(e: EffectType, p: Paddle.PlayerState)
    requires !p.hasLaser
    ensures Reverted(e, Applied(e, p)) == (if e.ExpandPaddle? then p.(originalWidth := Some(p.width)) else p)
  {
  }

  /** A second expansion overwrites the remembered width, so one revert returns to 1.5 times the original. */
  lemma ExpandTwiceRevertOnce(p: Paddle.PlayerState)
    ensures Reverted(ExpandPaddle, Applied(ExpandPaddle, Applied(ExpandPaddle, p))).width == ExpandFactor * p.width
    ensures Applied(ExpandPaddle, Applied(ExpandPaddle, p)).width == ExpandFactor * ExpandFactor * p.width
  {
  }

  /** The two reverts touch disjoint fields, so the order in which a reset visits them does not matter. */
  lemma RevertsCommute(e: EffectType, f: EffectType, p: Paddle.PlayerState)
    ensures Reverted(e, Reverted(f, p)) == Reverted(f, Reverted(e, p))
  {
  }

  /** `revert` of each effect in `types` whose id is in `ids` (and that has a revert), in the order of `types`. */
  function RevertIn(p: Paddle.PlayerState, types: seq<EffectType>, ids: set<string>): (r: Paddle.PlayerState)
    ensures r == p.(width := r.width, hasLaser := r.hasLaser)
    ensures r.hasLaser ==> p.hasLaser
    ensures ids == {} ==> r == p
    decreases |types|
  {
    if types == [] then p
    else
      var e := types[0];
      RevertIn(if e.HasRevert() && e.Id() in ids then Reverted(e, p) else p, types[1..], ids)
  }

  /** What reverting the recorded ids of the registry does to the paddle. */
  lemma RevertRecorded(p: Paddle.PlayerState, ids: set<string>)
    ensures var r := RevertIn(p, Registered, ids);
            (if "expand-paddle" in ids && p.originalWidth.Some? then r.width == p.originalWidth.value else r.width == p.width) &&
            (if "laser" in ids then !r.hasLaser else r.hasLaser == p.hasLaser) &&
            r == p.(width := r.width, hasLaser := r.hasLaser)
  {
    assert Registered[1..] == [ExpandPaddle, Laser] && Registered[1..][1..] == [Laser] && Registered[1..][1..][1..] == [];
  }

  /** The `apply` of an effect on a live paddle. */
  method ApplyEffect(e: EffectType, player: Paddle.Player)
    modifies player
    ensures player.State() == Applied(e, old(player.State()))
  {
    match e
    case ExtraBall =>
    case ExpandPaddle =>
      player.originalWidth := Some(player.width);
      player.width := player.width * ExpandFactor;
    case Laser =>
      player.hasLaser := true;
  }

  /** The `revert` of an effect on a live paddle. */
  method RevertEffect(e: EffectType, player: Paddle.Player)
    modifies player
    ensures player.State() == Reverted(e, old(player.State()))
  {
    match e
    case ExtraBall =>
    case ExpandPaddle =>
      if player.originalWidth.Some? {
        player.width := player.originalWidth.value;
      }
    case Laser =>
      player.hasLaser := false;
  }
}
