/**
 * The live power-up scheduler: falling pickups, and a manager that records one revert
 * timer per effect id, cancels and re-arms it on re-activation, reverts on expiry and
 * reverts everything recorded on reset.
 */
module Powerups {
  import opened Common
  import Levels
  import Paddle
  import opened PowerupTypes

  const PickupSize: real := 30.0
  const FallSpeed: real := 3.0

  /**
   * What a pickup carries as its `type`: the power-up string of the brick it came from,
   * or, when spawned without one, a record of the registry.
   */
  datatype PickupType = FromBrick(kind: Levels.PowerupKind) | Record(effect: EffectType)

  /** A falling pickup; `x` is the brick's x as it was when the brick broke, possibly still a percentage. */
  datatype Pickup = Pickup(x: Field, y: real, kind: PickupType, speed: real, active: bool, sparkleTimer: real)

  /** The `Powerup` constructor: 30 by 30, falling at 3 px per frame, active. */
  function NewPickup(x: Field, y: real, kind: PickupType): (p: Pickup)
    ensures p.x == x && p.y == y && p.kind == kind
    ensures p.active && p.speed == FallSpeed && p.sparkleTimer == 0.0
  {
    Pickup(x, y, kind, FallSpeed, true, 0.0)
  }

  /**
   * `checkCollision`: false for a missing target, otherwise a strict overlap of the two boxes.
   * A percentage x makes every comparison it takes part in false.
   */
  predicate Touches(p: Pickup, target: Option<Rect>)
    ensures Touches(p, target) ==> target.Some? && p.x.Num?
    ensures Touches(p, target) ==> p.y < target.value.y + target.value.height && target.value.y < p.y + PickupSize
  {
    target.Some? && p.x.Num? &&
    p.x.v < target.value.x + target.value.width && p.x.v + PickupSize > target.value.x &&
    p.y < target.value.y + target.value.height && p.y + PickupSize > target.value.y
  }

  predicate Within(t: real, lo: real, width: real)
  {
    lo < t < lo + width
  }

  /** Two open intervals `(a, a + aw)` and `(b, b + bw)` share a point. */
  ghost predicate Meet(a: real, aw: real, b: real, bw: real)
  {
    exists t :: Within(t, a, aw) && Within(t, b, bw)
  }

  lemma IntervalsMeet(a: real, aw: real, b: real, bw: real)
    ensures Meet(a, aw, b, bw) <==> a < b + bw && b < a + aw && aw > 0.0 && bw > 0.0
  {
    if a < b + bw && b < a + aw && aw > 0.0 && bw > 0.0 {
      var t := (Max(a, b) + Min(a + aw, b + bw)) / 2.0;
      assert Within(t, a, aw) && Within(t, b, bw);
    }
  }

  /** A pickup with a numeric x touches a rectangle of positive size exactly when the two open boxes share a point. */
  lemma TouchesIffSharedPoint(p: Pickup, r: Rect)
    requires p.x.Num? && r.width > 0.0 && r.height > 0.0
    ensures Touches(p, Some(r)) <==> Meet(p.x.v, PickupSize, r.x, r.width) && Meet(p.y, PickupSize, r.y, r.height)
  {
    IntervalsMeet(p.x.v, PickupSize, r.x, r.width);
    IntervalsMeet(p.y, PickupSize, r.y, r.height);
  }

  lemma PercentagePickupsAreNeverCollected(p: Pickup, target: Option<Rect>)
    requires p.x.Pct?
    ensures !Touches(p, target)
  {
  }

  datatype Tick = Tick(pickup: Pickup, collected: bool)

  /**
   * `Powerup.update`: an active pickup falls, goes out below the bottom edge, and is collected
   * (and goes out) when it overlaps the paddle; the overlap is tested even after it fell out.
   */
  function StepPickup(p: Pickup, deltaTime: real, gameHeight: real, paddle: Rect): (r: Tick)
    ensures !p.active ==> r == Tick(p, false)
    ensures p.active ==> r.pickup.y == p.y + p.speed * (deltaTime / FrameMs)
    ensures p.active ==> r.pickup.sparkleTimer == p.sparkleTimer + deltaTime
    ensures r.pickup.x == p.x && r.pickup.kind == p.kind && r.pickup.speed == p.speed
    ensures r.collected <==> p.active && Touches(r.pickup, Some(paddle))
    ensures r.pickup.active <==> p.active && r.pickup.y <= gameHeight && !r.collected
  {
    if !p.active then Tick(p, false)
    else
      var moved := p.(y := p.y + p.speed * (deltaTime / FrameMs));
      var fallen := if moved.y > gameHeight then moved.(active := false) else moved;
      var hit := Touches(fallen, Some(paddle));
      var taken := if hit then fallen.(active := false) else fallen;
      Tick(taken.(sparkleTimer := p.sparkleTimer + deltaTime), hit)
  }

  function StepPickups(ps: seq<Pickup>, deltaTime: real, gameHeight: real, paddle: Rect): (r: seq<Pickup>)
    ensures |r| == |ps| && forall i :: 0 <= i < |ps| ==> r[i] == StepPickup(ps[i], deltaTime, gameHeight, paddle).pickup
  {
    seq(|ps|, i requires 0 <= i < |ps| => StepPickup(ps[i], deltaTime, gameHeight, paddle).pickup)
  }

  /** `filter(powerup => powerup.active)`. */
  function ActiveOnly(ps: seq<Pickup>): (r: seq<Pickup>)
    ensures |r| <= |ps|
    ensures forall p :: p in r <==> p in ps && p.active
  {
    if ps == [] then []
    else ActiveOnly(ps[..|ps| - 1]) + (if ps[|ps| - 1].active then [ps[|ps| - 1]] else [])
  }

  /** The filter keeps order: filtering a concatenation concatenates the filtered parts. */
  lemma {:induction false} ActiveOnlyDistributes(a: seq<Pickup>, b: seq<Pickup>)
    ensures ActiveOnly(a + b) == ActiveOnly(a) + ActiveOnly(b)
    decreases |b|
  {
    if b == [] {
      assert a + b == a;
    } else {
      var init := b[..|b| - 1];
      assert (a + b)[..|a + b| - 1] == a + init;
      ActiveOnlyDistributes(a, init);
    }
  }

  /** `spawnPowerup`'s choice: the given type, or the registry entry drawn at random when none is given. */
  function SpawnedType(given: Option<PickupType>, drawn: EffectType): (t: PickupType)
    ensures given.Some? ==> t == given.value
    ensures given.None? ==> t == Record(drawn)
  {
    if given.Some? then given.value else Record(drawn)
  }

  /**
   * The argument of `activatePowerup`: nothing, a value without a `type` property (the
   * pickup's own type, which is what `Powerup.update` passes), or an object whose `type` is one.
   */
  datatype PowerupArg = Missing | Plain(value: PickupType) | Holder(payload: PickupType)
  {
    /** The registry effect reached through `.type`, when there is one. */
    function Effect(): Option<EffectType>
    {
      if Holder? && payload.Record? then Some(payload.effect) else None
    }
  }

  datatype ManagerState = ManagerState(
    powerups: seq<Pickup>,
    activeEffects: map<string, Handle>,
    pendingReverts: map<Handle, EffectType>,
    nextHandle: Handle)
  {
    /**
     * The recorded handles and the armed revert timers are in one-to-one correspondence,
     * each timer is for the id it is recorded under and is of a timed effect,
     * and no armed handle is reused.
     */
    ghost predicate Valid()
    {
      (forall id | id in activeEffects :: activeEffects[id] in pendingReverts && pendingReverts[activeEffects[id]].Id() == id) &&
      (forall h | h in pendingReverts ::
         pendingReverts[h].Timed() && pendingReverts[h].Id() in activeEffects && activeEffects[pendingReverts[h].Id()] == h) &&
      (forall h | h in pendingReverts :: h < nextHandle)
    }
  }

  /** In a valid state no id has two armed revert timers. */
  lemma OneTimerPerId(s: ManagerState, h1: Handle, h2: Handle)
    requires s.Valid() && h1 in s.pendingReverts && h2 in s.pendingReverts
    requires s.pendingReverts[h1].Id() == s.pendingReverts[h2].Id()
    ensures h1 == h2
  {
  }

  /**
   * The recording part of `activatePowerup` for a registry effect: for a timed effect, the
   * earlier timer of the same id is cancelled and a fresh one is armed and recorded;
   * an effect without duration or revert is not recorded.
   */
  function Activation(s: ManagerState, e: EffectType): (r: ManagerState)
    ensures !e.Timed() ==> r == s
    ensures r.powerups == s.powerups
    ensures e.Timed() ==> r.activeEffects == s.activeEffects[e.Id() := s.nextHandle]
    ensures e.Timed() ==> s.nextHandle in r.pendingReverts && r.pendingReverts[s.nextHandle] == e
    ensures forall h | h in r.pendingReverts && h != s.nextHandle :: h in s.pendingReverts && r.pendingReverts[h] == s.pendingReverts[h]
    ensures forall h | h in s.pendingReverts && !(e.Timed() && e.Id() in s.activeEffects && h == s.activeEffects[e.Id()]) ::
              h in r.pendingReverts
  {
    if !e.Timed() then s
    else
      var cancelled := if e.Id() in s.activeEffects then s.pendingReverts - {s.activeEffects[e.Id()]} else s.pendingReverts;
      s.(activeEffects := s.activeEffects[e.Id() := s.nextHandle],
         pendingReverts := cancelled[s.nextHandle := e],
         nextHandle := s.nextHandle + 1)
  }

  /** Activation keeps the one-timer-per-id correspondence. */
  lemma ActivationKeepsValid(s: ManagerState, e: EffectType)
    requires s.Valid()
    ensures Activation(s, e).Valid()
    ensures e.Timed() && e.Id() in s.activeEffects ==> s.activeEffects[e.Id()] !in Activation(s, e).pendingReverts
  {
    if e.Timed() {
      var r := Activation(s, e);
      forall h | h in r.pendingReverts && h != s.nextHandle
        ensures r.pendingReverts[h].Id() != e.Id()
      {
        assert h in s.pendingReverts;
        assert s.activeEffects[s.pendingReverts[h].Id()] == h;
      }
    }
  }

  /** A timer fires: its effect's id, and only that, leaves the record, and the timer is spent. */
  function Expiry(s: ManagerState, h: Handle): (r: ManagerState)
    requires h in s.pendingReverts
    ensures r.powerups == s.powerups && r.nextHandle == s.nextHandle
    ensures r.activeEffects.Keys == s.activeEffects.Keys - {s.pendingReverts[h].Id()}
    ensures forall id | id in r.activeEffects :: r.activeEffects[id] == s.activeEffects[id]
    ensures r.pendingReverts == s.pendingReverts - {h}
  {
    s.(activeEffects := s.activeEffects - {s.pendingReverts[h].Id()}, pendingReverts := s.pendingReverts - {h})
  }

  lemma ExpiryKeepsValid(s: ManagerState, h: Handle)
    requires s.Valid() && h in s.pendingReverts
    ensures Expiry(s, h).Valid()
  {
    var r := Expiry(s, h);
    forall id | id in r.activeEffects
      ensures r.activeEffects[id] in r.pendingReverts
    {
      assert r.activeEffects[id] != h;
    }
  }

  /** Re-activating an effect before it expires postpones its revert: only the new timer can expire it. */
  lemma ReactivationPostpones(s: ManagerState, e: EffectType)
    requires s.Valid() && e.Timed()
    ensures var once := Activation(s, e);
            var twice := Activation(once, e);
            s.nextHandle !in twice.pendingReverts &&
            twice.activeEffects[e.Id()] == s.nextHandle + 1 &&
            Expiry(twice, s.nextHandle + 1).activeEffects.Keys == s.activeEffects.Keys - {e.Id()}
  {
  }

  /** `reset`: the pickups are dropped, every recorded handle is cancelled and the record emptied. */
  function Cleared(s: ManagerState): (r: ManagerState)
    ensures r.powerups == [] && r.activeEffects == map[] && r.nextHandle == s.nextHandle
    ensures forall h | h in r.pendingReverts :: h in s.pendingReverts && h !in s.activeEffects.Values
  {
    s.(powerups := [], activeEffects := map[], pendingReverts := s.pendingReverts - s.activeEffects.Values)
  }

  /** In a valid state every armed timer is recorded, so a reset leaves none armed. */
  lemma ClearedCancelsEveryTimer(s: ManagerState)
    requires s.Valid()
    ensures Cleared(s).pendingReverts == map[]
    ensures Cleared(s).Valid()
  {
    forall h | h in s.pendingReverts
      ensures h in s.activeEffects.Values
    {
      assert s.activeEffects[s.pendingReverts[h].Id()] == h;
    }
  }

  class PowerupManager {
    var powerups: seq<Pickup>
    var activeEffects: map<string, Handle>
    var pendingReverts: map<Handle, EffectType>
    var nextHandle: Handle

    function State(): ManagerState
      reads this
    {
      ManagerState(powerups, activeEffects, pendingReverts, nextHandle)
    }

    constructor ()
      ensures State() == ManagerState([], map[], map[], 1) && State().Valid()
    {
      powerups := [];
      activeEffects := map[];
      pendingReverts := map[];
      nextHandle := 1;
    }

    /** `spawnPowerup(x, y, type)`; `drawn` is the registry entry `Math.random` would pick. */
    method SpawnPowerup(x: Field, y: real, given: Option<PickupType>, drawn: EffectType)
      modifies this
      ensures State() == old(State()).(powerups := old(powerups) + [NewPickup(x, y, SpawnedType(given, drawn))])
    {
      var kind := if given.Some? then given.value else Record(drawn);
      powerups := powerups + [NewPickup(x, y, kind)];
    }

    /**
     * `update`: every pickup takes its step, a collected one hands its own type to
     * `activatePowerup`, then the inactive pickups are dropped.
     */
    method Update(deltaTime: real, gameHeight: real, player: Paddle.Player)
      modifies this, player
      ensures State() == old(State()).(powerups := ActiveOnly(StepPickups(old(powerups), deltaTime, gameHeight, old(player.State()).Bounds())))
      ensures player.State() == old(player.State())
    {
      var paddle := player.State().Bounds();
      StepEach(deltaTime, gameHeight, paddle, player);
      DropInactive();
    }

    /** The `forEach` of `update`: each pickup steps, and a collected one calls `activatePowerup` with its type. */
    method StepEach(deltaTime: real, gameHeight: real, paddle: Rect, player: Paddle.Player)
      modifies this, player
      ensures State() == old(State()).(powerups := StepPickups(old(powerups), deltaTime, gameHeight, paddle))
      ensures player.State() == old(player.State())
    {
      ghost var before := powerups;
      var i := 0;
      while i < |powerups|
        invariant 0 <= i <= |powerups| == |before|
        invariant forall k :: 0 <= k < i ==> powerups[k] == StepPickup(before[k], deltaTime, gameHeight, paddle).pickup
        invariant forall k :: i <= k < |powerups| ==> powerups[k] == before[k]
        invariant State() == old(State()).(powerups := powerups)
        invariant player.State() == old(player.State())
      {
        var t := StepPickup(powerups[i], deltaTime, gameHeight, paddle);
        powerups := powerups[i := t.pickup];
        if t.collected {
          ActivatePowerup(Plain(t.pickup.kind), player);
        }
        i := i + 1;
      }
      assert powerups == StepPickups(before, deltaTime, gameHeight, paddle);
    }

    /** The filter reassignment of `update`. */
    method DropInactive()
      modifies this
      ensures State() == old(State()).(powerups := ActiveOnly(old(powerups)))
    {
      var kept: seq<Pickup> := [];
      var j := 0;
      while j < |powerups|
        invariant 0 <= j <= |powerups|
        invariant kept == ActiveOnly(powerups[..j])
        invariant State() == old(State())
      {
        assert powerups[..j + 1][..j] == powerups[..j];
        if powerups[j].active {
          kept := kept + [powerups[j]];
        }
        j := j + 1;
      }
      assert powerups[..j] == powerups;
      powerups := kept;
    }

    /**
     * `activatePowerup`: without a registry effect behind `.type` nothing happens; otherwise
     * the effect is applied and, when timed, its revert timer is (re)armed.
     */
    method ActivatePowerup(arg: PowerupArg, player: Paddle.Player)
      modifies this, player
      ensures arg.Effect().None? ==> State() == old(State()) && player.State() == old(player.State())
      ensures arg.Effect().Some? ==> State() == Activation(old(State()), arg.Effect().value)
      ensures arg.Effect().Some? ==> player.State() == Applied(arg.Effect().value, old(player.State()))
    {
      var effect := arg.Effect();
      if effect.None? {
        return;
      }
      var e := effect.value;
      ApplyEffect(e, player);
      if e.Duration() > 0 && e.HasRevert() {
        if e.Id() in activeEffects {
          pendingReverts := pendingReverts - {activeEffects[e.Id()]};
        }
        var timer := nextHandle;
        nextHandle := nextHandle + 1;
        pendingReverts := pendingReverts[timer := e];
        activeEffects := activeEffects[e.Id() := timer];
      }
    }

    /** The revert timer `h` fires. */
    method FireRevert(h: Handle, player: Paddle.Player)
      requires h in pendingReverts
      modifies this, player
      ensures State() == Expiry(old(State()), h)
      ensures player.State() == Reverted(old(pendingReverts)[h], old(player.State()))
    {
      var e := pendingReverts[h];
      RevertEffect(e, player);
      activeEffects := activeEffects - {e.Id()};
      pendingReverts := pendingReverts - {h};
    }

    /**
     * `reset`: the pickups go, each recorded timer is cancelled, and each recorded id that
     * names a registry effect with a revert is reverted (the registry scan runs per id; the
     * model scans the registry once, which `RevertsCommute` shows is the same).
     */
    method Reset(player: Paddle.Player)
      modifies this, player
      ensures State() == Cleared(old(State()))
      ensures player.State() == RevertIn(old(player.State()), Registered, old(activeEffects).Keys)
    {
      var ids := activeEffects.Keys;
      powerups := [];
      pendingReverts := pendingReverts - activeEffects.Values;
      var i := 0;
      while i < |Registered|
        invariant 0 <= i <= |Registered|
        invariant RevertIn(player.State(), Registered[i..], ids) == RevertIn(old(player.State()), Registered, ids)
        invariant State() == old(State()).(powerups := [], pendingReverts := old(pendingReverts) - old(activeEffects).Values)
      {
        var e := Registered[i];
        assert Registered[i..][1..] == Registered[i + 1..];
        if e.HasRevert() && e.Id() in ids {
          RevertEffect(e, player);
        }
        i := i + 1;
      }
      activeEffects := map[];
    }
  }
}
