/**
 * The combination-effect variant of the power-up scheduler: `activate` records every
 * effect id (with a timer, or with `null` for an effect without duration) and restarts a
 * 100 ms debounce; the debounce, and every effect expiry, run `checkCombinations`, which
 * fires the first combination of the table whose `'+'`-separated names are all recorded.
 * Also the variant's manager, whose `reset` and `activatePowerup` differ from the live one.
 */
module ComboPowerups {
  import opened Common
  import Paddle
  import opened PowerupTypes
  import Powerups

  const DebounceMs: nat := 100

  /** `split('+')`: the maximal runs between separators; the empty string gives one empty part. */
  function Split(s: string): (parts: seq<string>)
    ensures |parts| >= 1
    ensures forall i :: 0 <= i < |parts| ==> '+' !in parts[i]
    decreases |s|
  {
    if s == [] then [[]]
    else
      var rest := Split(s[1..]);
      if s[0] == '+' then [[]] + rest
      else [[s[0]] + rest[0]] + rest[1..]
  }

  /** The parts written back with `'+'` between them. */
  function Join(parts: seq<string>): string
    decreases |parts|
  {
    if |parts| == 0 then []
    else if |parts| == 1 then parts[0]
    else parts[0] + "+" + Join(parts[1..])
  }

  /** Splitting and joining again gives back the string. */
  lemma {:induction false} JoinSplit(s: string)
    ensures Join(Split(s)) == s
    decreases |s|
  {
    if s != [] {
      JoinSplit(s[1..]);
      var rest := Split(s[1..]);
      if s[0] != '+' {
        if |rest| > 1 {
          assert Join(rest) == rest[0] + "+" + Join(rest[1..]);
          var parts := [[s[0]] + rest[0]] + rest[1..];
          assert parts[1..] == rest[1..];
          assert Join(parts) == ([s[0]] + rest[0]) + "+" + Join(rest[1..]);
        }
        assert s == [s[0]] + s[1..];
      } else {
        assert ([[]] + rest)[1..] == rest;
        assert s == "+" + s[1..];
      }
    }
  }

  /** A string without a separator is its own single part. */
  lemma {:induction false} SplitPlain(a: string)
    requires '+' !in a
    ensures Split(a) == [a]
    decreases |a|
  {
    if a != [] {
      assert '+' !in a[1..] by {
        forall i | 0 <= i < |a| - 1
          ensures a[1..][i] != '+'
        {
          assert a[1..][i] == a[i + 1];
        }
      }
      SplitPlain(a[1..]);
      assert [a[0]] + a[1..] == a;
    }
  }

  /** A separator after a plain prefix ends the first part there. */
  lemma {:induction false} SplitAtSeparator(a: string, t: string)
    requires '+' !in a
    ensures Split(a + "+" + t) == [a] + Split(t)
    decreases |a|
  {
    var s := a + "+" + t;
    if a == [] {
      assert s == "+" + t && s[1..] == t;
    } else {
      assert s[0] == a[0] && s[1..] == a[1..] + "+" + t;
      assert '+' !in a[1..] by {
        forall i | 0 <= i < |a| - 1
          ensures a[1..][i] != '+'
        {
          assert a[1..][i] == a[i + 1];
        }
      }
      SplitAtSeparator(a[1..], t);
      assert [a[0]] + a[1..] == a;
    }
  }

  /** Joining parts without separators and splitting again gives back the parts. */
  lemma {:induction false} SplitJoin(parts: seq<string>)
    requires |parts| >= 1 && forall i :: 0 <= i < |parts| ==> '+' !in parts[i]
    ensures Split(Join(parts)) == parts
    decreases |parts|
  {
    if |parts| == 1 {
      SplitPlain(parts[0]);
    } else {
      SplitJoin(parts[1..]);
      SplitAtSeparator(parts[0], Join(parts[1..]));
      assert [parts[0]] + parts[1..] == parts;
    }
  }

  /** What a combination does to the paddle. The second table entry only reaches `game.balls`. */
  datatype ComboKind = SuperLaser | BulletStorm

  /** An entry of `COMBO_EFFECTS`: its key is its required names joined by `'+'`. */
  datatype Combo = Combo(parts: seq<string>, kind: ComboKind, duration: nat)
  {
    function Key(): string { Join(parts) }

    predicate WellFormed()
    {
      |parts| >= 1 && forall i :: 0 <= i < |parts| ==> '+' !in parts[i]
    }
  }

  /** The table as shipped: the required names are the registry's property names. */
  const ShippedCombos: seq<Combo> := [
    Combo(["LASER", "EXPAND_PADDLE"], SuperLaser, 15000),
    Combo(["EXTRA_BALL", "LASER"], BulletStorm, 10000)
  ]

  /** The table with the required names spelled as the ids `activate` records. */
  const IdCombos: seq<Combo> := [
    Combo(["laser", "expand-paddle"], SuperLaser, 15000),
    Combo(["extra-ball", "laser"], BulletStorm, 10000)
  ]

  /** Each required name is recorded. */
  predicate AllIn(parts: seq<string>, keys: set<string>)
  {
    forall i :: 0 <= i < |parts| ==> parts[i] in keys
  }

  /** The names `checkCombinations` requires for an entry: its key split at `'+'`. */
  function Required(c: Combo): seq<string>
  {
    Split(c.Key())
  }

  lemma RequiredAreParts(c: Combo)
    requires c.WellFormed()
    ensures Required(c) == c.parts
  {
    SplitJoin(c.parts);
  }

  /** The scan of `checkCombinations`: the index of the first entry whose required names are all recorded. */
  function FirstMatch(table: seq<Combo>, keys: set<string>): (r: Option<nat>)
    ensures r.Some? ==> r.value < |table| && AllIn(Required(table[r.value]), keys)
    ensures r.Some? ==> forall j :: 0 <= j < r.value ==> !AllIn(Required(table[j]), keys)
    ensures r.None? ==> forall j :: 0 <= j < |table| ==> !AllIn(Required(table[j]), keys)
    decreases |table|
  {
    if table == [] then None
    else if AllIn(Required(table[0]), keys) then Some(0)
    else
      match FirstMatch(table[1..], keys)
      case None => None
      case Some(i) => Some(i + 1)
  }

  /** `apply` of a combination on the paddle: the super laser is wider and hits twice. */
  function ComboApplied(kind: ComboKind, p: Paddle.PlayerState): (r: Paddle.PlayerState)
    ensures kind.SuperLaser? ==> r.laserWidth == Some(25.0) && r.laserDamage == Some(2)
    ensures r == p.(laserWidth := r.laserWidth, laserDamage := r.laserDamage)
    ensures kind.BulletStorm? ==> r == p
  {
    match kind
    case SuperLaser => p.(laserWidth := Some(25.0), laserDamage := Some(2))
    case BulletStorm => p
  }

  /** `revert` of a combination: the laser goes back to width 15 and damage 1. */
  function ComboReverted(kind: ComboKind, p: Paddle.PlayerState): (r: Paddle.PlayerState)
    ensures kind.SuperLaser? ==> r.laserWidth == Some(15.0) && r.laserDamage == Some(1)
    ensures r == p.(laserWidth := r.laserWidth, laserDamage := r.laserDamage)
    ensures kind.BulletStorm? ==> r == p
  {
    match kind
    case SuperLaser => p.(laserWidth := Some(15.0), laserDamage := Some(1))
    case BulletStorm => p
  }

  /** What an armed timer will do when it fires. */
  datatype Callback = EffectExpiry(effect: EffectType) | ComboExpiry(combo: Combo) | ComboCheck
  {
    /** The delay it was armed with, in milliseconds. */
    function Delay(): nat
    {
      match this
      case EffectExpiry(e) => e.Duration()
      case ComboExpiry(c) => c.duration
      case ComboCheck => DebounceMs
    }
  }

  datatype TrackerState = TrackerState(
    activeEffects: map<string, Option<Handle>>,
    comboTimer: Option<Handle>,
    pending: map<Handle, Callback>,
    nextHandle: Handle)
  {
    /** Timers, armed or recorded, are numbered below the counter, and the debounce field names the only armed debounce. */
    ghost predicate Valid()
    {
      (forall h | h in pending :: h < nextHandle) &&
      (forall k | k in activeEffects && activeEffects[k].Some? :: activeEffects[k].value < nextHandle && activeEffects[k] != comboTimer) &&
      (comboTimer.Some? ==> comboTimer.value in pending && pending[comboTimer.value] == ComboCheck) &&
      (forall h | h in pending && pending[h] == ComboCheck :: comboTimer == Some(h))
    }
  }

  /** The tracker together with the paddle its callbacks act on. */
  datatype World = World(tracker: TrackerState, player: Paddle.PlayerState)

  /** The `forEach` of `activateCombo`: the timer recorded under each required name, if any, is cancelled. */
  function CancelParts(pending: map<Handle, Callback>, parts: seq<string>, recorded: map<string, Option<Handle>>): (r: map<Handle, Callback>)
    ensures r.Keys <= pending.Keys
    ensures forall h | h in r :: r[h] == pending[h]
    ensures forall i | 0 <= i < |parts| && parts[i] in recorded && recorded[parts[i]].Some? :: recorded[parts[i]].value !in r
    decreases |parts|
  {
    if parts == [] then pending
    else
      var timer := if parts[0] in recorded then recorded[parts[0]] else None;
      CancelParts(if timer.Some? then pending - {timer.value} else pending, parts[1..], recorded)
  }

  /** `activateCombo`: cancel the parts' timers (their keys stay), apply, and record a timer under the combination's key. */
  function ComboActivation(w: World, c: Combo): (r: World)
    ensures var s := w.tracker;
            r.tracker.activeEffects == s.activeEffects[c.Key() := Some(s.nextHandle)] &&
            s.nextHandle in r.tracker.pending && r.tracker.pending[s.nextHandle] == ComboExpiry(c) &&
            r.tracker.comboTimer == s.comboTimer && r.tracker.nextHandle == s.nextHandle + 1
    ensures r.player == ComboApplied(c.kind, w.player)
  {
    var s := w.tracker;
    var timer := s.nextHandle;
    var cancelled := CancelParts(s.pending, Required(c), s.activeEffects);
    World(
      TrackerState(s.activeEffects[c.Key() := Some(timer)], s.comboTimer, cancelled[timer := ComboExpiry(c)], timer + 1),
      ComboApplied(c.kind, w.player))
  }

  /** `checkCombinations`: the first matching entry is activated; at most one per pass. */
  function Checked(w: World, table: seq<Combo>): (r: World)
    ensures FirstMatch(table, w.tracker.activeEffects.Keys).None? ==> r == w
  {
    match FirstMatch(table, w.tracker.activeEffects.Keys)
    case None => w
    case Some(i) => ComboActivation(w, table[i])
  }

  /**
   * `activate(powerup)` for a registry effect: cancel the id's earlier timer, apply, record the
   * id with a fresh timer (or with `null` for an effect without duration), then cancel and
   * re-arm the debounce.
   */
  function Activated(w: World, e: EffectType): (r: World)
    ensures e.Id() in r.tracker.activeEffects
    ensures r.tracker.activeEffects.Keys == w.tracker.activeEffects.Keys + {e.Id()}
    ensures forall k | k in w.tracker.activeEffects && k != e.Id() :: r.tracker.activeEffects[k] == w.tracker.activeEffects[k]
    ensures r.tracker.activeEffects[e.Id()].Some? <==> e.Duration() > 0
    ensures r.tracker.comboTimer.Some? && r.tracker.comboTimer.value in r.tracker.pending
    ensures r.tracker.pending[r.tracker.comboTimer.value] == ComboCheck
    ensures r.player == Applied(e, w.player)
  {
    World(Armed(CancelEarlier(w.tracker, e), e), Applied(e, w.player))
  }

  /** The `clearTimeout` of the effect's earlier revert timer, if it has one. */
  function CancelEarlier(s: TrackerState, e: EffectType): (r: TrackerState)
    ensures r == s.(pending := r.pending)
    ensures r.pending.Keys <= s.pending.Keys
    ensures e.Id() in s.activeEffects && s.activeEffects[e.Id()].Some? ==>
              r.pending == s.pending - {s.activeEffects[e.Id()].value}
    ensures !(e.Id() in s.activeEffects && s.activeEffects[e.Id()].Some?) ==> r == s
  {
    if e.Id() in s.activeEffects && s.activeEffects[e.Id()].Some? then s.(pending := s.pending - {s.activeEffects[e.Id()].value})
    else s
  }

  /** The effect's new revert timer (when it has a duration) and slot, then a fresh debounce in place of the old one. */
  function Armed(s: TrackerState, e: EffectType): (r: TrackerState)
    ensures e.Id() in r.activeEffects && (r.activeEffects[e.Id()].Some? <==> e.Duration() > 0)
    ensures e.Duration() > 0 ==> r.activeEffects[e.Id()].value == s.nextHandle
    ensures e.Duration() > 0 && s.comboTimer != Some(s.nextHandle) ==>
              s.nextHandle in r.pending && r.pending[s.nextHandle] == EffectExpiry(e)
    ensures r.comboTimer.Some? && r.comboTimer.value in r.pending && r.pending[r.comboTimer.value] == ComboCheck
    ensures r.nextHandle > s.nextHandle && r.comboTimer.value == r.nextHandle - 1
    ensures s.comboTimer.Some? && s.comboTimer.value < s.nextHandle ==> s.comboTimer.value !in r.pending
    ensures forall k :: k in s.activeEffects && k != e.Id() ==> k in r.activeEffects && r.activeEffects[k] == s.activeEffects[k]
  {
    var timer := s.nextHandle;
    var slot: Option<Handle> := if e.Duration() > 0 then Some(timer) else None;
    var armed := if e.Duration() > 0 then s.pending[timer := EffectExpiry(e)] else s.pending;
    var debounce: Handle := if e.Duration() > 0 then timer + 1 else timer;
    var quiet := if s.comboTimer.Some? then armed - {s.comboTimer.value} else armed;
    TrackerState(s.activeEffects[e.Id() := slot], Some(debounce), quiet[debounce := ComboCheck], debounce + 1)
  }

  /** The armed timer `h` fires: an effect is reverted and forgotten and a check runs; a combination is reverted and forgotten; the debounce runs a check and clears itself. */
  function Fired(w: World, h: Handle, table: seq<Combo>): (r: World)
    requires h in w.tracker.pending
    ensures w.tracker.pending[h].ComboExpiry? ==>
              r.tracker.pending == w.tracker.pending - {h} && r.tracker.comboTimer == w.tracker.comboTimer &&
              w.tracker.pending[h].combo.Key() !in r.tracker.activeEffects &&
              r.player == ComboReverted(w.tracker.pending[h].combo.kind, w.player)
    ensures w.tracker.pending[h].EffectExpiry? &&
            FirstMatch(table, w.tracker.activeEffects.Keys - {w.tracker.pending[h].effect.Id()}).None? ==>
              r.tracker.pending == w.tracker.pending - {h} &&
              w.tracker.pending[h].effect.Id() !in r.tracker.activeEffects &&
              r.player == Reverted(w.tracker.pending[h].effect, w.player)
    ensures w.tracker.pending[h].ComboCheck? ==> r.tracker.comboTimer.None?
  {
    var s := w.tracker.(pending := w.tracker.pending - {h});
    match w.tracker.pending[h]
    case EffectExpiry(e) =>
      Checked(World(s.(activeEffects := s.activeEffects - {e.Id()}), Reverted(e, w.player)), table)
    case ComboExpiry(c) =>
      World(s.(activeEffects := s.activeEffects - {c.Key()}), ComboReverted(c.kind, w.player))
    case ComboCheck =>
      var checked := Checked(World(s, w.player), table);
      checked.(tracker := checked.tracker.(comboTimer := None))
  }

  /** Activation keeps the timers numbered below the counter and leaves exactly one debounce armed. */
  lemma ActivatedKeepsValid(w: World, e: EffectType)
    requires w.tracker.Valid()
    ensures Activated(w, e).tracker.Valid()
    ensures w.tracker.comboTimer.Some? ==> w.tracker.comboTimer.value !in Activated(w, e).tracker.pending
    ensures var r := Activated(w, e).tracker;
            r.activeEffects[e.Id()].Some? ==>
              r.activeEffects[e.Id()].value in r.pending && r.pending[r.activeEffects[e.Id()].value] == EffectExpiry(e)
  {
  }

  lemma {:induction false} CancelPartsKeepsBelow(pending: map<Handle, Callback>, parts: seq<string>, recorded: map<string, Option<Handle>>, bound: int)
    requires forall h | h in pending :: h < bound
    ensures forall h | h in CancelParts(pending, parts, recorded) :: h < bound
  {
  }

  /** A combination activation keeps the tracker valid. */
  lemma ComboActivationKeepsValid(w: World, c: Combo)
    requires w.tracker.Valid()
    ensures ComboActivation(w, c).tracker.Valid()
  {
    var s := w.tracker;
    var cancelled := CancelParts(s.pending, Required(c), s.activeEffects);
    if s.comboTimer.Some? {
      var d := s.comboTimer.value;
      assert d in cancelled by {
        CancelPartsKeeps(s.pending, Required(c), s.activeEffects, d);
      }
    }
  }

  /** A timer no recorded id names survives the cancellation of the parts' timers. */
  lemma {:induction false} CancelPartsKeeps(pending: map<Handle, Callback>, parts: seq<string>, recorded: map<string, Option<Handle>>, d: Handle)
    requires d in pending && forall k | k in recorded :: recorded[k] != Some(d)
    ensures d in CancelParts(pending, parts, recorded)
    decreases |parts|
  {
    if parts != [] {
      var timer := if parts[0] in recorded then recorded[parts[0]] else None;
      CancelPartsKeeps(if timer.Some? then pending - {timer.value} else pending, parts[1..], recorded, d);
    }
  }

  /** The ids of the registry. */
  const RegistryIds: set<string> := {"extra-ball", "expand-paddle", "laser"}

  lemma IdsAreRegistryIds(e: EffectType)
    ensures e.Id() in RegistryIds
  {
  }

  /** The registry's ids and the keys of the table's entries: the only keys the tracker ever records. */
  function Recordable(table: seq<Combo>): set<string>
  {
    RegistryIds + set i | 0 <= i < |table| :: table[i].Key()
  }

  /** Every transition records only recordable keys. */
  lemma KeysStayRecordable(w: World, e: EffectType, i: nat, table: seq<Combo>)
    requires w.tracker.activeEffects.Keys <= Recordable(table)
    requires i < |table|
    ensures Activated(w, e).tracker.activeEffects.Keys <= Recordable(table)
    ensures ComboActivation(w, table[i]).tracker.activeEffects.Keys <= Recordable(table)
    ensures Checked(w, table).tracker.activeEffects.Keys <= Recordable(table)
  {
    IdsAreRegistryIds(e);
    var m := FirstMatch(table, w.tracker.activeEffects.Keys);
    if m.Some? {
      assert table[m.value].Key() in Recordable(table);
    }
  }

  lemma ShippedRequired()
    ensures Required(ShippedCombos[0]) == ["LASER", "EXPAND_PADDLE"]
    ensures Required(ShippedCombos[1]) == ["EXTRA_BALL", "LASER"]
  {
    RequiredAreParts(ShippedCombos[0]);
    RequiredAreParts(ShippedCombos[1]);
  }

  /** The name both shipped entries require is neither an id nor a key of an entry. */
  lemma LaserNameNotRecordable()
    ensures "LASER" !in Recordable(ShippedCombos)
  {
    assert ShippedCombos[0].Key() == "LASER" + "+" + "EXPAND_PADDLE";
    assert ShippedCombos[1].Key() == "EXTRA_BALL" + "+" + "LASER";
    assert |ShippedCombos[0].Key()| > 5 && |ShippedCombos[1].Key()| > 5;
  }

  /** With the shipped table, no recordable key set satisfies any entry: the registry's names are never recorded. */
  lemma ShippedCombosNeverMatch(keys: set<string>)
    requires keys <= Recordable(ShippedCombos)
    ensures FirstMatch(ShippedCombos, keys) == None
  {
    ShippedRequired();
    LaserNameNotRecordable();
    assert "LASER" !in keys;
    assert !AllIn(Required(ShippedCombos[0]), keys);
    assert !AllIn(Required(ShippedCombos[1]), keys) by {
      assert Required(ShippedCombos[1])[1] == "LASER";
    }
  }

  /** With the ids as required names, recording the laser and the expansion selects the super laser. */
  lemma IdCombosMatch(keys: set<string>)
    requires "laser" in keys && "expand-paddle" in keys
    ensures FirstMatch(IdCombos, keys) == Some(0)
  {
    RequiredAreParts(IdCombos[0]);
  }

  /** After the combination fires, its parts stay recorded with their timers cancelled: they are never reverted by a timer. */
  lemma ComboPinsItsParts(w: World, c: Combo, i: nat)
    requires w.tracker.Valid()
    requires c.WellFormed() && i < |c.parts| && c.parts[i] in w.tracker.activeEffects
    requires w.tracker.activeEffects[c.parts[i]].Some? && c.parts[i] != c.Key()
    ensures var r := ComboActivation(w, c).tracker;
            c.parts[i] in r.activeEffects && r.activeEffects[c.parts[i]] == w.tracker.activeEffects[c.parts[i]] &&
            w.tracker.activeEffects[c.parts[i]].value !in r.pending
  {
    RequiredAreParts(c);
  }

  /** `checkCombinations` neither reads nor writes the debounce field. */
  lemma CheckedIgnoresDebounce(w: World, x: Option<Handle>, table: seq<Combo>)
    ensures var c := Checked(w, table);
            Checked(w.(tracker := w.tracker.(comboTimer := x)), table) == c.(tracker := c.tracker.(comboTimer := x))
    ensures Checked(w, table).tracker.comboTimer == w.tracker.comboTimer
  {
  }

  /** Every timer firing keeps the tracker valid. */
  lemma FiredKeepsValid(w: World, h: Handle, table: seq<Combo>)
    requires w.tracker.Valid() && h in w.tracker.pending
    ensures Fired(w, h, table).tracker.Valid()
  {
    var s := w.tracker.(pending := w.tracker.pending - {h});
    match w.tracker.pending[h]
    case EffectExpiry(e) =>
      ComboActivationValidAfterCheck(World(s.(activeEffects := s.activeEffects - {e.Id()}), Reverted(e, w.player)), table);
    case ComboExpiry(c) =>
    case ComboCheck =>
      CheckedIgnoresDebounce(World(s, w.player), None, table);
      ComboActivationValidAfterCheck(World(s.(comboTimer := None), w.player), table);
  }

  lemma ComboActivationValidAfterCheck(w: World, table: seq<Combo>)
    requires w.tracker.Valid()
    ensures Checked(w, table).tracker.Valid()
  {
    var m := FirstMatch(table, w.tracker.activeEffects.Keys);
    if m.Some? {
      ComboActivationKeepsValid(w, table[m.value]);
    }
  }

  /** With the shipped table a check never changes anything, whatever was recorded. */
  lemma ShippedTableNeverCombines(w: World)
    requires w.tracker.activeEffects.Keys <= Recordable(ShippedCombos)
    ensures Checked(w, ShippedCombos) == w
  {
    ShippedCombosNeverMatch(w.tracker.activeEffects.Keys);
  }

  /**
   * Collecting the laser and then the expansion: when the debounce fires, the shipped table
   * leaves the paddle as the two effects made it, while the table keyed by ids switches on the super laser.
   */
  lemma LaserThenExpand(w: World)
    requires w.tracker.Valid() && w.tracker.activeEffects.Keys <= Recordable(ShippedCombos)
    ensures var both := Activated(Activated(w, Laser), ExpandPaddle);
            var d := both.tracker.comboTimer.value;
            Fired(both, d, ShippedCombos).player == both.player &&
            Fired(both, d, IdCombos).player.laserWidth == Some(25.0) &&
            IdCombos[0].Key() in Fired(both, d, IdCombos).tracker.activeEffects
  {
    var one := Activated(w, Laser);
    var both := Activated(one, ExpandPaddle);
    var d := both.tracker.comboTimer.value;
    var s := both.tracker.(pending := both.tracker.pending - {d});
    assert both.tracker.pending[d] == ComboCheck;
    KeysStayRecordable(w, Laser, 0, ShippedCombos);
    KeysStayRecordable(one, ExpandPaddle, 0, ShippedCombos);
    ShippedTableNeverCombines(World(s, both.player));
    IdCombosMatch(s.activeEffects.Keys);
  }

  /** The `apply` of a combination on a live paddle. */
  method ApplyCombo(kind: ComboKind, player: Paddle.Player)
    modifies player
    ensures player.State() == ComboApplied(kind, old(player.State()))
  {
    if kind.SuperLaser? {
      player.laserWidth := Some(25.0);
      player.laserDamage := Some(2);
    }
  }

  /** The `revert` of a combination on a live paddle. */
  method RevertCombo(kind: ComboKind, player: Paddle.Player)
    modifies player
    ensures player.State() == ComboReverted(kind, old(player.State()))
  {
    if kind.SuperLaser? {
      player.laserWidth := Some(15.0);
      player.laserDamage := Some(1);
    }
  }

  /** The `activeEffects` map, the debounce field and the armed timers that `activate`, `checkCombinations` and `activateCombo` work on. */
  class ComboTracker {
    const table: seq<Combo>
    var activeEffects: map<string, Option<Handle>>
    var comboTimer: Option<Handle>
    var pending: map<Handle, Callback>
    var nextHandle: Handle

    function State(): TrackerState
      reads this
    {
      TrackerState(activeEffects, comboTimer, pending, nextHandle)
    }

    constructor (table: seq<Combo>)
      ensures this.table == table
      ensures State() == TrackerState(map[], None, map[], 1) && State().Valid()
    {
      this.table := table;
      activeEffects := map[];
      comboTimer := None;
      pending := map[];
      nextHandle := 1;
    }

    /** `activate(powerup)`: `arg` is the effect behind `powerup.type`; without an argument the read of `.type` throws. */
    method Activate(arg: Option<EffectType>, player: Paddle.Player) returns (outcome: Outcome)
      modifies this, player
      ensures arg.None? ==> outcome == Thrown(TypeError) && State() == old(State()) && player.State() == old(player.State())
      ensures arg.Some? ==> outcome == Done
      ensures arg.Some? ==> World(State(), player.State()) == Activated(World(old(State()), old(player.State())), arg.value)
    {
      if arg.None? {
        return Thrown(TypeError);
      }
      var effect := arg.value;
      ClearEarlier(effect);
      ApplyEffect(effect, player);
      Arm(effect);
      return Done;
    }

    method ClearEarlier(effect: EffectType)
      modifies this
      ensures State() == CancelEarlier(old(State()), effect)
    {
      if effect.Id() in activeEffects {
        var earlier := activeEffects[effect.Id()];
        if earlier.Some? {
          pending := pending - {earlier.value};
        }
      }
    }

    method Arm(effect: EffectType)
      modifies this
      ensures State() == Armed(old(State()), effect)
    {
      var slot: Option<Handle> := None;
      if effect.Duration() > 0 {
        var timer := nextHandle;
        nextHandle := nextHandle + 1;
        pending := pending[timer := EffectExpiry(effect)];
        slot := Some(timer);
      }
      activeEffects := activeEffects[effect.Id() := slot];
      if comboTimer.Some? {
        pending := pending - {comboTimer.value};
      }
      var debounce := nextHandle;
      nextHandle := nextHandle + 1;
      pending := pending[debounce := ComboCheck];
      comboTimer := Some(debounce);
    }

    /** `checkCombinations`: the entries in table order; the first whose names are all recorded is activated, and the scan stops. */
    method CheckCombinations(player: Paddle.Player)
      modifies this, player
      ensures World(State(), player.State()) == Checked(World(old(State()), old(player.State())), table)
    {
      var activeKeys := activeEffects.Keys;
      var i := 0;
      while i < |table|
        invariant 0 <= i <= |table|
        invariant forall j :: 0 <= j < i ==> !AllIn(Required(table[j]), activeKeys)
        invariant State() == old(State()) && player.State() == old(player.State())
      {
        var required := Split(table[i].Key());
        if AllIn(required, activeKeys) {
          ActivateCombo(table[i], player);
          return;
        }
        i := i + 1;
      }
    }

    /** `activateCombo`: the required names' timers are cancelled, the combination applied and its own timer recorded. */
    method ActivateCombo(c: Combo, player: Paddle.Player)
      modifies this, player
      ensures World(State(), player.State()) == ComboActivation(World(old(State()), old(player.State())), c)
    {
      var parts := Split(c.Key());
      var i := 0;
      while i < |parts|
        invariant 0 <= i <= |parts|
        invariant CancelParts(pending, parts[i..], activeEffects) == CancelParts(old(pending), parts, old(activeEffects))
        invariant activeEffects == old(activeEffects) && comboTimer == old(comboTimer) && nextHandle == old(nextHandle)
        invariant player.State() == old(player.State())
      {
        assert parts[i..][1..] == parts[i + 1..];
        var timer := if parts[i] in activeEffects then activeEffects[parts[i]] else None;
        if timer.Some? {
          pending := pending - {timer.value};
        }
        i := i + 1;
      }
      assert parts[i..] == [];
      ApplyCombo(c.kind, player);
      var comboTimeout := nextHandle;
      nextHandle := nextHandle + 1;
      pending := pending[comboTimeout := ComboExpiry(c)];
      activeEffects := activeEffects[c.Key() := Some(comboTimeout)];
    }

    /** The armed timer `h` fires and runs its callback. */
    method Fire(h: Handle, player: Paddle.Player)
      requires h in pending
      modifies this, player
      ensures World(State(), player.State()) == Fired(World(old(State()), old(player.State())), h, table)
    {
      var callback := pending[h];
      pending := pending - {h};
      match callback
      case EffectExpiry(e) =>
        RevertEffect(e, player);
        activeEffects := activeEffects - {e.Id()};
        CheckCombinations(player);
      case ComboExpiry(c) =>
        RevertCombo(c.kind, player);
        activeEffects := activeEffects - {c.Key()};
      case ComboCheck =>
        CheckCombinations(player);
        comboTimer := None;
    }
  }

  datatype SrcTick = SrcTick(pickup: Powerups.Pickup, outcome: Outcome)

  /**
   * The variant's `Powerup.update`: as the live one, except that the collision test has no
   * missing-target guard and a collection calls `activate()` with no argument, which throws
   * before the pickup is switched off and before its sparkle timer advances.
   */
  function SrcStepPickup(p: Powerups.Pickup, deltaTime: real, gameHeight: real, paddle: Rect): (r: SrcTick)
    ensures !Powerups.StepPickup(p, deltaTime, gameHeight, paddle).collected ==>
              r == SrcTick(Powerups.StepPickup(p, deltaTime, gameHeight, paddle).pickup, Done)
    ensures Powerups.StepPickup(p, deltaTime, gameHeight, paddle).collected ==>
              r.outcome == Thrown(TypeError) && r.pickup.sparkleTimer == p.sparkleTimer &&
              r.pickup.y == Powerups.StepPickup(p, deltaTime, gameHeight, paddle).pickup.y &&
              (r.pickup.active <==> r.pickup.y <= gameHeight)
  {
    var live := Powerups.StepPickup(p, deltaTime, gameHeight, paddle);
    if !live.collected then SrcTick(live.pickup, Done)
    else
      var moved := p.(y := p.y + p.speed * (deltaTime / FrameMs));
      var fallen := if moved.y > gameHeight then moved.(active := false) else moved;
      SrcTick(fallen, Thrown(TypeError))
  }

  datatype ResetResult = ResetResult(state: Powerups.ManagerState, outcome: Outcome)

  /**
   * The variant's `PowerupManager.reset` as written: after dropping the pickups it looks the
   * registry up by each recorded timer handle rather than by id; the lookup yields `undefined`
   * and reading `.revert` from it throws, so nothing is reverted, cancelled or cleared.
   */
  function SrcReset(s: Powerups.ManagerState): (r: ResetResult)
    ensures r.outcome.Done? <==> s.activeEffects == map[]
    ensures r.outcome.Thrown? ==> r.outcome.error == TypeError
    ensures r.state.powerups == [] && r.state.activeEffects == s.activeEffects && r.state.pendingReverts == s.pendingReverts
  {
    var emptied := s.(powerups := []);
    if s.activeEffects == map[] then ResetResult(emptied, Done) else ResetResult(emptied, Thrown(TypeError))
  }

  /**
   * After any timed activation the variant's reset throws and leaves the revert armed and recorded,
   * whereas the live reset cancels every timer.
   */
  lemma SrcResetLeavesTimersArmed(s: Powerups.ManagerState, e: EffectType)
    requires s.Valid() && e.Timed()
    ensures var t := Powerups.Activation(s, e);
            SrcReset(t).outcome == Thrown(TypeError) &&
            s.nextHandle in SrcReset(t).state.pendingReverts && e.Id() in SrcReset(t).state.activeEffects &&
            Powerups.Cleared(t).pendingReverts == map[]
  {
    var t := Powerups.Activation(s, e);
    assert e.Id() in t.activeEffects;
    Powerups.ActivationKeepsValid(s, e);
    Powerups.ClearedCancelsEveryTimer(t);
  }

  /** The variant's `PowerupManager`. */
  class SrcPowerupManager {
    var powerups: seq<Powerups.Pickup>
    var activeEffects: map<string, Handle>
    var pendingReverts: map<Handle, EffectType>
    var nextHandle: Handle

    function State(): Powerups.ManagerState
      reads this
    {
      Powerups.ManagerState(powerups, activeEffects, pendingReverts, nextHandle)
    }

    constructor ()
      ensures State() == Powerups.ManagerState([], map[], map[], 1) && State().Valid()
    {
      powerups := [];
      activeEffects := map[];
      pendingReverts := map[];
      nextHandle := 1;
    }

    /**
     * `activatePowerup`: reads `powerup.type` and calls its `apply` with no guard, so anything
     * but an object holding a registry effect throws; otherwise it records as the live manager does.
     */
    method ActivatePowerup(arg: Powerups.PowerupArg, player: Paddle.Player) returns (outcome: Outcome)
      modifies this, player
      ensures arg.Effect().None? ==> outcome == Thrown(TypeError) && State() == old(State()) && player.State() == old(player.State())
      ensures arg.Effect().Some? ==> outcome == Done
      ensures arg.Effect().Some? ==> State() == Powerups.Activation(old(State()), arg.Effect().value)
      ensures arg.Effect().Some? ==> player.State() == Applied(arg.Effect().value, old(player.State()))
    {
      var effect := arg.Effect();
      if effect.None? {
        return Thrown(TypeError);
      }
      var e := effect.value;
      ApplyEffect(e, player);
      if e.Duration() > 0 && e.HasRevert() {
        if e.Id() in activeEffects {
          pendingReverts := pendingReverts - {activeEffects[e.Id()]};
        }
        var timer := nextHandle;
        nextHandle := nextHandle + 1;
        pendingReverts := pendingReverts[timer := e];
        activeEffects := activeEffects[e.Id() := timer];
      }
      return Done;
    }

    /** `reset`, as written. */
    method Reset() returns (outcome: Outcome)
      modifies this
      ensures State() == SrcReset(old(State())).state && outcome == SrcReset(old(State())).outcome
    {
      powerups := [];
      if activeEffects != map[] {
        return Thrown(TypeError);
      }
      activeEffects := map[];
      return Done;
    }

    /** The revert timer `h` fires: revert, and delete the id. */
    method FireRevert(h: Handle, player: Paddle.Player)
      requires h in pendingReverts
      modifies this, player
      ensures State() == Powerups.Expiry(old(State()), h)
      ensures player.State() == Reverted(old(pendingReverts)[h], old(player.State()))
    {
      var e := pendingReverts[h];
      RevertEffect(e, player);
      activeEffects := activeEffects - {e.Id()};
      pendingReverts := pendingReverts - {h};
    }
  }
}
