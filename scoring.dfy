/**
 * The score and combo engine: score, coin and multiplier arithmetic, the combo
 * counter with its decay timer, achievements unlocked once, coin spending, the daily
 * challenge (selection by seed, progress, reward) and the thousands-separator formatter.
 */
module Scoring {
  import opened Common

  datatype Achievement = FirstBlood | ComboMaster | Billionaire

  /** The order in which `checkAchievements` visits the achievements object. */
  const AchievementOrder: seq<Achievement> := [FirstBlood, ComboMaster, Billionaire]

  const AchievementBonus: int := 200
  const DecayMs: nat := 3000

  /**
   * The score system's fields. `comboTimeout` is the handle the field holds;
   * `pendingDecays` are the decay timers still scheduled, which a `reset` can leave
   * behind; `nextHandle` is the handle the next `setTimeout` returns.
   */
  datatype ScoreState = ScoreState(
    totalScore: real, combo: nat, maxCombo: nat, coins: int, multiplier: real,
    comboTimeout: Option<Handle>, pendingDecays: set<Handle>, nextHandle: Handle,
    unlocked: set<Achievement>)
  {
    /** The relations every operation keeps between the fields. */
    ghost predicate Valid()
    {
      multiplier == Multiplier(combo) && maxCombo >= combo &&
      (forall h :: h in pendingDecays ==> h < nextHandle) &&
      (comboTimeout.Some? ==> comboTimeout.value < nextHandle)
    }

    /** Only the timer in `comboTimeout` is scheduled: what holds until a `reset` orphans one. */
    ghost predicate SingleDecay()
    {
      pendingDecays <= (if comboTimeout.Some? then {comboTimeout.value} else {})
    }
  }

  /** The multiplier ladder: 1, then one half more for every three combo steps. */
  function Multiplier(combo: nat): (m: real)
    ensures m >= 1.0
    ensures combo < 3 ==> m == 1.0
  {
    1.0 + (combo / 3) as real * 0.5
  }

  /** Three more combo steps add exactly one half to the multiplier. */
  lemma MultiplierLadder(combo: nat)
    ensures Multiplier(combo + 3) == Multiplier(combo) + 0.5
  {
    assert (combo + 3) / 3 == combo / 3 + 1;
  }

  /** `floor(x / 10)` for the coin reward. */
  function CoinsFor(total: real): (c: int)
    ensures c as real <= total / 10.0 < c as real + 1.0
  {
    (total / 10.0).Floor
  }

  /** The score system after its constructor, without stored progress. */
  function InitialScores(): (s: ScoreState)
    ensures s.Valid() && s.SingleDecay() && s.unlocked == {} && s.pendingDecays == {}
  {
    ScoreState(0.0, 0, 0, 0, 1.0, None, {}, 1, {})
  }

  /** `reset`: zero the counters and forget the decay handle without cancelling it; achievements are kept. */
  function ScoreReset(s: ScoreState): (r: ScoreState)
    ensures r.totalScore == 0.0 && r.combo == 0 && r.maxCombo == 0 && r.coins == 0 && r.multiplier == 1.0
    ensures r.comboTimeout == None
    ensures r.pendingDecays == s.pendingDecays && r.unlocked == s.unlocked && r.nextHandle == s.nextHandle
  {
    s.(totalScore := 0.0, combo := 0, maxCombo := 0, coins := 0, comboTimeout := None, multiplier := 1.0)
  }

  /** The first lines of `addScore`: the gain uses the combo and multiplier from before this hit. */
  function Award(s: ScoreState, basePoints: real): (r: ScoreState)
    ensures var total := (basePoints + (s.combo / 5) as real) * s.multiplier;
            r.totalScore == s.totalScore + total && r.coins == s.coins + CoinsFor(total)
    ensures r == s.(totalScore := r.totalScore, coins := r.coins)
  {
    var comboBonus := s.combo / 5;
    var total := (basePoints + comboBonus as real) * s.multiplier;
    s.(totalScore := s.totalScore + total, coins := s.coins + CoinsFor(total))
  }

  /**
   * The state effect shared by `updateCombo` and `addCombo`: one more combo step, the
   * maximum and the multiplier follow, the pending decay is cancelled and a new one is
   * scheduled under a fresh handle.
   */
  function ComboStep(s: ScoreState): (r: ScoreState)
    ensures r.combo == s.combo + 1 && r.maxCombo == if s.combo + 1 > s.maxCombo then s.combo + 1 else s.maxCombo
    ensures r.multiplier == Multiplier(r.combo)
    ensures r.comboTimeout == Some(s.nextHandle) && r.nextHandle == s.nextHandle + 1
    ensures r.pendingDecays == (if s.comboTimeout.Some? then s.pendingDecays - {s.comboTimeout.value} else s.pendingDecays)
                               + {s.nextHandle}
    ensures r.totalScore == s.totalScore && r.coins == s.coins && r.unlocked == s.unlocked
  {
    var combo := s.combo + 1;
    var pending := if s.comboTimeout.Some? then s.pendingDecays - {s.comboTimeout.value} else s.pendingDecays;
    s.(combo := combo, maxCombo := if combo > s.maxCombo then combo else s.maxCombo,
       multiplier := Multiplier(combo), comboTimeout := Some(s.nextHandle),
       pendingDecays := pending + {s.nextHandle}, nextHandle := s.nextHandle + 1)
  }

  /** A decay timer fires: the combo and the multiplier fall back, the maximum stays; the field keeps its stale handle. */
  function ComboDecay(s: ScoreState, h: Handle): (r: ScoreState)
    requires h in s.pendingDecays
    ensures r.combo == 0 && r.multiplier == 1.0 && r.maxCombo == s.maxCombo
    ensures r.pendingDecays == s.pendingDecays - {h} && r.comboTimeout == s.comboTimeout
    ensures r.totalScore == s.totalScore && r.coins == s.coins && r.unlocked == s.unlocked
  {
    s.(combo := 0, multiplier := 1.0, pendingDecays := s.pendingDecays - {h})
  }

  /** The combo step and the decay keep the field relations, and neither creates a second pending decay. */
  lemma ComboTimersKeepInvariants(s: ScoreState, h: Handle)
    ensures s.Valid() ==> ComboStep(s).Valid()
    ensures s.SingleDecay() ==> ComboStep(s).SingleDecay()
    ensures h in s.pendingDecays && s.Valid() ==> ComboDecay(s, h).Valid()
    ensures h in s.pendingDecays && s.SingleDecay() ==> ComboDecay(s, h).SingleDecay()
  {
  }

  /** A `reset` between two hits leaves the earlier decay scheduled: it can end a combo begun after the reset. */
  lemma ResetOrphansTheDecay(s: ScoreState)
    requires s.Valid() && s.comboTimeout.Some? && s.comboTimeout.value in s.pendingDecays
    ensures var after := ComboStep(ScoreReset(s));
            s.comboTimeout.value in after.pendingDecays && after.combo == 1 &&
            !after.SingleDecay() &&
            ComboDecay(after, s.comboTimeout.value).combo == 0
  {
  }

  /** The predicate of each achievement, read at the moment it is visited. */
  predicate Condition(a: Achievement, s: ScoreState)
    ensures a == FirstBlood ==> (Condition(a, s) <==> s.totalScore >= 100.0)
    ensures a == ComboMaster ==> (Condition(a, s) <==> s.maxCombo >= 10)
    ensures a == Billionaire ==> (Condition(a, s) <==> s.coins >= 1000)
  {
    match a
    case FirstBlood => s.totalScore >= 100.0
    case ComboMaster => s.maxCombo >= 10
    case Billionaire => s.coins >= 1000
  }

  /** `unlockAchievement`: 200 coins (the message is cosmetic). */
  function Unlock(s: ScoreState, a: Achievement): (r: ScoreState)
    ensures r == s.(unlocked := s.unlocked + {a}, coins := s.coins + AchievementBonus)
  {
    s.(unlocked := s.unlocked + {a}, coins := s.coins + AchievementBonus)
  }

  /** `checkAchievements` over `order`: each locked one whose predicate holds now is unlocked, in turn. */
  function UnlockPass(s: ScoreState, order: seq<Achievement>): (r: ScoreState)
    ensures s.unlocked <= r.unlocked
    ensures r == s.(unlocked := r.unlocked, coins := r.coins)
    decreases |order|
  {
    if order == [] then s
    else
      var a := order[0];
      var next := if a !in s.unlocked && Condition(a, s) then Unlock(s, a) else s;
      UnlockPass(next, order[1..])
  }

  /** A pass unlocks nothing outside the order it visits. */
  lemma {:induction false} PassUnlocksFromOrder(s: ScoreState, order: seq<Achievement>)
    ensures forall a :: a in UnlockPass(s, order).unlocked && a !in s.unlocked ==> a in order
    decreases |order|
  {
    if order != [] {
      var next := if order[0] !in s.unlocked && Condition(order[0], s) then Unlock(s, order[0]) else s;
      PassUnlocksFromOrder(next, order[1..]);
    }
  }

  /** Each achievement newly unlocked by a pass pays exactly one bonus. */
  lemma {:induction false} PassPaysOncePerUnlock(s: ScoreState, order: seq<Achievement>)
    requires forall i, j :: 0 <= i < j < |order| ==> order[i] != order[j]
    ensures UnlockPass(s, order).coins == s.coins + AchievementBonus * |UnlockPass(s, order).unlocked - s.unlocked|
    decreases |order|
  {
    if order != [] {
      var a := order[0];
      var next := if a !in s.unlocked && Condition(a, s) then Unlock(s, a) else s;
      PassPaysOncePerUnlock(next, order[1..]);
      PassUnlocksFromOrder(next, order[1..]);
      var r := UnlockPass(next, order[1..]);
      assert a !in r.unlocked - next.unlocked;
      if a !in s.unlocked && Condition(a, s) {
        assert r.unlocked - s.unlocked == (r.unlocked - next.unlocked) + {a};
      } else {
        assert r.unlocked - s.unlocked == r.unlocked - next.unlocked;
      }
    }
  }

  /** A second pass right after the first unlocks nothing: the one predicate that can grow, coins, is tested last. */
  lemma PassIsIdempotent(s: ScoreState)
    ensures UnlockPass(UnlockPass(s, AchievementOrder), AchievementOrder) == UnlockPass(s, AchievementOrder)
  {
    var s1 := if FirstBlood !in s.unlocked && Condition(FirstBlood, s) then Unlock(s, FirstBlood) else s;
    var s2 := if ComboMaster !in s1.unlocked && Condition(ComboMaster, s1) then Unlock(s1, ComboMaster) else s1;
    var s3 := if Billionaire !in s2.unlocked && Condition(Billionaire, s2) then Unlock(s2, Billionaire) else s2;
    assert AchievementOrder[1..] == [ComboMaster, Billionaire] && AchievementOrder[1..][1..] == [Billionaire];
    assert UnlockPass(s, AchievementOrder) == UnlockPass(s3, []);
    assert UnlockPass(s3, AchievementOrder) == UnlockPass(s3, []);
  }

  /** One step of a pass: the head of the order is visited against the state reached so far. */
  lemma PassStep(s: ScoreState, a: Achievement, rest: seq<Achievement>)
    ensures UnlockPass(s, [a] + rest) ==
            UnlockPass(if a !in s.unlocked && Condition(a, s) then Unlock(s, a) else s, rest)
  {
    assert ([a] + rest)[1..] == rest;
  }

  /** The bonus of an earlier unlock counts toward the later predicates of the same pass. */
  lemma BonusCascades(s: ScoreState)
    requires s.unlocked == {} && s.totalScore >= 100.0 && s.maxCombo < 10 && s.coins == 800
    ensures UnlockPass(s, AchievementOrder).unlocked == {FirstBlood, Billionaire}
    ensures UnlockPass(s, AchievementOrder).coins == 1200
  {
    var s1 := Unlock(s, FirstBlood);
    var s2 := Unlock(s1, Billionaire);
    assert AchievementOrder == [FirstBlood] + [ComboMaster, Billionaire];
    PassStep(s, FirstBlood, [ComboMaster, Billionaire]);
    assert [ComboMaster, Billionaire] == [ComboMaster] + [Billionaire];
    PassStep(s1, ComboMaster, [Billionaire]);
    assert [Billionaire] == [Billionaire] + [];
    PassStep(s1, Billionaire, []);
    assert UnlockPass(s, AchievementOrder) == s2;
  }

  /** `addScore` without the daily-challenge call: award, combo step, achievements. */
  function ScoreHit(s: ScoreState, basePoints: real): (r: ScoreState)
    ensures r.combo == s.combo + 1 && r.unlocked >= s.unlocked
    ensures r.totalScore == s.totalScore + (basePoints + (s.combo / 5) as real) * s.multiplier
  {
    UnlockPass(ComboStep(Award(s, basePoints)), AchievementOrder)
  }

  /** The eleventh hit of a streak (combo 10, multiplier 2.5 under `Valid`) scores (10 + 2) * 2.5 = 30. */
  lemma EleventhHitScoresThirty(s: ScoreState)
    requires s.Valid() && s.combo == 10
    ensures ScoreHit(s, 10.0).totalScore == s.totalScore + 30.0
  {
  }

  datatype Spending = Spending(scores: ScoreState, ok: bool)

  /** `spendCoins`: succeeds and subtracts iff there are enough coins; otherwise nothing changes. */
  function Spend(s: ScoreState, amount: int): (r: Spending)
    ensures r.ok <==> s.coins >= amount
    ensures r.ok ==> r.scores == s.(coins := s.coins - amount)
    ensures amount >= 0 ==> (r.scores.coins >= 0 <==> s.coins >= 0) && r.scores.coins <= s.coins
    ensures !r.ok ==> r.scores == s
  {
    if s.coins >= amount then Spending(s.(coins := s.coins - amount), true) else Spending(s, false)
  }

  /** A daily challenge record; the description and date strings are not modelled. */
  datatype Challenge = Challenge(kind: string, target: int, reward: int, completed: bool)

  /** The challenge kinds of `generateChallenge`, in the table's order. */
  const ChallengeKinds: seq<string> := ["score", "combo", "bricks", "boss", "powerups"]

  /**
   * The table of `generateChallenge`: one open challenge of each kind, in the order of
   * `ChallengeKinds`, with targets derived from the seed.
   */
  function ChallengeTable(seed: nat): (t: seq<Challenge>)
    ensures |t| == |ChallengeKinds| == 5
    ensures forall i :: 0 <= i < |t| ==> t[i].kind == ChallengeKinds[i] && !t[i].completed
    ensures 5000 <= t[0].target < 8000 && 8 <= t[1].target < 13 && 50 <= t[2].target < 80
    ensures t[3].target == 1 && 5 <= t[4].target < 9
  {
    [ Challenge("score", 5000 + seed % 3000, 500, false),
      Challenge("combo", 8 + seed % 5, 300, false),
      Challenge("bricks", 50 + seed % 30, 400, false),
      Challenge("boss", 1, 800, false),
      Challenge("powerups", 5 + seed % 4, 350, false) ]
  }

  /**
   * `challengeTypes[this.seed % 5]`: the open challenge whose kind is entry `seed % 5` of
   * `ChallengeKinds`, with that kind's seed-derived target and fixed reward.
   */
  function ChallengeFor(seed: nat): (c: Challenge)
    ensures c == ChallengeTable(seed)[seed % 5]
    ensures c.kind == ChallengeKinds[seed % 5] && !c.completed
    ensures forall i :: 0 <= i < |ChallengeKinds| ==> (c.kind == ChallengeKinds[i] <==> seed % 5 == i)
    ensures c.kind == "score" ==> c.target == 5000 + seed % 3000 && c.reward == 500
    ensures c.kind == "combo" ==> c.target == 8 + seed % 5 && c.reward == 300
    ensures c.kind == "bricks" ==> c.target == 50 + seed % 30 && c.reward == 400
    ensures c.kind == "boss" ==> c.target == 1 && c.reward == 800
    ensures c.kind == "powerups" ==> c.target == 5 + seed % 4 && c.reward == 350
  {
    ChallengeTable(seed)[seed % |ChallengeTable(seed)|]
  }

  /** Seeds five apart select the same kind of challenge. */
  lemma SelectionHasPeriodFive(seed: nat)
    ensures ChallengeFor(seed + 5).kind == ChallengeFor(seed).kind
  {
    var i := seed % 5;
    assert (seed + 5) % 5 == i;
    assert ChallengeTable(seed + 5)[i].kind == ChallengeTable(seed)[i].kind;
  }

  datatype DailyState = DailyState(current: Option<Challenge>, progress: real)

  /** The outcome of `updateProgress`: the new state, its return value (`None` for `undefined`) and the coins to pay. */
  datatype Progress = Progress(daily: DailyState, result: Option<bool>, reward: int)

  /**
   * `updateProgress(type, amount)`: ignored without a challenge or for another type;
   * otherwise the progress grows and, whenever it reaches the target, the reward is
   * paid and the challenge marked completed, however often that happens.
   */
  function ProgressStep(d: DailyState, kind: string, amount: real): (r: Progress)
    ensures d.current.None? || d.current.value.kind != kind ==> r == Progress(d, None, 0)
    ensures d.current.Some? && d.current.value.kind == kind ==>
              r.daily.progress == d.progress + amount &&
              (r.result == Some(true) <==> r.daily.progress >= d.current.value.target as real) &&
              r.result.Some? &&
              r.reward == (if r.result == Some(true) then d.current.value.reward else 0) &&
              r.daily.current == Some(d.current.value.(completed := d.current.value.completed || r.result == Some(true)))
  {
    match d.current
    case None => Progress(d, None, 0)
    case Some(c) =>
      if c.kind != kind then Progress(d, None, 0)
      else
        var progress := d.progress + amount;
        if progress >= c.target as real then Progress(DailyState(Some(c.(completed := true)), progress), Some(true), c.reward)
        else Progress(DailyState(d.current, progress), Some(false), 0)
  }

  /** There is no completed guard: once the target is reached, every further call of that type pays again. */
  lemma RewardRepeats(d: DailyState, kind: string, amount: real)
    requires d.current.Some? && d.current.value.kind == kind && amount >= 0.0
    requires d.progress >= d.current.value.target as real
    ensures ProgressStep(d, kind, amount).reward == d.current.value.reward
    ensures ProgressStep(ProgressStep(d, kind, amount).daily, kind, amount).reward == d.current.value.reward
  {
  }

  /** The decimal digits of `n`, as `toString` writes them. */
  function Digits(n: nat): (s: string)
    ensures |s| >= 1
    ensures forall i :: 0 <= i < |s| ==> '0' <= s[i] <= '9'
  {
    var d := ['0', '1', '2', '3', '4', '5', '6', '7', '8', '9'][n % 10];
    if n < 10 then [d] else Digits(n / 10) + [d]
  }

  /**
   * The regular expression `\B(?=(\d{3})+(?!\d))` replaced by ",": a comma goes after a
   * digit exactly when the digits after it form a positive multiple of three.
   */
  function SeparateThousands(s: string): (r: string)
    ensures |r| >= |s|
    ensures s != [] ==> r[0] == s[0]
    decreases |s|
  {
    if s == [] then []
    else [s[0]] + (if |s| > 1 && (|s| - 1) % 3 == 0 then [','] else []) + SeparateThousands(s[1..])
  }

  /** A run of `n` digits receives `(n - 1) / 3` commas. */
  lemma {:induction false} SeparationLength(s: string)
    ensures |SeparateThousands(s)| == |s| + (if s == [] then 0 else (|s| - 1) / 3)
    decreases |s|
  {
    if s != [] {
      SeparationLength(s[1..]);
    }
  }

  /** `formatNumber`, for the non-negative integers it is given. */
  function FormatNumber(n: nat): (r: string)
    ensures |r| >= |Digits(n)| && '0' <= r[0] <= '9'
  {
    SeparateThousands(Digits(n))
  }

  function StripCommas(s: string): (r: string)
    decreases |s|
  {
    if s == [] then [] else (if s[0] == ',' then [] else [s[0]]) + StripCommas(s[1..])
  }

  /** Deleting the commas gives back the digits. */
  lemma {:induction false} StripUndoesSeparation(s: string)
    requires forall i :: 0 <= i < |s| ==> s[i] != ','
    ensures StripCommas(SeparateThousands(s)) == s
    decreases |s|
  {
    if s != [] {
      var tail := SeparateThousands(s[1..]);
      StripUndoesSeparation(s[1..]);
      var sep: string := if |s| > 1 && (|s| - 1) % 3 == 0 then [','] else [];
      StripConcat([s[0]] + sep, tail);
      StripConcat([s[0]], sep);
    }
  }

  lemma {:induction false} StripConcat(a: string, b: string)
    ensures StripCommas(a + b) == StripCommas(a) + StripCommas(b)
    decreases |a|
  {
    if a != [] {
      assert (a + b)[0] == a[0];
      assert (a + b)[1..] == a[1..] + b;
      StripConcat(a[1..], b);
    } else {
      assert a + b == b;
    }
  }

  lemma FormatRoundTrip(n: nat)
    ensures StripCommas(FormatNumber(n)) == Digits(n)
  {
    StripUndoesSeparation(Digits(n));
  }

  /** Grouping in threes from the right: the reading of the regular expression as an independent definition. */
  function GroupFromRight(s: string): string
    decreases |s|
  {
    if |s| <= 3 then s else GroupFromRight(s[..|s| - 3]) + [','] + s[|s| - 3..]
  }

  lemma {:induction false} SeparateShort(s: string)
    requires |s| <= 3
    ensures SeparateThousands(s) == s
    decreases |s|
  {
    if s != [] {
      SeparateShort(s[1..]);
    }
  }

  /** Whether a comma follows the first digit of `a + b`, when `b` is a multiple of three digits long. */
  lemma CommaAfterHead(a: string, b: string)
    requires |b| % 3 == 0 && a != []
    ensures (|a + b| > 1 && (|a + b| - 1) % 3 == 0) ==
            ((|a| > 1 && (|a| - 1) % 3 == 0) || (|a| == 1 && b != []))
  {
    assert |a + b| - 1 == (|a| - 1) + 3 * (|b| / 3);
  }

  /** Separating `a + b`, with `b` a multiple of three digits long, separates `a` and `b` and joins them with one comma. */
  lemma {:induction false} SeparateSplit(a: string, b: string)
    requires |b| % 3 == 0
    ensures SeparateThousands(a + b) ==
            SeparateThousands(a) + (if a != [] && b != [] then [','] else []) + SeparateThousands(b)
    decreases |a|
  {
    if a == [] {
      assert a + b == b;
    } else {
      var ab := a + b;
      assert ab[0] == a[0] && ab[1..] == a[1..] + b;
      SeparateSplit(a[1..], b);
      CommaAfterHead(a, b);
      var joint: string := if b != [] then [','] else [];
      var x, y, z := SeparateThousands(a[1..]), SeparateThousands(b), SeparateThousands(ab[1..]);
      if |a| == 1 {
        assert z == y;
        assert SeparateThousands(ab) == [a[0]] + joint + y;
        assert SeparateThousands(a) == [a[0]];
      } else {
        var sep: string := if (|a| - 1) % 3 == 0 then [','] else [];
        assert z == x + joint + y;
        assert SeparateThousands(ab) == [a[0]] + sep + (x + joint + y);
        assert SeparateThousands(a) == [a[0]] + sep + x;
      }
    }
  }

  lemma {:induction false} SeparateIsGrouping(s: string)
    ensures SeparateThousands(s) == GroupFromRight(s)
    decreases |s|
  {
    if |s| <= 3 {
      SeparateShort(s);
    } else {
      var a, b := s[..|s| - 3], s[|s| - 3..];
      assert s == a + b;
      SeparateSplit(a, b);
      SeparateShort(b);
      SeparateIsGrouping(a);
    }
  }

  /** The formatted number is its digits grouped in threes from the right. */
  lemma FormatGroupsByThree(n: nat)
    ensures FormatNumber(n) == GroupFromRight(Digits(n))
    ensures StripCommas(FormatNumber(n)) == Digits(n)
  {
    SeparateIsGrouping(Digits(n));
    FormatRoundTrip(n);
  }

  /** The daily challenge; `seed` is the date-derived seed, taken as an input. */
  class DailyChallenge {
    var currentChallenge: Option<Challenge>
    var progress: real
    const seed: nat

    function State(): DailyState
      reads this
    {
      DailyState(currentChallenge, progress)
    }

    constructor (seed: nat)
      ensures State() == DailyState(None, 0.0) && this.seed == seed
    {
      currentChallenge := None;
      progress := 0.0;
      this.seed := seed;
    }

    method GenerateChallenge() returns (c: Challenge)
      modifies this
      ensures c == ChallengeFor(seed)
      ensures State() == DailyState(Some(c), 0.0)
    {
      var challengeTypes := ChallengeTable(seed);
      currentChallenge := Some(challengeTypes[seed % |challengeTypes|]);
      progress := 0.0;
      return currentChallenge.value;
    }

    /** `updateProgress`; the reward goes to `scores`, the score system that owns this challenge. */
    method UpdateProgress(kind: string, amount: real, scores: ScoreSystem) returns (result: Option<bool>)
      modifies this, scores`coins
      ensures var p := ProgressStep(old(State()), kind, amount);
              State() == p.daily && result == p.result && scores.coins == old(scores.coins) + p.reward
    {
      if currentChallenge.None? || currentChallenge.value.kind != kind {
        return None;
      }
      progress := progress + amount;
      if progress >= currentChallenge.value.target as real {
        RewardPlayer(scores);
        return Some(true);
      }
      return Some(false);
    }

    method RewardPlayer(scores: ScoreSystem)
      requires currentChallenge.Some?
      modifies this, scores`coins
      ensures scores.coins == old(scores.coins) + old(currentChallenge.value.reward)
      ensures currentChallenge == Some(old(currentChallenge.value).(completed := true)) && progress == old(progress)
    {
      scores.coins := scores.coins + currentChallenge.value.reward;
      currentChallenge := Some(currentChallenge.value.(completed := true));
    }
  }

  class ScoreSystem {
    const daily: DailyChallenge
    var totalScore: real
    var combo: nat
    var maxCombo: nat
    var coins: int
    var comboMultiplier: real
    var comboTimeout: Option<Handle>
    var pendingDecays: set<Handle>
    var nextHandle: Handle
    var unlocked: set<Achievement>

    function State(): ScoreState
      reads this
    {
      ScoreState(totalScore, combo, maxCombo, coins, comboMultiplier, comboTimeout, pendingDecays, nextHandle, unlocked)
    }

    constructor (seed: nat)
      ensures State() == InitialScores() && fresh(daily) && daily.State() == DailyState(None, 0.0)
    {
      daily := new DailyChallenge(seed);
      pendingDecays := {};
      nextHandle := 1;
      unlocked := {};
      new;
      Reset();
    }

    method Reset()
      modifies this
      ensures State() == ScoreReset(old(State()))
    {
      totalScore := 0.0;
      combo := 0;
      maxCombo := 0;
      coins := 0;
      comboTimeout := None;
      comboMultiplier := 1.0;
    }

    method AddScore(basePoints: real)
      modifies this, daily
      ensures var p := ProgressStep(old(daily.State()), "score", basePoints);
              State() == ScoreHit(old(State()), basePoints).(coins := ScoreHit(old(State()), basePoints).coins + p.reward) &&
              daily.State() == p.daily
    {
      ghost var start := State();
      var comboBonus := combo / 5;
      var total := (basePoints + comboBonus as real) * comboMultiplier;
      assert total == (basePoints + (start.combo / 5) as real) * start.multiplier;
      totalScore := totalScore + total;
      coins := coins + CoinsFor(total);
      assert State() == Award(start, basePoints);
      UpdateCombo();
      CheckAchievements();
      ghost var scored := State();
      assert scored == ScoreHit(start, basePoints);
      var _ := daily.UpdateProgress("score", basePoints, this);
    }

    method UpdateCombo()
      modifies this
      ensures State() == ComboStep(old(State()))
    {
      combo := combo + 1;
      maxCombo := if combo > maxCombo then combo else maxCombo;
      comboMultiplier := Multiplier(combo);
      var pending := pendingDecays;
      if comboTimeout.Some? {
        pending := pending - {comboTimeout.value};
      }
      pendingDecays := pending + {nextHandle};
      comboTimeout := Some(nextHandle);
      nextHandle := nextHandle + 1;
    }

    /** The same state effect as `UpdateCombo`; the combo text and screen shake are cosmetic. */
    method AddCombo()
      modifies this
      ensures State() == ComboStep(old(State()))
    {
      UpdateCombo();
    }

    method FireDecay(h: Handle)
      requires h in pendingDecays
      modifies this
      ensures State() == ComboDecay(old(State()), h)
    {
      pendingDecays := pendingDecays - {h};
      combo := 0;
      comboMultiplier := 1.0;
    }

    method SpendCoins(amount: int) returns (ok: bool)
      modifies this
      ensures Spending(State(), ok) == Spend(old(State()), amount)
    {
      if coins >= amount {
        coins := coins - amount;
        return true;
      }
      return false;
    }

    method CheckAchievements()
      modifies this
      ensures State() == UnlockPass(old(State()), AchievementOrder)
    {
      var i := 0;
      while i < |AchievementOrder|
        invariant 0 <= i <= |AchievementOrder|
        invariant UnlockPass(State(), AchievementOrder[i..]) == UnlockPass(old(State()), AchievementOrder)
      {
        var a := AchievementOrder[i];
        assert AchievementOrder[i..][1..] == AchievementOrder[i + 1..];
        if a !in unlocked && Condition(a, State()) {
          unlocked := unlocked + {a};
          UnlockAchievement(a);
        }
        i := i + 1;
      }
    }

    method UnlockAchievement(a: Achievement)
      modifies this
      ensures State() == old(State()).(coins := old(coins) + AchievementBonus)
    {
      coins := coins + AchievementBonus;
    }

    method RecordBrickBreak()
      modifies daily, this`coins
      ensures var p := ProgressStep(old(daily.State()), "bricks", 1.0);
              daily.State() == p.daily && coins == old(coins) + p.reward
      ensures State() == old(State()).(coins := coins)
    {
      var _ := daily.UpdateProgress("bricks", 1.0, this);
    }

    method RecordBossDefeat()
      modifies daily, this`coins
      ensures var p := ProgressStep(old(daily.State()), "boss", 1.0);
              daily.State() == p.daily && coins == old(coins) + p.reward
      ensures State() == old(State()).(coins := coins)
    {
      var _ := daily.UpdateProgress("boss", 1.0, this);
    }
  }
}
