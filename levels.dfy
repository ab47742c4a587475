/**
 * Levels: the brick grid built from a layout of type codes, the three shipped levels,
 * lookup by number, the conversion of percentage geometry to pixels, the completion
 * rule (schedule the next level, or victory) and the boss's ping-pong sweep.
 */
module Levels {
  import opened Common

  datatype BrickType = Normal | Steel | PowerupBrick | BossBrick
  {
    /** The numeric codes of `BRICK_TYPE`. */
    function Code(): int
    {
      match this
      case Normal => 1
      case Steel => 2
      case PowerupBrick => 3
      case BossBrick => 4
    }
  }

  /** The values of `POWERUP_TYPE`, in declaration order. */
  datatype PowerupKind = MultiBall | Expand | LaserKind
  {
    function Name(): string
    {
      match this
      case MultiBall => "multi-ball"
      case Expand => "expand"
      case LaserKind => "laser"
    }
  }

  const PowerupKinds: seq<PowerupKind> := [MultiBall, Expand, LaserKind]

  /**
   * `randomPowerup`: `roll` is the value `Math.random()` returned; the kind at index
   * `floor(roll * 3)` is chosen, so each kind owns a third of the unit interval.
   */
  function RandomPowerup(roll: real): (k: PowerupKind)
    requires 0.0 <= roll < 1.0
    ensures roll < 1.0 / 3.0 ==> k == MultiBall
    ensures 1.0 / 3.0 <= roll < 2.0 / 3.0 ==> k == Expand
    ensures 2.0 / 3.0 <= roll ==> k == LaserKind
  {
    var i := (roll * (|PowerupKinds| as real)).Floor;
    assert 0 <= i < 3;
    PowerupKinds[i]
  }

  /** A layout cell: the number 0 (the only value `generateBricks` skips) or any other value. */
  datatype Cell = Number(n: real) | Text(s: string)

  datatype Brick = Brick(
    kind: BrickType, powerup: Option<PowerupKind>, health: int,
    x: Field, y: real, width: Field, height: real, active: bool)
  {
    /** What `collideWith` reads from a brick. */
    function Target(): Shape { Shape(x, Num(y), width, Num(height)) }
  }

  /**
   * One brick of the grid. Every cell starts as a normal brick of one column's width
   * and 30 px height; "S", "P" and "B" (compared as strings) change type, health,
   * power-up and, for the boss brick, the size. `kind` is the draw of `randomPowerup`
   * for this cell, used only by "P".
   */
  function MakeBrick(code: Cell, row: nat, col: nat, cols: nat, kind: PowerupKind): (b: Brick)
    requires cols > 0
    ensures b.active && b.y == row as real * 40.0 + 60.0
    ensures b.x == Pct(col as real * (100.0 / cols as real))
    ensures code == Text("S") ==> b.kind == Steel && b.health == 3 && b.powerup == None
    ensures code == Text("P") ==> b.kind == PowerupBrick && b.health == 1 && b.powerup == Some(kind)
    ensures code == Text("B") ==> b.kind == BossBrick && b.health == 15 && b.powerup == None &&
                                  b.width == Pct(30.0) && b.height == 50.0
    ensures code != Text("B") ==> b.width == Pct(100.0 / cols as real) && b.height == 30.0
    ensures code != Text("S") && code != Text("P") && code != Text("B") ==>
              b.kind == Normal && b.health == 1 && b.powerup == None
  {
    var default := Brick(Normal, None, 1, Pct(col as real * (100.0 / cols as real)), row as real * 40.0 + 60.0,
                         Pct(100.0 / cols as real), 30.0, true);
    if code == Text("S") then default.(kind := Steel, health := 3)
    else if code == Text("P") then default.(kind := PowerupBrick, powerup := Some(kind))
    else if code == Text("B") then default.(kind := BossBrick, health := 15, width := Pct(30.0), height := 50.0)
    else default
  }

  /**
   * The draw passed to `MakeBrick` ranges over exactly what `randomPowerup` returns: every
   * kind is drawn for some roll in [0, 1), so a "P" brick can carry any of the three.
   */
  lemma EveryKindIsDrawn(k: PowerupKind)
    ensures exists roll: real :: 0.0 <= roll < 1.0 && RandomPowerup(roll) == k
  {
    var roll := match k case MultiBall => 0.0 case Expand => 0.5 case LaserKind => 0.9;
    assert RandomPowerup(roll) == k;
  }

  /** The bricks pushed for the first `k` cells of row `row`. */
  function RowBricks(cells: seq<Cell>, row: nat, cols: nat, choose: (nat, nat) -> PowerupKind, k: nat): (bs: seq<Brick>)
    requires cols > 0 && k <= |cells|
    ensures |bs| <= k
    ensures forall i :: 0 <= i < |bs| ==> bs[i].active && bs[i].health >= 1
  {
    if k == 0 then []
    else
      RowBricks(cells, row, cols, choose, k - 1) +
      (if cells[k - 1] == Number(0.0) then [] else [MakeBrick(cells[k - 1], row, k - 1, cols, choose(row, k - 1))])
  }

  /** The bricks pushed for the first `n` rows. */
  function GridBricks(layout: seq<seq<Cell>>, cols: nat, choose: (nat, nat) -> PowerupKind, n: nat): (bs: seq<Brick>)
    requires cols > 0 && n <= |layout|
    ensures |bs| <= CellCount(layout, n)
    ensures forall i :: 0 <= i < |bs| ==> bs[i].active && bs[i].health >= 1
  {
    if n == 0 then []
    else GridBricks(layout, cols, choose, n - 1) + RowBricks(layout[n - 1], n - 1, cols, choose, |layout[n - 1]|)
  }

  /** `generateBricks` reads the column count from row 0, so it needs a non-empty first row. */
  predicate WellFormed(layout: seq<seq<Cell>>)
  {
    |layout| > 0 && |layout[0]| > 0
  }

  /** The bricks of a layout: every one starts active with positive health, at most one per cell. */
  function LayoutBricks(layout: seq<seq<Cell>>, choose: (nat, nat) -> PowerupKind): (bs: seq<Brick>)
    requires WellFormed(layout)
    ensures |bs| <= CellCount(layout, |layout|)
    ensures forall i :: 0 <= i < |bs| ==> bs[i].active && bs[i].health >= 1
  {
    GridBricks(layout, |layout[0]|, choose, |layout|)
  }

  predicate NoZeroCell(layout: seq<seq<Cell>>)
  {
    forall r, c :: 0 <= r < |layout| && 0 <= c < |layout[r]| ==> layout[r][c] != Number(0.0)
  }

  function CellCount(layout: seq<seq<Cell>>, n: nat): nat
    requires n <= |layout|
  {
    if n == 0 then 0 else CellCount(layout, n - 1) + |layout[n - 1]|
  }

  /** Without a numeric 0, cell `c` of a row becomes brick `c` of that row, and the row yields one brick per cell. */
  lemma {:induction false} RowBricksByColumn(cells: seq<Cell>, row: nat, cols: nat, choose: (nat, nat) -> PowerupKind, k: nat)
    requires cols > 0 && k <= |cells|
    requires forall c :: 0 <= c < k ==> cells[c] != Number(0.0)
    ensures |RowBricks(cells, row, cols, choose, k)| == k
    ensures forall c :: 0 <= c < k ==>
              RowBricks(cells, row, cols, choose, k)[c] == MakeBrick(cells[c], row, c, cols, choose(row, c))
  {
    if k > 0 {
      RowBricksByColumn(cells, row, cols, choose, k - 1);
    }
  }

  /** Every cell that is not the number 0 yields exactly one brick. */
  lemma {:induction false} OneBrickPerCell(layout: seq<seq<Cell>>, cols: nat, choose: (nat, nat) -> PowerupKind, n: nat)
    requires cols > 0 && n <= |layout| && NoZeroCell(layout)
    ensures |GridBricks(layout, cols, choose, n)| == CellCount(layout, n)
  {
    if n > 0 {
      OneBrickPerCell(layout, cols, choose, n - 1);
      RowBricksByColumn(layout[n - 1], n - 1, cols, choose, |layout[n - 1]|);
    }
  }

  datatype BossConfig = BossConfig(health: int, pattern: string, moveSpeed: real)

  datatype LevelConfig = LevelConfig(number: int, background: string, boss: Option<BossConfig>, layout: seq<seq<Cell>>)

  /** The three levels of `createLevels`; every cell is a string, `'0'` included. */
  const ShippedLevels: seq<LevelConfig> := [
    LevelConfig(1, "#ffd1dc", None, [
      [Text("1"), Text("1"), Text("1"), Text("1")],
      [Text("P"), Text("0"), Text("0"), Text("P")],
      [Text("1"), Text("S"), Text("S"), Text("1")]]),
    LevelConfig(2, "#ffb3ba", None, [
      [Text("S"), Text("1"), Text("1"), Text("S")],
      [Text("1"), Text("P"), Text("P"), Text("1")],
      [Text("S"), Text("1"), Text("1"), Text("S")]]),
    LevelConfig(5, "#ff8095", Some(BossConfig(100, "laser-barrage", 2.0)), [
      [Text("B"), Text("B"), Text("B")]])
  ]

  /** Because the `'0'` cells are strings, level 1 has twelve bricks, and its two "gaps" are normal bricks. */
  lemma LevelOneHasNoGaps(choose: (nat, nat) -> PowerupKind)
    ensures WellFormed(ShippedLevels[0].layout)
    ensures |LayoutBricks(ShippedLevels[0].layout, choose)| == 12
    ensures LayoutBricks(ShippedLevels[0].layout, choose)[5].kind == Normal
    ensures LayoutBricks(ShippedLevels[0].layout, choose)[5].health == 1
  {
    var layout := ShippedLevels[0].layout;
    assert |layout| == 3 && |layout[0]| == 4 && |layout[1]| == 4 && |layout[2]| == 4;
    assert NoZeroCell(layout);
    FourByThreeGrid(layout, choose);
    assert layout[1][1] == Text("0");
  }

  /** A three-row layout of four cells per row with no numeric 0 yields twelve bricks, the sixth from row 1, column 1. */
  lemma FourByThreeGrid(layout: seq<seq<Cell>>, choose: (nat, nat) -> PowerupKind)
    requires |layout| == 3 && |layout[0]| == 4 && |layout[1]| == 4 && |layout[2]| == 4 && NoZeroCell(layout)
    ensures WellFormed(layout)
    ensures |LayoutBricks(layout, choose)| == 12
    ensures LayoutBricks(layout, choose)[5] == MakeBrick(layout[1][1], 1, 1, 4, choose(1, 1))
  {
    OneBrickPerCell(layout, 4, choose, 3);
    OneBrickPerCell(layout, 4, choose, 1);
    RowBricksByColumn(layout[1], 1, 4, choose, 4);
    assert GridBricks(layout, 4, choose, 3) ==
           GridBricks(layout, 4, choose, 1) + RowBricks(layout[1], 1, 4, choose, 4) + RowBricks(layout[2], 2, 4, choose, 4);
  }

  /** The nearest index holding a level with that number, as `Array.prototype.find` scans. */
  function FirstIndex(numbers: seq<int>, n: int): (r: Option<nat>)
    ensures r.Some? ==> r.value < |numbers| && numbers[r.value] == n &&
                        forall j :: 0 <= j < r.value ==> numbers[j] != n
    ensures r.None? <==> forall j :: 0 <= j < |numbers| ==> numbers[j] != n
  {
    if numbers == [] then None
    else if numbers[0] == n then Some(0)
    else match FirstIndex(numbers[1..], n)
      case None => None
      case Some(i) => Some(i + 1)
  }

  /** What happens in `update` given the current level's number and its count of active bricks. */
  datatype Completion = InProgress | NextLevel(number: int) | Victory

  function CompletionRule(numbers: seq<int>, current: int, remaining: nat): (c: Completion)
    ensures remaining > 0 ==> c == InProgress
    ensures remaining == 0 ==> (c == NextLevel(current + 1) <==> current + 1 in numbers)
    ensures remaining == 0 ==> (c == Victory <==> current + 1 !in numbers)
  {
    if remaining != 0 then InProgress
    else if FirstIndex(numbers, current + 1).Some? then NextLevel(current + 1)
    else Victory
  }

  /** With levels 1, 2 and 5, clearing level 1 leads to level 2 and clearing level 2 ends the game: level 5 is never reached. */
  lemma ShippedProgression()
    ensures CompletionRule([1, 2, 5], 1, 0) == NextLevel(2)
    ensures CompletionRule([1, 2, 5], 2, 0) == Victory
    ensures CompletionRule([1, 2, 5], 5, 0) == Victory
  {
  }

  function ToPixels(f: Field, canvasWidth: real): (r: Field)
    ensures r.Num?
    ensures f.Num? ==> r == f
    ensures f.Pct? ==> r.v == canvasWidth * f.p / 100.0
  {
    match f
    case Num(_) => f
    case Pct(p) => Num(canvasWidth * p / 100.0)
  }

  function ResizeBrick(b: Brick, canvasWidth: real): (r: Brick)
    ensures r.Target().IsNumeric()
    ensures r == b.(x := ToPixels(b.x, canvasWidth), width := ToPixels(b.width, canvasWidth))
  {
    b.(x := ToPixels(b.x, canvasWidth), width := ToPixels(b.width, canvasWidth))
  }

  /** `resize`: only percentage x and width values are rewritten, to pixels of the current width. */
  function ResizedBricks(bricks: seq<Brick>, canvasWidth: real): (r: seq<Brick>)
    ensures |r| == |bricks|
    ensures forall i :: 0 <= i < |r| ==> r[i] == ResizeBrick(bricks[i], canvasWidth)
  {
    seq(|bricks|, i requires 0 <= i < |bricks| => ResizeBrick(bricks[i], canvasWidth))
  }

  /** After one `resize` every brick is numeric, so a second one changes nothing, whatever the new width. */
  lemma ResizeIsIdempotent(bricks: seq<Brick>, w1: real, w2: real)
    ensures forall i :: 0 <= i < |bricks| ==> ResizedBricks(bricks, w1)[i].Target().IsNumeric()
    ensures ResizedBricks(ResizedBricks(bricks, w1), w2) == ResizedBricks(bricks, w1)
  {
  }

  /** `filter(b => b.active).length` */
  function ActiveCount(bricks: seq<Brick>): (n: nat)
    ensures n <= |bricks|
    ensures n == 0 <==> forall i :: 0 <= i < |bricks| ==> !bricks[i].active
  {
    if bricks == [] then 0
    else ActiveCount(bricks[..|bricks| - 1]) + (if bricks[|bricks| - 1].active then 1 else 0)
  }

  datatype BossPos = BossPos(x: real, direction: real)

  /** The boss `update` closure: move by `direction * moveSpeed`, then reverse iff outside `[10, 70]`. */
  function BossStep(p: BossPos, moveSpeed: real): (r: BossPos)
    ensures r.x == p.x + p.direction * moveSpeed
    ensures r.direction == (if r.x > 70.0 || r.x < 10.0 then -p.direction else p.direction)
  {
    var x := p.x + p.direction * moveSpeed;
    BossPos(x, if x > 70.0 || x < 10.0 then p.direction * -1.0 else p.direction)
  }

  /** Where a sweeping boss can be: heading right only from inside `[10 - s, 70]`, left only from `[10, 70 + s]`. */
  ghost predicate Sweeping(p: BossPos, moveSpeed: real)
  {
    (p.direction == 1.0 && 10.0 - moveSpeed <= p.x <= 70.0) ||
    (p.direction == -1.0 && 10.0 <= p.x <= 70.0 + moveSpeed)
  }

  /** The sweep invariant: it holds at the start (x 35, heading right) and every step keeps it. */
  lemma SweepInvariant(p: BossPos, moveSpeed: real)
    requires moveSpeed >= 0.0
    ensures Sweeping(BossPos(35.0, 1.0), moveSpeed)
    ensures Sweeping(p, moveSpeed) ==> Sweeping(BossStep(p, moveSpeed), moveSpeed)
  {
  }

  function BossSteps(p: BossPos, moveSpeed: real, n: nat): BossPos
  {
    if n == 0 then p else BossStep(BossSteps(p, moveSpeed, n - 1), moveSpeed)
  }

  /** After any number of frames the boss stays within one step of `[10, 70]` and its direction is ±1. */
  lemma {:induction false} BossStaysNearTheBand(moveSpeed: real, n: nat)
    requires moveSpeed >= 0.0
    ensures Sweeping(BossSteps(BossPos(35.0, 1.0), moveSpeed, n), moveSpeed)
    ensures 10.0 - moveSpeed <= BossSteps(BossPos(35.0, 1.0), moveSpeed, n).x <= 70.0 + moveSpeed
  {
    if n > 0 {
      BossStaysNearTheBand(moveSpeed, n - 1);
      SweepInvariant(BossSteps(BossPos(35.0, 1.0), moveSpeed, n - 1), moveSpeed);
    }
  }

  /** The boss object of `initBoss`: the config's fields plus position and direction. */
  class Boss {
    const health: int
    const pattern: string
    const moveSpeed: real
    var x: real
    var y: real
    var direction: real

    constructor (config: BossConfig)
      ensures health == config.health && pattern == config.pattern && moveSpeed == config.moveSpeed
      ensures x == 35.0 && y == 20.0 && direction == 1.0
    {
      health := config.health;
      pattern := config.pattern;
      moveSpeed := config.moveSpeed;
      x := 35.0;
      y := 20.0;
      direction := 1.0;
    }

    method Update()
      modifies this
      ensures BossPos(x, direction) == BossStep(BossPos(old(x), old(direction)), moveSpeed)
      ensures y == old(y)
    {
      x := x + direction * moveSpeed;
      if x > 70.0 || x < 10.0 {
        direction := direction * -1.0;
      }
    }
  }

  class Level {
    const number: int
    const boss: Option<BossConfig>
    const background: string
    var bricks: seq<Brick>

    constructor (config: LevelConfig, choose: (nat, nat) -> PowerupKind)
      requires WellFormed(config.layout)
      ensures number == config.number && boss == config.boss && background == config.background
      ensures bricks == LayoutBricks(config.layout, choose)
    {
      number := config.number;
      boss := config.boss;
      background := config.background;
      bricks := [];
      new;
      GenerateBricks(config.layout, choose);
    }

    /** The nested `forEach` over rows and cells, pushing one brick per cell that is not the number 0. */
    method GenerateBricks(layout: seq<seq<Cell>>, choose: (nat, nat) -> PowerupKind)
      requires WellFormed(layout)
      modifies this`bricks
      ensures bricks == old(bricks) + LayoutBricks(layout, choose)
    {
      var cols := |layout[0]|;
      var rowIndex := 0;
      while rowIndex < |layout|
        invariant 0 <= rowIndex <= |layout|
        invariant bricks == old(bricks) + GridBricks(layout, cols, choose, rowIndex)
      {
        PushRow(layout[rowIndex], rowIndex, cols, choose);
        rowIndex := rowIndex + 1;
      }
    }

    /** The inner `forEach` of `generateBricks`, over the cells of one row. */
    method PushRow(row: seq<Cell>, rowIndex: nat, cols: nat, choose: (nat, nat) -> PowerupKind)
      requires cols > 0
      modifies this`bricks
      ensures bricks == old(bricks) + RowBricks(row, rowIndex, cols, choose, |row|)
    {
      var colIndex := 0;
      while colIndex < |row|
        invariant 0 <= colIndex <= |row|
        invariant bricks == old(bricks) + RowBricks(row, rowIndex, cols, choose, colIndex)
      {
        var brickCode := row[colIndex];
        if brickCode != Number(0.0) {
          var brick := Brick(Normal, None, 1, Pct(colIndex as real * (100.0 / cols as real)),
                             rowIndex as real * 40.0 + 60.0, Pct(100.0 / cols as real), 30.0, true);
          if brickCode == Text("S") {
            brick := brick.(kind := Steel, health := 3);
          } else if brickCode == Text("P") {
            brick := brick.(kind := PowerupBrick, powerup := Some(choose(rowIndex, colIndex)));
          } else if brickCode == Text("B") {
            brick := brick.(kind := BossBrick, health := 15, width := Pct(30.0), height := 50.0);
          }
          assert brick == MakeBrick(brickCode, rowIndex, colIndex, cols, choose(rowIndex, colIndex));
          bricks := bricks + [brick];
        }
        colIndex := colIndex + 1;
      }
    }
  }

  function NumbersOf(levels: seq<Level>): (r: seq<int>)
    ensures |r| == |levels| && forall i :: 0 <= i < |levels| ==> r[i] == levels[i].number
  {
    seq(|levels|, i requires 0 <= i < |levels| => levels[i].number)
  }

  /**
   * The level manager. `background` and `boss` are the game's `background` and `boss`
   * properties, which only this object writes; `pendingLoads` holds the level-change
   * timers `update` has scheduled, with the level number each will load.
   */
  class LevelManager {
    const levels: seq<Level>
    var currentLevel: Level?
    var background: Option<string>
    var boss: Boss?
    var pendingLoads: map<Handle, int>
    var nextHandle: Handle

    ghost predicate Valid()
      reads this
    {
      (currentLevel != null ==> currentLevel in levels) &&
      forall h :: h in pendingLoads ==> h < nextHandle
    }

    /** `createLevels`: `choose(i, row, col)` is the power-up drawn for cell `(row, col)` of level `i`. */
    constructor (choose: (nat, nat, nat) -> PowerupKind)
      ensures Valid()
      ensures |levels| == |ShippedLevels| && NumbersOf(levels) == [1, 2, 5]
      ensures forall i :: 0 <= i < |levels| ==>
                levels[i].number == ShippedLevels[i].number &&
                levels[i].background == ShippedLevels[i].background &&
                levels[i].boss == ShippedLevels[i].boss &&
                levels[i].bricks == LayoutBricks(ShippedLevels[i].layout, (r: nat, c: nat) => choose(i, r, c))
      ensures currentLevel == null && background == None && boss == null && pendingLoads == map[]
    {
      var level1 := new Level(ShippedLevels[0], (r: nat, c: nat) => choose(0, r, c));
      var level2 := new Level(ShippedLevels[1], (r: nat, c: nat) => choose(1, r, c));
      var level5 := new Level(ShippedLevels[2], (r: nat, c: nat) => choose(2, r, c));
      levels := [level1, level2, level5];
      currentLevel := null;
      background := None;
      boss := null;
      pendingLoads := map[];
      nextHandle := 1;
    }

    /** The `find` in `loadLevel` and `update`. */
    method FindLevel(levelNumber: int) returns (found: Level?)
      ensures match FirstIndex(NumbersOf(levels), levelNumber)
              case None => found == null
              case Some(i) => found == levels[i]
    {
      var i := 0;
      while i < |levels|
        invariant 0 <= i <= |levels|
        invariant forall j :: 0 <= j < i ==> levels[j].number != levelNumber
      {
        if levels[i].number == levelNumber {
          assert FirstIndex(NumbersOf(levels), levelNumber) == Some(i);
          return levels[i];
        }
        i := i + 1;
      }
      return null;
    }

    /**
     * `loadLevel`: an unknown number throws before anything is assigned. Otherwise the
     * pre-built level object becomes current (its bricks keep their health and active
     * flags from any earlier visit), the background is set, a declared boss replaces the
     * previous one (a level without a boss leaves it in place), and `resize` runs.
     */
    method LoadLevel(levelNumber: int, canvasWidth: real) returns (outcome: Outcome)
      requires Valid()
      modifies this, levels
      ensures Valid()
      ensures FirstIndex(NumbersOf(levels), levelNumber).None? ==>
                outcome == Thrown(NotFound(levelNumber)) &&
                currentLevel == old(currentLevel) && background == old(background) && boss == old(boss) &&
                forall l :: l in levels ==> l.bricks == old(l.bricks)
      ensures FirstIndex(NumbersOf(levels), levelNumber).Some? ==>
                var target := levels[FirstIndex(NumbersOf(levels), levelNumber).value];
                outcome == Done && currentLevel == target && background == Some(target.background) &&
                (target.boss.None? ==> boss == old(boss)) &&
                (target.boss.Some? ==> boss != null && fresh(boss) && boss.moveSpeed == target.boss.value.moveSpeed &&
                                       boss.x == 35.0 && boss.direction == 1.0) &&
                target.bricks == ResizedBricks(old(target.bricks), canvasWidth) &&
                forall l :: l in levels && l != target ==> l.bricks == old(l.bricks)
      ensures pendingLoads == old(pendingLoads) && nextHandle == old(nextHandle)
    {
      var targetLevel := FindLevel(levelNumber);
      if targetLevel == null {
        return Thrown(NotFound(levelNumber));
      }
      currentLevel := targetLevel;
      background := Some(targetLevel.background);
      if targetLevel.boss.Some? {
        InitBoss(targetLevel.boss.value);
      }
      Resize(canvasWidth);
      return Done;
    }

    method InitBoss(config: BossConfig)
      modifies this`boss
      ensures boss != null && fresh(boss)
      ensures boss.health == config.health && boss.pattern == config.pattern && boss.moveSpeed == config.moveSpeed
      ensures boss.x == 35.0 && boss.y == 20.0 && boss.direction == 1.0
    {
      boss := new Boss(config);
    }

    /** `resize`: rewrite the current level's percentage geometry to pixels. */
    method Resize(canvasWidth: real)
      modifies currentLevel
      ensures currentLevel != null ==> currentLevel.bricks == ResizedBricks(old(currentLevel.bricks), canvasWidth)
    {
      if currentLevel == null {
        return;
      }
      var level := currentLevel;
      ghost var before := level.bricks;
      var i := 0;
      while i < |level.bricks|
        invariant 0 <= i <= |level.bricks| == |before|
        invariant forall k :: 0 <= k < i ==> level.bricks[k] == ResizeBrick(before[k], canvasWidth)
        invariant forall k :: i <= k < |level.bricks| ==> level.bricks[k] == before[k]
      {
        var brick := level.bricks[i];
        if brick.x.Pct? {
          brick := brick.(x := Num(canvasWidth * brick.x.p / 100.0));
        }
        if brick.width.Pct? {
          brick := brick.(width := Num(canvasWidth * brick.width.p / 100.0));
        }
        level.bricks := level.bricks[i := brick];
        i := i + 1;
      }
    }

    /**
     * `update`: while the current level has no active brick, every call schedules one
     * more level-change timer (when the next number exists) or reports victory; then
     * the boss, if any, takes its step.
     */
    method Update() returns (completion: Completion)
      requires Valid()
      modifies this, boss
      ensures Valid()
      ensures currentLevel == old(currentLevel) && background == old(background) && boss == old(boss)
      ensures old(currentLevel) == null ==>
                completion == InProgress && pendingLoads == old(pendingLoads) && nextHandle == old(nextHandle) &&
                (boss != null ==> boss.x == old(boss.x) && boss.direction == old(boss.direction))
      ensures old(currentLevel) != null ==>
                completion == CompletionRule(NumbersOf(levels), currentLevel.number, ActiveCount(currentLevel.bricks)) &&
                (completion.NextLevel? ==>
                   pendingLoads == old(pendingLoads)[old(nextHandle) := completion.number] &&
                   nextHandle == old(nextHandle) + 1) &&
                (!completion.NextLevel? ==> pendingLoads == old(pendingLoads) && nextHandle == old(nextHandle)) &&
                (boss != null ==> BossPos(boss.x, boss.direction) ==
                                  BossStep(BossPos(old(boss.x), old(boss.direction)), boss.moveSpeed))
    {
      if currentLevel == null {
        return InProgress;
      }
      var remainingBricks := ActiveCount(currentLevel.bricks);
      completion := InProgress;
      if remainingBricks == 0 {
        var nextLevelNum := currentLevel.number + 1;
        var nextLevel := FindLevel(nextLevelNum);
        if nextLevel != null {
          pendingLoads := pendingLoads[nextHandle := nextLevelNum];
          nextHandle := nextHandle + 1;
          completion := NextLevel(nextLevelNum);
        } else {
          completion := Victory;
        }
      }
      if boss != null {
        boss.Update();
      }
    }

    /** A level-change timer fires: forget it and load its level (the caller then resets the ball and the paddle). */
    method FireLoad(h: Handle, canvasWidth: real) returns (levelNumber: int, outcome: Outcome)
      requires Valid() && h in pendingLoads
      modifies this, levels
      ensures Valid()
      ensures levelNumber == old(pendingLoads[h])
      ensures pendingLoads == old(pendingLoads) - {h} && nextHandle == old(nextHandle)
      ensures FirstIndex(NumbersOf(levels), levelNumber).None? ==>
                outcome == Thrown(NotFound(levelNumber)) && currentLevel == old(currentLevel)
      ensures FirstIndex(NumbersOf(levels), levelNumber).Some? ==>
                outcome == Done && currentLevel == levels[FirstIndex(NumbersOf(levels), levelNumber).value]
    {
      levelNumber := pendingLoads[h];
      pendingLoads := pendingLoads - {h};
      outcome := LoadLevel(levelNumber, canvasWidth);
    }
  }
}
