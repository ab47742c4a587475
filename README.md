# Brick game simulation core in Dafny

This project models the simulation core of a browser brick-breaker and proves properties of the model. The core has these parts:

- **Ball:** it integrates its velocity over the frame time, keeps a five-point trail, reflects off the walls and signals its loss once.
- **Paddle:** it steers, glides with damping, follows touches, fires lasers and takes upgrades.
- **Levels:** a level manager builds bricks from layout grids, looks levels up by number, rewrites percentage geometry to pixels, decides between the next level and victory, and sweeps a boss left and right.
- **Scoring:** score, coins, combos, achievements and a seeded daily challenge.
- **Power-ups:** two power-up schedulers, the live one and the combination variant.
- **Game object:** it runs the frame loop, the collision and scoring pass, and the START / PLAYING / PAUSED / GAMEOVER state machine.

Each source file becomes one module:

| source | module |
|---|---|
| `js/ball.js` | `Kinematics` |
| `js/player.js` | `Paddle` |
| `js/levels.js` | `Levels` |
| `js/score.js` | `Scoring` |
| `POWERUP_TYPES` (apply and revert) | `PowerupTypes` |
| `js/powerups.js` | `Powerups` |
| `src/js/powerups.js` | `ComboPowerups` |
| `js/game.js` | `Game` |

`Common` holds the shared types and clamps.

Every object whose fields the source updates in place is a `class`. Its methods are proved against pure functions on a value snapshot: `ensures State() == Spec(old(State()), ...)`. The properties the source promises are stated about those functions, as their own `ensures` and as lemmas.

Values from the environment become parameters:
- timers: each `setTimeout` becomes a handle kept in the owner's state, and an explicit `Fire...` method runs its callback;
- random picks;
- `Math.sin` and `Math.cos`;
- the clock;
- the date seed;
- the window size.

Some quirks of the source are modelled as written:
- The shipped level layouts use the string `'0'`, so the "gaps" of level 1 are normal bricks.
- Levels 1, 2 and 5 exist, so clearing level 2 wins and level 5 is never reached.
- The daily challenge pays its reward again on every call once the target is reached.
- A `reset` of the score system forgets its combo-decay timer without cancelling it.
- The live `Powerup.update` passes its own `type` to `activatePowerup`. That value has no `.type` property, so a collected pickup never applies or records an effect.
- The combination variant's `Powerup.update` calls `activate()` with no argument. That call throws before the pickup is switched off.
- A brick whose x and width are still percentages cannot be hit, and neither can a pickup spawned at such an x.

## Model

| member | source | states |
|---|---|---|
| Kinematics.ResetState | js/ball.js:12-23 | The reset ball is centred, 60 px above the bottom, has speed 5 and size 8, moves straight up (dx 0, dy = -speed < 0), is active and has an empty trail. |
| Kinematics.Ball.constructor | js/ball.js:2-10 | A new ball is the reset ball, with an empty trail within its bound. |
| Kinematics.Ball.Reset | js/ball.js:12-23 | The new state is the reset ball, and the trail bound holds. |
| Kinematics.PushTrail | js/ball.js:43-46 | The new position is the trail's head, and the old trail follows it (its last point dropped once the trail is longer than 5). A trail of at most 5 points stays within 5. |
| Kinematics.ResolveWalls | js/ball.js:88-116 | Left wall: x = size, dx = abs(dx) >= 0. Right wall, tested only when the left did not trigger: x = W - size, dx = -abs(dx). Top wall: y = size, dy >= 0. Lost iff y + size > H, which leaves the ball inactive. Speed, size and trail are unchanged. |
| Kinematics.Ball.CheckBoundaries | js/ball.js:88-116 | The new state and the loss signal are exactly `ResolveWalls` of the old state. |
| Kinematics.Advance | js/ball.js:26-50 | An inactive ball is untouched and signals nothing. An active ball moves by its velocity times dt / 16.67, gets the new position at the head of its trail, and then meets the walls. A loss is signalled only by a ball that was active and is now inactive. The trail stays within 5 points. |
| Kinematics.Moved | js/ball.js:34-35 | A zero delta leaves the ball in place. A nominal 16.67 ms frame moves it by exactly its velocity, and without horizontal velocity x is kept. |
| Kinematics.Ball.Update | js/ball.js:26-50 | The new state and the returned loss flag are `Advance` of the old state, and the trail bound is kept. |
| Kinematics.LossSignalledAtMostOnce | js/ball.js:26-116 | Over any sequence of frames the loss is signalled at most once for an active ball and never for an inactive one, and an inactive ball never changes. |
| Kinematics.Collides | js/ball.js:119-148 | A hit implies a target that is present and all-numeric: a missing target or percentage geometry never collides. A centre inside a numeric rectangle always collides. |
| Kinematics.Ball.CollideWith | js/ball.js:119-148 | A hit needs a present, all-numeric target. A numeric target with the ball's centre inside it is always hit. |
| Kinematics.CollidesIffReachable | js/ball.js:129-147 | Reference definition: on a rectangle of non-negative size, the clamped-nearest-point test holds iff some point of the rectangle lies within the radius of the centre. |
| Kinematics.NearestIsClosest | js/ball.js:129-130 | The clamped point is at least as close to the centre as any other point of the interval. |
| Kinematics.FarOutsideNeverCollides | js/ball.js:129-147 | A centre more than one radius beyond any side of the rectangle never collides. |
| Kinematics.RelativePosition | js/ball.js:153 | The result times half the paddle width equals the offset from the paddle's centre, and it lies in [-1, 1] when the ball is over the paddle. |
| Kinematics.BounceAngle | js/ball.js:156 | A hit at the paddle's centre gives angle 0. A hit over the paddle gives an angle within ±60 degrees. A positive angle comes exactly from a hit right of the centre. |
| Kinematics.PaddleBounce | js/ball.js:151-176 | dx = speed·sin(rel·π/3), dy = -abs(speed·cos(rel·π/3)) <= 0 and y = paddle.y - size. Nothing else changes. |
| Kinematics.Ball.HandlePaddleCollision | js/ball.js:151-176 | The new state is `PaddleBounce` of the old one. |
| Kinematics.PaddleBounceKeepsSpeed | js/ball.js:163-167 | With sin² + cos² = 1, the bounced velocity has magnitude `speed`. |
| Kinematics.BrickBounce | js/ball.js:179-202 | dy is negated iff y differs from the brick's vertical midline, and otherwise dx is negated. speed = min(speed + 0.05, 10). dx and dy are not rescaled, and nothing else changes. |
| Kinematics.Ball.HandleBrickCollision | js/ball.js:179-202 | The new state is `BrickBounce` of the old one. |
| Kinematics.SpeedAfterBrickHits | js/ball.js:198-199 | From a speed within the cap, n hits give min(speed + 0.05·n, 10): non-decreasing and capped at 10. |
| Kinematics.TwoBrickBouncesRestoreDirection | js/ball.js:186-195 | Two successive hits on the same brick give back the original dx and dy. |
| Kinematics.FitToField | js/ball.js:205-217 | x and y never increase, and they end at most W - size and H - size. A coordinate already inside is kept, and nothing else changes. |
| Kinematics.Ball.Resize | js/ball.js:205-217 | The new state is `FitToField` of the old one. |
| Paddle.InitialPlayer | js/player.js:3-17 | Width 100, laser disabled, no lasers, no remembered width, positioned as `reset` places it. |
| Paddle.Player.constructor | js/player.js:3-17 | The new paddle is `InitialPlayer`. |
| Paddle.ResetPaddle | js/player.js:19-27 | x + w/2 = W/2 and y = H - 15 - 10. Speed is 0, there are no lasers, and the width is unchanged. |
| Paddle.Player.Reset | js/player.js:19-27 | The new state is `ResetPaddle` of the old one. |
| Paddle.Steer | js/player.js:30-37 | speed = direction · 10, so -10 for left and 10 for right. Nothing else changes. |
| Paddle.Player.Move | js/player.js:30-37 | The new state is `Steer(direction)`. |
| Paddle.Player.MoveLeft | js/player.js:40-42 | The new state is `Steer(-1)`. |
| Paddle.Player.MoveRight | js/player.js:45-47 | The new state is `Steer(1)`. |
| Paddle.Touch | js/player.js:50-85 | Without a touch nothing changes. With one, x moves halfway toward scaledX - w/2, is clamped left then right, and ends in [0, W - w] when the paddle fits. Only x changes. |
| Paddle.Player.HandleTouch | js/player.js:50-85 | The new state is `Touch` of the old one. |
| Paddle.Inertia | js/player.js:88-108 | Above 0.1 the paddle moves by its speed, and the speed is damped by 0.9 or zeroed at a wall. Otherwise the speed is zeroed. The position is clamped in both cases. The speed never exceeds 0.9 of its old magnitude, and a paddle still moving is inside the field. |
| Paddle.Decayed | js/player.js:94 | Damping n times keeps a non-negative speed within [0, v]. |
| Paddle.Glide | js/player.js:88-108 | A run of frames without input changes only x and speed. After at least one frame, x lies in [0, W - width] whenever the paddle fits the field. |
| Paddle.Player.ApplySwipeInertia | js/player.js:88-108 | The new state is `Inertia` of the old one. |
| Paddle.GlideSpeedDecays | js/player.js:90-94 | Over n frames without input the speed is at most |speed|·0.9^n, and width and lasers are kept. |
| Paddle.Beam | js/player.js:118-134 | A new beam is active, has height 0 and has its firing height at the paddle's y. |
| Paddle.Shoot | js/player.js:111-140 | Fires iff the laser is enabled and fewer than 5 beams exist. A refused shot changes nothing. A shot appends exactly two beams, at x + 0.2w and x + 0.8w, so the list can reach 6 but no more. |
| Paddle.Player.FireLaser | js/player.js:111-140 | The new state and the returned flag are `Shoot` of the old state. |
| Paddle.Upgraded | js/player.js:143-165 | 'expand': width = min(1.5w, 0.5W) and x shifts left by half the growth. 'laser' enables the laser. Any other kind changes only the clamp. x always ends clamped, and nothing else changes. |
| Paddle.Player.Upgrade | js/player.js:143-165 | Always returns true, and the new state is `Upgraded` of the old one. |
| Paddle.StepLaser | js/player.js:173-185 | The firing height y + height is preserved. An inactive beam is untouched, and an active one stays active iff its firing height is not above the top edge. |
| Paddle.StepAll | js/player.js:173-185 | Every beam takes one `StepLaser`, in place and in order. |
| Paddle.Player.StepLasers | js/player.js:173-185 | The `forEach`: the lasers become `StepAll` of the old list, and nothing else changes. |
| Paddle.KeepActive | js/player.js:188 | A beam is kept iff it is in the old list and active, and the list never grows. |
| Paddle.KeepActiveDistributes | js/player.js:188 | The filter keeps order: filtering a concatenation gives the filtered parts, concatenated. |
| Paddle.UpdatedLasers | js/player.js:173-188 | After the step and the filter, every beam is active and the list never grows. |
| Paddle.Player.DropInactive | js/player.js:188 | The lasers become `KeepActive` of the old list. |
| Paddle.Survivors | js/player.js:181-188 | The independent reference: the beams that are active and were fired at or below the top edge, which is never more than there were. |
| Paddle.UpdateKeepsSurvivors | js/player.js:173-188 | After `update` the list has as many beams as there are survivors, and beam i has the x and the firing height of survivor i. |
| Paddle.AllSurvive | js/player.js:181 | A list of active beams fired at or below the top edge is its own survivor list. |
| Paddle.LasersNeverExpire | js/player.js:173-188 | Beams fired at or below the top edge are never removed by `update`. |
| Paddle.PlayerUpdate | js/player.js:168-189 | `update` is inertia first, then the laser list update. |
| Paddle.Player.Update | js/player.js:168-189 | The new state is `PlayerUpdate` of the old one. |
| Paddle.Player.UpdateLasers | js/player.js:173-188 | The lasers become the stepped and filtered list, and nothing else changes. |
| Paddle.ResizePaddle | js/player.js:253-263 | y = H - 25. Only the right edge is clamped, so x never increases and a paddle that fits keeps its x. |
| Paddle.Player.Resize | js/player.js:253-263 | The new state is `ResizePaddle` of the old one. |
| Paddle.FiringStaysRefused | js/player.js:111-189 | Once 5 or more beams are active at or below the top edge, an update keeps 5 or more and the next shot is refused. |
| Levels.RandomPowerup | js/levels.js:68-71 | A roll in [0, 1) picks 'multi-ball', 'expand' or 'laser' by thirds. |
| Levels.MakeBrick | js/levels.js:34-61 | Every brick is active. y = row·40 + 60 and x = col·(100/cols)%. 'S' gives steel with health 3. 'P' gives a power-up brick carrying the drawn kind. 'B' gives a boss brick with health 15, width 30% and height 50. Any other code gives a normal brick with health 1, width (100/cols)% and height 30. |
| Levels.EveryKindIsDrawn | js/levels.js:51-54 | Every power-up kind a "P" brick can be given is drawn by `randomPowerup` for some roll in [0, 1). |
| Levels.RowBricks | js/levels.js:31-64 | A row yields at most one brick per cell. |
| Levels.GridBricks | js/levels.js:30-65 | The first n rows yield at most as many bricks as they have cells. Every brick is active, with health at least 1. |
| Levels.LayoutBricks | js/levels.js:26-66 | A layout yields at most one brick per cell. Every brick starts active, with health at least 1. |
| Levels.RowBricksByColumn | js/levels.js:31-64 | Without a numeric 0, brick c of a row is `MakeBrick` of cell c, and the row yields one brick per cell. |
| Levels.OneBrickPerCell | js/levels.js:30-65 | Without a numeric 0 cell, the grid yields exactly as many bricks as it has cells. |
| Levels.FourByThreeGrid | js/levels.js:26-66 | A 3×4 layout without a numeric 0 yields 12 bricks, the sixth from row 1, column 1. |
| Levels.LevelOneHasNoGaps | js/levels.js:89-93 | Level 1's `'0'` cells are strings, so it has 12 bricks and brick 5 (a "gap") is a normal brick with health 1. |
| Levels.Level.constructor | js/levels.js:16-24 | The level keeps the config's number, boss and background, and its bricks are the layout's bricks. |
| Levels.Level.GenerateBricks | js/levels.js:26-66 | Appends exactly the layout's bricks, in row-major order. |
| Levels.Level.PushRow | js/levels.js:31-64 | Appends exactly the row's bricks. |
| Levels.FirstIndex | js/levels.js:126 | `find`: the first index holding that number. `None` iff no level has it. |
| Levels.LevelManager.constructor | js/levels.js:75-121 | Levels 1, 2 and 5 are built from the shipped configs. No current level, background, boss or pending load. |
| Levels.LevelManager.FindLevel | js/levels.js:126 | Returns the level at `FirstIndex`, or null when there is none. |
| Levels.LevelManager.LoadLevel | js/levels.js:123-144 | An unknown number throws NotFound and changes nothing. Otherwise the same pre-built level object becomes current, so its bricks keep their state. The background is set. A declared boss replaces the old one, and without one the old boss stays. The level's bricks are resized. |
| Levels.LevelManager.InitBoss | js/levels.js:146-162 | A fresh boss with the config's fields, at x 35, y 20, heading right. |
| Levels.ToPixels | js/levels.js:170-178 | A percentage p becomes canvasWidth·p/100, and a number is kept. |
| Levels.ResizeBrick | js/levels.js:169-179 | Only x and width are rewritten, and the result is all-numeric. |
| Levels.ResizedBricks | js/levels.js:164-182 | Every brick is rewritten by `ResizeBrick`, and the count is kept. |
| Levels.LevelManager.Resize | js/levels.js:164-182 | Without a current level nothing happens. Otherwise its bricks become `ResizedBricks`. |
| Levels.ResizeIsIdempotent | js/levels.js:168-179 | After one resize every brick is numeric, and a second resize at any width changes nothing. |
| Levels.ActiveCount | js/levels.js:272 | At most the number of bricks, and 0 iff no brick is active. |
| Levels.CompletionRule | js/levels.js:272-295 | With active bricks left, the level is in progress. With none, the next level is loaded iff number + 1 exists, and otherwise the game is won. |
| Levels.ShippedProgression | js/levels.js:276-295 | With levels 1, 2 and 5, clearing 1 leads to 2 and clearing 2 (or 5) wins. |
| Levels.LevelManager.Update | js/levels.js:268-302 | Without a level nothing happens. Otherwise the completion follows `CompletionRule`: a next level arms one fresh load timer for that number, and nothing else arms one. The boss then takes one `BossStep`. |
| Levels.LevelManager.FireLoad | js/levels.js:282-283 | The fired timer is forgotten and its level loaded: current if found, NotFound otherwise. |
| Levels.BossStep | js/levels.js:153-157 | x += direction·moveSpeed, then the direction flips iff x > 70 or x < 10. |
| Levels.Boss.constructor | js/levels.js:148-152 | The config's fields, plus x 35, y 20 and direction 1. |
| Levels.Boss.Update | js/levels.js:153-157 | Position and direction follow `BossStep`, and y is kept. |
| Levels.SweepInvariant | js/levels.js:148-157 | For any non-negative speed, the sweep invariant (heading right only from [10 - s, 70], left only from [10, 70 + s]) holds at the start and is kept by every step. |
| Levels.BossStaysNearTheBand | js/levels.js:148-157 | After any number of frames the boss is within one step of [10, 70]. |
| Scoring.Multiplier | js/score.js:52 | 1 + floor(combo/3)·0.5: at least 1, and exactly 1 below combo 3. |
| Scoring.MultiplierLadder | js/score.js:52 | Three more combo steps add exactly 0.5. |
| Scoring.CoinsFor | js/score.js:35 | floor(total/10). |
| Scoring.InitialScores | js/score.js:3-27 | Nothing unlocked and no decay pending. The field relations (multiplier = `Multiplier(combo)`, maxCombo >= combo, handles below the next one) hold, and so does a single decay. |
| Scoring.ScoreSystem.constructor | js/score.js:3-17 | The initial score state, and a fresh daily challenge without a challenge. |
| Scoring.ScoreReset | js/score.js:19-27 | Counters zeroed and multiplier 1. The decay handle is dropped but its timer stays pending. Achievements are kept. |
| Scoring.ScoreSystem.Reset | js/score.js:19-27 | The new state is `ScoreReset` of the old one. |
| Scoring.Award | js/score.js:30-36 | total = (b + floor(combo/5))·multiplier, with the combo and multiplier from before the hit. The score grows by total and the coins by floor(total/10). |
| Scoring.ComboStep | js/score.js:46-62 | combo + 1, maxCombo = max, and multiplier = `Multiplier(combo)`. The previous decay is cancelled and one new decay is armed. Score and coins are unchanged. |
| Scoring.ScoreSystem.UpdateCombo | js/score.js:46-62 | The new state is `ComboStep` of the old one. |
| Scoring.ScoreSystem.AddCombo | js/score.js:65-95 | The same state effect as `updateCombo`. |
| Scoring.ComboDecay | js/score.js:58-61 | A firing decay sets combo 0 and multiplier 1, and keeps maxCombo, score and coins. |
| Scoring.ScoreSystem.FireDecay | js/score.js:58-61 | The new state is `ComboDecay` of the old one. |
| Scoring.ComboTimersKeepInvariants | js/score.js:46-61 | Combo steps and decays keep the field relations, and never leave two decays pending. |
| Scoring.ResetOrphansTheDecay | js/score.js:19-61 | A reset between two hits leaves the old decay pending beside the new one, and that old decay zeroes the new combo. |
| Scoring.Unlock | js/score.js:117-128 | Marks the achievement and pays 200 coins. |
| Scoring.ScoreSystem.UnlockAchievement | js/score.js:117-128 | Pays 200 coins, and nothing else changes. |
| Scoring.UnlockPass | js/score.js:108-115 | A pass only adds unlocks and coins. |
| Scoring.ScoreSystem.CheckAchievements | js/score.js:108-115 | The new state is `UnlockPass` over firstBlood, comboMaster, billionaire. |
| Scoring.PassUnlocksFromOrder | js/score.js:108-115 | A pass unlocks nothing outside the achievements it visits. |
| Scoring.PassPaysOncePerUnlock | js/score.js:108-128 | The coins grow by exactly 200 per newly unlocked achievement. |
| Scoring.PassStep | js/score.js:108-115 | Each achievement is tested against the state the earlier ones left. |
| Scoring.Condition | js/score.js:9-13 | firstBlood holds at a total score of at least 100, comboMaster at a maximum combo of at least 10, and billionaire at 1000 coins or more. |
| Scoring.PassIsIdempotent | js/score.js:108-115 | A second pass right after the first changes nothing. |
| Scoring.BonusCascades | js/score.js:108-128 | With 800 coins and 100 points, firstBlood's bonus unlocks billionaire in the same pass: 1200 coins. |
| Scoring.ScoreHit | js/score.js:30-38 | combo + 1, unlocks only grow, and the score grows by (b + floor(combo/5))·multiplier. |
| Scoring.ScoreSystem.AddScore | js/score.js:30-43 | Award, combo step and achievement pass, then the 'score' progress of the daily challenge, whose reward is paid into the coins. |
| Scoring.EleventhHitScoresThirty | js/score.js:30-52 | At combo 10 under the field relations, a 10-point hit scores (10 + 2)·2.5 = 30. |
| Scoring.Spend | js/score.js:98-105 | Succeeds and subtracts iff coins >= amount, and otherwise changes nothing. Non-negative coins stay non-negative. |
| Scoring.ScoreSystem.SpendCoins | js/score.js:98-105 | The new state and the returned flag are `Spend`. |
| Scoring.ChallengeTable | js/score.js:223-254 | Five open challenges, one per kind, in the order score, combo, bricks, boss, powerups. Their targets are 5000 up to 8000, 8 up to 13, 50 up to 80, exactly 1, and 5 up to 9. |
| Scoring.ChallengeFor | js/score.js:223-259 | The challenge is table entry seed % 5, and it is open. Its kind is kind seed % 5, so kind i is chosen iff seed % 5 = i. The targets and rewards depend on the kind: score has target 5000 + seed % 3000 and reward 500; combo 8 + seed % 5 and 300; bricks 50 + seed % 30 and 400; boss 1 and 800; powerups 5 + seed % 4 and 350. |
| Scoring.SelectionHasPeriodFive | js/score.js:257 | Seeds five apart select the same kind. |
| Scoring.DailyChallenge.constructor | js/score.js:212-217 | No challenge and progress 0. The seed is an input. |
| Scoring.DailyChallenge.GenerateChallenge | js/score.js:220-277 | The current challenge becomes `ChallengeFor(seed)` and the progress 0. |
| Scoring.ProgressStep | js/score.js:299-311 | No challenge, or a different kind: no change, `undefined`, nothing paid. Otherwise the progress grows by the amount, the result is progress >= target, and the reward is paid exactly when it is true. |
| Scoring.RewardRepeats | js/score.js:299-330 | Nothing guards the completed flag, so once the target is reached every further call of that kind pays the reward again. |
| Scoring.DailyChallenge.UpdateProgress | js/score.js:299-311 | State, result and paid coins follow `ProgressStep`. |
| Scoring.DailyChallenge.RewardPlayer | js/score.js:314-330 | Pays the reward into the owner's coins and marks the challenge completed. |
| Scoring.ScoreSystem.RecordBrickBreak | js/score.js:197-201 | 'bricks' progress by 1, paying any reward, and nothing else changes. |
| Scoring.ScoreSystem.RecordBossDefeat | js/score.js:204-208 | 'boss' progress by 1, paying any reward, and nothing else changes. |
| Scoring.StripUndoesSeparation | js/score.js:353-355 | Deleting the commas of a separated digit string gives back the digits. |
| Scoring.SeparateThousands | js/score.js:354 | Only commas are inserted: the result is never shorter and starts with the same digit. |
| Scoring.SeparationLength | js/score.js:354 | A run of n digits receives (n - 1) / 3 commas. |
| Scoring.FormatNumber | js/score.js:353-355 | The formatted number is at least as long as its digits, and it starts with a digit. |
| Scoring.FormatRoundTrip | js/score.js:353-355 | Deleting the commas of `formatNumber(n)` gives back n's decimal digits. |
| Scoring.SeparateIsGrouping | js/score.js:354 | The regular-expression insertion equals grouping the digits in threes from the right. |
| Scoring.FormatGroupsByThree | js/score.js:353-355 | `formatNumber(n)` is n's digits grouped in threes from the right, and it strips back to the digits. |
| PowerupTypes.IdsAreDistinct | js/powerups.js:3-40 | Ids and property names each identify an effect, and no id equals a property name. |
| PowerupTypes.TimedIffReverted | js/powerups.js:3-40 | An effect is timed (duration > 0 and a revert) iff it has a revert iff it is not EXTRA_BALL. |
| PowerupTypes.Applied | js/powerups.js:3-40 | EXPAND_PADDLE remembers the width and widens it by 1.5. LASER raises `hasLaser`. EXTRA_BALL leaves the paddle unchanged. Nothing else changes. |
| PowerupTypes.ApplyEffect | js/powerups.js:3-40 | The paddle becomes `Applied`. |
| PowerupTypes.Reverted | js/powerups.js:15-39 | EXPAND_PADDLE restores the remembered width, LASER lowers `hasLaser`, and nothing else changes. |
| PowerupTypes.RevertEffect | js/powerups.js:15-39 | The paddle becomes `Reverted`. |
| PowerupTypes.RevertUndoesApply | js/powerups.js:15-39 | From a paddle without the laser flag, a revert right after its apply gives back the paddle, apart from the width the expansion remembers. |
| PowerupTypes.ExpandTwiceRevertOnce | js/powerups.js:15-27 | Two expansions give 2.25 times the width, and one revert then leaves 1.5 times the original. |
| PowerupTypes.RevertsCommute | js/powerups.js:245-258 | The reverts of two effects commute, so the visiting order of `reset` does not matter. |
| PowerupTypes.RevertRecorded | js/powerups.js:245-258 | Reverting the recorded ids restores the remembered width iff 'expand-paddle' is recorded and a width was remembered. It lowers the laser flag iff 'laser' is recorded. Nothing else changes. |
| PowerupTypes.RevertIn | js/powerups.js:245-258 | Reverting a list of effects changes only the width and the laser flag. It never raises the flag, and with no recorded ids it changes nothing. |
| Powerups.NewPickup | js/powerups.js:82-92 | A pickup at the given position and type, falling at 3, active, with sparkle timer 0. |
| Powerups.Touches | js/powerups.js:116-125 | `checkCollision` needs a target and a numeric x, and then the vertical spans overlap. |
| Powerups.TouchesIffSharedPoint | js/powerups.js:116-125 | For a numeric x and a target of positive size, `checkCollision` holds iff the two open boxes share a point. |
| Powerups.PercentagePickupsAreNeverCollected | js/powerups.js:116-125 | A pickup whose x is a percentage never touches anything. |
| Powerups.StepPickup | js/powerups.js:94-114 | An inactive pickup is untouched. An active one falls by speed·dt/16.67. It is collected iff it then touches the paddle, and it stays active iff it is not below the bottom and not collected. The sparkle timer grows by dt. |
| Powerups.StepPickups | js/powerups.js:234-235 | One stepped pickup for every pickup, index by index. |
| Powerups.ActiveOnly | js/powerups.js:237-238 | The filter keeps exactly the active pickups, never lengthening the list. |
| Powerups.ActiveOnlyDistributes | js/powerups.js:237-238 | The filter keeps order: filtering a concatenation concatenates the filtered parts. |
| Powerups.SpawnedType | js/powerups.js:222-232 | The given type, or the drawn registry entry when none is given. |
| Powerups.PowerupManager.constructor | js/powerups.js:215-220 | No pickups, no recorded effects, no timers. The record invariant holds. |
| Powerups.PowerupManager.SpawnPowerup | js/powerups.js:222-232 | Appends exactly one pickup of `SpawnedType`, and nothing else changes. |
| Powerups.PowerupManager.StepEach | js/powerups.js:234-235 | Every pickup takes `StepPickup`. A collection hands over its own type, so the record and the paddle are unchanged. |
| Powerups.PowerupManager.DropInactive | js/powerups.js:237-238 | The pickups become `ActiveOnly` of the old list. |
| Powerups.PowerupManager.Update | js/powerups.js:234-239 | The pickups are stepped and the inactive ones dropped. The record and the paddle are unchanged. |
| Powerups.Activation | js/powerups.js:275-289 | An untimed effect records nothing. A timed one cancels the earlier timer of its id and records a fresh handle under the id. No other timer is touched. |
| Powerups.PowerupManager.ActivatePowerup | js/powerups.js:260-299 | Without a registry effect behind `.type` nothing changes. Otherwise the effect is applied once and the record follows `Activation`. |
| Powerups.OneTimerPerId | js/powerups.js:275-289 | In a valid record no id has two armed revert timers. |
| Powerups.ActivationKeepsValid | js/powerups.js:275-289 | Activation keeps the one-to-one correspondence between recorded handles and armed timers, and the replaced timer is no longer armed. |
| Powerups.ReactivationPostpones | js/powerups.js:275-289 | A second activation disarms the first timer and records the new one, and the new timer's expiry removes the id. |
| Powerups.Expiry | js/powerups.js:282-286 | A firing timer removes exactly its own effect's id and is spent. |
| Powerups.PowerupManager.FireRevert | js/powerups.js:282-286 | The effect is reverted and the record follows `Expiry`. |
| Powerups.ExpiryKeepsValid | js/powerups.js:282-286 | Expiry keeps the correspondence. |
| Powerups.Cleared | js/powerups.js:245-258 | A reset drops the pickups, empties the record and cancels every recorded handle. |
| Powerups.PowerupManager.Reset | js/powerups.js:245-258 | The record follows `Cleared`, and every registered effect with a revert whose id was recorded is reverted. |
| Powerups.ClearedCancelsEveryTimer | js/powerups.js:245-258 | In a valid record, a reset leaves no timer armed. |
| ComboPowerups.Split | src/js/powerups.js:131 | `split('+')` gives at least one part, and no part contains '+'. |
| ComboPowerups.JoinSplit | src/js/powerups.js:131 | Joining the parts of a split gives back the string. |
| ComboPowerups.SplitJoin | src/js/powerups.js:131 | Splitting the join of '+'-free parts gives back the parts. |
| ComboPowerups.RequiredAreParts | src/js/powerups.js:131 | The names an entry requires are the parts its key was written from. |
| ComboPowerups.FirstMatch | src/js/powerups.js:126-137 | The first entry, in table order, whose required names are all recorded. `None` iff no entry matches. |
| ComboPowerups.Checked | src/js/powerups.js:126-137 | Without a match, a check changes nothing. |
| ComboPowerups.ComboTracker.CheckCombinations | src/js/powerups.js:126-137 | Tracker and paddle follow `Checked`: at most one combination fires per pass. |
| ComboPowerups.CheckedIgnoresDebounce | src/js/powerups.js:126-137 | A check neither reads nor writes the debounce field. |
| ComboPowerups.CancelParts | src/js/powerups.js:142-145 | Every timer recorded under a required name is cancelled, and nothing is armed. |
| ComboPowerups.ComboApplied | src/js/powerups.js:50-55 | The super laser sets laser width 25 and damage 2. The storm leaves the paddle unchanged. |
| ComboPowerups.ApplyCombo | src/js/powerups.js:50-55 | The paddle becomes `ComboApplied`. |
| ComboPowerups.ComboReverted | src/js/powerups.js:56-59 | The super laser's revert sets width 15 and damage 1. |
| ComboPowerups.RevertCombo | src/js/powerups.js:56-59 | The paddle becomes `ComboReverted`. |
| ComboPowerups.ComboActivation | src/js/powerups.js:140-159 | The combination's key is recorded with a fresh timer that expires it. The debounce is untouched, and the paddle takes the combination's effect. |
| ComboPowerups.ComboTracker.ActivateCombo | src/js/powerups.js:140-159 | Tracker and paddle follow `ComboActivation`. |
| ComboPowerups.ComboActivationKeepsValid | src/js/powerups.js:140-159 | A combination activation keeps the tracker invariant. |
| ComboPowerups.ComboPinsItsParts | src/js/powerups.js:142-158 | After a combination fires, its parts stay recorded but their timers are cancelled, so no timer ever reverts them. |
| ComboPowerups.Activated | src/js/powerups.js:162-186 | The id is recorded, with a timer iff the duration is positive (`null` otherwise), and other keys are kept. Exactly one debounce is armed and recorded. The effect is applied once. |
| ComboPowerups.CancelEarlier | src/js/powerups.js:166-168 | Only timers change. If the id has an earlier timer, exactly that timer is disarmed; otherwise nothing changes. |
| ComboPowerups.Armed | src/js/powerups.js:171-185 | The id is recorded, with a slot iff the duration is positive, and that slot is the new revert timer. The old debounce is disarmed, and a new debounce is armed with the last handle. The other ids keep their slots. |
| ComboPowerups.ComboTracker.Activate | src/js/powerups.js:162-186 | With no argument, reading `.type` throws TypeError and nothing changes. Otherwise tracker and paddle follow `Activated`. |
| ComboPowerups.ActivatedKeepsValid | src/js/powerups.js:162-186 | Activation keeps the invariant, cancels the previous debounce, and arms an expiry for the recorded timer. |
| ComboPowerups.ComboTracker.ClearEarlier | src/js/powerups.js:166-168 | The id's earlier timer, if any, is cancelled. |
| ComboPowerups.ComboTracker.Arm | src/js/powerups.js:172-185 | The id's new slot, and a fresh debounce in place of the old one. |
| ComboPowerups.ComboTracker.constructor | src/js/powerups.js:261-266 | An empty map and no debounce, as the manager starts. |
| ComboPowerups.ComboTracker.Fire | src/js/powerups.js:152-185 | An effect expiry reverts the effect, deletes its id and checks again. A combination expiry reverts and deletes only the combination's key. The debounce checks and clears itself. |
| ComboPowerups.Fired | src/js/powerups.js:152-185 | A combination's expiry disarms only itself, forgets its key and reverts its effect. An effect's expiry disarms itself, forgets the id and reverts the effect when no combination then matches. A debounce leaves no debounce recorded. |
| ComboPowerups.FiredKeepsValid | src/js/powerups.js:152-185 | Every timer firing keeps the tracker invariant. |
| ComboPowerups.ComboActivationValidAfterCheck | src/js/powerups.js:126-137 | A check keeps the tracker invariant. |
| ComboPowerups.IdsAreRegistryIds | src/js/powerups.js:4-41 | Every effect's id is one of the three registry ids. |
| ComboPowerups.KeysStayRecordable | src/js/powerups.js:126-186 | Activations, combination activations and checks record only registry ids and table keys. |
| ComboPowerups.ShippedRequired | src/js/powerups.js:44-80 | The shipped entries require ["LASER", "EXPAND_PADDLE"] and ["EXTRA_BALL", "LASER"]. |
| ComboPowerups.LaserNameNotRecordable | src/js/powerups.js:44-80 | "LASER" is neither an id nor a key of an entry. |
| ComboPowerups.ShippedCombosNeverMatch | src/js/powerups.js:44-137 | With the shipped table, no set of recordable keys matches any entry. |
| ComboPowerups.ShippedTableNeverCombines | src/js/powerups.js:126-137 | With the shipped table, a check never changes anything. |
| ComboPowerups.IdCombosMatch | src/js/powerups.js:126-137 | With the ids as required names, recording 'laser' and 'expand-paddle' selects the super laser. |
| ComboPowerups.LaserThenExpand | src/js/powerups.js:162-185 | Laser, then expansion, then the debounce fires. The shipped table leaves the paddle as the effects made it, while the id-keyed table switches on the super laser. |
| ComboPowerups.SrcStepPickup | src/js/powerups.js:95-114 | As the live step, except that a collection throws TypeError before the pickup is switched off and before the sparkle timer advances. |
| ComboPowerups.SrcReset | src/js/powerups.js:290-296 | The pickups are emptied. With any recorded effect, the handle-indexed lookup throws TypeError, leaving the record and every timer in place. |
| ComboPowerups.SrcResetLeavesTimersArmed | src/js/powerups.js:290-296 | After a timed activation the variant's reset throws with the revert still armed, whereas the live reset cancels every timer. |
| ComboPowerups.SrcPowerupManager.constructor | src/js/powerups.js:261-266 | No pickups, no record, no timers. |
| ComboPowerups.SrcPowerupManager.ActivatePowerup | src/js/powerups.js:298-324 | Anything but an object holding a registry effect throws TypeError. Otherwise the effect is applied once and the record follows `Activation`. |
| ComboPowerups.SrcPowerupManager.Reset | src/js/powerups.js:290-296 | State and outcome follow `SrcReset`. |
| ComboPowerups.SrcPowerupManager.FireRevert | src/js/powerups.js:312-315 | The effect is reverted and the record follows `Expiry`. |
| Game.TransitionTable | js/game.js:520-543 | `pauseGame` leaves only PLAYING. `togglePause` swaps PLAYING and PAUSED, leaves the others, and undoes itself. A click leaves only GAMEOVER, for START. |
| Game.Next | js/game.js:253-558 | GAMEOVER is entered only by a lost ball or a victory, and those always enter it. PLAYING is entered only by a start or a toggle. The menu goes to START. |
| Game.PlayingIsEnteredByStartOrResume | js/game.js:496-543 | PLAYING is entered only by `startGame` or by resuming from PAUSED. |
| Game.GameOverEntryAndExit | js/game.js:553-558 | GAMEOVER is entered only by a lost ball or a victory, and left only by a click, a start or the menu. |
| Game.FrameTime | js/game.js:332 | A zero timestamp falls back to the clock. |
| Game.FrameDelta | js/game.js:332-337 | The delta is at most 100. It is 0 on the first frame, now - lastTime up to 100, and 16.67 above 100. |
| Game.StallMovesOneFrame | js/game.js:337 | After a stall the ball moves by exactly its velocity. |
| Game.PointerX | js/game.js:268-275 | mouseX - w/2 when inside, and otherwise clamped left then right into [0, W - w]. |
| Game.FieldSize | js/game.js:315-316 | Width min(innerWidth - 40, 600), height innerHeight·0.8. |
| Game.Strike | js/game.js:392-396 | Health drops by exactly 1, and the brick stays active iff it was active with health above 1. |
| Game.BrickTakesHealthStrikes | js/game.js:389-396 | A brick with health h survives h - 1 strikes and goes out on the h-th. |
| Game.SteelTakesThree | js/game.js:392-396 | A steel brick goes out on exactly the third strike. |
| Game.Broken | js/game.js:588-590 | `recordBrickBreak`: 'bricks' progress by 1, any reward paid into the coins. |
| Game.Scored | js/game.js:399 | `addScore(10)`: combo + 1, score + (10 + floor(combo/5))·multiplier, and 'score' progress by 10. |
| Game.BrickStep | js/game.js:389-405 | A brick missed, or already out, is untouched. A hit strikes it and bounces the ball. It scores 10 and adds 1 to the combo whether or not the brick broke. A pickup spawns at (x, y) exactly for a power-up brick that went out with a power-up. |
| Game.Hits | js/game.js:390 | A hit needs an active brick, an active ball and numeric brick geometry. |
| Game.Spawns | js/game.js:402 | Only a power-up brick that went out and carries a power-up drops one. |
| Game.BrickPass | js/game.js:389-406 | The pass gives back one brick for every brick, in order. |
| Game.PaddleStep | js/game.js:383-386 | An active ball touching the paddle bounces and the combo steps. Otherwise nothing changes. |
| Game.PassStrikesEachBrickAtMostOnce | js/game.js:389-406 | Each brick is untouched or struck exactly once, and only an active one. The ball keeps its position and activity, and spawns are only appended. |
| Game.ComboCountsStrikes | js/game.js:389-406 | The combo of the pass grows by exactly the number of struck bricks. |
| Game.InactiveBallStrikesNothing | js/game.js:389-406 | A lost ball leaves the pass unchanged. |
| Game.ActiveCountMonotone | js/game.js:389-406 | Pointwise fewer active bricks means no more in total. |
| Game.PassNeverRevives | js/game.js:389-406 | The pass never brings a brick back. |
| Game.MovedWorld | js/game.js:368-369 | The paddle updates, then the ball, and a lost ball sets GAMEOVER. |
| Game.FallenPickups | js/powerups.js:234-239 | The pickup list never grows, and every pickup left is active. |
| Game.Fallen | js/game.js:370 | Only the pickup list changes, and it never grows. |
| Game.LevelStep | js/game.js:371 | Only the state, the level-load timers and the boss change. A victory sets GAMEOVER. A clear with a successor arms its load under a fresh handle. Otherwise no timer changes. |
| Game.BossMoved | js/levels.js:298-301 | A boss is kept or absent as before, with its speed. Without a level it does not move. |
| Game.Collided | js/game.js:379-407 | Without a level nothing changes. The state, paddle, boss and timers are kept. The level keeps its number and brick count, and spawned pickups are only appended. |
| Game.FrameStep | js/game.js:366-376 | A frame keeps whether a level is current and its number, and never lowers the timer counter. |
| Game.Completion | js/game.js:371 | Without a level, in progress. Otherwise `CompletionRule` on [1, 2, 5]. |
| Game.FrameState | js/game.js:366-372 | A frame ends in GAMEOVER iff the ball is lost or the level was already cleared with no successor, and otherwise the state is kept. The paddle is `PlayerUpdate`. |
| Game.ClearingIsSeenNextFrame | js/game.js:366-372 | Completion is judged before the collision pass. While bricks remain at the start of a frame that keeps the ball, the state and the pending loads are unchanged, even if the pass breaks the last brick. |
| Game.LosingFrameScoresNothing | js/game.js:366-372 | In the frame that loses the ball, nothing is struck, scored or recorded. |
| Game.FrameNeverRevives | js/game.js:366-372 | A frame keeps the level and never raises its count of active bricks. |
| Game.Game.constructor | js/game.js:150-186 | START, delta and last time 0, the given field, and a valid game. |
| Game.Game.Update | js/game.js:366-376 | The world after the call is `FrameStep` of the world before: player, ball, power-ups, level, collisions, in that order. |
| Game.Game.Motion | js/game.js:368-370 | The paddle, the ball and the pickups move. |
| Game.Game.Resolution | js/game.js:371-372 | The level step, then the collision pass. |
| Game.Game.MoveParts | js/game.js:368-369 | The world becomes `MovedWorld`. |
| Game.Game.FallPickups | js/game.js:370 | The pickups step against the current paddle, and the inactive ones go. |
| Game.Game.StepLevel | js/game.js:371 | The world becomes `LevelStep`: a victory sets GAMEOVER, a clear arms the next load, and the boss steps. |
| Game.Game.GameLoop | js/game.js:330-363 | lastTime and deltaTime follow `FrameTime` and `FrameDelta`. The world advances by `FrameStep` only in PLAYING and is otherwise unchanged. |
| Game.Game.Tick | js/game.js:332-337 | lastTime becomes `FrameTime` and deltaTime becomes `FrameDelta` against the previous lastTime, so the delta never exceeds 100. |
| Game.Game.Begin | js/game.js:496-507 | PLAYING, with the ball, paddle and scores reset and level 1 current. The power-up manager is not touched. |
| Game.Game.StartGame | js/game.js:496-517 | After the resets, the loop is started at the clock if it never ran. |
| Game.Game.PauseGame | js/game.js:520-529 | The state follows `Next(OnPause)`. |
| Game.Game.TogglePause | js/game.js:532-543 | The state follows `Next(OnToggle)`. |
| Game.Game.HandleBallLost | js/game.js:553-558 | The state follows `Next(OnBallLost)`, which is GAMEOVER from any state. |
| Game.Game.MainMenu | js/game.js:253-257 | The state follows `Next(OnMainMenu)`, which is START from any state. |
| Game.Game.HandleMouseMove | js/game.js:263-281 | In PLAYING the paddle's x becomes `PointerX`, and in other states nothing changes. |
| Game.Game.HandleMouseClick | js/game.js:284-308 | GAMEOVER goes to START. In PLAYING, an enabled laser fires as `Shoot`. |
| Game.Game.HandleKey | js/game.js:221-242 | Keys are ignored outside PLAYING. The arrows steer -1 and 1, and Escape pauses. |
| Game.Game.HandleTouch | js/game.js:620-633 | The paddle follows `Touch` in every state. |
| Game.Game.Resize | js/game.js:311-327 | The field becomes `FieldSize`, and paddle, ball and the current level's bricks are resized. |
| Game.Game.FireLevelLoad | js/levels.js:282-287 | The load timer is spent and its level loaded. The load succeeds iff the number is 1, 2 or 5, and then the ball and paddle are reset. On NotFound they are untouched. |
| Game.Game.CheckCollisions | js/game.js:379-407 | Without a level nothing happens. Otherwise the world becomes `Collided`: the paddle test, then the brick pass in level order. |
| Game.Game.PaddleTest | js/game.js:383-386 | Ball and scores follow `PaddleStep`. |
| Game.Game.StrikeBricks | js/game.js:389-406 | Ball, scores, daily challenge and bricks follow `BrickPass`, and the spawned pickups are appended. |
| Game.Game.HitBrick | js/game.js:390-404 | One brick follows `BrickStep`. |
| Game.Game.DropPowerup | js/game.js:401-404 | A struck power-up brick that went out appends its pickup at its position. Otherwise nothing is added. |
| Game.Game.StrikeAt | js/game.js:392-396 | The brick takes `Strike`, and a break is recorded exactly when it goes out. |

## Left out

- Drawing is not modelled: the `draw*` methods, the debug panel and debug mode, the FPS counter, DOM and menu toggling, event-listener wiring and `requestAnimationFrame`. None of them is read by the simulation.
- The debug keys 'n' and 'l' of the `keydown` handler are not modelled; only the arrows and Escape are.
- `js/utils.js` is not part of this model. Particles, floating text, screen shake and `GameUtils.update` are cosmetic.
- The pixel position computed in `handleBrickDestroyed` is not modelled: it is only read by the particle effect. Only its call of `recordBrickBreak` is modelled.
- Persistence is not modelled: `saveToStorage`, `loadFromStorage`, `updateLeaderboard`, `loadTodayChallenge`, `saveProgress` and `generateDailySeed`. They are localStorage and date I/O, and the daily seed is a constructor input instead.
- No clock is modelled. Each `setTimeout` is a handle with its callback kept in state, and a `Fire...` method runs it. Delays are recorded but do not order the firings: any armed timer may fire next.
- `Date.now` and `lastHitTime` are not modelled: nothing reads them.
- `Math.random`, `Math.sin` and `Math.cos` are not modelled. The random picks are parameters (`choose`, `roll`, `drawn`), and the trigonometric functions are function parameters. `Kinematics.PaddleBounceKeepsSpeed` assumes sin² + cos² = 1.
- IEEE floating point is not modelled: numbers are exact reals, so NaN, infinities and rounding are absent.
- Game.Game.Valid requires a positive paddle width. A zero width would divide by zero in the paddle bounce, which is NaN in the source.
- Effects on objects outside the simulation are left out: `game.balls` and `game.particleSystem` in the combination effects (the bullet storm leaves the paddle unchanged), and EXTRA_BALL's `new Ball`, which nothing keeps.
- The LASER effect's `hasLaser` flag is modelled, but nothing reads it. Firing is gated by `laserEnabled`.
- PowerupTypes.RevertEffect: EXPAND_PADDLE's revert writes `undefined` when no width was ever remembered. The model leaves the width unchanged then, because the paddle's width is a number.
- The live manager's `comboTimer` field is not modelled: nothing uses it.
- The live file's copies of `checkCombinations` and `activateCombo` (js/powerups.js:128-161) are not modelled separately. They match the variant's and nothing in the live file calls them, so the logic appears once, in `ComboPowerups`.
- The variant's `Powerup` class calls `this.activeEffects` but has no such field. The combination logic gets its own map in `ComboPowerups.ComboTracker`.
- The variant's trailing `export { PowerupManager, POWERUP_TYPES }` duplicates the class export and `POWERUP_TYPES` is never declared exported. The model treats the file as if it loaded.
- The live modules would not link as written. js/game.js:1-6 imports `PowerupManager`, `Player`, `Ball` and `LevelManager` by name, but js/powerups.js, js/player.js, js/ball.js and js/levels.js export nothing; the export at js/levels.js:341 is commented out. The model treats the four imports as if they resolved.
- The variant's `Powerup.prototype.draw` override is rendering only.
- The `try`/`catch` of `gameLoop` is not modelled. Only errors the modelled operations raise are represented, as `Thrown` outcomes: NotFound from `loadLevel`, and the variant's TypeErrors.
- Game.Game.StartGame: when the loop has never run, the contract states only the clock values after the zero-length first frame, because the resets are then followed by one `update`. Otherwise it states the resets in full.
- `restartGame` and the visibility-change pause are not modelled separately: they differ from `startGame` and `pauseGame` only in DOM work.
- The pointer and touch coordinates are inputs in canvas pixels. The bounding-rectangle and scale arithmetic of the DOM event is left out, and a touch list without touches is `None`.
- The constructor's early `resize()` call is not modelled; the field size is a constructor input instead.
- The boss's `health` and `pattern` are data only. Nothing in the core reads them or damages the boss, and drawing the boss is not modelled.

## Findings

| source | as written | input that shows it | evidently intended | confidence | as-written member | corrected member |
|---|---|---|---|---|---|---|
| src/js/powerups.js:44-80 | The table is keyed by the registry's property names (`LASER+EXPAND_PADDLE`, `EXTRA_BALL+LASER`), but `activate` records the ids (`laser`, `expand-paddle`, `extra-ball`). | Collect a laser, then an expansion, then let the 100 ms debounce fire. No combination applies, and the laser width stays as it was. | Keys naming the recorded ids, so that laser plus expansion switches on the super laser (width 25, damage 2). | not executed | ComboPowerups.ShippedTableNeverCombines | ComboPowerups.IdCombosMatch |
| src/js/powerups.js:292-294 | `reset` indexes `POWERUP_TYPES` by each recorded timer handle. The lookup is `undefined`, and reading `.revert` from it throws. | Collect an expansion, then reset. A TypeError is thrown, the map is not cleared, and the revert timer stays armed. | Iterate over the (handle, id) pairs: cancel each timer, revert the effect with that id, then clear the map, as the live manager does. | not executed | ComboPowerups.SrcResetLeavesTimersArmed | Powerups.ClearedCancelsEveryTimer |
