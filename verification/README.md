# Classic Space Adventure: a Dafny model of the game core

This project models the game logic of *Classic Space Adventure*, a
single-file pygame shooter. The player's ship moves along the bottom of a
playfield 36 cells wide and 38 rows high, and fires lasers upward. Waves of enemies drift down
from above the window. The model covers:

- the three game objects: lasers, enemies and the ship. That means their
  construction, movement, shooting and the hitboxes pygame's `Rect`
  arithmetic gives them (`Entities`, `Geometry`);
- the session (`Game`), in module `Session`. This is the menu/play/pause
  mode machine driven by key events, the partial reset, the damage routine
  that ends a game, wave generation, and the four passes of one frame;
- the way a Python `for` loop walks a list it removes from (`PyLists`).
  `ForEach` is the loop exactly as Python runs it: an index that always
  advances over a list that shrinks. `Scan` is an independent reference
  over the original list, in which the element after each removal is
  passed over. `ForEachIsScan` proves the two agree;
- the reachable-state invariant and how the modes gate the game
  (`Invariants`);
- concrete situations that pin down the game's behaviour as written
  (`Scenarios`).

The game behaves in three ways a reader of its rules might not expect, and
the model keeps all three:

- Every pass that removes from the list it walks skips the element right
  after each removal. Two enemies on the ship that are adjacent in the
  enemy list cost 10 hit points, not 20: the second is passed over. Two
  that are not adjacent both go, for 20.
- The laser cull `height < y < 0` is never true, so no laser is ever
  removed for leaving the window.
- `__reset` restores hit points, score and enemies only. The lasers in
  flight and the ship's column survive a restart. A game that ends part-way
  through a frame still runs the rest of that frame's passes.

Units:

- Ship and enemy positions are in grid cells, and a cell is 20 pixels.
- Enemy rows are integers in hundredths of a row. Every enemy speed
  (0.1 to 0.16 rows per frame) and every spawn row is exact in these units.
- Lasers and hitboxes are in pixels.

Randomness is passed in: each frame receives a `Draw`, which holds the wave
size roll and the choices for each new enemy. Key events are passed in as a
sequence per frame.

## Model

| member | source | states |
|---|---|---|
| Entities.NewLaser | src/main.py:9-21 | A laser is a 10x20 rectangle at the given pixel origin. Its velocity is +5 or -5 and is positive exactly when the direction is positive. |
| Entities.MoveTrajectory | src/main.py:29-31 | After n frames a laser has moved n times its velocity vertically, and nothing else about it has changed. |
| Entities.SpawnTables | src/main.py:40-52 | The spawn columns are 5, 10, 15, 20, 25, 30 and the spawn rows are -8 to -5. |
| Entities.NewEnemy | src/main.py:38-52 | Every fresh enemy is in a spawn column (5..30, step 5) and a spawn row (-8..-5, above the window), with one of the five speeds. |
| Entities.SpawnPickFor | src/main.py:38-52 | Conversely, every such enemy is what some choice of column, row and speed produces. |
| Entities.DriftTrajectory | src/main.py:54-56 | After n frames an enemy has descended n times its speed in the same column, and it stays a valid enemy. |
| Entities.EnemyShoot | src/main.py:58-60 | An enemy's laser heads down (velocity +5) from the sprite's left edge. |
| Entities.EnemyHitbox | src/main.py:62-71 | The sequence of attribute updates on the 100x100 sprite rectangle leaves a 70x30 box 15 pixels in from its top-left corner. |
| Entities.MoveLeft | src/main.py:91-94 | The ship moves exactly two cells left when its column is above 1, and otherwise stays. Row and hit points are unchanged. |
| Entities.MoveRight | src/main.py:96-99 | The ship moves exactly two cells right when its column is below 30, and otherwise stays. Row and hit points are unchanged. |
| Entities.ShipStaysOnScreen | src/main.py:88-99 | From any column in 0..31 both moves stay within 0..31, and at either edge the move toward it does nothing. |
| Entities.ShipShoot | src/main.py:101-104 | The ship's laser heads up (velocity -5) from (coord + (2.2, -0.5)) * 20 in exact arithmetic, which is the integer pixel (20x+44, 20y-10). It is a 10x20 rectangle. |
| Entities.ShipHitbox | src/main.py:106-112 | Moving the sprite's vertical centre down 50 and shrinking it by 80 leaves the 100x20 band 50 pixels below its top. |
| Geometry.WithCenterY | src/main.py:109-109 | Setting `centery` moves the rectangle so that its centre is the new value, keeping its left edge and its size. |
| PyLists.Range | src/main.py:45-45 | `range(start, stop, step)` is the arithmetic progression from `start` whose every element is below `stop`, and it ends at the first step that would reach `stop`. |
| PyLists.RangeLength | src/main.py:244-244 | `range(1, n)` has n - 1 elements when n >= 1. |
| PyLists.ForEachIsScan | src/main.py:249-254 | A `for` loop over a list that removes the current element agrees with the reference scan over the original list, which skips the element after each removal. |
| PyLists.LoopIsScan | src/main.py:218-226 | A whole loop from the first element gives the survivors and the final state of the reference scan. |
| Session.DecreaseHp | src/main.py:208-214 | The session is in the menu afterwards exactly when it was already there or the damage exceeds the hit points. Damage exceeding the hit points leaves 0, even when already in the menu. Otherwise the hit points drop by exactly the amount. Nothing but hit points and mode changes. |
| Session.RepeatedDamage | src/main.py:208-214 | k hits of the same amount leave max(0, hp - k*amount) hit points. The game ends exactly when hp - k*amount is negative, so landing on 0 keeps playing. |
| Session.Wave | src/main.py:244-245 | A wave has one enemy fewer than the roll, so 4 to 9 enemies, and every one is spawnable. |
| Session.GenerateWave | src/main.py:241-245 | A wave is added only when no enemy is left, and nothing but the enemy list changes. |
| Session.DamagePass | src/main.py:249-254 | A removal pass that charges a fixed amount per removal changes only hit points and mode, by the closed form for the number of removals. |
| Session.LasersAllMove | src/main.py:256-261 | The laser loops move every laser and remove none. |
| Session.UpdateWorld | src/main.py:247-261 | Surviving enemies are the reference scan's survivors, and each one that goes costs 5 hit points. Every laser is moved and kept. Score and ship position are unchanged. |
| Session.OnlyFallenLeave | src/main.py:249-254 | Every enemy the world update removes is, once moved, past row 43. |
| Session.FirstHit | src/main.py:232-239 | Returns the first enemy whose hitbox the laser overlaps, or none when no enemy's hitbox does. |
| Session.HitPass | src/main.py:228-239 | The laser loop gives the reference scan's survivors in order. Each laser removed overlapped an enemy and takes one enemy and 10 points. Each enemy removed was overlapped by a ship laser. Nothing but score and enemies changes. |
| Session.HitLasersOverlapped | src/main.py:231-237 | Every laser the pass removes overlapped an enemy present before the pass. |
| Session.HitStepShotDown | src/main.py:232-238 | A visit of a ship laser removes only the enemy it overlaps, so every enemy lost so far was overlapped by a ship laser. |
| Session.HitEnemiesWereShot | src/main.py:228-239 | Every enemy the laser pass removes was overlapped by one of the ship's lasers. |
| Session.LaserEnemyCollisions | src/main.py:228-239 | Each ship laser that goes overlapped an enemy, and takes exactly one enemy and 10 points with it. Each enemy that goes was overlapped by a ship laser. Survivors of both lists keep their order. Hit points, mode, ship and enemy lasers are untouched. |
| Session.CrashPass | src/main.py:216-226 | The ship collision loop keeps survivors in order and costs 10 hit points per removal. The ship's hitbox is recomputed on every visit, and every enemy removed overlapped it. |
| PyLists.ScanFilters | src/main.py:218-226 | When a loop removes exactly the elements with some property and no two neighbours both have it, the loop leaves exactly the elements without it, in order. |
| Session.CrashesApart | src/main.py:216-226 | When no two adjacent enemies both overlap the ship, the ship collision pass removes exactly the enemies that overlap it. |
| Session.PlayerEnemyCollisions | src/main.py:216-226 | Every enemy that goes overlapped the ship, survivors keep their order, and each removal costs 10 hit points. Score, lasers and ship position are untouched. |
| Session.Frame | src/main.py:266-296 | The frame's key events run first. When they leave the game in play, the frame is the update of that state; otherwise it is the key events alone. The update never moves the ship or lowers the score, and only ends a game with 0 hit points. |
| Session.Update | src/main.py:292-296 | One playing frame raises the score by 10 per ship laser consumed. It never adds ship lasers, keeps the ship where it is and never raises hit points. Reaching the menu means hit points 0. |
| Session.Reset | src/main.py:180-184 | A reset sets hit points to 100, the score to 0 and the enemy list to empty. It keeps the mode, the ship's position and both laser lists. |
| Session.HandleKey | src/main.py:271-289 | RETURN in the menu starts a game with 100 hit points, score 0 and no enemies, keeping the lasers and ship position. In play the arrows move, SPACE adds one laser and ESCAPE pauses. In pause only ESCAPE is heard. |
| Invariants.InitialInv | src/main.py:126-151 | The session starts in a state satisfying the invariant. |
| Invariants.MovedLasersKeepVelocity | src/main.py:256-258 | Moving every laser keeps each laser's velocity. |
| Invariants.HandleKeysInv | src/main.py:268-289 | Key events keep the invariant. |
| Invariants.GenerateWaveInv | src/main.py:241-245 | Generating a wave keeps the invariant. |
| Invariants.UpdateWorldInv | src/main.py:247-261 | The world update keeps the invariant. |
| Invariants.LaserEnemyCollisionsInv | src/main.py:228-239 | The laser pass keeps the invariant, including the score being a multiple of 10. |
| Invariants.PlayerEnemyCollisionsInv | src/main.py:216-226 | The ship collision pass keeps the invariant, including hit points within 0..100. |
| Invariants.UpdateInv | src/main.py:292-296 | The four passes of a playing frame keep the invariant. |
| Invariants.FrameInv | src/main.py:266-296 | One frame (keys, then the update while playing) keeps the invariant. |
| Invariants.RunInv | src/main.py:263-296 | Every state the game loop reaches satisfies the invariant, whatever the keys and random draws. |
| Invariants.PauseFreezes | src/main.py:287-296 | In pause, a frame without ESCAPE changes nothing. |
| Invariants.MenuWaits | src/main.py:272-276 | In the menu, a frame without RETURN changes nothing. |
| Invariants.EscapeToggles | src/main.py:287-289 | Outside the menu ESCAPE switches between play and pause, and a second ESCAPE restores the state. |
| Invariants.ScoreNeverDrops | src/main.py:180-184 | Only the reset on RETURN lowers the score, so a frame without RETURN never lowers it. |
| Invariants.GameEndsOnlyAtZero | src/main.py:208-214 | Key events never end a game, and a frame that ends one leaves 0 hit points. |
| Scenarios.AdjacentCrashSkipsSecond | src/main.py:216-226 | With two enemies on the ship adjacent in the list, the second is skipped and survives, costing 10 hit points instead of 20. |
| Scenarios.SeparatedCrashesBothGo | src/main.py:216-226 | Two enemies on the ship with another between them are both visited and both go, for 20 hit points. |
| Scenarios.AlternateCrashes | src/main.py:216-226 | With three enemies on the ship, the first and third go and the second survives. |
| Scenarios.LaserHitsEnemy | src/main.py:228-239 | A laser overlapping the only enemy removes both and scores 10. |
| Scenarios.EnemyLeavesAtBottom | src/main.py:249-254 | An enemy drifting past row 43 is removed at a cost of 5 hit points. |
| Scenarios.LaserAboveWindowKept | src/main.py:256-261 | A laser far above the window is still moved and kept. |
| Scenarios.LandingOnZeroKeepsPlaying | src/main.py:208-214 | Damage landing exactly on 0 keeps the game in play, and damage going below 0 ends it. |
| Scenarios.ResetKeepsLasers | src/main.py:180-184 | A restart keeps lasers in flight and the ship's column. |
| Scenarios.MidFrameGameOver | src/main.py:292-296 | A frame whose world update ends the game still runs the laser pass. The enemy skipped after the fallen one is destroyed and scores 10. |

## Left out

- Rendering, fonts, images, sound, the window and the frame clock produce no game state and are not modelled.
- The QUIT event, `__clean_up` and the `active` flag only stop the loop. `Run` models any finite run of frames.
- Randomness (`random.randint`, `random.choice`) is a parameter: each frame receives a `Draw`.
- Float arithmetic is not modelled. Enemy rows are exact hundredths. The float sums the game accumulates for 0.1-row speeds can differ from these in the last bits, which could move an enemy's removal by one frame at the bottom boundary.
- Entities.EnemyTopLeft: pygame's conversion of a float sprite coordinate to an integer pixel is taken to truncate toward zero (`Geometry.TruncDiv`). That conversion is inside pygame and is not part of this model.
- Entities.ShipShoot: the origin is stated in exact arithmetic as 20x+44 and 20y-10. The game computes the product in floating point before pygame stores it as an integer pixel, and that rounding is not modelled.
- Geometry.Overlap: `colliderect` is taken as strict overlap on both axes. Its handling of zero-size rectangles does not matter here, because every rectangle in the game has positive size.
- Entities.EnemyShoot: states the velocity and the horizontal origin only, not the vertical pixel. The game never calls `Enemy.shoot`, so the enemy laser list stays empty in every run. It is kept in `Game` because the world update moves it.
- The laser registry `Laser.INSTANCES`, a class-level dictionary keyed by the shooter's class, is modelled as two lists. The loops over its entries do not interact, so their order does not matter. The laser's `color` and `startingCoords` attributes are only drawn and are not modelled.
- Python's `list.remove(x)` removes the first element equal to `x`. The game's classes compare by identity, so this removes the element being visited, and the model removes by position.
- Session.UpdateWorld: the hit-point and mode closed form is stated only when hit points start non-negative. Every reachable state has them non-negative (`Invariants.Inv`).
- Session.PlayerEnemyCollisions: the hit-point and mode closed form is stated only when hit points start non-negative. Every reachable state has them non-negative (`Invariants.Inv`).
- Session.Update: states the score, laser, ship and hit-point bounds of a whole frame, not a closed form of the final state. The per-pass closed forms are on `UpdateWorld`, `LaserEnemyCollisions` and `PlayerEnemyCollisions`.
