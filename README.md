# Dodge the Tejecks — gameplay rules in Dafny

This project models the gameplay rules of `script.py`, the pygame game "dodge the
tejecks", without its drawing, sound and event code. There are two modes:

- a survival run (`game_loop`), in which characters fall and the player dodges them,
  shoots them with auto-fire and collects power-ups;
- a boss fight (`boss_game_loop`) against a boss with three phases that fires volleys.

Around both sit the persistent progress rules: level unlocking, best and high scores,
the shop, and the loader's defaults.

Modules:

- `Geometry` (geometry.dfy): the screen size and `colliderect` as an integer
  rectangle overlap.
- `Entities` (entities.dfy): `Enemy`, `Laser`, `PowerUp` (with the `TYPES` duration
  table) and `Fire`. Each has its box, its move and its removal test.
- `PlayerRules` (player_rules.dfy): the rules both loops share. These are the
  countdowns, the shield counter, the ammo pickup, the combo and the coin value, the
  player's movement and boxes, and auto-fire.
- `Progress` (progress.dfy): the level ladder and `is_level_unlocked`, the best-score
  update, `load_progress` as a function of what the save file holds, and a `Profile`
  class. The class holds the module-level globals that the shop and the end-of-run
  code update in place.
- `BossFight` (boss.dfy): the `Boss` class with `update`, `should_fire`,
  `take_damage` and `get_rect`, and the phase rule as functions.
- `Survival` (survival.dfy): one frame of `game_loop` and the run around it.
- `BossMode` (bossmode.dfy): one frame of `boss_game_loop` and the fight around it.
- `Wrappers` (wrappers.dfy): `Option` and `Result`.

The two game loops update local counters and remove entries from lists while they
iterate. Each loop is modelled as follows:

- The loop's state is a datatype (`Survival.Run`, `BossMode.Arena`). The boss is a
  `Boss` object that each frame updates in place.
- Every pass over a list (enemies, lasers, power-ups, fires) is a method with a loop.
  Each method is proved equal to a recursive definition of that pass.
- Lemmas about those definitions state what a pass does: what it keeps, what it
  counts, when the run ends.
- A frame method keeps each mode's bounds as an invariant.
- A run method plays a sequence of frames and updates the profile as the source
  does.

Randomness becomes input: the spawn draws, the kinds drawn, and the boss's wander
target. Each frame takes a `FrameInput` holding these draws, the direction keys and
the pause menu's result.

## Model

| member | source | states |
|---|---|---|
| Geometry.OverlapsIffSharedPoint | script.py:1219 | the rectangle test used for every collision holds exactly when the two boxes share a pixel |
| Geometry.OverlapsSymmetric | script.py:1219 | which of the two boxes is asked does not matter |
| Geometry.OutsideScreen | script.py:92-93 | a box wholly beyond one edge of the screen does not touch the screen |
| Entities.SpawnEnemy | script.py:68-72 | a new enemy starts at y = -50 with its box above the top edge and is not yet counted as off screen |
| Entities.EnemyRect | script.py:88-90 | the enemy's box is size by size and contains its centre |
| Entities.OffScreenEnemyIsBelowScreen | script.py:92-93 | an enemy counted as off screen lies wholly below the screen |
| Entities.LaserRect | script.py:343-344 | a laser's box is 4 by 20 and starts at its y |
| Entities.OffScreenLaserIsAboveScreen | script.py:346-347 | a laser counted as off screen lies wholly above the screen |
| Entities.DurationTable | script.py:377-387 | coin, bomb and ammo have duration 0; every timed kind lasts 200 to 400 frames |
| Entities.SpawnPowerUp | script.py:389-393 | a new power-up keeps its x and kind and starts wholly above the screen |
| Entities.PowerUpRect | script.py:417-418 | a power-up's box is 50 by 50 around its centre |
| Entities.OffScreenPowerUpIsBelowScreen | script.py:420-421 | a power-up counted as off screen lies wholly below the screen |
| Entities.NewFire | script.py:201-216 | a fire starts at its origin with lifetime 300 and moves straight down at `speed` when aimed at its own origin |
| Entities.FireRect | script.py:241-242 | a fire's box is 30 by 30 around its centre |
| Entities.MoveFireTimesIsLinear | script.py:218-222 | after n updates a fire has moved n velocity steps and lost n lifetime |
| Entities.FireExpires | script.py:244-247 | every fire counts as dead after 300 updates, wherever it was aimed |
| PlayerRules.Tick | script.py:1126-1143 | a countdown loses one frame only while positive and never goes below 0 |
| PlayerRules.TickTimesRemaining | script.py:1126-1143 | a timer set to d shows d - n after n frames and 0 once n >= d |
| PlayerRules.AddShield | script.py:1279-1280 | a shield pickup adds one shield exactly when there are fewer than 5 |
| PlayerRules.AbsorbHit | script.py:1326-1330 | a hit is absorbed exactly when a shield is left, at the cost of one shield |
| PlayerRules.AmmoPickup | script.py:1317 | an ammo pickup gives min(max, ammo + 10) and stays within the maximum |
| PlayerRules.ComboUp | script.py:1176 | a dodge raises the combo by one up to 10 |
| PlayerRules.ComboTick | script.py:1146-1149 | the combo timer runs down, and once it is at 0 the combo is lost |
| PlayerRules.ComboLapses | script.py:1146-1149 | with no dodge for more frames than the timer shows, the combo is 0 |
| PlayerRules.CoinValue | script.py:1275 | a coin is worth a positive multiple of 5, at most 30 with the combo capped at 10 |
| PlayerRules.HitboxInsideSprite | script.py:1324 | whatever touches the 40-pixel hit box also touches the 50-pixel sprite box |
| PlayerRules.MovePlayer | script.py:1453-1456 | left then right, each only away from its edge; with both keys held, the right step's guard reads the x the left step left; the player's x stays within one boosted step of the screen |
| PlayerRules.AutoFire | script.py:1459-1481 | fires iff the cooldown is out and there is ammo; costs 1, or 2 for a double shot if a second round is left; restarts the cooldown at base or base // 3; one laser at the player's centre, or two 15 pixels either side, 10 pixels above the player |
| Progress.IndexOf | script.py:500 | the first position of the level in the ladder |
| Progress.IsLevelUnlocked | script.py:497-508 | Easy is always open; another level is open iff the previous level's best reaches the level's requirement |
| Progress.RequirementsPositive | script.py:476-484 | every level after Easy needs at least 20 points |
| Progress.OnlyEasyOpenAtStart | script.py:487-508 | with all best scores 0 only Easy is open |
| Progress.UnlockIsMonotone | script.py:497-508 | raising best scores never locks a level |
| Progress.WithBest | script.py:1110-1113 | the best score is replaced only by a higher score; other levels are unchanged |
| Progress.WithBestGrows | script.py:1110-1113 | recording a score makes the level's best the larger of the old best and the score, and leaves every other level's best as it was |
| Progress.RecordingKeepsUnlocked | script.py:1345-1349 | a level once unlocked stays unlocked after any score is recorded |
| Progress.LoadProgress | script.py:524-543 | a missing or undecodable file gives all defaults; a decoded file without purchases fails; otherwise each key is read with its default |
| Progress.LoadedScoresComplete | script.py:537-539 | a successful load gives every level a best score |
| Progress.Profile.Loaded | script.py:524-543 | the globals after a successful load, with the default character equipped |
| Progress.Profile.RecordBest | script.py:1110-1113 | the auto-save's best-score update, nothing else changed |
| Progress.Profile.FinishCaught | script.py:1345-1350 | a lost survival run banks its points and raises the high score and the level's best by max |
| Progress.Profile.FinishBanked | script.py:655-658 | a quit (and a lost boss fight) banks the points and raises the level's best; the high score is untouched |
| Progress.Profile.FinishVictory | script.py:1725-1729 | a won boss fight banks the points and raises the high score; no best score changes |
| Progress.Profile.ShopEnter | script.py:1038-1055 | buys the item only if unowned and affordable, deducting exactly its cost; equips it iff owned; reports the shortfall otherwise; points stay non-negative |
| BossFight.PhaseAfter | script.py:130-138 | phase 3 below 30 health, phase 2 below 60, otherwise unchanged |
| BossFight.PhaseNeverDecreases | script.py:130-138 | once the phase fits the health, falling health never lowers the phase |
| BossFight.PhaseMonotoneOverFight | script.py:130-138 | over any fight with falling health the phase only rises and ends at 3 below 30 health and at least 2 below 60 |
| BossFight.StepToward | script.py:117-122 | the boss moves 3 pixels toward its target unless within 5, never past it |
| BossFight.Boss.constructor | script.py:97-111 | full health, phase 1, fire rate 60, spin 1, centred |
| BossFight.Boss.Box | script.py:190-192 | the 150-pixel box around the boss's centre |
| BossFight.Boss.Update | script.py:113-145 | spin, step toward the target, re-target after 90 frames, phase from health, fire timer +1, hit flash down only while positive; rate and spin always match the phase |
| BossFight.Boss.ShouldFire | script.py:147-151 | fires iff the timer has reached the rate, and then resets it to 0; otherwise nothing changes |
| BossFight.Boss.TakeDamage | script.py:194-197 | health drops by exactly the amount, the flash is set to 10, and the result is health <= 0 |
| Survival.StartIsValid | script.py:1067-1104 | the starting values satisfy every bound of a run |
| Survival.DodgesCharacterised | script.py:1170-1177 | the enemy pass keeps exactly the enemies still on screen and credits one dodge per enemy that left |
| Survival.CreditTimesEffect | script.py:1174-1177 | n dodges add n to the streak and between n and 11n points, and set the combo to min(combo + n, 10) with its timer at 60 |
| Survival.SingleDodge | script.py:1172-1177 | one enemy leaving scores 1 + combo, raises the combo and restarts its timer |
| Survival.DodgePass | script.py:1170-1190 | the loop computes the enemy pass |
| Survival.FirstHit | script.py:1218-1227 | the index of the first enemy a laser touches, none before it touched |
| Survival.FindHit | script.py:1218-1227 | the inner loop stops at exactly that enemy |
| Survival.FirstHitIsFirst | script.py:1218-1227 | the first touched enemy is unique |
| Survival.SweepAccounts | script.py:1209-1229 | each hit removes exactly one enemy and one laser |
| Survival.SweepKeepsEnemies | script.py:1209-1229 | the enemies left after the sweep are among the old ones |
| Survival.SweepKeepsLasersOnScreen | script.py:1209-1229 | no laser kept by the sweep is above the screen |
| Survival.SweepWithoutEnemies | script.py:1209-1214 | with no enemies there are no hits |
| Survival.LaserPass | script.py:1209-1229 | the laser loop computes the laser pass, scoring 3 + combo per kill and leaving the combo alone |
| Survival.CollectKeepsValid | script.py:1272-1320 | collecting any power-up keeps every bound and never lowers the score |
| Survival.TimedResets | script.py:1283-1312 | a timed power-up sets its timer to the table's duration, so collecting it twice equals collecting it once |
| Survival.BombClears | script.py:1295-1305 | a bomb removes every enemy, scoring 2 each and counting each as destroyed |
| Survival.Detonate | script.py:1300-1302 | the bomb's loop adds 2 per enemy |
| Survival.Apply | script.py:1272-1320 | the effect applied equals the collection rule |
| Survival.GatherKeepsValid | script.py:1250-1322 | the power-up pass keeps every bound and never lowers the score; no kept power-up is sunk or touching |
| Survival.GatherPass | script.py:1250-1322 | the loop computes the power-up pass |
| Survival.ContactsCharacterised | script.py:1324-1352 | the run ends iff more enemies touch than there are shields, then with 0 shields; otherwise one shield per touch and exactly the untouched enemies remain |
| Survival.OneContact | script.py:1324-1352 | one touching enemy costs one of two shields, or ends a run with none |
| Survival.ContactPass | script.py:1324-1352 | the loop computes the contact pass |
| Survival.Fall | script.py:1146-1190 | the run becomes `AfterFall`: the combo ticks, the enemies become exactly the moved ones still on screen, and one dodge (1 + combo, combo up to 10, timer 60) is credited per enemy that left; the bounds hold |
| Survival.Shoot | script.py:1209-1229 | the run becomes `AfterShots`: the lasers and enemies are exactly the laser sweep's, the score grows by hits × (3 + combo), the kill count by hits, and nothing else changes; the bounds hold |
| Survival.Pick | script.py:1250-1322 | the run becomes `AfterPick`, the power-up pass's run with the pass's kept power-ups; every bound holds, the score and kill count do not fall, and the streak and the player's position stay |
| Survival.Advance | script.py:1126-1322 | the run becomes `AfterPasses`: the countdowns tick, then the enemy pass, a new enemy, the laser pass, a new power-up and the power-up pass, at speeds chosen by slow motion as it stood before the tick; the bounds hold and the score never falls |
| Survival.Frame | script.py:1116-1481 | one frame keeps every bound and never lowers the score; the run after the entity passes is exactly `AfterPasses`, and from it the run ends exactly when more enemies touch the player than there are shields (then with 0 shields), otherwise one shield goes per touching enemy and exactly the untouched enemies stay; a continuing frame moves the player at the speed boost as it stood before this frame's countdown and auto-fires from the new x |
| Survival.Round | script.py:1105-1113 | the auto-save counter wraps at 1800, when the level's best becomes max(best, score) and nothing else in the profile changes; the frame keeps the bounds and never lowers the score |
| Survival.Play | script.py:1063-1484 | the run's end banks points and the high score as the source does; the level's best becomes max(old best, final score), no other level's best changes, and the purchases and equipped character stay |
| BossMode.StartIsValid | script.py:1547-1575 | the starting values satisfy every bound of a fight |
| BossMode.TrimFront | script.py:1597-1602 | the cut list is the newest min(length, cap) entries, in order |
| BossMode.Fan | script.py:1654-1657 | the loop gives three shots at speed 10 toward the player's centre and 150 pixels to either side, which is the phase-3 volley |
| BossMode.Volley | script.py:1644-1657 | one shot per phase number, each leaving 75 pixels below the boss with a 300-frame lifetime; phase 2's from 30 pixels either side of the boss, the others from its centre |
| BossMode.FanTargets | script.py:1654-1657 | the phase-3 volley aims at the player's centre and 150 pixels to either side of it, at speed 10 |
| BossMode.BurnsCharacterised | script.py:1660-1691 | the fire pass ends the run iff more live fires touch than there are shields; otherwise one shield per touch and the live misses remain |
| BossMode.FirePass | script.py:1660-1691 | the loop computes the fire pass |
| BossMode.DescendAccounts | script.py:1698-1704 | the pass keeps exactly the moved entries still on screen, in order, and scores one per moved entry that left; every entry is one or the other |
| BossMode.MissedPickupScores | script.py:1698-1702 | a power-up falling out of the shared list scores 1 like a dodge |
| BossMode.DescendPass | script.py:1698-1704 | the loop computes the falling pass |
| BossMode.FirstEnemyHit | script.py:1740-1750 | the first enemy, skipping power-ups, a laser touches |
| BossMode.FirstEnemyHitIsFirst | script.py:1740-1750 | that enemy is unique |
| BossMode.FindEnemyHit | script.py:1740-1750 | the inner loop finds exactly that enemy |
| BossMode.PickupsWithoutEnemy | script.py:1741-1742 | removing an enemy leaves the power-ups as they were |
| BossMode.VolleysAccount | script.py:1707-1750 | each laser that connects is used up; kills remove enemies only; a living boss falls iff its hits bring its health to 0 or below |
| BossMode.LaserPass | script.py:1707-1750 | the loop computes the laser pass, with 3 per kill and 2 damage per boss hit |
| BossMode.Grant | script.py:1758-1772 | a boss-mode power-up leaves the score, the player's x, the cooldown and the three entity lists alone |
| BossMode.GrantKeepsValid | script.py:1758-1772 | pickups keep the bounds; a shield pickup adds one up to 5, an ammo pickup gives min(50, ammo + 10), a timed pickup sets its timer to the table's duration, and every other shield, timer and ammo field stays as it was |
| BossMode.TouchesKeepValid | script.py:1754-1794 | the contact pass keeps the bounds and the score; it ends the run only with 0 shields, never on power-ups alone |
| BossMode.TouchesCharacterised | script.py:1754-1793 | a pass that does not end the run removes exactly the touching entries and keeps the rest in order; one that ends it leaves 0 shields; with no power-up touching, the run ends iff more enemies touch than there are shields, and otherwise one shield goes per touching enemy |
| BossMode.OneTouch | script.py:1775-1793 | one touching enemy with two shields costs one and is removed; with none it ends the run |
| BossMode.TouchPass | script.py:1754-1794 | the loop computes the contact pass |
| BossMode.Prepare | script.py:1595-1620 | fires, hazards and lasers become their newest 50, 30 and 20 entries, the four countdowns tick, and nothing else changes |
| BossMode.BossTurn | script.py:1640-1657 | the boss's fields after its update and fire check, as `Boss.Update` and `Boss.ShouldFire` give them; the volley of its new phase, aimed at the player, is added iff the fire timer reached the rate, and nothing else changes |
| BossMode.Opening | script.py:1595-1691 | after the caps, the countdowns, the boss's turn and the fire pass, the hazards and lasers are the newest 30 and 20, the score and x are unchanged, and the fire timer fires iff it reaches the rate; the player is scorched exactly when more of the capped fires plus the new volley touch the hit box than there are shields, otherwise one shield goes per touching fire and exactly the untouched live fires stay |
| BossMode.Strike | script.py:1693-1750 | the hazards and lasers become exactly the falling pass followed by the laser pass; the score grows by one per entry that left plus 3 per kill, at most 91 in all; no other arena field changes; the boss neither moves nor changes phase |
| BossMode.Closing | script.py:1753-1900 | the run ends exactly when the contact pass catches the player, leaving the contact pass's arena with 0 shields; otherwise the arena is the contact pass's with the new power-up appended (`Landed`), and a continuing frame then moves at the given speed and auto-fires from the new x (`Moved`); every bound and the score hold; quit and close iff chosen and not caught |
| BossMode.Resolve | script.py:1693-1900 | after the hazards' turn, a fallen boss gives victory with exactly 100 points more; otherwise the frame is caught iff the contact pass catches the player, and a quit, close or continuing frame leaves `Landed` or `Moved` of that arena |
| BossMode.Frame | script.py:1592-1900 | one frame keeps every bound; the capped, ticked arena loses exactly the fires that touch the player, and the player is caught by fire iff more fires (with the new volley if the boss fired) touch than there are shields, the score then unchanged; otherwise the score grows by exactly the falling pass's count plus 3 per laser kill, and on a victory (iff the boss's health reaches 0) by the 100-point bonus once more; a standing boss's frame is caught iff the contact pass catches the player; quit and close iff chosen and the frame did not already end; the move uses the speed fixed after the countdowns tick, then auto-fire |
| BossMode.Round | script.py:1582-1588 | the auto-save counter wraps at 1800, when the boss level's best becomes max(best, score) and nothing else in the profile changes; a victory adds at least the 100-point bonus |
| BossMode.Settle | script.py:1684-1690 | a victory banks the score and raises the high score by max with every best unchanged (script.py:1725-1729); a loss or quit banks the score and raises only the boss level's best, to max(best, score) |
| BossMode.Fight | script.py:1544-1903 | victory banks points and raises the high score, and the boss best never holds more than a score reached before the bonus; loss or quit banks points and makes the boss best max(old best, final score); other levels' bests, the purchases and the equipped character stay |

## Left out

- Drawing, fonts, images, particles, explosions, screen shake, bobbing and sound: none
  of them affects the game state.
- Menus, the game-over and victory screens, and input polling: they become the
  `pause` choice and the direction keys of each `FrameInput`.
- `save_progress` and the JSON file: loading is modelled only as the defaulting over
  what a decoded file holds (`Progress.SaveFile`).
- Progress.LoadProgress: the failure for a decoded file without "purchased_items" is
  modelled as an error result. In the source, `points` and `high_score` are already
  assigned when the uncaught KeyError ends the program; that partial state is not
  modelled.
- Magnet attraction of coins: it moves power-ups by a floating-point step toward the
  player. Its timer is modelled; its movement is not.
- Slow motion (0.4 times the speed) and the half-speed power-up fall in survival:
  these are given as integer speeds in `Survival.Speeds`. The player's speed boost
  (12 × 1.5) is exactly 18.
- Entities.NewFire: the velocity normalisation `(dx / dist) * speed` is floating
  point; it is supplied as the `Aim` function of the offsets and the speed.
- Spawn probabilities and weighted kind choice: both are inputs of each frame. Only
  their ranges are kept: x in [50, 748], size in [25, 60], the boss fight's five
  kinds, and the wander target in [100, 698].
- The auto-save's file write: only its best-score update every 1800 frames is
  modelled.
- Survival.Play and BossMode.Fight: the `while True` loops run over a finite
  sequence of frames. A run still going when the frames end is reported as
  `Playing`.

Quirks of the code, modelled as written:

- A laser kill in survival scores `3 + combo` and leaves the combo and its timer
  unchanged.
- In the boss fight, dodges score a flat 1 and laser kills a flat 3. The defeat
  bonus is 100.
- In the boss fight, power-ups live in the enemies list, so one that falls out of
  the bottom scores 1 (`BossMode.MissedPickupScores`). Lasers pass through them.
- Survival removes a power-up once its centre is below the bottom edge. It does not
  use `is_off_screen`.
- Survival tests pickups against the 50-pixel sprite box. The boss fight tests them
  against the 40-pixel hit box.
- The survival speed boost is checked before its timer ticks, so it lasts 300 frames.
  The boss fight checks after the tick, so it lasts 299.
- A won boss fight raises the high score but not the boss level's best score. A lost
  or quit boss fight raises that best score but not the high score.
- When the save file is missing or cannot be decoded, the loader marks every shop
  item unpurchased, the default character included (script.py:537-543).
