# Space Game — a Dafny model of the simulation core

Space Game is a small pygame arcade shooter. The player's ship moves along the bottom of the
screen and fires one laser at a time. Waves of aliens drift down and shoot, and a boss sways
across the top of the screen. A power-up occasionally falls and restores one health point.
The score eases toward its target, and five levels are linked by an animated transition.
The game has a main menu that can load a save, a pause menu that writes one, and a short
"SAVED" screen.

This project models the per-frame simulation and the scene logic that drives it:

- The entities are Dafny classes whose methods update their fields in place, as the Python
  objects do: `Score`, `HealthBar`, `PlayerLaser`, `EnemyLaser`, `Player`, `Alien`, `Boss`,
  `PowerUp` and `Level`.
- The scenes are classes too: `GameScene`, `LevelTransition`, `SavedScene`, `PauseScene` and
  `MenuScene`.
- A Python list of aliens is an object that two fields can share. It is the class
  `AlienList`, so that the alias between a level's `aliens` and the scene's `level_aliens`
  is kept exactly.
- Each moving thing has a pure step function on a small value (`AlienMoved`, `BossMoved`,
  `PlayerLaserMoved`, `TimerTicked`, `Advanced`, …). Its method is proved to perform exactly
  one step of it. The lemmas beside each function prove what that motion does over many
  frames: bounds kept, lifetimes, timing.
- Collision detection is pygame 2's `colliderect` (`Geometry.Overlaps`). The overlap must be
  strict, and an empty rectangle collides with nothing.
- Key states, random draws, elapsed milliseconds, image sizes and the save file's text are
  parameters.

The collision resolution of `GameScene.check_collision` is modelled pass by pass, in the
source's order:

1. The player's laser against the boss.
2. The boss's laser against the player.
3. The player's laser against each alien.
4. Each alien against the player.
5. Each alien's laser against the player.
6. The power-up against the player.

Passes 3 and 4 remove aliens from the list they are walking. As in Python, the walk's index
always advances, so the alien right after a removed one is not looked at in that pass. The
module `Removal` specifies this walk (`Sweep`) and proves the following:

- it equals an element-by-element definition (`Survivors`);
- it removes only aliens that are hit;
- it removes something exactly when some alien is hit;
- of two adjacent aliens that are both hit, it removes only the first.

A hit never moves a laser, so the same player laser can hit the boss and then aliens in one
frame.

Score changes are applied one at a time, each clamped at zero (`Scoring.ApplyPoints`). A
loaded save can set a negative target. From such a target, adding the frame's total and
then clamping would give a different result from clamping after each change.

Some behaviours of the code are easy to miss. The model keeps each of them:

- **Health is not clamped.** Player and boss health can go below zero
  (game_scene.py:177, 182, 195, 202). Only the power-up is bounded: it heals only below the
  starting health.
- **An alien is not penalised twice.** Pass 3 removes a shot alien before pass 4 walks the
  list, so an alien that is both shot and touching the player gives only the +10.
  `CheckCollision` states pass 4 over the list left by pass 3.
- **The first frame of a new level uses the old list.** After a level transition,
  `level_aliens` still names the previous level's list until the new level's first
  `update`. That `update` runs `check_collision` before switching lists, so its collisions
  are tested against the previous level's remaining aliens.
- **A load keeps the player.** A successful load from the menu keeps the current player and
  its health, and keeps the list in play. Only the level and the score are restored.
- **A load does not check the level index.** See Findings.
- **Line breaks in the save file may be "\r\n" or "\r".** The file is opened in text mode,
  so Python's universal newlines turn either into "\n" before `readline` sees them
  (`SaveData.Newlines`).

## Model

| member | source | states |
|---|---|---|
| `Geometry.OverlapsSymmetric` | lasers.py:71-75 | the hit test gives the same answer whichever rectangle asks |
| `Geometry.TouchingEdgesDoNotOverlap` | lasers.py:71-75 | rectangles that only share an edge, side by side or one above the other, do not collide |
| `Easing.StepToward` | score.py:25-28 | one tick moves the shown value exactly one unit closer to the target, and leaves it alone when equal |
| `Easing.StepsCloseGap` | score.py:25-28 | n ticks close the gap by n, or to zero, and the value never leaves the interval between start and target (no overshoot) |
| `Easing.ConvergesInExactlyGapSteps` | score.py:25-28 | exactly \|target − shown\| ticks make the two equal, and no fewer do |
| `Draws.CountAboveClosedForm` | lasers.py:116 | closed form of how many of the draws 1..n pass a `draw > threshold` gate |
| `HealthBars.TintRecordsDirection` | health_bar.py:39-52 | red exactly when the width shrank, green exactly when it grew, white exactly when it stayed |
| `HealthBars.HealthBar.constructor` | health_bar.py:14-30 | a new bar is `initial_health * width_per_hp` wide and white |
| `HealthBars.HealthBar.Update` | health_bar.py:32-52 | the width takes one ease step toward `health * width_per_hp` and the colour records its direction |
| `Scoring.ApplyPointsAppend` | score.py:17-21 | applying two series of score changes in turn is applying their concatenation |
| `Scoring.ApplyPointsRepeatStep` | score.py:17-21 | one more change of the same size is one more `change_score` on the target reached so far |
| `Scoring.ApplyPointsNonNegative` | score.py:19-21 | after any scoring event, or from a non-negative start, the target is never negative |
| `Scoring.GainsAddUp` | score.py:19-21 | from a non-negative target, n gains of p points are never clamped and add n·p |
| `Scoring.Score.constructor` | score.py:8-15 | a new score shows 0 with target 0 |
| `Scoring.Score.ChangeScore` | score.py:17-21 | the target becomes `max(0, old + points)`, so it is non-negative and at least `old + points`; the shown score stays |
| `Scoring.Score.Update` | score.py:23-28 | the shown score takes one ease step toward the target; the target is untouched |
| `Scoring.Score.Reset` | score.py:35-38 | both values return to the initial 0 |
| `Lasers.PlayerLaserClimbs` | lasers.py:45-53 | a player shot in flight climbs 9 pixels per move and stays in flight until it reaches y = −50 |
| `Lasers.PlayerShotLifetime` | lasers.py:40-53 | a shot fired at y = 475 is in flight for 58 moves and ready on the 59th |
| `Lasers.EnemyLaserFalls` | lasers.py:122-131 | an enemy shot in flight falls 5 pixels per move and stays in flight until it reaches y = 650 |
| `Lasers.BossShotLifetime` | lasers.py:122-131 | a boss shot (fired at y = 30 + 70) is in flight for 109 moves and ready on the 110th |
| `Lasers.EnemyGatePassesShootChanceDraws` | lasers.py:102-116 | the stored `100 - shoot_chance` threshold lets exactly `shoot_chance` of the 100 draws fire |
| `Lasers.PlayerLaser.constructor` | lasers.py:14-22 | a new laser is ready and parked at (−100, −100) |
| `Lasers.PlayerLaser.CheckInput` | lasers.py:24-32 | fires from the given x exactly when up is held and the laser is ready; otherwise nothing changes |
| `Lasers.PlayerLaser.Fire` | lasers.py:34-43 | the laser is in flight at (`player_x + 31`, 475) |
| `Lasers.PlayerLaser.Move` | lasers.py:45-53 | one step of the climb-or-park motion that `PlayerLaserClimbs` and `PlayerShotLifetime` are about |
| `Lasers.PlayerLaser.Hit` | lasers.py:64-75 | true exactly on overlap; a hit makes the laser ready, and the rectangle never moves |
| `Lasers.EnemyLaser.constructor` | lasers.py:84-104 | stores `100 - shoot_chance`; the boss's custom 8×60 hit box is parked off-screen, an image box is at (0, 0) |
| `Lasers.EnemyLaser.Fire` | lasers.py:106-120 | a ready laser fires from enemy position plus adjustment exactly when the draw exceeds the threshold; one in flight is untouched |
| `Lasers.EnemyLaser.Move` | lasers.py:122-131 | one step of the fall-or-park motion that `EnemyLaserFalls` and `BossShotLifetime` are about |
| `Lasers.EnemyLaser.Hit` | lasers.py:147-159 | true exactly on overlap; a hit makes the laser ready, and the rectangle never moves |
| `Lasers.HitTwice` | lasers.py:64-75 | because a hit does not move the laser, asking again at once gives the same answer |
| `Players.ClampToScreen` | player.py:43 | the result lies in [0, 720]: x when x already does, 0 left of the screen and 720 right of it |
| `Players.KeyedXOnScreen` | player.py:53-63 | after any movement key the ship is within [0, 720] |
| `Players.BothKeysOrder` | player.py:60-63 | holding both keys leaves the ship in place away from the left wall but moves it to x = 10 near it, because left is clamped first |
| `Players.Player.constructor` | player.py:14-33 | a new player has 10 health, a 200-pixel bar of 20 per point and a ready laser |
| `Players.Player.Move` | player.py:35-43 | x becomes `clamp(x + 2·d, 0, 720)`; y and health are untouched |
| `Players.Player.Update` | player.py:45-51 | the bar steps toward the current health and the laser makes one move |
| `Players.Player.CheckInput` | player.py:53-66 | left then right, then the laser is offered the post-move x |
| `Aliens.AlienMoveStaysInPlay` | alien.py:38-43 | one move keeps an alien in play (on screen, unit direction heading inward at an edge) and advances its row cyclically |
| `Aliens.AliensNeverLeave` | alien.py:33-43 | after any number of moves an alien is still in play and its row has advanced by that number modulo 600 |
| `Aliens.Alien.constructor` | alien.py:14-31 | a new alien at its spawn point, heading in the drawn direction, with a laser that fires on 1 draw in 100 |
| `Aliens.Alien.Move` | alien.py:33-47 | one step of the in-play motion, then the laser is offered a shot from the new position plus (25, 60) and moves |
| `Aliens.Alien.CheckCollision` | alien.py:66-76 | true exactly on overlap with the other rectangle; nothing changes |
| `Aliens.AlienList.constructor` | levels.py:37 | a new list is empty |
| `Bosses.BossMoveKeepsBounds` | boss.py:49-55 | one move keeps the boss within [180, 380], heading inward at either end |
| `Bosses.BossStaysInBounds` | boss.py:44-55 | from the spawn point (280, heading right) the boss stays in bounds for ever |
| `Bosses.Boss.constructor` | boss.py:14-42 | a new boss heads right with a full bar of 15 pixels per point and a ready 8×60 laser |
| `Bosses.Boss.Move` | boss.py:44-62 | one step of the bounded sway with y and health untouched; the bar steps, then the laser may fire from the new position plus (116, 70) and moves |
| `PowerUps.PowerUpFalls` | powerup.py:33-38 | a spawned power-up falls 2 pixels per move and stays spawned until it reaches y = 600 |
| `PowerUps.UncollectedPowerUpLifetime` | powerup.py:20-38 | a power-up spawned at y = −45 and not collected is on screen for 322 moves |
| `PowerUps.SpawnGatePassesFiveDraws` | powerup.py:15-23 | the spawn gate passes 5 of the 1000 draws |
| `PowerUps.PowerUp.constructor` | powerup.py:9-15 | a new power-up is ready |
| `PowerUps.PowerUp.Spawn` | powerup.py:20-26 | a ready power-up spawns at (x, −45) exactly when the draw exceeds 995; otherwise nothing changes |
| `PowerUps.PowerUp.Move` | powerup.py:33-38 | one step of the fall that `PowerUpFalls` is about; at or below 600 it is ready whatever its state |
| `PowerUps.PowerUp.Collect` | powerup.py:40-53 | True only when spawned and overlapping, and then ready; `None` when spawned without overlap; `False` when ready; it never moves |
| `Levels.TickKeepsWaveBounded` | levels.py:56-70 | the counter never exceeds the wave size and grows by one exactly on a releasing tick |
| `Levels.WaveReleasesOnePerInterval` | levels.py:59-65 | with ticks as long as the interval, an incomplete wave releases one alien per tick |
| `Levels.CompleteWaveWaits` | levels.py:67-70 | a complete wave only accumulates time until 13 seconds have passed |
| `Levels.FirstLevelWaveEveryTwoSeconds` | levels.py:56-70 | level 1's wave is out after 3 two-second frames and restarts on the 10th frame; the next alien follows at once because the timer was not reset |
| `Levels.TimerTickedNSplit` | levels.py:56-70 | ticking a then b times is ticking a + b times, and the releases add up |
| `Levels.Level.constructor` | levels.py:13-46 | a new level has an empty list, no spawns and a zero timer |
| `Levels.Level.UpdateAliens` | levels.py:48-70 | one tick of the timer; on a releasing tick exactly one new alien is appended at (`boss_x + 90`, 100) and the earlier aliens stay; otherwise the list is unchanged |
| `Levels.Level.SpawnBoss` | levels.py:72-78 | a new boss at (280, 30) with the level's health and shoot chance |
| `LevelTransitions.PhaseOnlyAdvances` | level_transition_scene.py:47-57 | the phase only goes up → down → done, and the ship only jumps on the up → down change |
| `LevelTransitions.BackgroundsScrollTogether` | level_transition_scene.py:36-40 | both backgrounds move 6 pixels per update and stay the same distance apart |
| `LevelTransitions.TransitionLastsHundredUpdates` | level_transition_scene.py:30-80 | from the start the scene can leave after exactly 100 updates and not before |
| `LevelTransitions.ShipClimbs` | level_transition_scene.py:47-51 | going up, the ship rises 10 pixels per update |
| `LevelTransitions.ShipDescends` | level_transition_scene.py:53-57 | going down, the ship descends 5 pixels per update |
| `LevelTransitions.ShipRests` | level_transition_scene.py:42-57 | once done, the ship stays put |
| `LevelTransitions.AdvancedNSplit` | level_transition_scene.py:36-40 | a + b updates are a updates followed by b |
| `LevelTransitions.TransitionTimeline` | level_transition_scene.py:36-57 | the ship leaves the top on update 55, is back in place on update 82, and waits until update 100 |
| `LevelTransitions.LevelTransition.constructor` | level_transition_scene.py:10-34 | a new scene is at the start state |
| `LevelTransitions.LevelTransition.Update` | level_transition_scene.py:36-40 | one step of the animation, keeping the two backgrounds the same distance apart |
| `LevelTransitions.LevelTransition.MoveShip` | level_transition_scene.py:42-57 | the ship's step, never moving the phase backward |
| `LevelTransitions.LevelTransition.NextScene` | level_transition_scene.py:73-89 | back to the game exactly when the new background is in place, then restoring the start state and counting the level; otherwise unchanged |
| `SavedScenes.SavedWaits` | saved_scene.py:32-42 | frames totalling less than 1500 ms keep the flag down |
| `SavedScenes.SavedShownUntilDuration` | saved_scene.py:25-42 | the flag rises on the first frame whose total reaches 1500 ms |
| `SavedScenes.SavedScene.constructor` | saved_scene.py:16-30 | a new scene has timer 0 and flag down |
| `SavedScenes.SavedScene.Update` | saved_scene.py:32-42 | the timer stays below 1500, the flag is raised exactly when the total reaches 1500, and it is never lowered |
| `SavedScenes.SavedScene.NextScene` | saved_scene.py:52-60 | back to pause exactly when the flag was up, lowering it |
| `SaveData.IntToString` | pause_scene.py:83-84 | Python's `str` of an integer is non-empty, has no surrounding whitespace and no line break |
| `SaveData.DigitsOfNatReadBack` | menu_scene.py:111 | the decimal digits of n read back as n |
| `SaveData.Newlines` | menu_scene.py:109-112 | the text-mode file yields no carriage return: each "\r\n" and each lone "\r" becomes "\n" |
| `SaveData.NewlinesKeepPlainText` | menu_scene.py:109-112 | text without carriage returns reads exactly as stored |
| `SaveData.NewlinesOfLineBreak` | menu_scene.py:109-112 | a "\r\n", "\r" or "\n" between two lines without breaks reads as one "\n" |
| `SaveData.ReadLineStopsAtLineFeed` | menu_scene.py:111 | on the translated text, `readline` returns the text up to and including the first line feed |
| `SaveData.ReadLineWithoutLineFeed` | menu_scene.py:112 | on the translated text, `readline` on a last line without a line feed returns all of it |
| `SaveData.IntToStringReadsBack` | menu_scene.py:111-112 | `int(str(n)) == n`, with or without a trailing line feed |
| `SaveData.SaveRoundTrip` | menu_scene.py:111-112 | the two lines the pause menu writes are read back as the same level index and score |
| `SaveData.SaveReadAcrossLineEndings` | menu_scene.py:109-112 | the same two lines separated by "\r\n" or "\r" read back as the same level index and score |
| `SaveData.NonDigitRefused` | menu_scene.py:111-133 | `int` refuses text whose first non-blank character is neither a sign nor a digit |
| `SaveData.EmptySaveRefused` | menu_scene.py:111-133 | an empty save file is refused |
| `SaveData.OneLineSaveRefused` | menu_scene.py:111-133 | a save with only one line is refused |
| `SaveData.WordSaveRefused` | menu_scene.py:111-133 | a save whose first line is a word is refused |
| `PauseScenes.PauseChoicePriority` | pause_scene.py:70-91 | R wins over M, M over S, and the scene stays exactly when none is pressed |
| `PauseScenes.PauseScene.constructor` | pause_scene.py:13-29 | the music flag starts down |
| `PauseScenes.PauseScene.Update` | pause_scene.py:31-37 | the music flag is raised, and once it is up nothing changes |
| `PauseScenes.PauseScene.NextScene` | pause_scene.py:63-91 | the key-priority choice; every exit lowers the music flag, staying leaves it; saving writes the level index and the target (not the shown) score as the two-line text |
| `MenuScenes.MenuChoicePriority` | menu_scene.py:93-135 | SPACE wins over C, C over I, I over L; L leaves only when the save loads |
| `MenuScenes.LoadAsWritten` | menu_scene.py:107-122 | as written, a resumed game always plays an existing level, but may store an index other than the one it plays |
| `MenuScenes.LoadChecked` | menu_scene.py:107-133 | the corrected load resumes only at the index of an existing level |
| `MenuScenes.LoadCheckedAgrees` | menu_scene.py:107-133 | the corrected load resumes exactly where the as-written load resumes at the index it stores, and stays in the menu everywhere else |
| `MenuScenes.LoadReadsPauseSave` | menu_scene.py:111-120 | a save written by the pause menu for an existing level loads back to that level and score, by both loads |
| `MenuScenes.LoadAsWrittenOutOfRange` | menu_scene.py:111-122 | as written, index 7 of 5 levels crashes and index −1 resumes on the last level storing −1; the corrected load refuses both |
| `MenuScenes.MenuScene.constructor` | menu_scene.py:18-38 | the music flag starts down |
| `MenuScenes.MenuScene.Update` | menu_scene.py:40-50 | the music flag is raised, and once it is up nothing changes |
| `MenuScenes.MenuScene.NextScene` | menu_scene.py:85-135 | the key-priority choice. SPACE resets the game: a new player at (360, 465) with 10 health, level 0 with its spawn counters cleared and its empty list in play, a new boss and a zero score. A good save sets the index and both scores and loads that level; the player, the list in play and every other level's list keep their state. A failed load or C or I leaves the game untouched. Only SPACE touches the first level's counters |
| `MenuScenes.MenuScene.ResumeGame` | menu_scene.py:114-121 | the saved index and score are installed and that level is loaded, keeping the player; the list in play and every other level's list keep their aliens |
| `GameScenes.NextScenePriority` | game_scene.py:139-168 | each exit happens exactly in its own case: escape, then health ≤ 0, then an empty boss bar (not boss health) with a next level or on the last one |
| `GameScenes.CollisionScoreIsOneFold` | game_scene.py:170-204 | the passes' clamped changes compose to one fold over all of them in order, and a non-negative target stays non-negative |
| `GameScenes.GameScene.constructor` | game_scene.py:18-54 | a new scene is on level 0 with a new player at (360, 465), a zero score, an empty list and the first level loaded |
| `GameScenes.GameScene.LoadLevel` | game_scene.py:56-64 | a fresh boss for the current level, whose alien list is emptied |
| `GameScenes.GameScene.Reset` | game_scene.py:211-223 | level 0 with counters cleared and its list in play, a new player with 10 health, a fresh boss and a zero score |
| `GameScenes.GameScene.Update` | game_scene.py:66-92 | the frame keeps the scene valid. The player moves by the keys and the boss sways. Both bars step toward the health from before the frame's collisions. The list in play becomes the level's and grows by at most one. The spawn timer ticks and the shown score takes one step |
| `GameScenes.GameScene.MoveShips` | game_scene.py:76-80 | the player's keyed move; a ready laser fired from the moved ship when up is held, then one laser move; the player's bar step; the boss's sway with its bar step and its laser's chance to fire from (x + 116, y + 70) and move |
| `GameScenes.GameScene.ResolveCollisions` | game_scene.py:81 | collisions keep the scene valid, only remove aliens from the current level's list, and keep a non-negative target non-negative |
| `GameScenes.GameScene.AdvanceAliens` | game_scene.py:83-88 | the spawn timer ticks; the level's list becomes the list in play: the old list, plus one fresh alien at (boss x + 90, 100) exactly on a releasing tick; every alien, the new one included, then makes one move with its own draw |
| `GameScenes.GameScene.MoveAliens` | game_scene.py:87-88 | every alien of the list in play makes exactly one move with its own draw |
| `GameScenes.GameScene.MoveAlien` | game_scene.py:87-88 | one turn of the moving loop moves the i-th alien and nothing else |
| `GameScenes.GameScene.NextScene` | game_scene.py:131-168 | the priority decision. Moving on advances the index, loads that level and tells the transition the player's x and the level number; the list in play, still the previous level's, and every other list keep their aliens. Every other outcome changes nothing |
| `GameScenes.GameScene.CheckCollision` | game_scene.py:170-209 | the six passes in order: each pass's hit test and its health and score change; the skipping removal walks; each surviving alien's laser on the player made ready; the lasers of removed aliens untouched |
| `GameScenes.GameScene.BossPasses` | game_scene.py:176-184 | pass 1 then pass 2, each change applied in turn |
| `GameScenes.GameScene.ShootBoss` | game_scene.py:176-179 | on overlap, boss health −1 and +5 points, and the laser is ready but does not move |
| `GameScenes.GameScene.BossLaserHitsPlayer` | game_scene.py:181-184 | on overlap, player health −2 (not clamped) and −10 points |
| `GameScenes.GameScene.RemovalPasses` | game_scene.py:187-198 | pass 4 walks the list that pass 3 left |
| `GameScenes.GameScene.AlienPasses` | game_scene.py:187-204 | passes 3 to 5 in order; pass 5 tests the lasers of the aliens still in the list and makes those on the player ready; the lasers of aliens removed in passes 3 and 4 keep their state; no laser moves |
| `GameScenes.GameScene.ShootAliens` | game_scene.py:187-191 | the list becomes the skipping walk over the struck aliens, each removal worth +10 |
| `GameScenes.GameScene.AliensRamPlayer` | game_scene.py:193-198 | the list becomes the skipping walk over the aliens touching the player, each removal costing 1 health and 10 points |
| `GameScenes.GameScene.AlienLasersHitPlayer` | game_scene.py:200-204 | each alien laser on the player costs 1 health and 5 points and is made ready, the others keep their state; no laser moves; the aliens stay |
| `GameScenes.GameScene.LaserHitsPlayer` | game_scene.py:201-204 | one alien laser against the player |
| `GameScenes.GameScene.CollectPowerUp` | game_scene.py:206-209 | a collected power-up is ready again and heals 1 only below the starting health, so it never lifts health above it |
| `Removal.RemoveFirst` | game_scene.py:189 | `list.remove` shortens the list by one |
| `Removal.RemoveFirstOfDistinct` | game_scene.py:189 | in a list of distinct aliens, `remove` deletes the element at the walk's index |
| `Removal.DistinctAfterDelete` | game_scene.py:189 | deleting keeps the list distinct and adds nothing |
| `Removal.SweepStepRemoving` | game_scene.py:187-191 | a removing step leaves the walk heading for the same result at the next index |
| `Removal.Sweep` | game_scene.py:187-198 | the walk never grows the list and adds nothing to it |
| `Removal.SweepFromMatchesSurvivors` | game_scene.py:187-191 | the walk from any index equals the element-by-element survivors of the rest |
| `Removal.SweepIsSurvivors` | game_scene.py:187-191 | the whole walk equals the survivors definition: a hit element goes only if the one before it stayed |
| `Removal.SurvivorsRemoveOnlyDoomed` | game_scene.py:187-198 | only hit aliens are removed; every other alien is kept |
| `Removal.SurvivorsShrinkIffDoomed` | game_scene.py:187-198 | the list shrinks exactly when some alien in it is hit |
| `Removal.SurvivorsNeverGrow` | game_scene.py:187-198 | the survivors are never more than the list |
| `Removal.SweepSkipsAfterRemoval` | game_scene.py:187-191 | of two adjacent hit aliens only the first is removed in the pass |

## Left out

- Drawing, fonts, images, `pygame.display.flip` and the hit-box debug flags. The health
  bar's position, height and drawing rectangle are left out too. Colours are an enumeration.
- Sounds and music. `start_level_music`, `start_win_music` and the mixer calls are left
  out. The menus' `music_started` flag is kept.
- Key polling (`pygame.key.get_pressed`). Keys are boolean parameters.
- Random draws (`random.randint`, `random.choice`). Each draw is a parameter limited to its
  range. The model does not reason about probability, only about how many draws pass a
  gate.
- File input and output. The pause menu returns the text it would write. The menu receives
  the file's raw text, or `None` when the file is missing, and translates its line breaks
  as text mode does.
- Sizes of image rectangles (player laser, alien, alien laser, power-up). They are
  parameters.
- main.py's loop, clock and scene wiring, and the credits, instructions, win and game-over
  scenes. These scenes are only values of `Scenes.Scene`. Game over's call to `reset` is
  `GameScenes.GameScene.Reset`.
- The boss health bar's fractional x position. It is used only for drawing.
- Python's `int` on text with digit-group underscores, non-ASCII digits or non-ASCII
  whitespace. The model reads ASCII decimal text only.
- The menu's `EOFError` handler. `readline` never raises it: an empty file reaches the
  `ValueError` handler, which the model covers.
- `LevelTransition`'s `player_x` and `level_number` start as `None` in the source. The
  model starts them at 0 until the game scene sets them.
- `GameScenes.GameScene.Update` does not restate, in its own contract, what happens across
  several of its steps: the lasers (fired and moved in `MoveShips` and `AdvanceAliens`,
  made ready in `CheckCollision`), the health changes of the collision passes, the aliens'
  moves, and the power-up (collected in `CheckCollision`, then spawned and moved by
  `PowerUp.Spawn` and `PowerUp.Move`). The contracts of `MoveShips`, `CheckCollision`,
  `AdvanceAliens`, `PowerUp.Spawn` and `PowerUp.Move` state each of these, and `Update` calls
  them in the source's order.
- `GameScenes.GameScene.ResolveCollisions` states only what the rest of the frame relies on:
  the scene stays valid, the list only loses aliens, and the target keeps its sign. The
  full effect is the contract of `CheckCollision`, which it calls.
- `MenuScenes.MenuScene.NextScene` uses the corrected load `LoadChecked` (see Findings). A
  save with an out-of-range level index therefore stays in the menu, instead of crashing or
  resuming with a negative index.
- `MenuScenes.MenuScene.ResumeGame` requires the index of an existing level (0 to
  |levels| − 1). As written, the source also accepts −|levels| to −1 through Python's
  negative indexing and then stores the negative index (see Findings,
  `MenuScenes.LoadAsWrittenOutOfRange`). The model's only caller is the corrected load,
  which passes only indices in range.
- `Levels.TickKeepsWaveBounded` assumes a non-negative wave size, as every level in
  main.py:50-54 has.

## Findings

| source | as written | input that shows it | evidently intended | confidence | as-written member | corrected member |
|---|---|---|---|---|---|---|
| menu_scene.py:111-121 | the loaded level index is stored and passed to `load_level` (game_scene.py:61) with no range check | with 5 levels, a save file "7\n0" raises an uncaught `IndexError`; "-1\n0" resumes on level 5 with `level_index == -1`, so the next level reached is level 1 | a save naming no existing level is refused like any other bad save, and the menu stays | not executed | `MenuScenes.LoadAsWrittenOutOfRange` | `MenuScenes.LoadCheckedAgrees` |
