/** The game scene (game_scene.py): the player, the current level's boss and aliens, the
    power-up and the score, advanced one frame at a time, with the collisions of each frame
    resolved in a fixed order and the scene that follows decided in a fixed priority.
    Drawing, sounds and music are not part of this model; key states, random draws and the
    frame's milliseconds are parameters. */
module GameScenes {
  import opened Geometry
  import opened Easing
  import opened Scoring
  import opened HealthBars
  import opened Lasers
  import PowerUps
  import opened Players
  import opened Aliens
  import opened Bosses
  import opened Levels
  import opened Removal
  import opened Scenes
  import opened LevelTransitions

  /** The sizes of the images whose rectangles give hit boxes. */
  datatype Sizes = Sizes(playerLaser: Size, alien: Size, alienLaser: Size, powerUp: Size)

  /** `next_scene`'s decision, in its priority order: escape pauses; otherwise a player without
      health loses; otherwise an emptied boss bar moves on to the next level, or wins on the
      last one; otherwise the game goes on. */
  function NextSceneOf(escape: bool, playerHealth: int, bossBarWidth: int, levelIndex: int, levelCount: int): Scene
  {
    if escape then PauseScreen
    else if playerHealth <= 0 then GameOverScreen
    else if bossBarWidth <= 0 && levelIndex + 1 < levelCount then Transition
    else if bossBarWidth <= 0 && levelIndex + 1 == levelCount then WinScreen
    else GamePlay
  }

  /** Each outcome of `next_scene` happens exactly in its own case. The boss is beaten by its
      bar, not its health: a boss at zero health whose bar is still shrinking keeps the game
      going. */
  lemma NextScenePriority(escape: bool, playerHealth: int, bossBarWidth: int, levelIndex: int, levelCount: int)
    requires 0 <= levelIndex < levelCount
    ensures NextSceneOf(escape, playerHealth, bossBarWidth, levelIndex, levelCount) == PauseScreen <==> escape
    ensures NextSceneOf(escape, playerHealth, bossBarWidth, levelIndex, levelCount) == GameOverScreen
        <==> !escape && playerHealth <= 0
    ensures NextSceneOf(escape, playerHealth, bossBarWidth, levelIndex, levelCount) == Transition
        <==> !escape && playerHealth > 0 && bossBarWidth <= 0 && levelIndex + 1 < levelCount
    ensures NextSceneOf(escape, playerHealth, bossBarWidth, levelIndex, levelCount) == WinScreen
        <==> !escape && playerHealth > 0 && bossBarWidth <= 0 && levelIndex + 1 == levelCount
    ensures NextSceneOf(escape, playerHealth, bossBarWidth, levelIndex, levelCount) == GamePlay
        <==> !escape && playerHealth > 0 && bossBarWidth > 0
  {
  }

  /** No two aliens of a list are the same object or share a laser. */
  predicate AliensDistinct(aliens: seq<Alien>)
  {
    Distinct(aliens) && LasersDistinct(aliens)
  }

  predicate LasersDistinct(aliens: seq<Alien>)
  {
    forall j, k :: 0 <= j < k < |aliens| ==> aliens[j].laser != aliens[k].laser
  }

  /** ... and none of their lasers is the boss's. */
  predicate Separate(aliens: seq<Alien>, bossLaser: EnemyLaser)
  {
    && AliensDistinct(aliens)
    && forall k :: 0 <= k < |aliens| ==> aliens[k].laser != bossLaser
  }

  /** Removing aliens from a list, in any order, keeps its aliens and their lasers apart. */
  lemma AliensDistinctSublist(s: seq<Alien>, t: seq<Alien>)
    requires AliensDistinct(s) && Distinct(t) && forall a :: a in t ==> a in s
    ensures AliensDistinct(t)
  {
    forall j, k | 0 <= j < k < |t|
      ensures t[j].laser != t[k].laser
    {
      assert t[j] in s && t[k] in s;
      var j' :| 0 <= j' < |s| && s[j'] == t[j];
      var k' :| 0 <= k' < |s| && s[k'] == t[k];
      assert j' != k';
    }
  }

  lemma SeparateKeptBySublist(s: seq<Alien>, t: seq<Alien>, bossLaser: EnemyLaser)
    requires Separate(s, bossLaser) && Distinct(t) && forall a :: a in t ==> a in s
    ensures Separate(t, bossLaser)
  {
    AliensDistinctSublist(s, t);
    forall k | 0 <= k < |t|
      ensures t[k].laser != bossLaser
    {
      assert t[k] in s;
    }
  }

  /** Appending an alien that is not in the list, whose laser is its own, keeps the list
      separate. */
  lemma SeparateAppend(s: seq<Alien>, a: Alien, bossLaser: EnemyLaser)
    requires Separate(s, bossLaser) && a !in s && a.laser != bossLaser
    requires forall k :: 0 <= k < |s| ==> s[k].laser != a.laser
    ensures Separate(s + [a], bossLaser)
  {
  }

  /** Each alien's rectangle. */
  ghost function AlienBoxes(aliens: seq<Alien>): (boxes: map<Alien, Rect>)
    reads set a | a in aliens
    ensures forall a :: a in aliens ==> a in boxes && boxes[a] == a.Box()
  {
    map a | a in aliens :: a.Box()
  }

  /** `boxes` holds each alien's current rectangle. */
  ghost predicate BoxesOf(aliens: seq<Alien>, boxes: map<Alien, Rect>)
    reads set a | a in aliens
  {
    forall a :: a in aliens ==> a in boxes && boxes[a] == a.Box()
  }

  /** The aliens whose rectangles (`boxes`) a laser at `laserBox` overlaps. */
  function Struck(aliens: seq<Alien>, boxes: map<Alien, Rect>, laserBox: Rect): set<Alien>
  {
    set a | a in aliens && a in boxes && Overlaps(laserBox, boxes[a])
  }

  /** The aliens whose rectangles (`boxes`) overlap the player's. */
  function Rammers(aliens: seq<Alien>, boxes: map<Alien, Rect>, playerBox: Rect): set<Alien>
  {
    set a | a in aliens && a in boxes && Overlaps(boxes[a], playerBox)
  }

  /** Each alien's laser's rectangle. */
  ghost function LaserBoxMap(aliens: seq<Alien>): (laserBoxes: map<Alien, Rect>)
    reads set a | a in aliens :: a.laser
    ensures forall a :: a in aliens ==> a in laserBoxes && laserBoxes[a] == a.laser.Box()
  {
    map a | a in aliens :: a.laser.Box()
  }

  /** `laserBoxes` holds the current rectangle of each alien's laser. */
  ghost predicate LaserBoxesOf(aliens: seq<Alien>, laserBoxes: map<Alien, Rect>)
    reads set a | a in aliens :: a.laser
  {
    forall a :: a in aliens ==> a in laserBoxes && laserBoxes[a] == a.laser.Box()
  }

  /** Each alien's laser's state. */
  ghost function LaserStateMap(aliens: seq<Alien>): (laserStates: map<Alien, LaserState>)
    reads set a | a in aliens :: a.laser
    ensures forall a :: a in aliens ==> a in laserStates && laserStates[a] == a.laser.state
  {
    map a | a in aliens :: a.laser.state
  }

  /** `laserStates` holds the current state of each alien's laser. */
  ghost predicate LaserStatesOf(aliens: seq<Alien>, laserStates: map<Alien, LaserState>)
    reads set a | a in aliens :: a.laser
  {
    forall a :: a in aliens ==> a in laserStates && laserStates[a] == a.laser.state
  }

  /** The aliens' lasers after collision pass 5 has walked `survivors`: every laser of an alien
      of `aliens` is still at its rectangle in `laserBoxes`; it was made ready if its alien is a
      survivor and it overlapped the player at `playerBox`, and otherwise it kept its state
      from `laserStates`. */
  ghost predicate LasersAfterPass5(aliens: seq<Alien>, survivors: seq<Alien>, laserBoxes: map<Alien, Rect>,
                                   laserStates: map<Alien, LaserState>, playerBox: Rect)
    reads set a | a in aliens :: a.laser
  {
    forall a :: a in aliens ==>
      && a in laserBoxes && a in laserStates
      && a.laser.Box() == laserBoxes[a]
      && a.laser.state == if a in survivors && Overlaps(laserBoxes[a], playerBox) then LaserState.Ready else laserStates[a]
  }

  /** In a list whose lasers are distinct, a laser belongs to one alien only. */
  lemma LaserOwnedOnce(aliens: seq<Alien>, a: Alien, b: Alien)
    requires LasersDistinct(aliens) && a in aliens && b in aliens && a.laser == b.laser
    ensures a == b
  {
    var j :| 0 <= j < |aliens| && aliens[j] == a;
    var k :| 0 <= k < |aliens| && aliens[k] == b;
    assert j == k;
  }

  /** The aliens' positions and headings, in list order. */
  ghost function Motions(aliens: seq<Alien>): (motions: seq<Motion>)
    reads set a | a in aliens
    ensures |motions| == |aliens| && forall k :: 0 <= k < |aliens| ==> motions[k] == aliens[k].View()
    decreases |aliens|
  {
    if aliens == [] then [] else Motions(aliens[..|aliens| - 1]) + [aliens[|aliens| - 1].View()]
  }

  /** The flights of the aliens' lasers, in list order. */
  ghost function Flights(aliens: seq<Alien>): (flights: seq<Flight>)
    reads set a | a in aliens :: a.laser
    ensures |flights| == |aliens| && forall k :: 0 <= k < |aliens| ==> flights[k] == aliens[k].laser.View()
    decreases |aliens|
  {
    if aliens == [] then [] else Flights(aliens[..|aliens| - 1]) + [aliens[|aliens| - 1].laser.View()]
  }

  /** One alien's `move` from `motion`, its laser in `flight`, with the draw `draw`. */
  ghost predicate MovedFrom(a: Alien, motion: Motion, flight: Flight, draw: int)
    reads a, a.laser
  {
    && a.View() == AlienMoved(motion)
    && a.laser.View() == EnemyLaserMoved(EnemyLaserFired(flight, a.laser.fireAbove, a.x + 25, a.y + 60, draw))
  }

  /** How many of the aliens' lasers, at the rectangles `laserBoxes`, overlap `target`. */
  function CountLasered(aliens: seq<Alien>, laserBoxes: map<Alien, Rect>, target: Rect): nat
    decreases |aliens|
  {
    if aliens == [] then 0
    else
      var last := aliens[|aliens| - 1];
      CountLasered(aliens[..|aliens| - 1], laserBoxes, target) + if last in laserBoxes && Overlaps(laserBoxes[last], target) then 1 else 0
  }

  /** The score changes of one `check_collision`, in the order they are made: +5 for hitting
      the boss, -10 for being hit by its laser, +10 per alien shot, -10 per alien rammed and -5
      per alien laser taken. */
  function CollisionDeltas(bossHit: bool, playerHit: bool, shot: nat, rammed: nat, lasered: nat): (deltas: seq<int>)
    ensures |deltas| == (if bossHit then 1 else 0) + (if playerHit then 1 else 0) + shot + rammed + lasered
  {
    (if bossHit then [5] else []) + (if playerHit then [-10] else []) + Repeat(10, shot) + Repeat(-10, rammed) + Repeat(-5, lasered)
  }

  /** The target score after one `check_collision`: the passes' changes applied in turn. */
  function CollisionScore(target: int, bossHit: bool, playerHit: bool, shot: nat, rammed: nat, lasered: nat): int
  {
    var afterBoss := ApplyPoints(ApplyPoints(target, if bossHit then [5] else []), if playerHit then [-10] else []);
    ApplyPoints(ApplyPoints(ApplyPoints(afterBoss, Repeat(10, shot)), Repeat(-10, rammed)), Repeat(-5, lasered))
  }

  /** Applying the passes' changes one pass after another is one fold over all of them, in the
      order they are made; from a non-negative target the score stays non-negative. */
  lemma {:induction false} CollisionScoreIsOneFold(target: int, bossHit: bool, playerHit: bool, shot: nat, rammed: nat, lasered: nat)
    ensures CollisionScore(target, bossHit, playerHit, shot, rammed, lasered)
         == ApplyPoints(target, CollisionDeltas(bossHit, playerHit, shot, rammed, lasered))
    ensures target >= 0 ==> CollisionScore(target, bossHit, playerHit, shot, rammed, lasered) >= 0
  {
    var a := if bossHit then [5] else [];
    var b := if playerHit then [-10] else [];
    ApplyPointsAppend(target, a + b + Repeat(10, shot) + Repeat(-10, rammed), Repeat(-5, lasered));
    ApplyPointsAppend(target, a + b + Repeat(10, shot), Repeat(-10, rammed));
    ApplyPointsAppend(target, a + b, Repeat(10, shot));
    ApplyPointsAppend(target, a, b);
    if target >= 0 {
      ApplyPointsNonNegative(target, CollisionDeltas(bossHit, playerHit, shot, rammed, lasered));
    }
  }

  /** A boss as `spawn_boss` creates it for `level`. */
  ghost predicate SpawnedFor(boss: Boss, level: Level)
    reads boss, boss.healthBar, boss.laser
  {
    && boss.View() == Sway(280, 1) && boss.y == 30
    && boss.healthPoints == level.bossHealth && boss.shootChance == level.shootChance
    && boss.healthBar.initialHealth == level.bossHealth && boss.healthBar.widthPerHp == 15
    && boss.healthBar.barWidth == level.bossHealth * 15 && boss.healthBar.colour == White
    && boss.laser.fireAbove == 100 - level.shootChance && boss.laser.View() == Flight(-100, -100, Ready)
  }

  class GameScene {
    const levels: seq<Level>
    const sizes: Sizes
    var levelIndex: int
    var player: Player
    const powerUp: PowerUps.PowerUp
    var boss: Boss
    /** The alien list the collisions are checked against: the current level's list once a
        frame has run, until then an empty list of its own or the previous level's list. */
    var levelAliens: AlienList
    const score: Score

    /** The level index is in range, the player's and boss's bars are two objects, and the
        alien lists in play hold distinct aliens with their own lasers. */
    ghost predicate Valid()
      reads this, levelAliens, set lv | lv in levels :: lv.aliens
    {
      && 0 <= levelIndex < |levels|
      && player.healthBar != boss.healthBar
      && Separate(levelAliens.items, boss.laser)
      && Separate(levels[levelIndex].aliens.items, boss.laser)
    }

    /** A new game scene on the first level: a player at (360, 465), a ready power-up, a zero
        score, an empty alien list of its own, and the first level loaded. */
    constructor (levels: seq<Level>, sizes: Sizes)
      requires |levels| > 0
      modifies levels[0].aliens
      ensures Valid()
      ensures this.levels == levels && this.sizes == sizes && levelIndex == 0
      ensures fresh(player) && fresh(player.healthBar) && fresh(player.laser)
      ensures player.x == 360 && player.y == 465 && player.healthPoints == 10
      ensures fresh(powerUp) && powerUp.View() == PowerUps.Drop(0, 0, PowerUps.Ready)
      ensures fresh(levelAliens) && levelAliens.items == []
      ensures fresh(score) && score.displayedScore == 0 && score.targetScore == 0
      ensures fresh(boss) && SpawnedFor(boss, levels[0]) && levels[0].aliens.items == []
    {
      this.levels := levels;
      this.sizes := sizes;
      levelIndex := 0;
      player := new Player(360, 465, sizes.playerLaser);
      powerUp := new PowerUps.PowerUp(sizes.powerUp);
      levelAliens := new AlienList();
      score := new Score();
      // the first `load_level`
      var firstBoss := levels[0].SpawnBoss();
      boss := firstBoss;
      levels[0].aliens.items := [];
    }

    /** `load_level`: a new boss for the current level, whose alien list is emptied. */
    method LoadLevel()
      requires 0 <= levelIndex < |levels|
      modifies this, levels[levelIndex].aliens
      ensures levelIndex == old(levelIndex) && player == old(player) && levelAliens == old(levelAliens)
      ensures fresh(boss) && fresh(boss.healthBar) && fresh(boss.laser)
      ensures SpawnedFor(boss, levels[levelIndex])
      ensures levels[levelIndex].aliens.items == []
      ensures old(player.healthBar) != boss.healthBar
      ensures forall a :: a in old(levelAliens.items) ==> a.laser != boss.laser
    {
      var level := levels[levelIndex];
      boss := level.SpawnBoss();
      level.aliens.items := [];
    }

    /** `reset`: a new player, the first level with its counters and alien list cleared and its
        list in play, a new boss, and a zero score. */
    method Reset()
      requires Valid()
      modifies this, levels[0], levels[0].aliens, score
      ensures Valid() && levelIndex == 0
      ensures fresh(player) && fresh(player.healthBar) && fresh(player.laser)
      ensures player.x == 360 && player.y == 465 && player.healthPoints == 10
      ensures player.healthBar.barWidth == 200 && player.laser.View() == Flight(-100, -100, Ready)
      ensures levelAliens == levels[0].aliens && levelAliens.items == []
      ensures levels[0].Timer() == SpawnTimer(0, 0)
      ensures fresh(boss) && SpawnedFor(boss, levels[0])
      ensures score.displayedScore == 0 && score.targetScore == 0
    {
      player := new Player(360, 465, sizes.playerLaser);
      levelIndex := 0;
      levels[levelIndex].spawnedAliens := 0;
      levelAliens := levels[levelIndex].aliens;
      LoadLevel();
      levels[levelIndex].timeSinceLastSpawn := 0;
      score.Reset();
    }

    /** `update(ms)`, with the key states and the random draws as parameters: `bossDraw` for
        the boss's laser, `alienDirection` for the heading of an alien released this frame,
        `alienDraws[k]` for the laser of the k-th alien of the list, and `powerUpDraw` and
        `powerUpX` for the power-up. The player reads the keys and moves, the boss moves, the
        collisions are resolved, the level's spawn timer ticks, the level's list becomes the
        list in play and each of its aliens moves, the power-up may spawn and falls, and the
        displayed score takes a step. */
    method Update(ms: int, left: bool, right: bool, up: bool, bossDraw: int, alienDirection: int,
                  alienDraws: seq<int>, powerUpDraw: int, powerUpX: int)
      requires Valid()
      requires 1 <= bossDraw <= 100 && (alienDirection == 1 || alienDirection == -1)
      requires |alienDraws| > |levels[levelIndex].aliens.items|
      requires forall k :: 0 <= k < |alienDraws| ==> 1 <= alienDraws[k] <= 100
      requires 1 <= powerUpDraw <= 1000 && 0 <= powerUpX <= 755
      modifies this, player, player.laser, player.healthBar, boss, boss.healthBar, boss.laser, score, powerUp
      modifies levels[levelIndex], levels[levelIndex].aliens, levelAliens
      modifies set a | a in levelAliens.items :: a.laser
      modifies set a | a in levels[levelIndex].aliens.items, set a | a in levels[levelIndex].aliens.items :: a.laser
      ensures Valid() && levelIndex == old(levelIndex) && levelAliens == levels[levelIndex].aliens
      ensures player == old(player) && boss == old(boss)
      ensures player.x == KeyedX(old(player.x), left, right) && player.y == old(player.y)
      ensures boss.View() == BossMoved(old(boss.View()))
      ensures player.healthBar.barWidth == StepToward(old(player.healthBar.barWidth), old(player.healthPoints) * player.healthBar.widthPerHp)
      ensures boss.healthBar.barWidth == StepToward(old(boss.healthBar.barWidth), old(boss.healthPoints) * boss.healthBar.widthPerHp)
      ensures var level := levels[levelIndex];
        level.Timer() == TimerTicked(old(level.Timer()), level.numOfAliens, level.spawnInterval, ms)
      ensures |levelAliens.items| <= old(|levels[levelIndex].aliens.items|) + 1
      ensures old(score.targetScore) >= 0 ==> score.targetScore >= 0
      ensures score.displayedScore == StepToward(old(score.displayedScore), score.targetScore)
    {
      MoveShips(left, right, up, bossDraw);
      ResolveCollisions();
      AdvanceAliens(ms, alienDirection, alienDraws);
      powerUp.Spawn(powerUpDraw, powerUpX);
      powerUp.Move();
      score.Update();
    }

    /** The first steps of `update`: the player reads the keys (a ready laser is fired from
        the moved ship when up is held), its bar takes a step and its laser moves; then the boss
        moves, its bar takes a step and its laser may fire and moves. */
    method MoveShips(left: bool, right: bool, up: bool, bossDraw: int)
      requires 1 <= bossDraw <= 100 && player.healthBar != boss.healthBar
      modifies player, player.laser, player.healthBar, boss, boss.healthBar, boss.laser
      ensures player.x == KeyedX(old(player.x), left, right) && player.y == old(player.y)
      ensures player.healthPoints == old(player.healthPoints)
      ensures player.laser.View() == PlayerLaserMoved(
        if up && old(player.laser.state) == Ready then Flight(player.x + 31, 475, LaserState.Fire) else old(player.laser.View()))
      ensures var bar := player.healthBar; var goal := player.healthPoints * bar.widthPerHp;
        bar.barWidth == StepToward(old(bar.barWidth), goal) && bar.colour == Tint(old(bar.barWidth), goal)
      ensures boss.View() == BossMoved(old(boss.View()))
      ensures boss.y == old(boss.y) && boss.healthPoints == old(boss.healthPoints)
      ensures var bar := boss.healthBar; var goal := boss.healthPoints * bar.widthPerHp;
        bar.barWidth == StepToward(old(bar.barWidth), goal) && bar.colour == Tint(old(bar.barWidth), goal)
      ensures boss.laser.View() == EnemyLaserMoved(EnemyLaserFired(old(boss.laser.View()), boss.laser.fireAbove, boss.x + 116, boss.y + 70, bossDraw))
    {
      player.CheckInput(left, right, up);
      player.Update();
      boss.Move(bossDraw);
    }

    /** The `check_collision` step of `update`: the scene stays valid, the current level's list
        does not grow, and a non-negative target score stays non-negative. */
    method ResolveCollisions()
      requires Valid()
      modifies player, player.laser, boss, boss.laser, levelAliens, score, powerUp
      modifies set a | a in levelAliens.items :: a.laser
      ensures Valid() && |levels[levelIndex].aliens.items| <= old(|levels[levelIndex].aliens.items|)
      ensures forall a :: a in levels[levelIndex].aliens.items ==> a in old(levels[levelIndex].aliens.items)
      ensures old(score.targetScore) >= 0 ==> score.targetScore >= 0
      ensures score.displayedScore == old(score.displayedScore)
      ensures player.x == old(player.x) && player.y == old(player.y) && boss.View() == old(boss.View())
    {
      var level := levels[levelIndex];
      ghost var target := score.targetScore;
      ghost var bossHit, playerHit, shot, rammed, lasered, collected :=
        CheckCollision(AlienBoxes(levelAliens.items), LaserBoxMap(levelAliens.items), LaserStateMap(levelAliens.items));
      CollisionScoreIsOneFold(target, bossHit, playerHit, shot, rammed, lasered);
      if level.aliens != levelAliens {
        assert level.aliens.items == old(level.aliens.items);
      }
    }

    /** The alien steps of `update`: the level's spawn timer ticks, possibly releasing an alien
        below the boss, the level's list becomes the list in play, and each alien moves, the
        k-th with its laser's draw `alienDraws[k]`. */
    method AdvanceAliens(ms: int, alienDirection: int, alienDraws: seq<int>)
      requires Valid()
      requires alienDirection == 1 || alienDirection == -1
      requires |alienDraws| > |levels[levelIndex].aliens.items|
      requires forall k :: 0 <= k < |alienDraws| ==> 1 <= alienDraws[k] <= 100
      modifies this, levels[levelIndex], levels[levelIndex].aliens
      modifies set a | a in levels[levelIndex].aliens.items, set a | a in levels[levelIndex].aliens.items :: a.laser
      ensures Valid() && levelIndex == old(levelIndex) && levelAliens == levels[levelIndex].aliens
      ensures player == old(player) && boss == old(boss)
      ensures var level := levels[levelIndex];
        level.Timer() == TimerTicked(old(level.Timer()), level.numOfAliens, level.spawnInterval, ms)
      ensures var level := levels[levelIndex]; var n := |old(level.aliens.items)|;
        && |levelAliens.items| == n + (if SpawnsOnTick(old(level.Timer()), level.numOfAliens, level.spawnInterval, ms) then 1 else 0)
        && levelAliens.items[..n] == old(level.aliens.items)
      ensures forall k :: 0 <= k < |old(levels[levelIndex].aliens.items)| ==>
        var a := levelAliens.items[k];
        MovedFrom(a, old(a.View()), old(a.laser.View()), alienDraws[k])
      ensures var n := |old(levels[levelIndex].aliens.items)|;
        |levelAliens.items| > n ==>
          var a := levelAliens.items[n];
          && fresh(a) && fresh(a.laser) && a.laser.fireAbove == 99
          && MovedFrom(a, Motion(boss.x + 90, 100, alienDirection), Flight(0, 0, Ready), alienDraws[n])
    {
      var level := levels[levelIndex];
      ghost var before := level.aliens.items;
      level.UpdateAliens(boss.x, ms, alienDirection, sizes.alien, sizes.alienLaser);
      if |level.aliens.items| > |before| {
        SeparateAppend(before, level.aliens.items[|before|], boss.laser);
        assert level.aliens.items == before + [level.aliens.items[|before|]];
      }
      levelAliens := level.aliens;
      MoveAliens(alienDraws);
    }

    /** The loop of `update` that moves each alien of the list in play, the k-th with its
        laser's draw `draws[k]`; the list itself does not change. */
    method MoveAliens(draws: seq<int>)
      requires AliensDistinct(levelAliens.items) && |draws| >= |levelAliens.items|
      requires forall k :: 0 <= k < |draws| ==> 1 <= draws[k] <= 100
      modifies set a | a in levelAliens.items, set a | a in levelAliens.items :: a.laser
      ensures forall k :: 0 <= k < |levelAliens.items| ==>
        var a := levelAliens.items[k];
        MovedFrom(a, old(a.View()), old(a.laser.View()), draws[k])
    {
      var aliens := levelAliens.items;
      ghost var motions := Motions(aliens);
      ghost var flights := Flights(aliens);
      var i := 0;
      while i < |aliens|
        invariant 0 <= i <= |aliens|
        invariant AliensMoved(aliens, i, draws, motions, flights)
      {
        MoveAlien(aliens, i, draws, motions, flights);
        i := i + 1;
      }
    }

    /** Where the moving loop stands after the first `i` aliens: those moved from their
        `motions` and `flights`, the others are still there. */
    ghost predicate AliensMoved(aliens: seq<Alien>, i: nat, draws: seq<int>, motions: seq<Motion>, flights: seq<Flight>)
      reads set a | a in aliens, set a | a in aliens :: a.laser
    {
      && i <= |aliens| == |motions| == |flights| <= |draws|
      && forall k :: 0 <= k < |aliens| ==>
        if k < i then MovedFrom(aliens[k], motions[k], flights[k], draws[k])
        else aliens[k].View() == motions[k] && aliens[k].laser.View() == flights[k]
    }

    /** The body of the moving loop for `aliens[i]`. */
    method MoveAlien(aliens: seq<Alien>, i: nat, draws: seq<int>, ghost motions: seq<Motion>, ghost flights: seq<Flight>)
      requires i < |aliens| && AliensDistinct(aliens)
      requires AliensMoved(aliens, i, draws, motions, flights) && 1 <= draws[i] <= 100
      modifies aliens[i], aliens[i].laser
      ensures AliensMoved(aliens, i + 1, draws, motions, flights)
    {
      aliens[i].Move(draws[i]);
    }

    /** `next_scene`, with the escape key as a flag: the decision of `NextSceneOf`, taken on the
        state before the call. Moving on to the next level advances the index, loads that level
        and tells the transition scene the player's x and the new level's number; the list in
        play, still the previous level's, keeps its aliens, as does every other level's list. */
    method NextScene(escape: bool, transition: LevelTransition) returns (next: Scene)
      requires Valid()
      modifies this, transition, set lv | lv in levels :: lv.aliens
      ensures Valid()
      ensures next == NextSceneOf(escape, player.healthPoints, old(boss.healthBar.barWidth), old(levelIndex), |levels|)
      ensures player == old(player) && levelAliens == old(levelAliens)
      ensures next == Transition ==>
        && levelIndex == old(levelIndex) + 1
        && fresh(boss) && SpawnedFor(boss, levels[levelIndex]) && levels[levelIndex].aliens.items == []
        && transition.playerX == player.x && transition.levelNumber == levelIndex + 1
        && transition.View() == old(transition.View())
        && (levelAliens != levels[levelIndex].aliens ==> levelAliens.items == old(levelAliens.items))
        && forall lv | lv in levels && lv.aliens != levels[levelIndex].aliens :: lv.aliens.items == old(lv.aliens.items)
      ensures next != Transition ==>
        && levelIndex == old(levelIndex) && boss == old(boss)
        && unchanged(transition) && unchanged(set lv | lv in levels :: lv.aliens)
    {
      if escape {
        next := PauseScreen;
      } else if player.healthPoints <= 0 {
        next := GameOverScreen;
      } else if boss.healthBar.barWidth <= 0 && levelIndex + 1 < |levels| {
        transition.playerX := player.x;
        levelIndex := levelIndex + 1;
        LoadLevel();
        transition.levelNumber := levelIndex + 1;
        next := Transition;
      } else if boss.healthBar.barWidth <= 0 && levelIndex + 1 == |levels| {
        next := WinScreen;
      } else {
        next := GamePlay;
      }
    }

    /** `check_collision`: the six passes in order. The player's laser is tested against the
        boss, the boss's laser against the player, then the alien passes run, then the power-up
        is collected. Each hit changes the score by its own clamped step. */
    method CheckCollision(ghost boxes: map<Alien, Rect>, ghost laserBoxes: map<Alien, Rect>, ghost laserStates: map<Alien, LaserState>)
        returns (ghost bossHit: bool, ghost playerHit: bool, ghost shot: nat, ghost rammed: nat, ghost lasered: nat, ghost collected: bool)
      requires Separate(levelAliens.items, boss.laser)
      requires BoxesOf(levelAliens.items, boxes) && LaserBoxesOf(levelAliens.items, laserBoxes)
      requires LaserStatesOf(levelAliens.items, laserStates)
      modifies player, player.laser, boss, boss.laser, levelAliens, score, powerUp
      modifies set a | a in levelAliens.items :: a.laser
      ensures Separate(levelAliens.items, boss.laser)
      ensures bossHit == Overlaps(old(player.laser.Box()), old(boss.Box()))
      ensures playerHit == Overlaps(old(boss.laser.Box()), old(player.Box()))
      ensures
        var l0 := old(levelAliens.items);
        var l1 := Sweep(l0, Struck(l0, boxes, old(player.laser.Box())));
        && shot == |l0| - |l1|
        && levelAliens.items == Sweep(l1, Rammers(l1, boxes, old(player.Box())))
        && rammed == |l1| - |levelAliens.items|
      ensures lasered == CountLasered(levelAliens.items, laserBoxes, old(player.Box()))
      ensures LasersAfterPass5(old(levelAliens.items), levelAliens.items, laserBoxes, laserStates, old(player.Box()))
      ensures collected == (old(powerUp.state) == PowerUps.Spawned && Overlaps(old(powerUp.Box()), old(player.Box())))
      ensures
        var health := old(player.healthPoints) - (if playerHit then 2 else 0) - rammed - lasered;
        player.healthPoints == if collected && player.healthBar.initialHealth > health then health + 1 else health
      ensures score.targetScore == CollisionScore(old(score.targetScore), bossHit, playerHit, shot, rammed, lasered)
      ensures boss.healthPoints == old(boss.healthPoints) - (if bossHit then 1 else 0)
      ensures player.laser.state == (if bossHit || shot > 0 then LaserState.Ready else old(player.laser.state))
      ensures boss.laser.state == (if playerHit then LaserState.Ready else old(boss.laser.state))
      ensures powerUp.state == (if collected then PowerUps.Ready else old(powerUp.state))
      ensures player.Box() == old(player.Box()) && player.laser.Box() == old(player.laser.Box())
      ensures boss.View() == old(boss.View()) && boss.laser.Box() == old(boss.laser.Box())
      ensures powerUp.x == old(powerUp.x) && powerUp.y == old(powerUp.y)
      ensures score.displayedScore == old(score.displayedScore)
    {
      bossHit, playerHit := BossPasses();
      ghost var l0 := levelAliens.items;
      shot, rammed, lasered := AlienPasses(boxes, laserBoxes, laserStates);
      SeparateKeptBySublist(l0, levelAliens.items, boss.laser);
      collected := CollectPowerUp();
    }

    /** Passes 3 and 4 of `check_collision`: the player's laser sweeps the alien list, then
        the aliens left sweep themselves against the player. */
    method RemovalPasses(ghost boxes: map<Alien, Rect>) returns (shot: nat, rammed: nat)
      requires BoxesOf(levelAliens.items, boxes)
      requires Distinct(levelAliens.items)
      modifies levelAliens, player, player.laser, score
      ensures
        var l0 := old(levelAliens.items);
        var l1 := Sweep(l0, Struck(l0, boxes, old(player.laser.Box())));
        && shot == |l0| - |l1|
        && levelAliens.items == Sweep(l1, Rammers(l1, boxes, old(player.Box())))
        && rammed == |l1| - |levelAliens.items|
      ensures player.healthPoints == old(player.healthPoints) - rammed
      ensures player.laser.state == (if shot > 0 then LaserState.Ready else old(player.laser.state))
      ensures score.targetScore == ApplyPoints(ApplyPoints(old(score.targetScore), Repeat(10, shot)), Repeat(-10, rammed))
      ensures Distinct(levelAliens.items) && forall a :: a in levelAliens.items ==> a in old(levelAliens.items)
      ensures player.Box() == old(player.Box()) && player.laser.Box() == old(player.laser.Box())
      ensures score.displayedScore == old(score.displayedScore)
    {
      shot := ShootAliens(boxes);
      rammed := AliensRamPlayer(boxes);
    }

    /** Passes 3 to 5 of `check_collision`: the two sweeps, then the lasers of the aliens still
        in the list against the player. */
    method AlienPasses(ghost boxes: map<Alien, Rect>, ghost laserBoxes: map<Alien, Rect>, ghost laserStates: map<Alien, LaserState>)
        returns (shot: nat, rammed: nat, lasered: nat)
      requires BoxesOf(levelAliens.items, boxes) && LaserBoxesOf(levelAliens.items, laserBoxes)
      requires LaserStatesOf(levelAliens.items, laserStates)
      requires AliensDistinct(levelAliens.items)
      modifies levelAliens, player, player.laser, score, set a | a in levelAliens.items :: a.laser
      ensures
        var l0 := old(levelAliens.items);
        var l1 := Sweep(l0, Struck(l0, boxes, old(player.laser.Box())));
        && shot == |l0| - |l1|
        && levelAliens.items == Sweep(l1, Rammers(l1, boxes, old(player.Box())))
        && rammed == |l1| - |levelAliens.items|
      ensures lasered == CountLasered(levelAliens.items, laserBoxes, old(player.Box()))
      ensures LasersAfterPass5(old(levelAliens.items), levelAliens.items, laserBoxes, laserStates, old(player.Box()))
      ensures player.healthPoints == old(player.healthPoints) - rammed - lasered
      ensures player.laser.state == (if shot > 0 then LaserState.Ready else old(player.laser.state))
      ensures score.targetScore == ApplyPoints(ApplyPoints(ApplyPoints(old(score.targetScore), Repeat(10, shot)), Repeat(-10, rammed)), Repeat(-5, lasered))
      ensures AliensDistinct(levelAliens.items) && forall a :: a in levelAliens.items ==> a in old(levelAliens.items)
      ensures player.Box() == old(player.Box()) && player.laser.Box() == old(player.laser.Box())
      ensures score.displayedScore == old(score.displayedScore)
    {
      ghost var l0 := levelAliens.items;
      shot, rammed := RemovalPasses(boxes);
      ghost var l2 := levelAliens.items;
      AliensDistinctSublist(l0, l2);
      forall a, b | a in l0 && b in l2 && a.laser == b.laser
        ensures a == b
      {
        LaserOwnedOnce(l0, a, b);
      }
      lasered := AlienLasersHitPlayer(laserBoxes, laserStates);
    }

    /** Passes 1 and 2 of `check_collision`: the player's laser against the boss, then the
        boss's laser against the player. */
    method BossPasses() returns (bossHit: bool, playerHit: bool)
      modifies player, player.laser, boss, boss.laser, score
      ensures bossHit == Overlaps(old(player.laser.Box()), old(boss.Box()))
      ensures playerHit == Overlaps(old(boss.laser.Box()), old(player.Box()))
      ensures boss.healthPoints == old(boss.healthPoints) - (if bossHit then 1 else 0)
      ensures player.healthPoints == old(player.healthPoints) - (if playerHit then 2 else 0)
      ensures score.targetScore == ApplyPoints(ApplyPoints(old(score.targetScore), if bossHit then [5] else []), if playerHit then [-10] else [])
      ensures player.laser.state == (if bossHit then LaserState.Ready else old(player.laser.state))
      ensures boss.laser.state == (if playerHit then LaserState.Ready else old(boss.laser.state))
      ensures player.Box() == old(player.Box()) && player.laser.Box() == old(player.laser.Box())
      ensures boss.View() == old(boss.View()) && boss.laser.Box() == old(boss.laser.Box())
      ensures score.displayedScore == old(score.displayedScore)
    {
      bossHit := ShootBoss();
      playerHit := BossLaserHitsPlayer();
    }

    /** Collision pass 1: the player's laser against the boss, -1 boss health and +5 points. */
    method ShootBoss() returns (hit: bool)
      modifies player.laser, boss, score
      ensures hit == Overlaps(old(player.laser.Box()), old(boss.Box()))
      ensures
        && player.laser.Box() == old(player.laser.Box())
        && player.laser.state == (if hit then LaserState.Ready else old(player.laser.state))
        && boss.healthPoints == old(boss.healthPoints) - (if hit then 1 else 0)
        && score.targetScore == ApplyPoints(old(score.targetScore), if hit then [5] else [])
      ensures boss.View() == old(boss.View()) && boss.y == old(boss.y)
      ensures score.displayedScore == old(score.displayedScore)
    {
      hit := player.laser.Hit(boss.Box());
      if hit {
        boss.healthPoints := boss.healthPoints - 1;
        score.ChangeScore(5);
        assert [5][..0] == [];
      }
    }

    /** Collision pass 2: the boss's laser against the player, -2 health and -10 points. */
    method BossLaserHitsPlayer() returns (hit: bool)
      modifies boss.laser, player, score
      ensures hit == Overlaps(old(boss.laser.Box()), old(player.Box()))
      ensures
        && boss.laser.Box() == old(boss.laser.Box())
        && boss.laser.state == (if hit then LaserState.Ready else old(boss.laser.state))
        && player.healthPoints == old(player.healthPoints) - (if hit then 2 else 0)
        && score.targetScore == ApplyPoints(old(score.targetScore), if hit then [-10] else [])
      ensures player.Box() == old(player.Box())
      ensures score.displayedScore == old(score.displayedScore)
    {
      hit := boss.laser.Hit(player.Box());
      if hit {
        player.healthPoints := player.healthPoints - 2;
        score.ChangeScore(-10);
        assert [-10][..0] == [];
      }
    }

    /** Collision pass 3: the player's laser against each alien while the list is walked and
        shrunk; a struck alien is removed for +10 points, and the alien after it is skipped. */
    method ShootAliens(ghost boxes: map<Alien, Rect>) returns (shot: nat)
      requires BoxesOf(levelAliens.items, boxes)
      requires Distinct(levelAliens.items)
      modifies levelAliens, player.laser, score
      ensures levelAliens.items == Sweep(old(levelAliens.items), Struck(old(levelAliens.items), boxes, old(player.laser.Box())))
      ensures shot == |old(levelAliens.items)| - |levelAliens.items|
      ensures Distinct(levelAliens.items) && forall a :: a in levelAliens.items ==> a in old(levelAliens.items)
      ensures player.laser.Box() == old(player.laser.Box())
      ensures player.laser.state == if shot > 0 then LaserState.Ready else old(player.laser.state)
      ensures score.targetScore == ApplyPoints(old(score.targetScore), Repeat(10, shot))
      ensures score.displayedScore == old(score.displayedScore)
    {
      var start := levelAliens.items;
      var laserBox := player.laser.Box();
      ghost var doomed := Struck(start, boxes, laserBox);
      shot := 0;
      var i := 0;
      while i < |levelAliens.items|
        invariant i <= |levelAliens.items| + 1 && shot == |start| - |levelAliens.items|
        invariant SweepFrom(levelAliens.items, doomed, i) == SweepFrom(start, doomed, 0)
        invariant Distinct(levelAliens.items) && forall a :: a in levelAliens.items ==> a in start
        invariant player.laser.Box() == laserBox
        invariant player.laser.state == if shot > 0 then LaserState.Ready else old(player.laser.state)
        invariant score.targetScore == ApplyPoints(old(score.targetScore), Repeat(10, shot))
        invariant score.displayedScore == old(score.displayedScore)
        decreases |levelAliens.items| + 1 - i
      {
        var alien := levelAliens.items[i];
        var hit := player.laser.Hit(alien.Box());
        assert hit <==> alien in doomed;
        if hit {
          SweepStepRemoving(levelAliens.items, doomed, i);
          ApplyPointsRepeatStep(old(score.targetScore), 10, shot);
          levelAliens.items := RemoveFirst(levelAliens.items, alien);
          score.ChangeScore(10);
          shot := shot + 1;
        }
        i := i + 1;
      }
      assert levelAliens.items == Sweep(start, doomed);
    }

    /** Collision pass 4: each alien against the player while the list is walked and shrunk; an
        alien touching the player costs 1 health and 10 points and is removed, and the alien
        after it is skipped. */
    method AliensRamPlayer(ghost boxes: map<Alien, Rect>) returns (rammed: nat)
      requires BoxesOf(levelAliens.items, boxes)
      requires Distinct(levelAliens.items)
      modifies levelAliens, player, score
      ensures levelAliens.items == Sweep(old(levelAliens.items), Rammers(old(levelAliens.items), boxes, old(player.Box())))
      ensures rammed == |old(levelAliens.items)| - |levelAliens.items|
      ensures Distinct(levelAliens.items) && forall a :: a in levelAliens.items ==> a in old(levelAliens.items)
      ensures player.healthPoints == old(player.healthPoints) - rammed
      ensures player.Box() == old(player.Box())
      ensures score.targetScore == ApplyPoints(old(score.targetScore), Repeat(-10, rammed))
      ensures score.displayedScore == old(score.displayedScore)
    {
      var start := levelAliens.items;
      var playerBox := player.Box();
      ghost var doomed := Rammers(start, boxes, playerBox);
      rammed := 0;
      var i := 0;
      while i < |levelAliens.items|
        invariant i <= |levelAliens.items| + 1 && rammed == |start| - |levelAliens.items|
        invariant SweepFrom(levelAliens.items, doomed, i) == SweepFrom(start, doomed, 0)
        invariant Distinct(levelAliens.items) && forall a :: a in levelAliens.items ==> a in start
        invariant player.x == playerBox.x && player.y == playerBox.y
        invariant player.healthPoints == old(player.healthPoints) - rammed
        invariant score.targetScore == ApplyPoints(old(score.targetScore), Repeat(-10, rammed))
        invariant score.displayedScore == old(score.displayedScore)
        decreases |levelAliens.items| + 1 - i
      {
        var alien := levelAliens.items[i];
        var touching := alien.CheckCollision(player.Box());
        if touching {
          SweepStepRemoving(levelAliens.items, doomed, i);
          ApplyPointsRepeatStep(old(score.targetScore), -10, rammed);
          player.healthPoints := player.healthPoints - 1;
          levelAliens.items := RemoveFirst(levelAliens.items, alien);
          score.ChangeScore(-10);
          rammed := rammed + 1;
        }
        i := i + 1;
      }
      assert levelAliens.items == Sweep(start, doomed);
    }

    /** Collision pass 5: each alien's laser against the player, -1 health and -5 points per
        hit; the aliens stay. `laserBoxes` holds the lasers' rectangles. */
    method AlienLasersHitPlayer(ghost laserBoxes: map<Alien, Rect>, ghost laserStates: map<Alien, LaserState>) returns (hits: nat)
      requires LasersDistinct(levelAliens.items)
      requires LaserBoxesOf(levelAliens.items, laserBoxes) && LaserStatesOf(levelAliens.items, laserStates)
      modifies player, score, set a | a in levelAliens.items :: a.laser
      ensures hits == CountLasered(levelAliens.items, laserBoxes, old(player.Box()))
      ensures LasersAfterPass5(levelAliens.items, levelAliens.items, laserBoxes, laserStates, old(player.Box()))
      ensures player.healthPoints == old(player.healthPoints) - hits
      ensures player.Box() == old(player.Box())
      ensures score.targetScore == ApplyPoints(old(score.targetScore), Repeat(-5, hits))
      ensures score.displayedScore == old(score.displayedScore)
    {
      var aliens := levelAliens.items;
      var playerBox := player.Box();
      hits := 0;
      var i := 0;
      while i < |aliens|
        invariant 0 <= i <= |aliens|
        invariant LasersPassed(aliens, i, hits, laserBoxes, laserStates, playerBox)
        invariant player.healthPoints == old(player.healthPoints) - hits
        invariant score.targetScore == ApplyPoints(old(score.targetScore), Repeat(-5, hits))
        invariant score.displayedScore == old(score.displayedScore)
      {
        ApplyPointsRepeatStep(old(score.targetScore), -5, hits);
        hits := LaserHitsPlayer(aliens, i, hits, laserBoxes, laserStates, playerBox);
        i := i + 1;
      }
      assert aliens[..|aliens|] == aliens;
      forall a | a in aliens
        ensures a.laser.state == if Overlaps(laserBoxes[a], playerBox) then LaserState.Ready else laserStates[a]
      {
        var k :| 0 <= k < |aliens| && aliens[k] == a;
      }
    }

    /** Where pass 5 stands after the first `i` lasers: `hits` of them hit the player at
        `playerBox`, those were made ready, and nothing else about the lasers or the player's
        position changed. */
    ghost predicate LasersPassed(aliens: seq<Alien>, i: nat, hits: nat, laserBoxes: map<Alien, Rect>, laserStates: map<Alien, LaserState>, playerBox: Rect)
      reads this, player, set a | a in aliens :: a.laser
    {
      && i <= |aliens|
      && hits == CountLasered(aliens[..i], laserBoxes, playerBox)
      && player.Box() == playerBox
      && forall k :: 0 <= k < |aliens| ==>
        && aliens[k] in laserBoxes && aliens[k] in laserStates
        && aliens[k].laser.Box() == laserBoxes[aliens[k]]
        && aliens[k].laser.state == if k < i && Overlaps(laserBoxes[aliens[k]], playerBox) then LaserState.Ready else laserStates[aliens[k]]
    }

    /** The body of pass 5 for the laser of `aliens[i]`. */
    method LaserHitsPlayer(aliens: seq<Alien>, i: nat, hits: nat, ghost laserBoxes: map<Alien, Rect>, ghost laserStates: map<Alien, LaserState>, playerBox: Rect)
        returns (hits': nat)
      requires i < |aliens| && LasersDistinct(aliens)
      requires LasersPassed(aliens, i, hits, laserBoxes, laserStates, playerBox)
      modifies aliens[i].laser, player, score
      ensures LasersPassed(aliens, i + 1, hits', laserBoxes, laserStates, playerBox)
      ensures hits' == hits + if Overlaps(laserBoxes[aliens[i]], playerBox) then 1 else 0
      ensures player.healthPoints == old(player.healthPoints) - (hits' - hits)
      ensures score.targetScore == if hits' > hits then AddPoints(old(score.targetScore), -5) else old(score.targetScore)
      ensures score.displayedScore == old(score.displayedScore)
    {
      assert aliens[..i + 1][..i] == aliens[..i];
      var hit := aliens[i].laser.Hit(player.Box());
      hits' := hits;
      if hit {
        hits' := hits + 1;
        player.healthPoints := player.healthPoints - 1;
        score.ChangeScore(-5);
      }
    }

    /** Collision pass 6: a collected power-up is made ready again and gives 1 health, but only
        while the player is below its starting health. */
    method CollectPowerUp() returns (collected: bool)
      modifies powerUp, player
      ensures collected == (old(powerUp.state) == PowerUps.Spawned && Overlaps(old(powerUp.Box()), old(player.Box())))
      ensures
        && powerUp.state == (if collected then PowerUps.Ready else old(powerUp.state))
        && player.healthPoints == if collected && player.healthBar.initialHealth > old(player.healthPoints)
                                  then old(player.healthPoints) + 1 else old(player.healthPoints)
      ensures powerUp.x == old(powerUp.x) && powerUp.y == old(powerUp.y)
      ensures player.Box() == old(player.Box())
      ensures old(player.healthPoints) <= player.healthBar.initialHealth ==> player.healthPoints <= player.healthBar.initialHealth
    {
      var result := powerUp.Collect(player.Box());
      collected := result.Truthy();
      if collected {
        powerUp.state := PowerUps.Ready;
        if player.healthBar.initialHealth > player.healthPoints {
          player.healthPoints := player.healthPoints + 1;
        }
      }
    }
  }
}
