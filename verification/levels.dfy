/** A level (levels.py): its wave size, boss health, boss shoot chance and spawn interval, the
    list of aliens it has spawned, and the spawn timer that releases one alien per interval
    and, once the whole wave has been released, starts a new wave after 13 seconds. The level's
    background image and music file are not part of this model. */
module Levels {
  import opened Geometry
  import opened Aliens
  import opened Bosses
  import opened HealthBars
  import opened Lasers

  /** The spawn counter and the milliseconds since the last spawn. */
  datatype SpawnTimer = SpawnTimer(spawned: int, elapsed: int)

  /** The wave-restart delay, `alien_respawn_interval`. */
  const RespawnInterval: int := 13000

  /** Whether `update_aliens` releases an alien on this tick. */
  predicate SpawnsOnTick(t: SpawnTimer, numOfAliens: int, spawnInterval: int, ms: int)
  {
    t.spawned < numOfAliens && t.elapsed + ms >= spawnInterval
  }

  /** `update_aliens` on the counter and timer: the time is added; while the wave is incomplete
      an alien is released once the interval has passed, and the timer restarts; once the wave
      is complete the counter returns to zero after the respawn delay (the timer is not reset). */
  function TimerTicked(t: SpawnTimer, numOfAliens: int, spawnInterval: int, ms: int): SpawnTimer
  {
    var elapsed := t.elapsed + ms;
    if t.spawned < numOfAliens then
      if elapsed >= spawnInterval then SpawnTimer(t.spawned + 1, 0) else SpawnTimer(t.spawned, elapsed)
    else if t.spawned == numOfAliens && elapsed >= RespawnInterval then SpawnTimer(0, elapsed)
    else SpawnTimer(t.spawned, elapsed)
  }

  /** `n` ticks of `ms` milliseconds each. */
  function TimerTickedN(t: SpawnTimer, numOfAliens: int, spawnInterval: int, ms: int, n: nat): SpawnTimer
    decreases n
  {
    if n == 0 then t else TimerTicked(TimerTickedN(t, numOfAliens, spawnInterval, ms, n - 1), numOfAliens, spawnInterval, ms)
  }

  /** The number of aliens released during `n` ticks of `ms` milliseconds. */
  function SpawnsDuring(t: SpawnTimer, numOfAliens: int, spawnInterval: int, ms: int, n: nat): nat
    decreases n
  {
    if n == 0 then 0
    else
      var before := TimerTickedN(t, numOfAliens, spawnInterval, ms, n - 1);
      SpawnsDuring(t, numOfAliens, spawnInterval, ms, n - 1) + if SpawnsOnTick(before, numOfAliens, spawnInterval, ms) then 1 else 0
  }

  /** A wave never exceeds its size: the counter stays at or below the wave size (and at or
      above zero once it is), and it grows by one exactly on the ticks that release an alien. */
  lemma TickKeepsWaveBounded(t: SpawnTimer, numOfAliens: int, spawnInterval: int, ms: int)
    requires t.spawned <= numOfAliens && numOfAliens >= 0
    ensures TimerTicked(t, numOfAliens, spawnInterval, ms).spawned <= numOfAliens
    ensures 0 <= t.spawned ==> 0 <= TimerTicked(t, numOfAliens, spawnInterval, ms).spawned
    ensures SpawnsOnTick(t, numOfAliens, spawnInterval, ms) <==> TimerTicked(t, numOfAliens, spawnInterval, ms).spawned == t.spawned + 1
  {
  }

  /** With ticks as long as the spawn interval, an incomplete wave releases one alien per tick
      until it is complete. */
  lemma {:induction false} WaveReleasesOnePerInterval(spawned: int, numOfAliens: int, spawnInterval: int, n: nat)
    requires 0 <= spawned && spawned + n <= numOfAliens && spawnInterval >= 0
    ensures TimerTickedN(SpawnTimer(spawned, 0), numOfAliens, spawnInterval, spawnInterval, n) == SpawnTimer(spawned + n, 0)
    ensures SpawnsDuring(SpawnTimer(spawned, 0), numOfAliens, spawnInterval, spawnInterval, n) == n
    decreases n
  {
    if n > 0 {
      WaveReleasesOnePerInterval(spawned, numOfAliens, spawnInterval, n - 1);
    }
  }

  /** A complete wave waits: while less than 13 seconds have accumulated, ticks only add time. */
  lemma {:induction false} CompleteWaveWaits(t: SpawnTimer, numOfAliens: int, spawnInterval: int, ms: int, n: nat)
    requires t.spawned == numOfAliens && ms >= 0 && t.elapsed + n * ms < RespawnInterval
    ensures TimerTickedN(t, numOfAliens, spawnInterval, ms, n) == SpawnTimer(numOfAliens, t.elapsed + n * ms)
    ensures SpawnsDuring(t, numOfAliens, spawnInterval, ms, n) == 0
    decreases n
  {
    if n > 0 {
      CompleteWaveWaits(t, numOfAliens, spawnInterval, ms, n - 1);
    }
  }

  /** The first level's timing (3 aliens, one per 2000 ms) with frames of 2000 ms: the wave is
      out after 3 frames, waits 6 more, and the counter restarts on the 10th; the next alien
      follows one frame later, because the timer kept the 14 seconds it had accumulated. */
  lemma FirstLevelWaveEveryTwoSeconds()
    ensures TimerTickedN(SpawnTimer(0, 0), 3, 2000, 2000, 3) == SpawnTimer(3, 0)
    ensures TimerTickedN(SpawnTimer(0, 0), 3, 2000, 2000, 9) == SpawnTimer(3, 12000)
    ensures TimerTickedN(SpawnTimer(0, 0), 3, 2000, 2000, 10) == SpawnTimer(0, 14000)
    ensures TimerTickedN(SpawnTimer(0, 0), 3, 2000, 2000, 11) == SpawnTimer(1, 0)
    ensures SpawnsDuring(SpawnTimer(0, 0), 3, 2000, 2000, 11) == 4
  {
    WaveReleasesOnePerInterval(0, 3, 2000, 3);
    CompleteWaveWaits(SpawnTimer(3, 0), 3, 2000, 2000, 6);
    TimerTickedNSplit(SpawnTimer(0, 0), 3, 2000, 2000, 3, 6);
  }

  /** Ticking `a` times and then `b` times is ticking `a + b` times. */
  lemma {:induction false} TimerTickedNSplit(t: SpawnTimer, numOfAliens: int, spawnInterval: int, ms: int, a: nat, b: nat)
    ensures TimerTickedN(t, numOfAliens, spawnInterval, ms, a + b)
         == TimerTickedN(TimerTickedN(t, numOfAliens, spawnInterval, ms, a), numOfAliens, spawnInterval, ms, b)
    ensures SpawnsDuring(t, numOfAliens, spawnInterval, ms, a + b)
         == SpawnsDuring(t, numOfAliens, spawnInterval, ms, a)
          + SpawnsDuring(TimerTickedN(t, numOfAliens, spawnInterval, ms, a), numOfAliens, spawnInterval, ms, b)
    decreases b
  {
    if b > 0 {
      TimerTickedNSplit(t, numOfAliens, spawnInterval, ms, a, b - 1);
    }
  }

  class Level {
    const levelNumber: int
    const numOfAliens: int
    const bossHealth: int
    const shootChance: int
    const spawnInterval: int
    /** The aliens this level has released and that are still alive. */
    const aliens: AlienList
    var spawnedAliens: int
    var timeSinceLastSpawn: int

    constructor (levelNumber: int, numOfAliens: int, bossHealth: int, bossShootChance: int, spawnInterval: int)
      ensures this.levelNumber == levelNumber && this.numOfAliens == numOfAliens
      ensures this.bossHealth == bossHealth && shootChance == bossShootChance
      ensures this.spawnInterval == spawnInterval
      ensures fresh(aliens) && aliens.items == []
      ensures spawnedAliens == 0 && timeSinceLastSpawn == 0
    {
      this.levelNumber := levelNumber;
      this.numOfAliens := numOfAliens;
      this.bossHealth := bossHealth;
      aliens := new AlienList();
      shootChance := bossShootChance;
      spawnedAliens := 0;
      this.spawnInterval := spawnInterval;
      timeSinceLastSpawn := 0;
    }

    function Timer(): SpawnTimer
      reads this
    {
      SpawnTimer(spawnedAliens, timeSinceLastSpawn)
    }

    /** `update_aliens(boss_x, ms)`, with `direction` the new alien's `random.choice([1, -1])`:
        one tick of the spawn timer; on a releasing tick a new alien is appended at
        (boss_x + 90, 100), and otherwise the list is untouched. */
    method UpdateAliens(bossX: int, ms: int, direction: int, alienSize: Size, alienLaserSize: Size)
      requires direction == 1 || direction == -1
      modifies this, aliens
      ensures Timer() == TimerTicked(old(Timer()), numOfAliens, spawnInterval, ms)
      ensures !SpawnsOnTick(old(Timer()), numOfAliens, spawnInterval, ms) ==> aliens.items == old(aliens.items)
      ensures SpawnsOnTick(old(Timer()), numOfAliens, spawnInterval, ms) ==>
        && |aliens.items| == |old(aliens.items)| + 1
        && aliens.items[..|old(aliens.items)|] == old(aliens.items)
        && var a := aliens.items[|old(aliens.items)|];
           && fresh(a) && fresh(a.laser)
           && a.View() == Motion(bossX + 90, 100, direction)
           && a.width == alienSize.w && a.height == alienSize.h
           && a.laser.fireAbove == 99 && a.laser.View() == Flight(0, 0, Ready)
           && a.laser.width == alienLaserSize.w && a.laser.height == alienLaserSize.h
    {
      timeSinceLastSpawn := timeSinceLastSpawn + ms;
      if spawnedAliens < numOfAliens {
        if timeSinceLastSpawn >= spawnInterval {
          var alien := new Alien(bossX + 90, 100, direction, alienSize, alienLaserSize);
          aliens.items := aliens.items + [alien];
          spawnedAliens := spawnedAliens + 1;
          timeSinceLastSpawn := 0;
        }
      } else if spawnedAliens == numOfAliens {
        if timeSinceLastSpawn >= RespawnInterval {
          spawnedAliens := 0;
        }
      }
    }

    /** `spawn_boss`: a new boss at (280, 30) with the level's health and shoot chance. */
    method SpawnBoss() returns (boss: Boss)
      ensures fresh(boss) && fresh(boss.healthBar) && fresh(boss.laser)
      ensures boss.View() == Sway(280, 1) && boss.y == 30
      ensures boss.healthPoints == bossHealth && boss.shootChance == shootChance
      ensures boss.healthBar.initialHealth == bossHealth && boss.healthBar.widthPerHp == 15
      ensures boss.healthBar.barWidth == bossHealth * 15 && boss.healthBar.colour == White
      ensures boss.laser.fireAbove == 100 - shootChance && boss.laser.View() == Flight(-100, -100, Ready)
      ensures boss.laser.width == 8 && boss.laser.height == 60
    {
      boss := new Boss(280, 30, bossHealth, shootChance);
    }
  }
}
