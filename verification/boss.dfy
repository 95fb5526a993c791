/** The boss (boss.py): a 240 x 120 ship that sways horizontally between x = 180 and x = 380,
    with a health bar of 15 pixels per health point and a laser with the level's shoot chance.
    Drawing, the health bar's (fractional) x position and the hit-box debug flag are not part
    of this model. */
module Bosses {
  import opened Geometry
  import opened Easing
  import opened HealthBars
  import opened Lasers

  /** The boss's x and direction (1 = right, -1 = left). */
  datatype Sway = Sway(x: int, direction: int)

  /** `Boss.move` on the boss's x and direction: one pixel in the current direction, then
      the direction becomes -1 at or beyond 380 and 1 at or below 180. */
  function BossMoved(s: Sway): Sway
  {
    var x := s.x + s.direction;
    var afterRight := if x >= 380 then -1 else s.direction;
    Sway(x, if x <= 180 then 1 else afterRight)
  }

  function BossMovedN(s: Sway, n: nat): Sway
    decreases n
  {
    if n == 0 then s else BossMoved(BossMovedN(s, n - 1))
  }

  /** The boss's bounds: between 180 and 380, a unit direction, and heading inward at either end. */
  predicate InBounds(s: Sway)
  {
    && 180 <= s.x <= 380
    && (s.direction == 1 || s.direction == -1)
    && (s.x == 380 ==> s.direction == -1)
    && (s.x == 180 ==> s.direction == 1)
  }

  /** One move keeps the boss in bounds. */
  lemma BossMoveKeepsBounds(s: Sway)
    requires InBounds(s)
    ensures InBounds(BossMoved(s))
  {
  }

  /** The boss stays in bounds for ever, starting from where every level places it. */
  lemma {:induction false} BossStaysInBounds(n: nat)
    ensures InBounds(BossMovedN(Sway(280, 1), n))
    decreases n
  {
    if n > 0 {
      BossStaysInBounds(n - 1);
      BossMoveKeepsBounds(BossMovedN(Sway(280, 1), n - 1));
    }
  }

  class Boss {
    var x: int
    var y: int
    const width: nat := 240
    const height: nat := 120
    const speed: int := 1
    var direction: int
    var healthPoints: int
    const shootChance: int
    const healthBar: HealthBar
    const laser: EnemyLaser

    /** A new boss at (x, y), heading right, with a full bar of 15 pixels per health point and a
        ready laser with the custom 8 x 60 hit box. */
    constructor (x: int, y: int, healthPoints: int, shootChance: int)
      ensures this.x == x && this.y == y && direction == 1
      ensures this.healthPoints == healthPoints && this.shootChance == shootChance
      ensures fresh(healthBar) && healthBar.initialHealth == healthPoints && healthBar.widthPerHp == 15
      ensures healthBar.barWidth == healthPoints * 15 && healthBar.colour == White
      ensures fresh(laser) && laser.fireAbove == 100 - shootChance
      ensures laser.View() == Flight(-100, -100, Ready) && laser.width == 8 && laser.height == 60
    {
      this.x, this.y := x, y;
      direction := 1;
      this.healthPoints := healthPoints;
      this.shootChance := shootChance;
      healthBar := new HealthBar(healthPoints, 15);
      laser := new EnemyLaser(shootChance, Size(8, 60), true);
    }

    function Box(): Rect
      reads this
    {
      Rect(x, y, width, height)
    }

    function View(): Sway
      reads this
    {
      Sway(x, direction)
    }

    /** `move`, with `draw` the laser's `randint(1, 100)`: one step of `BossMoved`, then the bar
        takes one step toward the current health, the laser is offered a shot from the new
        position plus (116, 70), and the laser moves. */
    method Move(draw: int)
      requires 1 <= draw <= 100
      modifies this, healthBar, laser
      ensures View() == BossMoved(old(View()))
      ensures y == old(y) && healthPoints == old(healthPoints)
      ensures healthBar.barWidth == StepToward(old(healthBar.barWidth), healthPoints * healthBar.widthPerHp)
      ensures healthBar.colour == Tint(old(healthBar.barWidth), healthPoints * healthBar.widthPerHp)
      ensures laser.View() == EnemyLaserMoved(EnemyLaserFired(old(laser.View()), laser.fireAbove, x + 116, y + 70, draw))
    {
      x := x + speed * direction;
      if x >= 380 {
        direction := -1;
      }
      if x <= 180 {
        direction := 1;
      }
      healthBar.Update(healthPoints);
      laser.Fire(x, y, 116, 70, draw);
      laser.Move();
    }
  }
}
