/** The player's ship (player.py): an 80 x 60 rectangle that moves only horizontally and
    stays on the 800-pixel-wide screen, with 10 health points, a health bar and one laser.
    Drawing and the hit-box debug flag are not part of this model. */
module Players {
  import opened Geometry
  import opened Easing
  import opened HealthBars
  import opened Lasers

  /** The x range a player rectangle may occupy: `max(0, min(x, 800 - 80))`. */
  function ClampToScreen(x: int): (r: int)
    ensures 0 <= r <= 720
    ensures 0 <= x <= 720 ==> r == x
    ensures x < 0 ==> r == 0
    ensures x > 720 ==> r == 720
  {
    if x > 720 then 720 else if x < 0 then 0 else x
  }

  /** The x after `check_input` with the given key flags: left is handled before right, and
      each `move` is by the player's speed, 5. */
  function KeyedX(x: int, left: bool, right: bool): int
  {
    var afterLeft := if left then ClampToScreen(x - 2 * 5) else x;
    if right then ClampToScreen(afterLeft + 2 * 5) else afterLeft
  }

  /** Any held movement key leaves the player on screen, and so does holding none when it
      already was on screen. */
  lemma KeyedXOnScreen(x: int, left: bool, right: bool)
    requires left || right || 0 <= x <= 720
    ensures 0 <= KeyedX(x, left, right) <= 720
  {
  }

  /** Away from the left wall the two keys cancel out, but at the wall the left move is
      clamped first, so holding both keys drifts the ship right to x = 10. */
  lemma BothKeysOrder(x: int)
    ensures 10 <= x <= 720 ==> KeyedX(x, true, true) == x
    ensures 0 <= x < 10 ==> KeyedX(x, true, true) == 10
  {
  }

  class Player {
    var x: int
    var y: int
    const width: nat := 80
    const height: nat := 60
    const speed: int := 5
    var healthPoints: int
    const healthBar: HealthBar
    const laser: PlayerLaser

    /** A new player at (x, y) with 10 health points, a full 200-pixel bar (20 per point) and a
        ready laser. */
    constructor (x: int, y: int, laserSize: Size)
      ensures this.x == x && this.y == y && healthPoints == 10
      ensures fresh(healthBar) && healthBar.initialHealth == 10 && healthBar.widthPerHp == 20
      ensures healthBar.barWidth == 200 && healthBar.colour == White
      ensures fresh(laser) && laser.View() == Flight(-100, -100, Ready)
      ensures laser.width == laserSize.w && laser.height == laserSize.h
    {
      this.x, this.y := x, y;
      healthPoints := 10;
      healthBar := new HealthBar(10, 20);
      laser := new PlayerLaser(laserSize);
    }

    function Box(): Rect
      reads this
    {
      Rect(x, y, width, height)
    }

    /** `move(x_dist)`: the rectangle is shifted by `x_dist` and then set to that x plus `x_dist`
        once more, clamped to the screen, so the ship moves twice the distance. */
    method Move(xDist: int)
      modifies this
      ensures x == ClampToScreen(old(x) + 2 * xDist)
      ensures 0 <= x <= 720
      ensures y == old(y) && healthPoints == old(healthPoints)
    {
      x := x + xDist;
      x := if x + xDist > 800 - 80 then 800 - 80 else if x + xDist < 0 then 0 else x + xDist;
    }

    /** `update`: the bar takes one step toward the current health and the laser moves. */
    method Update()
      modifies healthBar, laser
      ensures healthBar.barWidth == StepToward(old(healthBar.barWidth), healthPoints * healthBar.widthPerHp)
      ensures healthBar.colour == Tint(old(healthBar.barWidth), healthPoints * healthBar.widthPerHp)
      ensures laser.View() == PlayerLaserMoved(old(laser.View()))
    {
      healthBar.Update(healthPoints);
      laser.Move();
    }

    /** `check_input`: left, then right, then the laser is offered the x the ship has after moving. */
    method CheckInput(left: bool, right: bool, up: bool)
      modifies this, laser
      ensures x == KeyedX(old(x), left, right)
      ensures y == old(y) && healthPoints == old(healthPoints)
      ensures up && old(laser.state) == Ready ==> laser.View() == Flight(x + 31, 475, LaserState.Fire)
      ensures !(up && old(laser.state) == Ready) ==> laser.View() == old(laser.View())
    {
      if left {
        Move(-speed);
      }
      if right {
        Move(speed);
      }
      laser.CheckInput(up, x);
    }
  }
}
