/** The two projectiles (lasers.py). Each is a two-state machine, `Ready` or `Fire`: it leaves
    its owner when fired, travels a fixed distance per move, and is ready again once it has
    left the screen or has hit something. Sounds and drawing are not part of this model. */
module Lasers {
  import opened Geometry
  import opened Draws

  datatype LaserState = Ready | Fire

  /** A laser's position and state. */
  datatype Flight = Flight(x: int, y: int, state: LaserState)

  /** `PlayerLaser.move`: in flight the laser climbs 9 pixels and is ready again once at or
      above y = -50; a ready laser is parked off-screen at (-100, -100). */
  function PlayerLaserMoved(f: Flight): Flight
  {
    match f.state
    case Fire => Flight(f.x, f.y - 9, if f.y - 9 <= -50 then Ready else Fire)
    case Ready => Flight(-100, -100, Ready)
  }

  function PlayerLaserMovedN(f: Flight, n: nat): Flight
    decreases n
  {
    if n == 0 then f else PlayerLaserMoved(PlayerLaserMovedN(f, n - 1))
  }

  /** While it has not reached y = -50 a player shot climbs 9 pixels per move and stays in flight. */
  lemma {:induction false} PlayerLaserClimbs(f: Flight, n: nat)
    requires f.state == Fire && f.y - 9 * n > -50
    ensures PlayerLaserMovedN(f, n) == Flight(f.x, f.y - 9 * n, Fire)
    decreases n
  {
    if n > 0 {
      PlayerLaserClimbs(f, n - 1);
    }
  }

  /** A shot fired from the ship (y = 475) is in flight for 58 moves and ready again on the 59th. */
  lemma PlayerShotLifetime(x: int)
    ensures PlayerLaserMovedN(Flight(x, 475, Fire), 58) == Flight(x, -47, Fire)
    ensures PlayerLaserMovedN(Flight(x, 475, Fire), 59) == Flight(x, -56, Ready)
  {
    PlayerLaserClimbs(Flight(x, 475, Fire), 58);
  }

  /** `EnemyLaser.move`: in flight the laser falls 5 pixels and is ready again once at or below
      y = 650; a ready laser is parked off-screen at (-100, -100). */
  function EnemyLaserMoved(f: Flight): Flight
  {
    match f.state
    case Fire => Flight(f.x, f.y + 5, if f.y + 5 >= 650 then Ready else Fire)
    case Ready => Flight(-100, -100, Ready)
  }

  function EnemyLaserMovedN(f: Flight, n: nat): Flight
    decreases n
  {
    if n == 0 then f else EnemyLaserMoved(EnemyLaserMovedN(f, n - 1))
  }

  /** While it has not reached y = 650 an enemy shot falls 5 pixels per move and stays in flight. */
  lemma {:induction false} EnemyLaserFalls(f: Flight, n: nat)
    requires f.state == Fire && f.y + 5 * n < 650
    ensures EnemyLaserMovedN(f, n) == Flight(f.x, f.y + 5 * n, Fire)
    decreases n
  {
    if n > 0 {
      EnemyLaserFalls(f, n - 1);
    }
  }

  /** A boss shot starts at the boss's y (30) plus 70: it is in flight for 109 moves and ready
      again on the 110th. */
  lemma BossShotLifetime(x: int)
    ensures EnemyLaserMovedN(Flight(x, 100, Fire), 109) == Flight(x, 645, Fire)
    ensures EnemyLaserMovedN(Flight(x, 100, Fire), 110) == Flight(x, 650, Ready)
  {
    EnemyLaserFalls(Flight(x, 100, Fire), 109);
  }

  /** `EnemyLaser.fire` on the laser's position and state: a ready laser fires from `(atX, atY)`
      when `draw` exceeds `fireAbove`; otherwise nothing changes. */
  function EnemyLaserFired(f: Flight, fireAbove: int, atX: int, atY: int, draw: int): Flight
  {
    if f.state == Ready && draw > fireAbove then Flight(atX, atY, Fire) else f
  }

  /** The enemy fire gate `randint(1, 100) > 100 - shoot_chance` passes on exactly
      `shoot_chance` of the 100 possible draws, for every chance from 0 to 100. */
  lemma EnemyGatePassesShootChanceDraws(shootChance: int)
    requires 0 <= shootChance <= 100
    ensures CountAbove(100 - shootChance, 100) == shootChance
  {
    CountAboveClosedForm(100 - shootChance, 100);
  }

  class PlayerLaser {
    var x: int
    var y: int
    const width: nat
    const height: nat
    const speed: int := 9
    var state: LaserState

    /** A new laser is ready and parked off-screen; its size is that of its image. */
    constructor (imageSize: Size)
      ensures x == -100 && y == -100 && width == imageSize.w && height == imageSize.h
      ensures state == Ready
    {
      width, height := imageSize.w, imageSize.h;
      x, y := -100, -100;
      state := Ready;
    }

    function Box(): Rect
      reads this
    {
      Rect(x, y, width, height)
    }

    function View(): Flight
      reads this
    {
      Flight(x, y, state)
    }

    /** `check_input`: fires from `player_x` only when the up key is held and the laser is ready. */
    method CheckInput(upHeld: bool, playerX: int)
      modifies this
      ensures upHeld && old(state) == Ready ==> View() == Flight(playerX + 31, 475, LaserState.Fire)
      ensures !(upHeld && old(state) == Ready) ==> View() == old(View())
    {
      if upHeld && state == Ready {
        Fire(playerX);
      }
    }

    /** `fire`: the laser leaves the ship's centre at y = 475. */
    method Fire(playerX: int)
      modifies this
      ensures View() == Flight(playerX + 31, 475, LaserState.Fire)
    {
      state := LaserState.Fire;
      y := 475;
      x := playerX + 31;
    }

    /** `move`: one step of `PlayerLaserMoved`. */
    method Move()
      modifies this
      ensures View() == PlayerLaserMoved(old(View()))
    {
      if state == LaserState.Fire {
        y := y - speed;
        if y <= -50 {
          state := Ready;
        }
      } else if state == Ready {
        x := -100;
        y := -100;
      }
    }

    /** `hit`: true exactly when the laser's rectangle overlaps `other`, whatever the laser's
        state; a hit makes the laser ready but does not move it. */
    method Hit(other: Rect) returns (hit: bool)
      modifies this
      ensures hit == Overlaps(old(Box()), other)
      ensures x == old(x) && y == old(y)
      ensures state == if hit then Ready else old(state)
    {
      if Overlaps(Box(), other) {
        state := Ready;
        return true;
      } else {
        return false;
      }
    }
  }

  class EnemyLaser {
    var x: int
    var y: int
    const width: nat
    const height: nat
    const speed: int := 5
    var state: LaserState
    /** The source keeps `100 - shoot_chance` in its `shoot_chance` attribute: a draw above it fires. */
    const fireAbove: int

    /** A new enemy laser is ready. With the custom hit box it is an 8 x 60 rectangle parked at
        (-100, -100); otherwise it is its image's rectangle at (0, 0). */
    constructor (shootChance: int, imageSize: Size, useCustomHitBox: bool)
      ensures fireAbove == 100 - shootChance && state == Ready
      ensures useCustomHitBox ==> x == -100 && y == -100 && width == 8 && height == 60
      ensures !useCustomHitBox ==> x == 0 && y == 0 && width == imageSize.w && height == imageSize.h
    {
      if useCustomHitBox {
        x, y, width, height := -100, -100, 8, 60;
      } else {
        x, y, width, height := 0, 0, imageSize.w, imageSize.h;
      }
      state := Ready;
      fireAbove := 100 - shootChance;
    }

    function Box(): Rect
      reads this
    {
      Rect(x, y, width, height)
    }

    function View(): Flight
      reads this
    {
      Flight(x, y, state)
    }

    /** `fire`: with `draw` the value of `randint(1, 100)`, a ready laser fires when the draw
        exceeds `fireAbove` and is placed at the enemy's position plus the adjustment; a laser
        already in flight is left alone. */
    method Fire(enemyX: int, enemyY: int, xAdjustment: int, yAdjustment: int, draw: int)
      requires 1 <= draw <= 100
      modifies this
      ensures old(state) == Ready && draw > fireAbove ==>
        View() == Flight(enemyX + xAdjustment, enemyY + yAdjustment, LaserState.Fire)
      ensures !(old(state) == Ready && draw > fireAbove) ==> View() == old(View())
      ensures View() == EnemyLaserFired(old(View()), fireAbove, enemyX + xAdjustment, enemyY + yAdjustment, draw)
    {
      if state == Ready {
        if draw > fireAbove {
          x := enemyX + xAdjustment;
          y := enemyY + yAdjustment;
          state := LaserState.Fire;
        }
      }
    }

    /** `move`: one step of `EnemyLaserMoved`. */
    method Move()
      modifies this
      ensures View() == EnemyLaserMoved(old(View()))
    {
      if state == LaserState.Fire {
        y := y + speed;
        if y >= 650 {
          state := Ready;
        }
      } else if state == Ready {
        x := -100;
        y := -100;
      }
    }

    /** `hit`: true exactly when the laser's rectangle overlaps `other`; a hit makes the laser
        ready but does not move it. */
    method Hit(other: Rect) returns (hit: bool)
      modifies this
      ensures hit == Overlaps(old(Box()), other)
      ensures x == old(x) && y == old(y)
      ensures state == if hit then Ready else old(state)
    {
      if Overlaps(Box(), other) {
        state := Ready;
        return true;
      } else {
        return false;
      }
    }
  }

  /** Because `hit` leaves the rectangle where it was, asking a second time without an
      intervening move gives the same answer as the first time. */
  method HitTwice(laser: PlayerLaser, other: Rect) returns (first: bool, second: bool)
    modifies laser
    ensures first == second == Overlaps(old(laser.Box()), other)
  {
    first := laser.Hit(other);
    second := laser.Hit(other);
  }
}
