/** An alien (alien.py): it drifts diagonally, bounces off the side edges, wraps from the
    bottom of the screen back to the top, and may fire its laser on every move. Drawing and
    the hit-box debug flag are not part of this model. */
module Aliens {
  import opened Geometry
  import opened Lasers

  /** An alien's position and horizontal direction (1 = right, -1 = left). */
  datatype Motion = Motion(x: int, y: int, direction: int)

  /** `Alien.move` on the alien's position and direction: two pixels sideways and one down;
      the direction flips when the new x is at or past either edge (x >= 730 or x <= 0), and
      y wraps to 0 when it reaches 600. */
  function AlienMoved(m: Motion): Motion
  {
    var x := m.x + 2 * m.direction;
    var y := m.y + 1;
    Motion(x, if y >= 600 then 0 else y, if x >= 730 || x <= 0 then -m.direction else m.direction)
  }

  function AlienMovedN(m: Motion, n: nat): Motion
    decreases n
  {
    if n == 0 then m else AlienMoved(AlienMovedN(m, n - 1))
  }

  /** Where an alien can be: within one pixel of the side edges, heading back in when at an
      edge, and on one of the 600 rows of the screen. */
  predicate InPlay(m: Motion)
  {
    && -1 <= m.x <= 731
    && (m.direction == 1 || m.direction == -1)
    && (m.x >= 730 ==> m.direction == -1)
    && (m.x <= 0 ==> m.direction == 1)
    && 0 <= m.y < 600
  }

  /** One move keeps an alien in play and moves it one row down, cyclically. */
  lemma AlienMoveStaysInPlay(m: Motion)
    requires InPlay(m)
    ensures InPlay(AlienMoved(m))
    ensures AlienMoved(m).y == (m.y + 1) % 600
  {
  }

  /** Aliens never leave play: after any number of moves an alien is still in play, and its
      row has advanced by the number of moves, modulo the 600 rows. */
  lemma {:induction false} AliensNeverLeave(m: Motion, n: nat)
    requires InPlay(m)
    ensures InPlay(AlienMovedN(m, n))
    ensures AlienMovedN(m, n).y == (m.y + n) % 600
    decreases n
  {
    if n > 0 {
      AliensNeverLeave(m, n - 1);
      AlienMoveStaysInPlay(AlienMovedN(m, n - 1));
    }
  }

  class Alien {
    var x: int
    var y: int
    const width: nat
    const height: nat
    const speed: int := 2
    var direction: int
    const laser: EnemyLaser

    /** A new alien at (x, y) heading in `direction` (the value of `random.choice([1, -1])`),
        with a laser that fires on 1 draw in 100. */
    constructor (x: int, y: int, direction: int, imageSize: Size, laserImageSize: Size)
      requires direction == 1 || direction == -1
      ensures this.x == x && this.y == y && this.direction == direction
      ensures width == imageSize.w && height == imageSize.h
      ensures fresh(laser) && laser.fireAbove == 99 && laser.View() == Flight(0, 0, Ready)
      ensures laser.width == laserImageSize.w && laser.height == laserImageSize.h
    {
      this.x, this.y := x, y;
      width, height := imageSize.w, imageSize.h;
      this.direction := direction;
      laser := new EnemyLaser(1, laserImageSize, false);
    }

    function Box(): Rect
      reads this
    {
      Rect(x, y, width, height)
    }

    function View(): Motion
      reads this
    {
      Motion(x, y, direction)
    }

    /** `move`, with `draw` the laser's `randint(1, 100)`: one step of `AlienMoved`, then the
        laser is offered a shot from the new position plus (25, 60) and moves. */
    method Move(draw: int)
      requires 1 <= draw <= 100
      modifies this, laser
      ensures View() == AlienMoved(old(View()))
      ensures laser.View() == EnemyLaserMoved(EnemyLaserFired(old(laser.View()), laser.fireAbove, x + 25, y + 60, draw))
    {
      x := x + speed * direction;
      y := y + 1;
      if x >= 730 || x <= 0 {
        direction := direction * -1;
      }
      if y >= 600 {
        y := 0;
      }
      laser.Fire(x, y, 25, 60, draw);
      laser.Move();
    }

    /** `check_collision`: whether the alien's rectangle overlaps `other`; nothing changes. */
    method CheckCollision(other: Rect) returns (r: bool)
      ensures r == Overlaps(Box(), other)
    {
      r := Overlaps(Box(), other);
    }
  }

  /** A Python list of aliens. Lists are objects in the source, and two scene fields can name
      the same one, so the model keeps that identity. */
  class AlienList {
    var items: seq<Alien>

    constructor ()
      ensures items == []
    {
      items := [];
    }
  }
}
