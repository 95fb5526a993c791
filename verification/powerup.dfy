/** The healing power-up (powerup.py): while ready it may spawn at a random x above the
    screen, then falls 2 pixels per move until it is collected or leaves the bottom. */
module PowerUps {
  import opened Geometry
  import opened Draws

  datatype PowerUpState = Ready | Spawned

  /** What `collect` returns: `True` when collected, `None` when spawned but not touched (the
      source falls off the end of the method), `False` when not spawned. Only `True` is truthy. */
  datatype CollectResult = Collected | NoneReturned | FalseReturned
  {
    predicate Truthy()
    {
      Collected?
    }
  }

  /** The power-up's position and state. */
  datatype Drop = Drop(x: int, y: int, state: PowerUpState)

  /** `PowerUp.move`: a spawned power-up falls 2 pixels; at or below y = 600 it is ready,
      whatever its state was. */
  function PowerUpMoved(d: Drop): Drop
  {
    var y := if d.state == Spawned then d.y + 2 else d.y;
    Drop(d.x, y, if y >= 600 then Ready else d.state)
  }

  function PowerUpMovedN(d: Drop, n: nat): Drop
    decreases n
  {
    if n == 0 then d else PowerUpMoved(PowerUpMovedN(d, n - 1))
  }

  /** Above y = 600 a spawned power-up falls 2 pixels per move and stays spawned. */
  lemma {:induction false} PowerUpFalls(d: Drop, n: nat)
    requires d.state == Spawned && d.y + 2 * n < 600
    ensures PowerUpMovedN(d, n) == Drop(d.x, d.y + 2 * n, Spawned)
    decreases n
  {
    if n > 0 {
      PowerUpFalls(d, n - 1);
    }
  }

  /** A power-up spawned at y = -45 and never collected is on screen for 322 moves and
      ready again on the 323rd. */
  lemma UncollectedPowerUpLifetime(x: int)
    ensures PowerUpMovedN(Drop(x, -45, Spawned), 322) == Drop(x, 599, Spawned)
    ensures PowerUpMovedN(Drop(x, -45, Spawned), 323) == Drop(x, 601, Ready)
  {
    PowerUpFalls(Drop(x, -45, Spawned), 322);
  }

  /** The spawn gate `randint(1, 1000) > 995` passes on 5 of the 1000 possible draws. */
  lemma SpawnGatePassesFiveDraws()
    ensures CountAbove(995, 1000) == 5
  {
    CountAboveClosedForm(995, 1000);
  }

  class PowerUp {
    var x: int
    var y: int
    const width: nat
    const height: nat
    const speed: int := 2
    var state: PowerUpState
    const spawnChance: int := 995

    /** A new power-up is ready, with its image's rectangle at (0, 0). */
    constructor (imageSize: Size)
      ensures x == 0 && y == 0 && width == imageSize.w && height == imageSize.h && state == Ready
    {
      x, y := 0, 0;
      width, height := imageSize.w, imageSize.h;
      state := Ready;
    }

    function Box(): Rect
      reads this
    {
      Rect(x, y, width, height)
    }

    function View(): Drop
      reads this
    {
      Drop(x, y, state)
    }

    /** `spawn`, with `draw` the value of `randint(1, 1000)` and `spawnX` that of
        `randint(0, 755)`: a ready power-up spawns at (`spawnX`, -45) when the draw exceeds
        995; otherwise nothing changes. */
    method Spawn(draw: int, spawnX: int)
      requires 1 <= draw <= 1000 && 0 <= spawnX <= 755
      modifies this
      ensures old(state) == Ready && draw > 995 ==> View() == Drop(spawnX, -45, Spawned)
      ensures !(old(state) == Ready && draw > 995) ==> View() == old(View())
    {
      if state == Ready {
        if draw > spawnChance {
          x := spawnX;
          y := -45;
          state := Spawned;
        }
      }
    }

    /** `move`: one step of `PowerUpMoved`. */
    method Move()
      modifies this
      ensures View() == PowerUpMoved(old(View()))
    {
      if state == Spawned {
        y := y + speed;
      }
      if y >= 600 {
        state := Ready;
      }
    }

    /** `collect`: truthy only for a spawned power-up overlapping `other`, which it makes ready;
        the power-up never moves. */
    method Collect(other: Rect) returns (r: CollectResult)
      modifies this
      ensures old(state) == Ready ==> r == FalseReturned && state == Ready
      ensures old(state) == Spawned ==>
        r == (if Overlaps(old(Box()), other) then Collected else NoneReturned)
      ensures old(state) == Spawned ==> state == if r.Truthy() then Ready else Spawned
      ensures x == old(x) && y == old(y)
    {
      if state == Spawned {
        if Overlaps(Box(), other) {
          state := Ready;
          return Collected;
        }
        return NoneReturned;
      } else {
        return FalseReturned;
      }
    }
  }
}
