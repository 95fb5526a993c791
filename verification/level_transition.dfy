/** The animation between two levels (level_transition_scene.py): the old and the new
    background scroll down together, six pixels per update, while the player's ship flies up
    off the screen and comes back in from the bottom; the scene hands back to the game once
    the new background is fully in place. Drawing and the background images are not part of
    this model. */
module LevelTransitions {
  import opened Scenes

  /** `transition_phase`: "up", "down" or "done". */
  datatype Phase = Up | Down | Done

  /** The animated state: both background offsets, the ship's y and the phase. */
  datatype TransitionView = TransitionView(backgroundY: int, newBackgroundY: int, shipY: int, phase: Phase)

  /** The state a new scene starts in and every exit restores. */
  const Start: TransitionView := TransitionView(0, -600, 465, Up)

  /** `move_ship`: going up the ship climbs 10 pixels and reappears at y = 600 going down once
      it is above y = -80; going down it descends 5 pixels and stops at 465. */
  function ShipMoved(v: TransitionView): TransitionView
  {
    match v.phase
    case Up =>
      if v.shipY - 10 < -80 then v.(shipY := 600, phase := Down) else v.(shipY := v.shipY - 10)
    case Down =>
      if v.shipY - 5 <= 465 then v.(shipY := 465, phase := Done) else v.(shipY := v.shipY - 5)
    case Done => v
  }

  /** `update`: both backgrounds scroll six pixels down, then the ship moves. */
  function Advanced(v: TransitionView): TransitionView
  {
    ShipMoved(v.(backgroundY := v.backgroundY + 6, newBackgroundY := v.newBackgroundY + 6))
  }

  function AdvancedN(v: TransitionView, n: nat): TransitionView
    decreases n
  {
    if n == 0 then v else Advanced(AdvancedN(v, n - 1))
  }

  function Rank(p: Phase): nat
  {
    match p
    case Up => 0
    case Down => 1
    case Done => 2
  }

  /** The phase only advances, up before down before done, and the ship only ever jumps (from
      the top to the bottom of the screen) when the phase changes from up to down. */
  lemma PhaseOnlyAdvances(v: TransitionView)
    ensures Rank(v.phase) <= Rank(Advanced(v).phase)
    ensures Advanced(v).phase == v.phase ==> Advanced(v).shipY <= v.shipY
  {
  }

  /** The two backgrounds move together: after any number of updates each has moved six
      pixels per update, so they stay stacked one screen (600 pixels) apart. */
  lemma {:induction false} BackgroundsScrollTogether(v: TransitionView, n: nat)
    ensures AdvancedN(v, n).backgroundY == v.backgroundY + 6 * n
    ensures AdvancedN(v, n).newBackgroundY == v.newBackgroundY + 6 * n
    ensures AdvancedN(v, n).backgroundY - AdvancedN(v, n).newBackgroundY == v.backgroundY - v.newBackgroundY
    decreases n
  {
    if n > 0 {
      BackgroundsScrollTogether(v, n - 1);
    }
  }

  /** From the start the scene leaves after exactly 100 updates: the new background reaches
      y = 0 then and not before. */
  lemma TransitionLastsHundredUpdates(n: nat)
    ensures AdvancedN(Start, n).newBackgroundY >= 0 <==> n >= 100
  {
    BackgroundsScrollTogether(Start, n);
  }

  /** Climbing: the ship rises 10 pixels per update while it stays at or below y = -80. */
  lemma {:induction false} ShipClimbs(v: TransitionView, n: nat)
    requires v.phase == Up && v.shipY - 10 * n >= -80
    ensures AdvancedN(v, n) == TransitionView(v.backgroundY + 6 * n, v.newBackgroundY + 6 * n, v.shipY - 10 * n, Up)
    decreases n
  {
    if n > 0 {
      ShipClimbs(v, n - 1);
    }
  }

  /** Descending: the ship falls 5 pixels per update while it stays below y = 465. */
  lemma {:induction false} ShipDescends(v: TransitionView, n: nat)
    requires v.phase == Down && v.shipY - 5 * n > 465
    ensures AdvancedN(v, n) == TransitionView(v.backgroundY + 6 * n, v.newBackgroundY + 6 * n, v.shipY - 5 * n, Down)
    decreases n
  {
    if n > 0 {
      ShipDescends(v, n - 1);
    }
  }

  /** Once done the ship stays where it is; only the backgrounds move. */
  lemma {:induction false} ShipRests(v: TransitionView, n: nat)
    requires v.phase == Done
    ensures AdvancedN(v, n) == TransitionView(v.backgroundY + 6 * n, v.newBackgroundY + 6 * n, v.shipY, Done)
    decreases n
  {
    if n > 0 {
      ShipRests(v, n - 1);
    }
  }

  lemma {:induction false} AdvancedNSplit(v: TransitionView, a: nat, b: nat)
    ensures AdvancedN(v, a + b) == AdvancedN(AdvancedN(v, a), b)
    decreases b
  {
    if b > 0 {
      AdvancedNSplit(v, a, b - 1);
    }
  }

  /** The whole animation: the ship leaves the top on update 55, is back in place on update 82,
      and waits there until the scene ends after update 100. */
  lemma TransitionTimeline()
    ensures AdvancedN(Start, 54) == TransitionView(324, -276, -75, Up)
    ensures AdvancedN(Start, 55) == TransitionView(330, -270, 600, Down)
    ensures AdvancedN(Start, 81) == TransitionView(486, -114, 470, Down)
    ensures AdvancedN(Start, 82) == TransitionView(492, -108, 465, Done)
    ensures AdvancedN(Start, 100) == TransitionView(600, 0, 465, Done)
  {
    ShipClimbs(Start, 54);
    var top := AdvancedN(Start, 55);
    ShipDescends(top, 26);
    AdvancedNSplit(Start, 55, 26);
    var landed := AdvancedN(Start, 82);
    ShipRests(landed, 18);
    AdvancedNSplit(Start, 82, 18);
  }

  class LevelTransition {
    var backgroundY: int
    var newBackgroundY: int
    var shipY: int
    var phase: Phase
    /** The player's x, copied in by the game scene to draw the ship (None until then). */
    var playerX: int
    /** The number of the level being entered (None until the game scene sets it). */
    var levelNumber: int

    constructor ()
      ensures View() == Start && playerX == 0 && levelNumber == 0
    {
      backgroundY, newBackgroundY := 0, -600;
      shipY := 465;
      phase := Up;
      playerX, levelNumber := 0, 0;
    }

    function View(): TransitionView
      reads this
    {
      TransitionView(backgroundY, newBackgroundY, shipY, phase)
    }

    /** `update`: one step of the animation. */
    method Update()
      modifies this
      ensures View() == Advanced(old(View()))
      ensures newBackgroundY - backgroundY == old(newBackgroundY - backgroundY)
      ensures playerX == old(playerX) && levelNumber == old(levelNumber)
    {
      backgroundY := backgroundY + 6;
      newBackgroundY := newBackgroundY + 6;
      MoveShip();
    }

    /** `move_ship`: the ship's part of an update. */
    method MoveShip()
      modifies this
      ensures View() == ShipMoved(old(View()))
      ensures Rank(old(phase)) <= Rank(phase)
      ensures playerX == old(playerX) && levelNumber == old(levelNumber)
    {
      if phase == Up {
        shipY := shipY - 10;
        if shipY < -80 {
          shipY := 600;
          phase := Down;
        }
      } else if phase == Down {
        shipY := shipY - 5;
        if shipY <= 465 {
          shipY := 465;
          phase := Done;
        }
      }
    }

    /** `next_scene`: once the new background is in place, back to the game with the animation
        restored to its start and the level number advanced; otherwise stay, unchanged. */
    method NextScene() returns (next: Scene)
      modifies this
      ensures next == GamePlay <==> old(newBackgroundY) >= 0
      ensures next == GamePlay || next == Transition
      ensures next == GamePlay ==> View() == Start && levelNumber == old(levelNumber) + 1
      ensures next == Transition ==> View() == old(View()) && levelNumber == old(levelNumber)
      ensures playerX == old(playerX)
    {
      if newBackgroundY >= 0 {
        backgroundY, newBackgroundY := 0, -600;
        shipY := 465;
        phase := Up;
        levelNumber := levelNumber + 1;
        return GamePlay;
      } else {
        return Transition;
      }
    }
  }
}
