/** The "SAVED" screen (saved_scene.py): shown for 1500 milliseconds after a save, then back to
    the pause menu. Drawing is not part of this model. */
module SavedScenes {
  import opened Scenes

  const Duration: int := 1500

  /** The scene's timer and its change flag. */
  datatype SavedView = SavedView(elapsedTime: int, changeScene: bool)

  /** `update(ms)`: time accumulates; reaching the duration raises the flag and restarts the timer. */
  function SavedTicked(v: SavedView, ms: int): SavedView
  {
    if v.elapsedTime + ms >= Duration then SavedView(0, true) else SavedView(v.elapsedTime + ms, v.changeScene)
  }

  function SavedTickedN(v: SavedView, ms: int, n: nat): SavedView
    decreases n
  {
    if n == 0 then v else SavedTicked(SavedTickedN(v, ms, n - 1), ms)
  }

  /** Frames of `ms` milliseconds keep the flag down while their total is under the duration. */
  lemma {:induction false} SavedWaits(ms: int, n: nat)
    requires ms >= 0 && n * ms < Duration
    ensures SavedTickedN(SavedView(0, false), ms, n) == SavedView(n * ms, false)
    decreases n
  {
    if n > 0 {
      SavedWaits(ms, n - 1);
    }
  }

  /** The message stays up for exactly as many frames as it takes to total 1500 ms: the flag
      rises on the first frame that reaches it. */
  lemma SavedShownUntilDuration(ms: int, n: nat)
    requires ms > 0 && n * ms < Duration <= (n + 1) * ms
    ensures !SavedTickedN(SavedView(0, false), ms, n).changeScene
    ensures SavedTickedN(SavedView(0, false), ms, n + 1) == SavedView(0, true)
  {
    SavedWaits(ms, n);
  }

  class SavedScene {
    const duration: int := 1500
    var elapsedTime: int
    var changeScene: bool

    constructor ()
      ensures elapsedTime == 0 && !changeScene
    {
      elapsedTime := 0;
      changeScene := false;
    }

    function View(): SavedView
      reads this
    {
      SavedView(elapsedTime, changeScene)
    }

    /** `update(ms)`: the timer stays below the duration, and the flag is raised but never lowered. */
    method Update(ms: int)
      modifies this
      ensures View() == SavedTicked(old(View()), ms)
      ensures elapsedTime < duration
      ensures old(elapsedTime) >= 0 && ms >= 0 ==> elapsedTime >= 0
      ensures old(changeScene) ==> changeScene
      ensures changeScene <==> old(changeScene) || old(elapsedTime) + ms >= duration
    {
      elapsedTime := elapsedTime + ms;
      if elapsedTime >= duration {
        changeScene := true;
        elapsedTime := 0;
      }
    }

    /** `next_scene`: back to the pause menu once the flag is up, lowering it; otherwise stay. */
    method NextScene() returns (next: Scene)
      modifies this
      ensures next == PauseScreen <==> old(changeScene)
      ensures next == PauseScreen || next == SavedScreen
      ensures !changeScene && elapsedTime == old(elapsedTime)
    {
      if changeScene {
        changeScene := false;
        return PauseScreen;
      } else {
        return SavedScreen;
      }
    }
  }
}
