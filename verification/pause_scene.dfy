/** The pause menu (pause_scene.py): R returns to the game, M to the main menu, S saves the
    game and shows the "SAVED" screen. Drawing and music playback are not part of this model;
    the keys are flags and the save file is the text the scene writes. */
module PauseScenes {
  import opened SaveData
  import opened Scenes
  import opened GameScenes

  /** `next_scene`'s decision, in its priority order: R, then M, then S, else stay. */
  function PauseChoice(r: bool, m: bool, s: bool): Scene
  {
    if r then GamePlay else if m then MenuScreen else if s then SavedScreen else PauseScreen
  }

  /** Each outcome happens exactly in its own case, and the pause menu only ever leads back to
      the game, to the main menu or to the "SAVED" screen. */
  lemma PauseChoicePriority(r: bool, m: bool, s: bool)
    ensures PauseChoice(r, m, s) == GamePlay <==> r
    ensures PauseChoice(r, m, s) == MenuScreen <==> !r && m
    ensures PauseChoice(r, m, s) == SavedScreen <==> !r && !m && s
    ensures PauseChoice(r, m, s) == PauseScreen <==> !r && !m && !s
  {
  }

  class PauseScene {
    var musicStarted: bool

    constructor ()
      ensures !musicStarted
    {
      musicStarted := false;
    }

    /** `update`: the menu music is started once; afterwards nothing happens. */
    method Update()
      modifies this
      ensures musicStarted
      ensures old(musicStarted) ==> unchanged(this)
    {
      if !musicStarted {
        musicStarted := true;
      }
    }

    /** `next_scene`, with the R, M and S keys as flags: the choice of `PauseChoice`. Every way
        out lowers the music flag; staying changes nothing. Saving writes the level index and
        the target score (not the displayed one) as `SaveText`, and `written` is that text. */
    method NextScene(r: bool, m: bool, s: bool, game: GameScene) returns (next: Scene, written: Option<string>)
      modifies this
      ensures next == PauseChoice(r, m, s)
      ensures next != PauseScreen ==> !musicStarted
      ensures next == PauseScreen ==> musicStarted == old(musicStarted)
      ensures written == if next == SavedScreen then Some(SaveText(game.levelIndex, game.score.targetScore)) else None
    {
      written := None;
      if r {
        musicStarted := false;
        next := GamePlay;
      } else if m {
        musicStarted := false;
        next := MenuScreen;
      } else if s {
        musicStarted := false;
        var currentLevel := IntToString(game.levelIndex);
        var score := IntToString(game.score.targetScore);
        written := Some(currentLevel + "\n" + score);
        next := SavedScreen;
      } else {
        next := PauseScreen;
      }
    }
  }
}
