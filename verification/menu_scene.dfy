/** The main menu (menu_scene.py): SPACE starts a new game, C shows the credits, I the
    instructions, and L loads the saved game. Drawing and music playback are not part of this
    model; the keys are flags and the save file is its text, or `None` when there is none. */
module MenuScenes {
  import opened SaveData
  import opened Scenes
  import opened Levels
  import opened GameScenes

  /** `next_scene`'s decision, in its priority order: SPACE, C, I, then L, which leaves the
      menu only when the save could be loaded; with no key the menu stays. */
  function MenuChoice(space: bool, c: bool, i: bool, l: bool, loaded: bool): Scene
  {
    if space then GamePlay
    else if c then CreditsScreen
    else if i then InstructionsScreen
    else if l && loaded then GamePlay
    else MenuScreen
  }

  lemma MenuChoicePriority(space: bool, c: bool, i: bool, l: bool, loaded: bool)
    ensures MenuChoice(space, c, i, l, loaded) == GamePlay <==> space || (!c && !i && l && loaded)
    ensures MenuChoice(space, c, i, l, loaded) == CreditsScreen <==> !space && c
    ensures MenuChoice(space, c, i, l, loaded) == InstructionsScreen <==> !space && !c && i
    ensures MenuChoice(space, c, i, l, loaded) == MenuScreen <==> !space && !c && !i && (!l || !loaded)
  {
  }

  /** What pressing L does with the save file as written. */
  datatype LoadOutcome =
    | StayInMenu
      /** an index outside the level list: `load_level` raises an `IndexError` that no
          handler catches */
    | Crash
      /** the game goes on with `levelIndex` stored and `levels[level]` played */
    | Resume(levelIndex: int, level: int, score: int)

  /** The load as written: a missing file or a line that is not an integer stays in the menu;
      then the index is stored and `levels[level_index]` is looked up with Python's indexing,
      where an index from -count to -1 counts from the end and anything else out of range
      raises. */
  function LoadAsWritten(saveFile: Option<string>, levelCount: nat): (r: LoadOutcome)
    ensures r.Resume? ==> 0 <= r.level < levelCount && (r.level == r.levelIndex || r.level == r.levelIndex + levelCount)
  {
    match saveFile
    case None => StayInMenu
    case Some(text) =>
      match ParseSave(text)
      case None => StayInMenu
      case Some(rec) =>
        if 0 <= rec.levelIndex < levelCount then Resume(rec.levelIndex, rec.levelIndex, rec.score)
        else if 0 <= rec.levelIndex + levelCount && rec.levelIndex < 0 then Resume(rec.levelIndex, levelCount + rec.levelIndex, rec.score)
        else Crash
  }

  /** The load the handlers evidently intend: a save resumes only at an index of an existing
      level; anything else stays in the menu. */
  function LoadChecked(saveFile: Option<string>, levelCount: nat): (r: Option<SaveRecord>)
    ensures r.Some? ==> 0 <= r.value.levelIndex < levelCount
  {
    match saveFile
    case None => None
    case Some(text) =>
      match ParseSave(text)
      case None => None
      case Some(rec) => if 0 <= rec.levelIndex < levelCount then Some(rec) else None
  }

  /** The checked load agrees with the load as written wherever that one resumes at the
      index it stores, and stays in the menu everywhere else. */
  lemma LoadCheckedAgrees(saveFile: Option<string>, levelCount: nat, rec: SaveRecord)
    ensures LoadChecked(saveFile, levelCount) == Some(rec)
        <==> LoadAsWritten(saveFile, levelCount) == Resume(rec.levelIndex, rec.levelIndex, rec.score)
    ensures LoadChecked(saveFile, levelCount) == None <==>
      match LoadAsWritten(saveFile, levelCount)
      case Resume(levelIndex, level, _) => levelIndex != level
      case _ => true
  {
  }

  /** A save the pause menu wrote for an existing level loads back as written. */
  lemma LoadReadsPauseSave(levelIndex: int, targetScore: int, levelCount: nat)
    requires 0 <= levelIndex < levelCount
    ensures LoadChecked(Some(SaveText(levelIndex, targetScore)), levelCount) == Some(SaveRecord(levelIndex, targetScore))
    ensures LoadAsWritten(Some(SaveText(levelIndex, targetScore)), levelCount) == Resume(levelIndex, levelIndex, targetScore)
  {
    SaveRoundTrip(levelIndex, targetScore);
  }

  /** As written, a save naming level 8 of a five-level game ends the program, and one naming
      index -1 resumes on the last level while storing -1, from which the next level is the
      first. */
  lemma LoadAsWrittenOutOfRange()
    ensures LoadAsWritten(Some(SaveText(7, 0)), 5) == Crash
    ensures LoadAsWritten(Some(SaveText(-1, 0)), 5) == Resume(-1, 4, 0)
    ensures LoadChecked(Some(SaveText(7, 0)), 5) == None && LoadChecked(Some(SaveText(-1, 0)), 5) == None
  {
    SaveRoundTrip(7, 0);
    SaveRoundTrip(-1, 0);
  }

  class MenuScene {
    var musicStarted: bool

    constructor ()
      ensures !musicStarted
    {
      musicStarted := false;
    }

    /** `update`: the menu music is started once; afterwards nothing happens. */
    method Update()
      modifies this
      ensures musicStarted
      ensures old(musicStarted) ==> unchanged(this)
    {
      if !musicStarted {
        musicStarted := true;
      }
    }

    /** `next_scene`, with the keys as flags and `saveFile` the save file's text: the choice of
        `MenuChoice`. SPACE resets the game scene; L loads the save with `LoadChecked`,
        setting the level index and both scores and loading that level while the player and
        the other lists keep their state, and leaves the game scene untouched when the save
        cannot be loaded; C and I change nothing. Only SPACE touches the first level's spawn
        counters. */
    method NextScene(space: bool, c: bool, i: bool, l: bool, saveFile: Option<string>, game: GameScene) returns (next: Scene)
      requires game.Valid()
      modifies this, game, game.levels[0], game.score, set lv | lv in game.levels :: lv.aliens
      ensures game.Valid()
      ensures next == MenuChoice(space, c, i, l, LoadChecked(saveFile, |game.levels|).Some?)
      ensures space ==>
        && !musicStarted && game.levelIndex == 0 && game.levelAliens == game.levels[0].aliens
        && fresh(game.player) && game.player.x == 360 && game.player.y == 465 && game.player.healthPoints == 10
        && game.levelAliens.items == [] && game.levels[0].Timer() == SpawnTimer(0, 0)
        && game.score.displayedScore == 0 && game.score.targetScore == 0
        && fresh(game.boss) && SpawnedFor(game.boss, game.levels[0])
      ensures !space ==> unchanged(game.levels[0])
      ensures !space && (c || i) ==> unchanged(this) && unchanged(game, game.score) && unchanged(set lv | lv in game.levels :: lv.aliens)
      ensures !space && !c && !i && l ==> !musicStarted
      ensures !space && !c && !i && l && LoadChecked(saveFile, |game.levels|).Some? ==>
        var rec := LoadChecked(saveFile, |game.levels|).value;
        && game.levelIndex == rec.levelIndex
        && game.score.displayedScore == rec.score && game.score.targetScore == rec.score
        && game.player == old(game.player) && game.levelAliens == old(game.levelAliens)
        && fresh(game.boss) && SpawnedFor(game.boss, game.levels[rec.levelIndex])
        && game.levels[rec.levelIndex].aliens.items == []
        && (game.levelAliens != game.levels[rec.levelIndex].aliens ==> game.levelAliens.items == old(game.levelAliens.items))
        && forall lv | lv in game.levels && lv.aliens != game.levels[rec.levelIndex].aliens :: lv.aliens.items == old(lv.aliens.items)
      ensures !space && !c && !i && (!l || LoadChecked(saveFile, |game.levels|).None?) ==>
        unchanged(game, game.score) && unchanged(set lv | lv in game.levels :: lv.aliens)
      ensures !space && !c && !i && !l ==> unchanged(this)
    {
      if space {
        game.Reset();
        musicStarted := false;
        next := GamePlay;
      } else if c {
        next := CreditsScreen;
      } else if i {
        next := InstructionsScreen;
      } else if l {
        musicStarted := false;
        var loaded := LoadChecked(saveFile, |game.levels|);
        if loaded.Some? {
          ResumeGame(loaded.value, game);
          next := GamePlay;
        } else {
          next := MenuScreen;
        }
      } else {
        next := MenuScreen;
      }
    }

    /** The successful load of `next_scene`: the saved index becomes the game's level index,
        both scores become the saved score, and that level is loaded; the player and the list
        in play are kept, and every list but the loaded level's keeps its aliens. */
    method ResumeGame(save: SaveRecord, game: GameScene)
      requires game.Valid() && 0 <= save.levelIndex < |game.levels|
      modifies game, game.score, set lv | lv in game.levels :: lv.aliens
      ensures game.Valid() && game.levelIndex == save.levelIndex
      ensures game.score.displayedScore == save.score && game.score.targetScore == save.score
      ensures game.player == old(game.player) && game.levelAliens == old(game.levelAliens)
      ensures fresh(game.boss) && SpawnedFor(game.boss, game.levels[save.levelIndex])
      ensures game.levels[save.levelIndex].aliens.items == []
      ensures game.levelAliens != game.levels[save.levelIndex].aliens ==> game.levelAliens.items == old(game.levelAliens.items)
      ensures forall lv | lv in game.levels && lv.aliens != game.levels[save.levelIndex].aliens :: lv.aliens.items == old(lv.aliens.items)
    {
      game.levelIndex := save.levelIndex;
      game.score.displayedScore := save.score;
      game.score.targetScore := save.score;
      game.LoadLevel();
    }
  }
}
