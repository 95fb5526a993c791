/** The scenes of the game. Every scene's `next_scene` returns the scene to show on the next
    frame, itself included; the model names that scene instead of returning the object. */
module Scenes {
  datatype Scene =
    | MenuScreen
    | GamePlay
    | PauseScreen
    | SavedScreen
    | Transition
    | GameOverScreen
    | WinScreen
    | CreditsScreen
    | InstructionsScreen
}
