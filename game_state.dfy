/** The screens and game-flow states of WorldKeeper (src/resources/game_state.rs). */
module GameStates {

  /** The five states of the game flow. */
  datatype GameState = MainMenu | NewWorldkeeper | InGame | Paused | GameOver

  /** The `#[default]` variant: the state the state machine starts in. */
  function Default(): (s: GameState)
    ensures s == MainMenu
  {
    MainMenu
  }

  /** `allows_ui_interaction`: the states in which menus and screens accept UI input. */
  predicate AllowsUiInteraction(s: GameState)
  {
    match s
    case MainMenu | NewWorldkeeper | Paused => true
    case InGame | GameOver => false
  }

  /** `is_gameplay`: the states of active play. */
  predicate IsGameplay(s: GameState)
  {
    match s
    case InGame => true
    case MainMenu | NewWorldkeeper | Paused | GameOver => false
  }

  lemma AllowsUiInteractionExactly(s: GameState)
    ensures AllowsUiInteraction(s) <==> s == MainMenu || s == NewWorldkeeper || s == Paused
  {
  }

  lemma IsGameplayExactly(s: GameState)
    ensures IsGameplay(s) <==> s == InGame
  {
  }

  /** No state is both interactive UI and active gameplay; GameOver is neither. */
  lemma UiAndGameplayDisjoint(s: GameState)
    ensures !(AllowsUiInteraction(s) && IsGameplay(s))
    ensures s == GameOver ==> !AllowsUiInteraction(s) && !IsGameplay(s)
  {
  }
}
