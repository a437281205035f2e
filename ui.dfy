/** The UI components of the main menu (src/components/ui.rs). */
module Ui {

  /** What a menu button does when it is pressed. */
  datatype MenuAction = NewWorldkeeper | StartNewGame | Settings | Quit

  /** The component that ties a button to its action; `MenuButton::new(action)` is the constructor. */
  datatype MenuButton = MenuButton(action: MenuAction)

  /**
   * Background colours as opaque tokens. The four themed ones are `MenuTheme`'s
   * BACKGROUND_COLOR, BUTTON_NORMAL, BUTTON_HOVERED and BUTTON_PRESSED; `Transparent`
   * is the engine's default background of a UI node, and `WorldkeeperGreen` the
   * literal background of the New Worldkeeper screen.
   */
  datatype Colour =
    | Transparent
    | MenuBackground
    | ButtonNormal
    | ButtonHovered
    | ButtonPressed
    | WorldkeeperGreen
}
