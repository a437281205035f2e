# WorldKeeper screen flow in Dafny

This project models the screen and game-state machine of WorldKeeper, a Bevy 0.14 game,
and proves its properties. The app starts on the main menu. The menu has a New Worldkeeper
button and a Start New Game button, and buttons give hover feedback. A pressed button asks
for the New Worldkeeper screen or the game. Escape on the New Worldkeeper screen returns to
the menu. Each screen is spawned by its state's `OnEnter` system and despawned by its
`OnExit` system.

Modules, one per source file or engine concept:

- `GameStates` (`src/resources/game_state.rs`): the `GameState` enum, its default and its
  two classification predicates.
- `Ui` (`src/components/ui.rs`): the `MenuAction`, `MenuButton` and theme-colour vocabulary.
- `Ecs`: the slice of Bevy's ECS the systems touch.
  - Entities carry marker components, optional `Interaction`, `BackgroundColor` and
    `MenuButton` values, and their ancestor ids.
  - Queries filter by marker in world order.
  - Command buffers (spawn, despawn, recursive despawn) are applied after each system.
  - The class `World` holds the entities, the next free id, the current state, the pending
    `NextState`, the `AppExit` events sent, the `Changed<Interaction>` set and the keys just
    pressed.
- `Menu` (`src/systems/menu.rs`): every system of the file as a module-level method taking a
  `World`. Each is
  proved against a specification function of the old world; the properties are lemmas about
  those functions.
- `Apps`: the `App` builder (`init_state`, `add_plugins`, `add_systems` into `Update` with a
  `run_if(in_state(..))` guard, and into `OnEnter`/`OnExit`) as a class recording
  registrations.
- `Plugins` (`src/plugins/menu_plugin.rs`): both plugin `build` methods and the New
  Worldkeeper screen's setup and cleanup.
- `Game` (`src/main.rs`): `setup_game`, `cleanup_game`, `handle_input` and the builder chain
  of `main`.
- `Flow`: how the registered systems run frame after frame.
  1. The engine's focus system writes the buttons' `Interaction` from the pointer.
  2. The guarded `Update` systems run in registration order.
  3. A pending transition runs the old state's `OnExit` hooks, then the new state's
     `OnEnter` hooks.

  From this, `Flow` proves what every reachable world looks like, for `main`'s app and for
  any app wired the same way.

## Model

| member | source | states |
|---|---|---|
| GameStates.Default | src/resources/game_state.rs:4-12 | the default (initial) state is MainMenu |
| GameStates.AllowsUiInteractionExactly | src/resources/game_state.rs:16-18 | UI interaction is allowed exactly in MainMenu, NewWorldkeeper and Paused |
| GameStates.IsGameplayExactly | src/resources/game_state.rs:21-23 | a state is gameplay exactly when it is InGame |
| GameStates.UiAndGameplayDisjoint | src/resources/game_state.rs:16-23 | no state both allows UI interaction and is gameplay; GameOver is neither |
| Menu.CreateMenuButton | src/systems/menu.rs:85-118 | queues the spawn of a button (Node, Button, the given MenuButton action, BUTTON_NORMAL background, Interaction None) under `parent`, with its text label as child; it uses two fresh ids and changes nothing else |
| Menu.SetupMainMenu | src/systems/menu.rs:6-82 | the world gains exactly the menu screen (camera, MainMenu root, title, subtitle, container, two buttons with labels) after the existing entities, and nothing else changes |
| Menu.SetupMainMenuAdds | src/systems/menu.rs:6-82 | the setup adds exactly one camera, one MainMenu root, and the button actions New Worldkeeper then Start New Game |
| Menu.MainMenuButtons | src/systems/menu.rs:66-80 | the menu offers exactly two buttons, New Worldkeeper then Start New Game, whatever their look |
| Menu.MainMenuCameras | src/systems/menu.rs:9-10 | the menu has exactly one camera, the first entity spawned |
| Menu.MainMenuRoots | src/systems/menu.rs:13-29 | the menu has exactly one entity carrying the MainMenu marker |
| Menu.MainMenuNodesAndMeshes | src/systems/menu.rs:13-81 | the menu contains UI nodes and no mesh |
| Menu.MainMenuUnderRoot | src/systems/menu.rs:13-81 | every entity of the menu is its camera or a descendant of its MainMenu root |
| Menu.HoverColourDistinguishes | src/systems/menu.rs:128-138 | Pressed shows BUTTON_PRESSED, Hovered shows BUTTON_HOVERED and None shows BUTTON_NORMAL (each both ways), and distinct interactions show distinct colours |
| Menu.HandleButtonInteractions | src/systems/menu.rs:121-140 | rewrites in place the background of every menu button whose Interaction changed; nothing else changes |
| Menu.HoverShowsInteraction | src/systems/menu.rs:121-140 | after the hover system, each changed menu button shows the colour of its Interaction, every other entity is untouched, and no entity is added or removed |
| Menu.HoverOnMainMenu | src/systems/menu.rs:121-140 | on the menu, exactly the changed buttons take the look of their Interaction |
| Menu.HandleMenuActions | src/systems/menu.rs:143-173 | the next state and the AppExit events become those obtained by visiting the changed, Pressed buttons in world order; entities are untouched |
| Menu.PressAllRecoloured | src/systems/menu.rs:121-173 | the hover system changes nothing the action handler reads, so the two give the same result in either order |
| Menu.NoPressNoRequest | src/systems/menu.rs:151-152 | buttons that are not Pressed, or whose Interaction did not change, request nothing |
| Menu.NoRequestKeepsNext | src/systems/menu.rs:153-170 | only a pressed New Worldkeeper or Start New Game button changes the next state; Settings and Quit leave it |
| Menu.LastRequestWins | src/systems/menu.rs:151-161 | when several buttons request a state in one frame, the next state is the one asked by the last of them in query order |
| Menu.ExitOnlyOnQuit | src/systems/menu.rs:162-169 | an AppExit event is sent exactly when some button whose Interaction has just become Pressed is Quit, and events already sent are kept |
| Menu.PressButtonTree | src/systems/menu.rs:143-173 | a button acts exactly when its Interaction has just become Pressed; its label never acts |
| Menu.PressOnMainMenu | src/systems/menu.rs:143-173 | on the menu the handler applies the New Worldkeeper button, then the Start New Game button |
| Menu.CleanupMainMenu | src/systems/menu.rs:176-191 | the world loses what a recursive despawn of each MainMenu root and a plain despawn of each camera remove; nothing else changes |
| Menu.CleanupMainMenuRemoves | src/systems/menu.rs:176-191 | an entity survives the menu cleanup exactly when it is not a camera and not under any MainMenu root |
| Menu.DespawnTreeAndCamera | src/systems/menu.rs:181-188 | despawning a root recursively and a camera clears a world holding only that camera and that subtree |
| Menu.CleanupClearsMainMenu | src/systems/menu.rs:176-191 | leaving the menu removes the whole menu screen |
| Menu.HandleEscapeToMenu | src/systems/menu.rs:194-208 | a just-pressed Escape in InGame or NewWorldkeeper sets the next state to MainMenu; otherwise nothing changes |
| Menu.EscapeRequestsMenu | src/systems/menu.rs:199-206 | the handler asks for MainMenu exactly when Escape was just pressed in InGame or NewWorldkeeper, and changes nothing else |
| Apps.GuardedSelects | src/plugins/menu_plugin.rs:18-25 | a tuple guarded by `in_state(when)` runs its systems in order in `when`, and nothing in any other state |
| Apps.UpdateSystemsSelects | src/plugins/menu_plugin.rs:18-25 | a system runs in a state exactly when it was registered for that state |
| Plugins.SetupNewWorldkeeperScreen | src/plugins/menu_plugin.rs:48-86 | the world gains exactly the New Worldkeeper screen (camera, green root, heading, hint) after the existing entities |
| Plugins.SetupNewWorldkeeperAdds | src/plugins/menu_plugin.rs:48-86 | the setup adds exactly one camera and no menu button |
| Plugins.NewWorldkeeperCameras | src/plugins/menu_plugin.rs:51-52 | the screen has exactly one camera, the first entity spawned |
| Plugins.NewWorldkeeperNodes | src/plugins/menu_plugin.rs:54-85 | the screen is made of UI nodes, with no MainMenu root and no mesh |
| Plugins.NewWorldkeeperHasNoButtons | src/plugins/menu_plugin.rs:48-86 | the screen has no menu button and no entity with an Interaction |
| Plugins.CleanupNewWorldkeeperScreen | src/plugins/menu_plugin.rs:89-97 | the world loses what a recursive despawn of each node and each camera removes; nothing else changes |
| Plugins.CleanupNewWorldkeeperRemoves | src/plugins/menu_plugin.rs:89-97 | an entity survives exactly when it is neither a node nor a camera and lies under none |
| Plugins.CleanupClearsNewWorldkeeperScreen | src/plugins/menu_plugin.rs:89-97 | leaving the New Worldkeeper screen removes the whole screen |
| Plugins.BuildMenuPlugin | src/plugins/menu_plugin.rs:9-29 | the build installs the state machine and registers setup, the three Update handlers guarded by MainMenu, and cleanup |
| Plugins.MenuPluginRegisters | src/plugins/menu_plugin.rs:10-28 | after the build, MainMenu runs the hover, action and Escape handlers and its enter/exit hooks are setup/cleanup; other states gain nothing |
| Plugins.BuildNewWorldkeeperPlugin | src/plugins/menu_plugin.rs:36-44 | the build registers the screen's setup, the Escape handler guarded by NewWorldkeeper, and cleanup |
| Plugins.NewWorldkeeperPluginRegisters | src/plugins/menu_plugin.rs:37-43 | after the build, NewWorldkeeper additionally runs the Escape handler and gains its setup/cleanup hooks; other states gain nothing |
| Game.SetupGame | src/main.rs:42-61 | the world gains exactly a camera and the placeholder rectangle, a 2D mesh |
| Game.GameSceneContents | src/main.rs:49-58 | the game scene has exactly one camera, one 2D mesh (held as a `Mesh2dHandle`), no bare `Handle<Mesh>` and no button |
| Game.SetupGameAdds | src/main.rs:49-58 | the setup adds exactly one camera and exactly one 2D mesh entity |
| Game.CleanupGame | src/main.rs:64-72 | the world loses what a recursive despawn of each camera and each entity carrying the filtered mesh component removes; nothing else changes |
| Game.CleanupGameRemoves | src/main.rs:64-72 | an entity survives exactly when it lies under no camera and no entity carrying the filtered mesh component |
| Game.CleanupKeepsRectangle | src/main.rs:64-72 | as written, the `With<Handle<Mesh>>` filter misses the rectangle, whose mesh is a `Mesh2dHandle`: leaving the game despawns only the camera and the rectangle stays |
| Game.CleanupClearsGameScene | src/main.rs:64-72 | with the filter on `Mesh2dHandle`, leaving the game removes the whole game scene |
| Game.HandleInput | src/main.rs:75-81 | reports whether Space was just pressed and changes nothing |
| Game.BuildApp | src/main.rs:13-37 | the builder chain yields a fresh app with the two plugins built in order and the InGame setup, Update systems and cleanup registered |
| Game.AppWiringTable | src/main.rs:24-37 | in each state the app runs exactly the listed Update systems and enter/exit hooks; Paused and GameOver have none |
| Game.EscapeHandlerScheduling | src/main.rs:30-36 | the Escape handler runs in MainMenu and NewWorldkeeper and in no other state |
| Flow.MenuSystemsInAnyOrder | src/plugins/menu_plugin.rs:18-25 | the menu's three unordered Update systems give the same world in every one of the six orders |
| Flow.FocusOnMainMenu | src/systems/menu.rs:122-125 | on the menu, the focus system gives each button the pointer's Interaction, and `Changed<Interaction>` passes exactly the buttons whose Interaction changed value |
| Flow.AppConforms | src/main.rs:13-37 | `main`'s app conforms to the wiring the flow theorems assume, without Escape in InGame and with its cleanup filter as written |
| Flow.TransitionShows | src/plugins/menu_plugin.rs:12-28 | a requested transition runs the old screen's cleanup and the new screen's setup: afterwards the world shows exactly the new state's screen |
| Flow.MainMenuUpdate | src/plugins/menu_plugin.rs:18-25 | a frame on the menu leaves each button showing its new Interaction, sends no AppExit, and requests the state of the last newly pressed button |
| Flow.NewWorldkeeperUpdate | src/plugins/menu_plugin.rs:39-42 | a frame on the New Worldkeeper screen requests MainMenu exactly when Escape was just pressed, and changes nothing else |
| Flow.InGameUpdate | src/main.rs:30-36 | a frame in the game changes nothing; it requests MainMenu only if the Escape handler is scheduled in InGame and Escape was just pressed |
| Flow.FrameStep | src/plugins/menu_plugin.rs:9-44 | every frame keeps the invariant (no pending transition, no AppExit, the world shows the current state's screen) and moves to the state the handlers ask for |
| Flow.StartupShowsMenu | src/plugins/menu_plugin.rs:12-15 | start-up enters MainMenu and shows the menu with both buttons idle |
| Flow.RunKeepsInv | src/plugins/menu_plugin.rs:9-44 | after any sequence of frames the invariant holds |
| Flow.Reachable | src/resources/game_state.rs:4-23 | every reachable world is in MainMenu, NewWorldkeeper or InGame, with exactly one camera and no AppExit; the menu root exists iff in MainMenu, UI nodes iff the state allows UI interaction, and the mesh iff the state is gameplay |
| Flow.OnlyTwoButtons | src/systems/menu.rs:66-80 | in every reachable world the buttons are New Worldkeeper and Start New Game in MainMenu, and there are none elsewhere; Settings and Quit are never offered |
| Flow.RequestsAnotherState | src/systems/menu.rs:143-208 | no frame requests the state the app is already in |
| Flow.EscapeIgnoredInMenu | src/systems/menu.rs:199-206 | on the menu, whether Escape was pressed makes no difference to the next state |
| Flow.EscapeLeavesNewWorldkeeper | src/plugins/menu_plugin.rs:39-42 | on the New Worldkeeper screen, a frame leads to MainMenu exactly when Escape was just pressed |
| Flow.InGameIsFinal | src/main.rs:30-36 | once `main`'s app is InGame it stays there, whatever the later inputs |
| Flow.FixedConforms | src/systems/menu.rs:194-208 | the wiring with the Escape handler also guarded by InGame and the cleanup filtering on `Mesh2dHandle` conforms, with Escape handled in InGame |
| Flow.EscapeIgnoredInGame | src/main.rs:30-36 | as written, Escape in the game leaves the state InGame and the scene untouched |
| Flow.EscapeLeavesGame | src/systems/menu.rs:201-203 | with the handler scheduled in InGame and the cleanup filtering on `Mesh2dHandle`, Escape in the game tears the scene down and shows a fresh menu, and the invariant holds |
| Flow.EscapeFixAloneKeepsRectangle | src/main.rs:64-72 | with the handler scheduled in InGame but the cleanup filter as written, Escape in the game reaches MainMenu with the rectangle still in the world, so the invariant fails |
| Flow.RunApp | src/main.rs:13-38 | building the app and running one frame per input yields the world of the frame semantics, which satisfies the invariant |

## Left out

- `move_camera` is not modelled beyond its place in the schedule. It moves the camera's
  transform by floating-point speed times frame time, and no transforms are modelled, so its
  step changes nothing in the model.
- `info!` log lines are left out. `Game.HandleInput` returns whether Space was just pressed,
  which stands for its log line.
- Layout, text, fonts and colour values are left out. Backgrounds are the theme's named
  colour tokens (BACKGROUND_COLOR, BUTTON_NORMAL and so on), plus one token for the New
  Worldkeeper screen's green.
- `DefaultPlugins` and the window configuration are left out. They are engine
  configuration and nothing the core's systems read.
- Engine scheduling is simplified in three ways:
  - `Changed<Interaction>` is modelled as "the focus system wrote a different value this
    frame". A button spawned this frame is not reported as changed on its first frame. Its
    Interaction is None and its background is already BUTTON_NORMAL, so neither handler
    would act on it.
  - Commands are applied right after the system that queued them. No system reads what
    another system spawns in the same frame, so this gives the same world as Bevy's sync
    points.
  - A pending `NextState` is applied at the end of the frame rather than at the start of
    the next one. In Bevy the focus system runs in `PreUpdate`, before `StateTransition`,
    so a button spawned by a transition is first focused one frame later than in the
    model, and can act one frame earlier in the model. The reachable states and screens
    are the same.
- Entity ids are fresh and increasing. Bevy's reuse of ids with generations is not modelled.
- Query iteration order is taken to be world (spawn) order. Bevy iterates in archetype order.
  This only matters when both buttons become Pressed in the same frame (`Menu.LastRequestWins`).
- The app's termination on `AppExit` is not modelled. `Flow.Reachable` proves that no
  AppExit is ever sent.
- Paused and GameOver have no systems, hooks or transitions into them, and are proved
  unreachable.
- `WindowPlugin` resolution and title have no effect on the state machine.

## Findings

| source | as written | input that shows it | evidently intended | confidence | as-written member | corrected member |
|---|---|---|---|---|---|---|
| src/main.rs:30-36 | `handle_escape_to_menu` is scheduled only in MainMenu and NewWorldkeeper (src/plugins/menu_plugin.rs:18-25, 39-42), so its InGame arm (src/systems/menu.rs:201) never runs | state InGame, Escape just pressed: the state stays InGame and the game scene stays | Escape in the game returns to the main menu, as the handler's InGame arm and its doc comment say | medium; not executed | Flow.EscapeIgnoredInGame | Flow.EscapeLeavesGame |
| src/main.rs:66 | `cleanup_game` filters on `With<Handle<Mesh>>`, but the rectangle of `setup_game` is a 2D mesh bundle whose mesh is a `Mesh2dHandle` (src/main.rs:53-58, `meshes.add(..).into()`), so the filter matches nothing | leaving InGame from the game scene (reachable once Escape is scheduled in InGame): only the camera is despawned and the rectangle stays beside the menu | the cleanup despawns the rectangle, filtering on `With<Mesh2dHandle>` | medium; not executed | Game.CleanupKeepsRectangle | Game.CleanupClearsGameScene |

The corrected wiring is `Flow.FixedWiring`. It is `main`'s app with the Escape handler also
guarded by InGame and `cleanup_game` filtering on `Mesh2dHandle`. The two fixes are needed
together: `Flow.EscapeFixAloneKeepsRectangle` shows that with the Escape handler alone, the
rectangle outlives the game. `main` as written never leaves InGame, so its own filter does no
harm there. The general theorems (`Flow.FrameStep`, `Flow.RunKeepsInv`,
`Flow.Reachable`, `Flow.OnlyTwoButtons`, `Flow.RequestsAnotherState`) are stated for any
conforming wiring, so they hold for both. `Flow.FixedConforms` shows that the corrected
wiring conforms.
