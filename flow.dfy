/**
 * How the registered systems run, frame after frame, and what the app therefore does.
 *
 * A frame is: the engine's focus system writes each button's Interaction from the
 * pointer and the keyboard's just-pressed keys are latched; the `Update` systems whose
 * `in_state` guard holds run in registration order, each followed by its command buffer;
 * then a pending `NextState` is applied: the state changes, the old state's `OnExit`
 * hooks run, then the new state's `OnEnter` hooks. At start-up `init_state` enters the
 * default state. The theorems at the end follow the app `main` builds over every
 * sequence of inputs.
 */
module Flow {
  import opened GameStates
  import opened Ui
  import opened Ecs
  import opened Apps
  import Menu
  import Plugins
  import Game

  // ---------------------------------------------------------------- input and focus

  /** A frame's input: the Interaction the pointer gives each button it reaches, and the keys just pressed. */
  datatype Input = Input(pointer: map<EntityId, Interaction>, keys: set<KeyCode>)

  /** A button whose Interaction the pointer changes this frame. */
  predicate Touched(e: Entity, pointer: map<EntityId, Interaction>)
  {
    e.interaction.Present? && e.id in pointer && pointer[e.id] != e.interaction.value
  }

  function Focused(e: Entity, pointer: map<EntityId, Interaction>): Entity
  {
    if e.interaction.Present? && e.id in pointer then e.(interaction := Present(pointer[e.id])) else e
  }

  /** The ids whose `Changed<Interaction>` filter passes this frame. */
  function TouchedIds(es: seq<Entity>, pointer: map<EntityId, Interaction>): set<EntityId>
  {
    if es == [] then {}
    else (if Touched(es[0], pointer) then {es[0].id} else {}) + TouchedIds(es[1..], pointer)
  }

  /** The world after the focus system and the keyboard input have run. */
  function Focus(w: WorldState, input: Input): WorldState
  {
    w.(entities := seq(|w.entities|, k requires 0 <= k < |w.entities| => Focused(w.entities[k], input.pointer)),
       changed := TouchedIds(w.entities, input.pointer),
       justPressed := input.keys)
  }

  lemma {:induction false} TouchedIdsAppend(a: seq<Entity>, b: seq<Entity>, pointer: map<EntityId, Interaction>)
    ensures TouchedIds(a + b, pointer) == TouchedIds(a, pointer) + TouchedIds(b, pointer)
  {
    if a == [] {
      assert a + b == b;
    } else {
      assert (a + b)[0] == a[0];
      assert (a + b)[1..] == a[1..] + b;
      TouchedIdsAppend(a[1..], b, pointer);
    }
  }

  lemma {:induction false} TouchedIdsNone(es: seq<Entity>, pointer: map<EntityId, Interaction>)
    requires forall e :: e in es ==> e.interaction.Absent?
    ensures TouchedIds(es, pointer) == {}
  {
    if es != [] {
      assert es[0] in es;
      assert forall e :: e in es[1..] ==> e in es;
      TouchedIdsNone(es[1..], pointer);
    }
  }

  /** Where no entity has an Interaction, focus changes no entity and marks nothing changed. */
  lemma FocusWithoutButtons(w: WorldState, input: Input)
    requires forall e :: e in w.entities ==> e.interaction.Absent?
    ensures Focus(w, input) == w.(changed := {}, justPressed := input.keys)
  {
    TouchedIdsNone(w.entities, input.pointer);
    assert forall k :: 0 <= k < |w.entities| ==> w.entities[k] in w.entities;
  }

  /** The Interaction the pointer gives a button that had `i`. */
  function PointedAt(pointer: map<EntityId, Interaction>, id: EntityId, i: Interaction): Interaction
  {
    if id in pointer then pointer[id] else i
  }

  /** Focus on the menu: each button takes the pointer's Interaction and is marked changed if it differs. */
  lemma FocusOnMainMenu(w: WorldState, input: Input, base: EntityId, i1: Interaction, i2: Interaction)
    requires w.entities == Menu.MainMenuScreen(base, Menu.Shown(i1), Menu.Shown(i2))
    ensures var j1, j2 := PointedAt(input.pointer, base + 5, i1), PointedAt(input.pointer, base + 7, i2);
      && Focus(w, input).entities
         == Menu.MainMenuScreen(base, Menu.ButtonLook(Menu.HoverColour(i1), j1), Menu.ButtonLook(Menu.HoverColour(i2), j2))
      && (base + 5 in Focus(w, input).changed <==> j1 != i1)
      && (base + 7 in Focus(w, input).changed <==> j2 != i2)
  {
    FocusedMainMenu(base, i1, i2, input.pointer);
    TouchedMainMenu(base, i1, i2, input.pointer);
  }

  lemma FocusedMainMenu(base: EntityId, i1: Interaction, i2: Interaction, pointer: map<EntityId, Interaction>)
    ensures var s := Menu.MainMenuScreen(base, Menu.Shown(i1), Menu.Shown(i2));
      seq(|s|, k requires 0 <= k < |s| => Focused(s[k], pointer))
      == Menu.MainMenuScreen(base,
           Menu.ButtonLook(Menu.HoverColour(i1), PointedAt(pointer, base + 5, i1)),
           Menu.ButtonLook(Menu.HoverColour(i2), PointedAt(pointer, base + 7, i2)))
  {
  }

  lemma TouchedMainMenu(base: EntityId, i1: Interaction, i2: Interaction, pointer: map<EntityId, Interaction>)
    ensures var t := TouchedIds(Menu.MainMenuScreen(base, Menu.Shown(i1), Menu.Shown(i2)), pointer);
      && (base + 5 in t <==> PointedAt(pointer, base + 5, i1) != i1)
      && (base + 7 in t <==> PointedAt(pointer, base + 7, i2) != i2)
  {
    var head := [Menu.CameraEntity(base)] + Menu.MainMenuNodes(base);
    var b1 := Menu.MenuButtonTree(base + 5, [base + 1, base + 4], MenuAction.NewWorldkeeper, Menu.Shown(i1));
    var b2 := Menu.MenuButtonTree(base + 7, [base + 1, base + 4], MenuAction.StartNewGame, Menu.Shown(i2));
    TouchedIdsAppend(head + b1, b2, pointer);
    TouchedIdsAppend(head, b1, pointer);
    TouchedMenuHead(base, pointer);
    TouchedButtonTree(base + 5, [base + 1, base + 4], MenuAction.NewWorldkeeper, Menu.Shown(i1), pointer);
    TouchedButtonTree(base + 7, [base + 1, base + 4], MenuAction.StartNewGame, Menu.Shown(i2), pointer);
    var t1 := if PointedAt(pointer, base + 5, i1) != i1 then {base + 5} else {};
    var t2 := if PointedAt(pointer, base + 7, i2) != i2 then {base + 7} else {};
    assert TouchedIds(Menu.MainMenuScreen(base, Menu.Shown(i1), Menu.Shown(i2)), pointer) == {} + t1 + t2;
  }

  /** The camera and the menu's plain nodes have no Interaction. */
  lemma TouchedMenuHead(base: EntityId, pointer: map<EntityId, Interaction>)
    ensures TouchedIds([Menu.CameraEntity(base)] + Menu.MainMenuNodes(base), pointer) == {}
  {
    TouchedIdsNone([Menu.CameraEntity(base)] + Menu.MainMenuNodes(base), pointer);
  }

  /** Of a button and its label, only the button can be marked changed. */
  lemma TouchedButtonTree(id: EntityId, parent: seq<EntityId>, action: MenuAction, look: Menu.ButtonLook,
                          pointer: map<EntityId, Interaction>)
    ensures TouchedIds(Menu.MenuButtonTree(id, parent, action, look), pointer)
         == if id in pointer && pointer[id] != look.interaction then {id} else {}
  {
    var t := Menu.MenuButtonTree(id, parent, action, look);
    assert t[1..][1..] == [];
    assert TouchedIds(t[1..], pointer) == {};
  }

  // ---------------------------------------------------------------- running systems

  /** The effect on the world of running `sys` and applying its commands. */
  function Step(sys: SystemId, w: WorldState): WorldState
  {
    match sys
    case SetupMainMenu => Menu.AfterSetupMainMenu(w)
    case HandleButtonInteractions => Menu.AfterButtonInteractions(w)
    case HandleMenuActions => Menu.AfterMenuActions(w)
    case HandleEscapeToMenu => Menu.AfterEscapeToMenu(w)
    case CleanupMainMenu => Menu.AfterCleanupMainMenu(w)
    case SetupNewWorldkeeperScreen => Plugins.AfterSetupNewWorldkeeperScreen(w)
    case CleanupNewWorldkeeperScreen => Plugins.AfterCleanupNewWorldkeeperScreen(w)
    case SetupGame => Game.AfterSetupGame(w)
    case CleanupGame(mesh) => Game.AfterCleanupGame(w, mesh)
    case HandleInput => w
    case MoveCamera => w
  }

  /** Running `systems` one after the other. */
  function RunAll(systems: seq<SystemId>, w: WorldState): WorldState
    decreases |systems|
  {
    if systems == [] then w
    else Step(systems[|systems| - 1], RunAll(systems[..|systems| - 1], w))
  }

  /** Running one more system after a schedule. */
  lemma RunSnoc(systems: seq<SystemId>, sys: SystemId, w: WorldState)
    ensures RunAll(systems + [sys], w) == Step(sys, RunAll(systems, w))
  {
    var all := systems + [sys];
    assert all[..|all| - 1] == systems;
    assert all[|all| - 1] == sys;
  }

  lemma RunOne(a: SystemId, w: WorldState)
    ensures RunAll([a], w) == Step(a, w)
  {
    RunSnoc([], a, w);
    assert [] + [a] == [a];
  }

  lemma RunTwo(a: SystemId, b: SystemId, w: WorldState)
    ensures RunAll([a, b], w) == Step(b, Step(a, w))
  {
    RunSnoc([a], b, w);
    assert [a] + [b] == [a, b];
    RunOne(a, w);
  }

  lemma RunThree(a: SystemId, b: SystemId, c: SystemId, w: WorldState)
    ensures RunAll([a, b, c], w) == Step(c, Step(b, Step(a, w)))
  {
    RunSnoc([a, b], c, w);
    assert [a, b] + [c] == [a, b, c];
    RunTwo(a, b, w);
  }

  /**
   * The menu's three Update systems are registered as one tuple, which fixes no order among
   * them; on the menu every order gives the same world.
   */
  lemma MenuSystemsInAnyOrder(w: WorldState, order: seq<SystemId>)
    requires w.state == MainMenu
    requires order in {
      [HandleButtonInteractions, HandleMenuActions, HandleEscapeToMenu],
      [HandleButtonInteractions, HandleEscapeToMenu, HandleMenuActions],
      [HandleMenuActions, HandleButtonInteractions, HandleEscapeToMenu],
      [HandleMenuActions, HandleEscapeToMenu, HandleButtonInteractions],
      [HandleEscapeToMenu, HandleButtonInteractions, HandleMenuActions],
      [HandleEscapeToMenu, HandleMenuActions, HandleButtonInteractions] }
    ensures RunAll(order, w) == RunAll(Plugins.MenuSystems, w)
  {
    RunThree(order[0], order[1], order[2], w);
    RunThree(HandleButtonInteractions, HandleMenuActions, HandleEscapeToMenu, w);
    Menu.PressAllRecoloured(w.entities, w.changed, Menu.Requests(w.next, w.exits));
  }

  /** The Update schedule: the systems whose guard holds in the current state. */
  function Update(wr: Wiring, w: WorldState): WorldState
  {
    RunAll(UpdateSystems(wr.update, w.state), w)
  }

  /** Applying the pending transition, if any: OnExit of the old state, then OnEnter of the new one. */
  function Transition(wr: Wiring, w: WorldState): WorldState
  {
    match w.next
    case Unchanged => w
    case Pending(target) =>
      var switched := w.(state := target, next := Unchanged);
      RunAll(HookSystems(wr.onEnter, target), RunAll(HookSystems(wr.onExit, w.state), switched))
  }

  function Frame(wr: Wiring, w: WorldState, input: Input): WorldState
  {
    Transition(wr, Update(wr, Focus(w, input)))
  }

  /** The empty world, in the default state. */
  const Initial := WorldState([], 0, Default(), Unchanged, [], {}, {})

  /** Start-up: `init_state` enters the default state and runs its OnEnter hooks. */
  function Startup(wr: Wiring): WorldState
  {
    if wr.stateInit then RunAll(HookSystems(wr.onEnter, Default()), Initial) else Initial
  }

  /** The world after start-up and one frame per input. */
  function Run(wr: Wiring, inputs: seq<Input>): WorldState
    decreases |inputs|
  {
    if inputs == [] then Startup(wr)
    else Frame(wr, Run(wr, inputs[..|inputs| - 1]), inputs[|inputs| - 1])
  }

  // ---------------------------------------------------------------- the scheduler on the World

  /** Runs one system on the world. */
  method RunSystem(w: World, sys: SystemId)
    modifies w
    ensures w.Value() == Step(sys, old(w.Value()))
  {
    match sys {
      case SetupMainMenu => Menu.SetupMainMenu(w);
      case HandleButtonInteractions => Menu.HandleButtonInteractions(w);
      case HandleMenuActions => Menu.HandleMenuActions(w);
      case HandleEscapeToMenu => Menu.HandleEscapeToMenu(w);
      case CleanupMainMenu => Menu.CleanupMainMenu(w);
      case SetupNewWorldkeeperScreen => Plugins.SetupNewWorldkeeperScreen(w);
      case CleanupNewWorldkeeperScreen => Plugins.CleanupNewWorldkeeperScreen(w);
      case SetupGame => Game.SetupGame(w);
      case CleanupGame(mesh) => Game.CleanupGame(w, mesh);
      case HandleInput => var _ := Game.HandleInput(w);
      case MoveCamera =>
    }
  }

  /** Runs a schedule's systems in order. */
  method RunSystems(w: World, systems: seq<SystemId>)
    modifies w
    ensures w.Value() == RunAll(systems, old(w.Value()))
  {
    for i := 0 to |systems|
      invariant w.Value() == RunAll(systems[..i], old(w.Value()))
    {
      assert systems[..i + 1][..i] == systems[..i];
      RunSystem(w, systems[i]);
    }
    assert systems[..|systems|] == systems;
  }

  /** One frame of the app `app` describes. */
  method RunFrame(w: World, app: App, input: Input)
    modifies w
    ensures w.Value() == Frame(app.Value(), old(w.Value()), input)
  {
    var focused := Focus(w.Value(), input);
    w.entities, w.changed, w.justPressed := focused.entities, focused.changed, focused.justPressed;
    RunSystems(w, UpdateSystems(app.update, w.state));
    match w.next {
      case Unchanged =>
      case Pending(target) =>
        var from := w.state;
        w.state, w.next := target, Unchanged;
        RunSystems(w, HookSystems(app.onExit, from));
        RunSystems(w, HookSystems(app.onEnter, target));
    }
  }

  // ---------------------------------------------------------------- what each state shows

  /** The menu with ids from `base`, each button's background showing its Interaction. */
  predicate MenuShown(es: seq<Entity>, base: EntityId)
  {
    && |es| == Menu.MainMenuSize
    && es[5].interaction.Present? && es[7].interaction.Present?
    && es == Menu.MainMenuScreen(base, Menu.Shown(es[5].interaction.value), Menu.Shown(es[7].interaction.value))
  }

  /** `es` is the screen of state `s`, the last thing spawned before id `nextId`. */
  predicate Shows(es: seq<Entity>, nextId: EntityId, s: GameState)
  {
    match s
    case MainMenu => nextId >= Menu.MainMenuSize && MenuShown(es, nextId - Menu.MainMenuSize)
    case NewWorldkeeper =>
      nextId >= Plugins.NewWorldkeeperSize && es == Plugins.NewWorldkeeperScreen(nextId - Plugins.NewWorldkeeperSize)
    case InGame => nextId >= Game.GameSceneSize && es == Game.GameScene(nextId - Game.GameSceneSize)
    case Paused | GameOver => false
  }

  /** Between frames: no transition pending, no AppExit sent, and the world shows the current state's screen. */
  predicate Inv(w: WorldState)
  {
    w.next == Unchanged && w.exits == [] && Shows(w.entities, w.nextId, w.state)
  }

  /**
   * A wiring that installs the state machine and registers the core's hooks and handlers
   * as `main` does, except that the Escape handler may also be scheduled in InGame, and
   * that `cleanup_game` may filter on the rectangle's `Mesh2dHandle`. It must do so when
   * Escape can leave the game; `main`, which never leaves InGame, keeps its own filter.
   */
  predicate Conforms(wr: Wiring)
  {
    && wr.stateInit
    && (forall s :: HookSystems(wr.onEnter, s) == Game.EnterTable(s))
    && (forall s :: s != InGame ==> HookSystems(wr.onExit, s) == Game.ExitTable(s))
    && UpdateSystems(wr.update, MainMenu) == Plugins.MenuSystems
    && UpdateSystems(wr.update, GameState.NewWorldkeeper) == [HandleEscapeToMenu]
    && GameUpdateConforms(wr)
    && (CleansUpGame(wr) || (HookSystems(wr.onExit, InGame) == Game.ExitTable(InGame) && !EscapeInGame(wr)))
  }

  /** InGame runs `handle_input` and `move_camera`, possibly followed by the Escape handler. */
  predicate GameUpdateConforms(wr: Wiring)
  {
    || UpdateSystems(wr.update, InGame) == Game.GameSystems
    || UpdateSystems(wr.update, InGame) == Game.GameSystems + [HandleEscapeToMenu]
  }

  /** Leaving InGame runs `cleanup_game` filtering on the rectangle's `Mesh2dHandle`. */
  predicate CleansUpGame(wr: Wiring)
  {
    HookSystems(wr.onExit, InGame) == [SystemId.CleanupGame(Mesh2d)]
  }

  /** Whether Escape is handled in InGame. */
  predicate EscapeInGame(wr: Wiring)
  {
    UpdateSystems(wr.update, InGame) != Game.GameSystems
  }

  lemma AppConforms()
    ensures Conforms(Game.AppWiring) && !EscapeInGame(Game.AppWiring)
  {
    AppHooksConform();
    Game.AppWiringTable(MainMenu);
    Game.AppWiringTable(GameState.NewWorldkeeper);
    Game.AppWiringTable(InGame);
  }

  lemma AppHooksConform()
    ensures forall s :: HookSystems(Game.AppWiring.onEnter, s) == Game.EnterTable(s)
    ensures forall s :: HookSystems(Game.AppWiring.onExit, s) == Game.ExitTable(s)
  {
    forall s
      ensures HookSystems(Game.AppWiring.onEnter, s) == Game.EnterTable(s)
      ensures HookSystems(Game.AppWiring.onExit, s) == Game.ExitTable(s)
    {
      Game.AppWiringTable(s);
    }
  }

  // ---------------------------------------------------------------- leaving and entering screens

  /** The OnExit hooks of a state clear its screen and change nothing else. */
  lemma Leave(wr: Wiring, w: WorldState, s: GameState)
    requires Conforms(wr) && Shows(w.entities, w.nextId, s)
    requires s == InGame ==> CleansUpGame(wr)
    ensures RunAll(HookSystems(wr.onExit, s), w) == w.(entities := [])
  {
    match s
    case MainMenu =>
      assert HookSystems(wr.onExit, s) == Game.ExitTable(s);
      LeaveMenu(w);
    case NewWorldkeeper =>
      assert HookSystems(wr.onExit, s) == Game.ExitTable(s);
      LeaveNewWorldkeeper(w);
    case InGame => LeaveGame(w);
  }

  lemma LeaveMenu(w: WorldState)
    requires Shows(w.entities, w.nextId, MainMenu)
    ensures RunAll([SystemId.CleanupMainMenu], w) == w.(entities := [])
  {
    var base := w.nextId - Menu.MainMenuSize;
    var s := Menu.MainMenuScreen(base, Menu.Shown(w.entities[5].interaction.value), Menu.Shown(w.entities[7].interaction.value));
    assert w.entities == s;
    Menu.CleanupClearsMainMenu(base, Menu.Shown(w.entities[5].interaction.value), Menu.Shown(w.entities[7].interaction.value));
    assert ApplyCommands(s, Menu.CleanupMainMenuCommands(s)) == [];
    assert Menu.AfterCleanupMainMenu(w) == w.(entities := []);
    RunOne(SystemId.CleanupMainMenu, w);
  }

  lemma LeaveNewWorldkeeper(w: WorldState)
    requires Shows(w.entities, w.nextId, GameState.NewWorldkeeper)
    ensures RunAll([SystemId.CleanupNewWorldkeeperScreen], w) == w.(entities := [])
  {
    var base := w.nextId - Plugins.NewWorldkeeperSize;
    var screen := Plugins.NewWorldkeeperScreen(base);
    assert w.entities == screen;
    Plugins.CleanupClearsNewWorldkeeperScreen(base);
    assert ApplyCommands(screen, Plugins.CleanupNewWorldkeeperCommands(screen)) == [];
    assert Plugins.AfterCleanupNewWorldkeeperScreen(w) == w.(entities := []);
    RunOne(SystemId.CleanupNewWorldkeeperScreen, w);
  }

  lemma LeaveGame(w: WorldState)
    requires Shows(w.entities, w.nextId, InGame)
    ensures RunAll([SystemId.CleanupGame(Mesh2d)], w) == w.(entities := [])
  {
    var base := w.nextId - Game.GameSceneSize;
    var scene := Game.GameScene(base);
    assert w.entities == scene;
    Game.CleanupClearsGameScene(base);
    assert ApplyCommands(scene, Game.CleanupGameCommands(scene, Mesh2d)) == [];
    assert Game.AfterCleanupGame(w, Mesh2d) == w.(entities := []);
    RunOne(SystemId.CleanupGame(Mesh2d), w);
  }

  /** On an empty world, the OnEnter hooks of a reachable state build its screen and change nothing else. */
  lemma Enter(wr: Wiring, w: WorldState, s: GameState)
    requires Conforms(wr) && w.entities == [] && s in {MainMenu, GameState.NewWorldkeeper, InGame}
    ensures var r := RunAll(HookSystems(wr.onEnter, s), w);
      r == w.(entities := r.entities, nextId := r.nextId) && Shows(r.entities, r.nextId, s)
  {
    assert HookSystems(wr.onEnter, s) == Game.EnterTable(s);
    match s
    case MainMenu => EnterMenu(w);
    case NewWorldkeeper => EnterNewWorldkeeper(w);
    case InGame => EnterGame(w);
  }

  lemma EnterMenu(w: WorldState)
    requires w.entities == []
    ensures RunAll([SystemId.SetupMainMenu], w)
         == w.(entities := Menu.MainMenuScreen(w.nextId, Menu.Shown(None), Menu.Shown(None)),
               nextId := w.nextId + Menu.MainMenuSize)
    ensures Shows(Menu.MainMenuScreen(w.nextId, Menu.Shown(None), Menu.Shown(None)), w.nextId + Menu.MainMenuSize, MainMenu)
  {
    RunOne(SystemId.SetupMainMenu, w);
    var screen := Menu.MainMenuScreen(w.nextId, Menu.Shown(None), Menu.Shown(None));
    assert [] + screen == screen;
    assert screen[5].interaction == Present(None) && screen[7].interaction == Present(None);
  }

  lemma EnterNewWorldkeeper(w: WorldState)
    requires w.entities == []
    ensures RunAll([SystemId.SetupNewWorldkeeperScreen], w)
         == w.(entities := Plugins.NewWorldkeeperScreen(w.nextId), nextId := w.nextId + Plugins.NewWorldkeeperSize)
  {
    RunOne(SystemId.SetupNewWorldkeeperScreen, w);
    assert [] + Plugins.NewWorldkeeperScreen(w.nextId) == Plugins.NewWorldkeeperScreen(w.nextId);
  }

  lemma EnterGame(w: WorldState)
    requires w.entities == []
    ensures RunAll([SystemId.SetupGame], w)
         == w.(entities := Game.GameScene(w.nextId), nextId := w.nextId + Game.GameSceneSize)
  {
    RunOne(SystemId.SetupGame, w);
    assert [] + Game.GameScene(w.nextId) == Game.GameScene(w.nextId);
  }

  /** A transition to a reachable state tears the old screen down and builds the new one. */
  lemma TransitionShows(wr: Wiring, w: WorldState)
    requires Conforms(wr) && w.exits == [] && Shows(w.entities, w.nextId, w.state)
    requires w.next.Pending? ==> w.next.target in {MainMenu, GameState.NewWorldkeeper, InGame}
    requires w.next.Pending? && w.state == InGame ==> EscapeInGame(wr)
    ensures Inv(Transition(wr, w))
    ensures Transition(wr, w).state == if w.next.Pending? then w.next.target else w.state
  {
    if w.next.Pending? {
      var switched := w.(state := w.next.target, next := Unchanged);
      Leave(wr, switched, w.state);
      Enter(wr, switched.(entities := []), w.next.target);
    }
  }

  // ---------------------------------------------------------------- one frame in each state

  /** The next state asked for on the menu: the last pressed button that asks for one wins. */
  function MenuRequest(w: WorldState, input: Input): NextState
    requires |w.entities| == Menu.MainMenuSize && w.nextId >= Menu.MainMenuSize
    requires w.entities[5].interaction.Present? && w.entities[7].interaction.Present?
  {
    var base := w.nextId - Menu.MainMenuSize;
    var i1, i2 := w.entities[5].interaction.value, w.entities[7].interaction.value;
    var j1, j2 := PointedAt(input.pointer, base + 5, i1), PointedAt(input.pointer, base + 7, i2);
    if j2 != i2 && j2 == Pressed then Pending(InGame)
    else if j1 != i1 && j1 == Pressed then Pending(GameState.NewWorldkeeper)
    else Unchanged
  }

  /**
   * A frame's Update on the menu: each button's background shows its new Interaction, a
   * button that has just become Pressed asks for its state (Start New Game last), Escape
   * does nothing, and no AppExit is sent.
   */
  lemma MainMenuUpdate(wr: Wiring, w: WorldState, input: Input)
    requires Conforms(wr) && Inv(w) && w.state == MainMenu
    ensures var u := Update(wr, Focus(w, input));
      && u.state == MainMenu && u.exits == [] && u.nextId == w.nextId
      && MenuShown(u.entities, w.nextId - Menu.MainMenuSize)
      && u.next == MenuRequest(w, input)
  {
    var base := w.nextId - Menu.MainMenuSize;
    var i1, i2 := w.entities[5].interaction.value, w.entities[7].interaction.value;
    var j1, j2 := PointedAt(input.pointer, base + 5, i1), PointedAt(input.pointer, base + 7, i2);
    var f := Focus(w, input);
    FocusOnMainMenu(w, input, base, i1, i2);
    RunThree(HandleButtonInteractions, HandleMenuActions, HandleEscapeToMenu, f);
    var h := Step(HandleButtonInteractions, f);
    Menu.HoverOnMainMenu(base, Menu.ButtonLook(Menu.HoverColour(i1), j1), Menu.ButtonLook(Menu.HoverColour(i2), j2), f.changed);
    assert h.entities == Menu.MainMenuScreen(base, Menu.Shown(j1), Menu.Shown(j2));
    Menu.PressOnMainMenu(base, Menu.Shown(j1), Menu.Shown(j2), f.changed, Menu.Requests(Unchanged, []));
    var screen := Menu.MainMenuScreen(base, Menu.Shown(j1), Menu.Shown(j2));
    assert screen[5].interaction == Present(j1) && screen[7].interaction == Present(j2);
  }

  /** A frame's Update on the New Worldkeeper screen: Escape asks for the menu, nothing else happens. */
  lemma NewWorldkeeperUpdate(wr: Wiring, w: WorldState, input: Input)
    requires Conforms(wr) && Inv(w) && w.state == GameState.NewWorldkeeper
    ensures Update(wr, Focus(w, input))
         == w.(changed := {}, justPressed := input.keys,
               next := if Escape in input.keys then Pending(MainMenu) else Unchanged)
  {
    Plugins.NewWorldkeeperHasNoButtons(w.nextId - Plugins.NewWorldkeeperSize);
    FocusWithoutButtons(w, input);
    RunOne(HandleEscapeToMenu, Focus(w, input));
  }

  /**
   * A frame's Update in the game: `handle_input` and `move_camera` change nothing the model
   * holds; only a wiring that also runs the Escape handler there asks for the menu.
   */
  lemma InGameUpdate(wr: Wiring, w: WorldState, input: Input)
    requires GameUpdateConforms(wr) && Inv(w) && w.state == InGame
    ensures Update(wr, Focus(w, input))
         == w.(changed := {}, justPressed := input.keys,
               next := if EscapeInGame(wr) && Escape in input.keys then Pending(MainMenu) else Unchanged)
  {
    Game.GameSceneContents(w.nextId - Game.GameSceneSize);
    FocusWithoutButtons(w, input);
    var f := Focus(w, input);
    if EscapeInGame(wr) {
      assert Game.GameSystems + [HandleEscapeToMenu] == [SystemId.HandleInput, MoveCamera, HandleEscapeToMenu];
      RunThree(SystemId.HandleInput, MoveCamera, HandleEscapeToMenu, f);
    } else {
      RunTwo(SystemId.HandleInput, MoveCamera, f);
    }
  }

  /** The state after a frame, read off the source's handlers independently of the frame machinery. */
  function NextScreen(w: WorldState, input: Input, escapeInGame: bool): GameState
    requires Inv(w)
  {
    match w.state
    case MainMenu =>
      (match MenuRequest(w, input)
       case Pending(target) => target
       case Unchanged => MainMenu)
    case NewWorldkeeper => if Escape in input.keys then MainMenu else GameState.NewWorldkeeper
    case InGame => if escapeInGame && Escape in input.keys then MainMenu else InGame
  }

  /** Every frame keeps the invariant and moves to the state the handlers ask for. */
  lemma FrameStep(wr: Wiring, w: WorldState, input: Input)
    requires Conforms(wr) && Inv(w)
    ensures Inv(Frame(wr, w, input))
    ensures Frame(wr, w, input).state == NextScreen(w, input, EscapeInGame(wr))
  {
    match w.state
    case MainMenu => MainMenuUpdate(wr, w, input);
      TransitionShows(wr, Update(wr, Focus(w, input)));
    case NewWorldkeeper => NewWorldkeeperUpdate(wr, w, input);
      TransitionShows(wr, Update(wr, Focus(w, input)));
    case InGame => InGameUpdate(wr, w, input);
      TransitionShows(wr, Update(wr, Focus(w, input)));
  }

  /** Start-up shows the menu, with both buttons idle. */
  lemma StartupShowsMenu(wr: Wiring)
    requires Conforms(wr)
    ensures Inv(Startup(wr)) && Startup(wr).state == MainMenu
    ensures Startup(wr).entities == Menu.MainMenuScreen(0, Menu.Shown(None), Menu.Shown(None))
  {
    Enter(wr, Initial, MainMenu);
    RunOne(SystemId.SetupMainMenu, Initial);
    assert [] + Menu.MainMenuScreen(0, Menu.Shown(None), Menu.Shown(None))
        == Menu.MainMenuScreen(0, Menu.Shown(None), Menu.Shown(None));
  }

  /** Whatever the inputs, the world between frames satisfies the invariant. */
  lemma {:induction false} RunKeepsInv(wr: Wiring, inputs: seq<Input>)
    requires Conforms(wr)
    ensures Inv(Run(wr, inputs))
    decreases |inputs|
  {
    if inputs == [] {
      StartupShowsMenu(wr);
    } else {
      RunKeepsInv(wr, inputs[..|inputs| - 1]);
      FrameStep(wr, Run(wr, inputs[..|inputs| - 1]), inputs[|inputs| - 1]);
    }
  }

  // ---------------------------------------------------------------- what every reachable world looks like

  lemma MenuScreenFacts(es: seq<Entity>, nextId: EntityId)
    requires Shows(es, nextId, MainMenu)
    ensures |Query(es, {Camera})| == 1
    ensures Query(es, {MainMenuMarker}) != [] && Query(es, {Node}) != [] && Query(es, {Mesh2d}) == []
    ensures Menu.ButtonActions(es) == [MenuAction.NewWorldkeeper, MenuAction.StartNewGame]
  {
    var base := nextId - Menu.MainMenuSize;
    var first, second := Menu.Shown(es[5].interaction.value), Menu.Shown(es[7].interaction.value);
    assert es == Menu.MainMenuScreen(base, first, second);
    Menu.MainMenuCameras(base, first, second);
    Menu.MainMenuRoots(base, first, second);
    Menu.MainMenuButtons(base, first, second);
    Menu.MainMenuNodesAndMeshes(base, first, second);
  }

  lemma NewWorldkeeperScreenFacts(es: seq<Entity>, nextId: EntityId)
    requires Shows(es, nextId, GameState.NewWorldkeeper)
    ensures |Query(es, {Camera})| == 1
    ensures Query(es, {MainMenuMarker}) == [] && Query(es, {Node}) != [] && Query(es, {Mesh2d}) == []
    ensures Menu.ButtonActions(es) == []
  {
    Plugins.NewWorldkeeperCameras(nextId - Plugins.NewWorldkeeperSize);
    Plugins.NewWorldkeeperHasNoButtons(nextId - Plugins.NewWorldkeeperSize);
    Plugins.NewWorldkeeperNodes(nextId - Plugins.NewWorldkeeperSize);
  }

  lemma GameSceneFacts(es: seq<Entity>, nextId: EntityId)
    requires Shows(es, nextId, InGame)
    ensures |Query(es, {Camera})| == 1
    ensures Query(es, {MainMenuMarker}) == [] && Query(es, {Node}) == [] && Query(es, {Mesh2d}) != []
    ensures Menu.ButtonActions(es) == []
  {
    Game.GameSceneContents(nextId - Game.GameSceneSize);
    QueryNone(es, {MainMenuMarker});
    QueryNone(es, {Node});
    Menu.ButtonActionsNone(es);
  }

  /**
   * In every world the app reaches, between frames: the state is MainMenu, NewWorldkeeper
   * or InGame (Paused and GameOver are never entered); no AppExit was ever sent and no
   * transition is pending; there is exactly one camera; the menu UI is present exactly in
   * MainMenu; UI nodes are present exactly when the state allows UI interaction, and the
   * game's mesh exactly when the state is gameplay.
   */
  lemma Reachable(wr: Wiring, inputs: seq<Input>)
    requires Conforms(wr)
    ensures var w := Run(wr, inputs);
      && w.state in {MainMenu, GameState.NewWorldkeeper, InGame}
      && w.exits == [] && w.next == Unchanged
      && |Query(w.entities, {Camera})| == 1
      && (Query(w.entities, {MainMenuMarker}) != [] <==> w.state == MainMenu)
      && (Query(w.entities, {Node}) != [] <==> AllowsUiInteraction(w.state))
      && (Query(w.entities, {Mesh2d}) != [] <==> IsGameplay(w.state))
  {
    RunKeepsInv(wr, inputs);
    var w := Run(wr, inputs);
    match w.state
    case MainMenu => MenuScreenFacts(w.entities, w.nextId);
    case NewWorldkeeper => NewWorldkeeperScreenFacts(w.entities, w.nextId);
    case InGame => GameSceneFacts(w.entities, w.nextId);
  }

  /**
   * The only menu buttons that ever exist are New Worldkeeper and Start New Game, and only
   * in MainMenu: no Settings or Quit button is ever spawned, so those actions cannot be chosen.
   */
  lemma OnlyTwoButtons(wr: Wiring, inputs: seq<Input>)
    requires Conforms(wr)
    ensures var w := Run(wr, inputs);
      Menu.ButtonActions(w.entities)
      == if w.state == MainMenu then [MenuAction.NewWorldkeeper, MenuAction.StartNewGame] else []
  {
    RunKeepsInv(wr, inputs);
    var w := Run(wr, inputs);
    match w.state
    case MainMenu => MenuScreenFacts(w.entities, w.nextId);
    case NewWorldkeeper => NewWorldkeeperScreenFacts(w.entities, w.nextId);
    case InGame => GameSceneFacts(w.entities, w.nextId);
  }

  /** A frame never asks for the state it is already in, so no identity transition ever happens. */
  lemma RequestsAnotherState(wr: Wiring, w: WorldState, input: Input)
    requires Conforms(wr) && Inv(w)
    ensures var u := Update(wr, Focus(w, input));
      u.next.Pending? ==> u.next.target != w.state
  {
    match w.state
    case MainMenu => MainMenuUpdate(wr, w, input);
    case NewWorldkeeper => NewWorldkeeperUpdate(wr, w, input);
    case InGame => InGameUpdate(wr, w, input);
  }

  /** On the menu, Escape makes no difference to where the frame leads. */
  lemma EscapeIgnoredInMenu(wr: Wiring, w: WorldState, input: Input)
    requires Conforms(wr) && Inv(w) && w.state == MainMenu
    ensures Frame(wr, w, input).state == Frame(wr, w, input.(keys := input.keys - {Escape})).state
  {
    FrameStep(wr, w, input);
    FrameStep(wr, w, input.(keys := input.keys - {Escape}));
  }

  /** On the New Worldkeeper screen, a frame leads to the menu exactly when Escape was just pressed. */
  lemma EscapeLeavesNewWorldkeeper(wr: Wiring, w: WorldState, input: Input)
    requires Conforms(wr) && Inv(w) && w.state == GameState.NewWorldkeeper
    ensures Frame(wr, w, input).state == if Escape in input.keys then MainMenu else GameState.NewWorldkeeper
  {
    FrameStep(wr, w, input);
  }

  /** Once the app `main` builds is in InGame, it stays there whatever the later inputs. */
  lemma {:induction false} InGameIsFinal(inputs: seq<Input>, more: seq<Input>)
    requires Run(Game.AppWiring, inputs).state == InGame
    ensures Run(Game.AppWiring, inputs + more).state == InGame
    decreases |more|
  {
    AppConforms();
    if more == [] {
      assert inputs + more == inputs;
    } else {
      var init := more[..|more| - 1];
      assert (inputs + more)[..|inputs + more| - 1] == inputs + init;
      assert (inputs + more)[|inputs + more| - 1] == more[|more| - 1];
      InGameIsFinal(inputs, init);
      RunKeepsInv(Game.AppWiring, inputs + init);
      FrameStep(Game.AppWiring, Run(Game.AppWiring, inputs + init), more[|more| - 1]);
    }
  }

  // ---------------------------------------------------------------- Escape in the game

  /**
   * As written, the InGame arm of the Escape handler never runs: Escape in the game leaves
   * the app in InGame, with its scene untouched.
   */
  lemma EscapeIgnoredInGame(w: WorldState, input: Input)
    requires Inv(w) && w.state == InGame && Escape in input.keys
    ensures Frame(Game.AppWiring, w, input).state == InGame
    ensures Frame(Game.AppWiring, w, input).entities == w.entities
  {
    AppConforms();
    InGameUpdate(Game.AppWiring, w, input);
  }

  /**
   * `main` with `handle_escape_to_menu.run_if(in_state(InGame))` added to its Update
   * systems and `cleanup_game` filtering on `With<Mesh2dHandle>`.
   */
  const FixedWiring: Wiring :=
    Game.GameBuilt(Game.PluginsWiring, Game.GameSystems + [HandleEscapeToMenu], Mesh2d)

  lemma FixedConforms()
    ensures Conforms(FixedWiring) && EscapeInGame(FixedWiring) && CleansUpGame(FixedWiring)
  {
    FixedHooksConform();
    FixedUpdatesConform();
  }

  lemma FixedUpdatesConform()
    ensures FixedWiring.stateInit
    ensures UpdateSystems(FixedWiring.update, MainMenu) == Plugins.MenuSystems
    ensures UpdateSystems(FixedWiring.update, GameState.NewWorldkeeper) == [HandleEscapeToMenu]
    ensures UpdateSystems(FixedWiring.update, InGame) == Game.GameSystems + [HandleEscapeToMenu]
    ensures CleansUpGame(FixedWiring)
  {
    FixedUpdateTable(MainMenu);
    FixedUpdateTable(GameState.NewWorldkeeper);
    FixedUpdateTable(InGame);
  }

  lemma FixedUpdateTable(s: GameState)
    ensures FixedWiring.stateInit
    ensures UpdateSystems(FixedWiring.update, s)
         == if s == InGame then Game.GameSystems + [HandleEscapeToMenu] else Game.UpdateTable(s)
    ensures HookSystems(FixedWiring.onExit, InGame) == [SystemId.CleanupGame(Mesh2d)]
  {
    Game.GameBuiltTable(Game.GameSystems + [HandleEscapeToMenu], Mesh2d, s);
    Game.GameBuiltTable(Game.GameSystems + [HandleEscapeToMenu], Mesh2d, InGame);
  }

  lemma FixedHooksConform()
    ensures forall s :: HookSystems(FixedWiring.onEnter, s) == Game.EnterTable(s)
    ensures forall s :: s != InGame ==> HookSystems(FixedWiring.onExit, s) == Game.ExitTable(s)
  {
    forall s
      ensures HookSystems(FixedWiring.onEnter, s) == Game.EnterTable(s)
      ensures s != InGame ==> HookSystems(FixedWiring.onExit, s) == Game.ExitTable(s)
    {
      Game.GameBuiltTable(Game.GameSystems + [HandleEscapeToMenu], Mesh2d, s);
    }
  }

  /**
   * With the handler also scheduled in InGame and the cleanup filtering on the rectangle's
   * `Mesh2dHandle`, Escape in the game tears the scene down and shows a fresh menu, and
   * every property above still holds.
   */
  lemma EscapeLeavesGame(w: WorldState, input: Input)
    requires Inv(w) && w.state == InGame && Escape in input.keys
    ensures var r := Frame(FixedWiring, w, input);
      r.state == MainMenu && Inv(r)
      && r.entities == Menu.MainMenuScreen(w.nextId, Menu.Shown(None), Menu.Shown(None))
  {
    FixedConforms();
    InGameUpdate(FixedWiring, w, input);
    var u := Update(FixedWiring, Focus(w, input));
    TransitionShows(FixedWiring, u);
    var switched := u.(state := MainMenu, next := Unchanged);
    Leave(FixedWiring, switched, InGame);
    RunOne(SystemId.SetupMainMenu, switched.(entities := []));
    assert [] + Menu.MainMenuScreen(w.nextId, Menu.Shown(None), Menu.Shown(None))
        == Menu.MainMenuScreen(w.nextId, Menu.Shown(None), Menu.Shown(None));
  }

  /** `main` with only the Escape handler added in InGame, `cleanup_game` filtering as written. */
  const EscapeOnlyWiring: Wiring :=
    Game.GameBuilt(Game.PluginsWiring, Game.GameSystems + [HandleEscapeToMenu], Mesh)

  /**
   * Scheduling the Escape handler in InGame is not enough on its own: with the filter as
   * written, Escape in the game reaches the menu with the rectangle still in the world, so
   * a mesh exists outside gameplay and the menu is not the whole world.
   */
  lemma EscapeFixAloneKeepsRectangle(w: WorldState, input: Input)
    requires Inv(w) && w.state == InGame && Escape in input.keys
    ensures var r := Frame(EscapeOnlyWiring, w, input);
      && r.state == MainMenu && !IsGameplay(r.state)
      && Query(r.entities, {Mesh2d}) == [w.nextId - 1]
      && !Inv(r)
  {
    EscapeOnlyUpdate(w, input);
    var u := Update(EscapeOnlyWiring, Focus(w, input));
    EscapeOnlyTransition(u);
    RectangleBesideMenu(w.nextId - 1, w.nextId);
  }

  lemma EscapeOnlyUpdate(w: WorldState, input: Input)
    requires Inv(w) && w.state == InGame && Escape in input.keys
    ensures Update(EscapeOnlyWiring, Focus(w, input))
         == w.(changed := {}, justPressed := input.keys, next := Pending(MainMenu))
  {
    EscapeOnlyTables();
    InGameUpdate(EscapeOnlyWiring, w, input);
  }

  lemma EscapeOnlyTransition(u: WorldState)
    requires u.state == InGame && u.next == Pending(MainMenu) && Shows(u.entities, u.nextId, InGame)
    ensures Transition(EscapeOnlyWiring, u)
         == Menu.AfterSetupMainMenu(u.(state := MainMenu, next := Unchanged, entities := [Game.MeshEntity(u.nextId - 1)]))
  {
    EscapeOnlyTables();
    var switched := u.(state := MainMenu, next := Unchanged);
    LeaveGameAsWritten(switched);
    RunOne(SystemId.SetupMainMenu, switched.(entities := [Game.MeshEntity(u.nextId - 1)]));
  }

  lemma EscapeOnlyTables()
    ensures UpdateSystems(EscapeOnlyWiring.update, InGame) == Game.GameSystems + [HandleEscapeToMenu]
    ensures HookSystems(EscapeOnlyWiring.onExit, InGame) == [SystemId.CleanupGame(Mesh)]
    ensures HookSystems(EscapeOnlyWiring.onEnter, MainMenu) == [SystemId.SetupMainMenu]
  {
    Game.GameBuiltTable(Game.GameSystems + [HandleEscapeToMenu], Mesh, InGame);
    Game.GameBuiltTable(Game.GameSystems + [HandleEscapeToMenu], Mesh, MainMenu);
  }

  /** A rectangle left in front of a fresh menu: a 2D mesh in the world, and not the menu alone. */
  lemma RectangleBesideMenu(rectangle: EntityId, base: EntityId)
    ensures var es := [Game.MeshEntity(rectangle)] + Menu.MainMenuScreen(base, Menu.Shown(None), Menu.Shown(None));
      && Query(es, {Mesh2d}) == [rectangle]
      && |es| != Menu.MainMenuSize
  {
    var screen := Menu.MainMenuScreen(base, Menu.Shown(None), Menu.Shown(None));
    QueryAppend([Game.MeshEntity(rectangle)], screen, {Mesh2d});
    Menu.MainMenuNodesAndMeshes(base, Menu.Shown(None), Menu.Shown(None));
  }

  /** With the filter as written, leaving the game despawns its camera and keeps the rectangle. */
  lemma LeaveGameAsWritten(w: WorldState)
    requires Shows(w.entities, w.nextId, InGame)
    ensures RunAll([SystemId.CleanupGame(Mesh)], w) == w.(entities := [Game.MeshEntity(w.nextId - 1)])
  {
    var base := w.nextId - Game.GameSceneSize;
    var scene := Game.GameScene(base);
    assert w.entities == scene;
    Game.CleanupKeepsRectangle(base);
    assert ApplyCommands(scene, Game.CleanupGameCommands(scene, Mesh)) == [Game.MeshEntity(base + 1)];
    assert Game.AfterCleanupGame(w, Mesh) == w.(entities := [Game.MeshEntity(w.nextId - 1)]);
    RunOne(SystemId.CleanupGame(Mesh), w);
  }

  // ---------------------------------------------------------------- app.run()

  /** `main`: builds the app, starts it, and runs one frame per input. */
  method RunApp(inputs: seq<Input>) returns (w: World)
    ensures w.Value() == Run(Game.AppWiring, inputs)
    ensures Inv(w.Value())
  {
    var app := Game.BuildApp();
    w := new World(Initial);
    if app.stateInit {
      RunSystems(w, HookSystems(app.onEnter, Default()));
    }
    for i := 0 to |inputs|
      invariant w.Value() == Run(Game.AppWiring, inputs[..i])
      invariant app.Value() == Game.AppWiring
    {
      assert inputs[..i + 1][..i] == inputs[..i];
      RunFrame(w, app, inputs[i]);
    }
    assert inputs[..|inputs|] == inputs;
    AppConforms();
    RunKeepsInv(Game.AppWiring, inputs);
  }
}
