/**
 * The plugins of src/plugins/menu_plugin.rs: the wiring `MenuPlugin` and
 * `NewWorldkeeperPlugin` register, and the New Worldkeeper screen's setup and cleanup.
 */
module Plugins {
  import opened GameStates
  import opened Ui
  import opened Ecs
  import opened Apps
  import Menu

  // ---------------------------------------------------------------- the New Worldkeeper screen

  /** Number of entities `setup_new_worldkeeper_screen` spawns. */
  const NewWorldkeeperSize := 4

  /** The New Worldkeeper screen with ids from `base`: camera, green root, heading, hint. */
  function NewWorldkeeperScreen(base: EntityId): seq<Entity>
  {
    [ Menu.CameraEntity(base),
      Menu.UiNode(base + 1, [], {}, WorldkeeperGreen),
      Menu.UiNode(base + 2, [base + 1], {Text}, Transparent),
      Menu.UiNode(base + 3, [base + 1], {Text}, Transparent) ]
  }

  function AfterSetupNewWorldkeeperScreen(w: WorldState): WorldState
  {
    w.(entities := w.entities + NewWorldkeeperScreen(w.nextId), nextId := w.nextId + NewWorldkeeperSize)
  }

  /** `setup_new_worldkeeper_screen`: spawns a camera and the screen's node hierarchy. */
  method SetupNewWorldkeeperScreen(w: World)
    modifies w
    ensures w.Value() == AfterSetupNewWorldkeeperScreen(old(w.Value()))
  {
    var camera := w.Reserve();
    var root := w.Reserve();
    var heading := w.Reserve();
    var hint := w.Reserve();
    var spawned := [
      Menu.CameraEntity(camera),
      Menu.UiNode(root, [], {}, WorldkeeperGreen),
      Menu.UiNode(heading, [root], {Text}, Transparent),
      Menu.UiNode(hint, [root], {Text}, Transparent) ];
    ApplySpawns(w.entities, spawned);
    w.Apply(Spawns(spawned));
  }

  /** The screen holds exactly one camera: the first entity it spawns. */
  lemma NewWorldkeeperCameras(base: EntityId)
    ensures Query(NewWorldkeeperScreen(base), {Camera}) == [base]
  {
    var s := NewWorldkeeperScreen(base);
    QueryAppend([s[0]], s[1..], {Camera});
    assert s == [s[0]] + s[1..];
    assert [s[0]][1..] == [];
    assert Matches(s[0], {Camera});
    QueryNone(s[1..], {Camera});
  }

  /** `setup_new_worldkeeper_screen` adds exactly one camera and no menu button. */
  lemma SetupNewWorldkeeperAdds(w: WorldState)
    ensures var after := AfterSetupNewWorldkeeperScreen(w).entities;
      && Query(after, {Camera}) == Query(w.entities, {Camera}) + [w.nextId]
      && Menu.ButtonActions(after) == Menu.ButtonActions(w.entities)
  {
    var screen := NewWorldkeeperScreen(w.nextId);
    QueryAppend(w.entities, screen, {Camera});
    NewWorldkeeperCameras(w.nextId);
    Menu.ButtonActionsAppend(w.entities, screen);
    NewWorldkeeperHasNoButtons(w.nextId);
  }

  /** The screen is made of UI nodes; it has no menu root and no mesh. */
  lemma NewWorldkeeperNodes(base: EntityId)
    ensures Query(NewWorldkeeperScreen(base), {Node}) != []
    ensures Query(NewWorldkeeperScreen(base), {MainMenuMarker}) == []
    ensures Query(NewWorldkeeperScreen(base), {Mesh2d}) == []
  {
    var s := NewWorldkeeperScreen(base);
    assert Query(s, {Node}) == Query(s[..1], {Node}) + Query(s[1..], {Node}) by {
      QueryAppend(s[..1], s[1..], {Node});
      assert s == s[..1] + s[1..];
    }
    assert Matches(s[1], {Node});
    QueryNone(s, {MainMenuMarker});
    QueryNone(s, {Mesh2d});
  }

  /** The screen has no menu button, and no entity with an Interaction. */
  lemma NewWorldkeeperHasNoButtons(base: EntityId)
    ensures forall e :: e in NewWorldkeeperScreen(base) ==> e.menuButton.Absent? && e.interaction.Absent?
    ensures Menu.ButtonActions(NewWorldkeeperScreen(base)) == []
  {
    Menu.ButtonActionsNone(NewWorldkeeperScreen(base));
  }

  /** The buffer `cleanup_new_worldkeeper_screen` queues: a recursive despawn per node and per camera. */
  function CleanupNewWorldkeeperCommands(es: seq<Entity>): seq<Command>
  {
    DespawnEach(Query(es, {Node, Camera}), true)
  }

  function AfterCleanupNewWorldkeeperScreen(w: WorldState): WorldState
  {
    w.(entities := ApplyCommands(w.entities, CleanupNewWorldkeeperCommands(w.entities)))
  }

  /** `cleanup_new_worldkeeper_screen`: despawns every node and every camera, with descendants. */
  method CleanupNewWorldkeeperScreen(w: World)
    modifies w
    ensures w.Value() == AfterCleanupNewWorldkeeperScreen(old(w.Value()))
  {
    var targets := Query(w.entities, {Node, Camera});
    var cmds: seq<Command> := [];
    for i := 0 to |targets|
      invariant cmds == DespawnEach(targets[..i], true)
    {
      assert targets[..i + 1][..i] == targets[..i];
      cmds := cmds + [DespawnRecursive(targets[i])];
    }
    assert targets[..|targets|] == targets;
    w.Apply(cmds);
  }

  /**
   * The cleanup keeps exactly the entities that are neither a node nor a camera and lie
   * under no node or camera.
   */
  lemma CleanupNewWorldkeeperRemoves(es: seq<Entity>)
    ensures forall e :: e in ApplyCommands(es, CleanupNewWorldkeeperCommands(es)) <==>
      && e in es
      && forall t :: t in es && (Node in t.markers || Camera in t.markers) ==> !InSubtree(e, t.id)
  {
    var targets := Query(es, {Node, Camera});
    var cs := CleanupNewWorldkeeperCommands(es);
    ApplyDespawns(es, cs);
    QueryFinds(es, {Node, Camera});
    QueryOnlyMatches(es, {Node, Camera});
    forall e | e in es
      ensures (forall c :: c in cs ==> !Removes(c, e)) <==>
        forall t :: t in es && (Node in t.markers || Camera in t.markers) ==> !InSubtree(e, t.id)
    {
      forall t | t in es && (Node in t.markers || Camera in t.markers) && InSubtree(e, t.id)
        ensures exists d :: d in cs && Removes(d, e)
      {
        assert Matches(t, {Node, Camera});
        assert DespawnRecursive(t.id) in cs;
      }
      forall d | d in cs && Removes(d, e)
        ensures exists t :: t in es && (Node in t.markers || Camera in t.markers) && InSubtree(e, t.id)
      {
        assert d.id in targets;
      }
    }
  }

  /** Every entity of the screen is its camera or lies under its root node. */
  lemma NewWorldkeeperUnderRoot(base: EntityId)
    ensures forall e :: e in NewWorldkeeperScreen(base) ==> e.id == base || InSubtree(e, base + 1)
  {
  }

  /** Leaving the New Worldkeeper screen clears it entirely. */
  lemma CleanupClearsNewWorldkeeperScreen(base: EntityId)
    ensures ApplyCommands(NewWorldkeeperScreen(base), CleanupNewWorldkeeperCommands(NewWorldkeeperScreen(base))) == []
  {
    var s := NewWorldkeeperScreen(base);
    var cs := CleanupNewWorldkeeperCommands(s);
    QueryFinds(s, {Node, Camera});
    assert Matches(s[0], {Node, Camera}) && Matches(s[1], {Node, Camera});
    assert DespawnRecursive(base) in cs && DespawnRecursive(base + 1) in cs;
    NewWorldkeeperUnderRoot(base);
    forall e | e in s
      ensures exists c :: c in cs && Removes(c, e)
    {
      assert Removes(DespawnRecursive(base), e) || Removes(DespawnRecursive(base + 1), e);
    }
    ApplyDespawnsClear(s, cs);
  }

  // ---------------------------------------------------------------- plugin wiring

  /** The Update systems `MenuPlugin` runs while the state is MainMenu, in registration order. */
  const MenuSystems := [HandleButtonInteractions, HandleMenuActions, HandleEscapeToMenu]

  /** The registrations `MenuPlugin::build` adds. */
  function MenuPluginBuilt(wr: Wiring): Wiring
  {
    wr.(stateInit := true,
        onEnter := wr.onEnter + [Hook(MainMenu, SetupMainMenu)],
        update := wr.update + Guarded(MenuSystems, MainMenu),
        onExit := wr.onExit + [Hook(MainMenu, CleanupMainMenu)])
  }

  /** `MenuPlugin::build`. */
  method BuildMenuPlugin(app: App)
    modifies app
    ensures app.Value() == MenuPluginBuilt(old(app.Value()))
  {
    app.InitState();
    app.AddOnEnter(MainMenu, SetupMainMenu);
    app.AddUpdate(MenuSystems, MainMenu);
    app.AddOnExit(MainMenu, CleanupMainMenu);
  }

  /**
   * `MenuPlugin` installs the state machine; in MainMenu it adds the hover, action and
   * Escape handlers, the menu setup on entry and the menu cleanup on exit; it adds
   * nothing for any other state.
   */
  lemma MenuPluginRegisters(wr: Wiring, s: GameState)
    ensures MenuPluginBuilt(wr).stateInit
    ensures UpdateSystems(MenuPluginBuilt(wr).update, s)
         == UpdateSystems(wr.update, s) + (if s == MainMenu then MenuSystems else [])
    ensures HookSystems(MenuPluginBuilt(wr).onEnter, s)
         == HookSystems(wr.onEnter, s) + (if s == MainMenu then [SetupMainMenu] else [])
    ensures HookSystems(MenuPluginBuilt(wr).onExit, s)
         == HookSystems(wr.onExit, s) + (if s == MainMenu then [CleanupMainMenu] else [])
  {
    UpdateSystemsAppend(wr.update, Guarded(MenuSystems, MainMenu), s);
    GuardedSelects(MenuSystems, MainMenu, s);
    HookSystemsAppend(wr.onEnter, [Hook(MainMenu, SetupMainMenu)], s);
    HookSystemsAppend(wr.onExit, [Hook(MainMenu, CleanupMainMenu)], s);
    assert [Hook(MainMenu, SetupMainMenu)][..0] == [];
    assert [Hook(MainMenu, CleanupMainMenu)][..0] == [];
  }

  /** The registrations `NewWorldkeeperPlugin::build` adds. */
  function NewWorldkeeperPluginBuilt(wr: Wiring): Wiring
  {
    wr.(onEnter := wr.onEnter + [Hook(GameState.NewWorldkeeper, SystemId.SetupNewWorldkeeperScreen)],
        update := wr.update + Guarded([HandleEscapeToMenu], GameState.NewWorldkeeper),
        onExit := wr.onExit + [Hook(GameState.NewWorldkeeper, SystemId.CleanupNewWorldkeeperScreen)])
  }

  /** `NewWorldkeeperPlugin::build`. */
  method BuildNewWorldkeeperPlugin(app: App)
    modifies app
    ensures app.Value() == NewWorldkeeperPluginBuilt(old(app.Value()))
  {
    app.AddOnEnter(GameState.NewWorldkeeper, SystemId.SetupNewWorldkeeperScreen);
    app.AddUpdate([HandleEscapeToMenu], GameState.NewWorldkeeper);
    app.AddOnExit(GameState.NewWorldkeeper, SystemId.CleanupNewWorldkeeperScreen);
  }

  /**
   * `NewWorldkeeperPlugin` adds, for the NewWorldkeeper state only, the Escape handler,
   * the screen setup on entry and the screen cleanup on exit.
   */
  lemma NewWorldkeeperPluginRegisters(wr: Wiring, s: GameState)
    ensures NewWorldkeeperPluginBuilt(wr).stateInit == wr.stateInit
    ensures UpdateSystems(NewWorldkeeperPluginBuilt(wr).update, s)
         == UpdateSystems(wr.update, s) + (if s == GameState.NewWorldkeeper then [HandleEscapeToMenu] else [])
    ensures HookSystems(NewWorldkeeperPluginBuilt(wr).onEnter, s)
         == HookSystems(wr.onEnter, s) + (if s == GameState.NewWorldkeeper then [SystemId.SetupNewWorldkeeperScreen] else [])
    ensures HookSystems(NewWorldkeeperPluginBuilt(wr).onExit, s)
         == HookSystems(wr.onExit, s) + (if s == GameState.NewWorldkeeper then [SystemId.CleanupNewWorldkeeperScreen] else [])
  {
    UpdateSystemsAppend(wr.update, Guarded([HandleEscapeToMenu], GameState.NewWorldkeeper), s);
    GuardedSelects([HandleEscapeToMenu], GameState.NewWorldkeeper, s);
    HookSystemsAppend(wr.onEnter, [Hook(GameState.NewWorldkeeper, SystemId.SetupNewWorldkeeperScreen)], s);
    HookSystemsAppend(wr.onExit, [Hook(GameState.NewWorldkeeper, SystemId.CleanupNewWorldkeeperScreen)], s);
    assert [Hook(GameState.NewWorldkeeper, SystemId.SetupNewWorldkeeperScreen)][..0] == [];
    assert [Hook(GameState.NewWorldkeeper, SystemId.CleanupNewWorldkeeperScreen)][..0] == [];
  }
}
