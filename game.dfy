/**
 * The application of src/main.rs: the InGame scene's setup and cleanup, the gameplay
 * input handler, and the app the `main` builder chain assembles.
 */
module Game {
  import opened GameStates
  import opened Ecs
  import opened Apps
  import Menu
  import Plugins

  // ---------------------------------------------------------------- the game scene

  /**
   * The placeholder rectangle. A `ColorMesh2dBundle` holds its mesh in a `Mesh2dHandle`
   * component (the `.into()` converts the `Handle<Mesh>` that `meshes.add` returns), so the
   * entity carries Mesh2d and no bare `Handle<Mesh>`.
   */
  function MeshEntity(id: EntityId): Entity
  {
    Entity(id, [], {Mesh2d}, Absent, Absent, Absent)
  }

  /** Number of entities `setup_game` spawns. */
  const GameSceneSize := 2

  /** The game scene with ids from `base`: a camera and the placeholder mesh. */
  function GameScene(base: EntityId): seq<Entity>
  {
    [Menu.CameraEntity(base), MeshEntity(base + 1)]
  }

  function AfterSetupGame(w: WorldState): WorldState
  {
    w.(entities := w.entities + GameScene(w.nextId), nextId := w.nextId + GameSceneSize)
  }

  /** `setup_game`: spawns a camera and the placeholder mesh. */
  method SetupGame(w: World)
    modifies w
    ensures w.Value() == AfterSetupGame(old(w.Value()))
  {
    var camera := w.Reserve();
    var rectangle := w.Reserve();
    var spawned := [Menu.CameraEntity(camera), MeshEntity(rectangle)];
    ApplySpawns(w.entities, spawned);
    w.Apply(Spawns(spawned));
  }

  /** The scene holds exactly one camera and one 2D mesh, no bare mesh handle, and no menu button. */
  lemma GameSceneContents(base: EntityId)
    ensures Query(GameScene(base), {Camera}) == [base]
    ensures Query(GameScene(base), {Mesh2d}) == [base + 1]
    ensures Query(GameScene(base), {Mesh}) == []
    ensures forall e :: e in GameScene(base) ==> e.menuButton.Absent? && e.interaction.Absent?
  {
    var s := GameScene(base);
    assert s[1..][1..] == [];
  }

  /** `setup_game` adds exactly one camera and exactly one 2D mesh entity. */
  lemma SetupGameAdds(w: WorldState)
    ensures var after := AfterSetupGame(w).entities;
      && Query(after, {Camera}) == Query(w.entities, {Camera}) + [w.nextId]
      && Query(after, {Mesh2d}) == Query(w.entities, {Mesh2d}) + [w.nextId + 1]
  {
    QueryAppend(w.entities, GameScene(w.nextId), {Camera});
    QueryAppend(w.entities, GameScene(w.nextId), {Mesh2d});
    GameSceneContents(w.nextId);
  }

  /**
   * The buffer `cleanup_game` queues: a recursive despawn per entity that is a camera or
   * carries `mesh`, the mesh component its filter names (Mesh, a bare `Handle<Mesh>`, as
   * written; Mesh2d, the rectangle's `Mesh2dHandle`, as intended).
   */
  function CleanupGameCommands(es: seq<Entity>, mesh: Marker): seq<Command>
  {
    DespawnEach(Query(es, {Camera, mesh}), true)
  }

  function AfterCleanupGame(w: WorldState, mesh: Marker): WorldState
  {
    w.(entities := ApplyCommands(w.entities, CleanupGameCommands(w.entities, mesh)))
  }

  /** `cleanup_game`, filtering on `mesh`: despawns every camera and every such entity, with descendants. */
  method CleanupGame(w: World, mesh: Marker)
    modifies w
    ensures w.Value() == AfterCleanupGame(old(w.Value()), mesh)
  {
    var targets := Query(w.entities, {Camera, mesh});
    var cmds: seq<Command> := [];
    for i := 0 to |targets|
      invariant cmds == DespawnEach(targets[..i], true)
    {
      assert targets[..i + 1][..i] == targets[..i] && targets[..i + 1][i] == targets[i];
      cmds := cmds + [DespawnRecursive(targets[i])];
    }
    assert targets[..|targets|] == targets;
    assert cmds == CleanupGameCommands(w.entities, mesh);
    w.Apply(cmds);
  }

  /**
   * The cleanup keeps exactly the entities that carry neither Camera nor `mesh` and lie
   * under no entity that does.
   */
  lemma CleanupGameRemoves(es: seq<Entity>, mesh: Marker)
    ensures forall e :: e in ApplyCommands(es, CleanupGameCommands(es, mesh)) <==>
      && e in es
      && forall t :: t in es && (Camera in t.markers || mesh in t.markers) ==> !InSubtree(e, t.id)
  {
    ApplyDespawns(es, CleanupGameCommands(es, mesh));
    forall e | e in es
      ensures (forall c :: c in CleanupGameCommands(es, mesh) ==> !Removes(c, e)) <==>
        forall t :: t in es && (Camera in t.markers || mesh in t.markers) ==> !InSubtree(e, t.id)
    {
      CleanupGameSpares(es, mesh, e);
    }
  }

  /** One entity survives the game cleanup exactly when it lies under no targeted entity. */
  lemma CleanupGameSpares(es: seq<Entity>, mesh: Marker, e: Entity)
    ensures (forall c :: c in CleanupGameCommands(es, mesh) ==> !Removes(c, e)) <==>
      forall t :: t in es && (Camera in t.markers || mesh in t.markers) ==> !InSubtree(e, t.id)
  {
    var targets := Query(es, {Camera, mesh});
    var cs := CleanupGameCommands(es, mesh);
    QueryFinds(es, {Camera, mesh});
    QueryOnlyMatches(es, {Camera, mesh});
    forall t | t in es && (Camera in t.markers || mesh in t.markers) && InSubtree(e, t.id)
      ensures exists d :: d in cs && Removes(d, e)
    {
      assert Matches(t, {Camera, mesh});
      assert DespawnRecursive(t.id) in cs;
    }
    forall d | d in cs && Removes(d, e)
      ensures exists t :: t in es && (Camera in t.markers || mesh in t.markers) && InSubtree(e, t.id)
    {
      assert d.id in targets;
    }
  }

  /**
   * As written, the cleanup misses the rectangle: `With<Handle<Mesh>>` matches no entity of
   * the scene, so only the camera is despawned and the rectangle stays.
   */
  lemma CleanupKeepsRectangle(base: EntityId)
    ensures ApplyCommands(GameScene(base), CleanupGameCommands(GameScene(base), Mesh)) == [MeshEntity(base + 1)]
  {
    var s := GameScene(base);
    assert s[1..][1..] == [];
    assert !Matches(s[1], {Camera, Mesh});
    assert Query(s, {Camera, Mesh}) == [base];
    assert CleanupGameCommands(s, Mesh) == [DespawnRecursive(base)];
    assert CleanupGameCommands(s, Mesh)[..0] == [];
    assert Survivors(s[1..], DespawnRecursive(base)) == [MeshEntity(base + 1)];
  }

  /** Filtering on the rectangle's `Mesh2dHandle`, leaving the game clears its scene entirely. */
  lemma CleanupClearsGameScene(base: EntityId)
    ensures ApplyCommands(GameScene(base), CleanupGameCommands(GameScene(base), Mesh2d)) == []
  {
    var s := GameScene(base);
    var cs := CleanupGameCommands(s, Mesh2d);
    QueryFinds(s, {Camera, Mesh2d});
    assert Matches(s[0], {Camera, Mesh2d}) && Matches(s[1], {Camera, Mesh2d});
    assert DespawnRecursive(base) in cs && DespawnRecursive(base + 1) in cs;
    forall e | e in s
      ensures exists c :: c in cs && Removes(c, e)
    {
      assert Removes(DespawnRecursive(base), e) || Removes(DespawnRecursive(base + 1), e);
    }
    ApplyDespawnsClear(s, cs);
  }

  // ---------------------------------------------------------------- handle_input

  /**
   * `handle_input`: notices a just-pressed Space. Its only effect in the source is a log
   * line, so it changes nothing in the world; the answer stands for that line.
   */
  method HandleInput(w: World) returns (spacePressed: bool)
    ensures spacePressed <==> Space in w.justPressed
  {
    spacePressed := Space in w.justPressed;
  }

  // ---------------------------------------------------------------- main

  /** The Update systems `main` runs while the state is InGame, in registration order. */
  const GameSystems := [SystemId.HandleInput, MoveCamera]

  /** The registrations of the two custom plugins, each built in turn by `add_plugins`. */
  const PluginsWiring: Wiring :=
    Plugins.NewWorldkeeperPluginBuilt(
      Plugins.MenuPluginBuilt(Empty.(plugins := [MenuPlugin])).(plugins := [MenuPlugin, NewWorldkeeperPlugin]))

  /**
   * The registrations `main` adds after the plugins, with `systems` as the Update systems
   * of InGame and `cleanup_game` filtering on `mesh`.
   */
  function GameBuilt(wr: Wiring, systems: seq<SystemId>, mesh: Marker): Wiring
  {
    wr.(onEnter := wr.onEnter + [Hook(InGame, SystemId.SetupGame)],
        update := wr.update + Guarded(systems, InGame),
        onExit := wr.onExit + [Hook(InGame, SystemId.CleanupGame(mesh))])
  }

  /** The app `main` assembles, `cleanup_game` filtering on `Handle<Mesh>`. */
  const AppWiring: Wiring := GameBuilt(PluginsWiring, GameSystems, Mesh)

  /** The builder chain of `main`, up to `run()`. */
  method BuildApp() returns (app: App)
    ensures fresh(app)
    ensures app.Value() == AppWiring
  {
    app := new App();
    app.AddPlugin(MenuPlugin);
    Plugins.BuildMenuPlugin(app);
    app.AddPlugin(NewWorldkeeperPlugin);
    Plugins.BuildNewWorldkeeperPlugin(app);
    app.AddOnEnter(InGame, SystemId.SetupGame);
    app.AddUpdate(GameSystems, InGame);
    app.AddOnExit(InGame, SystemId.CleanupGame(Mesh));
  }

  /** The Update systems that run in each state. */
  function UpdateTable(s: GameState): seq<SystemId>
  {
    match s
    case MainMenu => Plugins.MenuSystems
    case NewWorldkeeper => [HandleEscapeToMenu]
    case InGame => GameSystems
    case Paused | GameOver => []
  }

  /** The OnEnter hooks of each state. */
  function EnterTable(s: GameState): seq<SystemId>
  {
    match s
    case MainMenu => [SystemId.SetupMainMenu]
    case NewWorldkeeper => [SystemId.SetupNewWorldkeeperScreen]
    case InGame => [SystemId.SetupGame]
    case Paused | GameOver => []
  }

  /** The OnExit hooks of each state. */
  function ExitTable(s: GameState): seq<SystemId>
  {
    match s
    case MainMenu => [SystemId.CleanupMainMenu]
    case NewWorldkeeper => [SystemId.CleanupNewWorldkeeperScreen]
    case InGame => [SystemId.CleanupGame(Mesh)]
    case Paused | GameOver => []
  }

  /** The two plugins alone install the state machine and register everything but InGame's systems and hooks. */
  lemma PluginsTable(s: GameState)
    ensures PluginsWiring.stateInit
    ensures PluginsWiring.plugins == [MenuPlugin, NewWorldkeeperPlugin]
    ensures UpdateSystems(PluginsWiring.update, s) == if s == InGame then [] else UpdateTable(s)
    ensures HookSystems(PluginsWiring.onEnter, s) == if s == InGame then [] else EnterTable(s)
    ensures HookSystems(PluginsWiring.onExit, s) == if s == InGame then [] else ExitTable(s)
  {
    var w0 := Empty.(plugins := [MenuPlugin]);
    var w1 := Plugins.MenuPluginBuilt(w0).(plugins := [MenuPlugin, NewWorldkeeperPlugin]);
    Plugins.MenuPluginRegisters(w0, s);
    Plugins.NewWorldkeeperPluginRegisters(w1, s);
  }

  /**
   * The plugins followed by `main`'s registrations, with `systems` in InGame's Update and
   * `cleanup_game` filtering on `mesh`, run in each state the plugins' systems and hooks
   * and, in InGame, `setup_game`, `systems` and `cleanup_game`.
   */
  lemma GameBuiltTable(systems: seq<SystemId>, mesh: Marker, s: GameState)
    ensures GameBuilt(PluginsWiring, systems, mesh).stateInit
    ensures GameBuilt(PluginsWiring, systems, mesh).plugins == [MenuPlugin, NewWorldkeeperPlugin]
    ensures UpdateSystems(GameBuilt(PluginsWiring, systems, mesh).update, s)
         == if s == InGame then systems else UpdateTable(s)
    ensures HookSystems(GameBuilt(PluginsWiring, systems, mesh).onEnter, s) == EnterTable(s)
    ensures HookSystems(GameBuilt(PluginsWiring, systems, mesh).onExit, s)
         == if s == InGame then [SystemId.CleanupGame(mesh)] else ExitTable(s)
  {
    PluginsTable(s);
    UpdateSystemsAppend(PluginsWiring.update, Guarded(systems, InGame), s);
    GuardedSelects(systems, InGame, s);
    GameBuiltHooks(mesh, s);
  }

  lemma GameBuiltHooks(mesh: Marker, s: GameState)
    ensures HookSystems(PluginsWiring.onEnter + [Hook(InGame, SystemId.SetupGame)], s) == EnterTable(s)
    ensures HookSystems(PluginsWiring.onExit + [Hook(InGame, SystemId.CleanupGame(mesh))], s)
         == if s == InGame then [SystemId.CleanupGame(mesh)] else ExitTable(s)
  {
    PluginsTable(s);
    var enter, exit := [Hook(InGame, SystemId.SetupGame)], [Hook(InGame, SystemId.CleanupGame(mesh))];
    HookSystemsAppend(PluginsWiring.onEnter, enter, s);
    HookSystemsAppend(PluginsWiring.onExit, exit, s);
    assert enter[..0] == [] && exit[..0] == [];
  }

  /**
   * The app installs the state machine and exactly the two custom plugins, and runs in
   * each state the Update systems and hooks listed above: the hover, action and Escape
   * handlers only in MainMenu, only the Escape handler in NewWorldkeeper, only
   * `handle_input` and `move_camera` in InGame, and nothing in Paused or GameOver.
   */
  lemma AppWiringTable(s: GameState)
    ensures AppWiring.stateInit
    ensures AppWiring.plugins == [MenuPlugin, NewWorldkeeperPlugin]
    ensures UpdateSystems(AppWiring.update, s) == UpdateTable(s)
    ensures HookSystems(AppWiring.onEnter, s) == EnterTable(s)
    ensures HookSystems(AppWiring.onExit, s) == ExitTable(s)
  {
    GameBuiltTable(GameSystems, Mesh, s);
  }

  /** The Escape handler is scheduled in MainMenu and NewWorldkeeper, and in no other state. */
  lemma EscapeHandlerScheduling(s: GameState)
    ensures HandleEscapeToMenu in UpdateSystems(AppWiring.update, s) <==> s in {MainMenu, GameState.NewWorldkeeper}
  {
    AppWiringTable(s);
  }
}
