/**
 * The parts of Bevy's `App` builder the core uses: `init_state`, `add_plugins`, and
 * `add_systems` into `Update` (with a `run_if(in_state(..))` guard) and into the
 * `OnEnter`/`OnExit` schedules of a state. The builder only records registrations;
 * what they mean when frames run is in the Flow module.
 */
module Apps {
  import opened GameStates
  import Ecs

  /**
   * The systems of the core, by the name of the Rust function that implements them;
   * `CleanupGame` carries the mesh component its query filter names.
   */
  datatype SystemId =
    | SetupMainMenu
    | HandleButtonInteractions
    | HandleMenuActions
    | HandleEscapeToMenu
    | CleanupMainMenu
    | SetupNewWorldkeeperScreen
    | CleanupNewWorldkeeperScreen
    | SetupGame
    | CleanupGame(mesh: Ecs.Marker)
    | HandleInput
    | MoveCamera

  /** The plugins of the core (src/plugins/menu_plugin.rs). */
  datatype PluginId = MenuPlugin | NewWorldkeeperPlugin

  /** A system in `Update` that runs only while the state is `when`. */
  datatype Scheduled = Scheduled(system: SystemId, when: GameState)

  /** A system in the `OnEnter(state)` or `OnExit(state)` schedule. */
  datatype Hook = Hook(state: GameState, system: SystemId)

  /** Everything the builder has registered, in registration order. */
  datatype Wiring = Wiring(
    stateInit: bool,
    plugins: seq<PluginId>,
    update: seq<Scheduled>,
    onEnter: seq<Hook>,
    onExit: seq<Hook>)

  /** The registrations of `App::new()`. */
  const Empty := Wiring(false, [], [], [], [])

  /** The `Update` systems whose guard holds in `s`, in registration order. */
  function UpdateSystems(update: seq<Scheduled>, s: GameState): (r: seq<SystemId>)
    ensures |r| <= |update|
    decreases |update|
  {
    if update == [] then []
    else
      var last := update[|update| - 1];
      UpdateSystems(update[..|update| - 1], s) + (if last.when == s then [last.system] else [])
  }

  /** The systems of the hooks registered for `s`, in registration order. */
  function HookSystems(hooks: seq<Hook>, s: GameState): (r: seq<SystemId>)
    ensures |r| <= |hooks|
    decreases |hooks|
  {
    if hooks == [] then []
    else
      var last := hooks[|hooks| - 1];
      HookSystems(hooks[..|hooks| - 1], s) + (if last.state == s then [last.system] else [])
  }

  /** A system is selected for `s` exactly when one of its registrations is for `s`. */
  lemma {:induction false} UpdateSystemsSelects(update: seq<Scheduled>, s: GameState)
    ensures forall sys :: sys in UpdateSystems(update, s) <==> Scheduled(sys, s) in update
    decreases |update|
  {
    if update != [] {
      var init := update[..|update| - 1];
      UpdateSystemsSelects(init, s);
      assert update == init + [update[|update| - 1]];
    }
  }

  lemma {:induction false} HookSystemsSelects(hooks: seq<Hook>, s: GameState)
    ensures forall sys :: sys in HookSystems(hooks, s) <==> Hook(s, sys) in hooks
    decreases |hooks|
  {
    if hooks != [] {
      var init := hooks[..|hooks| - 1];
      HookSystemsSelects(init, s);
      assert hooks == init + [hooks[|hooks| - 1]];
    }
  }

  /** Registering more systems only appends to those selected for a state. */
  lemma {:induction false} UpdateSystemsAppend(a: seq<Scheduled>, b: seq<Scheduled>, s: GameState)
    ensures UpdateSystems(a + b, s) == UpdateSystems(a, s) + UpdateSystems(b, s)
    decreases |b|
  {
    if b == [] {
      assert a + b == a;
    } else {
      var init := b[..|b| - 1];
      assert (a + b)[..|a + b| - 1] == a + init;
      assert (a + b)[|a + b| - 1] == b[|b| - 1];
      UpdateSystemsAppend(a, init, s);
    }
  }

  lemma {:induction false} HookSystemsAppend(a: seq<Hook>, b: seq<Hook>, s: GameState)
    ensures HookSystems(a + b, s) == HookSystems(a, s) + HookSystems(b, s)
    decreases |b|
  {
    if b == [] {
      assert a + b == a;
    } else {
      var init := b[..|b| - 1];
      assert (a + b)[..|a + b| - 1] == a + init;
      assert (a + b)[|a + b| - 1] == b[|b| - 1];
      HookSystemsAppend(a, init, s);
    }
  }

  /** `(s1, s2, ..).run_if(in_state(when))`: each system guarded by the same state. */
  function Guarded(systems: seq<SystemId>, when: GameState): (r: seq<Scheduled>)
    ensures |r| == |systems|
    ensures forall k :: 0 <= k < |r| ==> r[k] == Scheduled(systems[k], when)
  {
    seq(|systems|, k requires 0 <= k < |systems| => Scheduled(systems[k], when))
  }

  /** A guarded tuple runs, in its state, exactly its own systems in order, and nothing elsewhere. */
  lemma {:induction false} GuardedSelects(systems: seq<SystemId>, when: GameState, s: GameState)
    ensures UpdateSystems(Guarded(systems, when), s) == if s == when then systems else []
    decreases |systems|
  {
    if systems != [] {
      var init, g := systems[..|systems| - 1], Guarded(systems, when);
      assert g[..|g| - 1] == Guarded(init, when);
      assert g[|g| - 1] == Scheduled(systems[|systems| - 1], when);
      assert UpdateSystems(g, s) == UpdateSystems(Guarded(init, when), s)
        + (if when == s then [systems[|systems| - 1]] else []);
      GuardedSelects(init, when, s);
      assert systems == init + [systems[|systems| - 1]];
    }
  }

  /** The app under construction. */
  class App {
    var stateInit: bool
    var plugins: seq<PluginId>
    var update: seq<Scheduled>
    var onEnter: seq<Hook>
    var onExit: seq<Hook>

    function Value(): Wiring
      reads this
    {
      Wiring(stateInit, plugins, update, onEnter, onExit)
    }

    /** `App::new()`. */
    constructor ()
      ensures Value() == Empty
    {
      stateInit, plugins, update, onEnter, onExit := false, [], [], [], [];
    }

    /** `init_state::<GameState>()`: installs the state machine, starting in the default state. */
    method InitState()
      modifies this
      ensures Value() == old(Value()).(stateInit := true)
    {
      stateInit := true;
    }

    /** Records that `add_plugins` installed `p` (its `build` does the registering). */
    method AddPlugin(p: PluginId)
      modifies this
      ensures Value() == old(Value()).(plugins := old(plugins) + [p])
    {
      plugins := plugins + [p];
    }

    /** `add_systems(Update, systems.run_if(in_state(when)))`. */
    method AddUpdate(systems: seq<SystemId>, when: GameState)
      modifies this
      ensures Value() == old(Value()).(update := old(update) + Guarded(systems, when))
    {
      update := update + Guarded(systems, when);
    }

    /** `add_systems(OnEnter(state), system)`. */
    method AddOnEnter(state: GameState, system: SystemId)
      modifies this
      ensures Value() == old(Value()).(onEnter := old(onEnter) + [Hook(state, system)])
    {
      onEnter := onEnter + [Hook(state, system)];
    }

    /** `add_systems(OnExit(state), system)`. */
    method AddOnExit(state: GameState, system: SystemId)
      modifies this
      ensures Value() == old(Value()).(onExit := old(onExit) + [Hook(state, system)])
    {
      onExit := onExit + [Hook(state, system)];
    }
  }
}
