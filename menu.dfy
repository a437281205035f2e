/**
 * The main-menu systems (src/systems/menu.rs): building the menu, hover feedback,
 * button actions, tearing the menu down, and Escape back to the menu.
 */
module Menu {
  import opened GameStates
  import opened Ui
  import opened Ecs

  // ---------------------------------------------------------------- entities

  /** A 2D camera entity (`Camera2dBundle`). */
  function CameraEntity(id: EntityId): Entity
  {
    Entity(id, [], {Camera}, Absent, Absent, Absent)
  }

  /** A UI node (`NodeBundle`, `TextBundle`) under `ancestors`, with the given markers and background. */
  function UiNode(id: EntityId, ancestors: seq<EntityId>, markers: set<Marker>, background: Colour): Entity
  {
    Entity(id, ancestors, {Node} + markers, Absent, Present(background), Absent)
  }

  /** A button's background and Interaction. */
  datatype ButtonLook = ButtonLook(background: Colour, interaction: Interaction)

  /** The look of a button whose background shows its Interaction. */
  function Shown(i: Interaction): ButtonLook
  {
    ButtonLook(HoverColour(i), i)
  }

  /** A menu button (Node, Button, MenuButton) and its text child, as `create_menu_button` lays them out. */
  function MenuButtonTree(id: EntityId, parent: seq<EntityId>, action: MenuAction, look: ButtonLook): seq<Entity>
  {
    [ Entity(id, parent, {Node, Button}, Present(MenuButton(action)), Present(look.background), Present(look.interaction)),
      UiNode(id + 1, parent + [id], {Text, ButtonText}, Transparent) ]
  }

  /** Number of entities `setup_main_menu` spawns. */
  const MainMenuSize := 9

  /** The menu root (MainMenu marker) and its title, subtitle and button container. */
  function MainMenuNodes(base: EntityId): seq<Entity>
  {
    var root := base + 1;
    [ UiNode(root, [], {MainMenuMarker}, MenuBackground),
      UiNode(base + 2, [root], {Text, MenuTitle}, Transparent),
      UiNode(base + 3, [root], {Text}, Transparent),
      UiNode(base + 4, [root], {}, Transparent) ]
  }

  /**
   * The main menu with ids from `base`: camera, root, title, subtitle, button container,
   * then the New Worldkeeper and Start New Game buttons, each followed by its label.
   */
  function MainMenuScreen(base: EntityId, first: ButtonLook, second: ButtonLook): seq<Entity>
  {
    [CameraEntity(base)] + MainMenuNodes(base)
    + MenuButtonTree(base + 5, [base + 1, base + 4], MenuAction.NewWorldkeeper, first)
    + MenuButtonTree(base + 7, [base + 1, base + 4], MenuAction.StartNewGame, second)
  }

  /** The actions of the entities carrying a MenuButton, in world order. */
  function ButtonActions(es: seq<Entity>): seq<MenuAction>
  {
    if es == [] then []
    else (if es[0].menuButton.Present? then [es[0].menuButton.value.action] else []) + ButtonActions(es[1..])
  }

  lemma {:induction false} ButtonActionsAppend(a: seq<Entity>, b: seq<Entity>)
    ensures ButtonActions(a + b) == ButtonActions(a) + ButtonActions(b)
  {
    if a == [] {
      assert a + b == b;
    } else {
      assert (a + b)[0] == a[0];
      assert (a + b)[1..] == a[1..] + b;
      ButtonActionsAppend(a[1..], b);
      var head := if a[0].menuButton.Present? then [a[0].menuButton.value.action] else [];
      assert ButtonActions(a) + ButtonActions(b) == head + (ButtonActions(a[1..]) + ButtonActions(b));
    }
  }

  lemma {:induction false} ButtonActionsNone(es: seq<Entity>)
    requires forall e :: e in es ==> e.menuButton.Absent?
    ensures ButtonActions(es) == []
  {
    if es != [] {
      assert es[0] in es;
      assert forall e :: e in es[1..] ==> e in es;
      ButtonActionsNone(es[1..]);
    }
  }

  lemma ButtonTreeActions(id: EntityId, parent: seq<EntityId>, action: MenuAction, look: ButtonLook)
    ensures ButtonActions(MenuButtonTree(id, parent, action, look)) == [action]
  {
    var t := MenuButtonTree(id, parent, action, look);
    assert t[1..] == [t[1]];
    assert [t[1]][1..] == [];
    assert ButtonActions(t[1..]) == [];
    assert ButtonActions(t) == [action] + ButtonActions(t[1..]);
  }

  // ---------------------------------------------------------------- setup_main_menu

  /** The world after `setup_main_menu`. */
  function AfterSetupMainMenu(w: WorldState): WorldState
  {
    w.(entities := w.entities + MainMenuScreen(w.nextId, Shown(None), Shown(None)),
       nextId := w.nextId + MainMenuSize)
  }

  /** `create_menu_button`: reserves the button and its label and queues their spawns. */
  method CreateMenuButton(w: World, parent: seq<EntityId>, action: MenuAction) returns (cmds: seq<Command>)
    modifies w
    ensures cmds == Spawns(MenuButtonTree(old(w.nextId), parent, action, Shown(None)))
    ensures w.Value() == old(w.Value()).(nextId := old(w.nextId) + 2)
  {
    var button := w.Reserve();
    var caption := w.Reserve();
    var spawned := [
      Entity(button, parent, {Node, Button}, Present(MenuButton(action)), Present(ButtonNormal), Present(None)),
      UiNode(caption, parent + [button], {Text, ButtonText}, Transparent) ];
    cmds := Spawns(spawned);
  }

  /** `setup_main_menu`: spawns the camera and the menu hierarchy. */
  method SetupMainMenu(w: World)
    modifies w
    ensures w.Value() == AfterSetupMainMenu(old(w.Value()))
  {
    var camera := w.Reserve();
    var root := w.Reserve();
    var title := w.Reserve();
    var subtitle := w.Reserve();
    var container := w.Reserve();
    var head := [
      CameraEntity(camera),
      UiNode(root, [], {MainMenuMarker}, MenuBackground),
      UiNode(title, [root], {Text, MenuTitle}, Transparent),
      UiNode(subtitle, [root], {Text}, Transparent),
      UiNode(container, [root], {}, Transparent) ];
    var first := CreateMenuButton(w, [root, container], MenuAction.NewWorldkeeper);
    var second := CreateMenuButton(w, [root, container], MenuAction.StartNewGame);
    var cmds := Spawns(head) + first + second;
    ghost var spawned := MainMenuScreen(camera, Shown(None), Shown(None));
    assert cmds == Spawns(spawned);
    ApplySpawns(w.entities, spawned);
    w.Apply(cmds);
  }

  /** The menu offers exactly two buttons: New Worldkeeper, then Start New Game. */
  lemma MainMenuButtons(base: EntityId, first: ButtonLook, second: ButtonLook)
    ensures ButtonActions(MainMenuScreen(base, first, second)) == [MenuAction.NewWorldkeeper, MenuAction.StartNewGame]
  {
    var head := [CameraEntity(base)] + MainMenuNodes(base);
    var b1 := MenuButtonTree(base + 5, [base + 1, base + 4], MenuAction.NewWorldkeeper, first);
    var b2 := MenuButtonTree(base + 7, [base + 1, base + 4], MenuAction.StartNewGame, second);
    ButtonActionsAppend(head + b1, b2);
    ButtonActionsAppend(head, b1);
    ButtonActionsNone(head);
    ButtonTreeActions(base + 5, [base + 1, base + 4], MenuAction.NewWorldkeeper, first);
    ButtonTreeActions(base + 7, [base + 1, base + 4], MenuAction.StartNewGame, second);
  }

  /** A query over the menu is the query over its camera, its nodes and its two buttons. */
  lemma MainMenuQuery(base: EntityId, first: ButtonLook, second: ButtonLook, wanted: set<Marker>)
    ensures Query(MainMenuScreen(base, first, second), wanted)
         == Query([CameraEntity(base)], wanted) + Query(MainMenuNodes(base), wanted)
          + Query(MenuButtonTree(base + 5, [base + 1, base + 4], MenuAction.NewWorldkeeper, first), wanted)
          + Query(MenuButtonTree(base + 7, [base + 1, base + 4], MenuAction.StartNewGame, second), wanted)
  {
    var camera := [CameraEntity(base)];
    var nodes := MainMenuNodes(base);
    var b1 := MenuButtonTree(base + 5, [base + 1, base + 4], MenuAction.NewWorldkeeper, first);
    var b2 := MenuButtonTree(base + 7, [base + 1, base + 4], MenuAction.StartNewGame, second);
    QueryAppend(camera + nodes + b1, b2, wanted);
    QueryAppend(camera + nodes, b1, wanted);
    QueryAppend(camera, nodes, wanted);
  }

  /** A button and its label are plain UI nodes: no camera, menu root or mesh. */
  lemma ButtonTreeQueries(id: EntityId, parent: seq<EntityId>, action: MenuAction, look: ButtonLook)
    ensures Query(MenuButtonTree(id, parent, action, look), {Camera}) == []
    ensures Query(MenuButtonTree(id, parent, action, look), {MainMenuMarker}) == []
    ensures Query(MenuButtonTree(id, parent, action, look), {Mesh2d}) == []
  {
    var t := MenuButtonTree(id, parent, action, look);
    assert t[1..][1..] == [];
  }

  /** The menu's nodes: the first is the MainMenu root; none is a camera or a mesh. */
  lemma MainMenuNodesQueries(base: EntityId)
    ensures Query(MainMenuNodes(base), {Camera}) == []
    ensures Query(MainMenuNodes(base), {Mesh2d}) == []
    ensures Query(MainMenuNodes(base), {MainMenuMarker}) == [base + 1]
    ensures Query(MainMenuNodes(base), {Node}) != []
  {
    var nodes := MainMenuNodes(base);
    QueryNone(nodes, {Camera});
    QueryNone(nodes, {Mesh2d});
    QueryNone(nodes[1..], {MainMenuMarker});
    assert Matches(nodes[0], {MainMenuMarker}) && Matches(nodes[0], {Node});
  }

  /** The menu holds exactly one camera: the first entity it spawns. */
  lemma MainMenuCameras(base: EntityId, first: ButtonLook, second: ButtonLook)
    ensures Query(MainMenuScreen(base, first, second), {Camera}) == [base]
  {
    MainMenuQuery(base, first, second, {Camera});
    MainMenuNodesQueries(base);
    ButtonTreeQueries(base + 5, [base + 1, base + 4], MenuAction.NewWorldkeeper, first);
    ButtonTreeQueries(base + 7, [base + 1, base + 4], MenuAction.StartNewGame, second);
    assert [CameraEntity(base)][1..] == [];
  }

  /** The menu has one root carrying the MainMenu marker. */
  lemma MainMenuRoots(base: EntityId, first: ButtonLook, second: ButtonLook)
    ensures Query(MainMenuScreen(base, first, second), {MainMenuMarker}) == [base + 1]
  {
    MainMenuQuery(base, first, second, {MainMenuMarker});
    MainMenuNodesQueries(base);
    ButtonTreeQueries(base + 5, [base + 1, base + 4], MenuAction.NewWorldkeeper, first);
    ButtonTreeQueries(base + 7, [base + 1, base + 4], MenuAction.StartNewGame, second);
    assert [CameraEntity(base)][1..] == [];
  }

  /** The menu is made of UI nodes and holds no mesh. */
  lemma MainMenuNodesAndMeshes(base: EntityId, first: ButtonLook, second: ButtonLook)
    ensures Query(MainMenuScreen(base, first, second), {Node}) != []
    ensures Query(MainMenuScreen(base, first, second), {Mesh2d}) == []
  {
    MainMenuQuery(base, first, second, {Node});
    MainMenuQuery(base, first, second, {Mesh2d});
    MainMenuNodesQueries(base);
    ButtonTreeQueries(base + 5, [base + 1, base + 4], MenuAction.NewWorldkeeper, first);
    ButtonTreeQueries(base + 7, [base + 1, base + 4], MenuAction.StartNewGame, second);
    assert [CameraEntity(base)][1..] == [];
  }

  /** Every entity of the menu is its camera or lies under its root. */
  lemma MainMenuUnderRoot(base: EntityId, first: ButtonLook, second: ButtonLook)
    ensures forall e :: e in MainMenuScreen(base, first, second) ==>
      (e.id == base && Camera in e.markers) || (InSubtree(e, base + 1) && Camera !in e.markers)
  {
  }

  // ---------------------------------------------------------------- handle_button_interactions

  /** The hover feedback: the theme colour that shows each Interaction. */
  function HoverColour(i: Interaction): Colour
  {
    match i
    case Pressed => ButtonPressed
    case Hovered => ButtonHovered
    case None => ButtonNormal
  }

  /** Pressed shows BUTTON_PRESSED, Hovered BUTTON_HOVERED and None BUTTON_NORMAL, and no two share a colour. */
  lemma HoverColourDistinguishes(i: Interaction, j: Interaction)
    ensures HoverColour(i) == ButtonPressed <==> i == Pressed
    ensures HoverColour(i) == ButtonHovered <==> i == Hovered
    ensures HoverColour(i) == ButtonNormal <==> i == None
    ensures HoverColour(i) == HoverColour(j) <==> i == j
  {
  }

  /** An item of the hover query: a MenuButton with Interaction and background whose Interaction changed. */
  predicate HoverTarget(e: Entity, changed: set<EntityId>)
  {
    e.menuButton.Present? && e.interaction.Present? && e.background.Present? && e.id in changed
  }

  function Recolour(e: Entity, changed: set<EntityId>): Entity
  {
    if HoverTarget(e, changed) then e.(background := Present(HoverColour(e.interaction.value))) else e
  }

  /** The entities after the hover system has rewritten the backgrounds of the changed menu buttons. */
  function Recoloured(es: seq<Entity>, changed: set<EntityId>): seq<Entity>
  {
    seq(|es|, k requires 0 <= k < |es| => Recolour(es[k], changed))
  }

  function AfterButtonInteractions(w: WorldState): WorldState
  {
    w.(entities := Recoloured(w.entities, w.changed))
  }

  /** `handle_button_interactions`: rewrites, in place, the background of every changed menu button. */
  method HandleButtonInteractions(w: World)
    modifies w
    ensures w.Value() == AfterButtonInteractions(old(w.Value()))
  {
    var i := 0;
    while i < |w.entities|
      invariant 0 <= i <= |w.entities| == |old(w.entities)|
      invariant forall k :: 0 <= k < i ==> w.entities[k] == Recolour(old(w.entities)[k], w.changed)
      invariant forall k :: i <= k < |w.entities| ==> w.entities[k] == old(w.entities)[k]
      invariant w.Value() == old(w.Value()).(entities := w.entities)
    {
      var e := w.entities[i];
      if HoverTarget(e, w.changed) {
        match e.interaction.value {
          case Pressed => w.entities := w.entities[i := e.(background := Present(ButtonPressed))];
          case Hovered => w.entities := w.entities[i := e.(background := Present(ButtonHovered))];
          case None => w.entities := w.entities[i := e.(background := Present(ButtonNormal))];
        }
      }
      i := i + 1;
    }
  }

  /**
   * After the hover system, each changed menu button's background shows its Interaction;
   * every other entity, and every component other than that background, is as before.
   */
  lemma HoverShowsInteraction(es: seq<Entity>, changed: set<EntityId>)
    ensures |Recoloured(es, changed)| == |es|
    ensures forall k :: 0 <= k < |es| && HoverTarget(es[k], changed) ==>
      Recoloured(es, changed)[k].background == Present(HoverColour(es[k].interaction.value))
    ensures forall k :: 0 <= k < |es| && !HoverTarget(es[k], changed) ==> Recoloured(es, changed)[k] == es[k]
    ensures forall k :: 0 <= k < |es| ==>
      Recoloured(es, changed)[k].(background := es[k].background) == es[k]
  {
  }

  /** On the menu, the hover system shows exactly the changed buttons' Interaction. */
  lemma HoverOnMainMenu(base: EntityId, first: ButtonLook, second: ButtonLook, changed: set<EntityId>)
    ensures Recoloured(MainMenuScreen(base, first, second), changed)
         == MainMenuScreen(base,
              if base + 5 in changed then Shown(first.interaction) else first,
              if base + 7 in changed then Shown(second.interaction) else second)
  {
  }

  // ---------------------------------------------------------------- handle_menu_actions

  /** The resources `handle_menu_actions` writes: the next state and the AppExit events. */
  datatype Requests = Requests(next: NextState, exits: seq<AppExit>)

  /** What pressing a button with `action` does to the requests. */
  function ActionEffect(action: MenuAction, r: Requests): Requests
  {
    match action
    case NewWorldkeeper => r.(next := Pending(GameState.NewWorldkeeper))
    case StartNewGame => r.(next := Pending(InGame))
    case Settings => r
    case Quit => r.(exits := r.exits + [Success])
  }

  /** An item of the actions query: a Button with MenuButton and Interaction whose Interaction changed. */
  predicate ActionCandidate(e: Entity, changed: set<EntityId>)
  {
    Button in e.markers && e.menuButton.Present? && e.interaction.Present? && e.id in changed
  }

  predicate PressedNow(e: Entity, changed: set<EntityId>)
  {
    ActionCandidate(e, changed) && e.interaction.value == Pressed
  }

  function Press(e: Entity, changed: set<EntityId>, r: Requests): Requests
  {
    if PressedNow(e, changed) then ActionEffect(e.menuButton.value.action, r) else r
  }

  /** The requests after visiting every entity of `es`, in order. */
  function PressAll(es: seq<Entity>, changed: set<EntityId>, r: Requests): Requests
    decreases |es|
  {
    if es == [] then r
    else Press(es[|es| - 1], changed, PressAll(es[..|es| - 1], changed, r))
  }

  function AfterMenuActions(w: WorldState): WorldState
  {
    var r := PressAll(w.entities, w.changed, Requests(w.next, w.exits));
    w.(next := r.next, exits := r.exits)
  }

  /** `handle_menu_actions`: acts on every menu button that has just become Pressed. */
  method HandleMenuActions(w: World)
    modifies w
    ensures w.Value() == AfterMenuActions(old(w.Value()))
  {
    var es := w.entities;
    for i := 0 to |es|
      invariant Requests(w.next, w.exits) == PressAll(es[..i], w.changed, Requests(old(w.next), old(w.exits)))
      invariant w.Value() == old(w.Value()).(next := w.next, exits := w.exits)
    {
      assert es[..i + 1][..i] == es[..i];
      var e := es[i];
      if ActionCandidate(e, w.changed) && e.interaction.value == Pressed {
        match e.menuButton.value.action {
          case NewWorldkeeper => w.next := Pending(GameState.NewWorldkeeper);
          case StartNewGame => w.next := Pending(InGame);
          case Settings =>
          case Quit => w.exits := w.exits + [Success];
        }
      }
    }
    assert es[..|es|] == es;
  }

  /** The hover feedback changes nothing the action handler reads. */
  lemma {:induction false} PressAllRecoloured(es: seq<Entity>, changed: set<EntityId>, r: Requests)
    ensures PressAll(Recoloured(es, changed), changed, r) == PressAll(es, changed, r)
    decreases |es|
  {
    if es != [] {
      var init := es[..|es| - 1];
      assert Recoloured(es, changed)[..|es| - 1] == Recoloured(init, changed);
      PressAllRecoloured(init, changed, r);
    }
  }

  /** A button that is not Pressed, or whose Interaction did not change, does nothing. */
  lemma {:induction false} NoPressNoRequest(es: seq<Entity>, changed: set<EntityId>, r: Requests)
    requires forall e :: e in es ==> !PressedNow(e, changed)
    ensures PressAll(es, changed, r) == r
  {
    if es != [] {
      assert es[|es| - 1] in es;
      assert forall e :: e in es[..|es| - 1] ==> e in es;
      NoPressNoRequest(es[..|es| - 1], changed, r);
    }
  }

  lemma {:induction false} PressAllAppend(a: seq<Entity>, b: seq<Entity>, changed: set<EntityId>, r: Requests)
    ensures PressAll(a + b, changed, r) == PressAll(b, changed, PressAll(a, changed, r))
    decreases |b|
  {
    if b == [] {
      assert a + b == a;
    } else {
      assert (a + b)[..|a + b| - 1] == a + b[..|b| - 1];
      assert (a + b)[|a + b| - 1] == b[|b| - 1];
      PressAllAppend(a, b[..|b| - 1], changed, r);
    }
  }

  /** A pressed button that requests a state: New Worldkeeper or Start New Game. */
  predicate RequestsState(e: Entity, changed: set<EntityId>)
  {
    PressedNow(e, changed) && e.menuButton.value.action in {MenuAction.NewWorldkeeper, MenuAction.StartNewGame}
  }

  /** Only a pressed New Worldkeeper or Start New Game button changes the next state. */
  lemma {:induction false} NoRequestKeepsNext(es: seq<Entity>, changed: set<EntityId>, r: Requests)
    requires forall k :: 0 <= k < |es| ==> !RequestsState(es[k], changed)
    ensures PressAll(es, changed, r).next == r.next
    decreases |es|
  {
    if es != [] {
      var init := es[..|es| - 1];
      assert forall k :: 0 <= k < |init| ==> init[k] == es[k];
      NoRequestKeepsNext(init, changed, r);
    }
  }

  /**
   * Last request wins: the next state is the one asked for by the last pressed button that
   * asks for a state; New Worldkeeper asks for NewWorldkeeper, Start New Game for InGame.
   */
  lemma {:induction false} LastRequestWins(es: seq<Entity>, changed: set<EntityId>, r: Requests, k: nat)
    requires k < |es| && RequestsState(es[k], changed)
    requires forall j :: k < j < |es| ==> !RequestsState(es[j], changed)
    ensures PressAll(es, changed, r).next
         == Pending(if es[k].menuButton.value.action == MenuAction.NewWorldkeeper then GameState.NewWorldkeeper else InGame)
    decreases |es|
  {
    var init := es[..|es| - 1];
    if k < |es| - 1 {
      assert forall j :: 0 <= j < |init| ==> init[j] == es[j];
      LastRequestWins(init, changed, r, k);
    }
  }

  /** AppExit is sent exactly when a Quit button is pressed; nothing else is ever sent. */
  lemma {:induction false} ExitOnlyOnQuit(es: seq<Entity>, changed: set<EntityId>, r: Requests)
    ensures PressAll(es, changed, r).exits == r.exits
        <==> forall k :: 0 <= k < |es| && PressedNow(es[k], changed) ==> es[k].menuButton.value.action != Quit
    ensures |PressAll(es, changed, r).exits| >= |r.exits|
    decreases |es|
  {
    if es != [] {
      var init := es[..|es| - 1];
      ExitOnlyOnQuit(init, changed, r);
      forall k | 0 <= k < |init| ensures init[k] == es[k] { }
    }
  }

  /** A menu button acts when its Interaction has just become Pressed; its label never does. */
  lemma PressButtonTree(id: EntityId, parent: seq<EntityId>, action: MenuAction, look: ButtonLook,
                        changed: set<EntityId>, r: Requests)
    ensures PressAll(MenuButtonTree(id, parent, action, look), changed, r)
         == if id in changed && look.interaction == Pressed then ActionEffect(action, r) else r
  {
    var t := MenuButtonTree(id, parent, action, look);
    assert t[..1] == [t[0]];
    assert [t[0]][..0] == [];
    assert PressAll(t[..1], changed, r) == Press(t[0], changed, r);
  }

  /** On the menu, the Start New Game button is visited after the New Worldkeeper button. */
  lemma PressOnMainMenu(base: EntityId, first: ButtonLook, second: ButtonLook, changed: set<EntityId>, r: Requests)
    ensures PressAll(MainMenuScreen(base, first, second), changed, r)
         == (var r1 := if base + 5 in changed && first.interaction == Pressed
                       then r.(next := Pending(GameState.NewWorldkeeper)) else r;
             if base + 7 in changed && second.interaction == Pressed
             then r1.(next := Pending(InGame)) else r1)
  {
    var head := [CameraEntity(base)] + MainMenuNodes(base);
    var b1 := MenuButtonTree(base + 5, [base + 1, base + 4], MenuAction.NewWorldkeeper, first);
    var b2 := MenuButtonTree(base + 7, [base + 1, base + 4], MenuAction.StartNewGame, second);
    NoPressNoRequest(head, changed, r);
    PressAllAppend(head, b1, changed, r);
    PressAllAppend(head + b1, b2, changed, r);
    PressButtonTree(base + 5, [base + 1, base + 4], MenuAction.NewWorldkeeper, first, changed, r);
    PressButtonTree(base + 7, [base + 1, base + 4], MenuAction.StartNewGame, second, changed,
                    PressAll(b1, changed, r));
  }

  // ---------------------------------------------------------------- cleanup_main_menu

  /** The buffer `cleanup_main_menu` queues: the menu roots with their descendants, then the cameras. */
  function CleanupMainMenuCommands(es: seq<Entity>): seq<Command>
  {
    DespawnEach(Query(es, {MainMenuMarker}), true) + DespawnEach(Query(es, {Camera}), false)
  }

  function AfterCleanupMainMenu(w: WorldState): WorldState
  {
    w.(entities := ApplyCommands(w.entities, CleanupMainMenuCommands(w.entities)))
  }

  /** `cleanup_main_menu`: queues a recursive despawn per menu root and a despawn per camera. */
  method CleanupMainMenu(w: World)
    modifies w
    ensures w.Value() == AfterCleanupMainMenu(old(w.Value()))
  {
    var menus := Query(w.entities, {MainMenuMarker});
    var cameras := Query(w.entities, {Camera});
    var cmds: seq<Command> := [];
    for i := 0 to |menus|
      invariant cmds == DespawnEach(menus[..i], true)
    {
      assert menus[..i + 1][..i] == menus[..i];
      cmds := cmds + [DespawnRecursive(menus[i])];
    }
    assert menus[..|menus|] == menus;
    var despawnCameras: seq<Command> := [];
    for i := 0 to |cameras|
      invariant despawnCameras == DespawnEach(cameras[..i], false)
    {
      assert cameras[..i + 1][..i] == cameras[..i];
      despawnCameras := despawnCameras + [Despawn(cameras[i])];
    }
    assert cameras[..|cameras|] == cameras;
    w.Apply(cmds + despawnCameras);
  }

  /**
   * The menu cleanup removes every camera, every MainMenu-marked entity and all their
   * descendants, and keeps every other entity. (Despawning acts on ids, so an entity that
   * shares its id with a camera goes too; ids are unique in every world the app reaches.)
   */
  lemma CleanupMainMenuRemoves(es: seq<Entity>)
    ensures forall e :: e in ApplyCommands(es, CleanupMainMenuCommands(es)) <==>
      && e in es
      && (forall c :: c in es && Camera in c.markers ==> c.id != e.id)
      && (forall m :: m in es && MainMenuMarker in m.markers ==> !InSubtree(e, m.id))
  {
    ApplyDespawns(es, CleanupMainMenuCommands(es));
    forall e | e in es
      ensures (forall c :: c in CleanupMainMenuCommands(es) ==> !Removes(c, e)) <==>
        && (forall c :: c in es && Camera in c.markers ==> c.id != e.id)
        && (forall m :: m in es && MainMenuMarker in m.markers ==> !InSubtree(e, m.id))
    {
      CleanupMainMenuSpares(es, e);
    }
  }

  /** One entity survives the menu cleanup exactly when it is no camera and lies under no menu root. */
  lemma CleanupMainMenuSpares(es: seq<Entity>, e: Entity)
    ensures (forall c :: c in CleanupMainMenuCommands(es) ==> !Removes(c, e)) <==>
      && (forall c :: c in es && Camera in c.markers ==> c.id != e.id)
      && (forall m :: m in es && MainMenuMarker in m.markers ==> !InSubtree(e, m.id))
  {
    var cs := CleanupMainMenuCommands(es);
    var menus := Query(es, {MainMenuMarker});
    var cameras := Query(es, {Camera});
    QueryFinds(es, {Camera});
    QueryFinds(es, {MainMenuMarker});
    QueryOnlyMatches(es, {Camera});
    QueryOnlyMatches(es, {MainMenuMarker});
    forall c | c in es && Camera in c.markers && c.id == e.id
      ensures exists d :: d in cs && Removes(d, e)
    {
      assert Matches(c, {Camera});
      assert Despawn(c.id) in DespawnEach(cameras, false);
      assert Despawn(c.id) in cs;
    }
    forall m | m in es && MainMenuMarker in m.markers && InSubtree(e, m.id)
      ensures exists d :: d in cs && Removes(d, e)
    {
      assert Matches(m, {MainMenuMarker});
      assert DespawnRecursive(m.id) in DespawnEach(menus, true);
      assert DespawnRecursive(m.id) in cs;
    }
    forall d | d in cs && Removes(d, e)
      ensures (exists c :: c in es && Camera in c.markers && c.id == e.id)
           || (exists m :: m in es && MainMenuMarker in m.markers && InSubtree(e, m.id))
    {
      if d in DespawnEach(menus, true) {
        assert d.id in menus;
      } else {
        assert d in DespawnEach(cameras, false);
        assert d.id in cameras;
      }
    }
  }

  /**
   * `setup_main_menu` adds exactly two menu buttons, New Worldkeeper then Start New Game,
   * exactly one camera and exactly one MainMenu-marked root, whatever the world held.
   */
  lemma SetupMainMenuAdds(w: WorldState)
    ensures var after := AfterSetupMainMenu(w).entities;
      && ButtonActions(after) == ButtonActions(w.entities) + [MenuAction.NewWorldkeeper, MenuAction.StartNewGame]
      && Query(after, {Camera}) == Query(w.entities, {Camera}) + [w.nextId]
      && Query(after, {MainMenuMarker}) == Query(w.entities, {MainMenuMarker}) + [w.nextId + 1]
  {
    var screen := MainMenuScreen(w.nextId, Shown(None), Shown(None));
    ButtonActionsAppend(w.entities, screen);
    MainMenuButtons(w.nextId, Shown(None), Shown(None));
    QueryAppend(w.entities, screen, {Camera});
    MainMenuCameras(w.nextId, Shown(None), Shown(None));
    QueryAppend(w.entities, screen, {MainMenuMarker});
    MainMenuRoots(w.nextId, Shown(None), Shown(None));
  }

  lemma DespawnSingle(id: EntityId, recursive: bool)
    ensures DespawnEach([id], recursive) == [if recursive then DespawnRecursive(id) else Despawn(id)]
  {
    assert [id][..0] == [];
  }

  /** Despawning a tree and a camera clears a world holding nothing else. */
  lemma DespawnTreeAndCamera(es: seq<Entity>, root: EntityId, camera: EntityId)
    requires forall e :: e in es ==> e.id == camera || InSubtree(e, root)
    ensures ApplyCommands(es, [DespawnRecursive(root), Despawn(camera)]) == []
  {
    var cs := [DespawnRecursive(root), Despawn(camera)];
    var kept := Survivors(es, DespawnRecursive(root));
    assert ApplyCommands(es, cs) == Survivors(kept, Despawn(camera)) by {
      assert cs[..1] == [DespawnRecursive(root)] && cs[..1][..0] == [];
      assert ApplyCommands(es, cs[..1]) == kept;
    }
    SurvivorsNone(kept, Despawn(camera));
  }

  /** Leaving the menu clears it entirely. */
  lemma CleanupClearsMainMenu(base: EntityId, first: ButtonLook, second: ButtonLook)
    ensures ApplyCommands(MainMenuScreen(base, first, second),
                          CleanupMainMenuCommands(MainMenuScreen(base, first, second))) == []
  {
    var s := MainMenuScreen(base, first, second);
    MainMenuRoots(base, first, second);
    MainMenuCameras(base, first, second);
    var cs := CleanupMainMenuCommands(s);
    DespawnSingle(base + 1, true);
    DespawnSingle(base, false);
    MainMenuUnderRoot(base, first, second);
    DespawnTreeAndCamera(s, base + 1, base);
  }

  // ---------------------------------------------------------------- handle_escape_to_menu

  function AfterEscapeToMenu(w: WorldState): WorldState
  {
    if Escape in w.justPressed then
      match w.state
      case InGame | NewWorldkeeper => w.(next := Pending(MainMenu))
      case MainMenu | Paused | GameOver => w
    else w
  }

  /** `handle_escape_to_menu`: a just-pressed Escape in InGame or NewWorldkeeper asks for the menu. */
  method HandleEscapeToMenu(w: World)
    modifies w
    ensures w.Value() == AfterEscapeToMenu(old(w.Value()))
  {
    if Escape in w.justPressed {
      match w.state {
        case InGame =>
          w.next := Pending(MainMenu);
        case NewWorldkeeper =>
          w.next := Pending(MainMenu);
        case MainMenu =>
        case Paused =>
        case GameOver =>
      }
    }
  }

  /**
   * Escape asks for MainMenu exactly when it was just pressed in InGame or NewWorldkeeper;
   * otherwise the handler changes nothing.
   */
  lemma EscapeRequestsMenu(w: WorldState)
    ensures var e := AfterEscapeToMenu(w);
      e == (if Escape in w.justPressed && w.state in {InGame, GameState.NewWorldkeeper}
            then w.(next := Pending(MainMenu)) else w)
  {
  }
}
