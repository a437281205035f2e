/**
 * The part of the Bevy engine the core relies on, reduced to what its systems observe:
 * entities with their components, the deferred command buffer, queries by component,
 * and the resources the systems read and write (the current and the next game state,
 * AppExit events, keyboard input, and which buttons' Interaction changed this frame).
 */
module Ecs {
  import opened GameStates
  import opened Ui

  type EntityId = nat

  /** Whether an entity carries a component, and its value when it does. */
  datatype Slot<T> = Absent | Present(value: T)

  /**
   * Data-free components the core's queries filter on. Camera, Node, Button and Text stand
   * for the engine bundles' components; Mesh is the `Handle<Mesh>` component and Mesh2d the
   * `Mesh2dHandle` component in which a 2D mesh bundle holds its mesh. MainMenuMarker,
   * MenuTitle and ButtonText are the marker components of src/components/ui.rs.
   */
  datatype Marker = Camera | Node | Button | Text | MainMenuMarker | MenuTitle | ButtonText | Mesh | Mesh2d

  /** The pointer state of a button, as the engine's focus system maintains it. */
  datatype Interaction = Pressed | Hovered | None

  datatype KeyCode = Escape | Space | ArrowLeft | ArrowRight | ArrowUp | ArrowDown

  datatype AppExit = Success

  /** The `NextState<GameState>` resource: a transition waiting to be applied, if any. */
  datatype NextState = Unchanged | Pending(target: GameState)

  /** An entity: its id, the ids of its ancestors (root first) and its components. */
  datatype Entity = Entity(
    id: EntityId,
    ancestors: seq<EntityId>,
    markers: set<Marker>,
    menuButton: Slot<MenuButton>,
    background: Slot<Colour>,
    interaction: Slot<Interaction>)

  /** `e` is the entity `root` or one of its descendants. */
  predicate InSubtree(e: Entity, root: EntityId)
  {
    e.id == root || root in e.ancestors
  }

  /** A structural change queued on `Commands`, applied after the system that queued it. */
  datatype Command =
    | Spawn(entity: Entity)
    | Despawn(id: EntityId)
    | DespawnRecursive(id: EntityId)

  /** Applying `c` removes `e` from the world. */
  predicate Removes(c: Command, e: Entity)
  {
    match c
    case Spawn(_) => false
    case Despawn(id) => e.id == id
    case DespawnRecursive(id) => InSubtree(e, id)
  }

  /** The entities of `es` that a despawn command leaves in place, in their order. */
  function Survivors(es: seq<Entity>, c: Command): (r: seq<Entity>)
    ensures |r| <= |es|
    ensures forall e :: e in r <==> e in es && !Removes(c, e)
  {
    if es == [] then []
    else (if Removes(c, es[0]) then [] else [es[0]]) + Survivors(es[1..], c)
  }

  /** A despawn that removes every entity leaves none. */
  lemma {:induction false} SurvivorsNone(es: seq<Entity>, c: Command)
    requires forall e :: e in es ==> Removes(c, e)
    ensures Survivors(es, c) == []
  {
    if es != [] {
      assert es[0] in es;
      assert forall e :: e in es[1..] ==> e in es;
      SurvivorsNone(es[1..], c);
    }
  }

  function ApplyCommand(es: seq<Entity>, c: Command): seq<Entity>
  {
    if c.Spawn? then es + [c.entity] else Survivors(es, c)
  }

  /** Flushing a command buffer: the commands take effect in the order they were queued. */
  function ApplyCommands(es: seq<Entity>, cs: seq<Command>): seq<Entity>
    decreases |cs|
  {
    if cs == [] then es
    else ApplyCommand(ApplyCommands(es, cs[..|cs| - 1]), cs[|cs| - 1])
  }

  /** A buffer of despawns keeps exactly the entities none of its commands removes. */
  lemma {:induction false} ApplyDespawns(es: seq<Entity>, cs: seq<Command>)
    requires forall c :: c in cs ==> !c.Spawn?
    ensures forall e :: e in ApplyCommands(es, cs) <==> e in es && forall c :: c in cs ==> !Removes(c, e)
  {
    if cs != [] {
      var init := cs[..|cs| - 1];
      assert cs == init + [cs[|cs| - 1]];
      ApplyDespawns(es, init);
    }
  }

  /** A buffer of despawns that removes each entity of `es` leaves nothing. */
  lemma ApplyDespawnsClear(es: seq<Entity>, cs: seq<Command>)
    requires cs != [] && forall c :: c in cs ==> !c.Spawn?
    requires forall e :: e in es ==> exists c :: c in cs && Removes(c, e)
    ensures ApplyCommands(es, cs) == []
  {
    var init, last := cs[..|cs| - 1], cs[|cs| - 1];
    assert cs == init + [last];
    ApplyDespawns(es, init);
    var kept := ApplyCommands(es, init);
    forall e | e in kept
      ensures Removes(last, e)
    {
    }
    SurvivorsNone(kept, last);
  }

  /** The buffer that spawns `ents` one after the other. */
  function Spawns(ents: seq<Entity>): seq<Command>
  {
    seq(|ents|, i requires 0 <= i < |ents| => Spawn(ents[i]))
  }

  /** Spawning appends the new entities, in order, after the existing ones. */
  lemma {:induction false} ApplySpawns(es: seq<Entity>, ents: seq<Entity>)
    ensures ApplyCommands(es, Spawns(ents)) == es + ents
  {
    if ents != [] {
      var init := ents[..|ents| - 1];
      assert Spawns(ents)[..|ents| - 1] == Spawns(init);
      ApplySpawns(es, init);
      assert ents == init + [ents[|ents| - 1]];
    }
  }

  /** `With<A>` for one marker; `Or<(With<A>, With<B>)>` for several. */
  predicate Matches(e: Entity, wanted: set<Marker>)
  {
    exists m :: m in wanted && m in e.markers
  }

  /** The ids of the entities a query over `wanted` yields, in world order. */
  function Query(es: seq<Entity>, wanted: set<Marker>): (ids: seq<EntityId>)
    ensures |ids| <= |es|
  {
    if es == [] then []
    else (if Matches(es[0], wanted) then [es[0].id] else []) + Query(es[1..], wanted)
  }

  /** A query yields the id of every matching entity... */
  lemma {:induction false} QueryFinds(es: seq<Entity>, wanted: set<Marker>)
    ensures forall e :: e in es && Matches(e, wanted) ==> e.id in Query(es, wanted)
  {
    if es != [] {
      QueryFinds(es[1..], wanted);
      assert forall e :: e in es ==> e == es[0] || e in es[1..];
    }
  }

  /** ...and only those. */
  lemma {:induction false} QueryOnlyMatches(es: seq<Entity>, wanted: set<Marker>)
    ensures forall id :: id in Query(es, wanted) ==> exists e :: e in es && Matches(e, wanted) && e.id == id
  {
    if es != [] {
      QueryOnlyMatches(es[1..], wanted);
      assert forall e :: e in es[1..] ==> e in es;
    }
  }

  lemma {:induction false} QueryAppend(a: seq<Entity>, b: seq<Entity>, wanted: set<Marker>)
    ensures Query(a + b, wanted) == Query(a, wanted) + Query(b, wanted)
  {
    if a == [] {
      assert a + b == b;
    } else {
      assert (a + b)[0] == a[0];
      assert (a + b)[1..] == a[1..] + b;
      QueryAppend(a[1..], b, wanted);
      var head := if Matches(a[0], wanted) then [a[0].id] else [];
      assert Query(a + b, wanted) == head + (Query(a[1..], wanted) + Query(b, wanted));
      assert Query(a, wanted) + Query(b, wanted) == head + (Query(a[1..], wanted) + Query(b, wanted));
    }
  }

  /** A query that no entity matches yields nothing. */
  lemma {:induction false} QueryNone(es: seq<Entity>, wanted: set<Marker>)
    requires forall e :: e in es ==> !Matches(e, wanted)
    ensures Query(es, wanted) == []
  {
    if es != [] {
      assert es[0] in es;
      assert forall e :: e in es[1..] ==> e in es;
      QueryNone(es[1..], wanted);
    }
  }

  /** The commands that despawn each of `ids`, with its descendants when `recursive`. */
  function DespawnEach(ids: seq<EntityId>, recursive: bool): (cs: seq<Command>)
    ensures |cs| == |ids|
    ensures forall c :: c in cs ==> !c.Spawn?
    ensures forall c :: c in cs ==> (if recursive then c.DespawnRecursive? else c.Despawn?) && c.id in ids
    ensures forall id :: id in ids ==> (if recursive then DespawnRecursive(id) else Despawn(id)) in cs
    decreases |ids|
  {
    if ids == [] then []
    else
      var last := ids[|ids| - 1];
      DespawnEach(ids[..|ids| - 1], recursive) + [if recursive then DespawnRecursive(last) else Despawn(last)]
  }

  /** The world's contents as a value: what the systems read and write. */
  datatype WorldState = WorldState(
    entities: seq<Entity>,
    nextId: EntityId,
    state: GameState,
    next: NextState,
    exits: seq<AppExit>,
    changed: set<EntityId>,
    justPressed: set<KeyCode>)

  /** The engine's world: entities and the resources of the core, updated in place. */
  class World {
    var entities: seq<Entity>
    var nextId: EntityId
    var state: GameState
    var next: NextState
    var exits: seq<AppExit>
    var changed: set<EntityId>
    var justPressed: set<KeyCode>

    function Value(): WorldState
      reads this
    {
      WorldState(entities, nextId, state, next, exits, changed, justPressed)
    }

    /** A world holding `v`. */
    constructor (v: WorldState)
      ensures Value() == v
    {
      entities, nextId, state, next := v.entities, v.nextId, v.state, v.next;
      exits, changed, justPressed := v.exits, v.changed, v.justPressed;
    }

    /** Reserves a fresh entity id, as `Commands::spawn` does before the spawn is applied. */
    method Reserve() returns (id: EntityId)
      modifies this
      ensures id == old(nextId)
      ensures Value() == old(Value()).(nextId := old(nextId) + 1)
    {
      id := nextId;
      nextId := nextId + 1;
    }

    /** Applies a system's command buffer. */
    method Apply(cmds: seq<Command>)
      modifies this
      ensures Value() == old(Value()).(entities := ApplyCommands(old(entities), cmds))
    {
      var i := 0;
      while i < |cmds|
        invariant 0 <= i <= |cmds|
        invariant Value() == old(Value()).(entities := ApplyCommands(old(entities), cmds[..i]))
      {
        assert cmds[..i + 1][..i] == cmds[..i];
        entities := ApplyCommand(entities, cmds[i]);
        i := i + 1;
      }
      assert cmds[..|cmds|] == cmds;
    }
  }
}
