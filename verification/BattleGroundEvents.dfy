/** The event layer of the battleground base class (src/game/BattleGround.cpp).

    Creatures and game objects of a battleground map belong to an event pair
    (event1, event2). For every channel event1 at most one event2 is active. Objects
    arrive lazily, when their grid cell is loaded, while events are switched by the
    battleground. The layer must keep exactly the objects of the active events spawned. */
module BattleGroundEvents {
  type Guid = nat

  const EVENT_NONE: nat := 255
  const EVENT_DOOR: nat := 254

  /** The guids registered under one event pair, in load order. */
  datatype EventObjects = EventObjects(creatures: seq<Guid>, gameobjects: seq<Guid>)

  /** Where the database puts an object: its event pair, and which list it goes to. */
  datatype Home = Home(event1: nat, event2: nat, creature: bool)

  /** The state of the layer: the active event2 of every channel, the objects
      registered under every pair, and the objects now spawned in the world. */
  datatype Layer = Layer(
    active: map<nat, nat>,
    objects: map<(nat, nat), EventObjects>,
    spawned: set<Guid>)

  function ObjectsOf(l: Layer, event1: nat, event2: nat): EventObjects {
    if (event1, event2) in l.objects then l.objects[(event1, event2)] else EventObjects([], [])
  }

  predicate Registered(l: Layer, g: Guid, event1: nat, event2: nat) {
    var o := ObjectsOf(l, event1, event2);
    g in o.creatures || g in o.gameobjects
  }

  predicate IsActive(l: Layer, event1: nat, event2: nat) {
    event1 in l.active && l.active[event1] == event2
  }

  function Toggle(spawned: set<Guid>, guids: seq<Guid>, on: bool): set<Guid> {
    if on then spawned + (set g | g in guids) else spawned - (set g | g in guids)
  }

  /** The side effect of indexing m_ActiveEvents with an unknown channel: an entry 0. */
  function Touch(l: Layer, event1: nat): Layer {
    if event1 in l.active then l else l.(active := l.active[event1 := 0])
  }

  function SetEvent(l: Layer, event1: nat, event2: nat, active: nat, on: bool): Layer {
    var o := ObjectsOf(l, event1, event2);
    l.(active := l.active[event1 := active],
       spawned := Toggle(Toggle(l.spawned, o.creatures, on), o.gameobjects, on))
  }

  /** What SpawnEvent does to the layer, its self-call included. */
  function Spawn(l: Layer, event1: nat, event2: nat, spawn: bool): Layer
    decreases spawn
  {
    if event2 == EVENT_NONE then l
    else
      var l0 := Touch(l, event1);
      if spawn == (l0.active[event1] == event2) then l0
      else if spawn then
        SetEvent(Spawn(l0, event1, l0.active[event1], false), event1, event2, event2, true)
      else
        SetEvent(l0, event1, event2, EVENT_NONE, false)
  }

  /** What loading one object does: it appears spawned, is registered under its pair, and
      is sent away again when that pair is not the active one. */
  function Load(l: Layer, g: Guid, home: Home): Layer {
    var l1 := l.(spawned := l.spawned + {g});
    if home.event1 == EVENT_NONE then l1
    else
      var o := ObjectsOf(l, home.event1, home.event2);
      var o' := if home.creature then o.(creatures := o.creatures + [g]) else o.(gameobjects := o.gameobjects + [g]);
      l1.(objects := l.objects[(home.event1, home.event2) := o'],
          spawned := if IsActive(l, home.event1, home.event2) then l1.spawned else l1.spawned - {g})
  }

  /** Event exclusivity: an object is spawned exactly while its own event pair is active. */
  ghost predicate Exclusive(l: Layer) {
    forall g, event1, event2 :: Registered(l, g, event1, event2) ==>
      (g in l.spawned <==> IsActive(l, event1, event2))
  }

  /** No object is registered under two pairs, and none under event2 255, which the
      loader of the event index drops. */
  ghost predicate OneHome(l: Layer, homes: map<Guid, Home>) {
    forall g, event1, event2 :: Registered(l, g, event1, event2) ==>
      g in homes && homes[g].event1 == event1 && homes[g].event2 == event2 && event1 != EVENT_NONE && event2 != EVENT_NONE
  }

  lemma SpawnKeepsObjects(l: Layer, event1: nat, event2: nat, spawn: bool)
    ensures Spawn(l, event1, event2, spawn).objects == l.objects
    ensures Spawn(l, event1, event2, spawn).active.Keys == l.active.Keys + (if event2 == EVENT_NONE then {} else {event1})
    decreases spawn
  {
    if event2 == EVENT_NONE || !spawn {
    } else {
      var l0 := Touch(l, event1);
      SpawnKeepsObjects(l0, event1, l0.active[event1], false);
    }
  }

  /** What is active afterwards: the event asked for, or nothing on its channel; all other
      channels keep theirs. */
  lemma SpawnActive(l: Layer, event1: nat, event2: nat, spawn: bool, e: nat, e2: nat)
    requires event1 in l.active && event2 != EVENT_NONE && e2 != EVENT_NONE
    ensures IsActive(Spawn(l, event1, event2, spawn), e, e2) <==>
            if e != event1 then IsActive(l, e, e2)
            else if spawn then e2 == event2
            else e2 != event2 && IsActive(l, e, e2)
  {
  }

  /** The active events after a switch on an announced channel. */
  function Switched(active: map<nat, nat>, event1: nat, event2: nat, spawn: bool): map<nat, nat>
    requires event1 in active
  {
    if spawn then active[event1 := event2]
    else if active[event1] == event2 then active[event1 := EVENT_NONE]
    else active
  }

  lemma SpawnSwitches(l: Layer, event1: nat, event2: nat, spawn: bool)
    requires event1 in l.active && event2 != EVENT_NONE
    ensures Spawn(l, event1, event2, spawn).active == Switched(l.active, event1, event2, spawn)
  {
  }

  lemma SetEventExclusive(l: Layer, homes: map<Guid, Home>, event1: nat, event2: nat, on: bool)
    requires OneHome(l, homes) && event2 != EVENT_NONE
    requires event1 in l.active && l.active[event1] == if on then EVENT_NONE else event2
    requires Exclusive(l)
    ensures Exclusive(SetEvent(l, event1, event2, if on then event2 else EVENT_NONE, on))
  {
    var l' := SetEvent(l, event1, event2, if on then event2 else EVENT_NONE, on);
    forall g, e1, e2 | Registered(l', g, e1, e2)
      ensures g in l'.spawned <==> IsActive(l', e1, e2)
    {
      assert Registered(l, g, e1, e2);
      if Registered(l, g, event1, event2) {
        assert e1 == event1 && e2 == event2;
      }
    }
  }

  /** A switch on a channel that Reset has announced keeps exclusivity. */
  lemma SpawnExclusive(l: Layer, homes: map<Guid, Home>, event1: nat, event2: nat, spawn: bool)
    requires Exclusive(l) && OneHome(l, homes) && event1 in l.active
    ensures Exclusive(Spawn(l, event1, event2, spawn)) && OneHome(Spawn(l, event1, event2, spawn), homes)
    decreases spawn
  {
    SpawnKeepsObjects(l, event1, event2, spawn);
    var l' := Spawn(l, event1, event2, spawn);
    assert forall g, e1, e2 :: Registered(l', g, e1, e2) ==> Registered(l, g, e1, e2);
    if event2 != EVENT_NONE && spawn != (l.active[event1] == event2) {
      if spawn {
        var old2 := l.active[event1];
        var mid := Spawn(l, event1, old2, false);
        SpawnExclusive(l, homes, event1, old2, false);
        assert mid.active[event1] == EVENT_NONE;
        SetEventExclusive(mid, homes, event1, event2, true);
      } else {
        SetEventExclusive(l, homes, event1, event2, false);
      }
    }
  }

  /** The exact condition, channel announced or not. Switching an unknown channel reads an
      implicit event 0 into it; that breaks exclusivity precisely when the call returns
      early on that 0 and objects of (event1, 0) had been loaded, and sent away, before. */
  lemma SpawnExclusiveIff(l: Layer, homes: map<Guid, Home>, event1: nat, event2: nat, spawn: bool)
    requires Exclusive(l) && OneHome(l, homes)
    ensures Exclusive(Spawn(l, event1, event2, spawn)) <==>
            (event1 in l.active || event2 == EVENT_NONE || spawn != (event2 == 0)
             || ObjectsOf(l, event1, 0) == EventObjects([], []))
  {
    if event1 in l.active || event2 == EVENT_NONE {
      if event1 in l.active { SpawnExclusive(l, homes, event1, event2, spawn); }
    } else {
      var l0 := Touch(l, event1);
      assert forall g, e1, e2 :: Registered(l0, g, e1, e2) <==> Registered(l, g, e1, e2);
      if spawn == (event2 == 0) {
        assert Spawn(l, event1, event2, spawn) == l0;
        var o := ObjectsOf(l, event1, 0);
        if o.creatures != [] {
          assert Registered(l0, o.creatures[0], event1, 0);
        } else if o.gameobjects != [] {
          assert Registered(l0, o.gameobjects[0], event1, 0);
        }
      } else {
        UnknownSwitch(l, homes, event1, event2, spawn);
      }
    }
  }

  lemma UnknownSwitch(l: Layer, homes: map<Guid, Home>, event1: nat, event2: nat, spawn: bool)
    requires Exclusive(l) && OneHome(l, homes)
    requires event1 !in l.active && event2 != EVENT_NONE && spawn != (event2 == 0)
    ensures Exclusive(Spawn(l, event1, event2, spawn))
  {
    var l0 := Touch(l, event1);
    var off := SetEvent(l0, event1, 0, EVENT_NONE, false);
    forall g, e1, e2 | Registered(off, g, e1, e2)
      ensures g in off.spawned <==> IsActive(off, e1, e2)
    {
      assert Registered(l, g, e1, e2);
      if Registered(l, g, event1, 0) { assert e1 == event1 && e2 == 0; }
    }
    assert Exclusive(off);
    if spawn {
      assert forall g, e1, e2 :: Registered(off, g, e1, e2) ==> Registered(l, g, e1, e2);
      SetEventExclusive(off, homes, event1, event2, true);
    }
  }

  lemma LoadExclusive(l: Layer, homes: map<Guid, Home>, g: Guid, home: Home)
    requires Exclusive(l) && OneHome(l, homes)
    requires g in homes && homes[g] == home && home.event2 != EVENT_NONE
    ensures Exclusive(Load(l, g, home)) && OneHome(Load(l, g, home), homes)
  {
    var l' := Load(l, g, home);
    forall h, e1, e2 | Registered(l', h, e1, e2)
      ensures h in l'.spawned <==> IsActive(l', e1, e2)
      ensures h in homes && homes[h].event1 == e1 && homes[h].event2 == e2 && e1 != EVENT_NONE && e2 != EVENT_NONE
    {
      if h != g || e1 != home.event1 || e2 != home.event2 || home.event1 == EVENT_NONE {
        assert Registered(l, h, e1, e2);
      }
    }
  }

  /** One step of a run: a grid load brings an object, or the battleground switches. */
  datatype Step = Loaded(guid: Guid) | Switch(event1: nat, event2: nat, spawn: bool)

  function Apply(l: Layer, homes: map<Guid, Home>, s: Step): Layer {
    match s
    case Loaded(g) => if g in homes then Load(l, g, homes[g]) else Load(l, g, Home(EVENT_NONE, EVENT_NONE, true))
    case Switch(event1, event2, spawn) => Spawn(l, event1, event2, spawn)
  }

  function Run(l: Layer, homes: map<Guid, Home>, steps: seq<Step>): Layer
    decreases |steps|
  {
    if steps == [] then l else Run(Apply(l, homes, steps[0]), homes, steps[1..])
  }

  /** The loader of the event index never admits event2 255 for a real channel. */
  predicate CleanHomes(homes: map<Guid, Home>) {
    forall g :: g in homes ==> (homes[g].event1 == EVENT_NONE <==> homes[g].event2 == EVENT_NONE)
  }

  lemma LoadUnhomed(l: Layer, homes: map<Guid, Home>, g: Guid, home: Home)
    requires Exclusive(l) && OneHome(l, homes)
    requires home.event1 == EVENT_NONE && (g in homes ==> homes[g].event1 == EVENT_NONE)
    ensures Exclusive(Load(l, g, home)) && OneHome(Load(l, g, home), homes)
  {
    var l' := Load(l, g, home);
    assert forall h, e1, e2 :: Registered(l', h, e1, e2) ==> Registered(l, h, e1, e2);
  }

  lemma LoadedExclusive(l: Layer, homes: map<Guid, Home>, g: Guid)
    requires Exclusive(l) && OneHome(l, homes) && CleanHomes(homes)
    ensures var l' := Apply(l, homes, Loaded(g)); Exclusive(l') && OneHome(l', homes) && l'.active == l.active
  {
    if g in homes && homes[g].event1 != EVENT_NONE {
      LoadExclusive(l, homes, g, homes[g]);
    } else {
      LoadUnhomed(l, homes, g, if g in homes then homes[g] else Home(EVENT_NONE, EVENT_NONE, true));
    }
  }

  /** The guids of one list of a pair. */
  function ListOf(l: Layer, home: Home): seq<Guid> {
    if (home.event1, home.event2) !in l.objects then []
    else if home.creature then l.objects[(home.event1, home.event2)].creatures
    else l.objects[(home.event1, home.event2)].gameobjects
  }

  /** Loading an object with a real home puts it at the end of the list that its home names, and
      touches no other list; without one, no list at all. */
  lemma LoadRegisters(l: Layer, g: Guid, home: Home, other: Home)
    ensures ListOf(Load(l, g, home), other) ==
            if home.event1 != EVENT_NONE && other == home then ListOf(l, home) + [g] else ListOf(l, other)
    ensures Load(l, g, home).active == l.active
    ensures forall h :: h != g ==> (h in Load(l, g, home).spawned <==> h in l.spawned)
    ensures home.event1 == EVENT_NONE ==> g in Load(l, g, home).spawned
  {
  }

  /** Switches keep all lists. */
  lemma SpawnRegisters(l: Layer, event1: nat, event2: nat, spawn: bool, other: Home)
    ensures ListOf(Spawn(l, event1, event2, spawn), other) == ListOf(l, other)
  {
    SpawnKeepsObjects(l, event1, event2, spawn);
  }

  /** The object is in the list that its home names. */
  predicate Listed(l: Layer, g: Guid, home: Home) {
    g in ListOf(l, home)
  }

  /** Everything loaded in a run, or before, stays in the list of its home. */
  lemma {:induction false} RunLists(l: Layer, homes: map<Guid, Home>, steps: seq<Step>, g: Guid)
    requires g in homes && homes[g].event1 != EVENT_NONE && (Loaded(g) in steps || Listed(l, g, homes[g]))
    ensures Listed(Run(l, homes, steps), g, homes[g])
    decreases |steps|
  {
    if steps == [] {
    } else {
      match steps[0] {
        case Loaded(h) =>
          LoadRegisters(l, h, if h in homes then homes[h] else Home(EVENT_NONE, EVENT_NONE, true), homes[g]);
        case Switch(event1, event2, spawn) =>
          SpawnRegisters(l, event1, event2, spawn, homes[g]);
      }
      RunLists(Apply(l, homes, steps[0]), homes, steps[1..], g);
    }
  }

  /** The law of the layer, for every object that a run loads: it is in the world exactly while its
      event is the active one. */
  lemma RunSpawned(l: Layer, homes: map<Guid, Home>, steps: seq<Step>, g: Guid)
    requires Exclusive(l) && OneHome(l, homes) && CleanHomes(homes)
    requires forall s :: s in steps && s.Switch? ==> s.event1 in l.active
    requires Loaded(g) in steps && g in homes && homes[g].event1 != EVENT_NONE
    ensures
      var l' := Run(l, homes, steps);
      && Registered(l', g, homes[g].event1, homes[g].event2)
      && (g in l'.spawned <==> homes[g].event1 in l'.active && l'.active[homes[g].event1] == homes[g].event2)
  {
    RunExclusive(l, homes, steps);
    RunLists(l, homes, steps, g);
    assert Registered(Run(l, homes, steps), g, homes[g].event1, homes[g].event2);
  }

  /** An object without a home is in the world from its loading on. */
  lemma {:induction false} RunUnhomed(l: Layer, homes: map<Guid, Home>, steps: seq<Step>, g: Guid)
    requires OneHome(l, homes) && CleanHomes(homes) && Exclusive(l)
    requires forall s :: s in steps && s.Switch? ==> s.event1 in l.active
    requires g !in homes || homes[g].event1 == EVENT_NONE
    requires Loaded(g) in steps || g in l.spawned
    ensures g in Run(l, homes, steps).spawned
    decreases |steps|
  {
    if steps == [] {
    } else {
      match steps[0] {
        case Loaded(h) =>
          LoadedExclusive(l, homes, h);
          LoadRegisters(l, h, if h in homes then homes[h] else Home(EVENT_NONE, EVENT_NONE, true), Home(0, 0, true));
        case Switch(event1, event2, spawn) =>
          assert steps[0] in steps;
          SpawnExclusive(l, homes, event1, event2, spawn);
          SpawnKeepsObjects(l, event1, event2, spawn);
          SpawnForeign(l, event1, event2, spawn, g);
      }
      RunUnhomed(Apply(l, homes, steps[0]), homes, steps[1..], g);
    }
  }

  /** A switch moves only objects of its channel. */
  lemma SpawnForeign(l: Layer, event1: nat, event2: nat, spawn: bool, g: Guid)
    requires forall e2 :: !Registered(l, g, event1, e2)
    ensures g in Spawn(l, event1, event2, spawn).spawned <==> g in l.spawned
    decreases spawn
  {
    if event2 == EVENT_NONE || !spawn {
      assert !Registered(l, g, event1, event2);
    } else {
      var l0 := Touch(l, event1);
      SpawnKeepsObjects(l0, event1, l0.active[event1], false);
      assert forall e2 :: Registered(l0, g, event1, e2) <==> Registered(l, g, event1, e2);
      SpawnForeign(l0, event1, l0.active[event1], false, g);
      assert !Registered(l, g, event1, event2);
    }
  }

  /** Under any interleaving of grid loads and switches of announced channels, every
      loaded object is spawned exactly when its event is the active one. */
  lemma {:induction false} RunExclusive(l: Layer, homes: map<Guid, Home>, steps: seq<Step>)
    requires Exclusive(l) && OneHome(l, homes) && CleanHomes(homes)
    requires forall s :: s in steps && s.Switch? ==> s.event1 in l.active
    ensures Exclusive(Run(l, homes, steps)) && OneHome(Run(l, homes, steps), homes)
    decreases |steps|
  {
    if steps == [] {
    } else {
      match steps[0] {
        case Loaded(g) =>
          LoadedExclusive(l, homes, g);
        case Switch(event1, event2, spawn) =>
          assert steps[0] in steps;
          SpawnExclusive(l, homes, event1, event2, spawn);
          SpawnKeepsObjects(l, event1, event2, spawn);
      }
      RunExclusive(Apply(l, homes, steps[0]), homes, steps[1..]);
    }
  }

  /** Never are objects of two events of one channel in the world together. */
  lemma OneEventPerChannel(l: Layer, g: Guid, h: Guid, event1: nat, a: nat, b: nat)
    requires Exclusive(l)
    requires Registered(l, g, event1, a) && Registered(l, h, event1, b)
    requires g in l.spawned && h in l.spawned
    ensures a == b
  {
    assert IsActive(l, event1, a) && IsActive(l, event1, b);
  }

  /** The layer as the battleground holds it. */
  class EventLayer {
    var activeEvents: map<nat, nat>
    var eventObjects: map<(nat, nat), EventObjects>
    var spawned: set<Guid>

    function Value(): Layer
      reads this
    {
      Layer(activeEvents, eventObjects, spawned)
    }

    constructor (active: map<nat, nat>)
      ensures Value() == Layer(active, map[], {})
    {
      activeEvents, eventObjects, spawned := active, map[], {};
    }

    method OnObjectDBLoad(g: Guid, home: Home)
      modifies this
      ensures Value() == Load(old(Value()), g, home)
    {
      spawned := spawned + {g};
      if home.event1 == EVENT_NONE {
        return;
      }
      var key := (home.event1, home.event2);
      var o := ObjectsOf(Value(), home.event1, home.event2);
      eventObjects := eventObjects[key := if home.creature
                                          then o.(creatures := o.creatures + [g])
                                          else o.(gameobjects := o.gameobjects + [g])];
      if !IsActive(Value(), home.event1, home.event2) {
        spawned := spawned - {g};
      }
    }

    method SpawnEvent(event1: nat, event2: nat, spawn: bool)
      modifies this
      ensures Value() == Spawn(old(Value()), event1, event2, spawn)
      decreases spawn
    {
      if event2 == EVENT_NONE {
        return;
      }
      if event1 !in activeEvents {
        activeEvents := activeEvents[event1 := 0];
      }
      if spawn == (activeEvents[event1] == event2) {
        return;
      }
      if spawn {
        // the event that holds the channel has to go first
        SpawnEvent(event1, activeEvents[event1], false);
        SpawnKeepsObjects(old(Value()), event1, event2, spawn);
        activeEvents := activeEvents[event1 := event2];
      } else {
        activeEvents := activeEvents[event1 := EVENT_NONE];
      }
      var o := ObjectsOf(Value(), event1, event2);
      SetSpawned(o.creatures, spawn);
      SetSpawned(o.gameobjects, spawn);
    }

    /** Spawns or despawns a list of objects one by one. */
    method SetSpawned(guids: seq<Guid>, on: bool)
      modifies this`spawned
      ensures spawned == Toggle(old(spawned), guids, on)
    {
      for i := 0 to |guids|
        invariant spawned == Toggle(old(spawned), guids[..i], on)
      {
        spawned := if on then spawned + {guids[i]} else spawned - {guids[i]};
        assert guids[..i + 1] == guids[..i] + [guids[i]];
      }
      assert guids[..|guids|] == guids;
    }
  }
}
