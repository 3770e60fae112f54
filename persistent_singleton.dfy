/**
 * PersistentSingleton (Assets/_Project/Utility/PersistentSingletone.cs):
 * objects with the same persistence id behave like one singleton. A static
 * registry maps each id to the instance that claimed it first; later
 * instances with a registered id, and instances with a blank id, are
 * destroyed in Awake. After a scene load, PreloadCleanup keeps the first
 * instance per non-blank id among all instances found and destroys the rest.
 *
 * An instance is a value: its handle tells apart objects that look alike.
 * DestroyImmediate runs the destroyed instance's OnDestroy at once.
 */
module Singletons {
  import opened Base
  import opened Text

  datatype Instance = Instance(handle: nat, persistenceID: string, name: string)

  /** The static registry and the set of instances not yet destroyed. */
  datatype World = World(registry: map<string, Instance>, alive: set<Instance>)

  /** Every registered id is non-blank, is its keeper's own id, and the keeper is alive. */
  predicate Registered(w: World)
  {
    forall id :: id in w.registry ==> !IsBlank(id) && w.registry[id].persistenceID == id && w.registry[id] in w.alive
  }

  /** OnDestroy: the entry goes only when it names this very instance. */
  function OnDestroyOf(registry: map<string, Instance>, inst: Instance): (r: map<string, Instance>)
    ensures inst.persistenceID in registry && registry[inst.persistenceID] == inst ==>
      r == registry - {inst.persistenceID}
    ensures !(inst.persistenceID in registry && registry[inst.persistenceID] == inst) ==> r == registry
  {
    if inst.persistenceID in registry && registry[inst.persistenceID] == inst then registry - {inst.persistenceID} else registry
  }

  /** DestroyImmediate: the instance dies and its OnDestroy runs. */
  function DestroyOf(w: World, inst: Instance): World
  {
    World(OnDestroyOf(w.registry, inst), w.alive - {inst})
  }

  /** Awake: a blank id or an id owned by another instance destroys the newcomer; a new id registers it. */
  function AwakeOf(w: World, inst: Instance): World
  {
    var id := inst.persistenceID;
    if IsBlank(id) then DestroyOf(w, inst)
    else if id in w.registry then (if w.registry[id] != inst then DestroyOf(w, inst) else w)
    else World(w.registry[id := inst], w.alive)
  }

  /** Awake keeps the registry well formed; a blank or duplicate newcomer leaves the registry as it was. */
  lemma AwakeKeepsRegistered(w: World, inst: Instance)
    requires Registered(w) && inst in w.alive
    ensures Registered(AwakeOf(w, inst))
    ensures IsBlank(inst.persistenceID) ==> AwakeOf(w, inst) == World(w.registry, w.alive - {inst})
    ensures !IsBlank(inst.persistenceID) && inst.persistenceID in w.registry && w.registry[inst.persistenceID] != inst ==>
      AwakeOf(w, inst) == World(w.registry, w.alive - {inst})
    ensures !IsBlank(inst.persistenceID) && inst.persistenceID !in w.registry ==>
      AwakeOf(w, inst) == World(w.registry[inst.persistenceID := inst], w.alive)
  {
  }

  /** Destroying any instance keeps the registry well formed: a destroyed keeper loses its entry. */
  lemma DestroyKeepsRegistered(w: World, inst: Instance)
    requires Registered(w)
    ensures Registered(DestroyOf(w, inst))
    ensures inst.persistenceID in w.registry && w.registry[inst.persistenceID] != inst ==>
      DestroyOf(w, inst).registry == w.registry
  {
  }

  /** Instance i is the first one in the list with its id, and that id is not blank. */
  predicate FirstOfId(insts: seq<Instance>, i: int)
    requires 0 <= i < |insts|
  {
    !IsBlank(insts[i].persistenceID) && forall j :: 0 <= j < i ==> insts[j].persistenceID != insts[i].persistenceID
  }

  predicate Distinct(insts: seq<Instance>)
  {
    forall i, j :: 0 <= i < j < |insts| ==> insts[i] != insts[j]
  }

  /** Any instance with a non-blank id has a first instance with that id at or before it. */
  lemma {:induction false} FirstExists(insts: seq<Instance>, k: int)
    requires 0 <= k < |insts| && !IsBlank(insts[k].persistenceID)
    ensures exists i :: 0 <= i <= k && FirstOfId(insts, i) && insts[i].persistenceID == insts[k].persistenceID
    decreases k
  {
    if !FirstOfId(insts, k) {
      var j :| 0 <= j < k && insts[j].persistenceID == insts[k].persistenceID;
      FirstExists(insts, j);
    }
  }

  /** Whether instance i is first with its id depends only on the instances up to i. */
  lemma FirstOfIdPrefix(insts: seq<Instance>, n: int, i: int)
    requires 0 <= i < n <= |insts|
    ensures FirstOfId(insts[..n], i) == FirstOfId(insts, i)
  {
    assert forall j :: 0 <= j <= i ==> insts[..n][j] == insts[j];
  }

  /** Instances waking in order. */
  function AwakeAll(w: World, insts: seq<Instance>): World
    decreases |insts|
  {
    if insts == [] then w else AwakeOf(AwakeAll(w, insts[..|insts| - 1]), insts[|insts| - 1])
  }

  /**
   * What waking distinct live instances in order on an empty registry leaves:
   * exactly the first instance of each non-blank id survives and is its id's
   * keeper, the registry holds exactly those ids, and bystanders live on.
   */
  ghost predicate KeepsFirst(w: World, alive: set<Instance>, insts: seq<Instance>)
  {
    Registered(w) && KeptAlive(w, alive, insts) && KeptRegistry(w, insts)
  }

  /** Exactly the first instance of each non-blank id survives, and bystanders live on. */
  ghost predicate KeptAlive(w: World, alive: set<Instance>, insts: seq<Instance>)
  {
    (forall i :: 0 <= i < |insts| ==> (insts[i] in w.alive <==> FirstOfId(insts, i)))
    && (forall x :: x in alive && x !in insts ==> x in w.alive)
  }

  /** The registry holds exactly the ids of the first instances, each kept by its first instance. */
  ghost predicate KeptRegistry(w: World, insts: seq<Instance>)
  {
    (forall i :: 0 <= i < |insts| && FirstOfId(insts, i) ==>
       insts[i].persistenceID in w.registry && w.registry[insts[i].persistenceID] == insts[i])
    && (forall id :: id in w.registry ==> exists i :: 0 <= i < |insts| && FirstOfId(insts, i) && insts[i].persistenceID == id)
  }

  lemma {:induction false} AwakeAllKeepsFirst(alive: set<Instance>, insts: seq<Instance>)
    requires Distinct(insts)
    requires forall i :: 0 <= i < |insts| ==> insts[i] in alive
    ensures KeepsFirst(AwakeAll(World(map[], alive), insts), alive, insts)
    decreases |insts|
  {
    if insts != [] {
      var n := |insts| - 1;
      assert Distinct(insts[..n]);
      AwakeAllKeepsFirst(alive, insts[..n]);
      AwakeStep(alive, insts, AwakeAll(World(map[], alive), insts[..n]));
    }
  }

  /** One more instance waking keeps KeepsFirst. */
  lemma AwakeStep(alive: set<Instance>, insts: seq<Instance>, w': World)
    requires Distinct(insts) && |insts| > 0
    requires forall i :: 0 <= i < |insts| ==> insts[i] in alive
    requires KeepsFirst(w', alive, insts[..|insts| - 1])
    ensures KeepsFirst(AwakeOf(w', insts[|insts| - 1]), alive, insts)
  {
    var n := |insts| - 1;
    var last := insts[n];
    PrefixFacts(insts);
    assert last !in insts[..n];
    assert last in w'.alive;
    AwakeStepDecides(insts, w');
    AwakeKeepsRegistered(w', last);
    AwakeStepAlive(alive, insts, w');
    AwakeStepRegistry(insts, w');
  }

  /**
   * The newcomer is the first with its id exactly when its id is not blank
   * and not registered yet; a registered id belongs to some other instance.
   */
  lemma AwakeStepDecides(insts: seq<Instance>, w': World)
    requires |insts| > 0
    requires forall i :: 0 <= i < |insts| - 1 ==> insts[..|insts| - 1][i] == insts[i] && insts[i] != insts[|insts| - 1]
    requires KeptRegistry(w', insts[..|insts| - 1])
    ensures FirstOfId(insts, |insts| - 1) <==>
      !IsBlank(insts[|insts| - 1].persistenceID) && insts[|insts| - 1].persistenceID !in w'.registry
    ensures insts[|insts| - 1].persistenceID in w'.registry ==> w'.registry[insts[|insts| - 1].persistenceID] != insts[|insts| - 1]
  {
    var n := |insts| - 1;
    var id := insts[n].persistenceID;
    if id in w'.registry {
      var i :| 0 <= i < n && FirstOfId(insts[..n], i) && insts[..n][i].persistenceID == id;
      assert insts[i].persistenceID == id;
      assert w'.registry[id] == insts[i];
    } else if !IsBlank(id) && !FirstOfId(insts, n) {
      var j :| 0 <= j < n && insts[j].persistenceID == id;
      FirstExists(insts, j);
      var i :| 0 <= i <= j && FirstOfId(insts, i) && insts[i].persistenceID == id;
      FirstOfIdPrefix(insts, n, i);
    }
  }

  /** After the newcomer wakes, the survivors are still exactly the first instances and the bystanders. */
  lemma AwakeStepAlive(alive: set<Instance>, insts: seq<Instance>, w': World)
    requires |insts| > 0
    requires forall i :: 0 <= i < |insts| - 1 ==> insts[..|insts| - 1][i] == insts[i] && insts[i] != insts[|insts| - 1]
    requires forall i :: 0 <= i < |insts| - 1 ==> FirstOfId(insts[..|insts| - 1], i) == FirstOfId(insts, i)
    requires KeptAlive(w', alive, insts[..|insts| - 1])
    requires insts[|insts| - 1] in w'.alive
    requires var last := insts[|insts| - 1];
      var claims := !IsBlank(last.persistenceID) && last.persistenceID !in w'.registry;
      (FirstOfId(insts, |insts| - 1) <==> claims)
      && AwakeOf(w', last).alive == (if claims then w'.alive else w'.alive - {last})
    ensures KeptAlive(AwakeOf(w', insts[|insts| - 1]), alive, insts)
  {
    var n := |insts| - 1;
    var front := insts[..n];
    var w := AwakeOf(w', insts[n]);
    forall i | 0 <= i < |insts|
      ensures insts[i] in w.alive <==> FirstOfId(insts, i)
    {
      if i < n {
        assert insts[i] == front[i];
      }
    }
    forall x | x in alive && x !in insts
      ensures x in w.alive
    {
      assert x !in front;
    }
  }

  /** After the newcomer wakes, the registry still holds exactly the first instances' ids. */
  lemma AwakeStepRegistry(insts: seq<Instance>, w': World)
    requires |insts| > 0
    requires forall i :: 0 <= i < |insts| - 1 ==> insts[..|insts| - 1][i] == insts[i]
    requires forall i :: 0 <= i < |insts| - 1 ==> FirstOfId(insts[..|insts| - 1], i) == FirstOfId(insts, i)
    requires KeptRegistry(w', insts[..|insts| - 1])
    requires var last := insts[|insts| - 1];
      var claims := !IsBlank(last.persistenceID) && last.persistenceID !in w'.registry;
      (FirstOfId(insts, |insts| - 1) <==> claims)
      && AwakeOf(w', last).registry == (if claims then w'.registry[last.persistenceID := last] else w'.registry)
    ensures KeptRegistry(AwakeOf(w', insts[|insts| - 1]), insts)
  {
    var n := |insts| - 1;
    var front := insts[..n];
    var w := AwakeOf(w', insts[n]);
    forall i | 0 <= i < |insts| && FirstOfId(insts, i)
      ensures insts[i].persistenceID in w.registry && w.registry[insts[i].persistenceID] == insts[i]
    {
      if i < n {
        assert FirstOfId(front, i) && front[i] == insts[i];
      }
    }
    forall k | k in w.registry
      ensures exists i :: 0 <= i < |insts| && FirstOfId(insts, i) && insts[i].persistenceID == k
    {
      if k in w'.registry {
        var i :| 0 <= i < n && FirstOfId(front, i) && front[i].persistenceID == k;
        assert FirstOfId(insts, i) && insts[i].persistenceID == k;
      } else {
        assert FirstOfId(insts, n);
      }
    }
  }

  /** PreloadCleanup's running state: the world, DontDestroyOnLoad's set, and the ids seen. */
  datatype Cleanup = Cleanup(world: World, persistent: set<Instance>, seen: set<string>)

  function CleanupStep(c: Cleanup, inst: Instance): Cleanup
  {
    if IsBlank(inst.persistenceID) then c
    else if inst.persistenceID !in c.seen then Cleanup(c.world, c.persistent + {inst}, c.seen + {inst.persistenceID})
    else Cleanup(DestroyOf(c.world, inst), c.persistent, c.seen)
  }

  function CleanupAll(c: Cleanup, insts: seq<Instance>): Cleanup
    decreases |insts|
  {
    if insts == [] then c else CleanupStep(CleanupAll(c, insts[..|insts| - 1]), insts[|insts| - 1])
  }

  /** The first instance per non-blank id, and only it, has been made persistent. */
  ghost predicate CleanedPersistent(c: Cleanup, persistent: set<Instance>, insts: seq<Instance>)
  {
    (forall i :: 0 <= i < |insts| ==> (insts[i] in c.persistent <==> FirstOfId(insts, i)))
    && (forall x :: x in c.persistent ==> x in persistent || x in insts)
  }

  /** The later instances with a non-blank id, and only they, are destroyed. */
  ghost predicate CleanedAlive(c: Cleanup, w: World, insts: seq<Instance>)
  {
    (forall i :: 0 <= i < |insts| ==>
       (insts[i] in c.world.alive <==> IsBlank(insts[i].persistenceID) || FirstOfId(insts, i)))
    && (forall x :: x in w.alive && x !in insts ==> x in c.world.alive)
  }

  /** The ids seen are exactly the ids of the instances kept. */
  ghost predicate CleanedSeen(c: Cleanup, insts: seq<Instance>)
  {
    forall id :: id in c.seen <==> exists i :: 0 <= i < |insts| && FirstOfId(insts, i) && insts[i].persistenceID == id
  }

  /**
   * What PreloadCleanup leaves over distinct instances found alive and not
   * yet persistent: exactly the first instance per non-blank id is made
   * persistent, exactly the later ones with a non-blank id are destroyed,
   * blank ids are skipped, and every non-blank id has been seen.
   */
  ghost predicate CleanedFirst(c: Cleanup, w: World, persistent: set<Instance>, insts: seq<Instance>)
  {
    CleanedPersistent(c, persistent, insts) && CleanedAlive(c, w, insts) && CleanedSeen(c, insts)
  }

  lemma {:induction false} CleanupKeepsFirst(w: World, persistent: set<Instance>, insts: seq<Instance>)
    requires Distinct(insts)
    requires forall i :: 0 <= i < |insts| ==> insts[i] in w.alive && insts[i] !in persistent
    ensures CleanedFirst(CleanupAll(Cleanup(w, persistent, {}), insts), w, persistent, insts)
    decreases |insts|
  {
    if insts != [] {
      var n := |insts| - 1;
      assert Distinct(insts[..n]);
      CleanupKeepsFirst(w, persistent, insts[..n]);
      var c' := CleanupAll(Cleanup(w, persistent, {}), insts[..n]);
      PrefixFacts(insts);
      CleanupStepLast(w, persistent, insts, c');
      CleanupStepDecides(insts, c');
      CleanupStepPersistent(persistent, insts, c');
      CleanupStepAlive(w, insts, c');
      CleanupStepSeen(insts, c');
    }
  }

  /** The instances before the last are the prefix's, none of them is the last, and each is first in both or neither. */
  lemma PrefixFacts(insts: seq<Instance>)
    requires Distinct(insts) && |insts| > 0
    ensures forall i :: 0 <= i < |insts| - 1 ==> insts[..|insts| - 1][i] == insts[i] && insts[i] != insts[|insts| - 1]
    ensures forall i :: 0 <= i < |insts| - 1 ==> FirstOfId(insts[..|insts| - 1], i) == FirstOfId(insts, i)
  {
    forall i | 0 <= i < |insts| - 1
      ensures FirstOfId(insts[..|insts| - 1], i) == FirstOfId(insts, i)
    {
      FirstOfIdPrefix(insts, |insts| - 1, i);
    }
  }

  /** The instance examined next is not persistent yet and still alive. */
  lemma CleanupStepLast(w: World, persistent: set<Instance>, insts: seq<Instance>, c': Cleanup)
    requires Distinct(insts) && |insts| > 0
    requires insts[|insts| - 1] in w.alive && insts[|insts| - 1] !in persistent
    requires CleanedPersistent(c', persistent, insts[..|insts| - 1])
    requires CleanedAlive(c', w, insts[..|insts| - 1])
    ensures insts[|insts| - 1] !in c'.persistent && insts[|insts| - 1] in c'.world.alive
  {
    var n := |insts| - 1;
    assert insts[n] !in insts[..n] by {
      forall i | 0 <= i < n
        ensures insts[..n][i] != insts[n]
      {
        assert insts[..n][i] == insts[i];
      }
    }
  }

  /** Whether the instance examined next is kept is decided by the ids seen so far. */
  lemma CleanupStepDecides(insts: seq<Instance>, c': Cleanup)
    requires |insts| > 0
    requires CleanedSeen(c', insts[..|insts| - 1])
    requires forall i :: 0 <= i < |insts| - 1 ==> insts[..|insts| - 1][i] == insts[i]
    ensures FirstOfId(insts, |insts| - 1) <==>
      !IsBlank(insts[|insts| - 1].persistenceID) && insts[|insts| - 1].persistenceID !in c'.seen
  {
    var n := |insts| - 1;
    var id := insts[n].persistenceID;
    if !IsBlank(id) && id in c'.seen {
      var i :| 0 <= i < n && FirstOfId(insts[..n], i) && insts[..n][i].persistenceID == id;
      assert insts[i].persistenceID == id;
    } else if !IsBlank(id) && !FirstOfId(insts, n) {
      var j :| 0 <= j < n && insts[j].persistenceID == id;
      FirstExists(insts, j);
      var i :| 0 <= i <= j && FirstOfId(insts, i) && insts[i].persistenceID == id;
      FirstOfIdPrefix(insts, n, i);
    }
  }

  lemma CleanupStepPersistent(persistent: set<Instance>, insts: seq<Instance>, c': Cleanup)
    requires |insts| > 0
    requires CleanedPersistent(c', persistent, insts[..|insts| - 1])
    requires forall i :: 0 <= i < |insts| - 1 ==> insts[..|insts| - 1][i] == insts[i] && insts[i] != insts[|insts| - 1]
    requires forall i :: 0 <= i < |insts| - 1 ==> FirstOfId(insts[..|insts| - 1], i) == FirstOfId(insts, i)
    requires insts[|insts| - 1] !in c'.persistent
    requires FirstOfId(insts, |insts| - 1) <==>
      !IsBlank(insts[|insts| - 1].persistenceID) && insts[|insts| - 1].persistenceID !in c'.seen
    ensures CleanedPersistent(CleanupStep(c', insts[|insts| - 1]), persistent, insts)
  {
    var n := |insts| - 1;
    var c := CleanupStep(c', insts[n]);
    assert c.persistent == c'.persistent + (if FirstOfId(insts, n) then {insts[n]} else {});
    forall x | x in c.persistent
      ensures x in persistent || x in insts
    {
      if x in c'.persistent && x !in persistent {
        assert x in insts[..n];
      }
    }
  }

  lemma CleanupStepAlive(w: World, insts: seq<Instance>, c': Cleanup)
    requires |insts| > 0
    requires CleanedAlive(c', w, insts[..|insts| - 1])
    requires forall i :: 0 <= i < |insts| - 1 ==> insts[..|insts| - 1][i] == insts[i] && insts[i] != insts[|insts| - 1]
    requires forall i :: 0 <= i < |insts| - 1 ==> FirstOfId(insts[..|insts| - 1], i) == FirstOfId(insts, i)
    requires insts[|insts| - 1] in c'.world.alive
    requires FirstOfId(insts, |insts| - 1) <==>
      !IsBlank(insts[|insts| - 1].persistenceID) && insts[|insts| - 1].persistenceID !in c'.seen
    ensures CleanedAlive(CleanupStep(c', insts[|insts| - 1]), w, insts)
  {
    var n := |insts| - 1;
    var last := insts[n];
    var c := CleanupStep(c', last);
    if IsBlank(last.persistenceID) || FirstOfId(insts, n) {
      assert c.world.alive == c'.world.alive;
    } else {
      assert c.world.alive == c'.world.alive - {last};
    }
    forall x | x in w.alive && x !in insts
      ensures x in c.world.alive
    {
      assert x !in insts[..n];
    }
    forall i | 0 <= i < |insts|
      ensures insts[i] in c.world.alive <==> IsBlank(insts[i].persistenceID) || FirstOfId(insts, i)
    {
      if i < n {
        assert insts[i] == insts[..n][i];
      }
    }
  }

  lemma CleanupStepSeen(insts: seq<Instance>, c': Cleanup)
    requires |insts| > 0
    requires CleanedSeen(c', insts[..|insts| - 1])
    requires forall i :: 0 <= i < |insts| - 1 ==> insts[..|insts| - 1][i] == insts[i]
    requires forall i :: 0 <= i < |insts| - 1 ==> FirstOfId(insts[..|insts| - 1], i) == FirstOfId(insts, i)
    requires FirstOfId(insts, |insts| - 1) <==>
      !IsBlank(insts[|insts| - 1].persistenceID) && insts[|insts| - 1].persistenceID !in c'.seen
    ensures CleanedSeen(CleanupStep(c', insts[|insts| - 1]), insts)
  {
    var n := |insts| - 1;
    var front := insts[..n];
    var id := insts[n].persistenceID;
    var c := CleanupStep(c', insts[n]);
    assert c.seen == c'.seen + (if !IsBlank(id) then {id} else {});
    forall x: string
      ensures x in c.seen <==> exists i :: 0 <= i < |insts| && FirstOfId(insts, i) && insts[i].persistenceID == x
    {
      if x in c'.seen {
        var i :| 0 <= i < n && FirstOfId(front, i) && front[i].persistenceID == x;
        assert FirstOfId(insts, i) && insts[i].persistenceID == x;
      } else if x == id && !IsBlank(id) {
        assert FirstOfId(insts, n);
      } else if exists i :: 0 <= i < |insts| && FirstOfId(insts, i) && insts[i].persistenceID == x {
        var i :| 0 <= i < |insts| && FirstOfId(insts, i) && insts[i].persistenceID == x;
        if i < n {
          assert FirstOfId(front, i) && front[i].persistenceID == x;
        }
      }
    }
  }

  /**
   * An inactive instance never ran Awake and so never registered. When
   * PreloadCleanup finds it before the registered keeper of its id, it keeps
   * the inactive one and destroys the keeper, whose OnDestroy then empties
   * the id's entry: the id is left with a surviving instance but no keeper.
   */
  lemma CleanupCanOrphanAnId()
    ensures var inactive := Instance(1, "Audio", "Audio (inactive)");
      var keeper := Instance(2, "Audio", "Audio");
      var c := CleanupAll(Cleanup(World(map["Audio" := keeper], {inactive, keeper}), {}, {}), [inactive, keeper]);
      inactive in c.world.alive && inactive in c.persistent && "Audio" !in c.world.registry
  {
    var inactive := Instance(1, "Audio", "Audio (inactive)");
    var keeper := Instance(2, "Audio", "Audio");
    var c0 := Cleanup(World(map["Audio" := keeper], {inactive, keeper}), {}, {});
    assert !IsBlank("Audio") by {
      assert !IsWhiteSpace("Audio"[0]);
    }
    assert [inactive, keeper][..1] == [inactive];
    assert [inactive][..0] == [];
    var c1 := CleanupStep(c0, inactive);
    assert c1 == Cleanup(c0.world, {inactive}, {"Audio"});
    assert CleanupAll(c0, []) == c0;
    assert CleanupAll(c0, [inactive]) == c1;
    assert CleanupAll(c0, [inactive, keeper]) == CleanupStep(c1, keeper);
  }

  class PersistentSingletons {
    /** The static registry. */
    var registry: map<string, Instance>
    var alive: set<Instance>
    /** The instances DontDestroyOnLoad was called on. */
    var persistent: set<Instance>
    var errors: seq<string>

    function State(): World
      reads this
    {
      World(registry, alive)
    }

    predicate Valid()
      reads this
    {
      Registered(State())
    }

    /** The registry starts empty over the scene's instances. */
    constructor (scene: set<Instance>)
      ensures registry == map[] && alive == scene && persistent == {} && errors == []
      ensures Valid()
    {
      registry := map[];
      alive := scene;
      persistent := {};
      errors := [];
    }

    method OnDestroy(inst: Instance)
      modifies this
      ensures registry == OnDestroyOf(old(registry), inst)
      ensures alive == old(alive) && persistent == old(persistent) && errors == old(errors)
    {
      if inst.persistenceID in registry && registry[inst.persistenceID] == inst {
        registry := registry - {inst.persistenceID};
      }
    }

    method DestroyImmediate(inst: Instance)
      modifies this
      ensures State() == DestroyOf(old(State()), inst)
      ensures persistent == old(persistent) && errors == old(errors)
    {
      alive := alive - {inst};
      OnDestroy(inst);
    }

    method Awake(inst: Instance)
      requires Valid() && inst in alive
      modifies this
      ensures Valid()
      ensures State() == AwakeOf(old(State()), inst)
      ensures persistent == old(persistent)
      ensures errors == old(errors) + (if IsBlank(inst.persistenceID)
                                       then [inst.name + " has a blank persistenceID \U{2014} destroying immediately."]
                                       else [])
    {
      AwakeKeepsRegistered(State(), inst);
      var id := inst.persistenceID;
      if IsBlank(id) {
        errors := errors + [inst.name + " has a blank persistenceID \U{2014} destroying immediately."];
        DestroyImmediate(inst);
        return;
      }
      if id in registry {
        if registry[id] != inst {
          DestroyImmediate(inst);
          return;
        }
      } else {
        registry := registry[id := inst];
      }
    }

    /** PreloadCleanup over the instances FindObjectsOfType returned, in that order. */
    method PreloadCleanup(all: seq<Instance>)
      requires Valid()
      modifies this
      ensures Valid()
      ensures var c := CleanupAll(Cleanup(old(State()), old(persistent), {}), all);
        State() == c.world && persistent == c.persistent
      ensures errors == old(errors)
    {
      ghost var c0 := Cleanup(State(), persistent, {});
      var seenIDs: set<string> := {};
      var i := 0;
      while i < |all|
        invariant 0 <= i <= |all|
        invariant Valid() && errors == old(errors)
        invariant CleanupAll(c0, all[..i]) == Cleanup(State(), persistent, seenIDs)
      {
        var inst := all[i];
        assert all[..i + 1][..i] == all[..i];
        if !IsBlank(inst.persistenceID) {
          if inst.persistenceID !in seenIDs {
            seenIDs := seenIDs + {inst.persistenceID};
            persistent := persistent + {inst};
          } else {
            DestroyKeepsRegistered(State(), inst);
            DestroyImmediate(inst);
          }
        }
        i := i + 1;
      }
      assert all[..i] == all;
    }

    /** GetObject: the keeper registered under the id, or null. */
    function GetObject(id: string): (r: Option<Instance>)
      reads this
      ensures r.Some? <==> id in registry
      ensures r.Some? ==> r.value == registry[id]
      ensures Valid() && r.Some? ==> r.value.persistenceID == id && r.value in alive
    {
      if id in registry then Some(registry[id]) else None
    }

    /**
     * GetComponent: the component of the object GetObject finds, as Unity
     * finds it, or null when GetObject finds nothing; a component found
     * belongs to a live keeper that carries the id.
     */
    function GetComponent<C>(id: string, componentOf: Instance -> Option<C>): (r: Option<C>)
      reads this
      ensures id !in registry ==> r.None?
      ensures id in registry ==> r == componentOf(registry[id])
      ensures GetObject(id).None? ==> r.None?
      ensures r.Some? ==> GetObject(id).Some? && r == componentOf(GetObject(id).value)
      ensures Valid() && r.Some? ==> exists k :: k in alive && k.persistenceID == id && componentOf(k) == r
    {
      if id in registry then componentOf(registry[id]) else None
    }
  }
}
