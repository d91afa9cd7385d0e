/**
 The engine as the code has it: one world whose systems update its fields in place, one snapshot
 queue per plugin, and the request interpreter. Every method is proved to compute the function of
 the same name in `WorldModel`.
 */
module Engine {
  import opened Prelude
  import opened Population
  import opened Ordering
  import opened SnapshotQueue
  import opened WorldModel
  import opened Soundness
  import opened Reconciliation
  import opened Simulation
  import opened WorldQueries
  import opened Mixing
  import opened Checksums
  import opened GgrsSnapshots
  import opened Runs

  // The part of a whole-world snapshot that each plugin keeps.
  function EntitiesOf(s: Snapshot): map<RollbackId, Entity> { s.entities }
  function ValuesOf(s: Snapshot): map<RollbackId, Stored> { s.values }
  function LikesOf(s: Snapshot): map<RollbackId, Entity> { s.likes }
  function ParentsOf(s: Snapshot): map<RollbackId, Entity> { s.parents }
  function ResourceOf(s: Snapshot): Option<Stored> { s.resource }
  function FavouriteOf(s: Snapshot): Option<Entity> { s.favourite }
  function OrderOf(s: Snapshot): Order { s.ordered }
  function ClockOf(s: Snapshot): Clock { s.clock }

  /** A queue holds its plugin's column of the history. */
  ghost predicate Holds<T>(q: Snapshots<T>, h: seq<Entry<Snapshot>>, part: Snapshot -> T)
    reads q
  {
    q.Valid() && q.Entries() == Column(h, part)
  }

  class World {
    const cfg: Config

    var pop: Pop
    var next: nat
    var ordered: Order
    var resource: Option<Value>
    var favourite: Option<Entity>
    var clock: Clock
    var frame: int
    var confirmed: int
    var window: nat
    var scanned: int
    var entityMap: map<Entity, Entity>

    const entities: Snapshots<map<RollbackId, Entity>>
    const values: Snapshots<map<RollbackId, Stored>>
    const likes: Snapshots<map<RollbackId, Entity>>
    const parents: Snapshots<map<RollbackId, Entity>>
    const resources: Snapshots<Option<Stored>>
    const favourites: Snapshots<Option<Entity>>
    const orders: Snapshots<Order>
    const clocks: Snapshots<Clock>

    /** All queues together, as the history of whole-world snapshots. */
    ghost var history: seq<Entry<Snapshot>>

    ghost function Queues(): set<object> {
      {entities as object, values as object, likes as object, parents as object,
       resources as object, favourites as object, orders as object, clocks as object}
    }

    /** The queues are eight different objects. */
    ghost predicate Separate() {
      var e, v, l, p := entities as object, values as object, likes as object, parents as object;
      var r, f, o, c := resources as object, favourites as object, orders as object, clocks as object;
      && e !in {v, l, p, r, f, o, c} && v !in {l, p, r, f, o, c} && l !in {p, r, f, o, c}
      && p !in {r, f, o, c} && r !in {f, o, c} && f !in {o, c} && o != c
    }

    ghost predicate Aligned()
      reads this, Queues()
    {
      && Holds(entities, history, EntitiesOf)
      && Holds(values, history, ValuesOf)
      && Holds(likes, history, LikesOf)
      && Holds(parents, history, ParentsOf)
      && Holds(resources, history, ResourceOf)
      && Holds(favourites, history, FavouriteOf)
      && Holds(orders, history, OrderOf)
      && Holds(clocks, history, ClockOf)
    }

    ghost function State(): WorldModel.World
      reads this
    {
      WorldModel.World(pop, next, ordered, resource, favourite, clock, frame, confirmed, window, scanned, entityMap,
                       history)
    }

    ghost predicate Valid()
      reads this, Queues()
    {
      Separate() && Aligned()
    }

    constructor (cfg: Config)
      ensures this.cfg == cfg && Valid() && Sound(State())
      ensures Start(State()) && pop == map[] && confirmed == 0
      ensures fresh(entities) && fresh(values) && fresh(likes) && fresh(parents)
      ensures fresh(resources) && fresh(favourites) && fresh(orders) && fresh(clocks)
    {
      this.cfg := cfg;
      pop, next, ordered, resource, favourite, clock := map[], 0, NO_ORDER, None, None, Clock(0, 0);
      frame, confirmed, window, scanned, entityMap := 0, 0, 0, 0, map[];
      entities := new Snapshots<map<RollbackId, Entity>>();
      values := new Snapshots<map<RollbackId, Stored>>();
      likes := new Snapshots<map<RollbackId, Entity>>();
      parents := new Snapshots<map<RollbackId, Entity>>();
      resources := new Snapshots<Option<Stored>>();
      favourites := new Snapshots<Option<Entity>>();
      orders := new Snapshots<Order>();
      clocks := new Snapshots<Clock>();
      history := [];
      new;
      EmptyColumns();
      EmptyWorld(State());
    }

    // ---- SaveWorld -------------------------------------------------------------------------

    /** The entity plugin's save: the visible entities by identity. */
    method SaveEntities()
      requires entities.Valid() && Distinct(pop) && 0 <= frame <= I32_MAX
      modifies entities
      ensures entities.Valid()
      ensures entities.Entries() == Recorded(old(entities.Entries()), confirmed, frame, CaptureEntities(pop), window)
    {
      var snapshot := GatherEntities(pop);
      entities.Save(window, confirmed, frame, snapshot);
    }

    /** The component plugin's save, with its strategy. */
    method SaveValues()
      requires values.Valid() && Distinct(pop) && 0 <= frame <= I32_MAX
      modifies values
      ensures values.Valid()
      ensures values.Entries() == Recorded(old(values.Entries()), confirmed, frame, CaptureValues(cfg, pop), window)
    {
      var snapshot := GatherValues(cfg, pop);
      values.Save(window, confirmed, frame, snapshot);
    }

    /** The component plugin's save, for the component that holds a reference. */
    method SaveLikes()
      requires likes.Valid() && Distinct(pop) && 0 <= frame <= I32_MAX
      modifies likes
      ensures likes.Valid()
      ensures likes.Entries() == Recorded(old(likes.Entries()), confirmed, frame, CaptureLikes(pop), window)
    {
      var snapshot := GatherLikes(pop);
      likes.Save(window, confirmed, frame, snapshot);
    }

    /** The hierarchy plugin's save. */
    method SaveParents()
      requires parents.Valid() && Distinct(pop) && 0 <= frame <= I32_MAX
      modifies parents
      ensures parents.Valid()
      ensures parents.Entries() == Recorded(old(parents.Entries()), confirmed, frame, CaptureParents(pop), window)
    {
      var snapshot := GatherParents(pop);
      parents.Save(window, confirmed, frame, snapshot);
    }

    /** The save systems of the entity and component plugins, each into its own queue. */
    method SaveComponents(ghost r: seq<Entry<Snapshot>>)
      requires Separate() && Distinct(pop) && 0 <= frame <= I32_MAX
      requires Holds(entities, history, EntitiesOf) && Holds(values, history, ValuesOf)
      requires Holds(likes, history, LikesOf) && Holds(parents, history, ParentsOf)
      requires r == Recorded(history, confirmed, frame, Capture(cfg, State()), window)
      modifies entities, values, likes, parents
      ensures unchanged(this)
      ensures Holds(entities, r, EntitiesOf) && Holds(values, r, ValuesOf)
      ensures Holds(likes, r, LikesOf) && Holds(parents, r, ParentsOf)
    {
      ghost var s := Capture(cfg, State());
      ColumnRecorded(history, EntitiesOf, confirmed, frame, s, window);
      ColumnRecorded(history, ValuesOf, confirmed, frame, s, window);
      ColumnRecorded(history, LikesOf, confirmed, frame, s, window);
      ColumnRecorded(history, ParentsOf, confirmed, frame, s, window);
      SaveEntities();
      SaveValues();
      SaveLikes();
      SaveParents();
    }

    /** The save systems of the resource plugins: a stored copy, or the fact that there is none. */
    method SaveResources(ghost r: seq<Entry<Snapshot>>)
      requires Separate() && 0 <= frame <= I32_MAX
      requires Holds(resources, history, ResourceOf) && Holds(favourites, history, FavouriteOf)
      requires Holds(orders, history, OrderOf) && Holds(clocks, history, ClockOf)
      requires r == Recorded(history, confirmed, frame, Capture(cfg, State()), window)
      modifies resources, favourites, orders, clocks
      ensures unchanged(this)
      ensures Holds(resources, r, ResourceOf) && Holds(favourites, r, FavouriteOf)
      ensures Holds(orders, r, OrderOf) && Holds(clocks, r, ClockOf)
    {
      ghost var s := Capture(cfg, State());
      ColumnRecorded(history, ResourceOf, confirmed, frame, s, window);
      ColumnRecorded(history, FavouriteOf, confirmed, frame, s, window);
      resources.Save(window, confirmed, frame,
                     if resource.Some? then Some(cfg.resources.Store(resource.value)) else None);
      favourites.Save(window, confirmed, frame, favourite);
      SaveClones(r);
    }

    /** The register and the clock are resources that are saved by clone. */
    method SaveClones(ghost r: seq<Entry<Snapshot>>)
      requires Separate() && 0 <= frame <= I32_MAX
      requires Holds(orders, history, OrderOf) && Holds(clocks, history, ClockOf)
      requires r == Recorded(history, confirmed, frame, Capture(cfg, State()), window)
      modifies orders, clocks
      ensures unchanged(this)
      ensures Holds(orders, r, OrderOf) && Holds(clocks, r, ClockOf)
    {
      ghost var s := Capture(cfg, State());
      ColumnRecorded(history, OrderOf, confirmed, frame, s, window);
      ColumnRecorded(history, ClockOf, confirmed, frame, s, window);
      orders.Save(window, confirmed, frame, ordered);
      clocks.Save(window, confirmed, frame, clock);
    }

    /** The queues have moved on together: the ghost history follows them. */
    ghost method AdoptHistory(r: seq<Entry<Snapshot>>)
      requires Separate()
      requires Holds(entities, r, EntitiesOf) && Holds(values, r, ValuesOf)
      requires Holds(likes, r, LikesOf) && Holds(parents, r, ParentsOf)
      requires Holds(resources, r, ResourceOf) && Holds(favourites, r, FavouriteOf)
      requires Holds(orders, r, OrderOf) && Holds(clocks, r, ClockOf)
      modifies this`history
      ensures Valid() && history == r
    {
      history := r;
    }

    /**
     The checksum stage of a save: the parts of the plugins, and their total. It is a function of
     what game logic sees, so it depends neither on handles nor on iteration order.
     */
    method UpdateChecksum<T(!new)>(h: Hashing<T>) returns (total: Wide<T>)
      requires Indexed(pop, ordered) && h.mixer.Lawful()
      ensures total == ChecksumOf(h, ViewOf(State()))
      ensures var bodies, n := Bodies(pop, ordered.sorted), |ordered.sorted|;
              total == Wide(h.mixer.unit, h.mixer.op(h.folded(FoldBelow(h, bodies, n)), h.counts(|bodies|, n)))
    {
      var components := ComponentChecksum(h, pop, ordered);
      var entities := EntityChecksum(h, pop, ordered);
      DoubledIsLawful(h.mixer);
      total := FoldParts(Doubled(h.mixer), [components, entities]);
      TotalIs(h, ViewOf(State()));
    }

    /** The snapshot stage of a save: every plugin syncs its depth, prunes, and pushes. */
    method TakeSnapshots()
      requires Valid() && Distinct(pop) && 0 <= frame <= I32_MAX
      modifies entities, values, likes, parents, resources, favourites, orders, clocks, this`history
      ensures Valid()
      ensures State() == WorldModel.SaveWorld(cfg, old(State()))
    {
      ghost var r := Recorded(history, confirmed, frame, Capture(cfg, State()), window);
      SaveComponents(r);
      SaveResources(r);
      AdoptHistory(r);
    }

    /** A save request: the checksum first, then the snapshots. The cell is what the session gets. */
    method SaveWorld<T(!new)>(h: Hashing<T>) returns (cell: Cell<T>)
      requires Valid() && Indexed(pop, ordered) && 0 <= frame <= I32_MAX && h.mixer.Lawful()
      modifies entities, values, likes, parents, resources, favourites, orders, clocks, this`history
      ensures Valid()
      ensures State() == WorldModel.SaveWorld(cfg, old(State()))
      ensures [cell] == CellsOf(h, old(State()), Save)
    {
      var total := UpdateChecksum(h);
      TakeSnapshots();
      cell := Cell(frame, total);
    }

    // ---- LoadWorld -------------------------------------------------------------------------

    /** Lifts the marks made after the frame that is being loaded. */
    method ResurrectEntities()
      modifies this`pop
      ensures pop == Resurrected(old(pop), frame)
    {
      ghost var before := pop;
      var todo := pop.Keys;
      while todo != {}
        invariant todo <= pop.Keys == before.Keys
        invariant forall e :: e in pop ==> pop[e] == if e in todo then before[e] else Resurrected(before, frame)[e]
        decreases todo
      {
        var e :| e in todo;
        if pop[e].mark.Some? && pop[e].mark.value > frame {
          pop := pop[e := pop[e].(mark := None)];
        }
        todo := todo - {e};
      }
    }

    /** Despawning takes all descendants along. */
    method DespawnAll(roots: set<Entity>)
      modifies this`pop
      ensures pop == Despawned(old(pop), roots)
    {
      var gone := CollectFamily(pop, roots);
      pop := map e | e in pop && e !in gone :: pop[e];
    }

    /** The hook that runs when an entity becomes a rollback entity: only a new one is registered. */
    method OnRollbackAdded(e: Entity, given: Option<RollbackId>) returns (rid: RollbackId)
      modifies this`ordered
      ensures given.Some? ==> rid == given.value && ordered == old(ordered)
      ensures given.None? ==> rid == RollbackId(e) && ordered == Register(old(ordered), rid)
    {
      if given.Some? {
        return given.value;
      }
      rid := RollbackId(e);
      var sorted := ordered.sorted + [rid];
      ordered := Order(ordered.order[rid := |sorted| - 1], sorted);
    }

    /** Respawned entities come back with their identity and nothing else. */
    method RespawnAll(spawned: map<RollbackId, Entity>)
      requires forall x, y :: x in spawned && y in spawned && spawned[x] == spawned[y] ==> x == y
      modifies this`pop, this`ordered
      ensures ordered == old(ordered)
      ensures pop == old(pop) + map e | e in spawned.Values :: Blank(KeyOf(spawned, e))
    {
      var todo := spawned.Keys;
      ghost var before := pop;
      while todo != {}
        invariant todo <= spawned.Keys && ordered == old(ordered)
        invariant forall x :: x in spawned && x !in todo ==> spawned[x] in pop && pop[spawned[x]] == Blank(x)
        invariant forall e :: e in before && e !in spawned.Values ==> e in pop && pop[e] == before[e]
        invariant forall e :: e in pop && e !in spawned.Values ==> e in before
        decreases todo
      {
        var x :| x in todo;
        var rid := OnRollbackAdded(spawned[x], Some(x));
        assert spawned[x] in spawned.Values;
        pop := pop[spawned[x] := Blank(rid)];
        todo := todo - {x};
      }
      Respawned(before, spawned, pop);
    }

    /** The queued despawns and spawns, in the order of the flush. */
    method ApplyCommands(doomed: set<Entity>, spawned: map<RollbackId, Entity>)
      requires forall x, y :: x in spawned && y in spawned && spawned[x] == spawned[y] ==> x == y
      modifies this`pop, this`ordered
      ensures ordered == old(ordered)
      ensures pop == Despawned(old(pop), doomed) + map e | e in spawned.Values :: Blank(KeyOf(spawned, e))
    {
      DespawnAll(doomed);
      RespawnAll(spawned);
    }

    /**
     Reconciles the visible entities with the saved ones: pairs are matched in any order, and the
     queued despawns and spawns are applied at the end.
     */
    method ReconcileEntities(saved: map<RollbackId, Entity>) returns (ghost choice: Choice)
      requires Fits(pop, saved)
      modifies this`pop, this`next, this`ordered, this`entityMap
      ensures ChoiceOk(old(pop), saved, old(next), choice) && next == choice.next
      ensures pop == Reconciled(old(pop), saved, choice.spawned)
      ensures entityMap == EntityMapOf(old(pop), saved, choice.spawned)
      ensures ordered == old(ordered)
    {
      var doomed, spawned, m, at := PlanReconciliation(pop, saved, next);
      choice := Choice(spawned, at);
      next, entityMap := at, m;
      ApplyCommands(doomed, spawned);
    }

    /** The entity plugin's load. `found` is false where the original panics. */
    method LoadEntities(ghost r: seq<Entry<Snapshot>>) returns (found: bool, ghost choice: Choice)
      requires Holds(entities, history, EntitiesOf) && r == RolledBack(history, frame)
      requires r != [] ==> Fits(pop, r[0].data.entities)
      modifies entities, this`pop, this`next, this`ordered, this`entityMap
      ensures Holds(entities, r, EntitiesOf) && found == (r != [])
      ensures found ==>
                var saved := r[0].data.entities;
                && ChoiceOk(old(pop), saved, old(next), choice) && next == choice.next
                && pop == Reconciled(old(pop), saved, choice.spawned)
                && entityMap == EntityMapOf(old(pop), saved, choice.spawned)
      ensures ordered == old(ordered)
    {
      ColumnRolledBack(history, EntitiesOf, frame);
      found := entities.Rollback(frame);
      choice := NO_CHOICE;
      if found {
        var saved := entities.Front();
        choice := ReconcileEntities(saved);
      }
    }

    /** The component plugin's load, entity by entity: update, remove or insert. */
    method LoadValues(ghost r: seq<Entry<Snapshot>>)
      requires Holds(values, history, ValuesOf) && r == RolledBack(history, frame) && r != []
      modifies values, this`pop
      ensures Holds(values, r, ValuesOf)
      ensures pop == RestoreValues(cfg, old(pop), r[0].data.values)
    {
      ColumnRolledBack(history, ValuesOf, frame);
      var found := values.Rollback(frame);
      var saved := values.Front();
      ghost var before := pop;
      var todo := VisibleEntities(pop);
      while todo != {}
        invariant todo <= VisibleEntities(before) && pop.Keys == before.Keys
        invariant forall e :: e in pop ==>
            pop[e] == if e in todo then before[e] else RestoreValues(cfg, before, saved)[e]
        decreases todo
        modifies this`pop
      {
        var e :| e in todo;
        var component := pop[e].value;
        match (component, Get(saved, pop[e].rid)) {
          case (Some(c), Some(s)) => component := Some(cfg.values.Update(c, s));
          case (Some(_), None) => component := None;
          case (None, Some(s)) => component := Some(cfg.values.Load(s));
          case (None, None) =>
        }
        pop := pop[e := pop[e].(value := component)];
        todo := todo - {e};
      }
    }

    /** The load of an immutable component: re-insert whatever is saved, remove the rest. */
    method LoadImmutableValues(ghost r: seq<Entry<Snapshot>>)
      requires Holds(values, history, ValuesOf) && r == RolledBack(history, frame) && r != []
      modifies values, this`pop
      ensures Holds(values, r, ValuesOf)
      ensures pop == ReinsertValues(cfg, old(pop), r[0].data.values)
    {
      ColumnRolledBack(history, ValuesOf, frame);
      var found := values.Rollback(frame);
      var saved := values.Front();
      ghost var before := pop;
      var todo := VisibleEntities(pop);
      while todo != {}
        invariant todo <= VisibleEntities(before) && pop.Keys == before.Keys
        invariant forall e :: e in pop ==>
            pop[e] == if e in todo then before[e] else ReinsertValues(cfg, before, saved)[e]
        decreases todo
        modifies this`pop
      {
        var e :| e in todo;
        match Get(saved, pop[e].rid) {
          case Some(s) => pop := pop[e := pop[e].(value := Some(cfg.values.Load(s)))];
          case None =>
            if pop[e].value.Some? {
              pop := pop[e := pop[e].(value := None)];
            }
        }
        todo := todo - {e};
      }
    }

    /** The load of the component that holds a reference, by clone. */
    method LoadLikes(ghost r: seq<Entry<Snapshot>>)
      requires Holds(likes, history, LikesOf) && r == RolledBack(history, frame) && r != []
      modifies likes, this`pop
      ensures Holds(likes, r, LikesOf)
      ensures pop == RestoreLikes(old(pop), r[0].data.likes)
    {
      ColumnRolledBack(history, LikesOf, frame);
      var found := likes.Rollback(frame);
      var saved := likes.Front();
      ghost var before := pop;
      var todo := VisibleEntities(pop);
      while todo != {}
        invariant todo <= VisibleEntities(before) && pop.Keys == before.Keys
        invariant forall e :: e in pop ==> pop[e] == if e in todo then before[e] else RestoreLikes(before, saved)[e]
        decreases todo
        modifies this`pop
      {
        var e :| e in todo;
        pop := pop[e := pop[e].(likes := Get(saved, pop[e].rid))];
        todo := todo - {e};
      }
    }

    /** The hierarchy plugin's load: parents go through the entity map; an unmapped one is left alone. */
    method LoadParents(ghost r: seq<Entry<Snapshot>>)
      requires Holds(parents, history, ParentsOf) && r == RolledBack(history, frame) && r != []
      modifies parents, this`pop
      ensures Holds(parents, r, ParentsOf)
      ensures pop == RestoreParents(old(pop), r[0].data.parents, entityMap)
    {
      ColumnRolledBack(history, ParentsOf, frame);
      var found := parents.Rollback(frame);
      var saved := parents.Front();
      ghost var before := pop;
      var todo := VisibleEntities(pop);
      while todo != {}
        invariant todo <= VisibleEntities(before) && pop.Keys == before.Keys
        invariant forall e :: e in pop ==>
            pop[e] == if e in todo then before[e] else RestoreParents(before, saved, entityMap)[e]
        decreases todo
        modifies this`pop
      {
        var e :| e in todo;
        match (pop[e].parent, Get(saved, pop[e].rid)) {
          case (Some(_), None) => pop := pop[e := pop[e].(parent := None)];
          case (_, Some(p)) =>
            if p in entityMap {
              pop := pop[e := pop[e].(parent := Some(entityMap[p]))];
            }
          case (None, None) =>
        }
        todo := todo - {e};
      }
    }

    /** The mapping stage for components: every key of the map that is alive and has one. */
    method MapComponent()
      modifies this`pop
      ensures pop == MapLikes(old(pop), entityMap)
    {
      ghost var before := pop;
      var todo := entityMap.Keys;
      while todo != {}
        invariant todo <= entityMap.Keys && pop.Keys == before.Keys
        invariant forall e :: e in pop ==> pop[e] == if e in todo then before[e] else MapLikes(before, entityMap)[e]
        decreases todo
      {
        var original :| original in todo;
        if original in pop && pop[original].likes.Some? {
          pop := pop[original := pop[original].(likes := Some(GetMapped(entityMap, pop[original].likes.value)))];
        }
        todo := todo - {original};
      }
    }

    /** The mapping stage for resources. */
    method MapResource()
      modifies this`favourite
      ensures favourite == MappedReference(entityMap, old(favourite))
    {
      if favourite.Some? {
        favourite := Some(GetMapped(entityMap, favourite.value));
      }
    }

    /** The load systems of the component plugins. */
    method LoadComponents(ghost r: seq<Entry<Snapshot>>)
      requires Separate() && r == RolledBack(history, frame) && r != []
      requires Holds(values, history, ValuesOf) && Holds(likes, history, LikesOf) && Holds(parents, history, ParentsOf)
      modifies values, likes, parents, this`pop
      ensures Holds(values, r, ValuesOf) && Holds(likes, r, LikesOf) && Holds(parents, r, ParentsOf)
      ensures var s := r[0].data;
              pop == RestoreParents(RestoreLikes(RestoreValues(cfg, old(pop), s.values), s.likes), s.parents, entityMap)
    {
      LoadValues(r);
      LoadLikes(r);
      LoadParents(r);
    }

    /** A resource plugin's load with its strategy: update, remove or insert. */
    method LoadResource(ghost r: seq<Entry<Snapshot>>)
      requires Holds(resources, history, ResourceOf) && r == RolledBack(history, frame) && r != []
      modifies resources, this`resource
      ensures Holds(resources, r, ResourceOf)
      ensures resource == RestoredValue(cfg.resources, old(resource), r[0].data.resource)
    {
      ColumnRolledBack(history, ResourceOf, frame);
      var found := resources.Rollback(frame);
      var stored := resources.Front();
      match (resource, stored) {
        case (Some(c), Some(s)) => resource := Some(cfg.resources.Update(c, s));
        case (Some(_), None) => resource := None;
        case (None, Some(s)) => resource := Some(cfg.resources.Load(s));
        case (None, None) =>
      }
    }

    /** The loads of the resources kept as clones: the one that holds a reference, the register, and the clock. */
    method LoadClones(ghost r: seq<Entry<Snapshot>>)
      requires Separate() && r == RolledBack(history, frame) && r != []
      requires Holds(favourites, history, FavouriteOf) && Holds(orders, history, OrderOf)
      requires Holds(clocks, history, ClockOf)
      modifies favourites, orders, clocks, this`favourite, this`ordered, this`clock
      ensures Holds(favourites, r, FavouriteOf) && Holds(orders, r, OrderOf) && Holds(clocks, r, ClockOf)
      ensures favourite == r[0].data.favourite && ordered == r[0].data.ordered && clock == r[0].data.clock
    {
      ColumnRolledBack(history, FavouriteOf, frame);
      ColumnRolledBack(history, OrderOf, frame);
      ColumnRolledBack(history, ClockOf, frame);
      var found := favourites.Rollback(frame);
      favourite := favourites.Front();
      found := orders.Rollback(frame);
      ordered := orders.Front();
      found := clocks.Rollback(frame);
      clock := clocks.Front();
    }

    /** The load systems of the resource plugins. */
    method LoadResources(ghost r: seq<Entry<Snapshot>>)
      requires Separate() && r == RolledBack(history, frame) && r != []
      requires Holds(resources, history, ResourceOf) && Holds(favourites, history, FavouriteOf)
      requires Holds(orders, history, OrderOf) && Holds(clocks, history, ClockOf)
      modifies resources, favourites, orders, clocks, this`resource, this`favourite, this`ordered, this`clock
      ensures Holds(resources, r, ResourceOf) && Holds(favourites, r, FavouriteOf)
      ensures Holds(orders, r, OrderOf) && Holds(clocks, r, ClockOf)
      ensures resource == RestoredValue(cfg.resources, old(resource), r[0].data.resource)
      ensures favourite == r[0].data.favourite && ordered == r[0].data.ordered && clock == r[0].data.clock
    {
      LoadResource(r);
      LoadClones(r);
    }

    /** The mapping stage. */
    method MapReferences()
      modifies this`pop, this`favourite
      ensures pop == MapLikes(old(pop), entityMap) && favourite == MappedReference(entityMap, old(favourite))
    {
      MapComponent();
      MapResource();
    }

    /** The data loaders of all plugins, before the mapping stage. */
    method LoadData(ghost r: seq<Entry<Snapshot>>)
      requires Separate() && r == RolledBack(history, frame) && r != []
      requires Holds(values, history, ValuesOf) && Holds(likes, history, LikesOf) && Holds(parents, history, ParentsOf)
      requires Holds(resources, history, ResourceOf) && Holds(favourites, history, FavouriteOf)
      requires Holds(orders, history, OrderOf) && Holds(clocks, history, ClockOf)
      modifies values, likes, parents, resources, favourites, orders, clocks
      modifies this`pop, this`resource, this`favourite, this`ordered, this`clock
      ensures Holds(values, r, ValuesOf) && Holds(likes, r, LikesOf) && Holds(parents, r, ParentsOf)
      ensures Holds(resources, r, ResourceOf) && Holds(favourites, r, FavouriteOf)
      ensures Holds(orders, r, OrderOf) && Holds(clocks, r, ClockOf)
      ensures var s := r[0].data;
              pop == RestoreParents(RestoreLikes(RestoreValues(cfg, old(pop), s.values), s.likes), s.parents, entityMap)
      ensures resource == RestoredValue(cfg.resources, old(resource), r[0].data.resource)
      ensures favourite == r[0].data.favourite && ordered == r[0].data.ordered && clock == r[0].data.clock
    {
      LoadComponents(r);
      LoadResources(r);
    }

    /** All data loaders, and then the mapping stage. */
    method RestoreData(ghost r: seq<Entry<Snapshot>>)
      requires Separate() && r == RolledBack(history, frame) && r != []
      requires Holds(values, history, ValuesOf) && Holds(likes, history, LikesOf) && Holds(parents, history, ParentsOf)
      requires Holds(resources, history, ResourceOf) && Holds(favourites, history, FavouriteOf)
      requires Holds(orders, history, OrderOf) && Holds(clocks, history, ClockOf)
      modifies values, likes, parents, resources, favourites, orders, clocks
      modifies this`pop, this`resource, this`favourite, this`ordered, this`clock
      ensures Holds(values, r, ValuesOf) && Holds(likes, r, LikesOf) && Holds(parents, r, ParentsOf)
      ensures Holds(resources, r, ResourceOf) && Holds(favourites, r, FavouriteOf)
      ensures Holds(orders, r, OrderOf) && Holds(clocks, r, ClockOf)
      ensures State() == RestoredWorld(cfg, old(State()), r[0].data)
    {
      ghost var before := State();
      LoadData(r);
      MapReferences();
      DataIsRestored(cfg, before, r[0].data, State());
    }

    /** Sets the frame counter, resurrects, and reconciles entities. */
    method RestoreEntities(target: int, ghost r: seq<Entry<Snapshot>>) returns (found: bool, ghost choice: Choice)
      requires Holds(entities, history, EntitiesOf) && r == RolledBack(history, target)
      requires r != [] ==> Fits(Resurrected(pop, target), r[0].data.entities)
      modifies entities, this`frame, this`pop, this`next, this`ordered, this`entityMap
      ensures Holds(entities, r, EntitiesOf) && found == (r != [])
      ensures found ==> ChoiceOk(Resurrected(old(pop), target), r[0].data.entities, old(next), choice)
      ensures found ==> State() == ReconciledWorld(old(State()), target, r[0].data.entities, choice)
    {
      frame := target;
      ResurrectEntities();
      found, choice := LoadEntities(r);
    }

    /**
     A load request. `found` is false where the original panics for want of a snapshot; when the
     entity plugin finds its snapshot, so does every other plugin.
     */
    method LoadWorld(target: int) returns (found: bool, ghost choice: Choice)
      requires Valid()
      requires RolledBack(history, target) != [] ==>
                 Fits(Resurrected(pop, target), RolledBack(history, target)[0].data.entities)
      modifies this, entities, values, likes, parents, resources, favourites, orders, clocks
      ensures found == (RolledBack(old(history), target) != [])
      ensures found ==> Valid() && CanLoad(old(State()), target, choice)
      ensures found ==> State() == WorldModel.LoadWorld(cfg, old(State()), target, choice)
    {
      ghost var before := State();
      ghost var r := RolledBack(history, target);
      found, choice := RestoreEntities(target, r);
      if found {
        RestoreData(r);
        AdoptHistory(r);
        LoadInPhases(cfg, before, target, choice);
      }
    }

    // ---- AdvanceWorld ----------------------------------------------------------------------

    /** The game clock moves to the run time of the frame. False where the original panics: it would go backwards. */
    method UpdateTime() returns (ok: bool)
      requires cfg.rate >= 1
      modifies this`clock
      ensures ok == (old(clock).elapsed <= RuntimeNanos(frame, cfg.rate))
      ensures clock == if ok then Ticked(old(clock), RuntimeNanos(frame, cfg.rate)) else old(clock)
    {
      var runtime := ((frame % U64) * NANOS % U64) / cfg.rate;
      if clock.elapsed > runtime {
        return false;
      }
      clock := Clock(runtime, runtime - clock.elapsed);
      return true;
    }

    /** Entities whose mark is confirmed go for good; nothing is scanned when nothing new is confirmed. */
    method DespawnConfirmedEntities()
      modifies this`pop, this`scanned
      ensures State() == DespawnConfirmed(old(State()))
    {
      if confirmed == scanned {
        return;
      }
      scanned := confirmed;
      var doomed := set e | e in pop && pop[e].mark.Some? && pop[e].mark.value <= confirmed;
      DespawnAll(doomed);
    }

    /** A soft despawn: a mark on the whole family while the frame is unconfirmed, else a despawn. */
    method DespawnRollback(e: Entity)
      modifies this`pop
      ensures confirmed < frame ==> pop == Marked(old(pop), {e}, frame)
      ensures confirmed >= frame ==> pop == Despawned(old(pop), {e})
    {
      if confirmed < frame {
        var family := CollectFamily(pop, {e});
        pop := map d | d in pop :: if d in family then pop[d].(mark := Some(frame)) else pop[d];
        return;
      }
      DespawnAll({e});
    }

    method ResolveIndex(index: nat) returns (r: Option<Entity>)
      requires Distinct(pop)
      ensures r == Resolve(State(), index)
    {
      r := FindByIndex(pop, ordered, index);
    }

    method ExecuteSpawn(value: Option<Value>, parentIndex: Option<nat>, decor: Option<int>)
      requires Distinct(pop)
      modifies this`pop, this`next, this`ordered
      ensures State() == Execute(old(State()), Spawn(value, parentIndex, decor))
    {
      var parent: Option<Entity> := None;
      if parentIndex.Some? {
        parent := ResolveIndex(parentIndex.value);
      }
      var e := Entity(next);
      next := next + 1;
      var rid := OnRollbackAdded(e, None);
      pop := pop[e := Body(rid, None, value, None, parent, decor)];
    }

    method ExecuteEdit(c: Command)
      requires Distinct(pop) && (c.SetValue? || c.ClearValue? || c.SetLikes?)
      modifies this`pop
      ensures State() == Execute(old(State()), c)
    {
      var r := ResolveIndex(c.target);
      if r.None? {
        return;
      }
      match c
      case SetValue(_, v) => pop := pop[r.value := pop[r.value].(value := Some(v))];
      case ClearValue(_) => pop := pop[r.value := pop[r.value].(value := None)];
      case SetLikes(_, l) =>
        var liked := ResolveIndex(l);
        pop := pop[r.value := pop[r.value].(likes := liked)];
    }

    method ExecuteDespawn(c: Command)
      requires Distinct(pop) && (c.Despawn? || c.DespawnRollback?)
      modifies this`pop
      ensures State() == Execute(old(State()), c)
    {
      var r := ResolveIndex(c.target);
      if r.None? {
        return;
      }
      if c.Despawn? {
        DespawnAll({r.value});
      } else {
        DespawnRollback(r.value);
      }
    }

    method ExecuteCommand(c: Command)
      requires Distinct(pop)
      modifies this`pop, this`next, this`ordered, this`resource, this`favourite
      ensures State() == Execute(old(State()), c)
    {
      match c
      case Spawn(v, p, d) => ExecuteSpawn(v, p, d);
      case SetValue(_, _) => ExecuteEdit(c);
      case ClearValue(_) => ExecuteEdit(c);
      case SetLikes(_, _) => ExecuteEdit(c);
      case Despawn(_) => ExecuteDespawn(c);
      case DespawnRollback(_) => ExecuteDespawn(c);
      case SetResource(v) => resource := Some(v);
      case ClearResource => resource := None;
      case SetFavourite(l) => favourite := ResolveIndex(l);
    }

    /** What game logic gets to see of the world. */
    method Observe() returns (v: View)
      requires Indexed(pop, ordered)
      ensures v == ViewOf(State())
    {
      var bodies := ObserveBodies(pop, ordered);
      var parentIndices := ObserveLinks(pop, ordered, ParentLink);
      var likeIndices := ObserveLinks(pop, ordered, LikesLink);
      v := View(frame, bodies, parentIndices, likeIndices, ReferenceIndex(pop, ordered, favourite), |ordered.sorted|,
                resource, clock);
    }

    method RunCommand(script: seq<Command>, i: nat, ghost before: WorldModel.World)
      requires Live(before) && i < |script| && State() == ExecuteAll(before, script[..i])
      modifies this`pop, this`next, this`ordered, this`resource, this`favourite
      ensures State() == ExecuteAll(before, script[..i + 1])
    {
      ScriptKeepsDistinct(before, script[..i]);
      assert script[..i + 1][..i] == script[..i];
      ExecuteCommand(script[i]);
    }

    method RunScript(script: seq<Command>)
      requires Live(State())
      modifies this`pop, this`next, this`ordered, this`resource, this`favourite
      ensures State() == ExecuteAll(old(State()), script)
    {
      ghost var before := State();
      var i := 0;
      assert script[..0] == [];
      while i < |script|
        invariant i <= |script|
        invariant State() == ExecuteAll(before, script[..i])
      {
        RunCommand(script, i, before);
        i := i + 1;
      }
      assert script[..i] == script;
    }

    /** Deterministic game logic: a script computed from the view and the inputs, run command by command. */
    method RunGameLogic(input: Input)
      requires Live(State())
      modifies this`pop, this`next, this`ordered, this`resource, this`favourite
      ensures State() == ExecuteAll(old(State()), cfg.logic(ViewOf(old(State())), input))
    {
      var view := Observe();
      RunScript(cfg.logic(view, input));
    }

    /**
     The systems that run before game logic. False where the original panics: counter overflow or a clock
     going backwards.
     */
    method BeginFrame() returns (ok: bool)
      modifies this`frame, this`clock, this`pop, this`scanned
      ensures ok == CanAdvance(cfg, old(State()))
      ensures ok ==> State() == BeforeLogic(cfg, old(State()))
    {
      if cfg.rate == 0 || frame >= I32_MAX {
        return false;
      }
      frame := frame + 1;
      ok := UpdateTime();
      if ok {
        DespawnConfirmedEntities();
      }
    }

    /** An advance request. */
    method AdvanceWorld(input: Input) returns (ok: bool)
      requires CanAdvance(cfg, State()) ==> Live(BeforeLogic(cfg, State()))
      modifies this`frame, this`clock, this`pop, this`scanned, this`next, this`ordered, this`resource, this`favourite
      ensures ok == CanAdvance(cfg, old(State()))
      ensures ok ==> State() == WorldModel.AdvanceWorld(cfg, old(State()), input)
    {
      ok := BeginFrame();
      if ok {
        RunGameLogic(input);
      }
    }

    // ---- Requests --------------------------------------------------------------------------

    /** Refreshes the prediction window and the confirmed frame from the session. */
    method EnterSession(session: Session)
      modifies this`window, this`confirmed
      ensures State() == Enter(old(State()), session)
      ensures match session
              case P2P(m, c) => window == m && confirmed == c
              case SyncTest(m, d) => window == m && confirmed == if frame >= d then frame - d else old(confirmed)
              case Spectator => window == 0 && confirmed == frame
              case NoSession => window == old(window) && confirmed == old(confirmed)
    {
      match session {
        case P2P(maxPrediction, confirmedFrame) =>
          window, confirmed := maxPrediction, confirmedFrame;
        case SyncTest(maxPrediction, checkDistance) =>
          window := maxPrediction;
          if frame - checkDistance >= 0 {
            confirmed := frame - checkDistance;
          }
        case Spectator =>
          window, confirmed := 0, frame;
        case NoSession =>
      }
    }

    /** What an update without a session resets: the counters of the frame, and nothing else. */
    method ResetCounters()
      requires Valid()
      modifies this`frame, this`confirmed, this`window
      ensures Valid()
      ensures State() == CountersReset(old(State()))
      ensures frame == 0 && confirmed == -1 && window == 8
    {
      frame, confirmed, window := 0, -1, 8;
    }

    /** Runs the schedule of one request, after the session's values have been refreshed. */
    method RunSchedule<T(!new)>(request: Request, h: Hashing<T>)
      returns (ok: bool, cells: seq<Cell<T>>, ghost choice: Choice)
      requires Valid() && Indexed(pop, ordered) && 0 <= frame <= I32_MAX && h.mixer.Lawful()
      requires request.Load? && RolledBack(history, request.frame) != [] ==>
                 Fits(Resurrected(pop, request.frame), RolledBack(history, request.frame)[0].data.entities)
      requires request.Advance? && CanAdvance(cfg, State()) ==> Live(BeforeLogic(cfg, State()))
      modifies this, entities, values, likes, parents, resources, favourites, orders, clocks
      ensures Report(ok, State()) == Served(cfg, old(State()), request, choice)
      ensures cells == CellsOf(h, old(State()), request)
      ensures ok ==> Valid()
      ensures ok && request.Load? ==> CanLoad(old(State()), request.frame, choice)
      ensures !request.Load? ==> choice == NO_CHOICE
    {
      choice := NO_CHOICE;
      cells := [];
      match request
      case Save =>
        var cell := SaveWorld(h);
        cells := [cell];
        ok := true;
      case Load(target) =>
        ok, choice := LoadWorld(target);
      case Advance(input) =>
        ok := AdvanceWorld(input);
    }

    /** One request. `ok` is false exactly where the original panics. A save reports its checksum. */
    method HandleRequest<T(!new)>(session: Session, request: Request, h: Hashing<T>)
      returns (ok: bool, cells: seq<Cell<T>>, ghost ev: Event)
      requires Valid() && Sound(State()) && h.mixer.Lawful()
      modifies this, entities, values, likes, parents, resources, favourites, orders, clocks
      ensures Answer(session, request, ev)
      ensures Report(ok, State()) == Step(cfg, old(State()), ev)
      ensures cells == CellsOf(h, old(State()), request)
      ensures ok ==> Valid() && Sound(State())
      ensures ok && request.Load? ==> FreshHandles(old(State()), session, request.frame, ev.choice)
    {
      ghost var before := State();
      ReadyToServe(cfg, before, session, request);
      EnterSession(session);
      ghost var choice;
      ok, cells, choice := RunSchedule(request, h);
      ev := Event(session, request, choice);
      EnteredCells(h, before, session, request);
      StepIsServed(cfg, before, ev);
      if ok {
        ServedIsSound(cfg, before, ev);
      }
    }

    method HandleNext<T(!new)>(session: Session, request: Request, h: Hashing<T>,
                               ghost w0: WorldModel.World, ghost es: seq<Event>)
      returns (ok: bool, cells: seq<Cell<T>>, ghost ev: Event)
      requires Valid() && Sound(w0) && RunFrom(cfg, w0, es) == Running(State()) && Genuine(cfg, w0, es)
      requires h.mixer.Lawful()
      modifies this, entities, values, likes, parents, resources, favourites, orders, clocks
      ensures Answer(session, request, ev)
      ensures Report(ok, State()) == RunFrom(cfg, w0, es + [ev]) && Genuine(cfg, w0, es + [ev])
      ensures Reports(h, cfg, w0, es + [ev]) == Reports(h, cfg, w0, es) + cells
      ensures ok ==> Valid()
    {
      ghost var before := State();
      GenuineRunsAreSound(cfg, w0, es);
      ok, cells, ev := HandleRequest(session, request, h);
      RunAppended(cfg, w0, es, ev, before);
      ReportsAppended(h, cfg, w0, es, ev);
    }

    /**
     The request interpreter. Whatever is requested, the engine computes the model's run of those
     requests, with fresh handles of its own choosing, and its saves report what the model's saves
     report; it stops exactly where the original would panic. The world it leaves is sound again, by
     `GenuineRunsAreSound`.
     */
    method HandleRequests<T(!new)>(session: Session, requests: seq<Request>, h: Hashing<T>)
      returns (ok: bool, cells: seq<Cell<T>>, ghost served: seq<Event>)
      requires Valid() && Sound(State()) && h.mixer.Lawful()
      modifies this, entities, values, likes, parents, resources, favourites, orders, clocks
      ensures Answers(session, requests, served) && (ok ==> |served| == |requests|)
      ensures Report(ok, State()) == RunFrom(cfg, old(State()), served)
      ensures cells == Reports(h, cfg, old(State()), served)
      ensures Genuine(cfg, old(State()), served)
      ensures ok ==> Valid()
    {
      ghost var before := State();
      ok, cells, served := true, [], [];
      var i := 0;
      while ok && i < |requests|
        invariant i == |served| <= |requests| && (ok ==> Valid())
        invariant Answers(session, requests, served)
        invariant Report(ok, State()) == RunFrom(cfg, before, served) && Genuine(cfg, before, served)
        invariant cells == Reports(h, cfg, before, served)
      {
        ghost var ev;
        var more;
        ok, more, ev := HandleNext(session, requests[i], h, before, served);
        AnswersNext(session, requests, served, ev);
        cells, served := cells + more, served + [ev];
        i := i + 1;
      }
    }
  }

  /** What a save reports does not depend on what has been refreshed from the session. */
  lemma EnteredCells<T(!new)>(h: Hashing<T>, v: WorldModel.World, s: Session, request: Request)
    ensures CellsOf(h, Enter(v, s), request) == CellsOf(h, v, request)
  {
  }

  /** The events answer the first requests, in order, all under one session. */
  predicate Answers(session: Session, requests: seq<Request>, es: seq<Event>) {
    if es == [] then true
    else
      var last := |es| - 1;
      last < |requests| && Answer(session, requests[last], es[last]) && Answers(session, requests, es[..last])
  }

  predicate Answer(session: Session, request: Request, ev: Event) {
    ev.session == session && ev.request == request && (!request.Load? ==> ev.choice == NO_CHOICE)
  }

  lemma AnswersNext(session: Session, requests: seq<Request>, es: seq<Event>, ev: Event)
    requires Answers(session, requests, es) && |es| < |requests|
    requires Answer(session, requests[|es|], ev)
    ensures Answers(session, requests, es + [ev])
  {
  }

  function CountersReset(w: WorldModel.World): WorldModel.World {
    w.(frame := 0, confirmed := -1, window := 8)
  }

  /** The outcome a method reports. */
  function Report(ok: bool, w: WorldModel.World): Outcome {
    if ok then Running(w) else Panicked
  }

  /** The schedule of one request. */
  ghost function Served(cfg: Config, w: WorldModel.World, request: Request, c: Choice): Outcome {
    match request
    case Save => Running(WorldModel.SaveWorld(cfg, w))
    case Load(r) => if RolledBack(w.history, r) == [] then Panicked else Running(WorldModel.LoadWorld(cfg, w, r, c))
    case Advance(i) => if CanAdvance(cfg, w) then Running(WorldModel.AdvanceWorld(cfg, w, i)) else Panicked
  }

  lemma StepIsServed(cfg: Config, w: WorldModel.World, ev: Event)
    ensures Step(cfg, w, ev) == Served(cfg, Enter(w, ev.session), ev.request, ev.choice)
  {
  }

  lemma EnteredSound(w: WorldModel.World, s: Session)
    requires Sound(w)
    ensures Sound(Enter(w, s))
  {
  }

  lemma ReadyToServe(cfg: Config, v: WorldModel.World, s: Session, request: Request)
    requires Sound(v)
    ensures var w := Enter(v, s);
            && Indexed(w.pop, w.ordered) && 0 <= w.frame <= I32_MAX
            && (request.Load? && RolledBack(w.history, request.frame) != [] ==>
                  Fits(Resurrected(w.pop, request.frame), RolledBack(w.history, request.frame)[0].data.entities))
            && (request.Advance? && CanAdvance(cfg, w) ==> Live(BeforeLogic(cfg, w)))
  {
    var w := Enter(v, s);
    EnteredSound(v, s);
    if request.Load? {
      ReadyToReconcile(w, request.frame);
    }
    if request.Advance? && CanAdvance(cfg, w) {
      BeforeLogicIsLive(cfg, w);
    }
  }

  /** Every request keeps soundness, permitted or not. */
  lemma ServedIsSound(cfg: Config, v: WorldModel.World, ev: Event)
    requires Sound(v) && Step(cfg, v, ev).Running?
    requires ev.request.Load? ==> FreshHandles(v, ev.session, ev.request.frame, ev.choice)
    ensures Sound(Step(cfg, v, ev).world)
  {
    var w := Enter(v, ev.session);
    EnteredSound(v, ev.session);
    match ev.request
    case Save => SaveKeepsSound(cfg, w);
    case Advance(i) => AdvanceKeepsSound(cfg, w, i);
    case Load(r) => LoadKeepsSound(cfg, w, r, ev.choice);
  }

  /** Soundness needs no assumption on the requests at all. */
  lemma {:induction false} GenuineRunsAreSound(cfg: Config, w0: WorldModel.World, es: seq<Event>)
    requires Sound(w0) && Genuine(cfg, w0, es) && RunFrom(cfg, w0, es).Running?
    ensures Sound(RunFrom(cfg, w0, es).world)
  {
    if es != [] {
      var front, ev := es[..|es| - 1], es[|es| - 1];
      GenuineRunsAreSound(cfg, w0, front);
      ServedIsSound(cfg, RunFrom(cfg, w0, front).world, ev);
    }
  }

  lemma RunAppended(cfg: Config, w0: WorldModel.World, es: seq<Event>, ev: Event, w: WorldModel.World)
    requires RunFrom(cfg, w0, es) == Running(w) && Genuine(cfg, w0, es)
    requires Step(cfg, w, ev).Running? && ev.request.Load? ==> FreshHandles(w, ev.session, ev.request.frame, ev.choice)
    ensures RunFrom(cfg, w0, es + [ev]) == Step(cfg, w, ev) && Genuine(cfg, w0, es + [ev])
  {
  }

  lemma ScriptKeepsDistinct(w: WorldModel.World, script: seq<Command>)
    requires Live(w)
    ensures Distinct(ExecuteAll(w, script).pop)
  {
    ExecuteAllKeepsLive(w, script);
  }

  lemma Respawned(before: Pop, spawned: map<RollbackId, Entity>, pop: Pop)
    requires forall x, y :: x in spawned && y in spawned && spawned[x] == spawned[y] ==> x == y
    requires forall x :: x in spawned ==> spawned[x] in pop && pop[spawned[x]] == Blank(x)
    requires forall e :: e in before && e !in spawned.Values ==> e in pop && pop[e] == before[e]
    requires forall e :: e in pop && e !in spawned.Values ==> e in before
    ensures pop == before + map e | e in spawned.Values :: Blank(KeyOf(spawned, e))
  {
  }

  /** What the entity loader relies on holds in every sound world. */
  lemma ReadyToReconcile(w: WorldModel.World, frame: int)
    requires Sound(w)
    ensures RolledBack(w.history, frame) != [] ==>
              Fits(BeforeReconcile(w, frame), RolledBack(w.history, frame)[0].data.entities)
  {
    if RolledBack(w.history, frame) != [] {
      var n := RolledBackIndex(w.history, frame, w.frame);
      ResurrectedSound(w.pop, w.next, w.scanned, w.frame, frame);
      ResurrectedSnapshot(frame, w.history[n].data, w.pop, w.next, frame);
    }
  }

  /** The data loaders and the mapping stage, one after the other. */
  function RestoredPop(cfg: Config, pop: Pop, s: Snapshot, m: map<Entity, Entity>): Pop {
    MapLikes(RestoreParents(RestoreLikes(RestoreValues(cfg, pop, s.values), s.likes), s.parents, m), m)
  }

  ghost function ReconciledWorld(w: WorldModel.World, frame: int, saved: map<RollbackId, Entity>, c: Choice)
    : WorldModel.World
  {
    var start := Resurrected(w.pop, frame);
    w.(pop := Reconciled(start, saved, c.spawned), next := c.next, frame := frame,
       entityMap := EntityMapOf(start, saved, c.spawned))
  }

  function RestoredWorld(cfg: Config, w: WorldModel.World, s: Snapshot): WorldModel.World {
    w.(pop := RestoredPop(cfg, w.pop, s, w.entityMap),
       resource := RestoredValue(cfg.resources, w.resource, s.resource),
       favourite := MappedReference(w.entityMap, s.favourite),
       ordered := s.ordered, clock := s.clock)
  }

  lemma DataIsRestored(cfg: Config, w: WorldModel.World, s: Snapshot, w': WorldModel.World)
    requires w'.pop == RestoredPop(cfg, w.pop, s, w.entityMap)
    requires w'.resource == RestoredValue(cfg.resources, w.resource, s.resource)
    requires w'.favourite == MappedReference(w.entityMap, s.favourite)
    requires w'.ordered == s.ordered && w'.clock == s.clock
    requires w'.next == w.next && w'.frame == w.frame && w'.confirmed == w.confirmed && w'.window == w.window
    requires w'.scanned == w.scanned && w'.entityMap == w.entityMap && w'.history == w.history
    ensures w' == RestoredWorld(cfg, w, s)
  {
  }

  /** A load is entity reconciliation followed by the restoration of data. */
  lemma LoadInPhases(cfg: Config, w: WorldModel.World, frame: int, c: Choice)
    requires RolledBack(w.history, frame) != []
    ensures var h := RolledBack(w.history, frame);
            WorldModel.LoadWorld(cfg, w, frame, c) ==
            RestoredWorld(cfg, ReconciledWorld(w, frame, h[0].data.entities, c), h[0].data).(history := h)
  {
  }

  lemma EmptyColumns()
    ensures Column([], EntitiesOf) == [] && Column([], ValuesOf) == [] && Column([], LikesOf) == []
    ensures Column([], ParentsOf) == []
    ensures Column([], ResourceOf) == [] && Column([], FavouriteOf) == [] && Column([], OrderOf) == []
    ensures Column([], ClockOf) == []
  {
  }

  lemma EmptyWorld(w: WorldModel.World)
    requires w.pop == map[] && w.ordered == NO_ORDER && w.favourite.None?
    requires w.frame == 0 && w.history == [] && w.clock == Clock(0, 0)
    ensures Sound(w) && Start(w)
  {
  }
}
