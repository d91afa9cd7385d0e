/**
 Where loading does not leave references coherent. The exact conditions are in `Remapping`; here is
 the general reason why a second load of the same frame violates them. `Scenarios` has runs in which
 that happens.
 */
module Incoherence {
  import opened Prelude
  import opened Population
  import opened SnapshotQueue
  import opened WorldModel
  import opened Soundness
  import opened Reconciliation
  import opened Restoration
  import opened Remapping
  import opened Hierarchy
  import opened Runs
  import opened Sessions
  import opened Stretches

  // ---- Loading the same frame twice ---------------------------------------------------------------

  /** The handle that a snapshot has for an entity that had to be respawned is out of use. */
  lemma SpawnedIsDead(v: World, horizon: int, first: Event, cfg: Config, e: Entry<Snapshot>, t: RollbackId)
    requires RunInvariant(cfg, v, horizon) && Permitted(v, horizon, first)
    requires first.request == Load(e.frame) && e in v.history && t in first.choice.spawned
    ensures t in e.data.entities && Dead(v, e.data.entities[t])
  {
    var w := Enter(v, first.session);
    StepServes(cfg, v, first, horizon);
    StoredEntry(w.history, w.frame, e);
    LoadStarts(w, e.frame, first.choice);
    LostIsDead(BeforeReconcile(w, e.frame), w.next, e.frame, e.data, first.choice, t);
  }

  lemma SpawnedIsDeadAt(cfg: Config, w0: World, es: seq<Event>, v: World, first: Event, e: Entry<Snapshot>,
                        t: RollbackId)
    requires Conforming(cfg, w0, es + [first]) && RunFrom(cfg, w0, es) == Running(v)
    requires first.request == Load(e.frame) && e in v.history && t in first.choice.spawned
    ensures t in e.data.entities && Dead(v, e.data.entities[t])
  {
    var front, u, ev := LastStep(cfg, w0, es, [first]);
    assert es + front == es;
    Known(cfg, w0, es, v, first);
    SpawnedIsDead(v, Horizon(cfg, w0, es), first, cfg, e, t);
  }

  /** And it stays out of use. */
  lemma SpawnedStaysDead(cfg: Config, w0: World, es: seq<Event>, v: World, first: Event, more: seq<Event>,
                         e: Entry<Snapshot>, t: RollbackId)
    requires Conforming(cfg, w0, es + [first] + more) && RunFrom(cfg, w0, es) == Running(v)
    requires first.request == Load(e.frame) && e in v.history && t in first.choice.spawned
    ensures RunFrom(cfg, w0, es + [first] + more).Running? && t in e.data.entities
    ensures Dead(RunFrom(cfg, w0, es + [first] + more).world, e.data.entities[t])
  {
    ConformingPrefix(cfg, w0, es + [first] + more, es + [first]);
    SpawnedIsDeadAt(cfg, w0, es, v, first, e, t);
    Prepend(es, first, more);
    DeadStays(cfg, w0, es, [first] + more, e.data.entities[t]);
  }

  /** At a second load of the frame it cannot be mapped. */
  ghost predicate Unmapped(w: World, e: Entry<Snapshot>, c: Choice, t: RollbackId) {
    && Sound(w) && CanLoad(w, e.frame, c) && RolledBack(w.history, e.frame)[0] == e
    && NoDrag(BeforeReconcile(w, e.frame), e.data)
    && t in e.data.entities && !TargetFound(BeforeReconcile(w, e.frame), e.data, t)
  }

  lemma DeadIsUnmapped(cfg: Config, v: World, horizon: int, second: Event, e: Entry<Snapshot>, t: RollbackId)
    requires RunInvariant(cfg, v, horizon) && Permitted(v, horizon, second) && LinkSafe(v)
    requires second.request == Load(e.frame) && e in v.history
    requires t in e.data.entities && Dead(v, e.data.entities[t]) && t in VisibleIds(BeforeReconcile(v, e.frame))
    ensures Unmapped(Enter(v, second.session), e, second.choice, t)
    ensures Step(cfg, v, second) == Running(LoadWorld(cfg, Enter(v, second.session), e.frame, second.choice))
  {
    var w := Enter(v, second.session);
    StepServes(cfg, v, second, horizon);
    StoredEntry(w.history, w.frame, e);
    LoadDragsNothing(w, e.frame);
  }

  /** What a first load had to respawn, and a second load of the snapshot finds visible, is off its saved handle. */
  lemma SecondLoadStarts(cfg: Config, w0: World, es: seq<Event>, v: World, first: Event, more: seq<Event>, u: World,
                         second: Event, e: Entry<Snapshot>, t: RollbackId)
    requires Conforming(cfg, w0, es + TwoLoads(first, more, second))
    requires RunFrom(cfg, w0, es) == Running(v) && RunFrom(cfg, w0, es + [first] + more) == Running(u)
    requires first.request == second.request == Load(e.frame) && e in v.history && e in u.history
    requires t in first.choice.spawned && t in VisibleIds(BeforeReconcile(u, e.frame))
    ensures var w := Enter(u, second.session);
            && Unmapped(w, e, second.choice, t)
            && RunFrom(cfg, w0, es + TwoLoads(first, more, second))
                == Running(LoadWorld(cfg, w, e.frame, second.choice))
  {
    var all := es + [first] + more;
    InOrder(es, first, more, second);
    ConformingPrefix(cfg, w0, all + [second], all);
    SpawnedStaysDead(cfg, w0, es, v, first, more, e, t);
    var front, x, ev := LastStep(cfg, w0, all, [second]);
    assert all + front == all;
    Known(cfg, w0, all, u, second);
    DeadIsUnmapped(cfg, u, Horizon(cfg, w0, all), second, e, t);
  }

  /**
   Loading a frame twice, whatever is requested in between. A component's reference to an entity that
   the first load had to respawn is stale after the second load of the same snapshot, if the entity is
   still visible: the snapshot has the handle from before the first load, which is out of use for good.
   */
  lemma SecondLoadStalesComponents(cfg: Config, w0: World, es: seq<Event>, v: World, first: Event, more: seq<Event>,
                                   u: World, second: Event, e: Entry<Snapshot>, holder: RollbackId, t: RollbackId)
    requires Conforming(cfg, w0, es + TwoLoads(first, more, second))
    requires RunFrom(cfg, w0, es) == Running(v) && RunFrom(cfg, w0, es + [first] + more) == Running(u)
    requires first.request == second.request == Load(e.frame) && e in v.history && e in u.history
    requires t in first.choice.spawned && t in VisibleIds(BeforeReconcile(u, e.frame))
    requires holder in e.data.entities && t in e.data.entities
    requires Get(e.data.likes, holder) == Some(e.data.entities[t])
    ensures RunFrom(cfg, w0, es + TwoLoads(first, more, second)).Running?
    ensures var q := RunFrom(cfg, w0, es + TwoLoads(first, more, second)).world.pop;
            Find(q, t).Some? && Find(q, holder).Some? && q[Find(q, holder).value].likes != Find(q, t)
  {
    SecondLoadStarts(cfg, w0, es, v, first, more, u, second, e, t);
    ComponentReferenceCoherent(cfg, Enter(u, second.session), e.frame, second.choice, holder, t);
  }

  /** And so is a resource's reference. */
  lemma SecondLoadStalesResources(cfg: Config, w0: World, es: seq<Event>, v: World, first: Event, more: seq<Event>,
                                  u: World, second: Event, e: Entry<Snapshot>, t: RollbackId)
    requires Conforming(cfg, w0, es + TwoLoads(first, more, second))
    requires RunFrom(cfg, w0, es) == Running(v) && RunFrom(cfg, w0, es + [first] + more) == Running(u)
    requires first.request == second.request == Load(e.frame) && e in v.history && e in u.history
    requires t in first.choice.spawned && t in VisibleIds(BeforeReconcile(u, e.frame))
    requires t in e.data.entities && e.data.favourite == Some(e.data.entities[t])
    ensures RunFrom(cfg, w0, es + TwoLoads(first, more, second)).Running?
    ensures var w := RunFrom(cfg, w0, es + TwoLoads(first, more, second)).world;
            Find(w.pop, t).Some? && w.favourite != Find(w.pop, t)
  {
    SecondLoadStarts(cfg, w0, es, v, first, more, u, second, e, t);
    ResourceReferenceCoherent(cfg, Enter(u, second.session), e.frame, second.choice, t);
  }
}
