/**
 Entity references after a load: when exactly a stored reference points at the entity it meant,
 for components, for resources, and for parents.
 */
module Remapping {
  import opened Prelude
  import opened Population
  import opened SnapshotQueue
  import opened WorldModel
  import opened Soundness
  import opened Reconciliation
  import opened Restoration

  // ---- The live entity of a saved identity -----------------------------------------------------

  /** The saved entity is alive under the handle the snapshot has. */
  ghost predicate KeptHandle(pop: Pop, s: Snapshot, t: RollbackId) {
    t in s.entities && Visible(pop, s.entities[t]) && pop[s.entities[t]].rid == t
  }

  /** The visible entity that carries identity `t` once reconciliation is done. */
  ghost function LiveHandle(pop: Pop, s: Snapshot, c: Choice, t: RollbackId): Option<Entity> {
    Find(Reconciled(pop, s.entities, c.spawned), t)
  }

  lemma LiveHandleIs(pop: Pop, next: nat, frame: int, s: Snapshot, c: Choice, t: RollbackId)
    requires Loadable(pop, next, frame, s, c) && NoDrag(pop, s) && t in s.entities
    ensures t in c.spawned ==> LiveHandle(pop, s, c, t) == Some(c.spawned[t])
    ensures t !in c.spawned ==> Find(pop, t).Some? && LiveHandle(pop, s, c, t) == Find(pop, t)
  {
    var p := Reconciled(pop, s.entities, c.spawned);
    ReconciledDistinct(pop, next, frame, s, c);
    if t in c.spawned {
      FreshEntity(pop, next, frame, s, c, t);
      FindVisible(p, c.spawned[t]);
    } else {
      var e := Find(pop, t).value;
      ReconcileKeeps(pop, next, frame, s, c, e);
      ReconciledAt(pop, next, frame, s, c, e);
      FindVisible(p, e);
    }
  }

  /** The handle a snapshot has for `t` can be mapped: `t` is still on it, or nowhere and about to be respawned. */
  ghost predicate TargetFound(pop: Pop, s: Snapshot, t: RollbackId) {
    KeptHandle(pop, s, t) || t !in VisibleIds(pop)
  }

  /** Exactly the saved identities that are nowhere to be seen are respawned. */
  lemma RespawnedIsMissing(pop: Pop, next: nat, frame: int, s: Snapshot, c: Choice, t: RollbackId)
    requires Loadable(pop, next, frame, s, c) && t in s.entities
    ensures t in c.spawned <==> t !in VisibleIds(pop)
  {
  }

  /** What the mapper makes of the handle a snapshot has for `t`: right iff `t` kept it or has to be respawned. */
  lemma MappedHandle(pop: Pop, next: nat, frame: int, s: Snapshot, c: Choice, t: RollbackId)
    requires Loadable(pop, next, frame, s, c) && NoDrag(pop, s) && t in s.entities
    ensures var m := EntityMapOf(pop, s.entities, c.spawned);
            Some(GetMapped(m, s.entities[t])) == LiveHandle(pop, s, c, t) <==> TargetFound(pop, s, t)
    ensures var m := EntityMapOf(pop, s.entities, c.spawned);
            s.entities[t] in m <==> TargetFound(pop, s, t)
    ensures Some(s.entities[t]) == LiveHandle(pop, s, c, t) <==> KeptHandle(pop, s, t)
  {
    var m := EntityMapOf(pop, s.entities, c.spawned);
    LiveHandleIs(pop, next, frame, s, c, t);
    var l := s.entities[t];
    if t in c.spawned {
      RespawnKey(pop, next, frame, s, c, t);
      FreshIsNew(pop, next, frame, s, c);
    } else if KeptHandle(pop, s, t) {
      assert l in Survivors(pop, s.entities);
      SurvivorKey(pop, next, frame, s, c, l);
      FindVisible(pop, l);
    } else {
      DeadHandleIsNoKey(pop, next, frame, s, c, t);
    }
  }

  /** A saved entity that lives on under another handle: its saved handle is no key of the map. */
  lemma DeadHandleIsNoKey(pop: Pop, next: nat, frame: int, s: Snapshot, c: Choice, t: RollbackId)
    requires Loadable(pop, next, frame, s, c) && t in s.entities && t !in c.spawned && !KeptHandle(pop, s, t)
    ensures s.entities[t] !in EntityMapOf(pop, s.entities, c.spawned)
  {
  }

  // ---- Components and resources ----------------------------------------------------------------

  /** The holder's entity already existed when the load began. */
  ghost predicate Survived(pop: Pop, s: Snapshot, holder: RollbackId) {
    holder in s.entities && holder in VisibleIds(pop)
  }

  /**
   The reference that the snapshot has for `holder` to `t` can be mapped: `t` is on its saved handle,
   or `t` is nowhere and the holder is there to be visited.
   */
  ghost predicate ReferenceFound(pop: Pop, s: Snapshot, holder: RollbackId, t: RollbackId) {
    KeptHandle(pop, s, t) || (Survived(pop, s, holder) && t !in VisibleIds(pop))
  }

  /**
   Remap coherence, exactly. After a load, the reference to saved entity `t` that the snapshot has
   for `holder` points at `t`'s live entity if and only if, before the load, `t` was on its saved
   handle, or `t` was nowhere and the holder was there.
   */
  lemma ComponentReferenceCoherent(cfg: Config, w: World, r: int, c: Choice, holder: RollbackId, t: RollbackId)
    requires Sound(w) && CanLoad(w, r, c)
    requires NoDrag(BeforeReconcile(w, r), RolledBack(w.history, r)[0].data)
    requires var s := RolledBack(w.history, r)[0].data;
             holder in s.entities && t in s.entities && Get(s.likes, holder) == Some(s.entities[t])
    ensures var s := RolledBack(w.history, r)[0].data;
            var pop := BeforeReconcile(w, r);
            var w' := LoadWorld(cfg, w, r, c);
            var h := Find(w'.pop, holder);
            h.Some? && Find(w'.pop, t).Some?
            && (w'.pop[h.value].likes == Find(w'.pop, t) <==> ReferenceFound(pop, s, holder, t))
  {
    var s := RolledBack(w.history, r)[0].data;
    var pop := BeforeReconcile(w, r);
    LoadStarts(w, r, c);
    LoadedFind(cfg, pop, w.next, r, s, c, holder);
    LoadedFind(cfg, pop, w.next, r, s, c, t);
    MappedHandle(pop, w.next, r, s, c, t);
    var h := LiveHandle(pop, s, c, holder).value;
    LoadedAt(cfg, pop, s, c.spawned, h);
    HolderIsVisited(pop, w.next, r, s, c, holder);
  }

  /** Reconciliation decides who carries an identity; the data loaders do not change that. */
  lemma LoadedFind(cfg: Config, pop: Pop, next: nat, frame: int, s: Snapshot, c: Choice, t: RollbackId)
    requires Loadable(pop, next, frame, s, c) && NoDrag(pop, s) && t in s.entities
    ensures Find(LoadedPop(cfg, pop, s, c.spawned), t) == LiveHandle(pop, s, c, t)
    ensures LiveHandle(pop, s, c, t).Some?
    ensures var e := LiveHandle(pop, s, c, t).value;
            e in Reconciled(pop, s.entities, c.spawned) && Reconciled(pop, s.entities, c.spawned)[e].rid == t
            && Reconciled(pop, s.entities, c.spawned)[e].mark.None?
  {
    var p1 := Reconciled(pop, s.entities, c.spawned);
    var p := LoadedPop(cfg, pop, s, c.spawned);
    LoadedIdentity(cfg, pop, s, c.spawned);
    ReconciledDistinct(pop, next, frame, s, c);
    SavedIsVisible(pop, next, frame, s, c, t);
    var e := Find(p1, t).value;
    assert Distinct(p) && Visible(p, e) && p[e].rid == t;
    FindVisible(p, e);
  }

  /** The mapping stage visits a component iff its holder survived. */
  lemma HolderIsVisited(pop: Pop, next: nat, frame: int, s: Snapshot, c: Choice, holder: RollbackId)
    requires Loadable(pop, next, frame, s, c) && NoDrag(pop, s) && holder in s.entities
    ensures LiveHandle(pop, s, c, holder).Some?
    ensures LiveHandle(pop, s, c, holder).value in EntityMapOf(pop, s.entities, c.spawned) <==> Survived(pop, s, holder)
  {
    LiveHandleIs(pop, next, frame, s, c, holder);
    if holder in c.spawned {
      FreshIsNew(pop, next, frame, s, c);
      assert c.spawned[holder] in c.spawned.Values;
      if c.spawned[holder] in EntityMapOf(pop, s.entities, c.spawned) {
        EntityMapKeys(pop, next, frame, s, c, c.spawned[holder]);
      }
    } else {
      var e := Find(pop, holder).value;
      SurvivorKey(pop, next, frame, s, c, e);
    }
  }

  /** For resources the holder condition drops out: coherent iff the target is on its saved handle or nowhere. */
  lemma ResourceReferenceCoherent(cfg: Config, w: World, r: int, c: Choice, t: RollbackId)
    requires Sound(w) && CanLoad(w, r, c)
    requires NoDrag(BeforeReconcile(w, r), RolledBack(w.history, r)[0].data)
    requires var s := RolledBack(w.history, r)[0].data;
             t in s.entities && s.favourite == Some(s.entities[t])
    ensures var s := RolledBack(w.history, r)[0].data;
            var w' := LoadWorld(cfg, w, r, c);
            Find(w'.pop, t).Some? && (w'.favourite == Find(w'.pop, t) <==> TargetFound(BeforeReconcile(w, r), s, t))
  {
    var s := RolledBack(w.history, r)[0].data;
    var pop := BeforeReconcile(w, r);
    LoadStarts(w, r, c);
    LoadedFind(cfg, pop, w.next, r, s, c, t);
    MappedHandle(pop, w.next, r, s, c, t);
  }

  // ---- Hierarchies -----------------------------------------------------------------------------

  /** The saved parent `t` of `x` is still on its saved handle, or nowhere, or `x` is linked to it anyway. */
  ghost predicate ParentFound(pop: Pop, s: Snapshot, x: RollbackId, t: RollbackId) {
    || TargetFound(pop, s, t)
    || (x in VisibleIds(pop) && pop[Find(pop, x).value].parent == Find(pop, t))
  }

  /** The same, for the population. */
  lemma LoadedParent(cfg: Config, pop: Pop, next: nat, frame: int, s: Snapshot, c: Choice, child: RollbackId,
                     p: RollbackId)
    requires Loadable(pop, next, frame, s, c) && NoDrag(pop, s) && child in s.entities && SavedParent(s, child, p)
    ensures LiveHandle(pop, s, c, child).Some? && LiveHandle(pop, s, c, p).Some?
    ensures var e := LiveHandle(pop, s, c, child).value;
            e in LoadedPop(cfg, pop, s, c.spawned)
            && (LoadedPop(cfg, pop, s, c.spawned)[e].parent == LiveHandle(pop, s, c, p)
                <==> ParentFound(pop, s, child, p))
  {
    MappedHandle(pop, next, frame, s, c, p);
    ChildAfterLoad(cfg, pop, next, frame, s, c, child);
    LiveHandleIs(pop, next, frame, s, c, p);
    RespawnedIsMissing(pop, next, frame, s, c, p);
  }

  /**
   Hierarchy restore, exactly. A saved child whose saved parent is a saved entity `p` points at
   `p`'s live entity after the load if and only if, before the load, `p` was on its saved handle or
   nowhere, or the child was there with a parent link that was already right.
   */
  lemma ParentRestored(cfg: Config, w: World, r: int, c: Choice, child: RollbackId, p: RollbackId)
    requires Sound(w) && CanLoad(w, r, c)
    requires NoDrag(BeforeReconcile(w, r), RolledBack(w.history, r)[0].data)
    requires var s := RolledBack(w.history, r)[0].data; child in s.entities && SavedParent(s, child, p)
    ensures var s, q := RolledBack(w.history, r)[0].data, LoadWorld(cfg, w, r, c).pop;
            && Find(q, child).Some? && Find(q, p).Some?
            && (q[Find(q, child).value].parent == Find(q, p) <==> ParentFound(BeforeReconcile(w, r), s, child, p))
  {
    var s, pop := RolledBack(w.history, r)[0].data, BeforeReconcile(w, r);
    LoadStarts(w, r, c);
    LoadedFind(cfg, pop, w.next, r, s, c, child);
    LoadedFind(cfg, pop, w.next, r, s, c, p);
    LoadedParent(cfg, pop, w.next, r, s, c, child, p);
  }

  /** The parent link of a saved child after the load, from what was there before. */
  lemma ChildAfterLoad(cfg: Config, pop: Pop, next: nat, frame: int, s: Snapshot, c: Choice, child: RollbackId)
    requires Loadable(pop, next, frame, s, c) && NoDrag(pop, s) && child in s.entities
    ensures LiveHandle(pop, s, c, child).Some?
    ensures var e := LiveHandle(pop, s, c, child).value;
            var before := if child in VisibleIds(pop) then pop[Find(pop, child).value].parent else None;
            e in LoadedPop(cfg, pop, s, c.spawned)
            && LoadedPop(cfg, pop, s, c.spawned)[e].parent
               == RestoredParent(before, Get(s.parents, child), EntityMapOf(pop, s.entities, c.spawned))
  {
    LoadedFind(cfg, pop, next, frame, s, c, child);
    LiveHandleIs(pop, next, frame, s, c, child);
    RespawnedIsMissing(pop, next, frame, s, c, child);
    var e := LiveHandle(pop, s, c, child).value;
    LoadedAt(cfg, pop, s, c.spawned, e);
    if child in c.spawned {
      FreshEntity(pop, next, frame, s, c, child);
    } else {
      ReconcileKeeps(pop, next, frame, s, c, e);
      ReconciledAt(pop, next, frame, s, c, e);
    }
  }

  /** A saved entity that had no parent has none after the load. */
  lemma OrphanRestored(cfg: Config, w: World, r: int, c: Choice, child: RollbackId)
    requires Sound(w) && CanLoad(w, r, c)
    requires NoDrag(BeforeReconcile(w, r), RolledBack(w.history, r)[0].data)
    requires var s := RolledBack(w.history, r)[0].data;
             child in s.entities && child !in s.parents
    ensures var w' := LoadWorld(cfg, w, r, c);
            Find(w'.pop, child).Some? && w'.pop[Find(w'.pop, child).value].parent.None?
  {
    var s := RolledBack(w.history, r)[0].data;
    var pop := BeforeReconcile(w, r);
    LoadStarts(w, r, c);
    LoadedFind(cfg, pop, w.next, r, s, c, child);
    LoadedAt(cfg, pop, s, c.spawned, LiveHandle(pop, s, c, child).value);
  }
}
