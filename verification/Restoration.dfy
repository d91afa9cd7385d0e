/** What a snapshot says about the game state, and that loading it brings exactly that state back. */
module Restoration {
  import opened Prelude
  import opened Population
  import opened Ordering
  import opened SnapshotQueue
  import opened WorldModel
  import opened Soundness
  import opened Reconciliation
  import opened Simulation

  /** A saved reference is to `t`: it is the handle the snapshot has for `t`. */
  ghost predicate Refers(s: Snapshot, r: Option<Entity>, t: RollbackId) {
    t in s.entities && r == Some(s.entities[t])
  }

  /** The snapshot has `t` as the parent of `x`. */
  ghost predicate SavedParent(s: Snapshot, x: RollbackId, t: RollbackId) {
    x in s.parents && t in s.entities && s.parents[x] == s.entities[t]
  }

  /** `s`, taken at `frame`, is a faithful record of the view `v`. */
  ghost predicate SnapshotOf(cfg: Config, frame: int, s: Snapshot, v: View) {
    && v.frame == frame && v.count == |s.ordered.sorted| && v.clock == s.clock
    && s.resource == StoreOption(cfg.resources, v.resource)
    && SavesReference(s, s.favourite, v.favourite)
    && IndexesSaved(s, v)
    && (forall x :: x in s.entities ==> SavesAll(cfg, s, v, x))
  }

  /** The view speaks of saved entities only. */
  ghost predicate IndexesSaved(s: Snapshot, v: View) {
    && (forall i :: i in v.bodies ==> 0 <= i < |s.ordered.sorted| && s.ordered.sorted[i] in s.entities)
    && (forall i :: i in v.parents || i in v.likes ==> i in v.bodies)
  }

  ghost predicate SavesEntity(cfg: Config, s: Snapshot, x: RollbackId, bodies: map<int, Option<Value>>) {
    && x in s.ordered.order && s.ordered.order[x] in bodies
    && Get(s.values, x) == StoreOption(cfg.values, bodies[s.ordered.order[x]])
  }

  /** Whom `x` refers to in a view, by the register of the snapshot. */
  function LinkAt(s: Snapshot, links: map<int, int>, x: RollbackId): Option<int> {
    if x in s.ordered.order then Get(links, s.ordered.order[x]) else None
  }

  /** The saved reference is the one in the view, and it is to a saved entity only if there is one in the view. */
  ghost predicate SavesReference(s: Snapshot, r: Option<Entity>, index: Option<int>) {
    && (index.Some? ==> 0 <= index.value < |s.ordered.sorted| && Refers(s, r, s.ordered.sorted[index.value]))
    && (forall t :: Refers(s, r, t) ==> index.Some?)
  }

  /** A reference is saved as the one that game logic sees. */
  lemma CaptureRecordsReference(cfg: Config, w: World, r: Option<Entity>)
    requires Indexed(w.pop, w.ordered)
    ensures SavesReference(Capture(cfg, w), r, ReferenceIndex(w.pop, w.ordered, r))
  {
    if r.Some? && Visible(w.pop, r.value) {
      FindVisible(w.pop, r.value);
    }
  }

  lemma CaptureRecordsLink(cfg: Config, w: World, x: RollbackId, link: Body -> Option<Entity>)
    requires Indexed(w.pop, w.ordered) && x in VisibleIds(w.pop)
    ensures var s := Capture(cfg, w);
            SavesReference(s, link(w.pop[Find(w.pop, x).value]), LinkAt(s, Links(w.pop, w.ordered, link), x))
  {
    var e := Find(w.pop, x).value;
    LinksShown(w.pop, w.ordered, link);
    assert ShowsLink(w.pop, w.ordered, e, link, Links(w.pop, w.ordered, link));
    CaptureRecordsReference(cfg, w, link(w.pop[e]));
  }

  lemma CaptureRecordsEntity(cfg: Config, w: World, x: RollbackId)
    requires Indexed(w.pop, w.ordered) && x in VisibleIds(w.pop)
    ensures SavesEntity(cfg, Capture(cfg, w), x, Bodies(w.pop, w.ordered.sorted))
  {
    BodiesShown(w.pop, w.ordered);
    assert ShowsEntity(w.pop[Find(w.pop, x).value], w.ordered, Bodies(w.pop, w.ordered.sorted));
  }

  /** What the snapshot has of one entity is what game logic sees of it. */
  ghost predicate SavesAll(cfg: Config, s: Snapshot, v: View, x: RollbackId) {
    && SavesEntity(cfg, s, x, v.bodies)
    && SavesReference(s, Get(s.parents, x), LinkAt(s, v.parents, x))
    && SavesReference(s, Get(s.likes, x), LinkAt(s, v.likes, x))
  }

  lemma CapturedLinks(pop: Pop, x: RollbackId)
    requires x in VisibleIds(pop)
    ensures Get(CaptureParents(pop), x) == pop[Find(pop, x).value].parent
    ensures Get(CaptureLikes(pop), x) == pop[Find(pop, x).value].likes
  {
  }

  lemma CaptureRecordsAll(cfg: Config, w: World, x: RollbackId)
    requires Indexed(w.pop, w.ordered) && x in VisibleIds(w.pop)
    ensures SavesAll(cfg, Capture(cfg, w), ViewOf(w), x)
  {
    CapturedLinks(w.pop, x);
    CaptureRecordsEntity(cfg, w, x);
    CaptureRecordsLink(cfg, w, x, ParentLink);
    CaptureRecordsLink(cfg, w, x, LikesLink);
  }

  lemma CaptureRecordsAllOf(cfg: Config, w: World)
    requires Indexed(w.pop, w.ordered)
    ensures forall x :: x in Capture(cfg, w).entities ==> SavesAll(cfg, Capture(cfg, w), ViewOf(w), x)
  {
    forall x | x in Capture(cfg, w).entities ensures SavesAll(cfg, Capture(cfg, w), ViewOf(w), x) {
      CaptureRecordsAll(cfg, w, x);
    }
  }

  /** Saving records the current view. */
  lemma CaptureRecordsView(cfg: Config, w: World)
    requires Indexed(w.pop, w.ordered)
    ensures SnapshotOf(cfg, w.frame, Capture(cfg, w), ViewOf(w))
  {
    CaptureRecordsAllOf(cfg, w);
    CaptureRecordsReference(cfg, w, w.favourite);
    CaptureKeys(cfg, w);
  }

  lemma LinkKeys(pop: Pop, o: Order, link: Body -> Option<Entity>)
    ensures forall i :: i in Links(pop, o, link) ==> i in Bodies(pop, o.sorted)
  {
  }

  lemma BodyKeys(pop: Pop, o: Order)
    ensures forall i :: i in Bodies(pop, o.sorted) ==> 0 <= i < |o.sorted| && o.sorted[i] in CaptureEntities(pop)
  {
  }

  lemma CaptureKeys(cfg: Config, w: World)
    ensures IndexesSaved(Capture(cfg, w), ViewOf(w))
  {
    BodyKeys(w.pop, w.ordered);
    LinkKeys(w.pop, w.ordered, ParentLink);
    LinkKeys(w.pop, w.ordered, LikesLink);
  }

  // ---- The strategy contract ------------------------------------------------------------------

  /** Whatever was there before, restoring a stored value or a stored absence gives it back. */
  lemma RestoreStored(s: Strategy<Value, Stored>, current: Option<Value>, saved: Option<Value>)
    requires s.Lawful()
    ensures RestoredValue(s, current, StoreOption(s, saved)) == saved
  {
  }

  /** A strategy that keeps the default `update` is lawful as soon as `load` undoes `store`. */
  lemma DefaultUpdateIsLawful<T(!new), S>(store: T -> S, load: S -> T)
    ensures Strategy(store, load, (_: T, s: S) => load(s)).Lawful() <==> forall x: T :: load(store(x)) == x
  {
  }

  /** Every stored entry is the stored form of some value. */
  ghost predicate StoredValues(s: Strategy<Value, Stored>, values: map<RollbackId, Stored>) {
    forall x :: x in values ==> exists v :: values[x] == s.Store(v)
  }

  lemma CaptureStores(cfg: Config, pop: Pop)
    ensures StoredValues(cfg.values, CaptureValues(cfg, pop))
  {
    var values := CaptureValues(cfg, pop);
    forall x | x in values ensures exists v :: values[x] == cfg.values.Store(v) {
      var v := pop[Find(pop, x).value].value.value;
      assert values[x] == cfg.values.Store(v);
    }
  }

  /** The loaders for mutable and for immutable components produce the same world. */
  lemma LoadersAgree(cfg: Config, pop: Pop, values: map<RollbackId, Stored>)
    requires cfg.values.Lawful() && StoredValues(cfg.values, values)
    ensures RestoreValues(cfg, pop, values) == ReinsertValues(cfg, pop, values)
  {
  }

  // ---- The loaded population, entity by entity -------------------------------------------------

  lemma LoadedAt(cfg: Config, pop: Pop, s: Snapshot, spawned: map<RollbackId, Entity>, e: Entity)
    requires e in Reconciled(pop, s.entities, spawned)
    ensures var m := EntityMapOf(pop, s.entities, spawned);
            var b := Reconciled(pop, s.entities, spawned)[e];
            var likes := if b.mark.None? then Get(s.likes, b.rid) else b.likes;
            e in LoadedPop(cfg, pop, s, spawned)
            && LoadedPop(cfg, pop, s, spawned)[e] ==
               Body(b.rid, b.mark,
                    if b.mark.None? then RestoredValue(cfg.values, b.value, Get(s.values, b.rid)) else b.value,
                    if e in m then MappedReference(m, likes) else likes,
                    if b.mark.None? then RestoredParent(b.parent, Get(s.parents, b.rid), m) else b.parent,
                    b.decor)
  {
  }

  /** No extra entity drags a saved one along when it is despawned. */
  ghost predicate NoDrag(pop: Pop, s: Snapshot) {
    Family(pop, Extras(pop, s.entities)) !! Survivors(pop, s.entities)
  }

  /** Who stays: hidden bodies that are not dragged away, and exactly the visible ones the snapshot knows. */
  lemma ReconcileKeeps(pop: Pop, next: nat, frame: int, s: Snapshot, c: Choice, e: Entity)
    requires Loadable(pop, next, frame, s, c) && NoDrag(pop, s)
    ensures e in Kept(pop, s) ==>
        e in Reconciled(pop, s.entities, c.spawned) && Reconciled(pop, s.entities, c.spawned)[e] == pop[e]
    ensures Visible(pop, e) ==> (e in Reconciled(pop, s.entities, c.spawned) <==> pop[e].rid in s.entities)
  {
  }

  lemma SavedIsVisible(pop: Pop, next: nat, frame: int, s: Snapshot, c: Choice, x: RollbackId)
    requires Loadable(pop, next, frame, s, c) && NoDrag(pop, s) && x in s.entities
    ensures x in VisibleIds(Reconciled(pop, s.entities, c.spawned))
  {
    var p := Reconciled(pop, s.entities, c.spawned);
    if x in c.spawned {
      FreshEntity(pop, next, frame, s, c, x);
      assert Visible(p, c.spawned[x]);
    } else {
      var e := Find(pop, x).value;
      ReconcileKeeps(pop, next, frame, s, c, e);
      ReconciledAt(pop, next, frame, s, c, e);
      assert Visible(p, e);
    }
  }

  lemma VisibleIsSaved(pop: Pop, next: nat, frame: int, s: Snapshot, c: Choice, e: Entity)
    requires Loadable(pop, next, frame, s, c)
    requires Visible(Reconciled(pop, s.entities, c.spawned), e)
    ensures Reconciled(pop, s.entities, c.spawned)[e].rid in s.entities
  {
  }

  /**
   Entity reconciliation: after resurrection and reconciliation the visible identities are
   exactly the snapshot's keys, with one entity each.
   */
  lemma ReconcileExact(pop: Pop, next: nat, frame: int, s: Snapshot, c: Choice)
    requires Loadable(pop, next, frame, s, c) && NoDrag(pop, s)
    ensures VisibleIds(Reconciled(pop, s.entities, c.spawned)) == s.entities.Keys
    ensures Distinct(Reconciled(pop, s.entities, c.spawned))
  {
    var p := Reconciled(pop, s.entities, c.spawned);
    forall x | x in s.entities ensures x in VisibleIds(p) {
      SavedIsVisible(pop, next, frame, s, c, x);
    }
    forall x | x in VisibleIds(p) ensures x in s.entities {
      VisibleIsSaved(pop, next, frame, s, c, Find(p, x).value);
    }
    ReconciledDistinct(pop, next, frame, s, c);
  }

  // ---- Loading restores the view ---------------------------------------------------------------

  lemma LoadedValue(cfg: Config, pop: Pop, next: nat, frame: int, s: Snapshot, c: Choice, v: View, e: Entity)
    requires cfg.Valid() && Loadable(pop, next, frame, s, c) && NoDrag(pop, s)
    requires SnapshotOf(cfg, frame, s, v)
    requires e in LoadedPop(cfg, pop, s, c.spawned) && Visible(LoadedPop(cfg, pop, s, c.spawned), e)
    ensures ShowsEntity(LoadedPop(cfg, pop, s, c.spawned)[e], s.ordered, v.bodies)
  {
    var p1 := Reconciled(pop, s.entities, c.spawned);
    LoadedIdentity(cfg, pop, s, c.spawned);
    LoadedAt(cfg, pop, s, c.spawned, e);
    ReconcileExact(pop, next, frame, s, c);
    var x := p1[e].rid;
    assert Visible(p1, e) && x in VisibleIds(p1);
    assert SavesEntity(cfg, s, x, v.bodies);
    RestoreStored(cfg.values, p1[e].value, v.bodies[s.ordered.order[x]]);
  }

  lemma LoadedShows(cfg: Config, pop: Pop, next: nat, frame: int, s: Snapshot, c: Choice, v: View)
    requires cfg.Valid() && Loadable(pop, next, frame, s, c) && NoDrag(pop, s)
    requires SnapshotOf(cfg, frame, s, v)
    ensures Shows(LoadedPop(cfg, pop, s, c.spawned), s.ordered, v.bodies)
  {
    var p := LoadedPop(cfg, pop, s, c.spawned);
    ReconcileExact(pop, next, frame, s, c);
    LoadedIdentity(cfg, pop, s, c.spawned);
    forall i | i in v.bodies ensures s.ordered.sorted[i] in VisibleIds(p) {
      var e := Find(Reconciled(pop, s.entities, c.spawned), s.ordered.sorted[i]).value;
      assert Visible(p, e);
    }
    forall e | e in p && Visible(p, e) ensures ShowsEntity(p[e], s.ordered, v.bodies) {
      LoadedValue(cfg, pop, next, frame, s, c, v, e);
    }
  }

  /** All of the recorded view but the references is back, whatever happened in between. */
  lemma LoadRestoresBodies(cfg: Config, w: World, frame: int, c: Choice, v: View)
    requires cfg.Valid() && Sound(w) && CanLoad(w, frame, c)
    requires NoDrag(BeforeReconcile(w, frame), RolledBack(w.history, frame)[0].data)
    requires SnapshotOf(cfg, frame, RolledBack(w.history, frame)[0].data, v)
    ensures var w' := LoadWorld(cfg, w, frame, c);
            ViewOf(w') == v.(parents := Parents(w'.pop, w'.ordered), likes := Likes(w'.pop, w'.ordered),
                             favourite := ReferenceIndex(w'.pop, w'.ordered, w'.favourite))
  {
    var s := RolledBack(w.history, frame)[0].data;
    var pop := BeforeReconcile(w, frame);
    LoadStarts(w, frame, c);
    LoadedShows(cfg, pop, w.next, frame, s, c, v);
    LoadKeepsSound(cfg, w, frame, c);
    ShownIsBodies(LoadedPop(cfg, pop, s, c.spawned), s.ordered, v.bodies);
    RestoreStored(cfg.resources, w.resource, v.resource);
  }

  /** Marks at or before the loaded frame survive the load, with their entities hidden. */
  lemma LoadKeepsHidden(cfg: Config, w: World, frame: int, c: Choice, e: Entity)
    requires Sound(w) && CanLoad(w, frame, c)
    requires e in w.pop && w.pop[e].mark.Some? && w.pop[e].mark.value <= frame
    requires e !in Family(BeforeReconcile(w, frame),
                          Extras(BeforeReconcile(w, frame), RolledBack(w.history, frame)[0].data.entities))
    ensures var p := LoadWorld(cfg, w, frame, c).pop;
            e in p && p[e] == w.pop[e]
  {
    var s := RolledBack(w.history, frame)[0].data;
    var pop := BeforeReconcile(w, frame);
    LoadStarts(w, frame, c);
    ReconciledAt(pop, w.next, frame, s, c, e);
    LoadedAt(cfg, pop, s, c.spawned, e);
    if e in EntityMapOf(pop, s.entities, c.spawned) {
      EntityMapKeys(pop, w.next, frame, s, c, e);
    }
  }

  lemma LoadReconciles(cfg: Config, w: World, r: int, c: Choice)
    requires Sound(w) && CanLoad(w, r, c)
    ensures var w' := LoadWorld(cfg, w, r, c);
            var s := RolledBack(w.history, r)[0].data;
            && (NoDrag(Resurrected(w.pop, r), s) ==> VisibleIds(w'.pop) == s.entities.Keys)
            && Distinct(w'.pop) && MarksSound(w'.pop, w.scanned, r)
  {
    var s := RolledBack(w.history, r)[0].data;
    var pop := BeforeReconcile(w, r);
    LoadStarts(w, r, c);
    LoadKeepsSound(cfg, w, r, c);
    LoadedIdentity(cfg, pop, s, c.spawned);
    SameVisibleIds(Reconciled(pop, s.entities, c.spawned), LoadedPop(cfg, pop, s, c.spawned));
    if NoDrag(pop, s) {
      ReconcileExact(pop, w.next, r, s, c);
    }
  }
}
