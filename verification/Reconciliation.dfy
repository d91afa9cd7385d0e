/**
 Loading a snapshot: resurrecting marked entities, reconciling live and saved entities by
 identity, and restoring their data.
 */
module Reconciliation {
  import opened Prelude
  import opened Population
  import opened Ordering
  import opened SnapshotQueue
  import opened WorldModel
  import opened Soundness

  /** What reconciliation can rely on when it starts: the population after resurrection, at the loaded frame. */
  ghost predicate Loadable(pop: Pop, next: nat, frame: int, s: Snapshot, c: Choice) {
    && PopSound(pop, next)
    && SnapSound(frame, s, pop, next)
    && (forall e :: e in pop && pop[e].mark.Some? ==> pop[e].mark.value <= frame)
    && ChoiceOk(pop, s.entities, next, c)
  }

  // ---- Resurrection --------------------------------------------------------------------------

  lemma ResurrectedSound(pop: Pop, next: nat, scanned: int, now: int, frame: int)
    requires PopSound(pop, next) && MarksSound(pop, scanned, now)
    ensures PopSound(Resurrected(pop, frame), next) && MarksSound(Resurrected(pop, frame), scanned, frame)
  {
  }

  lemma ResurrectedSnapshot(f: int, s: Snapshot, pop: Pop, next: nat, frame: int)
    requires SnapSound(f, s, pop, next)
    ensures SnapSound(f, s, Resurrected(pop, frame), next)
  {
  }

  // ---- The entity map ------------------------------------------------------------------------

  /** A living entity whose identity the snapshot knows is visible, so it is not respawned. */
  lemma KnownIsVisible(pop: Pop, next: nat, frame: int, s: Snapshot, c: Choice, e: Entity)
    requires Loadable(pop, next, frame, s, c)
    ensures e in pop && pop[e].rid in s.entities ==>
        Visible(pop, e) && pop[e].rid in VisibleIds(pop) && pop[e].rid !in c.spawned
  {
  }

  /** The handle a respawned entity had in the snapshot is dead. */
  lemma LostIsDead(pop: Pop, next: nat, frame: int, s: Snapshot, c: Choice, x: RollbackId)
    requires Loadable(pop, next, frame, s, c) && x in c.spawned
    ensures x in s.entities && s.entities[x] !in pop
  {
  }

  /** A survivor maps to its saved handle; nothing else ever writes that key. */
  lemma SurvivorKey(pop: Pop, next: nat, frame: int, s: Snapshot, c: Choice, e: Entity)
    requires Loadable(pop, next, frame, s, c) && e in Survivors(pop, s.entities)
    ensures var m := EntityMapOf(pop, s.entities, c.spawned);
            e in m && m[e] == s.entities[pop[e].rid]
    ensures e !in Lost(s.entities, c.spawned).Values
  {
  }

  /** A respawned entity's saved handle maps to its fresh one, and is no longer in use. */
  lemma RespawnKey(pop: Pop, next: nat, frame: int, s: Snapshot, c: Choice, x: RollbackId)
    requires Loadable(pop, next, frame, s, c) && x in c.spawned
    ensures var m := EntityMapOf(pop, s.entities, c.spawned);
            x in s.entities && s.entities[x] in m && m[s.entities[x]] == c.spawned[x]
    ensures s.entities[x] !in pop
  {
    LostIsDead(pop, next, frame, s, c, x);
    var lost := Lost(s.entities, c.spawned);
    assert lost[x] == s.entities[x];
    assert s.entities[x] in lost.Values;
    assert KeyOf(lost, s.entities[x]) == x;
  }

  /** The keys of the map are survivors and the dead handles of respawned entities; they never collide. */
  lemma EntityMapKeys(pop: Pop, next: nat, frame: int, s: Snapshot, c: Choice, e: Entity)
    requires Loadable(pop, next, frame, s, c)
    requires e in EntityMapOf(pop, s.entities, c.spawned)
    ensures e in Survivors(pop, s.entities) || exists x :: x in c.spawned && x in s.entities && s.entities[x] == e
    ensures e in pop ==> e in Survivors(pop, s.entities)
    ensures e.id < next
  {
  }

  // ---- The reconciled population -------------------------------------------------------------

  ghost function Kept(pop: Pop, s: Snapshot): Pop {
    Despawned(pop, Extras(pop, s.entities))
  }

  lemma FreshEntity(pop: Pop, next: nat, frame: int, s: Snapshot, c: Choice, x: RollbackId)
    requires Loadable(pop, next, frame, s, c) && x in c.spawned
    ensures var p := Reconciled(pop, s.entities, c.spawned);
            c.spawned[x] in p && p[c.spawned[x]] == Blank(x) && c.spawned[x] !in pop
  {
    assert c.spawned[x] in c.spawned.Values;
    assert KeyOf(c.spawned, c.spawned[x]) == x;
  }

  lemma FreshIsNew(pop: Pop, next: nat, frame: int, s: Snapshot, c: Choice)
    requires Loadable(pop, next, frame, s, c)
    ensures forall e :: e in c.spawned.Values ==> next <= e.id < c.next && e !in pop
  {
  }

  lemma ReconciledAt(pop: Pop, next: nat, frame: int, s: Snapshot, c: Choice, e: Entity)
    requires Loadable(pop, next, frame, s, c)
    ensures var p := Reconciled(pop, s.entities, c.spawned);
            && (e in p <==> e in Kept(pop, s) || e in c.spawned.Values)
            && (e in Kept(pop, s) ==> e in pop && p[e] == pop[e] && e !in c.spawned.Values)
            && (e in c.spawned.Values ==> p[e] == Blank(KeyOf(c.spawned, e)) && e !in pop)
  {
  }

  /** One entity per identity, hidden entities included. */
  lemma ReconciledDistinct(pop: Pop, next: nat, frame: int, s: Snapshot, c: Choice)
    requires Loadable(pop, next, frame, s, c)
    ensures Distinct(Reconciled(pop, s.entities, c.spawned))
  {
    var p := Reconciled(pop, s.entities, c.spawned);
    forall a, b | a in p && b in p && p[a].rid == p[b].rid ensures a == b {
      ReconciledAt(pop, next, frame, s, c, a);
      ReconciledAt(pop, next, frame, s, c, b);
      KnownIsVisible(pop, next, frame, s, c, a);
      KnownIsVisible(pop, next, frame, s, c, b);
    }
  }

  lemma ReconciledSound(pop: Pop, next: nat, scanned: int, frame: int, s: Snapshot, c: Choice)
    requires Loadable(pop, next, frame, s, c) && MarksSound(pop, scanned, frame)
    ensures PopSound(Reconciled(pop, s.entities, c.spawned), c.next)
    ensures MarksSound(Reconciled(pop, s.entities, c.spawned), scanned, frame)
    ensures Registered(Reconciled(pop, s.entities, c.spawned), s.ordered)
  {
    var p := Reconciled(pop, s.entities, c.spawned);
    forall e | e in p
      ensures e.id < c.next && p[e].rid.entity.id < c.next
      ensures p[e].mark.Some? ==> scanned < p[e].mark.value <= frame
      ensures Visible(p, e) ==> p[e].rid in s.ordered.order
    {
      ReconciledAt(pop, next, frame, s, c, e);
      assert e in Kept(pop, s) ==> e !in Extras(pop, s.entities);
    }
    ReconciledDistinct(pop, next, frame, s, c);
  }

  lemma ReconciledSnapshot(f: int, t: Snapshot, pop: Pop, next: nat, frame: int, s: Snapshot, c: Choice)
    requires Loadable(pop, next, frame, s, c) && SnapSound(f, t, pop, next)
    ensures SnapSound(f, t, Reconciled(pop, s.entities, c.spawned), c.next)
  {
    var p := Reconciled(pop, s.entities, c.spawned);
    forall x | x in t.entities && t.entities[x] in p ensures p[t.entities[x]].rid == x {
      FreshIsNew(pop, next, frame, s, c);
      ReconciledAt(pop, next, frame, s, c, t.entities[x]);
    }
    forall e | e in p && p[e].mark.Some? && p[e].mark.value <= f ensures p[e].rid !in t.entities {
      ReconciledAt(pop, next, frame, s, c, e);
    }
  }

  // ---- Restoring data changes neither identity nor visibility ---------------------------------

  ghost predicate SameIdentity(p: Pop, q: Pop) {
    && p.Keys == q.Keys
    && forall e :: e in p ==> q[e].rid == p[e].rid && q[e].mark == p[e].mark && q[e].decor == p[e].decor
  }

  lemma SameIdentityTransitive(p: Pop, q: Pop, r: Pop)
    requires SameIdentity(p, q) && SameIdentity(q, r)
    ensures SameIdentity(p, r)
  {
  }

  lemma SameVisibleIds(p: Pop, q: Pop)
    requires SameIdentity(p, q)
    ensures VisibleIds(p) == VisibleIds(q)
  {
  }

  lemma RestoreKeepsIdentity(cfg: Config, p: Pop, values: map<RollbackId, Stored>, likes: map<RollbackId, Entity>)
    ensures SameIdentity(p, RestoreLikes(RestoreValues(cfg, p, values), likes))
  {
  }

  lemma MappingKeepsIdentity(p: Pop, parents: map<RollbackId, Entity>, m: map<Entity, Entity>)
    ensures SameIdentity(p, MapLikes(RestoreParents(p, parents, m), m))
  {
  }

  lemma LoadedIdentity(cfg: Config, pop: Pop, s: Snapshot, spawned: map<RollbackId, Entity>)
    ensures SameIdentity(Reconciled(pop, s.entities, spawned), LoadedPop(cfg, pop, s, spawned))
  {
    var m := EntityMapOf(pop, s.entities, spawned);
    var p1 := Reconciled(pop, s.entities, spawned);
    var p3 := RestoreLikes(RestoreValues(cfg, p1, s.values), s.likes);
    RestoreKeepsIdentity(cfg, p1, s.values, s.likes);
    MappingKeepsIdentity(p3, s.parents, m);
    SameIdentityTransitive(p1, p3, LoadedPop(cfg, pop, s, spawned));
  }

  lemma SameIdentitySound(p: Pop, q: Pop, next: nat, scanned: int, frame: int, o: Order)
    requires SameIdentity(p, q) && PopSound(p, next) && MarksSound(p, scanned, frame) && Registered(p, o)
    ensures PopSound(q, next) && MarksSound(q, scanned, frame) && Registered(q, o)
  {
  }

  lemma SameIdentitySnapshot(f: int, t: Snapshot, p: Pop, q: Pop, next: nat)
    requires SameIdentity(p, q) && SnapSound(f, t, p, next)
    ensures SnapSound(f, t, q, next)
  {
  }

  // ---- Soundness of a whole load --------------------------------------------------------------

  /** A load the engine can serve: the frame is stored, and fresh handles are fresh. */
  ghost predicate CanLoad(w: World, frame: int, c: Choice) {
    && RolledBack(w.history, frame) != []
    && ChoiceOk(BeforeReconcile(w, frame), RolledBack(w.history, frame)[0].data.entities, w.next, c)
  }

  lemma RolledBackIndex(h: seq<Entry<Snapshot>>, frame: int, now: int) returns (n: nat)
    requires Chronological(h, now) && RolledBack(h, frame) != []
    ensures n < |h| && RolledBack(h, frame) == h[n..] && h[n].frame == frame
    ensures 0 <= frame <= now
  {
    RolledBackIsDrop(h, frame);
    n := |h| - |RolledBack(h, frame)|;
  }

  lemma LoadStarts(w: World, frame: int, c: Choice)
    requires Sound(w) && CanLoad(w, frame, c)
    ensures Loadable(BeforeReconcile(w, frame), w.next, frame, RolledBack(w.history, frame)[0].data, c)
    ensures MarksSound(BeforeReconcile(w, frame), w.scanned, frame)
  {
    var n := RolledBackIndex(w.history, frame, w.frame);
    ResurrectedSound(w.pop, w.next, w.scanned, w.frame, frame);
    ResurrectedSnapshot(frame, w.history[n].data, w.pop, w.next, frame);
  }

  lemma LoadedHistory(cfg: Config, w: World, frame: int, c: Choice)
    requires Sound(w) && CanLoad(w, frame, c)
    ensures var w' := LoadWorld(cfg, w, frame, c);
            HistorySound(w'.history, w'.pop, w'.next)
  {
    var n := RolledBackIndex(w.history, frame, w.frame);
    LoadStarts(w, frame, c);
    var s := w.history[n].data;
    var pop := BeforeReconcile(w, frame);
    var w' := LoadWorld(cfg, w, frame, c);
    LoadedIdentity(cfg, pop, s, c.spawned);
    forall i | 0 <= i < |w'.history|
      ensures SnapSound(w'.history[i].frame, w'.history[i].data, w'.pop, w'.next)
    {
      var e := w.history[n + i];
      ResurrectedSnapshot(e.frame, e.data, w.pop, w.next, frame);
      ReconciledSnapshot(e.frame, e.data, pop, w.next, frame, s, c);
      SameIdentitySnapshot(e.frame, e.data, Reconciled(pop, s.entities, c.spawned), w'.pop, w'.next);
    }
  }

  lemma LoadedShape(h: seq<Entry<Snapshot>>, o: Order, frame: int, now: int)
    requires Chronological(h, now) && Prefixes(h, o) && RolledBack(h, frame) != []
    ensures Chronological(RolledBack(h, frame), frame)
    ensures Prefixes(RolledBack(h, frame), RolledBack(h, frame)[0].data.ordered)
  {
    var n := RolledBackIndex(h, frame, now);
    var r := RolledBack(h, frame);
    forall i | 0 <= i < |r| ensures 0 <= r[i].frame <= frame && r[i].data.ordered.sorted <= r[0].data.ordered.sorted {
      assert r[i] == h[n + i] && r[0] == h[n];
      assert i > 0 ==> h[n + i].frame < h[n].frame;
    }
    forall i, j | 0 <= i < j < |r|
      ensures r[j].frame < r[i].frame && r[j].data.ordered.sorted <= r[i].data.ordered.sorted
    {
      assert r[i] == h[n + i] && r[j] == h[n + j];
    }
  }

  lemma LoadKeepsSound(cfg: Config, w: World, frame: int, c: Choice)
    requires Sound(w) && CanLoad(w, frame, c)
    ensures Sound(LoadWorld(cfg, w, frame, c)) && Saved(LoadWorld(cfg, w, frame, c))
  {
    var n := RolledBackIndex(w.history, frame, w.frame);
    var s := w.history[n].data;
    var pop := BeforeReconcile(w, frame);
    LoadStarts(w, frame, c);
    ReconciledSound(pop, w.next, w.scanned, frame, s, c);
    LoadedIdentity(cfg, pop, s, c.spawned);
    SameIdentitySound(Reconciled(pop, s.entities, c.spawned), LoadedPop(cfg, pop, s, c.spawned), c.next, w.scanned,
                      frame, s.ordered);
    LoadedHistory(cfg, w, frame, c);
    LoadedShape(w.history, w.ordered, frame, w.frame);
    assert SnapSound(frame, s, LoadedPop(cfg, pop, s, c.spawned), c.next);
  }
}
