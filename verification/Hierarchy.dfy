/**
 Parent links over whole runs. Parents are given at spawn; loads restore them. Whatever game logic
 despawns, softly or not, an entity that a load despawns as an extra never drags a saved one along.
 */
module Hierarchy {
  import opened Prelude
  import opened Population
  import opened Ordering
  import opened SnapshotQueue
  import opened WorldModel
  import opened Soundness
  import opened Reconciliation
  import opened Restoration
  import opened Runs

  /** A snapshot that knows a child knows its parent, as its parent: links are never gained. */
  ghost predicate KnownTogether(pop: Pop, s: Snapshot) {
    forall e, h :: LinkedTo(pop, e, h) && pop[e].rid in s.entities ==> SavedParent(s, pop[e].rid, pop[h].rid)
  }

  /** A saved parent link is the saved handle of a saved entity, or dead for good. */
  ghost predicate SavedLinks(s: Snapshot, pop: Pop, next: nat) {
    forall x :: x in s.parents ==>
      s.parents[x].id < next && (s.parents[x] in pop ==> s.parents[x] in s.entities.Values)
  }

  /** Whoever a newer snapshot has as the parent of `x` is its parent in every older one that knows `x`. */
  ghost predicate OlderKnows(newer: Snapshot, older: Snapshot) {
    forall x, t :: SavedParent(newer, x, t) && x in older.entities ==> SavedParent(older, x, t)
  }

  ghost predicate HistoryLinks(h: seq<Entry<Snapshot>>, pop: Pop, next: nat) {
    && (forall i :: 0 <= i < |h| ==> KnownTogether(pop, h[i].data) && SavedLinks(h[i].data, pop, next))
    && (forall i, j :: 0 <= i < j < |h| ==> OlderKnows(h[i].data, h[j].data))
  }

  ghost predicate LinkSafe(w: World) {
    HiddenTogether(w.pop) && LinksOld(w.pop, w.next) && HistoryLinks(w.history, w.pop, w.next)
  }

  /** Everything below a confirmed mark carries that mark. */
  lemma ConfirmedFamily(pop: Pop, confirmed: int)
    requires HiddenTogether(pop)
    ensures Family(pop, ConfirmedGone(pop, confirmed)) == ConfirmedGone(pop, confirmed)
  {
    var gone := ConfirmedGone(pop, confirmed);
    forall e | e in pop && ChildOf(pop, e, gone) ensures e in gone {
      assert LinkedTo(pop, e, pop[e].parent.value);
    }
    FamilyIsLeast(pop, gone, gone);
  }

  // ---- Saving --------------------------------------------------------------------------------

  lemma SavedMeansVisible(pop: Pop, e: Entity)
    requires Distinct(pop) && e in pop && pop[e].rid in VisibleIds(pop)
    ensures Visible(pop, e)
  {
  }

  lemma CaptureKnowsParents(cfg: Config, w: World)
    requires Distinct(w.pop) && HiddenTogether(w.pop)
    ensures KnownTogether(w.pop, Capture(cfg, w))
  {
    forall e, h | LinkedTo(w.pop, e, h) && w.pop[e].rid in VisibleIds(w.pop)
      ensures SavedParent(Capture(cfg, w), w.pop[e].rid, w.pop[h].rid)
    {
      SavedMeansVisible(w.pop, e);
      ParentOfVisible(w.pop, e, h);
      FindVisible(w.pop, e);
      FindVisible(w.pop, h);
    }
  }

  lemma CaptureLinks(cfg: Config, w: World)
    requires Distinct(w.pop) && HiddenTogether(w.pop) && LinksOld(w.pop, w.next)
    ensures SavedLinks(Capture(cfg, w), w.pop, w.next)
  {
    var s := Capture(cfg, w);
    forall x | x in s.parents
      ensures s.parents[x].id < w.next && (s.parents[x] in w.pop ==> s.parents[x] in s.entities.Values)
    {
      var e, h := Find(w.pop, x).value, s.parents[x];
      if h in w.pop {
        ParentOfVisible(w.pop, e, h);
        FindVisible(w.pop, h);
        assert s.entities[w.pop[h].rid] == h;
      }
    }
  }

  lemma CaptureOlder(cfg: Config, w: World, older: Snapshot)
    requires KnownTogether(w.pop, older)
    ensures OlderKnows(Capture(cfg, w), older)
  {
    var s := Capture(cfg, w);
    forall x, t | SavedParent(s, x, t) && x in older.entities ensures SavedParent(older, x, t) {
      assert LinkedTo(w.pop, Find(w.pop, x).value, Find(w.pop, t).value);
    }
  }

  lemma RecordedLinks(h: seq<Entry<Snapshot>>, confirmed: int, frame: int, s: Snapshot, depth: nat, pop: Pop, next: nat)
    requires Chronological(h, frame) && HistoryLinks(h, pop, next)
    requires KnownTogether(pop, s) && SavedLinks(s, pop, next)
    requires forall j :: 0 <= j < |h| ==> OlderKnows(s, h[j].data)
    ensures HistoryLinks(Recorded(h, confirmed, frame, s, depth), pop, next)
  {
    var drop := RecordedShape(h, confirmed, frame, s, depth);
    var r := Recorded(h, confirmed, frame, s, depth);
    forall i | 0 <= i < |r| ensures KnownTogether(pop, r[i].data) && SavedLinks(r[i].data, pop, next) {
      assert i > 0 ==> r[i] == h[i - 1 + drop];
    }
    forall i, j | 0 <= i < j < |r| ensures OlderKnows(r[i].data, r[j].data) {
      assert r[j] == h[j - 1 + drop];
      assert i > 0 ==> r[i] == h[i - 1 + drop];
    }
  }

  lemma SaveLinkSafe(cfg: Config, w: World)
    requires Sound(w) && LinkSafe(w)
    ensures LinkSafe(SaveWorld(cfg, w))
  {
    CaptureKnowsParents(cfg, w);
    CaptureLinks(cfg, w);
    forall j | 0 <= j < |w.history| ensures OlderKnows(Capture(cfg, w), w.history[j].data) {
      CaptureOlder(cfg, w, w.history[j].data);
    }
    RecordedLinks(w.history, w.confirmed, w.frame, Capture(cfg, w), w.window, w.pop, w.next);
  }

  // ---- Advancing -----------------------------------------------------------------------------

  /** Nothing but fresh entities gets a parent. */
  ghost predicate LinksShrink(pop: Pop, next: nat, p: Pop) {
    && (forall e, h :: LinkedTo(p, e, h) ==>
          (LinkedTo(pop, e, h) && p[e].rid == pop[e].rid && p[h].rid == pop[h].rid) || p[e].rid.entity.id >= next)
    && (forall e :: e in p ==> e in pop || e.id >= next)
  }

  lemma ShrunkHistory(h: seq<Entry<Snapshot>>, pop: Pop, next: nat, p: Pop, next': nat)
    requires HistoryLinks(h, pop, next) && LinksShrink(pop, next, p) && next <= next'
    requires forall i, x :: 0 <= i < |h| && x in h[i].data.entities ==> x.entity.id < next
    ensures HistoryLinks(h, p, next')
  {
    forall i | 0 <= i < |h| ensures KnownTogether(p, h[i].data) && SavedLinks(h[i].data, p, next') {
      assert KnownTogether(pop, h[i].data) && SavedLinks(h[i].data, pop, next);
    }
  }

  /** Snapshots know only identities that existed when they were taken. */
  lemma SavedIdsOld(w: World)
    requires Sound(w)
    ensures forall i, x :: 0 <= i < |w.history| && x in w.history[i].data.entities ==> x.entity.id < w.next
  {
    forall i, x | 0 <= i < |w.history| && x in w.history[i].data.entities ensures x.entity.id < w.next {
      assert SnapSound(w.history[i].frame, w.history[i].data, w.pop, w.next);
    }
  }

  lemma EditLinkSafe(w: World, w': World)
    requires Sound(w) && LinkSafe(w) && LinksShrink(w.pop, w.next, w'.pop) && w.next <= w'.next
    requires HiddenTogether(w'.pop) && LinksOld(w'.pop, w'.next) && w'.history == w.history
    ensures LinkSafe(w')
  {
    SavedIdsOld(w);
    ShrunkHistory(w.history, w.pop, w.next, w'.pop, w'.next);
  }

  lemma DespawnLinkSafe(w: World, w': World, roots: set<Entity>)
    requires Sound(w) && LinkSafe(w)
    requires w'.pop == Despawned(w.pop, roots) && w'.next == w.next && w'.history == w.history
    ensures LinkSafe(w')
  {
    EditLinkSafe(w, w');
  }

  /** Below a root, the parent of a family member is a family member. */
  lemma ParentInFamily(pop: Pop, root: Entity, e: Entity, h: Entity)
    requires e in Family(pop, {root}) && e != root && LinkedTo(pop, e, h)
    ensures h in Family(pop, {root})
  {
    var family := Family(pop, {root});
    if h !in family {
      forall d | d in pop && ChildOf(pop, d, family - {e}) ensures d in family - {e} {
        assert ChildOf(pop, d, family);
      }
      FamilyIsLeast(pop, {root}, family - {e});
      assert false;
    }
  }

  lemma MarkedTogether(pop: Pop, root: Entity, frame: int)
    requires HiddenTogether(pop) && Visible(pop, root)
    ensures HiddenTogether(Marked(pop, {root}, frame))
  {
    var family := Family(pop, {root});
    var p := Marked(pop, {root}, frame);
    forall e, h | LinkedTo(p, e, h) && p[h].mark.Some? ensures p[e].mark == p[h].mark {
      assert LinkedTo(pop, e, h);
      if h in family {
        assert ChildOf(pop, e, family);
      } else if e in family {
        if e != root {
          ParentInFamily(pop, root, e, h);
        }
      }
    }
  }

  lemma MarkLinkSafe(w: World, root: Entity)
    requires Sound(w) && LinkSafe(w) && Visible(w.pop, root)
    ensures LinkSafe(w.(pop := Marked(w.pop, {root}, w.frame)))
  {
    MarkedTogether(w.pop, root, w.frame);
    EditLinkSafe(w, w.(pop := Marked(w.pop, {root}, w.frame)));
  }

  lemma BodyLinkSafe(w: World, e: Entity, b: Body)
    requires Sound(w) && LinkSafe(w) && e in w.pop
    requires b.rid == w.pop[e].rid && b.mark == w.pop[e].mark && b.parent == w.pop[e].parent
    ensures LinkSafe(w.(pop := w.pop[e := b]))
  {
    var p := w.pop[e := b];
    forall d, h | LinkedTo(p, d, h)
      ensures LinkedTo(w.pop, d, h) && p[d].mark == w.pop[d].mark && p[h].mark == w.pop[h].mark
    {}
    EditLinkSafe(w, w.(pop := p));
  }

  lemma SpawnLinkSafe(w: World, b: Body, o: Order)
    requires Sound(w) && LinkSafe(w)
    requires b.rid == RollbackId(Entity(w.next)) && b.mark.None?
    requires b.parent.Some? ==> Visible(w.pop, b.parent.value)
    ensures LinkSafe(w.(pop := w.pop[Entity(w.next) := b], next := w.next + 1, ordered := o))
  {
    var e := Entity(w.next);
    var p := w.pop[e := b];
    forall d, h | LinkedTo(p, d, h)
      ensures d == e || (h != e && LinkedTo(w.pop, d, h))
      ensures p[h].mark.Some? ==> p[d].mark == p[h].mark
    {
      if d != e { assert h != e && LinkedTo(w.pop, d, h); }
    }
    EditLinkSafe(w, w.(pop := p, next := w.next + 1, ordered := o));
  }

  lemma ExecuteLinkSafe(w: World, c: Command)
    requires Sound(w) && LinkSafe(w)
    ensures LinkSafe(Execute(w, c))
  {
    match c
    case Spawn(v, p, d) =>
      SpawnLinkSafe(w, Body(RollbackId(Entity(w.next)), None, v, None, ResolveOption(w, p), d),
                    Register(w.ordered, RollbackId(Entity(w.next))));
    case SetValue(t, v) =>
      if Resolve(w, t).Some? { BodyLinkSafe(w, Resolve(w, t).value, w.pop[Resolve(w, t).value].(value := Some(v))); }
    case ClearValue(t) =>
      if Resolve(w, t).Some? { BodyLinkSafe(w, Resolve(w, t).value, w.pop[Resolve(w, t).value].(value := None)); }
    case SetLikes(t, l) =>
      if Resolve(w, t).Some? {
        BodyLinkSafe(w, Resolve(w, t).value, w.pop[Resolve(w, t).value].(likes := Resolve(w, l)));
      }
    case Despawn(t) =>
      if Resolve(w, t).Some? { DespawnLinkSafe(w, Execute(w, c), {Resolve(w, t).value}); }
    case DespawnRollback(t) =>
      if Resolve(w, t).Some? {
        if w.confirmed < w.frame {
          MarkLinkSafe(w, Resolve(w, t).value);
        } else {
          DespawnLinkSafe(w, Execute(w, c), {Resolve(w, t).value});
        }
      }
    case SetResource(_) =>
    case ClearResource =>
    case SetFavourite(_) =>
  }

  lemma {:induction false} ExecuteAllLinkSafe(w: World, cs: seq<Command>)
    requires Live(w) && LinkSafe(w)
    ensures LinkSafe(ExecuteAll(w, cs))
  {
    if cs != [] {
      var front := cs[..|cs| - 1];
      ExecuteAllLinkSafe(w, front);
      ExecuteAllKeepsLive(w, front);
      ExecuteLinkSafe(ExecuteAll(w, front), cs[|cs| - 1]);
    }
  }

  lemma BeforeLogicLinkSafe(cfg: Config, w: World)
    requires Sound(w) && LinkSafe(w) && CanAdvance(cfg, w)
    ensures LinkSafe(BeforeLogic(cfg, w))
  {
    TickKeepsSound(cfg, w);
    var t := Tick(cfg, w);
    if t.confirmed != t.scanned {
      DespawnLinkSafe(t, DespawnConfirmed(t), ConfirmedGone(t.pop, t.confirmed));
    }
  }

  lemma AdvanceLinkSafe(cfg: Config, w: World, input: Input)
    requires Sound(w) && LinkSafe(w) && CanAdvance(cfg, w)
    ensures LinkSafe(AdvanceWorld(cfg, w, input))
  {
    var w1 := BeforeLogic(cfg, w);
    BeforeLogicLinkSafe(cfg, w);
    BeforeLogicIsLive(cfg, w);
    ExecuteAllLinkSafe(w1, cfg.logic(ViewOf(w1), input));
  }

  // ---- Loading -------------------------------------------------------------------------------

  lemma ResurrectedLinks(pop: Pop, frame: int)
    requires HiddenTogether(pop)
    ensures HiddenTogether(Resurrected(pop, frame))
    ensures forall e, h :: LinkedTo(Resurrected(pop, frame), e, h) <==> LinkedTo(pop, e, h)
  {
    var p := Resurrected(pop, frame);
    forall e, h | LinkedTo(p, e, h) && p[h].mark.Some? ensures p[e].mark == p[h].mark {
      assert LinkedTo(pop, e, h);
    }
  }

  /**
   No extra entity drags a saved one along: everything below an extra is unknown to the snapshot.
   */
  lemma NothingIsDragged(pop: Pop, s: Snapshot)
    requires KnownTogether(pop, s)
    ensures NoDrag(pop, s)
  {
    var outside := set e | e in pop && pop[e].rid !in s.entities;
    forall e | e in pop && ChildOf(pop, e, outside) ensures e in outside {
      assert LinkedTo(pop, e, pop[e].parent.value);
    }
    FamilyIsLeast(pop, Extras(pop, s.entities), outside);
  }

  lemma ReconciledLink(pop: Pop, next: nat, frame: int, s: Snapshot, c: Choice, e: Entity, h: Entity)
    requires Loadable(pop, next, frame, s, c) && LinksOld(pop, next)
    requires LinkedTo(Reconciled(pop, s.entities, c.spawned), e, h)
    ensures LinkedTo(pop, e, h)
    ensures var p := Reconciled(pop, s.entities, c.spawned);
            p[e] == pop[e] && p[h] == pop[h]
  {
    ReconciledAt(pop, next, frame, s, c, e);
    ReconciledAt(pop, next, frame, s, c, h);
    FreshIsNew(pop, next, frame, s, c);
  }

  /** Where the entity map leads from a saved parent link: to the visible entity that was the parent. */
  lemma MappedParent(pop: Pop, next: nat, frame: int, s: Snapshot, c: Choice, x: RollbackId) returns (t: RollbackId)
    requires Loadable(pop, next, frame, s, c) && SavedLinks(s, pop, next) && NoDrag(pop, s)
    requires x in s.parents && s.parents[x] in EntityMapOf(pop, s.entities, c.spawned)
    ensures SavedParent(s, x, t)
    ensures var p := Reconciled(pop, s.entities, c.spawned);
            var h := EntityMapOf(pop, s.entities, c.spawned)[s.parents[x]];
            h.id < c.next && Visible(p, h) && p[h].rid == t
  {
    var l := s.parents[x];
    EntityMapKeys(pop, next, frame, s, c, l);
    if l in Survivors(pop, s.entities) {
      t := pop[l].rid;
      assert s.entities[KeyOf(s.entities, l)] == l;
      SurvivorKey(pop, next, frame, s, c, l);
      ReconcileKeeps(pop, next, frame, s, c, l);
    } else {
      t :| t in c.spawned && t in s.entities && s.entities[t] == l;
      RespawnKey(pop, next, frame, s, c, t);
      FreshEntity(pop, next, frame, s, c, t);
    }
  }

  /** Every link after a load was there before, or is the saved one, to the entity that was meant. */
  lemma LoadedLink(cfg: Config, pop: Pop, next: nat, frame: int, s: Snapshot, c: Choice, e: Entity, h: Entity)
    requires Loadable(pop, next, frame, s, c) && LinksOld(pop, next) && SavedLinks(s, pop, next) && NoDrag(pop, s)
    requires LinkedTo(LoadedPop(cfg, pop, s, c.spawned), e, h)
    ensures var q := LoadedPop(cfg, pop, s, c.spawned);
            || (LinkedTo(pop, e, h) && q[e].rid == pop[e].rid && q[h].rid == pop[h].rid
                && q[e].mark == pop[e].mark && q[h].mark == pop[h].mark)
            || (Visible(q, e) && Visible(q, h) && SavedParent(s, q[e].rid, q[h].rid))
  {
    var p := Reconciled(pop, s.entities, c.spawned);
    LoadedIdentity(cfg, pop, s, c.spawned);
    LoadedAt(cfg, pop, s, c.spawned, e);
    if LinkedTo(p, e, h) {
      ReconciledLink(pop, next, frame, s, c, e, h);
    } else {
      var t := MappedParent(pop, next, frame, s, c, p[e].rid);
    }
  }

  lemma LoadedTogether(cfg: Config, pop: Pop, next: nat, frame: int, s: Snapshot, c: Choice)
    requires Loadable(pop, next, frame, s, c) && LinksOld(pop, next) && SavedLinks(s, pop, next) && NoDrag(pop, s)
    requires HiddenTogether(pop)
    ensures HiddenTogether(LoadedPop(cfg, pop, s, c.spawned))
  {
    var q := LoadedPop(cfg, pop, s, c.spawned);
    forall e, h | LinkedTo(q, e, h) && q[h].mark.Some? ensures q[e].mark == q[h].mark {
      LoadedLink(cfg, pop, next, frame, s, c, e, h);
    }
  }

  lemma LoadedKnown(cfg: Config, pop: Pop, next: nat, frame: int, s: Snapshot, c: Choice, older: Snapshot)
    requires Loadable(pop, next, frame, s, c) && LinksOld(pop, next) && SavedLinks(s, pop, next) && NoDrag(pop, s)
    requires KnownTogether(pop, older) && (older == s || OlderKnows(s, older))
    ensures KnownTogether(LoadedPop(cfg, pop, s, c.spawned), older)
  {
    var q := LoadedPop(cfg, pop, s, c.spawned);
    forall e, h | LinkedTo(q, e, h) && q[e].rid in older.entities ensures SavedParent(older, q[e].rid, q[h].rid) {
      LoadedLink(cfg, pop, next, frame, s, c, e, h);
    }
  }

  lemma LoadedOld(cfg: Config, pop: Pop, next: nat, frame: int, s: Snapshot, c: Choice)
    requires Loadable(pop, next, frame, s, c) && LinksOld(pop, next) && SavedLinks(s, pop, next) && NoDrag(pop, s)
    ensures LinksOld(LoadedPop(cfg, pop, s, c.spawned), c.next)
    ensures forall e :: e in LoadedPop(cfg, pop, s, c.spawned) ==> e in pop || e.id >= next
  {
    var q := LoadedPop(cfg, pop, s, c.spawned);
    var p := Reconciled(pop, s.entities, c.spawned);
    LoadedIdentity(cfg, pop, s, c.spawned);
    forall e | e in q
      ensures q[e].parent.Some? ==> q[e].parent.value.id < c.next
      ensures e in pop || e.id >= next
    {
      LoadedAt(cfg, pop, s, c.spawned, e);
      ReconciledAt(pop, next, frame, s, c, e);
      FreshIsNew(pop, next, frame, s, c);
      if q[e].parent != p[e].parent && q[e].parent.Some? {
        var t := MappedParent(pop, next, frame, s, c, p[e].rid);
      }
    }
  }

  lemma LoadedSavedLinks(t: Snapshot, pop: Pop, next: nat, q: Pop, next': nat)
    requires SavedLinks(t, pop, next) && next <= next'
    requires forall e :: e in q ==> e in pop || e.id >= next
    ensures SavedLinks(t, q, next')
  {
  }

  /** What a load relies on about links. */
  lemma LinksBeforeLoad(w: World, r: int)
    requires LinkSafe(w)
    ensures var pop := BeforeReconcile(w, r);
            && HiddenTogether(pop) && LinksOld(pop, w.next)
            && (forall i :: 0 <= i < |w.history| ==>
                KnownTogether(pop, w.history[i].data) && SavedLinks(w.history[i].data, pop, w.next))
  {
    var pop := BeforeReconcile(w, r);
    ResurrectedLinks(w.pop, r);
    forall i | 0 <= i < |w.history|
      ensures KnownTogether(pop, w.history[i].data) && SavedLinks(w.history[i].data, pop, w.next)
    {
      assert KnownTogether(w.pop, w.history[i].data) && SavedLinks(w.history[i].data, w.pop, w.next);
    }
  }

  /** In a link-safe world no load drags a saved entity away. */
  lemma LoadDragsNothing(w: World, r: int)
    requires LinkSafe(w) && Chronological(w.history, w.frame) && RolledBack(w.history, r) != []
    ensures NoDrag(BeforeReconcile(w, r), RolledBack(w.history, r)[0].data)
  {
    var n := RolledBackIndex(w.history, r, w.frame);
    LinksBeforeLoad(w, r);
    NothingIsDragged(BeforeReconcile(w, r), w.history[n].data);
  }

  lemma LoadedEntryLinks(cfg: Config, w: World, r: int, c: Choice, j: nat)
    requires Sound(w) && LinkSafe(w) && CanLoad(w, r, c) && j < |w.history|
    requires var s := RolledBack(w.history, r)[0].data;
             w.history[j].data == s || OlderKnows(s, w.history[j].data)
    ensures var w' := LoadWorld(cfg, w, r, c);
            KnownTogether(w'.pop, w.history[j].data) && SavedLinks(w.history[j].data, w'.pop, w'.next)
  {
    var n := RolledBackIndex(w.history, r, w.frame);
    var pop, s := BeforeReconcile(w, r), w.history[n].data;
    LoadStarts(w, r, c);
    LinksBeforeLoad(w, r);
    LoadDragsNothing(w, r);
    LoadedOld(cfg, pop, w.next, r, s, c);
    LoadedKnown(cfg, pop, w.next, r, s, c, w.history[j].data);
    LoadedSavedLinks(w.history[j].data, pop, w.next, LoadWorld(cfg, w, r, c).pop, c.next);
  }

  lemma SuffixLinks(h: seq<Entry<Snapshot>>, n: nat, pop: Pop, next: nat, q: Pop, next': nat)
    requires n <= |h| && HistoryLinks(h, pop, next)
    requires forall j :: n <= j < |h| ==> KnownTogether(q, h[j].data) && SavedLinks(h[j].data, q, next')
    ensures HistoryLinks(h[n..], q, next')
  {
    forall i, j | 0 <= i < j < |h| - n ensures OlderKnows(h[n..][i].data, h[n..][j].data) {
      assert h[n..][i] == h[n + i] && h[n..][j] == h[n + j];
    }
    forall i | 0 <= i < |h| - n ensures KnownTogether(q, h[n..][i].data) && SavedLinks(h[n..][i].data, q, next') {
      assert h[n..][i] == h[n + i];
    }
  }

  lemma LoadedHistoryLinks(cfg: Config, w: World, r: int, c: Choice)
    requires Sound(w) && LinkSafe(w) && CanLoad(w, r, c)
    ensures var w' := LoadWorld(cfg, w, r, c);
            HistoryLinks(w'.history, w'.pop, w'.next)
  {
    var n := RolledBackIndex(w.history, r, w.frame);
    var w' := LoadWorld(cfg, w, r, c);
    forall j | n <= j < |w.history|
      ensures KnownTogether(w'.pop, w.history[j].data) && SavedLinks(w.history[j].data, w'.pop, w'.next)
    {
      LoadedEntryLinks(cfg, w, r, c, j);
    }
    SuffixLinks(w.history, n, w.pop, w.next, w'.pop, w'.next);
  }

  lemma LoadLinkSafe(cfg: Config, w: World, r: int, c: Choice)
    requires Sound(w) && LinkSafe(w) && CanLoad(w, r, c)
    ensures LinkSafe(LoadWorld(cfg, w, r, c))
  {
    var n := RolledBackIndex(w.history, r, w.frame);
    LoadStarts(w, r, c);
    LinksBeforeLoad(w, r);
    LoadDragsNothing(w, r);
    LoadedTogether(cfg, BeforeReconcile(w, r), w.next, r, w.history[n].data, c);
    LoadedOld(cfg, BeforeReconcile(w, r), w.next, r, w.history[n].data, c);
    LoadedHistoryLinks(cfg, w, r, c);
  }

  // ---- Whole runs ----------------------------------------------------------------------------

  lemma StartLinkSafe(w: World)
    requires Start(w)
    ensures LinkSafe(w)
  {
  }

  lemma StepLinkSafe(cfg: Config, v: World, ev: Event, horizon: int)
    requires RunInvariant(cfg, v, horizon) && Permitted(v, horizon, ev) && LinkSafe(v)
    ensures Step(cfg, v, ev).Running? && LinkSafe(Step(cfg, v, ev).world)
  {
    var w := Enter(v, ev.session);
    StepServes(cfg, v, ev, horizon);
    assert LinkSafe(w);
    match ev.request
    case Save => SaveLinkSafe(cfg, w);
    case Advance(i) => AdvanceLinkSafe(cfg, w, i);
    case Load(r) => LoadLinkSafe(cfg, w, r, ev.choice);
  }

  /** Over every run, hierarchical or not, whatever is despawned: children stay with their parents. */
  lemma {:induction false} RunsAreLinkSafe(cfg: Config, w0: World, es: seq<Event>)
    requires Conforming(cfg, w0, es)
    ensures RunFrom(cfg, w0, es).Running? && LinkSafe(RunFrom(cfg, w0, es).world)
  {
    if es == [] {
      StartLinkSafe(w0);
    } else {
      var front := es[..|es| - 1];
      RunsAreLinkSafe(cfg, w0, front);
      RunNeverPanics(cfg, w0, front);
      StepLinkSafe(cfg, RunFrom(cfg, w0, front).world, es[|es| - 1], Horizon(cfg, w0, front));
    }
  }
}
