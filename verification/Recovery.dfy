/** Loading brings the recorded game state back, references included, exactly when those can be found. */
module Recovery {
  import opened Prelude
  import opened Population
  import opened Ordering
  import opened SnapshotQueue
  import opened WorldModel
  import opened Soundness
  import opened Reconciliation
  import opened Simulation
  import opened Restoration
  import opened Remapping
  import opened Hierarchy
  import opened References

  /**
   Every saved reference can be restored, whoever holds it: a condition on the world before the load
   and the snapshot.
   */
  ghost predicate Restorable(pop: Pop, s: Snapshot) {
    ParentsFound(pop, s) && LikesFound(pop, s) && FavouriteFound(pop, s)
  }

  ghost predicate ParentsFound(pop: Pop, s: Snapshot) {
    forall x, t :: x in s.entities && Refers(s, Get(s.parents, x), t) ==> ParentFound(pop, s, x, t)
  }

  ghost predicate LikesFound(pop: Pop, s: Snapshot) {
    forall x, t :: x in s.entities && Refers(s, Get(s.likes, x), t) ==> ReferenceFound(pop, s, x, t)
  }

  ghost predicate FavouriteFound(pop: Pop, s: Snapshot) {
    forall t :: Refers(s, s.favourite, t) ==> TargetFound(pop, s, t)
  }

  /** What a load of `r` starts from in a world with coherent references. */
  ghost predicate Ready(w: World, r: int, c: Choice) {
    Sound(w) && Coherent(w) && CanLoad(w, r, c)
  }

  // ---- One reference ---------------------------------------------------------------------------

  /** What the recovery of a reference needs of the loaded population `q`: the saved identities are there. */
  ghost predicate Recovered(q: Pop, s: Snapshot) {
    && Indexed(q, s.ordered) && VisibleIds(q) == s.entities.Keys
    && (forall x, y :: x in s.entities && y in s.entities && s.entities[x] == s.entities[y] ==> x == y)
  }

  lemma LoadRecovers(cfg: Config, w: World, r: int, c: Choice)
    requires Ready(w, r, c)
    ensures Recovered(LoadWorld(cfg, w, r, c).pop, RolledBack(w.history, r)[0].data)
  {
    LoadStarts(w, r, c);
    LoadDragsNothing(w, r);
    LoadReconciles(cfg, w, r, c);
    LoadKeepsSound(cfg, w, r, c);
  }

  /** A reference to the visible entity of an identity is seen as the index of that identity. */
  lemma SeenAs(q: Pop, s: Snapshot, r: Option<Entity>, t: RollbackId)
    requires Recovered(q, s) && t in s.entities && t in s.ordered.order
    ensures ReferenceIndex(q, s.ordered, r) == Some(s.ordered.order[t]) <==> r == Find(q, t)
  {
    if ReferenceIndex(q, s.ordered, r) == Some(s.ordered.order[t]) {
      assert s.ordered.sorted[s.ordered.order[q[r.value].rid]] == s.ordered.sorted[s.ordered.order[t]];
    }
  }

  /**
   A reference that was saved as `saved`, seen as `index`, and is now `now`: what is seen is the same
   iff the saved target, if there is one, is the target now. Nothing may have been gained from nothing.
   */
  lemma ReferenceRecovered(q: Pop, s: Snapshot, saved: Option<Entity>, index: Option<int>, now: Option<Entity>)
    requires Recovered(q, s) && SavesReference(s, saved, index)
    requires (forall t :: !Refers(s, saved, t)) ==> ReferenceIndex(q, s.ordered, now) == None
    ensures ReferenceIndex(q, s.ordered, now) == index <==> forall t :: Refers(s, saved, t) ==> now == Find(q, t)
  {
    if t :| Refers(s, saved, t) {
      var u := s.ordered.sorted[index.value];
      assert Refers(s, saved, u) && u == t;
      assert t in VisibleIds(q) && q[Find(q, t).value].rid == t;
      SeenAs(q, s, now, t);
      forall v | Refers(s, saved, v) ensures v == t {}
    }
  }

  // ---- Nothing is gained -----------------------------------------------------------------------

  /** Without a saved parent there is none after the load. */
  lemma NoLinkGained(cfg: Config, w: World, r: int, c: Choice, x: RollbackId)
    requires Ready(w, r, c)
    requires var s := RolledBack(w.history, r)[0].data; x in s.entities && forall t :: !SavedParent(s, x, t)
    ensures var q := LoadWorld(cfg, w, r, c).pop;
            Find(q, x).Some? && forall h :: !LinkedTo(q, Find(q, x).value, h)
  {
    var n := RolledBackIndex(w.history, r, w.frame);
    var s, pop := RolledBack(w.history, r)[0].data, BeforeReconcile(w, r);
    var q := LoadWorld(cfg, w, r, c).pop;
    LinksBeforeLoad(w, r);
    LoadDragsNothing(w, r);
    LoadStarts(w, r, c);
    LoadedFind(cfg, pop, w.next, r, s, c, x);
    forall h ensures !LinkedTo(q, Find(q, x).value, h) {
      if LinkedTo(q, Find(q, x).value, h) {
        LoadedLink(cfg, pop, w.next, r, s, c, Find(q, x).value, h);
        assert false;
      }
    }
  }

  lemma NoIndexWithoutLink(q: Pop, o: Order, e: Entity)
    requires e in q && forall h :: !LinkedTo(q, e, h)
    ensures ReferenceIndex(q, o, q[e].parent) == None
  {
    if q[e].parent.Some? {
      assert !LinkedTo(q, e, q[e].parent.value);
    }
  }

  /** A saved handle that is nobody's in the snapshot is not mapped, and nobody visible has it after the load. */
  lemma StrangeHandle(pop: Pop, next: nat, frame: int, s: Snapshot, c: Choice, l: Entity)
    requires Loadable(pop, next, frame, s, c) && SavedHandle(s, l, pop, next)
    requires forall t :: !Refers(s, Some(l), t)
    ensures l !in EntityMapOf(pop, s.entities, c.spawned)
    ensures !Visible(Reconciled(pop, s.entities, c.spawned), l)
  {
    if l in pop && pop[l].rid in s.entities {
      assert Refers(s, Some(l), pop[l].rid);
    }
    if l in EntityMapOf(pop, s.entities, c.spawned) {
      EntityMapKeys(pop, next, frame, s, c, l);
      if x :| x in c.spawned && x in s.entities && s.entities[x] == l {
        assert Refers(s, Some(l), x);
      }
    }
    ReconciledAt(pop, next, frame, s, c, l);
    FreshIsNew(pop, next, frame, s, c);
  }

  /** The map does not know a saved parent that is nobody's in the snapshot. */
  lemma StrangeParent(pop: Pop, next: nat, frame: int, s: Snapshot, c: Choice, x: RollbackId)
    requires Loadable(pop, next, frame, s, c) && SavedLinks(s, pop, next)
    requires x in s.parents && forall t :: t in s.entities ==> s.entities[t] != s.parents[x]
    ensures s.parents[x] !in EntityMapOf(pop, s.entities, c.spawned)
  {
    var l := s.parents[x];
    if l in EntityMapOf(pop, s.entities, c.spawned) {
      EntityMapKeys(pop, next, frame, s, c, l);
    }
  }

  lemma MarksAside(pop: Pop, r: int, e: Entity)
    requires e in pop
    ensures Resurrected(pop, r)[e].parent == pop[e].parent
  {
  }

  /**
   A saved parent that is nobody's in the snapshot, a world entity that is not rolled back, say. The load
   leaves the link of the child alone if the child is there, and a respawned child gets none.
   */
  lemma StrangeParentLeftAlone(cfg: Config, w: World, r: int, c: Choice, x: RollbackId)
    requires Ready(w, r, c)
    requires var s := RolledBack(w.history, r)[0].data;
             x in s.entities && x in s.parents && forall t :: t in s.entities ==> s.entities[t] != s.parents[x]
    ensures var pop, q := BeforeReconcile(w, r), LoadWorld(cfg, w, r, c).pop;
            Find(q, x).Some?
            && if x in VisibleIds(pop) then
                 Find(q, x) == Find(pop, x) && Find(pop, x).value in w.pop
                     && q[Find(q, x).value].parent == w.pop[Find(pop, x).value].parent
               else
                 q[Find(q, x).value].parent.None?
  {
    var s, pop := RolledBack(w.history, r)[0].data, BeforeReconcile(w, r);
    var n := RolledBackIndex(w.history, r, w.frame);
    LinksBeforeLoad(w, r);
    LoadDragsNothing(w, r);
    LoadStarts(w, r, c);
    LoadedFind(cfg, pop, w.next, r, s, c, x);
    StrangeParent(pop, w.next, r, s, c, x);
    ChildAfterLoad(cfg, pop, w.next, r, s, c, x);
    LiveHandleIs(pop, w.next, r, s, c, x);
    RespawnedIsMissing(pop, w.next, r, s, c, x);
    if x in VisibleIds(pop) { MarksAside(w.pop, r, Find(pop, x).value); }
  }

  lemma StrangeReference(cfg: Config, w: World, r: int, c: Choice, saved: Option<Entity>)
    requires Ready(w, r, c)
    requires var s := RolledBack(w.history, r)[0].data;
             (forall t :: !Refers(s, saved, t))
                 && (saved.Some? ==> SavedHandle(s, saved.value, BeforeReconcile(w, r), w.next))
    ensures var s, m := RolledBack(w.history, r)[0].data, LoadWorld(cfg, w, r, c).entityMap;
            && MappedReference(m, saved) == saved
            && ReferenceIndex(LoadWorld(cfg, w, r, c).pop, s.ordered, saved) == None
  {
    var s, pop := RolledBack(w.history, r)[0].data, BeforeReconcile(w, r);
    LoadStarts(w, r, c);
    LoadedIdentity(cfg, pop, s, c.spawned);
    if saved.Some? {
      StrangeHandle(pop, w.next, r, s, c, saved.value);
    }
  }

  /** The reference of a saved entity's component after the load: the saved one, mapped or not. */
  lemma LikesAfterLoad(cfg: Config, w: World, r: int, c: Choice, x: RollbackId)
    requires Ready(w, r, c) && x in RolledBack(w.history, r)[0].data.entities
    ensures var s, w' := RolledBack(w.history, r)[0].data, LoadWorld(cfg, w, r, c);
            Find(w'.pop, x).Some?
            && var likes := w'.pop[Find(w'.pop, x).value].likes;
               likes == Get(s.likes, x) || likes == MappedReference(w'.entityMap, Get(s.likes, x))
  {
    var s, pop := RolledBack(w.history, r)[0].data, BeforeReconcile(w, r);
    LoadStarts(w, r, c);
    LoadDragsNothing(w, r);
    LoadedFind(cfg, pop, w.next, r, s, c, x);
    LoadedAt(cfg, pop, s, c.spawned, LiveHandle(pop, s, c, x).value);
  }

  /** A reference to nobody the snapshot knows is back as it was saved, in components and in the resource. */
  lemma StrangeReferencesReturn(cfg: Config, w: World, r: int, c: Choice, x: RollbackId)
    requires Ready(w, r, c) && x in RolledBack(w.history, r)[0].data.entities
    ensures var s, w' := RolledBack(w.history, r)[0].data, LoadWorld(cfg, w, r, c);
            && Find(w'.pop, x).Some?
            && ((forall t :: t in s.entities ==> Get(s.likes, x) != Some(s.entities[t])) ==>
                  w'.pop[Find(w'.pop, x).value].likes == Get(s.likes, x))
            && ((forall t :: t in s.entities ==> s.favourite != Some(s.entities[t])) ==> w'.favourite == s.favourite)
  {
    var s := RolledBack(w.history, r)[0].data;
    LikesAfterLoad(cfg, w, r, c, x);
    ReferencesBeforeLoad(w, r);
    if forall t :: t in s.entities ==> Get(s.likes, x) != Some(s.entities[t]) {
      StrangeReference(cfg, w, r, c, Get(s.likes, x));
    }
    if forall t :: t in s.entities ==> s.favourite != Some(s.entities[t]) {
      StrangeReference(cfg, w, r, c, s.favourite);
    }
  }

  lemma NoLikeGained(cfg: Config, w: World, r: int, c: Choice, x: RollbackId)
    requires Ready(w, r, c)
    requires var s := RolledBack(w.history, r)[0].data; x in s.entities && forall t :: !Refers(s, Get(s.likes, x), t)
    ensures var s, q := RolledBack(w.history, r)[0].data, LoadWorld(cfg, w, r, c).pop;
            Find(q, x).Some? && ReferenceIndex(q, s.ordered, q[Find(q, x).value].likes) == None
  {
    LikesAfterLoad(cfg, w, r, c, x);
    ReferencesBeforeLoad(w, r);
    StrangeReference(cfg, w, r, c, Get(RolledBack(w.history, r)[0].data.likes, x));
  }

  // ---- What is seen of the references after a load ---------------------------------------------

  /** The load links `x` to its saved parent iff the parent can be found. */
  lemma LinkRestored(cfg: Config, w: World, r: int, c: Choice, x: RollbackId, t: RollbackId)
    requires Ready(w, r, c)
    requires var s := RolledBack(w.history, r)[0].data; x in s.entities && SavedParent(s, x, t)
    ensures var s, q := RolledBack(w.history, r)[0].data, LoadWorld(cfg, w, r, c).pop;
            && Find(q, x).Some? && Find(q, t).Some?
            && (q[Find(q, x).value].parent == Find(q, t) <==> ParentFound(BeforeReconcile(w, r), s, x, t))
  {
    LoadDragsNothing(w, r);
    ParentRestored(cfg, w, r, c, x, t);
  }

  lemma NoParentGained(cfg: Config, w: World, r: int, c: Choice, x: RollbackId)
    requires Ready(w, r, c) && x in RolledBack(w.history, r)[0].data.entities
    ensures var s, q := RolledBack(w.history, r)[0].data, LoadWorld(cfg, w, r, c).pop;
            Find(q, x).Some?
            && ((forall t :: !Refers(s, Get(s.parents, x), t)) ==>
                ReferenceIndex(q, s.ordered, q[Find(q, x).value].parent) == None)
  {
    var s, q := RolledBack(w.history, r)[0].data, LoadWorld(cfg, w, r, c).pop;
    LoadRecovers(cfg, w, r, c);
    if forall t :: !Refers(s, Get(s.parents, x), t) {
      forall t ensures !SavedParent(s, x, t) {
        assert !Refers(s, Get(s.parents, x), t);
      }
      NoLinkGained(cfg, w, r, c, x);
      NoIndexWithoutLink(q, s.ordered, Find(q, x).value);
    }
  }

  /** The parent seen after the load is the recorded one iff the saved parent, if any, can be found. */
  lemma ParentSeen(cfg: Config, w: World, r: int, c: Choice, x: RollbackId, index: Option<int>)
    requires Ready(w, r, c) && x in RolledBack(w.history, r)[0].data.entities
    requires var s := RolledBack(w.history, r)[0].data; SavesReference(s, Get(s.parents, x), index)
    ensures var s, q := RolledBack(w.history, r)[0].data, LoadWorld(cfg, w, r, c).pop;
            && Find(q, x).Some?
            && (ReferenceIndex(q, s.ordered, q[Find(q, x).value].parent) == index
                <==> forall t :: Refers(s, Get(s.parents, x), t) ==> ParentFound(BeforeReconcile(w, r), s, x, t))
  {
    var s, q := RolledBack(w.history, r)[0].data, LoadWorld(cfg, w, r, c).pop;
    LoadRecovers(cfg, w, r, c);
    NoParentGained(cfg, w, r, c, x);
    var parent := q[Find(q, x).value].parent;
    ReferenceRecovered(q, s, Get(s.parents, x), index, parent);
    forall t | Refers(s, Get(s.parents, x), t)
      ensures parent == Find(q, t) <==> ParentFound(BeforeReconcile(w, r), s, x, t)
    {
      LinkRestored(cfg, w, r, c, x, t);
    }
  }

  /** The reference seen in a component after the load is the recorded one iff its target can be found. */
  lemma LikeSeen(cfg: Config, w: World, r: int, c: Choice, x: RollbackId, index: Option<int>)
    requires Ready(w, r, c) && x in RolledBack(w.history, r)[0].data.entities
    requires var s := RolledBack(w.history, r)[0].data; SavesReference(s, Get(s.likes, x), index)
    ensures var s, q := RolledBack(w.history, r)[0].data, LoadWorld(cfg, w, r, c).pop;
            && Find(q, x).Some?
            && (ReferenceIndex(q, s.ordered, q[Find(q, x).value].likes) == index
                <==> forall t :: Refers(s, Get(s.likes, x), t) ==> ReferenceFound(BeforeReconcile(w, r), s, x, t))
  {
    var s, q := RolledBack(w.history, r)[0].data, LoadWorld(cfg, w, r, c).pop;
    LoadRecovers(cfg, w, r, c);
    LoadDragsNothing(w, r);
    var likes := q[Find(q, x).value].likes;
    if forall t :: !Refers(s, Get(s.likes, x), t) {
      NoLikeGained(cfg, w, r, c, x);
    }
    ReferenceRecovered(q, s, Get(s.likes, x), index, likes);
    forall t | Refers(s, Get(s.likes, x), t)
      ensures likes == Find(q, t) <==> ReferenceFound(BeforeReconcile(w, r), s, x, t)
    {
      ComponentReferenceCoherent(cfg, w, r, c, x, t);
    }
  }

  lemma NoFavouriteGained(cfg: Config, w: World, r: int, c: Choice)
    requires Ready(w, r, c)
    requires var s := RolledBack(w.history, r)[0].data; forall t :: !Refers(s, s.favourite, t)
    ensures var s, w' := RolledBack(w.history, r)[0].data, LoadWorld(cfg, w, r, c);
            ReferenceIndex(w'.pop, s.ordered, w'.favourite) == None
  {
    ReferencesBeforeLoad(w, r);
    StrangeReference(cfg, w, r, c, RolledBack(w.history, r)[0].data.favourite);
  }

  /** And so is the one seen in the resource. */
  lemma FavouriteSeen(cfg: Config, w: World, r: int, c: Choice, index: Option<int>)
    requires Ready(w, r, c)
    requires var s := RolledBack(w.history, r)[0].data; SavesReference(s, s.favourite, index)
    ensures var s, w' := RolledBack(w.history, r)[0].data, LoadWorld(cfg, w, r, c);
            ReferenceIndex(w'.pop, s.ordered, w'.favourite) == index <==> FavouriteFound(BeforeReconcile(w, r), s)
  {
    var s, w' := RolledBack(w.history, r)[0].data, LoadWorld(cfg, w, r, c);
    LoadRecovers(cfg, w, r, c);
    LoadDragsNothing(w, r);
    if forall t :: !Refers(s, s.favourite, t) {
      NoFavouriteGained(cfg, w, r, c);
    }
    ReferenceRecovered(w'.pop, s, s.favourite, index, w'.favourite);
    forall t | Refers(s, s.favourite, t)
      ensures w'.favourite == Find(w'.pop, t) <==> TargetFound(BeforeReconcile(w, r), s, t)
    {
      ResourceReferenceCoherent(cfg, w, r, c, t);
    }
  }

  // ---- The whole view --------------------------------------------------------------------------

  /** All links are the recorded ones iff each of them is. */
  lemma LinksSeen(q: Pop, s: Snapshot, link: Body -> Option<Entity>, links: map<int, int>)
    requires Recovered(q, s) && s.entities.Keys <= s.ordered.order.Keys
    requires forall i :: i in links ==> 0 <= i < |s.ordered.sorted| && s.ordered.sorted[i] in s.entities
    ensures Links(q, s.ordered, link) == links <==>
            forall x :: x in s.entities ==> LinkAs(q, s, link, links, x)
  {
    LinksShown(q, s.ordered, link);
    if Links(q, s.ordered, link) == links {
      forall x | x in s.entities ensures LinkAs(q, s, link, links, x) {
        assert x in VisibleIds(q);
        assert ShowsLink(q, s.ordered, Find(q, x).value, link, links);
      }
    }
    if forall x :: x in s.entities ==> LinkAs(q, s, link, links, x) {
      forall e | e in q && Visible(q, e) ensures ShowsLink(q, s.ordered, e, link, links) {
        FindVisible(q, e);
        assert LinkAs(q, s, link, links, q[e].rid);
      }
      ShownIsLinks(q, s.ordered, link, links);
    }
  }

  /** The link of the visible entity `x` is seen as it is recorded. */
  ghost predicate LinkAs(q: Pop, s: Snapshot, link: Body -> Option<Entity>, links: map<int, int>, x: RollbackId) {
    Find(q, x).Some? && ReferenceIndex(q, s.ordered, link(q[Find(q, x).value])) == LinkAt(s, links, x)
  }

  lemma ParentsRestored(cfg: Config, w: World, r: int, c: Choice, v: View)
    requires Ready(w, r, c) && SnapshotOf(cfg, r, RolledBack(w.history, r)[0].data, v)
    ensures var s := RolledBack(w.history, r)[0].data;
            Parents(LoadWorld(cfg, w, r, c).pop, s.ordered) == v.parents <==> ParentsFound(BeforeReconcile(w, r), s)
  {
    var s, q := RolledBack(w.history, r)[0].data, LoadWorld(cfg, w, r, c).pop;
    LoadRecovers(cfg, w, r, c);
    LoadStarts(w, r, c);
    forall x | x in s.entities
      ensures LinkAs(q, s, ParentLink, v.parents, x)
              <==> forall t :: Refers(s, Get(s.parents, x), t) ==> ParentFound(BeforeReconcile(w, r), s, x, t)
    {
      ParentSeen(cfg, w, r, c, x, LinkAt(s, v.parents, x));
    }
    LinksSeen(q, s, ParentLink, v.parents);
  }

  lemma LikesRestored(cfg: Config, w: World, r: int, c: Choice, v: View)
    requires Ready(w, r, c) && SnapshotOf(cfg, r, RolledBack(w.history, r)[0].data, v)
    ensures var s := RolledBack(w.history, r)[0].data;
            Likes(LoadWorld(cfg, w, r, c).pop, s.ordered) == v.likes <==> LikesFound(BeforeReconcile(w, r), s)
  {
    var s, q := RolledBack(w.history, r)[0].data, LoadWorld(cfg, w, r, c).pop;
    LoadRecovers(cfg, w, r, c);
    LoadStarts(w, r, c);
    forall x | x in s.entities
      ensures LinkAs(q, s, LikesLink, v.likes, x)
              <==> forall t :: Refers(s, Get(s.likes, x), t) ==> ReferenceFound(BeforeReconcile(w, r), s, x, t)
    {
      LikeSeen(cfg, w, r, c, x, LinkAt(s, v.likes, x));
    }
    LinksSeen(q, s, LikesLink, v.likes);
  }

  lemma SameReferences(v: View, parents: map<int, int>, likes: map<int, int>, favourite: Option<int>)
    ensures v.(parents := parents, likes := likes, favourite := favourite) == v
            <==> parents == v.parents && likes == v.likes && favourite == v.favourite
  {
  }

  /**
   Save then load is a round trip. Whatever happened in between, loading a frame gives back exactly
   what game logic saw at that frame, if and only if the saved references are restorable.
   */
  lemma LoadRestoresView(cfg: Config, w: World, r: int, c: Choice, v: View)
    requires cfg.Valid() && Ready(w, r, c) && SnapshotOf(cfg, r, RolledBack(w.history, r)[0].data, v)
    ensures ViewOf(LoadWorld(cfg, w, r, c)) == v
            <==> Restorable(BeforeReconcile(w, r), RolledBack(w.history, r)[0].data)
  {
    LoadIsView(cfg, w, r, c, v);
    ParentsRestored(cfg, w, r, c, v);
    LikesRestored(cfg, w, r, c, v);
    FavouriteSeen(cfg, w, r, c, v.favourite);
  }

  /** The view after a load is the recorded one iff the references seen are. */
  lemma LoadIsView(cfg: Config, w: World, r: int, c: Choice, v: View)
    requires cfg.Valid() && Ready(w, r, c) && SnapshotOf(cfg, r, RolledBack(w.history, r)[0].data, v)
    ensures var s, w' := RolledBack(w.history, r)[0].data, LoadWorld(cfg, w, r, c);
            ViewOf(w') == v
            <==> Parents(w'.pop, s.ordered) == v.parents && Likes(w'.pop, s.ordered) == v.likes
                 && ReferenceIndex(w'.pop, s.ordered, w'.favourite) == v.favourite
  {
    var w' := LoadWorld(cfg, w, r, c);
    LoadDragsNothing(w, r);
    LoadRestoresBodies(cfg, w, r, c, v);
    SameReferences(v, Parents(w'.pop, w'.ordered), Likes(w'.pop, w'.ordered),
                   ReferenceIndex(w'.pop, w'.ordered, w'.favourite));
  }
}
