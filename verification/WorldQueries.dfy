/**
 The loops that only read the world: what save systems gather, how saved and visible entities are
 matched, and what game logic gets to see. Query order is arbitrary throughout.
 */
module WorldQueries {
  import opened Prelude
  import opened Population
  import opened Ordering
  import opened WorldModel
  import opened Simulation

  // ---- Gathering -----------------------------------------------------------------------------

  /** One pair per visible entity, in any query order. */
  method GatherEntities(pop: Pop) returns (found: map<RollbackId, Entity>)
    requires Distinct(pop)
    ensures found == CaptureEntities(pop)
  {
    found := map[];
    var todo := VisibleEntities(pop);
    while todo != {}
      invariant todo <= VisibleEntities(pop)
      invariant forall e :: e in VisibleEntities(pop) && e !in todo ==> pop[e].rid in found && found[pop[e].rid] == e
      invariant forall x :: x in found ==> found[x] in VisibleEntities(pop) && pop[found[x]].rid == x
      decreases todo
    {
      var e :| e in todo;
      found := found[pop[e].rid := e];
      todo := todo - {e};
    }
    GatheredEntities(pop, found);
  }

  lemma GatheredEntities(pop: Pop, m: map<RollbackId, Entity>)
    requires Distinct(pop)
    requires forall e :: e in VisibleEntities(pop) ==> pop[e].rid in m && m[pop[e].rid] == e
    requires forall x :: x in m ==> m[x] in VisibleEntities(pop) && pop[m[x]].rid == x
    ensures m == CaptureEntities(pop)
  {
  }

  /** Stored values of the visible entities that have the component. */
  method GatherValues(cfg: Config, pop: Pop) returns (found: map<RollbackId, Stored>)
    requires Distinct(pop)
    ensures found == CaptureValues(cfg, pop)
  {
    found := map[];
    var todo := VisibleEntities(pop);
    while todo != {}
      invariant todo <= VisibleEntities(pop)
      invariant forall e :: e in VisibleEntities(pop) && e !in todo ==>
          Get(found, pop[e].rid) == StoreOption(cfg.values, pop[e].value)
      invariant forall x :: x in found ==> exists e :: e in VisibleEntities(pop) && e !in todo && pop[e].rid == x
      decreases todo
    {
      var e :| e in todo;
      if pop[e].value.Some? {
        found := found[pop[e].rid := cfg.values.Store(pop[e].value.value)];
      }
      todo := todo - {e};
    }
    GatheredValues(cfg, pop, found);
  }

  /** Cloned references of the visible entities that hold one. */
  method GatherLikes(pop: Pop) returns (found: map<RollbackId, Entity>)
    requires Distinct(pop)
    ensures found == CaptureLikes(pop)
  {
    found := map[];
    var todo := VisibleEntities(pop);
    while todo != {}
      invariant todo <= VisibleEntities(pop)
      invariant forall e :: e in VisibleEntities(pop) && e !in todo ==> Get(found, pop[e].rid) == pop[e].likes
      invariant forall x :: x in found ==> exists e :: e in VisibleEntities(pop) && e !in todo && pop[e].rid == x
      decreases todo
    {
      var e :| e in todo;
      if pop[e].likes.Some? {
        found := found[pop[e].rid := pop[e].likes.value];
      }
      todo := todo - {e};
    }
    GatheredLikes(pop, found);
  }

  /** Parent links of the visible entities that have one. */
  method GatherParents(pop: Pop) returns (found: map<RollbackId, Entity>)
    requires Distinct(pop)
    ensures found == CaptureParents(pop)
  {
    found := map[];
    var todo := VisibleEntities(pop);
    while todo != {}
      invariant todo <= VisibleEntities(pop)
      invariant forall e :: e in VisibleEntities(pop) && e !in todo ==> Get(found, pop[e].rid) == pop[e].parent
      invariant forall x :: x in found ==> exists e :: e in VisibleEntities(pop) && e !in todo && pop[e].rid == x
      decreases todo
    {
      var e :| e in todo;
      if pop[e].parent.Some? {
        found := found[pop[e].rid := pop[e].parent.value];
      }
      todo := todo - {e};
    }
    GatheredParents(pop, found);
  }

  lemma GatheredValues(cfg: Config, pop: Pop, m: map<RollbackId, Stored>)
    requires Distinct(pop)
    requires forall e :: e in VisibleEntities(pop) ==> Get(m, pop[e].rid) == StoreOption(cfg.values, pop[e].value)
    requires forall x :: x in m ==> exists e :: e in VisibleEntities(pop) && pop[e].rid == x
    ensures m == CaptureValues(cfg, pop)
  {
  }

  lemma GatheredLikes(pop: Pop, m: map<RollbackId, Entity>)
    requires Distinct(pop)
    requires forall e :: e in VisibleEntities(pop) ==> Get(m, pop[e].rid) == pop[e].likes
    requires forall x :: x in m ==> exists e :: e in VisibleEntities(pop) && pop[e].rid == x
    ensures m == CaptureLikes(pop)
  {
  }

  lemma GatheredParents(pop: Pop, m: map<RollbackId, Entity>)
    requires Distinct(pop)
    requires forall e :: e in VisibleEntities(pop) ==> Get(m, pop[e].rid) == pop[e].parent
    requires forall x :: x in m ==> exists e :: e in VisibleEntities(pop) && pop[e].rid == x
    ensures m == CaptureParents(pop)
  {
  }

  // ---- Matching --------------------------------------------------------------------------------

  /** The key a saved identity gets in the entity map. */
  function MapKey(saved: map<RollbackId, Entity>, current: map<RollbackId, Entity>, x: RollbackId): Entity
    requires x in saved
  {
    if x in current then current[x] else saved[x]
  }

  /** No two saved identities claim the same key. */
  ghost predicate NoCollision(saved: map<RollbackId, Entity>, current: map<RollbackId, Entity>) {
    forall x, y :: x in saved && y in saved && MapKey(saved, current, x) == MapKey(saved, current, y) ==> x == y
  }

  /** Fresh handles: from the allocator, one each. */
  ghost predicate Handed(spawned: map<RollbackId, Entity>, next: nat, at: nat) {
    && next <= at
    && (forall x :: x in spawned ==> next <= spawned[x].id < at)
    && (forall x, y :: x in spawned && y in spawned && spawned[x] == spawned[y] ==> x == y)
  }

  /** What the visited identities have contributed so far. */
  ghost predicate Visited(saved: map<RollbackId, Entity>, current: map<RollbackId, Entity>, done: set<RollbackId>,
                          doomed: set<Entity>, spawned: map<RollbackId, Entity>, m: map<Entity, Entity>) {
    && doomed == (set x | x in done && x in current && x !in saved :: current[x])
    && spawned.Keys == (set x | x in done && x in saved && x !in current)
    && (forall x :: x in done && x in saved ==>
          MapKey(saved, current, x) in m
          && m[MapKey(saved, current, x)] == if x in current then saved[x] else spawned[x])
    && (forall e :: e in m ==> exists x :: x in done && x in saved && MapKey(saved, current, x) == e)
  }

  // One visit, case by case.

  lemma VisitBoth(saved: map<RollbackId, Entity>, current: map<RollbackId, Entity>, done: set<RollbackId>,
                  doomed: set<Entity>, spawned: map<RollbackId, Entity>, m: map<Entity, Entity>, x: RollbackId)
    requires NoCollision(saved, current) && Visited(saved, current, done, doomed, spawned, m)
    requires x !in done && x in current && x in saved
    ensures Visited(saved, current, done + {x}, doomed, spawned, m[current[x] := saved[x]])
  {
  }

  lemma VisitExtra(saved: map<RollbackId, Entity>, current: map<RollbackId, Entity>, done: set<RollbackId>,
                   doomed: set<Entity>, spawned: map<RollbackId, Entity>, m: map<Entity, Entity>, x: RollbackId)
    requires Visited(saved, current, done, doomed, spawned, m)
    requires x !in done && x in current && x !in saved
    ensures Visited(saved, current, done + {x}, doomed + {current[x]}, spawned, m)
  {
  }

  lemma VisitMissing(saved: map<RollbackId, Entity>, current: map<RollbackId, Entity>, done: set<RollbackId>,
                     doomed: set<Entity>, spawned: map<RollbackId, Entity>, m: map<Entity, Entity>, x: RollbackId,
                         handle: Entity)
    requires NoCollision(saved, current) && Visited(saved, current, done, doomed, spawned, m)
    requires x !in done && x !in current && x in saved
    ensures Visited(saved, current, done + {x}, doomed, spawned[x := handle], m[saved[x] := handle])
  {
  }

  /**
   Matches current against saved entities: both known, record `current -> saved`; extra, despawn;
   missing, respawn under a fresh handle and record `saved -> fresh`.
   */
  method MatchEntities(saved: map<RollbackId, Entity>, current: map<RollbackId, Entity>, next: nat)
    returns (doomed: set<Entity>, spawned: map<RollbackId, Entity>, m: map<Entity, Entity>, at: nat)
    requires NoCollision(saved, current)
    ensures Handed(spawned, next, at)
    ensures Visited(saved, current, saved.Keys + current.Keys, doomed, spawned, m)
  {
    doomed, spawned, m, at := {}, map[], map[], next;
    var keys := saved.Keys + current.Keys;
    ghost var done := {};
    while keys != {}
      invariant done !! keys && done + keys == saved.Keys + current.Keys
      invariant Handed(spawned, next, at)
      invariant Visited(saved, current, done, doomed, spawned, m)
      decreases keys
    {
      var x :| x in keys;
      match (Get(current, x), Get(saved, x)) {
        case (Some(now), Some(before)) =>
          VisitBoth(saved, current, done, doomed, spawned, m, x);
          m := m[now := before];
        case (Some(now), None) =>
          VisitExtra(saved, current, done, doomed, spawned, m, x);
          doomed := doomed + {now};
        case (None, Some(before)) =>
          VisitMissing(saved, current, done, doomed, spawned, m, x, Entity(at));
          spawned := spawned[x := Entity(at)];
          m := m[before := Entity(at)];
          at := at + 1;
      }
      keys := keys - {x};
      done := done + {x};
    }
  }

  /** Saved handles are old, mean what they meant or nothing, and belong to no hidden entity. */
  ghost predicate Fits(pop: Pop, saved: map<RollbackId, Entity>) {
    && Distinct(pop)
    && (forall x :: x in saved && saved[x] in pop ==> pop[saved[x]].rid == x)
    && (forall x, y :: x in saved && y in saved && saved[x] == saved[y] ==> x == y)
    && (forall e :: e in pop && pop[e].mark.Some? ==> pop[e].rid !in saved)
  }

  lemma CapturedAt(pop: Pop, x: RollbackId)
    requires Distinct(pop)
    ensures x in CaptureEntities(pop) ==>
              Visible(pop, CaptureEntities(pop)[x]) && pop[CaptureEntities(pop)[x]].rid == x
    ensures forall e :: e in pop && Visible(pop, e) && pop[e].rid == x ==>
        x in CaptureEntities(pop) && CaptureEntities(pop)[x] == e
  {
  }

  lemma FittingNeverCollides(pop: Pop, saved: map<RollbackId, Entity>)
    requires Fits(pop, saved)
    ensures NoCollision(saved, CaptureEntities(pop))
  {
  }

  lemma MatchedDoomed(pop: Pop, saved: map<RollbackId, Entity>, doomed: set<Entity>)
    requires Fits(pop, saved)
    requires var current := CaptureEntities(pop);
             doomed == set x | x in saved.Keys + current.Keys && x in current && x !in saved :: current[x]
    ensures doomed == Extras(pop, saved)
  {
  }

  lemma MatchedChoice(pop: Pop, saved: map<RollbackId, Entity>, next: nat, spawned: map<RollbackId, Entity>, at: nat)
    requires Handed(spawned, next, at)
    requires var current := CaptureEntities(pop);
             spawned.Keys == set x | x in saved.Keys + current.Keys && x in saved && x !in current
    ensures ChoiceOk(pop, saved, next, Choice(spawned, at))
  {
  }

  lemma MatchedKey(pop: Pop, saved: map<RollbackId, Entity>, spawned: map<RollbackId, Entity>, x: RollbackId)
    requires Fits(pop, saved) && x in saved && spawned.Keys == Missing(pop, saved)
    ensures var current := CaptureEntities(pop);
            var key := MapKey(saved, current, x);
            var reference := EntityMapOf(pop, saved, spawned);
            key in reference && (x !in current ==> x in spawned)
            && reference[key] == if x in current then saved[x] else spawned[x]
  {
    CapturedAt(pop, x);
    if x !in CaptureEntities(pop) {
      var lost := Lost(saved, spawned);
      assert lost[x] == saved[x];
      assert saved[x] in lost.Values;
      assert KeyOf(lost, saved[x]) == x;
    }
  }

  lemma KeysOfMap(pop: Pop, saved: map<RollbackId, Entity>, spawned: map<RollbackId, Entity>, e: Entity)
    requires Fits(pop, saved) && spawned.Keys == Missing(pop, saved)
    requires e in EntityMapOf(pop, saved, spawned)
    ensures exists x :: x in saved && MapKey(saved, CaptureEntities(pop), x) == e
  {
  }

  lemma MatchedEntry(pop: Pop, saved: map<RollbackId, Entity>, doomed: set<Entity>, spawned: map<RollbackId, Entity>,
                     m: map<Entity, Entity>, e: Entity)
    requires Fits(pop, saved) && spawned.Keys == Missing(pop, saved)
    requires Visited(saved, CaptureEntities(pop), saved.Keys + CaptureEntities(pop).Keys, doomed, spawned, m)
    ensures e in m ==> e in EntityMapOf(pop, saved, spawned) && m[e] == EntityMapOf(pop, saved, spawned)[e]
    ensures e in EntityMapOf(pop, saved, spawned) ==> e in m
  {
    var current := CaptureEntities(pop);
    if e in m {
      var x :| x in saved && MapKey(saved, current, x) == e;
      MatchedKey(pop, saved, spawned, x);
    }
    if e in EntityMapOf(pop, saved, spawned) {
      KeysOfMap(pop, saved, spawned, e);
    }
  }

  lemma MatchedMap(pop: Pop, saved: map<RollbackId, Entity>, doomed: set<Entity>, spawned: map<RollbackId, Entity>,
                   m: map<Entity, Entity>)
    requires Fits(pop, saved) && spawned.Keys == Missing(pop, saved)
    requires Visited(saved, CaptureEntities(pop), saved.Keys + CaptureEntities(pop).Keys, doomed, spawned, m)
    ensures m == EntityMapOf(pop, saved, spawned)
  {
    var reference := EntityMapOf(pop, saved, spawned);
    forall e
      ensures e in m ==> e in reference && m[e] == reference[e]
      ensures e in reference ==> e in m
    {
      MatchedEntry(pop, saved, doomed, spawned, m, e);
    }
    SameMap(m, reference);
  }

  /**
   Everything the entity loader decides. The outcome does not depend on the order in which the
   identities are visited, except for which fresh handle goes to which respawned entity.
   */
  method PlanReconciliation(pop: Pop, saved: map<RollbackId, Entity>, next: nat)
    returns (doomed: set<Entity>, spawned: map<RollbackId, Entity>, m: map<Entity, Entity>, at: nat)
    requires Fits(pop, saved)
    ensures doomed == Extras(pop, saved)
    ensures ChoiceOk(pop, saved, next, Choice(spawned, at))
    ensures m == EntityMapOf(pop, saved, spawned)
  {
    var current := GatherEntities(pop);
    FittingNeverCollides(pop, saved);
    doomed, spawned, m, at := MatchEntities(saved, current, next);
    MatchedDoomed(pop, saved, doomed);
    MatchedChoice(pop, saved, next, spawned, at);
    MatchedMap(pop, saved, doomed, spawned, m);
  }

  // ---- What game logic sees ----------------------------------------------------------------------

  /** Visible entities by their registration index; looking up the index never fails. */
  method ObserveBodies(pop: Pop, o: Order) returns (bodies: map<int, Option<Value>>)
    requires Indexed(pop, o)
    ensures bodies == Bodies(pop, o.sorted)
  {
    bodies := map[];
    var todo := VisibleEntities(pop);
    while todo != {}
      invariant todo <= VisibleEntities(pop)
      invariant forall i :: i in bodies ==> 0 <= i < |o.sorted| && o.sorted[i] in VisibleIds(pop)
      invariant forall e :: e in VisibleEntities(pop) && e !in todo ==> ShowsEntity(pop[e], o, bodies)
      decreases todo
    {
      var e :| e in todo;
      assert Visible(pop, e) && pop[e].rid in VisibleIds(pop);
      bodies := bodies[o.order[pop[e].rid] := pop[e].value];
      todo := todo - {e};
    }
    assert Shows(pop, o, bodies);
    ShownIsBodies(pop, o, bodies);
  }

  /** Whom the visible entities refer to through one kind of link, both by index. */
  method ObserveLinks(pop: Pop, o: Order, link: Body -> Option<Entity>) returns (links: map<int, int>)
    requires Indexed(pop, o)
    ensures links == Links(pop, o, link)
  {
    links := map[];
    var todo := VisibleEntities(pop);
    while todo != {}
      invariant todo <= VisibleEntities(pop)
      invariant forall i :: i in links ==>
                  exists e ::
                      e in VisibleEntities(pop) && e !in todo && pop[e].rid in o.order && o.order[pop[e].rid] == i
      invariant forall e :: e in VisibleEntities(pop) && e !in todo ==> ShowsLink(pop, o, e, link, links)
      decreases todo
    {
      var e :| e in todo;
      assert Visible(pop, e);
      OthersHaveOtherIndices(pop, o, e);
      var to := ReferenceIndex(pop, o, link(pop[e]));
      if to.Some? {
        links := links[o.order[pop[e].rid] := to.value];
      }
      todo := todo - {e};
    }
    forall i | i in links ensures 0 <= i < |o.sorted| && o.sorted[i] in VisibleIds(pop) {
      var e :| e in VisibleEntities(pop) && pop[e].rid in o.order && o.order[pop[e].rid] == i;
      assert o.sorted[i] == pop[e].rid;
    }
    ShownIsLinks(pop, o, link, links);
  }

  lemma OthersHaveOtherIndices(pop: Pop, o: Order, e: Entity)
    requires Indexed(pop, o) && Visible(pop, e)
    ensures forall d :: d in pop && d != e && pop[d].rid in o.order ==> o.order[pop[d].rid] != o.order[pop[e].rid]
  {
    forall d | d in pop && d != e && pop[d].rid in o.order ensures o.order[pop[d].rid] != o.order[pop[e].rid] {
      assert o.sorted[o.order[pop[d].rid]] == pop[d].rid && o.sorted[o.order[pop[e].rid]] == pop[e].rid;
    }
  }

  lemma FoundIsVisible(pop: Pop, x: RollbackId)
    ensures Find(pop, x).Some? ==> Find(pop, x).value in VisibleEntities(pop) && pop[Find(pop, x).value].rid == x
  {
  }

  /** The visible entity registered under an index. */
  method FindByIndex(pop: Pop, o: Order, index: nat) returns (r: Option<Entity>)
    requires Distinct(pop)
    ensures r == if index < |o.sorted| then Find(pop, o.sorted[index]) else None
  {
    r := None;
    if index >= |o.sorted| {
      return;
    }
    var todo := VisibleEntities(pop);
    while todo != {}
      invariant todo <= VisibleEntities(pop)
      invariant forall e :: e in VisibleEntities(pop) && e !in todo ==> pop[e].rid != o.sorted[index]
      decreases todo
    {
      var e :| e in todo;
      if pop[e].rid == o.sorted[index] {
        FindVisible(pop, e);
        return Some(e);
      }
      todo := todo - {e};
    }
    FoundIsVisible(pop, o.sorted[index]);
  }

  // ---- Hierarchies -------------------------------------------------------------------------------

  /** The given entities and all their descendants, generation by generation. */
  method CollectFamily(pop: Pop, roots: set<Entity>) returns (family: set<Entity>)
    ensures family == Family(pop, roots)
  {
    family := roots;
    var more := ChildrenOf(pop, family) - family;
    while more != {}
      invariant roots <= family <= Family(pop, roots)
      invariant more == ChildrenOf(pop, family) - family
      decreases pop.Keys - family
    {
      ghost var e :| e in more;
      assert e in pop.Keys - family;
      ChildrenStayInside(pop, family, Family(pop, roots));
      family := family + more;
      more := ChildrenOf(pop, family) - family;
    }
    NothingBelow(pop, family);
    FamilyIsLeast(pop, roots, family);
  }

  lemma ChildrenStayInside(pop: Pop, part: set<Entity>, family: set<Entity>)
    requires part <= family && Closed(pop, family)
    ensures ChildrenOf(pop, part) <= family
  {
  }

  lemma NothingBelow(pop: Pop, family: set<Entity>)
    requires ChildrenOf(pop, family) - family == {}
    ensures Closed(pop, family)
  {
    forall e | e in pop && ChildOf(pop, e, family) ensures e in family {
      assert e in family || e in ChildrenOf(pop, family) - family;
    }
  }
}
