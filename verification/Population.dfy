/** The entity population of the world: bodies, visibility, and the parent forest. */
module Population {
  import opened Prelude

  /** Payload of a registered component or resource that holds no entity references. */
  type Value = int

  /**
   What one rollback entity carries: its identity, its despawn mark, two registered components
   (`value`, and `likes` which holds an entity reference), its parent link, and `decor`, a
   component that is not registered for rollback.
   */
  datatype Body = Body(
    rid: RollbackId,
    mark: Option<int>,
    value: Option<Value>,
    likes: Option<Entity>,
    parent: Option<Entity>,
    decor: Option<int>)

  type Pop = map<Entity, Body>

  /** Ordinary queries do not see entities that carry a despawn mark. */
  predicate Visible(pop: Pop, e: Entity) {
    e in pop && pop[e].mark.None?
  }

  function VisibleEntities(pop: Pop): set<Entity> {
    set e | e in pop && Visible(pop, e)
  }

  function VisibleIds(pop: Pop): set<RollbackId> {
    set e | e in pop && Visible(pop, e) :: pop[e].rid
  }

  ghost predicate Distinct(pop: Pop) {
    forall a, b :: a in pop && b in pop && pop[a].rid == pop[b].rid ==> a == b
  }

  /** The visible entity with a given identity. */
  ghost function Find(pop: Pop, x: RollbackId): (r: Option<Entity>)
    ensures r.Some? <==> x in VisibleIds(pop)
    ensures r.Some? ==> Visible(pop, r.value) && pop[r.value].rid == x
  {
    if x in VisibleIds(pop) then
      var e :| e in pop && Visible(pop, e) && pop[e].rid == x;
      Some(e)
    else
      None
  }

  lemma FindVisible(pop: Pop, e: Entity)
    requires Distinct(pop) && Visible(pop, e)
    ensures pop[e].rid in VisibleIds(pop) && Find(pop, pop[e].rid) == Some(e)
  {
  }

  // ---- Hierarchies ---------------------------------------------------------------------------

  predicate ChildOf(pop: Pop, e: Entity, parents: set<Entity>) {
    e in pop && pop[e].parent.Some? && pop[e].parent.value in parents
  }

  function ChildrenOf(pop: Pop, parents: set<Entity>): set<Entity> {
    set e | e in pop && ChildOf(pop, e, parents)
  }

  /** No member of the set has a child outside it. */
  ghost predicate Closed(pop: Pop, family: set<Entity>) {
    forall e :: e in pop && ChildOf(pop, e, family) ==> e in family
  }

  /** The given entities together with everything below them. */
  ghost function Family(pop: Pop, roots: set<Entity>): (family: set<Entity>)
    ensures roots <= family <= roots + pop.Keys
    ensures Closed(pop, family)
    decreases pop.Keys - roots
  {
    if Closed(pop, roots) then
      roots
    else
      var e :| e in pop && ChildOf(pop, e, roots) && e !in roots;
      assert e in pop.Keys - roots && e in ChildrenOf(pop, roots);
      Family(pop, roots + ChildrenOf(pop, roots))
  }

  /** `Family` is the least set that contains the roots and is closed under children. */
  lemma {:induction false} FamilyIsLeast(pop: Pop, roots: set<Entity>, closed: set<Entity>)
    requires roots <= closed && Closed(pop, closed)
    ensures Family(pop, roots) <= closed
    decreases pop.Keys - roots
  {
    if !Closed(pop, roots) {
      var e :| e in pop && ChildOf(pop, e, roots) && e !in roots;
      assert e in pop.Keys - roots && e in ChildrenOf(pop, roots);
      forall e | e in pop && ChildOf(pop, e, roots) ensures e in closed {
        assert ChildOf(pop, e, closed);
      }
      FamilyIsLeast(pop, roots + ChildrenOf(pop, roots), closed);
    }
  }

  /** No entity has a parent. */
  ghost predicate Flat(pop: Pop) {
    forall e :: e in pop ==> pop[e].parent.None?
  }

  lemma FlatFamily(pop: Pop, roots: set<Entity>)
    requires Flat(pop)
    ensures Family(pop, roots) == roots
  {
  }

  /** `e` has a parent link to the living entity `h`. */
  ghost predicate LinkedTo(pop: Pop, e: Entity, h: Entity) {
    e in pop && h in pop && pop[e].parent == Some(h)
  }

  /** A child of a hidden parent is hidden by the same mark. */
  ghost predicate HiddenTogether(pop: Pop) {
    forall e, h :: LinkedTo(pop, e, h) && pop[h].mark.Some? ==> pop[e].mark == pop[h].mark
  }

  /** No link points at a handle that is still to be handed out. */
  ghost predicate LinksOld(pop: Pop, next: nat) {
    forall e :: e in pop && pop[e].parent.Some? ==> pop[e].parent.value.id < next
  }

  ghost predicate HandleOld(r: Option<Entity>, next: nat) {
    r.Some? ==> r.value.id < next
  }

  ghost predicate LikesOld(pop: Pop, next: nat) {
    forall e :: e in pop ==> HandleOld(pop[e].likes, next)
  }

  lemma ParentOfVisible(pop: Pop, e: Entity, h: Entity)
    requires HiddenTogether(pop) && LinkedTo(pop, e, h) && Visible(pop, e)
    ensures Visible(pop, h)
  {
  }

  /** Despawning takes the descendants along. */
  ghost function Despawned(pop: Pop, roots: set<Entity>): Pop {
    var gone := Family(pop, roots);
    map e | e in pop && e !in gone :: pop[e]
  }

  ghost function Marked(pop: Pop, roots: set<Entity>, frame: int): Pop {
    var family := Family(pop, roots);
    map e | e in pop :: if e in family then pop[e].(mark := Some(frame)) else pop[e]
  }
}
