/**
 The reference semantics: game state as game logic sees it, advanced frame by frame with no
 snapshots, no entity handles and no rollbacks. The lemmas relate each command to it.
 */
module Simulation {
  import opened Prelude
  import opened Population
  import opened Ordering
  import opened WorldModel
  import opened Soundness

  // ---- The game without an engine --------------------------------------------------------------

  function ChildrenIn(parents: map<int, int>, family: set<int>): set<int> {
    set i | i in parents && parents[i] in family
  }

  ghost predicate ClosedIn(parents: map<int, int>, family: set<int>) {
    forall i :: i in parents && parents[i] in family ==> i in family
  }

  /** The given indices and all their descendants. */
  function FamilyIn(parents: map<int, int>, roots: set<int>): (family: set<int>)
    ensures roots <= family && ClosedIn(parents, family)
    decreases parents.Keys - roots
  {
    var more := ChildrenIn(parents, roots) - roots;
    if more == {} then
      NoneMore(parents, roots);
      roots
    else
      SomeMore(parents, roots);
      FamilyIn(parents, roots + more)
  }

  lemma NoneMore(parents: map<int, int>, family: set<int>)
    requires ChildrenIn(parents, family) - family == {}
    ensures ClosedIn(parents, family)
  {
    forall i | i in parents && parents[i] in family ensures i in family {
      assert i in family || i in ChildrenIn(parents, family) - family;
    }
  }

  lemma SomeMore(parents: map<int, int>, roots: set<int>)
    requires ChildrenIn(parents, roots) - roots != {}
    ensures parents.Keys - (roots + (ChildrenIn(parents, roots) - roots)) < parents.Keys - roots
  {
    var i := Member(ChildrenIn(parents, roots) - roots);
    assert i in parents.Keys - roots;
  }

  lemma {:induction false} FamilyInIsLeast(parents: map<int, int>, roots: set<int>, closed: set<int>)
    requires roots <= closed && ClosedIn(parents, closed)
    ensures FamilyIn(parents, roots) <= closed
    decreases parents.Keys - roots
  {
    var more := ChildrenIn(parents, roots) - roots;
    if more != {} {
      SomeMore(parents, roots);
      forall i | i in roots + more ensures i in closed {}
      Included(roots + more, closed);
      FamilyInIsLeast(parents, roots + more, closed);
    }
  }

  /** The references between indices that are still there. */
  function Without(links: map<int, int>, gone: set<int>): map<int, int> {
    map i | i in links && i !in gone && links[i] !in gone :: links[i]
  }

  /** The reference of one index replaced. */
  function Relinked(links: map<int, int>, i: int, to: Option<int>): map<int, int> {
    if to.Some? then links[i := to.value] else links - {i}
  }

  /** An index disappears with everything below it, and references to what disappeared mean nothing. */
  function Pruned(v: View, t: int): View {
    var gone := FamilyIn(v.parents, {t});
    v.(bodies := v.bodies - gone, parents := Without(v.parents, gone), likes := Without(v.likes, gone),
       favourite := if v.favourite.Some? && v.favourite.value in gone then None else v.favourite)
  }

  /** An index, if somebody is there. */
  function Present(v: View, i: nat): Option<int> {
    if i in v.bodies then Some(i) else None
  }

  function Born(v: View, value: Option<Value>, parent: Option<nat>): View {
    v.(bodies := v.bodies[v.count := value],
       parents := if parent.Some? && parent.value in v.bodies then v.parents[v.count := parent.value] else v.parents,
       count := v.count + 1)
  }

  function Apply(v: View, c: Command): View {
    match c
    case Spawn(x, p, _) => Born(v, x, p)
    case SetValue(t, x) => if t in v.bodies then v.(bodies := v.bodies[t := Some(x)]) else v
    case ClearValue(t) => if t in v.bodies then v.(bodies := v.bodies[t := None]) else v
    case SetLikes(t, l) => if t in v.bodies then v.(likes := Relinked(v.likes, t, Present(v, l))) else v
    case Despawn(t) => if t in v.bodies then Pruned(v, t) else v
    case DespawnRollback(t) => if t in v.bodies then Pruned(v, t) else v
    case SetResource(x) => v.(resource := Some(x))
    case ClearResource => v.(resource := None)
    case SetFavourite(l) => v.(favourite := Present(v, l))
  }

  function ApplyAll(v: View, cs: seq<Command>): View {
    if cs == [] then v else Apply(ApplyAll(v, cs[..|cs| - 1]), cs[|cs| - 1])
  }

  /** A script is run from front to back. */
  lemma {:induction false} ScriptsCompose(v: View, first: seq<Command>, second: seq<Command>)
    ensures ApplyAll(v, first + second) == ApplyAll(ApplyAll(v, first), second)
  {
    if second == [] {
      assert first + second == first;
    } else {
      var front := second[..|second| - 1];
      ScriptsCompose(v, first, front);
      assert (first + second)[..|first + second| - 1] == first + front;
    }
  }

  function NextFrame(cfg: Config, v: View): View
    requires cfg.rate >= 1
  {
    var runtime := RuntimeNanos(v.frame + 1, cfg.rate);
    v.(frame := v.frame + 1, clock := if v.clock.elapsed <= runtime then Ticked(v.clock, runtime) else v.clock)
  }

  function GameStep(cfg: Config, v: View, input: Input): View
    requires cfg.rate >= 1
  {
    var v1 := NextFrame(cfg, v);
    ApplyAll(v1, cfg.logic(v1, input))
  }

  /** The game played straight through: one step per input. */
  function Simulate(cfg: Config, v: View, inputs: seq<Input>): View
    requires cfg.rate >= 1
  {
    if inputs == [] then v else GameStep(cfg, Simulate(cfg, v, inputs[..|inputs| - 1]), inputs[|inputs| - 1])
  }

  // ---- Views ---------------------------------------------------------------------------------

  /** The part of soundness that makes a view well defined. */
  ghost predicate Indexed(pop: Pop, o: Order) {
    Distinct(pop) && Bijective(o) && Registered(pop, o)
  }

  /** `bodies` lists exactly the visible entities, by registration index, with their values. */
  ghost predicate Shows(pop: Pop, o: Order, bodies: map<int, Option<Value>>) {
    && (forall i :: i in bodies ==> 0 <= i < |o.sorted| && o.sorted[i] in VisibleIds(pop))
    && (forall e :: e in pop && Visible(pop, e) ==> ShowsEntity(pop[e], o, bodies))
  }

  ghost predicate ShowsEntity(b: Body, o: Order, bodies: map<int, Option<Value>>) {
    b.rid in o.order && o.order[b.rid] in bodies && bodies[o.order[b.rid]] == b.value
  }

  /** `links` lists exactly the references of the visible entities to visible entities. */
  ghost predicate ShowsLinks(pop: Pop, o: Order, link: Body -> Option<Entity>, links: map<int, int>) {
    && (forall i :: i in links ==> 0 <= i < |o.sorted| && o.sorted[i] in VisibleIds(pop))
    && (forall e :: e in pop && Visible(pop, e) ==> ShowsLink(pop, o, e, link, links))
  }

  ghost predicate ShowsLink(pop: Pop, o: Order, e: Entity, link: Body -> Option<Entity>, links: map<int, int>)
    requires e in pop
  {
    pop[e].rid in o.order && Get(links, o.order[pop[e].rid]) == ReferenceIndex(pop, o, link(pop[e]))
  }

  /** The visible entity behind an index. */
  lemma ShownAt(pop: Pop, o: Order, i: nat) returns (e: Entity)
    requires Distinct(pop) && Bijective(o) && i < |o.sorted| && o.sorted[i] in VisibleIds(pop)
    ensures Find(pop, o.sorted[i]) == Some(e) && Visible(pop, e) && pop[e].rid == o.sorted[i]
    ensures o.order[pop[e].rid] == i
  {
    e := Find(pop, o.sorted[i]).value;
  }

  lemma BodiesShown(pop: Pop, o: Order)
    requires Indexed(pop, o)
    ensures Shows(pop, o, Bodies(pop, o.sorted))
  {
  }

  lemma ShownIsBodies(pop: Pop, o: Order, bodies: map<int, Option<Value>>)
    requires Distinct(pop) && Bijective(o) && Shows(pop, o, bodies)
    ensures bodies == Bodies(pop, o.sorted)
  {
  }

  lemma LinksShown(pop: Pop, o: Order, link: Body -> Option<Entity>)
    requires Indexed(pop, o)
    ensures ShowsLinks(pop, o, link, Links(pop, o, link))
  {
    forall e | e in pop && Visible(pop, e) ensures ShowsLink(pop, o, e, link, Links(pop, o, link)) {
      FindVisible(pop, e);
    }
  }

  lemma ShownLinkAt(pop: Pop, o: Order, link: Body -> Option<Entity>, links: map<int, int>, i: int)
    requires Distinct(pop) && Bijective(o) && ShowsLinks(pop, o, link, links)
    ensures Get(links, i) == Get(Links(pop, o, link), i)
  {
    if 0 <= i < |o.sorted| && o.sorted[i] in VisibleIds(pop) {
      var e := ShownAt(pop, o, i);
      assert ShowsLink(pop, o, e, link, links);
    }
  }

  lemma ShownIsLinks(pop: Pop, o: Order, link: Body -> Option<Entity>, links: map<int, int>)
    requires Distinct(pop) && Bijective(o) && ShowsLinks(pop, o, link, links)
    ensures links == Links(pop, o, link)
  {
    forall i ensures Get(links, i) == Get(Links(pop, o, link), i) {
      ShownLinkAt(pop, o, link, links, i);
    }
    SameEntries(links, Links(pop, o, link));
  }

  lemma SameEntries<K, V>(a: map<K, V>, b: map<K, V>)
    requires forall k :: Get(a, k) == Get(b, k)
    ensures a == b
  {
    forall k
      ensures k in a ==> k in b && a[k] == b[k]
      ensures k in b ==> k in a
    {
      assert Get(a, k) == Get(b, k);
    }
    SameMap(a, b);
  }

  // ---- Populations ---------------------------------------------------------------------------

  lemma StillShown(pop: Pop, o: Order, p: Pop, o': Order, i: int)
    requires Indexed(pop, o) && o.sorted <= o'.sorted && i in Bodies(pop, o.sorted)
    requires forall e :: e in pop && Visible(pop, e) && pop[e].rid == o.sorted[i] ==>
               e in p && Visible(p, e) && p[e].rid == pop[e].rid
    ensures 0 <= i < |o'.sorted| && o'.sorted[i] in VisibleIds(p)
  {
  }

  lemma EditBodies(pop: Pop, o: Order, e: Entity, b: Body)
    requires Indexed(pop, o) && Visible(pop, e) && b.rid == pop[e].rid && b.mark.None?
    ensures Bodies(pop[e := b], o.sorted) == Bodies(pop, o.sorted)[o.order[b.rid] := b.value]
  {
    var p := pop[e := b];
    var bodies := Bodies(pop, o.sorted);
    BodiesShown(pop, o);
    forall i | i in bodies ensures o.sorted[i] in VisibleIds(p) {
      StillShown(pop, o, p, o, i);
    }
    assert Shows(p, o, bodies[o.order[b.rid] := b.value]);
    ShownIsBodies(p, o, bodies[o.order[b.rid] := b.value]);
  }

  /** The visible entities of `p` are those of `pop` whose index is not in `gone`, unchanged. */
  ghost predicate Remaining(pop: Pop, o: Order, p: Pop, gone: set<int>) {
    && Distinct(p)
    && (forall d :: Visible(p, d) <==> Visible(pop, d) && pop[d].rid in o.order && o.order[pop[d].rid] !in gone)
    && (forall d :: Visible(p, d) ==> p[d] == pop[d])
  }

  /** A reference in what remains. */
  function StillThere(i: Option<int>, gone: set<int>): Option<int> {
    if i.Some? && i.value in gone then None else i
  }

  lemma RemainingReference(pop: Pop, o: Order, p: Pop, gone: set<int>, r: Option<Entity>)
    requires Remaining(pop, o, p, gone)
    ensures ReferenceIndex(p, o, r) == StillThere(ReferenceIndex(pop, o, r), gone)
  {
  }

  lemma RemainingIds(pop: Pop, o: Order, p: Pop, gone: set<int>, i: int)
    requires Indexed(pop, o) && Remaining(pop, o, p, gone) && i in Bodies(pop, o.sorted) && i !in gone
    ensures o.sorted[i] in VisibleIds(p)
  {
    var e := ShownAt(pop, o, i);
    assert Visible(p, e) && p[e].rid == o.sorted[i];
  }

  lemma RemainingBodies(pop: Pop, o: Order, p: Pop, gone: set<int>)
    requires Indexed(pop, o) && Remaining(pop, o, p, gone)
    ensures Bodies(p, o.sorted) == Bodies(pop, o.sorted) - gone
  {
    var bodies := Bodies(pop, o.sorted);
    BodiesShown(pop, o);
    forall i | i in bodies && i !in gone ensures o.sorted[i] in VisibleIds(p) {
      RemainingIds(pop, o, p, gone, i);
    }
    assert Shows(p, o, bodies - gone);
    ShownIsBodies(p, o, bodies - gone);
  }

  lemma RemainingLinks(pop: Pop, o: Order, p: Pop, gone: set<int>, link: Body -> Option<Entity>)
    requires Indexed(pop, o) && Remaining(pop, o, p, gone)
    ensures Links(p, o, link) == Without(Links(pop, o, link), gone)
  {
    var links := Links(pop, o, link);
    LinksShown(pop, o, link);
    forall i | i in links && i !in gone ensures o.sorted[i] in VisibleIds(p) {
      RemainingIds(pop, o, p, gone, i);
    }
    forall e | e in p && Visible(p, e) ensures ShowsLink(p, o, e, link, Without(links, gone)) {
      assert ShowsLink(pop, o, e, link, links);
      RemainingReference(pop, o, p, gone, link(pop[e]));
    }
    ShownIsLinks(p, o, link, Without(links, gone));
  }

  /** Removing nothing. */
  lemma NothingGone<V>(m: map<int, V>)
    ensures m - {} == m
  {
  }

  lemma NothingUnlinked(m: map<int, int>)
    ensures Without(m, {}) == m
  {
  }

  // ---- Families ------------------------------------------------------------------------------

  lemma ParentShown(pop: Pop, o: Order, e: Entity, h: Entity)
    requires Indexed(pop, o) && HiddenTogether(pop) && LinkedTo(pop, e, h) && Visible(pop, e)
    ensures Visible(pop, h) && pop[h].rid in o.order && pop[e].rid in o.order
    ensures o.order[pop[e].rid] in Parents(pop, o) && Parents(pop, o)[o.order[pop[e].rid]] == o.order[pop[h].rid]
  {
    ParentOfVisible(pop, e, h);
    LinksShown(pop, o, ParentLink);
    assert ShowsLink(pop, o, e, ParentLink, Parents(pop, o));
  }

  /** A family, seen by index, stays within the family by index. */
  lemma FamilySeen(pop: Pop, o: Order, e: Entity, d: Entity)
    requires Indexed(pop, o) && HiddenTogether(pop) && Visible(pop, e)
    requires d in Family(pop, {e}) && Visible(pop, d)
    ensures pop[d].rid in o.order && o.order[pop[d].rid] in FamilyIn(Parents(pop, o), {o.order[pop[e].rid]})
  {
    var gone := FamilyIn(Parents(pop, o), {o.order[pop[e].rid]});
    var inside := set c | c in pop && (Visible(pop, c) ==> pop[c].rid in o.order && o.order[pop[c].rid] in gone);
    forall c | c in pop && ChildOf(pop, c, inside) ensures c in inside {
      if Visible(pop, c) {
        ParentShown(pop, o, c, pop[c].parent.value);
      }
    }
    FamilyIsLeast(pop, {e}, inside);
  }

  lemma ParentBehind(pop: Pop, o: Order, i: int) returns (e: Entity, h: Entity)
    requires Indexed(pop, o) && i in Parents(pop, o)
    ensures LinkedTo(pop, e, h) && Visible(pop, e) && Visible(pop, h) && pop[h].rid in o.order
    ensures 0 <= i < |o.sorted| && pop[e].rid == o.sorted[i] && o.order[pop[h].rid] == Parents(pop, o)[i]
  {
    e := ShownAt(pop, o, i);
    h := pop[e].parent.value;
  }

  /** And conversely. */
  lemma FamilyMeant(pop: Pop, o: Order, e: Entity, d: Entity)
    requires Indexed(pop, o) && HiddenTogether(pop) && Visible(pop, e) && Visible(pop, d)
    requires o.order[pop[d].rid] in FamilyIn(Parents(pop, o), {o.order[pop[e].rid]})
    ensures d in Family(pop, {e})
  {
    var family := Family(pop, {e});
    var inside := set c | c in pop && c in family && pop[c].rid in o.order :: o.order[pop[c].rid];
    forall i | i in Parents(pop, o) && Parents(pop, o)[i] in inside ensures i in inside {
      var c, h := ParentBehind(pop, o, i);
      var g :| g in pop && g in family && pop[g].rid in o.order && o.order[pop[g].rid] == Parents(pop, o)[i];
      assert o.sorted[o.order[pop[g].rid]] == o.sorted[o.order[pop[h].rid]];
      assert ChildOf(pop, c, family);
    }
    FamilyInIsLeast(Parents(pop, o), {o.order[pop[e].rid]}, inside);
    var g :| g in pop && g in family && pop[g].rid in o.order && o.order[pop[g].rid] == o.order[pop[d].rid];
    assert o.sorted[o.order[pop[g].rid]] == o.sorted[o.order[pop[d].rid]];
  }

  ghost predicate SameFamily(pop: Pop, o: Order, family: set<Entity>, gone: set<int>) {
    forall d :: d in pop && Visible(pop, d) ==> pop[d].rid in o.order && (d in family <==> o.order[pop[d].rid] in gone)
  }

  lemma FamiliesMatch(pop: Pop, o: Order, e: Entity)
    requires Indexed(pop, o) && HiddenTogether(pop) && Visible(pop, e)
    ensures SameFamily(pop, o, Family(pop, {e}), FamilyIn(Parents(pop, o), {o.order[pop[e].rid]}))
  {
    forall d | d in pop && Visible(pop, d)
      ensures pop[d].rid in o.order
      ensures d in Family(pop, {e}) <==> o.order[pop[d].rid] in FamilyIn(Parents(pop, o), {o.order[pop[e].rid]})
    {
      if d in Family(pop, {e}) { FamilySeen(pop, o, e, d); }
      if o.order[pop[d].rid] in FamilyIn(Parents(pop, o), {o.order[pop[e].rid]}) { FamilyMeant(pop, o, e, d); }
    }
  }

  lemma DespawnedRemain(pop: Pop, o: Order, family: set<Entity>, gone: set<int>, p: Pop)
    requires Indexed(pop, o) && SameFamily(pop, o, family, gone)
    requires p == map e | e in pop && e !in family :: pop[e]
    ensures Remaining(pop, o, p, gone)
  {
  }

  lemma MarkedRemain(pop: Pop, o: Order, family: set<Entity>, gone: set<int>, frame: int, p: Pop)
    requires Indexed(pop, o) && SameFamily(pop, o, family, gone)
    requires p == map e | e in pop :: if e in family then pop[e].(mark := Some(frame)) else pop[e]
    ensures Remaining(pop, o, p, gone)
  {
  }

  // ---- Commands ------------------------------------------------------------------------------

  lemma ResolveInView(w: World, t: nat)
    requires Indexed(w.pop, w.ordered)
    ensures Resolve(w, t).Some? <==> t in ViewOf(w).bodies
    ensures Resolve(w, t).Some? ==>
              && Visible(w.pop, Resolve(w, t).value)
              && w.pop[Resolve(w, t).value].rid in w.ordered.order
              && w.ordered.order[w.pop[Resolve(w, t).value].rid] == t
              && ViewOf(w).bodies[t] == w.pop[Resolve(w, t).value].value
  {
  }

  /** Editing a visible entity in place changes what it refers to, and nothing about the others. */
  lemma EditLinks(pop: Pop, o: Order, e: Entity, b: Body, link: Body -> Option<Entity>)
    requires Indexed(pop, o) && Visible(pop, e) && b.rid == pop[e].rid && b.mark.None?
    ensures Links(pop[e := b], o, link)
        == Relinked(Links(pop, o, link), o.order[b.rid], ReferenceIndex(pop, o, link(b)))
  {
    var p, links := pop[e := b], Relinked(Links(pop, o, link), o.order[b.rid], ReferenceIndex(pop, o, link(b)));
    LinksShown(pop, o, link);
    forall i | i in links ensures 0 <= i < |o.sorted| && o.sorted[i] in VisibleIds(p) {
      EditKeepsIds(pop, o, e, b, i);
    }
    forall d | d in p && Visible(p, d) ensures ShowsLink(p, o, d, link, links) {
      EditShowsLink(pop, o, e, b, link, d);
    }
    ShownIsLinks(p, o, link, links);
  }

  /** An edit leaves the index behind every reference alone. */
  lemma EditKeepsIndex(pop: Pop, o: Order, e: Entity, b: Body, r: Option<Entity>)
    requires Visible(pop, e) && b.rid == pop[e].rid && b.mark.None?
    ensures ReferenceIndex(pop[e := b], o, r) == ReferenceIndex(pop, o, r)
  {
  }

  lemma EditShowsLink(pop: Pop, o: Order, e: Entity, b: Body, link: Body -> Option<Entity>, d: Entity)
    requires Indexed(pop, o) && Visible(pop, e) && b.rid == pop[e].rid && b.mark.None?
    requires ShowsLinks(pop, o, link, Links(pop, o, link))
    requires d in pop[e := b] && Visible(pop[e := b], d)
    ensures ShowsLink(pop[e := b], o, d, link,
                      Relinked(Links(pop, o, link), o.order[b.rid], ReferenceIndex(pop, o, link(b))))
  {
    EditKeepsIndex(pop, o, e, b, link(pop[e := b][d]));
    if d != e {
      assert ShowsLink(pop, o, d, link, Links(pop, o, link));
      assert o.sorted[o.order[pop[d].rid]] != o.sorted[o.order[b.rid]];
    }
  }

  lemma EditKeepsIds(pop: Pop, o: Order, e: Entity, b: Body, i: int)
    requires Indexed(pop, o) && Visible(pop, e) && b.rid == pop[e].rid && b.mark.None?
    requires i == o.order[b.rid] || (0 <= i < |o.sorted| && o.sorted[i] in VisibleIds(pop))
    ensures 0 <= i < |o.sorted| && o.sorted[i] in VisibleIds(pop[e := b])
  {
    if i == o.order[b.rid] {
      assert Visible(pop[e := b], e) && pop[e := b][e].rid == o.sorted[i];
    } else {
      var d := ShownAt(pop, o, i);
      assert Visible(pop[e := b], d) && pop[e := b][d].rid == o.sorted[i];
    }
  }

  /** Linking anew to the same is no change. */
  lemma SameLink(pop: Pop, o: Order, e: Entity, link: Body -> Option<Entity>)
    requires Indexed(pop, o) && Visible(pop, e)
    ensures Relinked(Links(pop, o, link), o.order[pop[e].rid], ReferenceIndex(pop, o, link(pop[e])))
        == Links(pop, o, link)
  {
    LinksShown(pop, o, link);
    assert ShowsLink(pop, o, e, link, Links(pop, o, link));
  }

  lemma BodyView(w: World, t: nat, b: Body)
    requires Indexed(w.pop, w.ordered) && Resolve(w, t).Some?
    requires var a := w.pop[Resolve(w, t).value]; b.rid == a.rid && b.mark == a.mark && b.parent == a.parent
    ensures ViewOf(w.(pop := w.pop[Resolve(w, t).value := b])) ==
            ViewOf(w).(bodies := ViewOf(w).bodies[t := b.value],
                       likes := Relinked(ViewOf(w).likes, t, ReferenceIndex(w.pop, w.ordered, b.likes)))
  {
    var e := Resolve(w, t).value;
    ResolveInView(w, t);
    EditBodies(w.pop, w.ordered, e, b);
    EditLinks(w.pop, w.ordered, e, b, ParentLink);
    SameLink(w.pop, w.ordered, e, ParentLink);
    EditLinks(w.pop, w.ordered, e, b, LikesLink);
    assert ReferenceIndex(w.pop[e := b], w.ordered, w.favourite) == ReferenceIndex(w.pop, w.ordered, w.favourite);
  }

  /** What an edit makes of the body it finds. */
  ghost function Edited(w: World, c: Command, b: Body): Body
    requires c.SetValue? || c.ClearValue? || c.SetLikes?
  {
    match c
    case SetValue(_, x) => b.(value := Some(x))
    case ClearValue(_) => b.(value := None)
    case SetLikes(_, l) => b.(likes := Resolve(w, l))
  }

  lemma EditView(w: World, c: Command)
    requires Indexed(w.pop, w.ordered)
    requires c.SetValue? || c.ClearValue? || c.SetLikes?
    ensures ViewOf(Execute(w, c)) == Apply(ViewOf(w), c)
  {
    ResolveInView(w, c.target);
    var r := Resolve(w, c.target);
    if r.Some? {
      var b := Edited(w, c, w.pop[r.value]);
      BodyView(w, c.target, b);
      assert Execute(w, c) == w.(pop := w.pop[r.value := b]);
      if c.SetLikes? {
        SameValue(ViewOf(w), c.target, b.value);
        ResolvedIndex(w, c.liked);
      } else {
        SameLink(w.pop, w.ordered, r.value, LikesLink);
      }
    }
  }

  /** Writing back the value that is there changes nothing. */
  lemma SameValue(v: View, t: int, x: Option<Value>)
    requires t in v.bodies && v.bodies[t] == x
    ensures v.bodies[t := x] == v.bodies
  {
  }

  /** A reference made by index is seen as that index. */
  lemma ResolvedIndex(w: World, l: nat)
    requires Indexed(w.pop, w.ordered)
    ensures ReferenceIndex(w.pop, w.ordered, Resolve(w, l)) == Present(ViewOf(w), l)
  {
    ResolveInView(w, l);
  }

  lemma RemainingView(w: World, p: Pop, t: int)
    requires Indexed(w.pop, w.ordered) && Remaining(w.pop, w.ordered, p, FamilyIn(Parents(w.pop, w.ordered), {t}))
    ensures ViewOf(w.(pop := p)) == Pruned(ViewOf(w), t)
  {
    RemainingBodies(w.pop, w.ordered, p, FamilyIn(Parents(w.pop, w.ordered), {t}));
    RemainingLinks(w.pop, w.ordered, p, FamilyIn(Parents(w.pop, w.ordered), {t}), ParentLink);
    RemainingLinks(w.pop, w.ordered, p, FamilyIn(Parents(w.pop, w.ordered), {t}), LikesLink);
    RemainingReference(w.pop, w.ordered, p, FamilyIn(Parents(w.pop, w.ordered), {t}), w.favourite);
  }

  lemma DespawnView(w: World, t: nat)
    requires Indexed(w.pop, w.ordered) && HiddenTogether(w.pop) && Resolve(w, t).Some?
    ensures ViewOf(w.(pop := Despawned(w.pop, {Resolve(w, t).value}))) == Pruned(ViewOf(w), t)
  {
    ResolveInView(w, t);
    var e := Resolve(w, t).value;
    FamiliesMatch(w.pop, w.ordered, e);
    DespawnedRemain(w.pop, w.ordered, Family(w.pop, {e}), FamilyIn(Parents(w.pop, w.ordered), {t}),
                    Despawned(w.pop, {e}));
    RemainingView(w, Despawned(w.pop, {e}), t);
  }

  lemma MarkView(w: World, t: nat)
    requires Indexed(w.pop, w.ordered) && HiddenTogether(w.pop) && Resolve(w, t).Some?
    ensures ViewOf(w.(pop := Marked(w.pop, {Resolve(w, t).value}, w.frame))) == Pruned(ViewOf(w), t)
  {
    ResolveInView(w, t);
    var e := Resolve(w, t).value;
    FamiliesMatch(w.pop, w.ordered, e);
    MarkedRemain(w.pop, w.ordered, Family(w.pop, {e}), FamilyIn(Parents(w.pop, w.ordered), {t}), w.frame,
                 Marked(w.pop, {e}, w.frame));
    RemainingView(w, Marked(w.pop, {e}, w.frame), t);
  }

  lemma HideView(w: World, c: Command)
    requires Indexed(w.pop, w.ordered) && HiddenTogether(w.pop)
    requires c.Despawn? || c.DespawnRollback?
    ensures ViewOf(Execute(w, c)) == Apply(ViewOf(w), c)
  {
    ResolveInView(w, c.target);
    var r := Resolve(w, c.target);
    if r.None? {
      assert Execute(w, c) == w;
    } else if c.DespawnRollback? && w.confirmed < w.frame {
      MarkView(w, c.target);
      assert Execute(w, c) == w.(pop := Marked(w.pop, {r.value}, w.frame));
    } else {
      DespawnView(w, c.target);
      assert Execute(w, c) == w.(pop := Despawned(w.pop, {r.value}));
    }
  }

  lemma SpawnShownIds(pop: Pop, o: Order, e: Entity, b: Body)
    requires Indexed(pop, o) && e !in pop && b.rid !in o.order && b.mark.None?
    ensures forall i :: i in Bodies(pop, o.sorted) || i == |o.sorted| ==>
              0 <= i < |Register(o, b.rid).sorted| && Register(o, b.rid).sorted[i] in VisibleIds(pop[e := b])
  {
    var o' := Register(o, b.rid);
    var p := pop[e := b];
    assert Visible(p, e) && p[e].rid == o'.sorted[|o.sorted|];
    forall i | i in Bodies(pop, o.sorted) ensures 0 <= i < |o'.sorted| && o'.sorted[i] in VisibleIds(p) {
      StillShown(pop, o, p, o', i);
    }
  }

  lemma SpawnShown(pop: Pop, o: Order, e: Entity, b: Body)
    requires Indexed(pop, o) && e !in pop && b.rid !in o.order && b.mark.None?
    ensures Shows(pop[e := b], Register(o, b.rid), Bodies(pop, o.sorted)[|o.sorted| := b.value])
  {
    SpawnShownIds(pop, o, e, b);
    BodiesShown(pop, o);
    var p := pop[e := b];
    forall d | d in p && Visible(p, d)
      ensures ShowsEntity(p[d], Register(o, b.rid), Bodies(pop, o.sorted)[|o.sorted| := b.value])
    {
      if d != e {
        assert Visible(pop, d);
        assert ShowsEntity(pop[d], o, Bodies(pop, o.sorted));
      }
    }
  }

  lemma SpawnBodies(pop: Pop, o: Order, e: Entity, b: Body)
    requires Indexed(pop, o) && e !in pop && b.rid !in o.order && b.mark.None?
    requires forall d :: d in pop ==> pop[d].rid != b.rid
    ensures Bodies(pop[e := b], Register(o, b.rid).sorted) == Bodies(pop, o.sorted)[|o.sorted| := b.value]
  {
    var o' := Register(o, b.rid);
    var p := pop[e := b];
    var bodies := Bodies(pop, o.sorted);
    RegisterKeepsBijection(o, b.rid);
    SpawnShown(pop, o, e, b);
    assert Distinct(p);
    ShownIsBodies(p, o', bodies[|o.sorted| := b.value]);
  }

  /** The references after a birth. */
  function BornLinks(links: map<int, int>, count: nat, to: Option<int>): map<int, int> {
    if to.Some? then links[count := to.value] else links
  }

  /** What a spawn relies on: a fresh entity with a fresh identity, that nobody refers to. */
  ghost predicate Unborn(pop: Pop, o: Order, e: Entity, b: Body, link: Body -> Option<Entity>) {
    && e !in pop && b.rid !in o.order && b.mark.None? && link(b) != Some(e)
    && (forall d :: d in pop ==> pop[d].rid != b.rid && link(pop[d]) != Some(e))
  }

  lemma SpawnKeepsIndex(pop: Pop, o: Order, e: Entity, b: Body, r: Option<Entity>)
    requires Indexed(pop, o) && e !in pop && b.rid !in o.order && b.mark.None? && r != Some(e)
    requires forall d :: d in pop ==> pop[d].rid != b.rid
    ensures ReferenceIndex(pop[e := b], Register(o, b.rid), r) == ReferenceIndex(pop, o, r)
  {
  }

  lemma SpawnShowsLink(pop: Pop, o: Order, e: Entity, b: Body, link: Body -> Option<Entity>, d: Entity)
    requires Indexed(pop, o) && Unborn(pop, o, e, b, link) && ShowsLinks(pop, o, link, Links(pop, o, link))
    requires d in pop[e := b] && Visible(pop[e := b], d)
    ensures ShowsLink(pop[e := b], Register(o, b.rid), d, link,
                      BornLinks(Links(pop, o, link), |o.sorted|, ReferenceIndex(pop, o, link(b))))
  {
    SpawnKeepsIndex(pop, o, e, b, link(pop[e := b][d]));
    if d != e {
      assert ShowsLink(pop, o, d, link, Links(pop, o, link));
    }
  }

  lemma SpawnShownLinks(pop: Pop, o: Order, e: Entity, b: Body, link: Body -> Option<Entity>, links: map<int, int>)
    requires Indexed(pop, o) && Unborn(pop, o, e, b, link)
    requires links == BornLinks(Links(pop, o, link), |o.sorted|, ReferenceIndex(pop, o, link(b)))
    ensures ShowsLinks(pop[e := b], Register(o, b.rid), link, links)
  {
    var o' := Register(o, b.rid);
    var p := pop[e := b];
    SpawnShownIds(pop, o, e, b);
    LinksShown(pop, o, link);
    forall d | d in p && Visible(p, d) ensures ShowsLink(p, o', d, link, links) {
      SpawnShowsLink(pop, o, e, b, link, d);
    }
    forall i | i in links ensures 0 <= i < |o'.sorted| && o'.sorted[i] in VisibleIds(p) {
      assert i in Bodies(pop, o.sorted) || i == |o.sorted|;
    }
  }

  lemma SpawnLinks(pop: Pop, o: Order, e: Entity, b: Body, link: Body -> Option<Entity>)
    requires Indexed(pop, o) && Unborn(pop, o, e, b, link)
    ensures Links(pop[e := b], Register(o, b.rid), link)
            == BornLinks(Links(pop, o, link), |o.sorted|, ReferenceIndex(pop, o, link(b)))
  {
    RegisterKeepsBijection(o, b.rid);
    SpawnShownLinks(pop, o, e, b, link, BornLinks(Links(pop, o, link), |o.sorted|, ReferenceIndex(pop, o, link(b))));
    assert Distinct(pop[e := b]);
    ShownIsLinks(pop[e := b], Register(o, b.rid), link,
                 BornLinks(Links(pop, o, link), |o.sorted|, ReferenceIndex(pop, o, link(b))));
  }

  lemma UnbornSpawn(w: World, e: Entity, b: Body)
    requires PopSound(w.pop, w.next) && OrderSound(w.ordered, w.next)
    requires HandlesOld(w)
    requires e == Entity(w.next) && b.rid == RollbackId(e) && b.mark.None? && b.likes.None?
    requires b.parent.Some? ==> Visible(w.pop, b.parent.value)
    ensures Unborn(w.pop, w.ordered, e, b, ParentLink) && Unborn(w.pop, w.ordered, e, b, LikesLink)
  {
  }

  /** The references of the others do not notice a birth, and the newborn likes nobody. */
  lemma BirthLinks(w: World, e: Entity, b: Body)
    requires Indexed(w.pop, w.ordered) && HandlesOld(w)
    requires PopSound(w.pop, w.next) && OrderSound(w.ordered, w.next)
    requires e == Entity(w.next) && b.rid == RollbackId(e) && b.mark.None? && b.likes.None?
    requires b.parent.Some? ==> Visible(w.pop, b.parent.value)
    ensures var p, o := w.pop[e := b], Register(w.ordered, b.rid);
            && Parents(p, o)
                == BornLinks(Parents(w.pop, w.ordered), |w.ordered.sorted|,
                             ReferenceIndex(w.pop, w.ordered, b.parent))
            && Likes(p, o) == Likes(w.pop, w.ordered)
            && ReferenceIndex(p, o, w.favourite) == ReferenceIndex(w.pop, w.ordered, w.favourite)
  {
    UnbornSpawn(w, e, b);
    SpawnLinks(w.pop, w.ordered, e, b, ParentLink);
    SpawnLinks(w.pop, w.ordered, e, b, LikesLink);
    SpawnKeepsIndex(w.pop, w.ordered, e, b, w.favourite);
  }

  lemma SpawnView(w: World, c: Command)
    requires Indexed(w.pop, w.ordered) && HandlesOld(w)
    requires PopSound(w.pop, w.next) && OrderSound(w.ordered, w.next)
    requires c.Spawn?
    ensures ViewOf(Execute(w, c)) == Apply(ViewOf(w), c)
  {
    var e := Entity(w.next);
    var b := Body(RollbackId(e), None, c.value, None, ResolveOption(w, c.parentIndex), c.decor);
    BirthLinks(w, e, b);
    SpawnBodies(w.pop, w.ordered, e, b);
    if c.parentIndex.Some? {
      ResolvedIndex(w, c.parentIndex.value);
    }
  }

  lemma FavouriteView(w: World, l: nat)
    requires Indexed(w.pop, w.ordered)
    ensures ViewOf(Execute(w, SetFavourite(l))) == Apply(ViewOf(w), SetFavourite(l))
  {
    ResolvedIndex(w, l);
    assert Execute(w, SetFavourite(l)) == w.(favourite := Resolve(w, l));
  }

  /** A command run on entities does to the view what it does in the reference semantics. */
  lemma ExecuteView(w: World, c: Command)
    requires Live(w) && HiddenTogether(w.pop) && HandlesOld(w)
    ensures ViewOf(Execute(w, c)) == Apply(ViewOf(w), c)
  {
    match c
    case Spawn(_, _, _) => SpawnView(w, c);
    case SetValue(_, _) => EditView(w, c);
    case ClearValue(_) => EditView(w, c);
    case SetLikes(_, _) => EditView(w, c);
    case Despawn(_) => HideView(w, c);
    case DespawnRollback(_) => HideView(w, c);
    case SetResource(_) =>
    case ClearResource =>
    case SetFavourite(l) => FavouriteView(w, l);
  }
}
