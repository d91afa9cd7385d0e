/**
 Checksums: order-tagged folds that depend neither on query order nor on entity handles. Hashing
 itself is left uninterpreted.
 */
module Checksums {
  import opened Prelude
  import opened Population
  import opened Ordering
  import opened WorldModel
  import opened Simulation
  import opened Mixing

  /**
   The hash functions of the plugins: any functions at all, and the operation that combines words.
   A checksum part is a word converted to twice the width.
   */
  datatype Hashing<!T(!new)> = Hashing(
    mixer: Mixer<T>,
    component: Value -> T,
    tagged: (int, T) -> T,
    folded: T -> T,
    counts: (nat, nat) -> T)

  // ---- The component checksum -----------------------------------------------------------------

  /** One entity's contribution: its component hash, tagged with its registration index. */
  function Tagged<T(!new)>(h: Hashing<T>, index: int, value: Value): T {
    h.tagged(index, h.component(value))
  }

  /** The canonical fold: registration indices in increasing order. */
  ghost function FoldBelow<T(!new)>(h: Hashing<T>, bodies: map<int, Option<Value>>, n: nat): T {
    if n == 0 then h.mixer.unit
    else if Carries(bodies, n - 1) then h.mixer.op(Tagged(h, n - 1, bodies[n - 1].value), FoldBelow(h, bodies, n - 1))
    else FoldBelow(h, bodies, n - 1)
  }

  predicate Carries(bodies: map<int, Option<Value>>, i: int) {
    i in bodies && bodies[i].Some?
  }

  /** The entities the component query yields. */
  function Carriers(pop: Pop): set<Entity> {
    set e | e in pop && Visible(pop, e) && pop[e].value.Some?
  }

  ghost function Contribution<T(!new)>(h: Hashing<T>, pop: Pop, o: Order, e: Entity): T {
    if e in pop && pop[e].value.Some? && pop[e].rid in o.order then Tagged(h, o.order[pop[e].rid], pop[e].value.value)
    else h.mixer.unit
  }

  ghost function Contributions<T(!new)>(h: Hashing<T>, pop: Pop, o: Order): Entity -> T {
    e => Contribution(h, pop, o, e)
  }

  ghost function CarriersBelow(pop: Pop, o: Order, n: int): set<Entity> {
    set e | e in Carriers(pop) && pop[e].rid in o.order && o.order[pop[e].rid] < n
  }

  lemma CarrierStep(pop: Pop, o: Order, n: nat) returns (e: Entity)
    requires Indexed(pop, o) && 1 <= n <= |o.sorted| && Carries(Bodies(pop, o.sorted), n - 1)
    ensures e in CarriersBelow(pop, o, n) && pop[e].value == Bodies(pop, o.sorted)[n - 1]
    ensures pop[e].rid in o.order && o.order[pop[e].rid] == n - 1
    ensures CarriersBelow(pop, o, n) - {e} == CarriersBelow(pop, o, n - 1)
  {
    e := Find(pop, o.sorted[n - 1]).value;
    forall d | d in CarriersBelow(pop, o, n) && d != e ensures o.order[pop[d].rid] < n - 1 {
      assert o.sorted[o.order[pop[d].rid]] == pop[d].rid;
    }
  }

  lemma NoCarrierStep(pop: Pop, o: Order, n: nat)
    requires Indexed(pop, o) && 1 <= n <= |o.sorted| && !Carries(Bodies(pop, o.sorted), n - 1)
    ensures CarriersBelow(pop, o, n) == CarriersBelow(pop, o, n - 1)
  {
  }

  lemma {:induction false} FoldByIndex<T(!new)>(h: Hashing<T>, pop: Pop, o: Order, n: nat)
    requires Indexed(pop, o) && n <= |o.sorted| && h.mixer.Lawful()
    ensures Fold(h.mixer, Contributions(h, pop, o), CarriersBelow(pop, o, n)) == FoldBelow(h, Bodies(pop, o.sorted), n)
  {
    var f := Contributions(h, pop, o);
    if n == 0 {
      NoneBelowZero(pop, o);
    } else {
      FoldByIndex(h, pop, o, n - 1);
      if Carries(Bodies(pop, o.sorted), n - 1) {
        var e := CarrierStep(pop, o, n);
        FoldAnyOrder(h.mixer, f, CarriersBelow(pop, o, n), e);
        assert f(e) == Contribution(h, pop, o, e) == Tagged(h, n - 1, Bodies(pop, o.sorted)[n - 1].value);
      } else {
        NoCarrierStep(pop, o, n);
      }
    }
  }

  lemma NoneBelowZero(pop: Pop, o: Order)
    requires Bijective(o)
    ensures CarriersBelow(pop, o, 0) == {}
  {
  }

  lemma AllBelowCount(pop: Pop, o: Order)
    requires Indexed(pop, o)
    ensures CarriersBelow(pop, o, |o.sorted|) == Carriers(pop)
  {
  }

  /**
   The component accumulator over the entities, in any query order and under any handles, is the
   canonical fold of what game logic sees.
   */
  lemma ComponentFoldIsViewFold<T(!new)>(h: Hashing<T>, pop: Pop, o: Order)
    requires Indexed(pop, o) && h.mixer.Lawful()
    ensures Fold(h.mixer, Contributions(h, pop, o), Carriers(pop)) == FoldBelow(h, Bodies(pop, o.sorted), |o.sorted|)
  {
    FoldByIndex(h, pop, o, |o.sorted|);
    AllBelowCount(pop, o);
  }

  /** One index may be taken out of the fold: its hash, tagged with the index, and the fold of the rest. */
  lemma {:induction false} TakeOut<T(!new)>(h: Hashing<T>, bodies: map<int, Option<Value>>, i: int, n: nat)
    requires h.mixer.Lawful() && 0 <= i < n && Carries(bodies, i)
    ensures FoldBelow(h, bodies, n)
            == h.mixer.op(h.tagged(i, h.component(bodies[i].value)), FoldBelow(h, bodies - {i}, n))
  {
    var rest := bodies - {i};
    if i < n - 1 {
      TakeOut(h, bodies, i, n - 1);
      if Carries(bodies, n - 1) {
        SwapFirst(h.mixer, Tagged(h, n - 1, bodies[n - 1].value), Tagged(h, i, bodies[i].value),
                  FoldBelow(h, rest, n - 1));
      }
    } else {
      SameBelow(h, bodies, rest, n - 1);
    }
  }

  /**
   The accumulator, with no order in it: every carrier's component hash, tagged with the carrier's own
   registration index, combined over the set of carriers.
   */
  lemma {:induction false} AccumulatorIsFold<T(!new)>(h: Hashing<T>, bodies: map<int, Option<Value>>, n: nat,
                                                      f: int -> T)
    requires h.mixer.Lawful()
    requires forall i :: 0 <= i < n && Carries(bodies, i) ==> f(i) == h.tagged(i, h.component(bodies[i].value))
    ensures FoldBelow(h, bodies, n) == Fold(h.mixer, f, set i | 0 <= i < n && Carries(bodies, i))
  {
    var carriers := set i | 0 <= i < n && Carries(bodies, i);
    if n == 0 {
      assert carriers == {};
    } else {
      var below := set i | 0 <= i < n - 1 && Carries(bodies, i);
      AccumulatorIsFold(h, bodies, n - 1, f);
      if Carries(bodies, n - 1) {
        FoldAnyOrder(h.mixer, f, carriers, n - 1);
        assert carriers - {n - 1} == below;
      } else {
        assert carriers == below;
      }
    }
  }

  /** A change to one entity's component changes the accumulator exactly when it changes its tagged hash. */
  lemma OneChangeShows<T(!new)>(h: Hashing<T>, bodies: map<int, Option<Value>>, i: int, value: Value, n: nat)
    requires h.mixer.Lawful() && 0 <= i < n && Carries(bodies, i)
    ensures FoldBelow(h, bodies, n) == FoldBelow(h, bodies[i := Some(value)], n)
            <==> h.tagged(i, h.component(bodies[i].value)) == h.tagged(i, h.component(value))
  {
    var changed := bodies[i := Some(value)];
    TakeOut(h, bodies, i, n);
    TakeOut(h, changed, i, n);
    assert changed - {i} == bodies - {i};
    CancelRight(h.mixer, h.tagged(i, h.component(bodies[i].value)), h.tagged(i, h.component(value)),
                FoldBelow(h, bodies - {i}, n));
  }

  /**
   Two entities that exchange their components. The accumulator misses it exactly when the two tagged
   hashes combine to the same word both ways round; without tags it always would.
   */
  lemma SwapShows<T(!new)>(h: Hashing<T>, bodies: map<int, Option<Value>>, i: int, j: int, n: nat)
    requires h.mixer.Lawful() && 0 <= i < n && 0 <= j < n && i != j && Carries(bodies, i) && Carries(bodies, j)
    ensures var a, b := h.component(bodies[i].value), h.component(bodies[j].value);
            FoldBelow(h, bodies, n) == FoldBelow(h, bodies[i := bodies[j]][j := bodies[i]], n)
            <==> h.mixer.op(h.tagged(i, a), h.tagged(j, b)) == h.mixer.op(h.tagged(i, b), h.tagged(j, a))
  {
    var swapped := bodies[i := bodies[j]][j := bodies[i]];
    TakeOutTwo(h, bodies, i, j, n);
    TakeOutTwo(h, swapped, i, j, n);
    assert swapped - {i} - {j} == bodies - {i} - {j};
    var a, b := h.component(bodies[i].value), h.component(bodies[j].value);
    CancelRight(h.mixer, h.mixer.op(h.tagged(i, a), h.tagged(j, b)), h.mixer.op(h.tagged(i, b), h.tagged(j, a)),
                FoldBelow(h, bodies - {i} - {j}, n));
  }

  lemma TakeOutTwo<T(!new)>(h: Hashing<T>, bodies: map<int, Option<Value>>, i: int, j: int, n: nat)
    requires h.mixer.Lawful() && 0 <= i < n && 0 <= j < n && i != j && Carries(bodies, i) && Carries(bodies, j)
    ensures FoldBelow(h, bodies, n)
            == h.mixer.op(h.mixer.op(h.tagged(i, h.component(bodies[i].value)),
                                     h.tagged(j, h.component(bodies[j].value))),
                          FoldBelow(h, bodies - {i} - {j}, n))
  {
    TakeOut(h, bodies, i, n);
    TakeOut(h, bodies - {i}, j, n);
    assert h.mixer.LawAt(h.tagged(i, h.component(bodies[i].value)), h.tagged(j, h.component(bodies[j].value)),
                         FoldBelow(h, bodies - {i} - {j}, n));
  }

  lemma CancelRight<T(!new)>(m: Mixer<T>, a: T, b: T, c: T)
    requires m.Lawful()
    ensures m.op(a, c) == m.op(b, c) <==> a == b
  {
    assert m.LawAt(a, c, c) && m.LawAt(b, c, c);
    Cancel(m, a, b, c);
  }

  lemma {:induction false} SameBelow<T(!new)>(h: Hashing<T>, a: map<int, Option<Value>>, b: map<int, Option<Value>>,
                                              n: nat)
    requires forall i :: 0 <= i < n ==> Get(a, i) == Get(b, i)
    ensures FoldBelow(h, a, n) == FoldBelow(h, b, n)
  {
    if n > 0 {
      SameBelow(h, a, b, n - 1);
      assert Get(a, n - 1) == Get(b, n - 1);
    }
  }

  // ---- The entity checksum --------------------------------------------------------------------

  ghost function IndexOf(pop: Pop, o: Order): map<Entity, int> {
    map e | e in VisibleEntities(pop) && pop[e].rid in o.order :: o.order[pop[e].rid]
  }

  lemma IndexOfHit(pop: Pop, o: Order, i: int)
    requires Indexed(pop, o) && i in Bodies(pop, o.sorted)
    ensures i in IndexOf(pop, o).Values
  {
    var e := Find(pop, o.sorted[i]).value;
    assert e in IndexOf(pop, o) && IndexOf(pop, o)[e] == i;
  }

  lemma IndexOfInto(pop: Pop, o: Order, i: int)
    requires Indexed(pop, o) && i in IndexOf(pop, o).Values
    ensures i in Bodies(pop, o.sorted)
  {
  }

  lemma IndexOfOnto(pop: Pop, o: Order)
    requires Indexed(pop, o)
    ensures forall i :: i in IndexOf(pop, o).Values <==> i in Bodies(pop, o.sorted)
  {
    forall i ensures i in IndexOf(pop, o).Values <==> i in Bodies(pop, o.sorted) {
      if i in IndexOf(pop, o).Values { IndexOfInto(pop, o, i); }
      if i in Bodies(pop, o.sorted) { IndexOfHit(pop, o, i); }
    }
  }

  lemma IndexOfKeys(pop: Pop, o: Order)
    requires Indexed(pop, o)
    ensures IndexOf(pop, o).Keys == VisibleEntities(pop)
  {
  }

  lemma IndexOfInjective(pop: Pop, o: Order)
    requires Indexed(pop, o)
    ensures forall a, b :: a in IndexOf(pop, o) && b in IndexOf(pop, o) ==>
              (IndexOf(pop, o)[a] == IndexOf(pop, o)[b] ==> a == b)
  {
  }

  lemma {:induction false} InjectiveCount<K, V>(f: map<K, V>)
    requires forall a, b :: a in f && b in f && f[a] == f[b] ==> a == b
    ensures |f.Keys| == |f.Values|
    decreases |f.Keys|
  {
    if f.Keys == {} {
      assert f.Values == {};
    } else {
      var k :| k in f;
      var g := f - {k};
      assert g.Keys == f.Keys - {k};
      forall v | v in f.Values && v != f[k] ensures v in g.Values {
        var j :| j in f && f[j] == v;
        assert g[j] == v;
      }
      assert f.Values == g.Values + {f[k]};
      assert f[k] !in g.Values;
      InjectiveCount(g);
    }
  }

  /** As many visible entities as entries in the view. */
  lemma VisibleCount(pop: Pop, o: Order)
    requires Indexed(pop, o)
    ensures |VisibleEntities(pop)| == |Bodies(pop, o.sorted)|
  {
    IndexOfKeys(pop, o);
    IndexOfInjective(pop, o);
    InjectiveCount(IndexOf(pop, o));
    ValuesCount(pop, o);
  }

  lemma ValuesCount(pop: Pop, o: Order)
    requires Indexed(pop, o)
    ensures |IndexOf(pop, o).Values| == |Bodies(pop, o.sorted)|
  {
    IndexOfOnto(pop, o);
    SameMembers(IndexOf(pop, o).Values, Bodies(pop, o.sorted).Keys);
  }

  // ---- The total ------------------------------------------------------------------------------

  ghost function ComponentPart<T(!new)>(h: Hashing<T>, v: View): Wide<T> {
    Widened(h.mixer, h.folded(FoldBelow(h, v.bodies, v.count)))
  }

  ghost function EntityPart<T(!new)>(h: Hashing<T>, v: View): Wide<T> {
    Widened(h.mixer, h.counts(|v.bodies|, v.count))
  }

  /** The parts that the plugins contribute, as functions of what game logic sees. */
  ghost function Parts<T(!new)>(h: Hashing<T>, v: View): seq<Wide<T>> {
    [ComponentPart(h, v), EntityPart(h, v)]
  }

  /** The checksum of a frame, as a function of the view alone. */
  ghost function ChecksumOf<T(!new)>(h: Hashing<T>, v: View): Wide<T> {
    FoldSeq(Doubled(h.mixer), Parts(h, v))
  }

  /**
   The total, written out: a word of twice the width whose high half is neutral and whose low half
   combines the hash of the component accumulator with the hash of the two counts.
   */
  lemma TotalIs<T(!new)>(h: Hashing<T>, v: View)
    requires h.mixer.Lawful()
    ensures ChecksumOf(h, v)
            == Wide(h.mixer.unit,
                    h.mixer.op(h.folded(FoldBelow(h, v.bodies, v.count)), h.counts(|v.bodies|, v.count)))
  {
    var m, a, b := h.mixer, ComponentPart(h, v), EntityPart(h, v);
    assert [a, b][..1] == [a] && [a][..0] == [];
    assert FoldSeq(Doubled(m), [a]) == Doubled(m).op(a, FoldSeq(Doubled(m), []));
    assert m.LawAt(m.unit, m.unit, m.unit) && m.LawAt(a.low, b.low, m.unit) && m.LawAt(m.unit, a.low, a.low);
  }

  /**
   What the total shows. Between game states with the same counts it changes exactly when the hash of
   the component accumulator does; with the same accumulator hash, exactly when the hash of the counts does.
   */
  lemma TotalShows<T(!new)>(h: Hashing<T>, v: View, v': View)
    requires h.mixer.Lawful()
    ensures |v.bodies| == |v'.bodies| && v.count == v'.count ==>
              (ChecksumOf(h, v) == ChecksumOf(h, v')
               <==> h.folded(FoldBelow(h, v.bodies, v.count)) == h.folded(FoldBelow(h, v'.bodies, v'.count)))
    ensures h.folded(FoldBelow(h, v.bodies, v.count)) == h.folded(FoldBelow(h, v'.bodies, v'.count)) ==>
              (ChecksumOf(h, v) == ChecksumOf(h, v')
               <==> h.counts(|v.bodies|, v.count) == h.counts(|v'.bodies|, v'.count))
  {
    var m := h.mixer;
    var a, a' := h.folded(FoldBelow(h, v.bodies, v.count)), h.folded(FoldBelow(h, v'.bodies, v'.count));
    var b, b' := h.counts(|v.bodies|, v.count), h.counts(|v'.bodies|, v'.count);
    TotalIs(h, v);
    TotalIs(h, v');
    CancelRight(m, a, a', b);
    Cancel(m, b, b', a);
  }

  // ---- What saves report ------------------------------------------------------------------------

  /** What a save hands to the session: its frame and the checksum of the game state. */
  datatype Cell<!T(!new)> = Cell(frame: int, checksum: Wide<T>)

  ghost function CellsOf<T(!new)>(h: Hashing<T>, v: World, request: Request): seq<Cell<T>> {
    if request.Save? then [Cell(v.frame, ChecksumOf(h, ViewOf(v)))] else []
  }

  /** Everything the saves of a run report, in order. */
  ghost function Reports<T(!new)>(h: Hashing<T>, cfg: Config, w0: World, es: seq<Event>): seq<Cell<T>> {
    if es == [] then []
    else
      var front := es[..|es| - 1];
      match RunFrom(cfg, w0, front)
      case Running(v) => Reports(h, cfg, w0, front) + CellsOf(h, v, es[|es| - 1].request)
      case Panicked => Reports(h, cfg, w0, front)
  }

  /** What one more event adds. */
  lemma ReportsAppended<T(!new)>(h: Hashing<T>, cfg: Config, w0: World, es: seq<Event>, ev: Event)
    ensures Reports(h, cfg, w0, es + [ev]) ==
            Reports(h, cfg, w0, es)
            + if RunFrom(cfg, w0, es).Running? then CellsOf(h, RunFrom(cfg, w0, es).world, ev.request) else []
  {
    assert (es + [ev])[..|es + [ev]| - 1] == es;
  }

  function SavesIn(es: seq<Event>): nat {
    if es == [] then 0 else SavesIn(es[..|es| - 1]) + if es[|es| - 1].request.Save? then 1 else 0
  }

  lemma {:induction false} ReportsCount<T(!new)>(h: Hashing<T>, cfg: Config, w0: World, es: seq<Event>)
    requires RunFrom(cfg, w0, es).Running?
    ensures |Reports(h, cfg, w0, es)| == SavesIn(es)
  {
    if es != [] {
      ReportsCount(h, cfg, w0, es[..|es| - 1]);
    }
  }

  /**
   The n-th report is that of the n-th save: of the frame and the game state of the moment, whatever is
   loaded or saved again afterwards. There are no other reports.
   */
  lemma {:induction false} EverySaveIsReported<T(!new)>(h: Hashing<T>, cfg: Config, w0: World, es: seq<Event>, k: nat)
    requires k < |es| && es[k].request.Save? && RunFrom(cfg, w0, es).Running?
    ensures RunFrom(cfg, w0, es[..k]).Running? && |Reports(h, cfg, w0, es)| == SavesIn(es)
    ensures var n, v := SavesIn(es[..k]), RunFrom(cfg, w0, es[..k]).world;
            n < |Reports(h, cfg, w0, es)| && Reports(h, cfg, w0, es)[n] == Cell(v.frame, ChecksumOf(h, ViewOf(v)))
  {
    var front := es[..|es| - 1];
    ReportsCount(h, cfg, w0, es);
    ReportsCount(h, cfg, w0, front);
    if k < |front| {
      assert front[..k] == es[..k];
      EverySaveIsReported(h, cfg, w0, front, k);
    }
  }

  // ---- The checksum systems ---------------------------------------------------------------------

  /** The component checksum: an accumulator over the query, in any order, hashed once more at the end. */
  method ComponentChecksum<T(!new)>(h: Hashing<T>, pop: Pop, o: Order) returns (part: Wide<T>)
    requires Indexed(pop, o) && h.mixer.Lawful()
    ensures part == Widened(h.mixer, h.folded(FoldBelow(h, Bodies(pop, o.sorted), |o.sorted|)))
  {
    var result := h.mixer.unit;
    var todo := Carriers(pop);
    ghost var f := Contributions(h, pop, o);
    FoldDone(h.mixer, Fold(h.mixer, f, todo));
    while todo != {}
      invariant todo <= Carriers(pop)
      invariant h.mixer.op(result, Fold(h.mixer, f, todo)) == Fold(h.mixer, f, Carriers(pop))
      decreases todo
    {
      var e :| e in todo;
      assert Visible(pop, e);
      var hash := h.tagged(o.order[pop[e].rid], h.component(pop[e].value.value));
      FoldAnyOrder(h.mixer, f, todo, e);
      MoveOver(h.mixer, result, f(e), Fold(h.mixer, f, todo - {e}));
      result := h.mixer.op(result, hash);
      todo := todo - {e};
    }
    FoldDone(h.mixer, result);
    ComponentFoldIsViewFold(h, pop, o);
    part := Widened(h.mixer, h.folded(result));
  }

  lemma MoveOver<T(!new)>(m: Mixer<T>, a: T, b: T, c: T)
    requires m.Lawful()
    ensures m.op(a, m.op(b, c)) == m.op(m.op(a, b), c)
  {
    assert m.LawAt(a, b, c);
  }

  lemma FoldDone<T(!new)>(m: Mixer<T>, a: T)
    requires m.Lawful()
    ensures m.op(a, m.unit) == a
    ensures m.op(m.unit, a) == a
  {
    assert m.LawAt(a, m.unit, a);
  }

  /** The entity checksum: how many rollback entities there are, and how many there ever were. */
  method EntityChecksum<T(!new)>(h: Hashing<T>, pop: Pop, o: Order) returns (part: Wide<T>)
    requires Indexed(pop, o)
    ensures part == Widened(h.mixer, h.counts(|Bodies(pop, o.sorted)|, |o.sorted|))
  {
    VisibleCount(pop, o);
    RegisterCount(o);
    part := Widened(h.mixer, h.counts(|VisibleEntities(pop)|, |o.order|));
  }

  lemma RegisterCount(o: Order)
    requires Bijective(o)
    ensures |o.order| == |o.sorted|
  {
    InjectiveCount(o.order);
    forall i ensures i in o.order.Values <==> 0 <= i < |o.sorted| {
      if 0 <= i < |o.sorted| { assert o.order[o.sorted[i]] == i; }
    }
    IndexCount(o.order.Values, |o.sorted|);
    assert |o.order| == |o.order.Keys|;
  }

  lemma {:induction false} IndexCount(s: set<int>, n: nat)
    requires forall i :: i in s <==> 0 <= i < n
    ensures |s| == n
  {
    if n == 0 {
      forall i ensures i !in s {}
      assert s == {};
    } else {
      IndexCount(s - {n - 1}, n - 1);
    }
  }

  /** The total: the parts folded in whatever order the query yields them. */
  method FoldParts<T(!new)>(m: Mixer<T>, parts: seq<T>) returns (total: T)
    requires m.Lawful()
    ensures total == FoldSeq(m, parts)
    ensures forall other :: multiset(other) == multiset(parts) ==> total == FoldSeq(m, other)
  {
    total := m.unit;
    var i := 0;
    assert parts[..0] == [];
    while i < |parts|
      invariant i <= |parts|
      invariant total == FoldSeq(m, parts[..i])
    {
      assert parts[..i + 1][..i] == parts[..i];
      assert m.LawAt(total, parts[i], parts[i]);
      total := m.op(total, parts[i]);
      i := i + 1;
    }
    assert parts[..i] == parts;
    forall other | multiset(other) == multiset(parts) ensures total == FoldSeq(m, other) {
      FoldSeqIgnoresOrder(m, parts, other);
    }
  }
}
