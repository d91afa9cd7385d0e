/**
 References to entities over whole runs: what a component, a resource or a stored snapshot refers to
 is never a handle that is still to be handed out, and a saved reference to somebody the snapshot
 knows is to the handle the snapshot has for them.
 */
module References {
  import opened Prelude
  import opened Population
  import opened SnapshotQueue
  import opened WorldModel
  import opened Soundness
  import opened Reconciliation
  import opened Restoration
  import opened Runs
  import opened Hierarchy

  /** A handle that a snapshot holds: an old one, and whoever it means is saved under it or not at all. */
  ghost predicate SavedHandle(s: Snapshot, e: Entity, pop: Pop, next: nat) {
    e.id < next && (e in pop && pop[e].rid in s.entities ==> s.entities[pop[e].rid] == e)
  }

  ghost predicate SavedReferences(s: Snapshot, pop: Pop, next: nat) {
    && (forall x :: x in s.likes ==> SavedHandle(s, s.likes[x], pop, next))
    && (s.favourite.Some? ==> SavedHandle(s, s.favourite.value, pop, next))
  }

  ghost predicate HistoryReferences(h: seq<Entry<Snapshot>>, pop: Pop, next: nat) {
    forall i :: 0 <= i < |h| ==> SavedReferences(h[i].data, pop, next)
  }

  ghost predicate ReferenceSafe(w: World) {
    LikesOld(w.pop, w.next) && HandleOld(w.favourite, w.next) && HistoryReferences(w.history, w.pop, w.next)
  }

  // ---- Saving --------------------------------------------------------------------------------

  lemma CaptureReferences(cfg: Config, w: World)
    requires Distinct(w.pop) && LikesOld(w.pop, w.next) && HandleOld(w.favourite, w.next)
    ensures SavedReferences(Capture(cfg, w), w.pop, w.next)
  {
  }

  lemma RecordedReferences(h: seq<Entry<Snapshot>>, confirmed: int, frame: int, s: Snapshot, depth: nat, pop: Pop,
                           next: nat)
    requires Chronological(h, frame) && HistoryReferences(h, pop, next) && SavedReferences(s, pop, next)
    ensures HistoryReferences(Recorded(h, confirmed, frame, s, depth), pop, next)
  {
    var drop := RecordedShape(h, confirmed, frame, s, depth);
    var r := Recorded(h, confirmed, frame, s, depth);
    forall i | 0 <= i < |r| ensures SavedReferences(r[i].data, pop, next) {
      assert i > 0 ==> r[i] == h[i - 1 + drop];
    }
  }

  lemma SaveReferenceSafe(cfg: Config, w: World)
    requires Sound(w) && ReferenceSafe(w)
    ensures ReferenceSafe(SaveWorld(cfg, w))
  {
    CaptureReferences(cfg, w);
    RecordedReferences(w.history, w.confirmed, w.frame, Capture(cfg, w), w.window, w.pop, w.next);
  }

  // ---- Advancing -----------------------------------------------------------------------------

  /** Whoever is there was there before, as the same, or is new. */
  ghost predicate KeepsIds(pop: Pop, next: nat, p: Pop) {
    forall e :: e in p ==> (e in pop && p[e].rid == pop[e].rid) || e.id >= next
  }

  lemma KeptReferences(h: seq<Entry<Snapshot>>, pop: Pop, next: nat, p: Pop, next': nat)
    requires HistoryReferences(h, pop, next) && KeepsIds(pop, next, p) && next <= next'
    ensures HistoryReferences(h, p, next')
  {
    forall i | 0 <= i < |h| ensures SavedReferences(h[i].data, p, next') {
      assert SavedReferences(h[i].data, pop, next);
    }
  }

  lemma ResolvedOld(w: World, l: nat)
    requires PopSound(w.pop, w.next)
    ensures HandleOld(Resolve(w, l), w.next)
  {
  }

  lemma BodyReferences(w: World, e: Entity, b: Body)
    requires LikesOld(w.pop, w.next) && e in w.pop && b.rid == w.pop[e].rid && HandleOld(b.likes, w.next)
    ensures LikesOld(w.pop[e := b], w.next) && KeepsIds(w.pop, w.next, w.pop[e := b])
  {
  }

  lemma ExecuteReferences(w: World, c: Command)
    requires PopSound(w.pop, w.next) && LikesOld(w.pop, w.next) && HandleOld(w.favourite, w.next)
    ensures var w' := Execute(w, c);
            && w.next <= w'.next && LikesOld(w'.pop, w'.next) && HandleOld(w'.favourite, w'.next)
            && KeepsIds(w.pop, w.next, w'.pop)
  {
    match c
    case Spawn(_, _, _) =>
    case SetValue(t, v) =>
      if Resolve(w, t).Some? { BodyReferences(w, Resolve(w, t).value, w.pop[Resolve(w, t).value].(value := Some(v))); }
    case ClearValue(t) =>
      if Resolve(w, t).Some? { BodyReferences(w, Resolve(w, t).value, w.pop[Resolve(w, t).value].(value := None)); }
    case SetLikes(t, l) =>
      ResolvedOld(w, l);
      if Resolve(w, t).Some? {
        BodyReferences(w, Resolve(w, t).value, w.pop[Resolve(w, t).value].(likes := Resolve(w, l)));
      }
    case Despawn(_) =>
    case DespawnRollback(_) =>
    case SetResource(_) =>
    case ClearResource =>
    case SetFavourite(l) => ResolvedOld(w, l);
  }

  lemma ExecuteReferenceSafe(w: World, c: Command)
    requires Live(w) && ReferenceSafe(w)
    ensures ReferenceSafe(Execute(w, c))
  {
    ExecuteReferences(w, c);
    ExecuteKeepsSession(w, c);
    KeptReferences(w.history, w.pop, w.next, Execute(w, c).pop, Execute(w, c).next);
  }

  lemma {:induction false} ExecuteAllReferenceSafe(w: World, cs: seq<Command>)
    requires Live(w) && ReferenceSafe(w)
    ensures ReferenceSafe(ExecuteAll(w, cs))
  {
    if cs != [] {
      var front := cs[..|cs| - 1];
      ExecuteAllReferenceSafe(w, front);
      ExecuteAllKeepsLive(w, front);
      ExecuteReferenceSafe(ExecuteAll(w, front), cs[|cs| - 1]);
    }
  }

  lemma BeforeLogicReferenceSafe(cfg: Config, w: World)
    requires ReferenceSafe(w) && CanAdvance(cfg, w)
    ensures ReferenceSafe(BeforeLogic(cfg, w))
  {
    KeptReferences(w.history, w.pop, w.next, BeforeLogic(cfg, w).pop, w.next);
  }

  lemma AdvanceReferenceSafe(cfg: Config, w: World, input: Input)
    requires Sound(w) && ReferenceSafe(w) && CanAdvance(cfg, w)
    ensures ReferenceSafe(AdvanceWorld(cfg, w, input))
  {
    var w1 := BeforeLogic(cfg, w);
    BeforeLogicReferenceSafe(cfg, w);
    BeforeLogicIsLive(cfg, w);
    ExecuteAllReferenceSafe(w1, cfg.logic(ViewOf(w1), input));
  }

  // ---- Loading -------------------------------------------------------------------------------

  /** The entity map leads to handles that have been handed out by the end of the load. */
  lemma MappedOld(pop: Pop, next: nat, frame: int, s: Snapshot, c: Choice, e: Entity)
    requires Loadable(pop, next, frame, s, c) && e in EntityMapOf(pop, s.entities, c.spawned)
    ensures EntityMapOf(pop, s.entities, c.spawned)[e].id < c.next
  {
    if e in Survivors(pop, s.entities) {
      SurvivorKey(pop, next, frame, s, c, e);
    } else {
      EntityMapKeys(pop, next, frame, s, c, e);
      var x :| x in c.spawned && x in s.entities && s.entities[x] == e;
      RespawnKey(pop, next, frame, s, c, x);
    }
  }

  lemma MappedReferenceOld(pop: Pop, next: nat, frame: int, s: Snapshot, c: Choice, r: Option<Entity>)
    requires Loadable(pop, next, frame, s, c) && HandleOld(r, c.next)
    ensures HandleOld(MappedReference(EntityMapOf(pop, s.entities, c.spawned), r), c.next)
  {
    if r.Some? && r.value in EntityMapOf(pop, s.entities, c.spawned) {
      MappedOld(pop, next, frame, s, c, r.value);
    }
  }

  lemma ReconciledLikesOld(pop: Pop, next: nat, frame: int, s: Snapshot, c: Choice, e: Entity)
    requires Loadable(pop, next, frame, s, c) && LikesOld(pop, next)
    requires e in Reconciled(pop, s.entities, c.spawned)
    ensures HandleOld(Reconciled(pop, s.entities, c.spawned)[e].likes, c.next)
  {
    ReconciledAt(pop, next, frame, s, c, e);
  }

  lemma SavedLikesOld(s: Snapshot, pop: Pop, next: nat, x: RollbackId, next': nat)
    requires SavedReferences(s, pop, next) && next <= next'
    ensures HandleOld(Get(s.likes, x), next')
  {
  }

  /** The reference that a component holds after the load. */
  lemma LoadedLikesAt(cfg: Config, pop: Pop, next: nat, frame: int, s: Snapshot, c: Choice, e: Entity)
    requires Loadable(pop, next, frame, s, c) && LikesOld(pop, next) && SavedReferences(s, pop, next)
    requires e in Reconciled(pop, s.entities, c.spawned)
    ensures e in LoadedPop(cfg, pop, s, c.spawned) && HandleOld(LoadedPop(cfg, pop, s, c.spawned)[e].likes, c.next)
  {
    var b := Reconciled(pop, s.entities, c.spawned)[e];
    LoadedAt(cfg, pop, s, c.spawned, e);
    ReconciledLikesOld(pop, next, frame, s, c, e);
    SavedLikesOld(s, pop, next, b.rid, c.next);
    MappedReferenceOld(pop, next, frame, s, c, if b.mark.None? then Get(s.likes, b.rid) else b.likes);
  }

  lemma LoadedLikesOld(cfg: Config, pop: Pop, next: nat, frame: int, s: Snapshot, c: Choice)
    requires Loadable(pop, next, frame, s, c) && LikesOld(pop, next) && SavedReferences(s, pop, next)
    ensures LikesOld(LoadedPop(cfg, pop, s, c.spawned), c.next)
  {
    LoadedIdentity(cfg, pop, s, c.spawned);
    forall e | e in LoadedPop(cfg, pop, s, c.spawned)
      ensures HandleOld(LoadedPop(cfg, pop, s, c.spawned)[e].likes, c.next)
    {
      LoadedLikesAt(cfg, pop, next, frame, s, c, e);
    }
  }

  lemma LoadedKeepsIds(cfg: Config, pop: Pop, next: nat, frame: int, s: Snapshot, c: Choice)
    requires Loadable(pop, next, frame, s, c)
    ensures KeepsIds(pop, next, LoadedPop(cfg, pop, s, c.spawned))
  {
    LoadedIdentity(cfg, pop, s, c.spawned);
    FreshIsNew(pop, next, frame, s, c);
    forall e | e in LoadedPop(cfg, pop, s, c.spawned)
      ensures (e in pop && LoadedPop(cfg, pop, s, c.spawned)[e].rid == pop[e].rid) || e.id >= next
    {
      ReconciledAt(pop, next, frame, s, c, e);
    }
  }

  lemma ResurrectedReferences(h: seq<Entry<Snapshot>>, pop: Pop, next: nat, r: int)
    requires LikesOld(pop, next) && HistoryReferences(h, pop, next)
    ensures LikesOld(Resurrected(pop, r), next) && HistoryReferences(h, Resurrected(pop, r), next)
  {
    KeptReferences(h, pop, next, Resurrected(pop, r), next);
  }

  lemma SuffixReferences(h: seq<Entry<Snapshot>>, n: nat, pop: Pop, next: nat)
    requires n <= |h| && HistoryReferences(h, pop, next)
    ensures HistoryReferences(h[n..], pop, next)
  {
  }

  /** What a load relies on about references. */
  lemma ReferencesBeforeLoad(w: World, r: int)
    requires ReferenceSafe(w) && Chronological(w.history, w.frame) && RolledBack(w.history, r) != []
    ensures LikesOld(BeforeReconcile(w, r), w.next)
    ensures SavedReferences(RolledBack(w.history, r)[0].data, BeforeReconcile(w, r), w.next)
    ensures HistoryReferences(RolledBack(w.history, r), BeforeReconcile(w, r), w.next)
  {
    var n := RolledBackIndex(w.history, r, w.frame);
    ResurrectedReferences(w.history, w.pop, w.next, r);
    SuffixReferences(w.history, n, BeforeReconcile(w, r), w.next);
    assert SavedReferences(RolledBack(w.history, r)[0].data, BeforeReconcile(w, r), w.next);
  }

  lemma LoadReferenceSafe(cfg: Config, w: World, r: int, c: Choice)
    requires Sound(w) && ReferenceSafe(w) && CanLoad(w, r, c)
    ensures ReferenceSafe(LoadWorld(cfg, w, r, c))
  {
    var pop, s := BeforeReconcile(w, r), RolledBack(w.history, r)[0].data;
    LoadStarts(w, r, c);
    ReferencesBeforeLoad(w, r);
    LoadedLikesOld(cfg, pop, w.next, r, s, c);
    LoadedKeepsIds(cfg, pop, w.next, r, s, c);
    MappedReferenceOld(pop, w.next, r, s, c, s.favourite);
    KeptReferences(RolledBack(w.history, r), pop, w.next, LoadWorld(cfg, w, r, c).pop, c.next);
    assert w.next <= c.next;
  }

  // ---- Whole runs ----------------------------------------------------------------------------

  lemma EnterReferenceSafe(v: World, s: Session)
    requires ReferenceSafe(v)
    ensures ReferenceSafe(Enter(v, s))
  {
  }

  lemma StepReferenceSafe(cfg: Config, v: World, ev: Event, horizon: int)
    requires RunInvariant(cfg, v, horizon) && Permitted(v, horizon, ev) && ReferenceSafe(v)
    ensures Step(cfg, v, ev).Running? && ReferenceSafe(Step(cfg, v, ev).world)
  {
    var w := Enter(v, ev.session);
    StepServes(cfg, v, ev, horizon);
    EnterReferenceSafe(v, ev.session);
    match ev.request
    case Save => SaveReferenceSafe(cfg, w);
    case Advance(i) => AdvanceReferenceSafe(cfg, w, i);
    case Load(r) => LoadReferenceSafe(cfg, w, r, ev.choice);
  }

  /** What references may be relied on: links are safe, and so are all other references. */
  ghost predicate Coherent(w: World) {
    LinkSafe(w) && ReferenceSafe(w)
  }

  /** Over every run, references are to handles that have been handed out, and snapshots use their own handles. */
  lemma {:induction false} RunsAreCoherent(cfg: Config, w0: World, es: seq<Event>)
    requires Conforming(cfg, w0, es)
    ensures RunFrom(cfg, w0, es).Running? && Coherent(RunFrom(cfg, w0, es).world)
  {
    RunsAreLinkSafe(cfg, w0, es);
    if es != [] {
      var front := es[..|es| - 1];
      RunsAreCoherent(cfg, w0, front);
      RunNeverPanics(cfg, w0, front);
      StepReferenceSafe(cfg, RunFrom(cfg, w0, front).world, es[|es| - 1], Horizon(cfg, w0, front));
    }
  }
}
