/** What the invariant of every run means for the parts of the engine, whatever the game logic does. */
module RunProperties {
  import opened Prelude
  import opened Population
  import opened Ordering
  import opened SnapshotQueue
  import opened WorldModel
  import opened Soundness
  import opened Reconciliation
  import opened Restoration
  import opened Runs
  import opened Hierarchy
  import opened References
  import opened Bystanders
  import opened Stretches
  import opened Remapping
  import opened Recovery

  /**
   Stable order: in every reachable state the register is a bijection between ids and indices,
   the register of a stored frame is a prefix of every later one, and each visible entity has an
   index, respawned ones included, so looking it up never fails.
   */
  lemma OrderIsStable(cfg: Config, w0: World, es: seq<Event>)
    requires Conforming(cfg, w0, es)
    ensures RunFrom(cfg, w0, es).Running?
    ensures var w := RunFrom(cfg, w0, es).world;
            && Bijective(w.ordered)
            && (forall e :: Visible(w.pop, e) ==> w.pop[e].rid in w.ordered.order)
            && (forall i :: 0 <= i < |w.history| ==> w.history[i].data.ordered.sorted <= w.ordered.sorted)
            && (forall i, j :: 0 <= i < j < |w.history| ==>
                  w.history[j].data.ordered.sorted <= w.history[i].data.ordered.sorted)
  {
    RunNeverPanics(cfg, w0, es);
  }

  /**
   Confirmed despawning over every run, on the session's own numbers: the despawn stage of a permitted
   advance removes exactly the entities that were marked at or before the confirmed frame that the
   session reports, and after the advance every remaining mark is above it. The cached early return
   does what an unconditional scan would do, also when the confirmed frame has moved backwards.
   */
  lemma ConfirmedMarksAreGone(cfg: Config, w0: World, es: seq<Event>, ev: Event)
    requires Conforming(cfg, w0, es)
    requires RunFrom(cfg, w0, es).Running? ==> Permitted(RunFrom(cfg, w0, es).world, Horizon(cfg, w0, es), ev)
    requires ev.request.Advance?
    ensures RunFrom(cfg, w0, es).Running?
    ensures var v := Enter(RunFrom(cfg, w0, es).world, ev.session);
            CanAdvance(cfg, v)
            && DespawnConfirmed(Tick(cfg, v)).pop == Despawned(v.pop, ConfirmedGone(v.pop, v.confirmed))
    ensures Step(cfg, RunFrom(cfg, w0, es).world, ev).Running?
    ensures var w := Step(cfg, RunFrom(cfg, w0, es).world, ev).world;
            forall e :: e in w.pop && w.pop[e].mark.Some? ==> w.confirmed < w.pop[e].mark.value <= w.frame
    ensures var v := RunFrom(cfg, w0, es).world;
            ClearsAsReported(v, BeforeLogic(cfg, Enter(v, ev.session)).pop, Step(cfg, v, ev).world.pop, ev.session)
  {
    RunNeverPanics(cfg, w0, es);
    RunsAreTidy(cfg, w0, es);
    var v := RunFrom(cfg, w0, es).world;
    StepServes(cfg, v, ev, Horizon(cfg, w0, es));
    AdvanceLeavesNoMark(cfg, Enter(v, ev.session), ev.request.input);
    AdvanceClears(cfg, v, ev.session, ev.request.input);
  }

  /** From `v`, exactly what was marked by frame `c` has been despawned, and no mark that early is left in the end. */
  ghost predicate ClearsUpTo(v: World, despawned: Pop, end: Pop, c: int) {
    despawned == Unmarked(v.pop, c) && MarkedAfter(end, c, v.frame + 1)
  }

  /** The frame is the one that the session reports as confirmed. */
  ghost predicate ClearsAsReported(v: World, despawned: Pop, end: Pop, s: Session) {
    match s
    case P2P(_, c) => ClearsUpTo(v, despawned, end, c)
    case SyncTest(_, d) => v.frame >= d ==> ClearsUpTo(v, despawned, end, v.frame - d)
    case Spectator => ClearsUpTo(v, despawned, end, v.frame)
    case NoSession => true
  }

  /** The entities without a mark at or before `c`. */
  ghost function Unmarked(pop: Pop, c: int): Pop {
    map e | e in pop && !(pop[e].mark.Some? && pop[e].mark.value <= c) :: pop[e]
  }

  ghost predicate MarkedAfter(pop: Pop, c: int, frame: int) {
    forall e :: e in pop && pop[e].mark.Some? ==> c < pop[e].mark.value <= frame
  }

  lemma DespawnIsUnmarked(pop: Pop, c: int)
    requires HiddenTogether(pop)
    ensures Despawned(pop, ConfirmedGone(pop, c)) == Unmarked(pop, c)
  {
    ConfirmedFamily(pop, c);
  }

  lemma AdvanceUnmarks(cfg: Config, w: World, input: Input)
    requires Sound(w) && HiddenTogether(w.pop) && CanAdvance(cfg, w)
    ensures BeforeLogic(cfg, w).pop == Unmarked(w.pop, w.confirmed)
    ensures MarkedAfter(AdvanceWorld(cfg, w, input).pop, w.confirmed, w.frame + 1)
  {
    AdvanceLeavesNoMark(cfg, w, input);
    AdvanceKeepsSound(cfg, w, input);
    DespawnIsUnmarked(w.pop, w.confirmed);
  }

  /** That is so in any sound world and under any session, spectators included. */
  lemma AdvanceClears(cfg: Config, v: World, s: Session, input: Input)
    requires Sound(v) && HiddenTogether(v.pop) && CanAdvance(cfg, Enter(v, s))
    ensures ClearsAsReported(v, BeforeLogic(cfg, Enter(v, s)).pop, AdvanceWorld(cfg, Enter(v, s), input).pop, s)
  {
    EnterSound(v, s);
    SessionTakesOver(v, s);
    AdvanceUnmarks(cfg, Enter(v, s), input);
  }

  lemma EnterSound(v: World, s: Session)
    requires Sound(v)
    ensures Sound(Enter(v, s))
  {
  }

  // ---- What the session reports ----------------------------------------------------------------

  /** The prediction window and the confirmed frame of a world are those the session reports. */
  ghost predicate TakenOver(v: World, w: World, s: Session) {
    match s
    case P2P(m, c) => w.window == m && w.confirmed == c
    case SyncTest(m, d) => w.window == m && w.confirmed == if v.frame >= d then v.frame - d else v.confirmed
    case Spectator => w.window == 0 && w.confirmed == v.frame
    case NoSession => w.window == v.window && w.confirmed == v.confirmed
  }

  lemma SessionTakesOver(v: World, s: Session)
    ensures TakenOver(v, Enter(v, s), s)
  {
  }

  /** After every request that is served, permitted or not. */
  lemma RequestTakesOver(cfg: Config, v: World, ev: Event)
    requires Step(cfg, v, ev).Running?
    ensures var w := Step(cfg, v, ev).world;
            match ev.session
            case P2P(m, c) => w.window == m && w.confirmed == c
            case SyncTest(m, d) => w.window == m && w.confirmed == if v.frame >= d then v.frame - d else v.confirmed
            case Spectator => w.window == 0 && w.confirmed == v.frame
            case NoSession => w.window == v.window && w.confirmed == v.confirmed
  {
    SessionTakesOver(v, ev.session);
    if ev.request.Advance? {
      var w1 := BeforeLogic(cfg, Enter(v, ev.session));
      LogicKeepsSession(w1, cfg.logic(ViewOf(w1), ev.request.input));
    }
  }

  /** A frame is stored. */
  ghost predicate Stores(h: seq<Entry<Snapshot>>, k: int) {
    exists i :: 0 <= i < |h| && h[i].frame == k
  }

  /** Of what was stored, a save keeps what is older, inside window `m` and not below frame `c`. */
  ghost predicate KeepsFrom(v: World, w: World, m: nat, c: int) {
    forall k :: Stores(w.history, k) <==>
                k == v.frame || (Stores(v.history, k) && k < v.frame && v.frame + 1 - m <= k && c <= k)
  }

  /** What one save keeps, frame by frame. */
  lemma RecordedStores(h: seq<Entry<Snapshot>>, confirmed: int, frame: int, s: Snapshot, depth: nat, k: int)
    requires Chronological(h, frame) && Contiguous(h, frame) && depth >= 1
    ensures Stores(Recorded(h, confirmed, frame, s, depth), k) <==>
            k == frame || (Stores(h, k) && k < frame && frame + 1 - depth <= k && confirmed <= k)
  {
    RecordedStoresNew(h, confirmed, frame, s, depth);
    if k != frame {
      if Stores(Recorded(h, confirmed, frame, s, depth), k) {
        RecordedStoresOld(h, confirmed, frame, s, depth, k);
      }
      if Stores(h, k) && k < frame && frame + 1 - depth <= k && confirmed <= k {
        var i :| 0 <= i < |h| && h[i].frame == k;
        RecordedKeeps(h, confirmed, frame, s, depth, h[i]);
      }
    }
  }

  lemma RecordedStoresNew(h: seq<Entry<Snapshot>>, confirmed: int, frame: int, s: Snapshot, depth: nat)
    requires Chronological(h, frame) && depth >= 1
    ensures Stores(Recorded(h, confirmed, frame, s, depth), frame)
  {
    var drop := RecordedShape(h, confirmed, frame, s, depth);
    assert Recorded(h, confirmed, frame, s, depth)[0].frame == frame;
  }

  lemma RecordedStoresOld(h: seq<Entry<Snapshot>>, confirmed: int, frame: int, s: Snapshot, depth: nat, k: int)
    requires Chronological(h, frame) && Contiguous(h, frame) && depth >= 1 && k != frame
    requires Stores(Recorded(h, confirmed, frame, s, depth), k)
    ensures Stores(h, k) && k < frame && frame + 1 - depth <= k && confirmed <= k
  {
    var r := Recorded(h, confirmed, frame, s, depth);
    var i :| 0 <= i < |r| && r[i].frame == k;
    RecordedContiguousFrames(h, confirmed, frame, s, depth);
    NearAll(h, frame);
    SavePrunes(h, confirmed, frame, s, depth);
    StoresIsHas(r, k);
    StoresIsHas(h, k);
    ContentsKey(r, k);
    ContentsKey(h, k);
  }

  lemma NearAll(h: seq<Entry<Snapshot>>, frame: int)
    requires Chronological(h, frame)
    ensures Decreasing(h) && Near(h, frame)
  {
  }

  lemma SaveKeepsFrom(cfg: Config, w: World)
    requires Chronological(w.history, w.frame) && Contiguous(w.history, w.frame) && w.window >= 1
    ensures KeepsFrom(w, SaveWorld(cfg, w), w.window, w.confirmed)
  {
    forall k ensures Stores(SaveWorld(cfg, w).history, k) <==>
        k == w.frame || (Stores(w.history, k) && k < w.frame && w.frame + 1 - w.window <= k && w.confirmed <= k)
    {
      RecordedStores(w.history, w.confirmed, w.frame, Capture(cfg, w), w.window, k);
    }
  }

  lemma StoresIsHas(h: seq<Entry<Snapshot>>, k: int)
    ensures Stores(h, k) <==> Has(h, 0, |h|, k)
  {
  }

  /**
   Saves prune, over every run and on the session's own numbers: after a permitted save the stored
   frames are the saved one and exactly those stored before that are older, inside the prediction
   window, and not below the confirmed frame.
   */
  lemma SavesPruneExactly(cfg: Config, w0: World, es: seq<Event>, ev: Event)
    requires Conforming(cfg, w0, es) && ev.request.Save?
    requires RunFrom(cfg, w0, es).Running? ==> Permitted(RunFrom(cfg, w0, es).world, Horizon(cfg, w0, es), ev)
    ensures RunFrom(cfg, w0, es).Running? && Step(cfg, RunFrom(cfg, w0, es).world, ev).Running?
    ensures var v := RunFrom(cfg, w0, es).world;
            var w := Step(cfg, v, ev).world;
            match ev.session
            case P2P(m, c) => KeepsFrom(v, w, m, c)
            case SyncTest(m, d) => KeepsFrom(v, w, m, if v.frame >= d then v.frame - d else v.confirmed)
            case _ => true
  {
    RunNeverPanics(cfg, w0, es);
    var v := RunFrom(cfg, w0, es).world;
    StepServes(cfg, v, ev, Horizon(cfg, w0, es));
    SessionTakesOver(v, ev.session);
    SaveKeepsFrom(cfg, Enter(v, ev.session));
  }

  lemma AdvanceLeavesNoMark(cfg: Config, w: World, input: Input)
    requires Sound(w) && CanAdvance(cfg, w)
    ensures DespawnConfirmed(Tick(cfg, w)).pop == Despawned(w.pop, ConfirmedGone(w.pop, w.confirmed))
    ensures var w' := AdvanceWorld(cfg, w, input);
            MarksSound(w'.pop, w'.confirmed, w'.frame)
  {
    TickKeepsSound(cfg, w);
    EarlyReturnAgreesWithScan(Tick(cfg, w));
    AdvanceKeepsSound(cfg, w, input);
  }

  /**
   Entity reconciliation over every run, hierarchies included: after a permitted load of frame
   `r` the visible identities are exactly the keys of the snapshot, each carried by one entity, and
   the hidden entities are exactly those that were marked at or before `r`, untouched.
   */
  lemma LoadsReconcile(cfg: Config, w0: World, es: seq<Event>, ev: Event)
    requires Conforming(cfg, w0, es)
    requires RunFrom(cfg, w0, es).Running? ==> Permitted(RunFrom(cfg, w0, es).world, Horizon(cfg, w0, es), ev)
    requires ev.request.Load?
    ensures RunFrom(cfg, w0, es).Running? && Step(cfg, RunFrom(cfg, w0, es).world, ev).Running?
    ensures RolledBack(RunFrom(cfg, w0, es).world.history, ev.request.frame) != []
    ensures var v := RunFrom(cfg, w0, es).world;
            var w := Step(cfg, v, ev).world;
            && VisibleIds(w.pop) == RolledBack(v.history, ev.request.frame)[0].data.entities.Keys && Distinct(w.pop)
            && (forall e :: HiddenBy(v.pop, e, ev.request.frame) ==> e in w.pop && w.pop[e] == v.pop[e])
            && (forall e :: e in w.pop && w.pop[e].mark.Some? ==> HiddenBy(v.pop, e, ev.request.frame))
  {
    var w := LoadIsReady(cfg, w0, es, ev);
    LoadDragsNothing(w, ev.request.frame);
    LoadReconciles(cfg, w, ev.request.frame, ev.choice);
    LoadHides(cfg, w, ev.request.frame, ev.choice);
  }

  /** Marked at or before `frame`. */
  ghost predicate HiddenBy(pop: Pop, e: Entity, frame: int) {
    e in pop && pop[e].mark.Some? && pop[e].mark.value <= frame
  }

  lemma LoadHides(cfg: Config, w: World, r: int, c: Choice)
    requires Ready(w, r, c) && Tidy(w)
    ensures var q := LoadWorld(cfg, w, r, c).pop;
            && (forall e :: HiddenBy(w.pop, e, r) ==> e in q && q[e] == w.pop[e])
            && (forall e :: e in q && q[e].mark.Some? ==> HiddenBy(w.pop, e, r))
  {
    var q := LoadWorld(cfg, w, r, c).pop;
    forall e | HiddenBy(w.pop, e, r) ensures e in q && q[e] == w.pop[e] {
      HiddenStay(cfg, w, r, c, e);
    }
    forall e | e in q && q[e].mark.Some? ensures HiddenBy(w.pop, e, r) {
      HiddenBefore(cfg, w, r, c, e);
    }
  }

  lemma LoadedMark(cfg: Config, pop: Pop, next: nat, r: int, s: Snapshot, c: Choice, e: Entity)
    requires Loadable(pop, next, r, s, c)
    requires e in LoadedPop(cfg, pop, s, c.spawned) && LoadedPop(cfg, pop, s, c.spawned)[e].mark.Some?
    ensures e in pop && pop[e].mark == LoadedPop(cfg, pop, s, c.spawned)[e].mark
  {
    LoadedIdentity(cfg, pop, s, c.spawned);
    ReconciledAt(pop, next, r, s, c, e);
  }

  lemma HiddenBefore(cfg: Config, w: World, r: int, c: Choice, e: Entity)
    requires Sound(w) && CanLoad(w, r, c)
    requires var q := LoadWorld(cfg, w, r, c).pop; e in q && q[e].mark.Some?
    ensures HiddenBy(w.pop, e, r)
  {
    LoadStarts(w, r, c);
    LoadedMark(cfg, BeforeReconcile(w, r), w.next, r, RolledBack(w.history, r)[0].data, c, e);
  }

  /** What every permitted load of a run starts from. */
  lemma LoadIsReady(cfg: Config, w0: World, es: seq<Event>, ev: Event) returns (w: World)
    requires Conforming(cfg, w0, es)
    requires RunFrom(cfg, w0, es).Running? ==> Permitted(RunFrom(cfg, w0, es).world, Horizon(cfg, w0, es), ev)
    requires ev.request.Load?
    ensures RunFrom(cfg, w0, es).Running? && w == Enter(RunFrom(cfg, w0, es).world, ev.session)
    ensures Ready(w, ev.request.frame, ev.choice) && Tidy(w)
    ensures Step(cfg, RunFrom(cfg, w0, es).world, ev) == Running(LoadWorld(cfg, w, ev.request.frame, ev.choice))
  {
    RunNeverPanics(cfg, w0, es);
    RunsAreTidy(cfg, w0, es);
    RunsAreCoherent(cfg, w0, es);
    StepServes(cfg, RunFrom(cfg, w0, es).world, ev, Horizon(cfg, w0, es));
    w := Enter(RunFrom(cfg, w0, es).world, ev.session);
  }

  /**
   Hierarchy restore over every run: after a permitted load, a saved child points at its saved
   parent's live entity if and only if that parent is still on its saved handle, or had to be
   respawned, or the child survived with the link; and a child saved without a parent has none.
   */
  lemma LoadsRestoreHierarchy(cfg: Config, w0: World, es: seq<Event>, ev: Event, child: RollbackId)
    requires Conforming(cfg, w0, es)
    requires RunFrom(cfg, w0, es).Running? ==> Permitted(RunFrom(cfg, w0, es).world, Horizon(cfg, w0, es), ev)
    requires ev.request.Load?
    requires var v := RunFrom(cfg, w0, es);
             v.Running? && RolledBack(v.world.history, ev.request.frame) != [] ==>
               child in RolledBack(v.world.history, ev.request.frame)[0].data.entities
    ensures RunFrom(cfg, w0, es).Running? && Step(cfg, RunFrom(cfg, w0, es).world, ev).Running?
    ensures var v := RunFrom(cfg, w0, es).world;
            var q := Step(cfg, v, ev).world.pop;
            var s := RolledBack(v.history, ev.request.frame)[0].data;
            && Find(q, child).Some?
            && (forall t :: SavedParent(s, child, t) ==>
                  Find(q, t).Some?
                  && (q[Find(q, child).value].parent == Find(q, t)
                      <==> ParentFound(Resurrected(v.pop, ev.request.frame), s, child, t)))
            && ((forall t :: !SavedParent(s, child, t)) ==> forall h :: !LinkedTo(q, Find(q, child).value, h))
  {
    var w := LoadIsReady(cfg, w0, es, ev);
    var s, q := RolledBack(w.history, ev.request.frame)[0].data, LoadWorld(cfg, w, ev.request.frame, ev.choice).pop;
    LoadDragsNothing(w, ev.request.frame);
    ChildIsThere(cfg, w, ev.request.frame, ev.choice, child);
    forall t | SavedParent(s, child, t)
      ensures Find(q, t).Some?
      ensures q[Find(q, child).value].parent == Find(q, t)
          <==> ParentFound(BeforeReconcile(w, ev.request.frame), s, child, t)
    {
      LinkRestored(cfg, w, ev.request.frame, ev.choice, child, t);
    }
    if forall t :: !SavedParent(s, child, t) {
      NoLinkGained(cfg, w, ev.request.frame, ev.choice, child);
    }
  }

  /**
   What a load does about a saved parent that is no saved entity, over every run: an entity that is there
   when the load begins, hidden after the loaded frame or not at all, ends with exactly the link it had;
   one that has to be respawned ends with none.
   */
  lemma LoadsLeaveStrangersAlone(cfg: Config, w0: World, es: seq<Event>, ev: Event, x: RollbackId)
    requires Conforming(cfg, w0, es)
    requires RunFrom(cfg, w0, es).Running? ==> Permitted(RunFrom(cfg, w0, es).world, Horizon(cfg, w0, es), ev)
    requires ev.request.Load?
    requires var v := RunFrom(cfg, w0, es);
             v.Running? && RolledBack(v.world.history, ev.request.frame) != [] ==>
               var s := RolledBack(v.world.history, ev.request.frame)[0].data;
               x in s.entities && x in s.parents && forall t :: t in s.entities ==> s.entities[t] != s.parents[x]
    ensures RunFrom(cfg, w0, es).Running? && Step(cfg, RunFrom(cfg, w0, es).world, ev).Running?
    ensures var v := RunFrom(cfg, w0, es).world;
            var pop, q := Resurrected(v.pop, ev.request.frame), Step(cfg, v, ev).world.pop;
            && Find(q, x).Some?
            && (x in VisibleIds(pop) ==>
                  Find(q, x) == Find(pop, x) && Find(pop, x).value in v.pop
                      && q[Find(q, x).value].parent == v.pop[Find(pop, x).value].parent)
            && (x !in VisibleIds(pop) ==> q[Find(q, x).value].parent.None?)
  {
    var w := LoadIsReady(cfg, w0, es, ev);
    StrangeParentLeftAlone(cfg, w, ev.request.frame, ev.choice, x);
  }

  lemma ChildIsThere(cfg: Config, w: World, r: int, c: Choice, child: RollbackId)
    requires Ready(w, r, c) && child in RolledBack(w.history, r)[0].data.entities
    ensures Find(LoadWorld(cfg, w, r, c).pop, child).Some?
  {
    LoadRecovers(cfg, w, r, c);
  }

  /**
   Remap coherence over every run, hierarchies included: after a permitted load, a component's
   reference to a saved entity `t` is right if and only if, before the load, `t` was on its saved
   handle, or `t` was nowhere and the holder was there.
   */
  lemma LoadsRemapComponents(cfg: Config, w0: World, es: seq<Event>, ev: Event, holder: RollbackId, t: RollbackId)
    requires Conforming(cfg, w0, es)
    requires RunFrom(cfg, w0, es).Running? ==> Permitted(RunFrom(cfg, w0, es).world, Horizon(cfg, w0, es), ev)
    requires ev.request.Load?
    requires var v := RunFrom(cfg, w0, es);
             v.Running? && RolledBack(v.world.history, ev.request.frame) != [] ==>
               var s := RolledBack(v.world.history, ev.request.frame)[0].data;
               holder in s.entities && t in s.entities && Get(s.likes, holder) == Some(s.entities[t])
    ensures RunFrom(cfg, w0, es).Running? && Step(cfg, RunFrom(cfg, w0, es).world, ev).Running?
    ensures var v := RunFrom(cfg, w0, es).world;
            var q := Step(cfg, v, ev).world.pop;
            var s := RolledBack(v.history, ev.request.frame)[0].data;
            && Find(q, holder).Some? && Find(q, t).Some?
            && (q[Find(q, holder).value].likes == Find(q, t)
                <==> ReferenceFound(Resurrected(v.pop, ev.request.frame), s, holder, t))
  {
    var w := LoadIsReady(cfg, w0, es, ev);
    LoadDragsNothing(w, ev.request.frame);
    ComponentReferenceCoherent(cfg, w, ev.request.frame, ev.choice, holder, t);
  }

  /** The same for a resource's reference, where there is no holder to be visited. */
  lemma LoadsRemapResources(cfg: Config, w0: World, es: seq<Event>, ev: Event, t: RollbackId)
    requires Conforming(cfg, w0, es)
    requires RunFrom(cfg, w0, es).Running? ==> Permitted(RunFrom(cfg, w0, es).world, Horizon(cfg, w0, es), ev)
    requires ev.request.Load?
    requires var v := RunFrom(cfg, w0, es);
             v.Running? && RolledBack(v.world.history, ev.request.frame) != [] ==>
               var s := RolledBack(v.world.history, ev.request.frame)[0].data;
               t in s.entities && s.favourite == Some(s.entities[t])
    ensures RunFrom(cfg, w0, es).Running? && Step(cfg, RunFrom(cfg, w0, es).world, ev).Running?
    ensures var v := RunFrom(cfg, w0, es).world;
            var w := Step(cfg, v, ev).world;
            var s := RolledBack(v.history, ev.request.frame)[0].data;
            && Find(w.pop, t).Some?
            && (w.favourite == Find(w.pop, t) <==> TargetFound(Resurrected(v.pop, ev.request.frame), s, t))
  {
    var w := LoadIsReady(cfg, w0, es, ev);
    LoadDragsNothing(w, ev.request.frame);
    ResourceReferenceCoherent(cfg, w, ev.request.frame, ev.choice, t);
  }
}
