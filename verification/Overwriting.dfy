/**
 The guard of soft despawning is exact. A second mark on an entity that was already hidden, and that
 a snapshot still knows, makes two permitted loads lose the entity.
 */
module Overwriting {
  import opened Prelude
  import opened Population
  import opened SnapshotQueue
  import opened WorldModel
  import opened Soundness
  import opened Reconciliation
  import opened Restoration
  import opened Remapping
  import opened Hierarchy
  import opened Bystanders
  import opened Runs
  import opened Stretches
  import opened SoftDespawn

  /**
   `d` is known to the stored snapshot `older`, was gone by `newer`, and carries a mark made after that:
   loading `newer` will lift the mark and then despawn `d` as an extra.
   */
  ghost predicate Doomed(w: World, d: Entity, newer: Entry<Snapshot>, older: Entry<Snapshot>) {
    && newer in w.history && older in w.history && older.frame < newer.frame
    && d in w.pop && w.pop[d].mark.Some? && w.pop[d].mark.value > newer.frame
    && w.pop[d].rid in older.data.entities && w.pop[d].rid !in newer.data.entities
  }

  /** Somebody is doomed whom the load after next may ask for. */
  ghost predicate Losing(w: World, later: int) {
    exists d, newer, older :: Doomed(w, d, newer, older) && older.frame >= later
  }

  lemma DepartedIsHidden(pop: Pop, frame: int, newer: Snapshot, older: Snapshot, x: RollbackId)
    requires Departed(pop, frame, newer, older) && x in older.entities && x !in newer.entities
    ensures x.entity in pop && pop[x.entity].mark.Some? && pop[x.entity].mark.value <= frame
  {
  }

  lemma DoomedIsNotSoft(w: World, asked: int, later: int, d: Entity, newer: Entry<Snapshot>, older: Entry<Snapshot>)
    requires Chronological(w.history, w.frame) && Native(w.pop) && Doomed(w, d, newer, older) && older.frame >= later
    ensures !SoftInvariant(w, asked, later)
  {
    var i, j :| 0 <= i < |w.history| && 0 <= j < |w.history| && w.history[i] == newer && w.history[j] == older;
    assert i < j;
    if SoftInvariant(w, asked, later) {
      DepartedIsHidden(w.pop, newer.frame, newer.data, older.data, w.pop[d].rid);
    }
  }

  // ---- One command ---------------------------------------------------------------------------

  lemma HiddenIsUnknown(frame: int, s: Snapshot, pop: Pop, next: nat, d: Entity)
    requires SnapSound(frame, s, pop, next) && d in pop && pop[d].mark.Some? && pop[d].mark.value <= frame
    ensures pop[d].rid !in s.entities
  {
  }

  lemma HarmedMember(w: World, e: Entity, later: int) returns (d: Entity)
    requires !Harmless(w, later, e)
    ensures d in Family(w.pop, {e}) && d in w.pop && w.pop[d].mark.Some? && w.pop[d].mark.value < w.frame
    ensures !Unasked(w.history, later, w.pop[d].rid)
  {
    d :| d in Family(w.pop, {e}) && d in w.pop && w.pop[d].mark.Some? && w.pop[d].mark.value < w.frame
         && !Unasked(w.history, later, w.pop[d].rid);
  }

  lemma AskedFor(h: seq<Entry<Snapshot>>, later: int, x: RollbackId) returns (older: Entry<Snapshot>)
    requires !Unasked(h, later, x)
    ensures older in h && older.frame >= later && x in older.data.entities
  {
    var j :| 0 <= j < |h| && h[j].frame >= later && x in h[j].data.entities;
    older := h[j];
  }

  /** All that is stored was saved one frame ago or earlier. */
  ghost predicate JustSaved(w: World) {
    w.history != [] && w.history[0].frame == w.frame - 1 && Chronological(w.history, w.frame)
  }

  /** A harmful mark loses somebody. */
  lemma HarmfulLoses(w: World, e: Entity, later: int) returns (d: Entity, older: Entry<Snapshot>)
    requires HistorySound(w.history, w.pop, w.next) && JustSaved(w) && !Harmless(w, later, e)
    ensures Doomed(w.(pop := Marked(w.pop, {e}, w.frame)), d, w.history[0], older) && older.frame >= later
  {
    d := HarmedMember(w, e, later);
    older := AskedFor(w.history, later, w.pop[d].rid);
    HiddenIsUnknown(w.history[0].frame, w.history[0].data, w.pop, w.next, d);
    OlderEntry(w, older);
  }

  lemma OlderEntry(w: World, e: Entry<Snapshot>)
    requires JustSaved(w) && e in w.history && e != w.history[0]
    ensures e.frame < w.history[0].frame
  {
  }

  /** Within an unconfirmed frame, soft commands remove nobody and only make marks of that frame. */
  lemma SoftCommandKeeps(w: World, c: Command, d: Entity)
    requires d in w.pop && d.id < w.next && w.confirmed < w.frame && !c.Despawn?
    ensures var p := Execute(w, c).pop;
            d in p && p[d].rid == w.pop[d].rid && (p[d].mark == w.pop[d].mark || p[d].mark == Some(w.frame))
  {
  }

  /** Soft commands of later frames do not save it. */
  lemma DoomedStays(w: World, c: Command, d: Entity, newer: Entry<Snapshot>, older: Entry<Snapshot>)
    requires PopSound(w.pop, w.next) && newer.frame < w.frame && w.confirmed < w.frame && !c.Despawn?
    requires Doomed(w, d, newer, older)
    ensures Doomed(Execute(w, c), d, newer, older)
  {
    SoftCommandKeeps(w, c, d);
    ExecuteKeepsSession(w, c);
  }

  lemma {:induction false} DoomedStaysAll(w: World, cs: seq<Command>, d: Entity, newer: Entry<Snapshot>,
                                          older: Entry<Snapshot>)
    requires Live(w) && newer.frame < w.frame && w.confirmed < w.frame && forall c :: c in cs ==> !c.Despawn?
    requires Doomed(w, d, newer, older)
    ensures Doomed(ExecuteAll(w, cs), d, newer, older)
  {
    if cs != [] {
      var front := cs[..|cs| - 1];
      DoomedStaysAll(w, front, d, newer, older);
      ExecuteAllKeepsLive(w, front);
      DoomedStays(ExecuteAll(w, front), cs[|cs| - 1], d, newer, older);
    }
  }

  lemma HarmfulCommandLoses(w: World, c: Command, later: int) returns (d: Entity, older: Entry<Snapshot>)
    requires HistorySound(w.history, w.pop, w.next) && JustSaved(w) && !HarmlessCommand(w, later, c)
    ensures w.confirmed < w.frame && Doomed(Execute(w, c), d, w.history[0], older) && older.frame >= later
  {
    d, older := HarmfulLoses(w, Resolve(w, c.target).value, later);
  }

  // ---- One frame -----------------------------------------------------------------------------

  /** A script with a harmful mark loses somebody. */
  lemma {:induction false} HarmfulScriptLoses(w: World, cs: seq<Command>, asked: int, later: int)
    returns (d: Entity, older: Entry<Snapshot>)
    requires Live(w) && JustSaved(w) && SoftInvariant(w, asked, later) && w.confirmed <= asked
    requires (forall c :: c in cs ==> !c.Despawn?) && !HarmlessScript(w, later, cs)
    ensures w.confirmed < w.frame && Doomed(ExecuteAll(w, cs), d, w.history[0], older) && older.frame >= later
  {
    var front, last := cs[..|cs| - 1], cs[|cs| - 1];
    ExecuteAllKeepsLive(w, front);
    if HarmlessScript(w, later, front) {
      ExecuteAllSoft(w, front, asked, later);
      d, older := HarmfulCommandLoses(ExecuteAll(w, front), last, later);
    } else {
      d, older := HarmfulScriptLoses(w, front, asked, later);
      DoomedStays(ExecuteAll(w, front), last, d, w.history[0], older);
    }
  }

  lemma HarmfulAdvanceLoses(cfg: Config, w: World, input: Input, asked: int, later: int)
    returns (d: Entity, newer: Entry<Snapshot>, older: Entry<Snapshot>)
    requires Sound(w) && LinkSafe(w) && Saved(w) && CanAdvance(cfg, w) && SoftLogic(cfg)
    requires SoftInvariant(w, asked, later) && w.confirmed <= asked
    requires !HarmlessScript(BeforeLogic(cfg, w), later, cfg.logic(ViewOf(BeforeLogic(cfg, w)), input))
    ensures Doomed(AdvanceWorld(cfg, w, input), d, newer, older) && older.frame >= later
  {
    BeforeLogicSoft(cfg, w, asked, later);
    BeforeLogicIsLive(cfg, w);
    newer := w.history[0];
    d, older := HarmfulScriptLoses(BeforeLogic(cfg, w), cfg.logic(ViewOf(BeforeLogic(cfg, w)), input), asked, later);
  }

  /** Nor does the despawning of what is confirmed reach it. */
  lemma DoomedSurvivesConfirming(w: World, d: Entity, newer: Entry<Snapshot>, older: Entry<Snapshot>)
    requires Doomed(w, d, newer, older) && HiddenTogether(w.pop) && w.confirmed <= older.frame
    ensures Doomed(DespawnConfirmed(w), d, newer, older)
  {
    ConfirmedFamily(w.pop, w.confirmed);
  }

  lemma DoomedAdvance(cfg: Config, w: World, input: Input, d: Entity, newer: Entry<Snapshot>, older: Entry<Snapshot>)
    requires Sound(w) && LinkSafe(w) && CanAdvance(cfg, w) && SoftLogic(cfg)
    requires Doomed(w, d, newer, older) && w.confirmed <= older.frame
    ensures Doomed(AdvanceWorld(cfg, w, input), d, newer, older)
  {
    DoomedSurvivesConfirming(Tick(cfg, w), d, newer, older);
    BeforeLogicIsLive(cfg, w);
    DoomedStaysAll(BeforeLogic(cfg, w), cfg.logic(ViewOf(BeforeLogic(cfg, w)), input), d, newer, older);
  }

  lemma DoomedStep(cfg: Config, v: World, ev: Event, horizon: int, d: Entity, newer: Entry<Snapshot>,
                   older: Entry<Snapshot>)
    requires RunInvariant(cfg, v, horizon) && Permitted(v, horizon, ev) && Tidy(v) && !ev.request.Load?
    requires SoftLogic(cfg) && Doomed(v, d, newer, older) && HorizonAfter(horizon, v, ev) <= older.frame
    ensures Step(cfg, v, ev).Running? && Doomed(Step(cfg, v, ev).world, d, newer, older)
  {
    StepServes(cfg, v, ev, horizon);
    EnterTidy(v, ev.session);
    if ev.request.Save? {
      StepKeepsEntry(cfg, v, ev, horizon, newer);
      StepKeepsEntry(cfg, v, ev, horizon, older);
    } else {
      DoomedAdvance(cfg, Enter(v, ev.session), ev.request.input, d, newer, older);
    }
  }

  lemma {:induction false} ScriptNative(w: World, cs: seq<Command>)
    requires Native(w.pop)
    ensures Native(ExecuteAll(w, cs).pop)
  {
    if cs != [] {
      ScriptNative(w, cs[..|cs| - 1]);
    }
  }

  lemma AdvanceNative(cfg: Config, w: World, input: Input)
    requires Native(w.pop) && CanAdvance(cfg, w)
    ensures Native(AdvanceWorld(cfg, w, input).pop)
  {
    ScriptNative(BeforeLogic(cfg, w), cfg.logic(ViewOf(BeforeLogic(cfg, w)), input));
  }

  /** An advance of softly despawning logic keeps everything that may be asked for iff its marks are harmless. */
  lemma AdvanceIsExact(cfg: Config, w: World, input: Input, asked: int, later: int)
    requires Sound(w) && LinkSafe(w) && Saved(w) && CanAdvance(cfg, w) && SoftLogic(cfg)
    requires SoftInvariant(w, asked, later) && w.confirmed <= asked
    ensures SoftInvariant(AdvanceWorld(cfg, w, input), asked, later)
            <==> HarmlessScript(BeforeLogic(cfg, w), later, cfg.logic(ViewOf(BeforeLogic(cfg, w)), input))
    ensures SoftInvariant(AdvanceWorld(cfg, w, input), asked, later) || Losing(AdvanceWorld(cfg, w, input), later)
  {
    if HarmlessScript(BeforeLogic(cfg, w), later, cfg.logic(ViewOf(BeforeLogic(cfg, w)), input)) {
      AdvanceSoft(cfg, w, input, asked, later);
    } else {
      var d, newer, older := HarmfulAdvanceLoses(cfg, w, input, asked, later);
      AdvanceNative(cfg, w, input);
      AdvanceKeepsSound(cfg, w, input);
      DoomedIsNotSoft(AdvanceWorld(cfg, w, input), asked, later, d, newer, older);
    }
  }

  /**
   The guard is exact for single requests, where a load may follow a load: over a run of softly
   despawning logic that has been harmless so far, the next permitted advance keeps everything that may
   still be asked for if and only if its own soft despawns are harmless; otherwise somebody is lost.
   */
  lemma SoftDespawnIsExact(cfg: Config, w0: World, es: seq<Event>, ev: Event)
    requires SoftLogic(cfg) && Native(w0.pop)
    requires Conforming(cfg, w0, es) && HarmlessRun(cfg, w0, es)
    requires RunFrom(cfg, w0, es).Running? ==> Permitted(RunFrom(cfg, w0, es).world, Horizon(cfg, w0, es), ev)
    requires ev.request.Advance?
    ensures RunFrom(cfg, w0, es).Running? && Step(cfg, RunFrom(cfg, w0, es).world, ev).Running?
    ensures var v := RunFrom(cfg, w0, es).world;
            var w, horizon := Step(cfg, v, ev).world, HorizonAfter(Horizon(cfg, w0, es), v, ev);
            && (SoftInvariant(w, horizon, horizon) <==> HarmlessAt(cfg, v, horizon, ev))
            && (SoftInvariant(w, horizon, horizon) || Losing(w, horizon))
  {
    RunSoft(cfg, w0, es);
    RunNeverPanics(cfg, w0, es);
    RunsAreTidy(cfg, w0, es);
    var v := RunFrom(cfg, w0, es).world;
    var before, after := Horizon(cfg, w0, es), HorizonAfter(Horizon(cfg, w0, es), v, ev);
    StepServes(cfg, v, ev, before);
    EnterSoft(v, ev.session, before, before);
    AskedRises(Enter(v, ev.session), before, before, after, after);
    AdvanceIsExact(cfg, Enter(v, ev.session), ev.request.input, after, after);
  }

  // ---- What losing means -----------------------------------------------------------------------

  /** An entity that is visible and unknown to the snapshot is gone after the load, identity and all. */
  lemma ExtraIsGone(cfg: Config, w: World, r: int, c: Choice, d: Entity)
    requires Sound(w) && CanLoad(w, r, c)
    requires d in Extras(BeforeReconcile(w, r), RolledBack(w.history, r)[0].data.entities)
    ensures d !in LoadWorld(cfg, w, r, c).pop
    ensures forall e :: e in LoadWorld(cfg, w, r, c).pop ==> LoadWorld(cfg, w, r, c).pop[e].rid != w.pop[d].rid
  {
    var s, pop := RolledBack(w.history, r)[0].data, BeforeReconcile(w, r);
    LoadStarts(w, r, c);
    LoadedIdentity(cfg, pop, s, c.spawned);
    forall e | e in Reconciled(pop, s.entities, c.spawned)
      ensures Reconciled(pop, s.entities, c.spawned)[e].rid != pop[d].rid
    {
      ReconciledAt(pop, w.next, r, s, c, e);
    }
    ReconciledAt(pop, w.next, r, s, c, d);
  }

  lemma DoomedIsExtra(w: World, d: Entity, newer: Entry<Snapshot>, older: Entry<Snapshot>)
    requires Doomed(w, d, newer, older)
    ensures d in Extras(BeforeReconcile(w, newer.frame), newer.data.entities)
  {
  }

  /** Loading the newer frame despawns the doomed entity for good, and leaves the older snapshot. */
  lemma FirstLoadDespawns(cfg: Config, w: World, d: Entity, newer: Entry<Snapshot>, older: Entry<Snapshot>, c: Choice)
    requires Sound(w) && Doomed(w, d, newer, older) && CanLoad(w, newer.frame, c)
    ensures Confined(LoadWorld(cfg, w, newer.frame, c), w.pop[d].rid, {}) && Dead(LoadWorld(cfg, w, newer.frame, c), d)
    ensures older in LoadWorld(cfg, w, newer.frame, c).history
  {
    StoredEntry(w.history, w.frame, newer);
    DoomedIsExtra(w, d, newer, older);
    ExtraIsGone(cfg, w, newer.frame, c, d);
  }

  lemma MissingIsBlank(cfg: Config, pop: Pop, next: nat, r: int, s: Snapshot, c: Choice, x: RollbackId)
    requires Loadable(pop, next, r, s, c) && NoDrag(pop, s) && x in s.entities && x !in VisibleIds(pop)
    ensures var q := LoadedPop(cfg, pop, s, c.spawned);
            x in c.spawned && c.spawned[x].id >= next && Find(q, x) == Some(c.spawned[x])
                && q[c.spawned[x]].decor == None
  {
    RespawnedIsMissing(pop, next, r, s, c, x);
    LoadedFind(cfg, pop, next, r, s, c, x);
    LiveHandleIs(pop, next, r, s, c, x);
    FreshEntity(pop, next, r, s, c, x);
    LoadedIdentity(cfg, pop, s, c.spawned);
  }

  /** Loading the older frame then has to respawn it, blank, under a fresh handle. */
  lemma SecondLoadBlank(cfg: Config, w: World, older: Entry<Snapshot>, c: Choice, x: RollbackId)
    requires Sound(w) && LinkSafe(w) && older in w.history && CanLoad(w, older.frame, c)
    requires x in older.data.entities && Confined(w, x, {})
    ensures x in c.spawned && c.spawned[x].id >= w.next
    ensures var q := LoadWorld(cfg, w, older.frame, c).pop;
            Find(q, x) == Some(c.spawned[x]) && q[c.spawned[x]].decor == None
  {
    StoredEntry(w.history, w.frame, older);
    LoadStarts(w, older.frame, c);
    LoadDragsNothing(w, older.frame);
    MissingIsBlank(cfg, BeforeReconcile(w, older.frame), w.next, older.frame, older.data, c, x);
  }

  lemma FoundIsConfined(w: World, x: RollbackId, e: Entity)
    requires PopSound(w.pop, w.next) && Find(w.pop, x) == Some(e) && w.pop[e].decor == None
    ensures Confined(w, x, {e})
  {
  }

  lemma SecondLoadRespawns(cfg: Config, w: World, older: Entry<Snapshot>, c: Choice, x: RollbackId)
    requires Sound(w) && LinkSafe(w) && older in w.history && CanLoad(w, older.frame, c)
    requires x in older.data.entities && Confined(w, x, {})
    ensures x in c.spawned && c.spawned[x].id >= w.next
    ensures var w' := LoadWorld(cfg, w, older.frame, c);
            Find(w'.pop, x) == Some(c.spawned[x]) && Confined(w', x, {c.spawned[x]})
  {
    SecondLoadBlank(cfg, w, older, c, x);
    LoadKeepsSound(cfg, w, older.frame, c);
    FoundIsConfined(LoadWorld(cfg, w, older.frame, c), x, c.spawned[x]);
  }

  /** What is left of the entity until the second load: the older snapshot. */
  ghost predicate OnlySaved(w: World, d: Entity, x: RollbackId, older: Entry<Snapshot>) {
    Confined(w, x, {}) && Dead(w, d) && older in w.history && x in older.data.entities
  }

  lemma FirstStep(cfg: Config, v: World, first: Event, horizon: int, d: Entity, newer: Entry<Snapshot>,
                  older: Entry<Snapshot>)
    requires RunInvariant(cfg, v, horizon) && Permitted(v, horizon, first) && first.request == Load(newer.frame)
    requires Doomed(v, d, newer, older)
    ensures Step(cfg, v, first).Running?
    ensures OnlySaved(Step(cfg, v, first).world, d, v.pop[d].rid, older)
    ensures older.frame < Step(cfg, v, first).world.frame
  {
    StepServes(cfg, v, first, horizon);
    FirstLoadDespawns(cfg, Enter(v, first.session), d, newer, older, first.choice);
  }

  lemma FirstLoad(cfg: Config, w0: World, es: seq<Event>, w: World, first: Event, d: Entity, newer: Entry<Snapshot>,
                  older: Entry<Snapshot>)
    requires Conforming(cfg, w0, es + [first]) && first.request == Load(newer.frame)
    requires RunFrom(cfg, w0, es) == Running(w) && Doomed(w, d, newer, older)
    ensures RunFrom(cfg, w0, es + [first]).Running?
    ensures var w1 := RunFrom(cfg, w0, es + [first]).world;
            OnlySaved(w1, d, w.pop[d].rid, older) && older.frame < w1.frame
  {
    var front, v, ev := LastStep(cfg, w0, es, [first]);
    assert es + front == es;
    Known(cfg, w0, es, w, first);
    FirstStep(cfg, w, first, Horizon(cfg, w0, es), d, newer, older);
  }

  lemma OnlySavedStays(cfg: Config, w0: World, es: seq<Event>, more: seq<Event>, d: Entity, x: RollbackId,
                       older: Entry<Snapshot>)
    requires Conforming(cfg, w0, es + more) && Onward(more) && Horizon(cfg, w0, es + more) <= older.frame
    requires RunFrom(cfg, w0, es).Running? && OnlySaved(RunFrom(cfg, w0, es).world, d, x, older)
    requires older.frame < RunFrom(cfg, w0, es).world.frame
    ensures RunFrom(cfg, w0, es + more).Running? && OnlySaved(RunFrom(cfg, w0, es + more).world, d, x, older)
  {
    ConfinedStays(cfg, w0, es, more, x, {});
    DeadStays(cfg, w0, es, more, d);
    EntryStays(cfg, w0, es, more, older);
  }

  /** Identity `x` is back, but not on handle `d` any more, and blank. */
  ghost predicate Respawned(w: World, c: Choice, x: RollbackId, d: Entity) {
    && x in c.spawned && c.spawned[x] != d
    && Find(w.pop, x) == Some(c.spawned[x]) && Confined(w, x, {c.spawned[x]})
  }

  lemma SecondLoad(cfg: Config, v: World, second: Event, horizon: int, d: Entity, x: RollbackId, older: Entry<Snapshot>)
    requires RunInvariant(cfg, v, horizon) && Permitted(v, horizon, second) && LinkSafe(v)
    requires second.request == Load(older.frame) && OnlySaved(v, d, x, older)
    ensures Step(cfg, v, second).Running? && Respawned(Step(cfg, v, second).world, second.choice, x, d)
  {
    StepServes(cfg, v, second, horizon);
    SecondLoadRespawns(cfg, Enter(v, second.session), older, second.choice, x);
  }

  lemma BeforeSecondLoad(cfg: Config, w0: World, es: seq<Event>, second: Event)
    requires Conforming(cfg, w0, es + [second]) && second.request.Load?
    ensures Conforming(cfg, w0, es) && RunFrom(cfg, w0, es).Running?
    ensures Horizon(cfg, w0, es) <= second.request.frame
  {
    var front, v, ev := LastStep(cfg, w0, es, [second]);
    assert es + front == es;
  }

  lemma SecondLoadAfter(cfg: Config, w0: World, es: seq<Event>, second: Event, d: Entity, x: RollbackId,
                        older: Entry<Snapshot>)
    requires Conforming(cfg, w0, es + [second]) && second.request == Load(older.frame)
    requires RunFrom(cfg, w0, es).Running? && OnlySaved(RunFrom(cfg, w0, es).world, d, x, older)
    ensures RunFrom(cfg, w0, es + [second]).Running?
    ensures Respawned(RunFrom(cfg, w0, es + [second]).world, second.choice, x, d)
  {
    var front, v, ev := LastStep(cfg, w0, es, [second]);
    assert es + front == es;
    Known(cfg, w0, es, v, second);
    SecondLoad(cfg, v, second, Horizon(cfg, w0, es), d, x, older);
  }

  /** What follows the first load. */
  lemma RestLoses(cfg: Config, w0: World, es: seq<Event>, more: seq<Event>, second: Event, d: Entity, x: RollbackId,
                  older: Entry<Snapshot>)
    requires Conforming(cfg, w0, es + more + [second]) && Onward(more) && second.request == Load(older.frame)
    requires RunFrom(cfg, w0, es).Running? && OnlySaved(RunFrom(cfg, w0, es).world, d, x, older)
    requires older.frame < RunFrom(cfg, w0, es).world.frame
    ensures RunFrom(cfg, w0, es + more + [second]).Running?
    ensures Respawned(RunFrom(cfg, w0, es + more + [second]).world, second.choice, x, d)
  {
    BeforeSecondLoad(cfg, w0, es + more, second);
    OnlySavedStays(cfg, w0, es, more, d, x, older);
    SecondLoadAfter(cfg, w0, es + more, second, d, x, older);
  }

  /**
   What being doomed means. However many saves and advances lie between them, a load of the newer frame
   and a load of the older one leave the entity without its handle and its unregistered component.
   */
  lemma DoomedIsRespawned(cfg: Config, w0: World, es: seq<Event>, w: World, first: Event, more: seq<Event>,
                          second: Event, d: Entity, newer: Entry<Snapshot>, older: Entry<Snapshot>)
    requires Conforming(cfg, w0, es + TwoLoads(first, more, second)) && Onward(more)
    requires RunFrom(cfg, w0, es) == Running(w) && Doomed(w, d, newer, older)
    requires first.request == Load(newer.frame) && second.request == Load(older.frame)
    ensures RunFrom(cfg, w0, es + TwoLoads(first, more, second)).Running?
    ensures Respawned(RunFrom(cfg, w0, es + TwoLoads(first, more, second)).world, second.choice, w.pop[d].rid, d)
  {
    InOrder(es, first, more, second);
    ConformingPrefix(cfg, w0, es + TwoLoads(first, more, second), es + [first]);
    FirstLoad(cfg, w0, es, w, first, d, newer, older);
    RestLoses(cfg, w0, es + [first], more, second, d, w.pop[d].rid, older);
  }

  /** And saves and advances after that do not bring it back. */
  lemma DoomedIsLostAfter(cfg: Config, w0: World, es: seq<Event>, w: World, first: Event, more: seq<Event>,
                          second: Event, rest: seq<Event>, d: Entity, newer: Entry<Snapshot>, older: Entry<Snapshot>)
    requires Conforming(cfg, w0, es + TwoLoads(first, more, second) + rest) && Onward(more) && Onward(rest)
    requires RunFrom(cfg, w0, es) == Running(w) && Doomed(w, d, newer, older)
    requires first.request == Load(newer.frame) && second.request == Load(older.frame)
    ensures RunFrom(cfg, w0, es + TwoLoads(first, more, second)).Running?
    ensures RunFrom(cfg, w0, es + TwoLoads(first, more, second) + rest).Running?
    ensures var x, c := w.pop[d].rid, second.choice;
            && Respawned(RunFrom(cfg, w0, es + TwoLoads(first, more, second)).world, c, x, d)
            && Confined(RunFrom(cfg, w0, es + TwoLoads(first, more, second) + rest).world, x, {c.spawned[x]})
  {
    var loads := es + TwoLoads(first, more, second);
    ConformingPrefix(cfg, w0, loads + rest, loads);
    DoomedIsRespawned(cfg, w0, es, w, first, more, second, d, newer, older);
    ConfinedStays(cfg, w0, loads, rest, w.pop[d].rid, {second.choice.spawned[w.pop[d].rid]});
  }
}
