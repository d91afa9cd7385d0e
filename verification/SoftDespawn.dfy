/**
 The deferred despawn protocol: when game logic only ever despawns softly, a rollback never has to
 respawn anything, so handles stay put and unregistered components survive. Hierarchies included:
 the one thing that can go wrong is a second mark on an entity that was hidden already, and it is
 shown exactly when that does.
 */
module SoftDespawn {
  import opened Prelude
  import opened Population
  import opened SnapshotQueue
  import opened WorldModel
  import opened Soundness
  import opened Reconciliation
  import opened Hierarchy
  import opened Bystanders
  import opened FlatWorlds
  import opened Runs

  /** Every entity still has the handle it was registered under. */
  ghost predicate Native(pop: Pop) {
    forall e :: e in pop ==> pop[e].rid == RollbackId(e)
  }

  ghost predicate NativeSnapshot(s: Snapshot) {
    forall x :: x in s.entities ==> s.entities[x] == x.entity
  }

  /** Everything saved at `frame` still exists, visible or marked later than that. */
  ghost predicate Preserved(pop: Pop, frame: int, s: Snapshot) {
    forall x :: x in s.entities ==>
      x.entity in pop && (pop[x.entity].mark.Some? ==> pop[x.entity].mark.value > frame)
  }

  /** What an older snapshot knows and a newer one does not was marked by the time of the newer one. */
  ghost predicate Departed(pop: Pop, frame: int, newer: Snapshot, older: Snapshot) {
    forall x :: x in older.entities && x !in newer.entities ==>
      x.entity in pop && pop[x.entity].mark.Some? && pop[x.entity].mark.value <= frame
  }

  /**
   Everything is in place for the next load, which asks for no frame below `asked`, and for the one
   after it, which asks for none below `later`.
   */
  ghost predicate HistoryPreserved(h: seq<Entry<Snapshot>>, pop: Pop, asked: int, later: int) {
    && asked <= later
    && (forall i :: 0 <= i < |h| ==> NativeSnapshot(h[i].data))
    && (forall i :: 0 <= i < |h| && h[i].frame >= asked ==> Preserved(pop, h[i].frame, h[i].data))
    && (forall i, j :: 0 <= i < j < |h| && h[j].frame >= later ==> Departed(pop, h[i].frame, h[i].data, h[j].data))
  }

  ghost predicate SoftInvariant(w: World, asked: int, later: int) {
    Native(w.pop) && HistoryPreserved(w.history, w.pop, asked, later)
  }

  /** Game logic without hard despawns. */
  ghost predicate SoftLogic(cfg: Config) {
    forall v: View, i: Input, c: Command :: c in cfg.logic(v, i) ==> !c.Despawn?
  }

  // ---- The guard -----------------------------------------------------------------------------

  /** No snapshot that may still be asked for knows `x`. */
  ghost predicate Unasked(h: seq<Entry<Snapshot>>, later: int, x: RollbackId) {
    forall i :: 0 <= i < |h| && h[i].frame >= later ==> x !in h[i].data.entities
  }

  /**
   Marking the family of `e` now is harmless: whoever in it is already hidden since an earlier frame
   is known to no snapshot that may still be asked for. A family without marks is always harmless.
   */
  ghost predicate Harmless(w: World, later: int, e: Entity) {
    forall d :: d in Family(w.pop, {e}) && d in w.pop && w.pop[d].mark.Some? && w.pop[d].mark.value < w.frame
                ==> Unasked(w.history, later, w.pop[d].rid)
  }

  ghost predicate HarmlessCommand(w: World, later: int, c: Command) {
    c.DespawnRollback? && w.confirmed < w.frame && Resolve(w, c.target).Some? ==>
        Harmless(w, later, Resolve(w, c.target).value)
  }

  ghost predicate HarmlessScript(w: World, later: int, cs: seq<Command>) {
    if cs == [] then true
    else
      var front := cs[..|cs| - 1];
      HarmlessScript(w, later, front) && HarmlessCommand(ExecuteAll(w, front), later, cs[|cs| - 1])
  }

  /** If the event is an advance, all its soft despawns are harmless. */
  ghost predicate HarmlessAt(cfg: Config, v: World, later: int, ev: Event) {
    ev.request.Advance? && CanAdvance(cfg, Enter(v, ev.session)) ==>
      var w := BeforeLogic(cfg, Enter(v, ev.session));
      HarmlessScript(w, later, cfg.logic(ViewOf(w), ev.request.input))
  }

  /** All soft despawns of the run were harmless when they were made. */
  ghost predicate HarmlessRun(cfg: Config, w0: World, es: seq<Event>) {
    if es == [] then true
    else
      var front := es[..|es| - 1];
      && HarmlessRun(cfg, w0, front)
      && (RunFrom(cfg, w0, front).Running? ==>
            HarmlessAt(cfg, RunFrom(cfg, w0, front).world, Horizon(cfg, w0, es), es[|es| - 1]))
  }

  lemma UnmarkedIsHarmless(w: World, later: int, e: Entity)
    requires forall d :: d in Family(w.pop, {e}) && d in w.pop ==> w.pop[d].mark.None?
    ensures Harmless(w, later, e)
  {
  }

  // ---- Saving --------------------------------------------------------------------------------

  lemma CapturePreserved(cfg: Config, w: World)
    requires Native(w.pop)
    ensures NativeSnapshot(Capture(cfg, w)) && Preserved(w.pop, w.frame, Capture(cfg, w))
  {
  }

  lemma RecordedPreserved(h: seq<Entry<Snapshot>>, confirmed: int, frame: int, s: Snapshot, depth: nat, pop: Pop,
                          asked: int, later: int)
    requires Chronological(h, frame) && HistoryPreserved(h, pop, asked, later)
    requires NativeSnapshot(s) && Preserved(pop, frame, s)
    requires forall j :: 0 <= j < |h| && h[j].frame >= later ==> Departed(pop, frame, s, h[j].data)
    ensures HistoryPreserved(Recorded(h, confirmed, frame, s, depth), pop, asked, later)
  {
    var drop := RecordedShape(h, confirmed, frame, s, depth);
    var r := Recorded(h, confirmed, frame, s, depth);
    forall i | 0 <= i < |r|
      ensures NativeSnapshot(r[i].data)
      ensures r[i].frame >= asked ==> Preserved(pop, r[i].frame, r[i].data)
    {
      assert i > 0 ==> r[i] == h[i - 1 + drop];
    }
    forall i, j | 0 <= i < j < |r| && r[j].frame >= later
      ensures Departed(pop, r[i].frame, r[i].data, r[j].data)
    {
      assert r[j] == h[j - 1 + drop];
      assert i > 0 ==> r[i] == h[i - 1 + drop];
    }
  }

  lemma CaptureDepartedAll(cfg: Config, w: World, asked: int, later: int)
    requires Native(w.pop) && MarksSound(w.pop, w.scanned, w.frame) && HistoryPreserved(w.history, w.pop, asked, later)
    ensures forall j :: 0 <= j < |w.history| && w.history[j].frame >= later ==>
              Departed(w.pop, w.frame, Capture(cfg, w), w.history[j].data)
  {
  }

  lemma SaveSoft(cfg: Config, w: World, asked: int, later: int)
    requires Sound(w) && SoftInvariant(w, asked, later)
    ensures SoftInvariant(SaveWorld(cfg, w), asked, later)
  {
    CapturePreserved(cfg, w);
    CaptureDepartedAll(cfg, w, asked, later);
    RecordedPreserved(w.history, w.confirmed, w.frame, Capture(cfg, w), w.window, w.pop, asked, later);
  }

  // ---- Advancing -----------------------------------------------------------------------------

  /**
   A soft step on the population: marks stay, or are made now; a mark is made anew only on entities
   that are not asked for later; and what is removed was hidden at or below everything that is asked
   for, unless the frame itself is.
   */
  ghost predicate SoftStep(h: seq<Entry<Snapshot>>, pop: Pop, p: Pop, frame: int, asked: int, later: int) {
    frame <= asked || forall e :: e in pop ==>
      || (e in p && p[e].mark == pop[e].mark)
      || (e in p && p[e].mark == Some(frame) && (pop[e].mark.None? || Unasked(h, later, pop[e].rid)))
      || (pop[e].mark.Some? && pop[e].mark.value <= asked)
  }

  lemma SoftStepPreserves(h: seq<Entry<Snapshot>>, pop: Pop, p: Pop, frame: int, asked: int, later: int)
    requires HistoryPreserved(h, pop, asked, later) && Native(pop) && SoftStep(h, pop, p, frame, asked, later)
    requires BeforeFrame(h, frame)
    ensures HistoryPreserved(h, p, asked, later)
  {
    forall i | 0 <= i < |h| && h[i].frame >= asked ensures Preserved(p, h[i].frame, h[i].data) {
      assert Preserved(pop, h[i].frame, h[i].data);
    }
    forall i, j | 0 <= i < j < |h| && h[j].frame >= later ensures Departed(p, h[i].frame, h[i].data, h[j].data) {
      assert Departed(pop, h[i].frame, h[i].data, h[j].data);
      assert Preserved(pop, h[j].frame, h[j].data);
    }
  }

  lemma ConfirmedDespawnSoft(w: World, asked: int, later: int)
    requires SoftInvariant(w, asked, later) && HiddenTogether(w.pop)
    requires w.confirmed <= asked && BeforeFrame(w.history, w.frame)
    ensures SoftInvariant(DespawnConfirmed(w), asked, later)
  {
    ConfirmedFamily(w.pop, w.confirmed);
    SoftStepPreserves(w.history, w.pop, Despawned(w.pop, ConfirmedGone(w.pop, w.confirmed)), w.frame, asked, later);
  }

  lemma EditSoft(w: World, p: Pop, asked: int, later: int)
    requires SoftInvariant(w, asked, later) && BeforeFrame(w.history, w.frame)
    requires Native(p) && SoftStep(w.history, w.pop, p, w.frame, asked, later)
    ensures SoftInvariant(w.(pop := p), asked, later)
  {
    SoftStepPreserves(w.history, w.pop, p, w.frame, asked, later);
  }

  lemma MarkIsSoft(w: World, e: Entity, asked: int, later: int)
    requires MarksSound(w.pop, w.scanned, w.frame) && Harmless(w, later, e)
    ensures SoftStep(w.history, w.pop, Marked(w.pop, {e}, w.frame), w.frame, asked, later)
  {
    var p := Marked(w.pop, {e}, w.frame);
    forall d | d in w.pop
      ensures d in p && (p[d].mark == w.pop[d].mark
                         || (p[d].mark == Some(w.frame)
                             && (w.pop[d].mark.None? || Unasked(w.history, later, w.pop[d].rid))))
    {
      if d in Family(w.pop, {e}) && w.pop[d].mark.Some? && w.pop[d].mark.value < w.frame {
        assert Unasked(w.history, later, w.pop[d].rid);
      }
    }
  }

  lemma MarkNative(pop: Pop, e: Entity, frame: int)
    requires Native(pop)
    ensures Native(Marked(pop, {e}, frame))
  {
  }

  lemma MarkSoft(w: World, e: Entity, asked: int, later: int)
    requires SoftInvariant(w, asked, later) && BeforeFrame(w.history, w.frame) && MarksSound(w.pop, w.scanned, w.frame)
    requires Harmless(w, later, e)
    ensures SoftInvariant(w.(pop := Marked(w.pop, {e}, w.frame)), asked, later)
  {
    MarkNative(w.pop, e, w.frame);
    MarkIsSoft(w, e, asked, later);
    EditSoft(w, Marked(w.pop, {e}, w.frame), asked, later);
  }

  lemma ConfirmedHideSoft(w: World, e: Entity, asked: int, later: int)
    requires SoftInvariant(w, asked, later) && BeforeFrame(w.history, w.frame) && w.frame <= w.confirmed <= asked
    ensures SoftInvariant(w.(pop := Despawned(w.pop, {e})), asked, later)
  {
    EditSoft(w, Despawned(w.pop, {e}), asked, later);
  }

  lemma ExecuteEditSoft(w: World, c: Command, asked: int, later: int)
    requires SoftInvariant(w, asked, later) && BeforeFrame(w.history, w.frame)
    requires c.SetValue? || c.ClearValue? || c.SetLikes?
    ensures SoftInvariant(Execute(w, c), asked, later)
  {
    var r := Resolve(w, c.target);
    if r.Some? {
      var b := w.pop[r.value];
      EditSoft(w, w.pop[r.value := if c.SetValue? then b.(value := Some(c.newValue))
                                   else if c.ClearValue? then b.(value := None)
                                   else b.(likes := Resolve(w, c.liked))], asked, later);
    }
  }

  lemma ExecuteSpawnSoft(w: World, c: Command, asked: int, later: int)
    requires SoftInvariant(w, asked, later) && BeforeFrame(w.history, w.frame) && PopSound(w.pop, w.next) && c.Spawn?
    ensures SoftInvariant(Execute(w, c), asked, later)
  {
    var e := Entity(w.next);
    EditSoft(w, w.pop[e := Body(RollbackId(e), None, c.value, None, ResolveOption(w, c.parentIndex), c.decor)],
             asked, later);
  }

  lemma ExecuteHideSoft(w: World, c: Command, asked: int, later: int)
    requires SoftInvariant(w, asked, later) && BeforeFrame(w.history, w.frame) && MarksSound(w.pop, w.scanned, w.frame)
    requires w.confirmed <= asked && c.DespawnRollback? && HarmlessCommand(w, later, c)
    ensures SoftInvariant(Execute(w, c), asked, later)
  {
    var r := Resolve(w, c.target);
    if r.Some? && w.confirmed < w.frame {
      MarkSoft(w, r.value, asked, later);
    } else if r.Some? {
      ConfirmedHideSoft(w, r.value, asked, later);
    }
  }

  lemma ExecuteSoft(w: World, c: Command, asked: int, later: int)
    requires Live(w) && SoftInvariant(w, asked, later) && w.confirmed <= asked
    requires !c.Despawn? && HarmlessCommand(w, later, c)
    ensures SoftInvariant(Execute(w, c), asked, later)
  {
    LiveBefore(w);
    if c.Spawn? {
      ExecuteSpawnSoft(w, c, asked, later);
    } else if c.SetValue? || c.ClearValue? || c.SetLikes? {
      ExecuteEditSoft(w, c, asked, later);
    } else if c.DespawnRollback? {
      ExecuteHideSoft(w, c, asked, later);
    }
  }

  lemma {:induction false} ExecuteAllSoft(w: World, cs: seq<Command>, asked: int, later: int)
    requires Live(w) && SoftInvariant(w, asked, later) && w.confirmed <= asked
    requires (forall c :: c in cs ==> !c.Despawn?) && HarmlessScript(w, later, cs)
    ensures SoftInvariant(ExecuteAll(w, cs), asked, later)
  {
    if cs != [] {
      var front := cs[..|cs| - 1];
      ExecuteAllSoft(w, front, asked, later);
      ExecuteAllKeepsLive(w, front);
      ExecuteSoft(ExecuteAll(w, front), cs[|cs| - 1], asked, later);
    }
  }

  lemma AskedRises(w: World, asked: int, later: int, asked': int, later': int)
    requires SoftInvariant(w, asked, later) && asked <= asked' && later <= later' && asked' <= later'
    ensures SoftInvariant(w, asked', later')
  {
  }

  lemma BeforeLogicSoft(cfg: Config, w: World, asked: int, later: int)
    requires Sound(w) && LinkSafe(w) && CanAdvance(cfg, w) && SoftInvariant(w, asked, later) && w.confirmed <= asked
    ensures SoftInvariant(BeforeLogic(cfg, w), asked, later)
  {
    TickKeepsSound(cfg, w);
    StoredBefore(w.history, w.frame + 1);
    ConfirmedDespawnSoft(Tick(cfg, w), asked, later);
  }

  lemma AdvanceSoft(cfg: Config, w: World, input: Input, asked: int, later: int)
    requires Sound(w) && LinkSafe(w) && CanAdvance(cfg, w) && SoftLogic(cfg)
    requires SoftInvariant(w, asked, later) && w.confirmed <= asked
    requires HarmlessScript(BeforeLogic(cfg, w), later, cfg.logic(ViewOf(BeforeLogic(cfg, w)), input))
    ensures SoftInvariant(AdvanceWorld(cfg, w, input), asked, later)
  {
    BeforeLogicSoft(cfg, w, asked, later);
    BeforeLogicIsLive(cfg, w);
    ExecuteAllSoft(BeforeLogic(cfg, w), cfg.logic(ViewOf(BeforeLogic(cfg, w)), input), asked, later);
  }

  // ---- Loading -------------------------------------------------------------------------------

  /** Resurrection alone brings everything back: nothing is missing, so nothing is respawned. */
  lemma NothingMissing(pop: Pop, r: int, s: Snapshot, next: nat, c: Choice)
    requires Native(pop) && NativeSnapshot(s) && Preserved(pop, r, s)
    requires ChoiceOk(Resurrected(pop, r), s.entities, next, c)
    ensures c.spawned == map[]
    ensures forall x :: x in s.entities ==>
        Visible(Resurrected(pop, r), x.entity) && Resurrected(pop, r)[x.entity].rid == x
  {
    var q := Resurrected(pop, r);
    forall x | x in s.entities ensures Visible(q, x.entity) && q[x.entity].rid == x && x in VisibleIds(q) {
      assert pop[x.entity].rid == RollbackId(x.entity);
    }
    assert c.spawned.Keys == {};
  }

  /** Without respawns the entity map is the identity on everything the snapshot knows. */
  lemma IdentityMap(pop: Pop, s: Snapshot)
    requires Native(pop) && NativeSnapshot(s)
    ensures EntityMapOf(pop, s.entities, map[]) == map e | e in Survivors(pop, s.entities) :: e
  {
  }

  lemma ReconciledSoft(pop: Pop, s: Snapshot)
    requires Family(pop, Extras(pop, s.entities)) == Extras(pop, s.entities)
    ensures Reconciled(pop, s.entities, map[]) == map e | e in pop && e !in Extras(pop, s.entities) :: pop[e]
  {
    var none: map<RollbackId, Entity> := map[];
    assert (map e | e in none.Values :: Blank(KeyOf(none, e))) == map[];
  }

  /** What a load starts from in a soft run. */
  lemma SoftLoadStarts(w: World, r: int, c: Choice, asked: int, later: int) returns (n: nat)
    requires Chronological(w.history, w.frame) && CanLoad(w, r, c) && SoftInvariant(w, asked, later) && asked <= r
    ensures n < |w.history| && RolledBack(w.history, r) == w.history[n..] && w.history[n].frame == r
    ensures c.spawned == map[]
    ensures NativeSnapshot(w.history[n].data) && Preserved(w.pop, r, w.history[n].data)
    ensures Native(BeforeReconcile(w, r))
  {
    n := RolledBackIndex(w.history, r, w.frame);
    NothingMissing(w.pop, r, w.history[n].data, w.next, c);
  }

  lemma LoadedPopSoft(w: World, cfg: Config, r: int, c: Choice, asked: int, later: int)
    requires Sound(w) && Tidy(w) && CanLoad(w, r, c) && SoftInvariant(w, asked, later) && asked <= r
    ensures var s := RolledBack(w.history, r)[0].data;
            var pop := BeforeReconcile(w, r);
            SameIdentity(map e | e in pop && e !in Extras(pop, s.entities) :: pop[e], LoadWorld(cfg, w, r, c).pop)
  {
    var n := SoftLoadStarts(w, r, c, asked, later);
    LoadDespawnsExtrasOnly(w, r);
    ReconciledSoft(BeforeReconcile(w, r), w.history[n].data);
    LoadedIdentity(cfg, BeforeReconcile(w, r), w.history[n].data, c.spawned);
  }

  /** A load keeps everything that later loads need: it leaves their bound as the bound of the next one. */
  lemma ReloadPreserves(h: seq<Entry<Snapshot>>, pop: Pop, r: int, p: Pop, asked: int, later: int)
    requires HistoryPreserved(h, pop, asked, later) && Native(pop)
    requires h != [] && h[0].frame == r >= asked
    requires forall i :: 0 <= i < |h| ==> h[i].frame <= r
    requires var q := Resurrected(pop, r);
             SameIdentity(map e | e in q && e !in Extras(q, h[0].data.entities) :: q[e], p)
    ensures HistoryPreserved(h, p, later, later)
  {
    var q := Resurrected(pop, r);
    var s := h[0].data;
    forall e | e in pop && (RollbackId(e) in s.entities || (pop[e].mark.Some? && pop[e].mark.value <= r))
      ensures e in p && p[e].mark == q[e].mark
    {
      assert e !in Extras(q, s.entities);
    }
    forall i | 0 <= i < |h| && h[i].frame >= later ensures Preserved(p, h[i].frame, h[i].data) {
      assert Preserved(pop, h[i].frame, h[i].data) && Preserved(pop, r, s);
      assert i > 0 ==> Departed(pop, r, s, h[i].data);
      forall x | x in h[i].data.entities
        ensures x.entity in p && (p[x.entity].mark.Some? ==> p[x.entity].mark.value > h[i].frame)
      {
        assert pop[x.entity].rid == RollbackId(x.entity);
      }
    }
    forall i, j | 0 <= i < j < |h| && h[j].frame >= later ensures Departed(p, h[i].frame, h[i].data, h[j].data) {
      assert Departed(pop, h[i].frame, h[i].data, h[j].data);
      assert h[i].frame <= r;
    }
  }

  lemma SuffixPreserved(h: seq<Entry<Snapshot>>, n: nat, pop: Pop, asked: int, later: int)
    requires HistoryPreserved(h, pop, asked, later) && n <= |h|
    ensures HistoryPreserved(h[n..], pop, asked, later)
  {
  }

  lemma SuffixFrames(h: seq<Entry<Snapshot>>, n: nat, r: int, now: int)
    requires Chronological(h, now) && n < |h| && h[n].frame == r
    ensures forall i :: 0 <= i < |h[n..]| ==> h[n..][i].frame <= r
  {
  }

  lemma LoadSoft(cfg: Config, w: World, r: int, c: Choice, asked: int, later: int)
    requires Sound(w) && Tidy(w) && CanLoad(w, r, c) && SoftInvariant(w, asked, later) && asked <= r
    ensures SoftInvariant(LoadWorld(cfg, w, r, c), later, later)
  {
    var n := SoftLoadStarts(w, r, c, asked, later);
    var w' := LoadWorld(cfg, w, r, c);
    LoadedPopSoft(w, cfg, r, c, asked, later);
    SuffixPreserved(w.history, n, w.pop, asked, later);
    SuffixFrames(w.history, n, r, w.frame);
    ReloadPreserves(w.history[n..], w.pop, r, w'.pop, asked, later);
  }

  // ---- Whole runs ----------------------------------------------------------------------------

  lemma EnterSoft(v: World, s: Session, asked: int, later: int)
    requires Tidy(v) && SoftInvariant(v, asked, later)
    ensures Tidy(Enter(v, s)) && SoftInvariant(Enter(v, s), asked, later)
  {
    EnterTidy(v, s);
  }

  lemma StepSoftSave(cfg: Config, v: World, ev: Event, horizon: int, asked: int, later: int)
    requires RunInvariant(cfg, v, horizon) && Permitted(v, horizon, ev) && Tidy(v) && ev.request.Save?
    requires SoftInvariant(v, asked, later)
    ensures Step(cfg, v, ev).Running? && SoftInvariant(Step(cfg, v, ev).world, asked, later)
  {
    StepServes(cfg, v, ev, horizon);
    EnterSoft(v, ev.session, asked, later);
    SaveSoft(cfg, Enter(v, ev.session), asked, later);
  }

  lemma StepSoftAdvance(cfg: Config, v: World, ev: Event, horizon: int, asked: int, later: int)
    requires RunInvariant(cfg, v, horizon) && Permitted(v, horizon, ev) && Tidy(v) && ev.request.Advance?
    requires SoftInvariant(v, asked, later) && SoftLogic(cfg) && Enter(v, ev.session).confirmed <= asked
    requires HarmlessAt(cfg, v, later, ev)
    ensures Step(cfg, v, ev).Running? && SoftInvariant(Step(cfg, v, ev).world, asked, later)
  {
    StepServes(cfg, v, ev, horizon);
    EnterSoft(v, ev.session, asked, later);
    AdvanceSoft(cfg, Enter(v, ev.session), ev.request.input, asked, later);
  }

  lemma StepSoftLoad(cfg: Config, v: World, ev: Event, horizon: int, asked: int, later: int)
    requires RunInvariant(cfg, v, horizon) && Permitted(v, horizon, ev) && Tidy(v) && ev.request.Load?
    requires SoftInvariant(v, asked, later) && asked <= ev.request.frame
    ensures Step(cfg, v, ev).Running? && SoftInvariant(Step(cfg, v, ev).world, later, later)
  {
    StepServes(cfg, v, ev, horizon);
    EnterSoft(v, ev.session, asked, later);
    LoadSoft(cfg, Enter(v, ev.session), ev.request.frame, ev.choice, asked, later);
  }

  /** One request of softly despawning logic. */
  lemma StepSoft(cfg: Config, v: World, ev: Event, horizon: int, asked: int, later: int)
    requires RunInvariant(cfg, v, horizon) && Permitted(v, horizon, ev) && Tidy(v) && SoftLogic(cfg)
    requires SoftInvariant(v, asked, later) && HarmlessAt(cfg, v, later, ev)
    requires match ev.request
             case Save => true
             case Advance(_) => Enter(v, ev.session).confirmed <= asked
             case Load(r) => asked <= r
    ensures Step(cfg, v, ev).Running?
    ensures SoftInvariant(Step(cfg, v, ev).world, if ev.request.Load? then later else asked, later)
  {
    match ev.request
    case Save => StepSoftSave(cfg, v, ev, horizon, asked, later);
    case Advance(_) => StepSoftAdvance(cfg, v, ev, horizon, asked, later);
    case Load(_) => StepSoftLoad(cfg, v, ev, horizon, asked, later);
  }

  /** Over any run: a load may ask for whatever is not below the horizon, and so may a load right after it. */
  lemma {:induction false} RunSoft(cfg: Config, w0: World, es: seq<Event>)
    requires SoftLogic(cfg) && Native(w0.pop)
    requires Conforming(cfg, w0, es) && HarmlessRun(cfg, w0, es)
    ensures RunFrom(cfg, w0, es).Running?
    ensures SoftInvariant(RunFrom(cfg, w0, es).world, Horizon(cfg, w0, es), Horizon(cfg, w0, es))
  {
    RunNeverPanics(cfg, w0, es);
    if es != [] {
      var front := es[..|es| - 1];
      RunSoft(cfg, w0, front);
      RunNeverPanics(cfg, w0, front);
      RunsAreTidy(cfg, w0, front);
      var v, before, after := RunFrom(cfg, w0, front).world, Horizon(cfg, w0, front), Horizon(cfg, w0, es);
      AskedRises(v, before, before, after, after);
      StepSoft(cfg, v, es[|es| - 1], before, after, after);
    }
  }

  /**
   Soft despawn never loses an entity, hierarchies included. Whenever a run of softly despawning
   logic, all of whose marks were harmless, serves a permitted load, nothing is respawned, the
   entity map is the identity on every saved entity, and each of them is there, visible, under its
   own handle, with its unregistered component exactly as it was before the load.
   */
  lemma SoftDespawnNeverLoses(cfg: Config, w0: World, es: seq<Event>, ev: Event, x: RollbackId)
    requires SoftLogic(cfg) && Native(w0.pop)
    requires Conforming(cfg, w0, es) && HarmlessRun(cfg, w0, es)
    requires RunFrom(cfg, w0, es).Running? && Permitted(RunFrom(cfg, w0, es).world, Horizon(cfg, w0, es), ev)
    requires ev.request.Load?
    requires var w := RunFrom(cfg, w0, es).world;
             RolledBack(w.history, ev.request.frame) != [] ==>
                 x in RolledBack(w.history, ev.request.frame)[0].data.entities
    ensures Step(cfg, RunFrom(cfg, w0, es).world, ev).Running?
    ensures var w := RunFrom(cfg, w0, es).world;
            var w' := Step(cfg, w, ev).world;
            && ev.choice.spawned == map[]
            && x.entity in w.pop && Visible(w'.pop, x.entity) && w'.pop[x.entity].rid == x
            && w'.pop[x.entity].decor == w.pop[x.entity].decor
            && x.entity in w'.entityMap && w'.entityMap[x.entity] == x.entity
  {
    var v := RunFrom(cfg, w0, es).world;
    var horizon := Horizon(cfg, w0, es);
    RunSoft(cfg, w0, es);
    RunNeverPanics(cfg, w0, es);
    RunsAreTidy(cfg, w0, es);
    StepServes(cfg, v, ev, horizon);
    EnterTidy(v, ev.session);
    SoftLoadKeeps(cfg, Enter(v, ev.session), ev.request.frame, ev.choice, horizon, horizon, x);
  }

  lemma SoftLoadKeeps(cfg: Config, w: World, r: int, c: Choice, asked: int, later: int, x: RollbackId)
    requires Sound(w) && Tidy(w) && CanLoad(w, r, c) && SoftInvariant(w, asked, later) && asked <= r
    requires x in RolledBack(w.history, r)[0].data.entities
    ensures var w' := LoadWorld(cfg, w, r, c);
            && c.spawned == map[]
            && x.entity in w.pop && Visible(w'.pop, x.entity) && w'.pop[x.entity].rid == x
            && w'.pop[x.entity].decor == w.pop[x.entity].decor
            && x.entity in w'.entityMap && w'.entityMap[x.entity] == x.entity
  {
    var n := SoftLoadStarts(w, r, c, asked, later);
    var s := w.history[n].data;
    var pop := BeforeReconcile(w, r);
    NothingMissing(w.pop, r, s, w.next, c);
    IdentityMap(pop, s);
    LoadedPopSoft(w, cfg, r, c, asked, later);
    assert x.entity in Survivors(pop, s.entities) && x.entity !in Extras(pop, s.entities);
  }

  // ---- Worlds without hierarchies --------------------------------------------------------------

  lemma FlatIsHarmless(w: World, later: int, e: Entity)
    requires Flat(w.pop) && Visible(w.pop, e)
    ensures Harmless(w, later, e)
  {
    FlatFamily(w.pop, {e});
    UnmarkedIsHarmless(w, later, e);
  }

  lemma {:induction false} FlatScriptIsHarmless(w: World, later: int, cs: seq<Command>)
    requires Flat(w.pop) && forall c :: c in cs ==> FlatCommand(c)
    ensures HarmlessScript(w, later, cs)
  {
    if cs != [] {
      var front, c := cs[..|cs| - 1], cs[|cs| - 1];
      FlatScriptIsHarmless(w, later, front);
      ExecuteAllFlat(w, front);
      var w1 := ExecuteAll(w, front);
      if c.DespawnRollback? && Resolve(w1, c.target).Some? {
        FlatIsHarmless(w1, later, Resolve(w1, c.target).value);
      }
    }
  }

  /** Without hierarchies every soft despawn is harmless. */
  lemma {:induction false} FlatRunsAreHarmless(cfg: Config, w0: World, es: seq<Event>)
    requires Conforming(cfg, w0, es) && Flat(w0.pop) && FlatLogic(cfg)
    ensures HarmlessRun(cfg, w0, es)
  {
    if es != [] {
      var front, ev := es[..|es| - 1], es[|es| - 1];
      FlatRunsAreHarmless(cfg, w0, front);
      RunsStayFlat(cfg, w0, front);
      var w := Enter(RunFrom(cfg, w0, front).world, ev.session);
      if ev.request.Advance? && CanAdvance(cfg, w) {
        FlatScriptIsHarmless(BeforeLogic(cfg, w), Horizon(cfg, w0, es),
                             cfg.logic(ViewOf(BeforeLogic(cfg, w)), ev.request.input));
      }
    }
  }
}
