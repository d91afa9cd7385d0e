/**
 Games whose rollbacks are always transparent, whatever the run: those whose entities refer to nobody,
 and those that despawn softly and harmlessly, where handles never change.
 */
module LosslessGames {
  import opened Population
  import opened SnapshotQueue
  import opened WorldModel
  import opened Soundness
  import opened Reconciliation
  import opened Restoration
  import opened Remapping
  import opened Recovery
  import opened Runs
  import opened FlatWorlds
  import opened SoftDespawn
  import opened Simulation
  import opened Transparency
  import opened Sessions
  import opened Streams
  import opened Stretches
  import opened SoftStreams

  // ---- Games without references ------------------------------------------------------------------

  /** A command that makes no component or resource refer to an entity. */
  predicate AloofCommand(c: Command) {
    !c.SetLikes? && !c.SetFavourite?
  }

  ghost predicate AloofLogic(cfg: Config) {
    forall v: View, i: Input, c: Command :: c in cfg.logic(v, i) ==> AloofCommand(c)
  }

  ghost predicate AloofPop(pop: Pop) {
    forall e :: e in pop ==> pop[e].likes.None?
  }

  ghost predicate AloofHistory(h: seq<Entry<Snapshot>>) {
    forall i :: 0 <= i < |h| ==> h[i].data.likes == map[] && h[i].data.favourite.None?
  }

  /** No component and no resource refers to an entity, now or in any snapshot. */
  ghost predicate AloofWorld(w: World) {
    AloofPop(w.pop) && w.favourite.None? && AloofHistory(w.history)
  }

  lemma SaveAloof(cfg: Config, w: World)
    requires Chronological(w.history, w.frame) && AloofWorld(w)
    ensures AloofWorld(SaveWorld(cfg, w))
  {
    var s := Capture(cfg, w);
    var drop := RecordedShape(w.history, w.confirmed, w.frame, s, w.window);
    var r := Recorded(w.history, w.confirmed, w.frame, s, w.window);
    forall i | 0 <= i < |r| ensures r[i].data.likes == map[] && r[i].data.favourite.None? {
      assert i > 0 ==> r[i] == w.history[i - 1 + drop];
    }
  }

  lemma ExecuteAloof(w: World, c: Command)
    requires AloofPop(w.pop) && w.favourite.None? && AloofCommand(c)
    ensures AloofPop(Execute(w, c).pop) && Execute(w, c).favourite.None?
  {
  }

  lemma {:induction false} ExecuteAllAloof(w: World, cs: seq<Command>)
    requires AloofPop(w.pop) && w.favourite.None? && forall c :: c in cs ==> AloofCommand(c)
    ensures AloofPop(ExecuteAll(w, cs).pop) && ExecuteAll(w, cs).favourite.None?
  {
    if cs != [] {
      ExecuteAllAloof(w, cs[..|cs| - 1]);
      ExecuteAloof(ExecuteAll(w, cs[..|cs| - 1]), cs[|cs| - 1]);
    }
  }

  lemma AdvanceAloof(cfg: Config, w: World, input: Input)
    requires CanAdvance(cfg, w) && AloofWorld(w) && AloofLogic(cfg)
    ensures AloofWorld(AdvanceWorld(cfg, w, input))
  {
    var w1 := BeforeLogic(cfg, w);
    ExecuteAllAloof(w1, cfg.logic(ViewOf(w1), input));
    AdvanceCounters(cfg, w, input);
  }

  lemma LoadedAloof(cfg: Config, pop: Pop, next: nat, r: int, s: Snapshot, c: Choice)
    requires Loadable(pop, next, r, s, c) && AloofPop(pop) && s.likes == map[]
    ensures AloofPop(LoadedPop(cfg, pop, s, c.spawned))
  {
    LoadedIdentity(cfg, pop, s, c.spawned);
    forall e | e in LoadedPop(cfg, pop, s, c.spawned) ensures LoadedPop(cfg, pop, s, c.spawned)[e].likes.None? {
      LoadedAt(cfg, pop, s, c.spawned, e);
      ReconciledAt(pop, next, r, s, c, e);
    }
  }

  lemma RolledBackAloof(h: seq<Entry<Snapshot>>, now: int, r: int)
    requires Chronological(h, now) && AloofHistory(h) && RolledBack(h, r) != []
    ensures AloofHistory(RolledBack(h, r))
  {
    var n := RolledBackIndex(h, r, now);
  }

  lemma LoadAloof(cfg: Config, w: World, r: int, c: Choice)
    requires Sound(w) && CanLoad(w, r, c) && AloofWorld(w)
    ensures AloofWorld(LoadWorld(cfg, w, r, c))
  {
    LoadStarts(w, r, c);
    RolledBackAloof(w.history, w.frame, r);
    LoadedAloof(cfg, BeforeReconcile(w, r), w.next, r, RolledBack(w.history, r)[0].data, c);
  }

  lemma StepAloof(cfg: Config, v: World, ev: Event, horizon: int)
    requires RunInvariant(cfg, v, horizon) && Permitted(v, horizon, ev) && AloofWorld(v) && AloofLogic(cfg)
    ensures Step(cfg, v, ev).Running? && AloofWorld(Step(cfg, v, ev).world)
  {
    StepServes(cfg, v, ev, horizon);
    var w := Enter(v, ev.session);
    match ev.request
    case Save => SaveAloof(cfg, w);
    case Advance(i) => AdvanceAloof(cfg, w, i);
    case Load(r) => LoadAloof(cfg, w, r, ev.choice);
  }

  lemma {:induction false} RunsStayAloof(cfg: Config, w0: World, es: seq<Event>)
    requires Conforming(cfg, w0, es) && AloofWorld(w0) && AloofLogic(cfg)
    ensures RunFrom(cfg, w0, es).Running? && AloofWorld(RunFrom(cfg, w0, es).world)
  {
    RunNeverPanics(cfg, w0, es);
    if es != [] {
      var front := es[..|es| - 1];
      RunsStayAloof(cfg, w0, front);
      RunNeverPanics(cfg, w0, front);
      StepAloof(cfg, RunFrom(cfg, w0, front).world, es[|es| - 1], Horizon(cfg, w0, front));
    }
  }

  lemma NothingToRestore(v: World, ev: Event)
    requires Chronological(v.history, v.frame) && FlatWorld(v) && AloofWorld(v)
    ensures RestoringAt(v, ev)
  {
    if ev.request.Load? && RolledBack(v.history, ev.request.frame) != [] {
      var n := RolledBackIndex(v.history, ev.request.frame, v.frame);
    }
  }

  /** Games in which nobody refers to anybody are always transparent. */
  lemma {:induction false} UnlinkedGamesRestore(cfg: Config, w0: World, es: seq<Event>)
    requires Conforming(cfg, w0, es)
    requires Flat(w0.pop) && FlatLogic(cfg) && AloofWorld(w0) && AloofLogic(cfg)
    ensures Restoring(cfg, w0, es)
  {
    if es != [] {
      var front := es[..|es| - 1];
      UnlinkedGamesRestore(cfg, w0, front);
      RunsStayFlat(cfg, w0, front);
      RunsStayAloof(cfg, w0, front);
      RunNeverPanics(cfg, w0, front);
      NothingToRestore(RunFrom(cfg, w0, front).world, es[|es| - 1]);
    }
  }

  // ---- Games that despawn softly -----------------------------------------------------------------

  /** Where everything saved is still on its own handle, every reference can be restored. */
  lemma KeptIsRestorable(pop: Pop, s: Snapshot)
    requires forall t :: t in s.entities ==> KeptHandle(pop, s, t)
    ensures Restorable(pop, s)
  {
  }

  lemma SoftLoadRestores(w: World, r: int, c: Choice, asked: int, later: int)
    requires Sound(w) && CanLoad(w, r, c) && SoftInvariant(w, asked, later) && asked <= r
    ensures Restorable(BeforeReconcile(w, r), RolledBack(w.history, r)[0].data)
  {
    var n := SoftLoadStarts(w, r, c, asked, later);
    var s := w.history[n].data;
    NothingMissing(w.pop, r, s, w.next, c);
    KeptIsRestorable(BeforeReconcile(w, r), s);
  }

  lemma SoftRestoringAt(cfg: Config, v: World, ev: Event, horizon: int, asked: int, later: int)
    requires RunInvariant(cfg, v, horizon) && Permitted(v, horizon, ev) && SoftInvariant(v, asked, later)
    requires ev.request.Load? ==> asked <= ev.request.frame
    ensures RestoringAt(v, ev)
  {
    StepServes(cfg, v, ev, horizon);
    if ev.request.Load? {
      SoftLoadRestores(Enter(v, ev.session), ev.request.frame, ev.choice, asked, later);
    }
  }

  /** Loads of softly despawning games with harmless marks find every reference restorable, hierarchies and all. */
  lemma {:induction false} SoftGamesRestore(cfg: Config, w0: World, es: seq<Event>)
    requires SoftLogic(cfg) && Native(w0.pop)
    requires Conforming(cfg, w0, es) && HarmlessRun(cfg, w0, es)
    ensures Restoring(cfg, w0, es)
  {
    if es != [] {
      var front := es[..|es| - 1];
      SoftGamesRestore(cfg, w0, front);
      RunSoft(cfg, w0, front);
      RunNeverPanics(cfg, w0, front);
      var horizon := Horizon(cfg, w0, front);
      SoftRestoringAt(cfg, RunFrom(cfg, w0, front).world, es[|es| - 1], horizon, horizon, horizon);
    }
  }

  /**
   What soft despawn is for. Game logic that despawns softly, and marks nobody that is hidden already
   and may still be asked for, can follow parents and references as it likes: after every conforming
   run the game state is the straight simulation of the latest inputs.
   */
  lemma SoftGamesAreTransparent(cfg: Config, w0: World, es: seq<Event>)
    requires cfg.Valid() && SoftLogic(cfg) && Native(w0.pop)
    requires Conforming(cfg, w0, es) && HarmlessRun(cfg, w0, es)
    ensures RunFrom(cfg, w0, es).Running?
    ensures Faithful(cfg, ViewOf(w0), RunFrom(cfg, w0, es).world, LatestInputs(es))
  {
    SoftGamesRestore(cfg, w0, es);
    RollbackTransparency(cfg, w0, es);
  }

  // ---- And over the batches of a session ---------------------------------------------------------

  lemma SoftRestoringNext(cfg: Config, w0: World, es: seq<Event>, v: World, ev: Event, asked: int, later: int)
    requires Next(cfg, w0, es, v, ev) && SoftInvariant(v, asked, later)
    requires ev.request.Load? ==> asked <= ev.request.frame
    ensures RestoringAt(v, ev)
  {
    Known(cfg, w0, es, v, ev);
    SoftRestoringAt(cfg, v, ev, Horizon(cfg, w0, es), asked, later);
  }

  lemma {:induction false} SoftStreamsRestore(cfg: Config, w0: World, depth: nat, ts: seq<Turn>)
    requires SoftLogic(cfg) && Native(w0.pop) && Legal(cfg, w0, depth, ts) && HarmlessStream(cfg, w0, depth, ts)
    ensures Restoring(cfg, w0, EventsOf(ts))
  {
    if ts != [] {
      var front, t := ts[..|ts| - 1], ts[|ts| - 1];
      var v := FirstIsNext(cfg, w0, depth, ts);
      SoftStreamsRestore(cfg, w0, depth, front);
      StreamSoft(cfg, w0, depth, front);
      SoftRestoringNext(cfg, w0, EventsOf(front), v, FirstOf(t), Asked(cfg, w0, depth, front),
                        AskedLater(cfg, w0, depth, front));
      RestoringOn(cfg, w0, EventsOf(front), v, FirstOf(t));
      RestIsOnward(t);
      OnwardRestores(cfg, w0, EventsOf(front) + [FirstOf(t)], RestOf(t));
      LastEvents(ts);
    }
  }

  /** After every legal, harmless stream the game state is that of the corrected inputs played straight through. */
  lemma SoftStreamsAreTransparent(cfg: Config, w0: World, depth: nat, ts: seq<Turn>)
    requires cfg.Valid() && SoftLogic(cfg) && Native(w0.pop)
    requires Legal(cfg, w0, depth, ts) && HarmlessStream(cfg, w0, depth, ts)
    ensures RunFrom(cfg, w0, EventsOf(ts)).Running? && |Corrected(ts)| == |ts|
    ensures ViewOf(RunFrom(cfg, w0, EventsOf(ts)).world) == Simulate(cfg, ViewOf(w0), Corrected(ts))
  {
    SoftStreamsRestore(cfg, w0, depth, ts);
    LegalStreamsAreTransparent(cfg, w0, depth, ts);
  }
}
