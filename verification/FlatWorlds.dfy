/** Worlds without hierarchies: game logic that gives no parents keeps them that way. */
module FlatWorlds {
  import opened Population
  import opened SnapshotQueue
  import opened WorldModel
  import opened Soundness
  import opened Reconciliation
  import opened Restoration
  import opened Runs

  /** A command that gives no parent. */
  predicate FlatCommand(c: Command) {
    c.Spawn? ==> c.parentIndex.None?
  }

  /** Game logic that never gives an entity a parent. */
  ghost predicate FlatLogic(cfg: Config) {
    forall v: View, i: Input, c: Command :: c in cfg.logic(v, i) ==> FlatCommand(c)
  }

  ghost predicate FlatHistory(h: seq<Entry<Snapshot>>) {
    forall i :: 0 <= i < |h| ==> h[i].data.parents == map[]
  }

  ghost predicate FlatWorld(w: World) {
    Flat(w.pop) && FlatHistory(w.history)
  }

  lemma CaptureFlat(cfg: Config, w: World)
    requires Flat(w.pop)
    ensures Capture(cfg, w).parents == map[]
  {
  }

  lemma RecordedFlat(h: seq<Entry<Snapshot>>, confirmed: int, frame: int, s: Snapshot, depth: nat)
    requires Chronological(h, frame) && FlatHistory(h) && s.parents == map[]
    ensures FlatHistory(Recorded(h, confirmed, frame, s, depth))
  {
    var drop := RecordedShape(h, confirmed, frame, s, depth);
    var r := Recorded(h, confirmed, frame, s, depth);
    forall i | 0 <= i < |r| ensures r[i].data.parents == map[] {
      assert i > 0 ==> r[i] == h[i - 1 + drop];
    }
  }

  lemma ExecuteFlat(w: World, c: Command)
    requires Flat(w.pop) && FlatCommand(c)
    ensures Flat(Execute(w, c).pop)
  {
  }

  lemma {:induction false} ExecuteAllFlat(w: World, cs: seq<Command>)
    requires Flat(w.pop) && forall c :: c in cs ==> FlatCommand(c)
    ensures Flat(ExecuteAll(w, cs).pop)
  {
    if cs != [] {
      ExecuteAllFlat(w, cs[..|cs| - 1]);
      ExecuteFlat(ExecuteAll(w, cs[..|cs| - 1]), cs[|cs| - 1]);
    }
  }

  lemma AdvanceFlat(cfg: Config, w: World, input: Input)
    requires CanAdvance(cfg, w) && FlatWorld(w) && FlatLogic(cfg)
    ensures FlatWorld(AdvanceWorld(cfg, w, input))
  {
    var w1 := BeforeLogic(cfg, w);
    ExecuteAllFlat(w1, cfg.logic(ViewOf(w1), input));
    AdvanceCounters(cfg, w, input);
  }

  lemma ResurrectedFlat(pop: Pop, frame: int)
    requires Flat(pop)
    ensures Flat(Resurrected(pop, frame))
  {
  }

  lemma LoadKeepsFlat(cfg: Config, w: World, frame: int, c: Choice)
    requires Sound(w) && CanLoad(w, frame, c) && Flat(w.pop)
    requires RolledBack(w.history, frame)[0].data.parents == map[]
    ensures Flat(LoadWorld(cfg, w, frame, c).pop)
  {
    var s := RolledBack(w.history, frame)[0].data;
    var pop := BeforeReconcile(w, frame);
    LoadStarts(w, frame, c);
    var p := LoadWorld(cfg, w, frame, c).pop;
    LoadedIdentity(cfg, pop, s, c.spawned);
    ResurrectedFlat(w.pop, frame);
    forall e | e in p ensures p[e].parent.None? {
      LoadedAt(cfg, pop, s, c.spawned, e);
      ReconciledAt(pop, w.next, frame, s, c, e);
    }
  }

  lemma RolledBackFlat(h: seq<Entry<Snapshot>>, now: int, r: int)
    requires Chronological(h, now) && FlatHistory(h) && RolledBack(h, r) != []
    ensures FlatHistory(RolledBack(h, r))
  {
    var n := RolledBackIndex(h, r, now);
  }

  lemma StepFlat(cfg: Config, v: World, ev: Event, horizon: int)
    requires RunInvariant(cfg, v, horizon) && Permitted(v, horizon, ev) && FlatWorld(v) && FlatLogic(cfg)
    ensures Step(cfg, v, ev).Running? && FlatWorld(Step(cfg, v, ev).world)
  {
    var w := Enter(v, ev.session);
    StepServes(cfg, v, ev, horizon);
    match ev.request
    case Save =>
      CaptureFlat(cfg, w);
      RecordedFlat(w.history, w.confirmed, w.frame, Capture(cfg, w), w.window);
    case Advance(i) => AdvanceFlat(cfg, w, i);
    case Load(r) =>
      RolledBackFlat(w.history, w.frame, r);
      LoadKeepsFlat(cfg, w, r, ev.choice);
  }

  /** Flat games stay flat, in the world and in every snapshot. */
  lemma {:induction false} RunsStayFlat(cfg: Config, w0: World, es: seq<Event>)
    requires Conforming(cfg, w0, es) && Flat(w0.pop) && FlatLogic(cfg)
    ensures RunFrom(cfg, w0, es).Running? && FlatWorld(RunFrom(cfg, w0, es).world)
  {
    RunNeverPanics(cfg, w0, es);
    if es != [] {
      var front := es[..|es| - 1];
      RunsStayFlat(cfg, w0, front);
      RunNeverPanics(cfg, w0, front);
      StepFlat(cfg, RunFrom(cfg, w0, front).world, es[|es| - 1], Horizon(cfg, w0, front));
    }
  }
}
