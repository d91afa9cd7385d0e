/**
 What lasts while nothing is loaded, however often the game saves and advances: stored snapshots that
 may still be asked for, and the whereabouts of an identity. And what lasts whatever is requested:
 handles that are out of use.
 */
module Stretches {
  import opened Prelude
  import opened SnapshotQueue
  import opened WorldModel
  import opened Soundness
  import opened Reconciliation
  import opened Bystanders
  import opened Runs

  /** Saves and advances only. */
  predicate Onward(es: seq<Event>) {
    es == [] || (Onward(es[..|es| - 1]) && !es[|es| - 1].request.Load?)
  }

  lemma {:induction false} OnwardEvents(es: seq<Event>)
    requires forall i :: 0 <= i < |es| ==> !es[i].request.Load?
    ensures Onward(es)
  {
    if es != [] {
      OnwardEvents(es[..|es| - 1]);
    }
  }

  /** A conforming run has led to `v`, where `ev` is permitted. */
  ghost predicate Next(cfg: Config, w0: World, es: seq<Event>, v: World, ev: Event) {
    Conforming(cfg, w0, es) && RunFrom(cfg, w0, es) == Running(v) && Permitted(v, Horizon(cfg, w0, es), ev)
  }

  /** What is known of the world there. */
  lemma Known(cfg: Config, w0: World, es: seq<Event>, v: World, ev: Event)
    requires Next(cfg, w0, es, v, ev)
    ensures RunInvariant(cfg, v, Horizon(cfg, w0, es)) && Tidy(v)
  {
    RunNeverPanics(cfg, w0, es);
    RunsAreTidy(cfg, w0, es);
  }

  /** The last event of a conforming run. */
  lemma LastStep(cfg: Config, w0: World, es: seq<Event>, more: seq<Event>)
    returns (front: seq<Event>, v: World, ev: Event)
    requires Conforming(cfg, w0, es + more) && more != []
    ensures front == more[..|more| - 1] && ev == more[|more| - 1] && Next(cfg, w0, es + front, v, ev)
    ensures Horizon(cfg, w0, es + more) == HorizonAfter(Horizon(cfg, w0, es + front), v, ev)
    ensures RunFrom(cfg, w0, es + more) == Step(cfg, v, ev) && Step(cfg, v, ev).Running?
  {
    front := more[..|more| - 1];
    assert (es + more)[..|es + more| - 1] == es + front;
    RunNeverPanics(cfg, w0, es + front);
    RunNeverPanics(cfg, w0, es + more);
    v, ev := RunFrom(cfg, w0, es + front).world, more[|more| - 1];
  }

  lemma {:induction false} HorizonGrows(cfg: Config, w0: World, es: seq<Event>, more: seq<Event>)
    ensures Horizon(cfg, w0, es) <= Horizon(cfg, w0, es + more)
    decreases |more|
  {
    if more == [] {
      assert es + more == es;
    } else {
      assert (es + more)[..|es + more| - 1] == es + more[..|more| - 1];
      HorizonGrows(cfg, w0, es, more[..|more| - 1]);
    }
  }

  /** A first load, whatever lies between, and a second load. */
  function TwoLoads(first: Event, more: seq<Event>, second: Event): seq<Event> {
    [first] + more + [second]
  }

  lemma InOrder(es: seq<Event>, first: Event, more: seq<Event>, second: Event)
    ensures es + TwoLoads(first, more, second) == es + [first] + more + [second]
    ensures es + [first] <= es + TwoLoads(first, more, second)
  {
  }

  // ---- Stored snapshots ----------------------------------------------------------------------

  /** Unrolling to a stored frame. */
  lemma StoredEntry(h: seq<Entry<Snapshot>>, now: int, e: Entry<Snapshot>)
    requires Chronological(h, now) && e in h
    ensures RolledBack(h, e.frame) != [] && RolledBack(h, e.frame)[0] == e
    ensures forall o :: o in h && o.frame <= e.frame ==> o in RolledBack(h, e.frame)
  {
    RolledBackIsDrop(h, e.frame);
    var n := |h| - |RolledBack(h, e.frame)|;
    var i :| 0 <= i < |h| && h[i] == e;
    assert n <= i;
    assert n < |h| && h[n] == RolledBack(h, e.frame)[0];
    assert n == i;
    forall o | o in h && o.frame <= e.frame ensures o in RolledBack(h, e.frame) {
      var k :| 0 <= k < |h| && h[k] == o;
      assert k >= n && h[n..][k - n] == o;
    }
  }

  /** A save evicts and prunes nothing that is inside the window and not below the confirmed frame. */
  lemma RecordedKeeps(h: seq<Entry<Snapshot>>, confirmed: int, frame: int, s: Snapshot, depth: nat, e: Entry<Snapshot>)
    requires Chronological(h, frame) && Contiguous(h, frame) && depth >= 1
    requires e in h && e.frame < frame && Max(confirmed, frame + 1 - depth) <= e.frame
    ensures e in Recorded(h, confirmed, frame, s, depth)
  {
    var drop := RecordedShape(h, confirmed, frame, s, depth);
    var r := Recorded(h, confirmed, frame, s, depth);
    RecordedContiguousFrames(h, confirmed, frame, s, depth);
    var k :| 0 <= k < |h| && h[k] == e;
    assert r[k + 1 - drop] == h[k];
  }

  lemma SaveKeepsEntry(cfg: Config, w: World, e: Entry<Snapshot>)
    requires Chronological(w.history, w.frame) && Contiguous(w.history, w.frame) && w.window >= 1
    requires e in w.history && e.frame < w.frame && Max(w.confirmed, w.frame + 1 - w.window) <= e.frame
    ensures e in SaveWorld(cfg, w).history
  {
    RecordedKeeps(w.history, w.confirmed, w.frame, Capture(cfg, w), w.window, e);
  }

  lemma AdvanceKeepsEntry(cfg: Config, w: World, input: Input, e: Entry<Snapshot>)
    requires CanAdvance(cfg, w) && e in w.history && e.frame < w.frame
    ensures e in AdvanceWorld(cfg, w, input).history && e.frame < AdvanceWorld(cfg, w, input).frame
  {
    AdvanceCounters(cfg, w, input);
  }

  lemma StepKeepsEntry(cfg: Config, v: World, ev: Event, horizon: int, e: Entry<Snapshot>)
    requires Chronological(v.history, v.frame) && Contiguous(v.history, v.frame) && !ev.request.Load?
    requires Window(ev.session).GetOr(0) >= 1 && Step(cfg, v, ev).Running?
    requires e in v.history && HorizonAfter(horizon, v, ev) <= e.frame < v.frame
    ensures e in Step(cfg, v, ev).world.history && e.frame < Step(cfg, v, ev).world.frame
  {
    var w := Enter(v, ev.session);
    if ev.request.Save? {
      SaveStep(cfg, v, ev, horizon);
      SaveKeepsEntry(cfg, w, e);
    } else {
      AdvanceKeepsEntry(cfg, w, ev.request.input, e);
    }
  }

  lemma NextKeepsEntry(cfg: Config, w0: World, es: seq<Event>, v: World, ev: Event, e: Entry<Snapshot>)
    requires Next(cfg, w0, es, v, ev) && !ev.request.Load? && Step(cfg, v, ev).Running?
    requires e in v.history && HorizonAfter(Horizon(cfg, w0, es), v, ev) <= e.frame < v.frame
    ensures e in Step(cfg, v, ev).world.history && e.frame < Step(cfg, v, ev).world.frame
  {
    Known(cfg, w0, es, v, ev);
    StepKeepsEntry(cfg, v, ev, Horizon(cfg, w0, es), e);
  }

  /** A stored snapshot stays the same as long as it may be asked for and nothing is loaded. */
  lemma {:induction false} EntryStays(cfg: Config, w0: World, es: seq<Event>, more: seq<Event>, e: Entry<Snapshot>)
    requires Conforming(cfg, w0, es + more) && Onward(more)
    requires RunFrom(cfg, w0, es).Running? && e in RunFrom(cfg, w0, es).world.history
    requires e.frame < RunFrom(cfg, w0, es).world.frame && Horizon(cfg, w0, es + more) <= e.frame
    ensures RunFrom(cfg, w0, es + more).Running? && e in RunFrom(cfg, w0, es + more).world.history
    ensures e.frame < RunFrom(cfg, w0, es + more).world.frame
  {
    if more == [] {
      assert es + more == es;
    } else {
      var front, v, ev := LastStep(cfg, w0, es, more);
      EntryStays(cfg, w0, es, front, e);
      NextKeepsEntry(cfg, w0, es + front, v, ev, e);
    }
  }

  // ---- The whereabouts of an identity ----------------------------------------------------------

  /** Identity `x` is nowhere but on these handles, and its unregistered component is gone. */
  ghost predicate Confined(w: World, x: RollbackId, handles: set<Entity>) {
    && x.entity.id < w.next
    && forall e :: e in w.pop && w.pop[e].rid == x ==> e in handles && w.pop[e].decor.None?
  }

  lemma ExecuteConfined(w: World, c: Command, x: RollbackId, handles: set<Entity>)
    requires Confined(w, x, handles)
    ensures Confined(Execute(w, c), x, handles)
  {
  }

  lemma {:induction false} ExecuteAllConfined(w: World, cs: seq<Command>, x: RollbackId, handles: set<Entity>)
    requires Confined(w, x, handles)
    ensures Confined(ExecuteAll(w, cs), x, handles)
  {
    if cs != [] {
      ExecuteAllConfined(w, cs[..|cs| - 1], x, handles);
      ExecuteConfined(ExecuteAll(w, cs[..|cs| - 1]), cs[|cs| - 1], x, handles);
    }
  }

  lemma StepConfined(cfg: Config, v: World, ev: Event, x: RollbackId, handles: set<Entity>)
    requires !ev.request.Load? && Step(cfg, v, ev).Running? && Confined(v, x, handles)
    ensures Confined(Step(cfg, v, ev).world, x, handles)
  {
    var w := Enter(v, ev.session);
    if ev.request.Advance? {
      var w1 := BeforeLogic(cfg, w);
      ExecuteAllConfined(w1, cfg.logic(ViewOf(w1), ev.request.input), x, handles);
    }
  }

  /** Saves and advances cannot bring an identity back, or onto another handle. */
  lemma {:induction false} ConfinedStays(cfg: Config, w0: World, es: seq<Event>, more: seq<Event>, x: RollbackId,
                                        handles: set<Entity>)
    requires Conforming(cfg, w0, es + more) && Onward(more)
    requires RunFrom(cfg, w0, es).Running? && Confined(RunFrom(cfg, w0, es).world, x, handles)
    ensures RunFrom(cfg, w0, es + more).Running? && Confined(RunFrom(cfg, w0, es + more).world, x, handles)
  {
    if more == [] {
      assert es + more == es;
    } else {
      var front, v, ev := LastStep(cfg, w0, es, more);
      ConfinedStays(cfg, w0, es, front, x, handles);
      StepConfined(cfg, v, ev, x, handles);
    }
  }

  // ---- Handles that are gone -------------------------------------------------------------------

  /** A handle that was given out and is not in use. */
  ghost predicate Dead(w: World, l: Entity) {
    l !in w.pop && l.id < w.next
  }

  lemma ExecuteDead(w: World, c: Command, l: Entity)
    requires Dead(w, l)
    ensures Dead(Execute(w, c), l)
  {
  }

  lemma {:induction false} ExecuteAllDead(w: World, cs: seq<Command>, l: Entity)
    requires Dead(w, l)
    ensures Dead(ExecuteAll(w, cs), l)
  {
    if cs != [] {
      ExecuteAllDead(w, cs[..|cs| - 1], l);
      ExecuteDead(ExecuteAll(w, cs[..|cs| - 1]), cs[|cs| - 1], l);
    }
  }

  lemma LoadDead(cfg: Config, w: World, r: int, c: Choice, l: Entity)
    requires Sound(w) && CanLoad(w, r, c) && Dead(w, l)
    ensures Dead(LoadWorld(cfg, w, r, c), l)
  {
    var s, pop := RolledBack(w.history, r)[0].data, BeforeReconcile(w, r);
    LoadStarts(w, r, c);
    LoadedIdentity(cfg, pop, s, c.spawned);
    ReconciledAt(pop, w.next, r, s, c, l);
    FreshIsNew(pop, w.next, r, s, c);
  }

  lemma AdvanceDead(cfg: Config, w: World, input: Input, l: Entity)
    requires CanAdvance(cfg, w) && Dead(w, l)
    ensures Dead(AdvanceWorld(cfg, w, input), l)
  {
    var w1 := BeforeLogic(cfg, w);
    ExecuteAllDead(w1, cfg.logic(ViewOf(w1), input), l);
  }

  lemma StepDead(cfg: Config, v: World, ev: Event, horizon: int, l: Entity)
    requires RunInvariant(cfg, v, horizon) && Permitted(v, horizon, ev) && Dead(v, l)
    ensures Step(cfg, v, ev).Running? && Dead(Step(cfg, v, ev).world, l)
  {
    StepServes(cfg, v, ev, horizon);
    var w := Enter(v, ev.session);
    match ev.request
    case Save =>
    case Advance(i) => AdvanceDead(cfg, w, i, l);
    case Load(r) => LoadDead(cfg, w, r, ev.choice, l);
  }

  lemma NextDead(cfg: Config, w0: World, es: seq<Event>, v: World, ev: Event, l: Entity)
    requires Next(cfg, w0, es, v, ev) && Dead(v, l)
    ensures Step(cfg, v, ev).Running? && Dead(Step(cfg, v, ev).world, l)
  {
    Known(cfg, w0, es, v, ev);
    StepDead(cfg, v, ev, Horizon(cfg, w0, es), l);
  }

  /** A handle that has gone out of use stays so, whatever is requested, loads included. */
  lemma {:induction false} DeadStays(cfg: Config, w0: World, es: seq<Event>, more: seq<Event>, l: Entity)
    requires Conforming(cfg, w0, es + more)
    requires RunFrom(cfg, w0, es).Running? && Dead(RunFrom(cfg, w0, es).world, l)
    ensures RunFrom(cfg, w0, es + more).Running? && Dead(RunFrom(cfg, w0, es + more).world, l)
  {
    if more == [] {
      assert es + more == es;
    } else {
      var front, v, ev := LastStep(cfg, w0, es, more);
      DeadStays(cfg, w0, es, front, l);
      NextDead(cfg, w0, es + front, v, ev, l);
    }
  }
}
