/**
 Rollback transparency: rewinding and replaying equals having had the right inputs all along.
 */
module Transparency {
  import opened Prelude
  import opened Population
  import opened SnapshotQueue
  import opened WorldModel
  import opened Soundness
  import opened Reconciliation
  import opened Simulation
  import opened Restoration
  import opened Hierarchy
  import opened Recovery
  import opened Runs
  import opened Stretches
  import opened References

  /** For each frame played so far, the input that was given for it last. */
  function LatestInputs(es: seq<Event>): seq<Input> {
    if es == [] then []
    else
      var inputs := LatestInputs(es[..|es| - 1]);
      InputsAfter(inputs, es[|es| - 1].request)
  }

  function InputsAfter(inputs: seq<Input>, r: Request): seq<Input> {
    match r
    case Save => inputs
    case Advance(i) => inputs + [i]
    case Load(f) => if 0 <= f <= |inputs| then inputs[..f] else inputs
  }

  /** Snapshot `e` records the straight-through simulation up to its own frame. */
  ghost predicate RecordsSimulation(cfg: Config, v0: View, e: Entry<Snapshot>, inputs: seq<Input>)
    requires cfg.rate >= 1
  {
    0 <= e.frame <= |inputs| && SnapshotOf(cfg, e.frame, e.data, Simulate(cfg, v0, inputs[..e.frame]))
  }

  ghost predicate HistoryFaithful(cfg: Config, v0: View, h: seq<Entry<Snapshot>>, inputs: seq<Input>)
    requires cfg.rate >= 1
  {
    forall i :: 0 <= i < |h| ==> RecordsSimulation(cfg, v0, h[i], inputs)
  }

  /** The game state, now and in every snapshot, is the straight simulation of the inputs. */
  ghost predicate Faithful(cfg: Config, v0: View, w: World, inputs: seq<Input>)
    requires cfg.rate >= 1
  {
    && |inputs| == w.frame
    && ViewOf(w) == Simulate(cfg, v0, inputs)
    && HistoryFaithful(cfg, v0, w.history, inputs)
  }

  // ---- One frame -----------------------------------------------------------------------------

  /** Below a hidden entity everything is hidden. */
  lemma HiddenFamily(pop: Pop, gone: set<Entity>)
    requires HiddenTogether(pop) && forall e :: e in gone ==> e in pop && pop[e].mark.Some?
    ensures forall e :: e in Family(pop, gone) ==> e in pop && pop[e].mark.Some?
  {
    var hidden := set e | e in pop && pop[e].mark.Some?;
    forall e | e in pop && ChildOf(pop, e, hidden) ensures e in hidden {
      assert LinkedTo(pop, e, pop[e].parent.value);
    }
    FamilyIsLeast(pop, gone, hidden);
  }

  /** Removing entities that are hidden anyway cannot be seen. */
  lemma ConfirmedDespawnUnseen(w: World)
    requires Indexed(w.pop, w.ordered) && HiddenTogether(w.pop)
    ensures ViewOf(DespawnConfirmed(w)) == ViewOf(w)
  {
    var gone := ConfirmedGone(w.pop, w.confirmed);
    var p := Despawned(w.pop, gone);
    HiddenFamily(w.pop, gone);
    assert SameFamily(w.pop, w.ordered, Family(w.pop, gone), {});
    DespawnedRemain(w.pop, w.ordered, Family(w.pop, gone), {}, p);
    RemainingBodies(w.pop, w.ordered, p, {});
    RemainingLinks(w.pop, w.ordered, p, {}, ParentLink);
    RemainingLinks(w.pop, w.ordered, p, {}, LikesLink);
    RemainingReference(w.pop, w.ordered, p, {}, w.favourite);
    NothingGone(Bodies(w.pop, w.ordered.sorted));
    NothingUnlinked(Parents(w.pop, w.ordered));
    NothingUnlinked(Likes(w.pop, w.ordered));
  }

  lemma TickView(cfg: Config, w: World)
    requires CanAdvance(cfg, w)
    ensures ViewOf(Tick(cfg, w)) == NextFrame(cfg, ViewOf(w))
  {
  }

  lemma {:induction false} ExecuteAllView(w: World, cs: seq<Command>)
    requires Live(w) && Coherent(w)
    ensures ViewOf(ExecuteAll(w, cs)) == ApplyAll(ViewOf(w), cs)
  {
    if cs != [] {
      var front := cs[..|cs| - 1];
      ExecuteAllView(w, front);
      ExecuteAllKeepsLive(w, front);
      ExecuteAllLinkSafe(w, front);
      ExecuteAllReferenceSafe(w, front);
      ExecuteView(ExecuteAll(w, front), cs[|cs| - 1]);
    }
  }

  /** One advance is one step of the reference semantics, whatever handles and confirmed frame are in play. */
  lemma AdvanceIsGameStep(cfg: Config, w: World, input: Input)
    requires Sound(w) && Coherent(w) && CanAdvance(cfg, w)
    ensures ViewOf(AdvanceWorld(cfg, w, input)) == GameStep(cfg, ViewOf(w), input)
  {
    TickView(cfg, w);
    ConfirmedDespawnUnseen(Tick(cfg, w));
    BeforeLogicIsLive(cfg, w);
    BeforeLogicLinkSafe(cfg, w);
    BeforeLogicReferenceSafe(cfg, w);
    ExecuteAllView(BeforeLogic(cfg, w), cfg.logic(ViewOf(BeforeLogic(cfg, w)), input));
  }

  // ---- Requests ------------------------------------------------------------------------------

  lemma EnterFaithful(cfg: Config, v0: View, w: World, s: Session, inputs: seq<Input>)
    requires cfg.rate >= 1 && Faithful(cfg, v0, w, inputs)
    ensures Faithful(cfg, v0, Enter(w, s), inputs)
  {
  }

  lemma RecordedFaithful(cfg: Config, v0: View, h: seq<Entry<Snapshot>>, confirmed: int, frame: int, s: Snapshot,
                         depth: nat, inputs: seq<Input>)
    requires cfg.rate >= 1 && depth >= 1 && Chronological(h, frame)
    requires HistoryFaithful(cfg, v0, h, inputs)
    requires RecordsSimulation(cfg, v0, Entry(frame, s), inputs)
    ensures HistoryFaithful(cfg, v0, Recorded(h, confirmed, frame, s, depth), inputs)
  {
    var drop := RecordedShape(h, confirmed, frame, s, depth);
    var r := Recorded(h, confirmed, frame, s, depth);
    forall i | 0 <= i < |r| ensures RecordsSimulation(cfg, v0, r[i], inputs) {
      assert i > 0 ==> r[i] == h[i - 1 + drop];
    }
  }

  lemma SaveView(cfg: Config, w: World)
    ensures ViewOf(SaveWorld(cfg, w)) == ViewOf(w)
  {
  }

  lemma SaveFaithful(cfg: Config, v0: View, w: World, inputs: seq<Input>)
    requires cfg.rate >= 1 && Sound(w) && Coherent(w) && Faithful(cfg, v0, w, inputs) && w.window >= 1
    ensures Faithful(cfg, v0, SaveWorld(cfg, w), inputs)
  {
    assert inputs[..w.frame] == inputs;
    CaptureRecordsView(cfg, w);
    RecordedFaithful(cfg, v0, w.history, w.confirmed, w.frame, Capture(cfg, w), w.window, inputs);
    SaveView(cfg, w);
  }

  /** What a snapshot records depends only on the inputs before its frame. */
  lemma SamePrefixFaithful(cfg: Config, v0: View, h: seq<Entry<Snapshot>>, inputs: seq<Input>, inputs': seq<Input>)
    requires cfg.rate >= 1 && HistoryFaithful(cfg, v0, h, inputs)
    requires forall i :: 0 <= i < |h| ==> 0 <= h[i].frame <= |inputs| && h[i].frame <= |inputs'|
                                          && inputs'[..h[i].frame] == inputs[..h[i].frame]
    ensures HistoryFaithful(cfg, v0, h, inputs')
  {
  }

  lemma RolledBackMembers(cfg: Config, v0: View, h: seq<Entry<Snapshot>>, now: int, r: int, inputs: seq<Input>)
    requires cfg.rate >= 1 && Chronological(h, now) && RolledBack(h, r) != []
    requires HistoryFaithful(cfg, v0, h, inputs)
    ensures HistoryFaithful(cfg, v0, RolledBack(h, r), inputs)
    ensures forall i :: 0 <= i < |RolledBack(h, r)| ==> RolledBack(h, r)[i].frame <= r
    ensures RolledBack(h, r)[0].frame == r
  {
    var n := RolledBackIndex(h, r, now);
    var q := RolledBack(h, r);
    forall i | 0 <= i < |q| ensures RecordsSimulation(cfg, v0, q[i], inputs) && q[i].frame <= r {
      assert q[i] == h[n + i];
    }
  }

  lemma RolledBackFaithful(cfg: Config, v0: View, h: seq<Entry<Snapshot>>, now: int, r: int, inputs: seq<Input>)
    requires cfg.rate >= 1 && Chronological(h, now) && RolledBack(h, r) != []
    requires HistoryFaithful(cfg, v0, h, inputs)
    ensures 0 <= r <= |inputs|
    ensures RecordsSimulation(cfg, v0, RolledBack(h, r)[0], inputs)
    ensures HistoryFaithful(cfg, v0, RolledBack(h, r), inputs[..r])
  {
    RolledBackMembers(cfg, v0, h, now, r, inputs);
    var q := RolledBack(h, r);
    assert RecordsSimulation(cfg, v0, q[0], inputs);
    forall i | 0 <= i < |q| ensures 0 <= q[i].frame <= |inputs| && inputs[..r][..q[i].frame] == inputs[..q[i].frame] {
      assert RecordsSimulation(cfg, v0, q[i], inputs);
    }
    SamePrefixFaithful(cfg, v0, q, inputs, inputs[..r]);
  }

  /** After a load the snapshots are still faithful, so only the view is left to compare. */
  lemma LoadKeepsRecords(cfg: Config, v0: View, w: World, r: int, c: Choice, inputs: seq<Input>)
    requires cfg.rate >= 1 && Chronological(w.history, w.frame) && RolledBack(w.history, r) != []
    requires Faithful(cfg, v0, w, inputs)
    ensures 0 <= r <= |inputs|
    ensures SnapshotOf(cfg, r, RolledBack(w.history, r)[0].data, Simulate(cfg, v0, inputs[..r]))
    ensures Faithful(cfg, v0, LoadWorld(cfg, w, r, c), inputs[..r])
            <==> ViewOf(LoadWorld(cfg, w, r, c)) == Simulate(cfg, v0, inputs[..r])
  {
    RolledBackMembers(cfg, v0, w.history, w.frame, r, inputs);
    RolledBackFaithful(cfg, v0, w.history, w.frame, r, inputs);
  }

  /** A load is transparent exactly when the references of its snapshot are restorable. */
  lemma LoadFaithful(cfg: Config, v0: View, w: World, r: int, c: Choice, inputs: seq<Input>)
    requires cfg.Valid() && Ready(w, r, c) && Faithful(cfg, v0, w, inputs)
    ensures 0 <= r <= |inputs|
    ensures Faithful(cfg, v0, LoadWorld(cfg, w, r, c), inputs[..r])
            <==> Restorable(BeforeReconcile(w, r), RolledBack(w.history, r)[0].data)
  {
    LoadKeepsRecords(cfg, v0, w, r, c, inputs);
    LoadRestoresView(cfg, w, r, c, Simulate(cfg, v0, inputs[..r]));
  }

  lemma ExtendedFaithful(cfg: Config, v0: View, h: seq<Entry<Snapshot>>, inputs: seq<Input>, input: Input)
    requires cfg.rate >= 1 && HistoryFaithful(cfg, v0, h, inputs)
    ensures HistoryFaithful(cfg, v0, h, inputs + [input])
    ensures Simulate(cfg, v0, inputs + [input]) == GameStep(cfg, Simulate(cfg, v0, inputs), input)
  {
    var inputs' := inputs + [input];
    assert inputs'[..|inputs'| - 1] == inputs;
    forall i | 0 <= i < |h| ensures 0 <= h[i].frame <= |inputs| && inputs'[..h[i].frame] == inputs[..h[i].frame] {
      assert RecordsSimulation(cfg, v0, h[i], inputs);
    }
    SamePrefixFaithful(cfg, v0, h, inputs, inputs');
  }

  lemma AdvanceFaithful(cfg: Config, v0: View, w: World, input: Input, inputs: seq<Input>)
    requires cfg.rate >= 1 && Sound(w) && Coherent(w) && Faithful(cfg, v0, w, inputs) && CanAdvance(cfg, w)
    ensures Faithful(cfg, v0, AdvanceWorld(cfg, w, input), inputs + [input])
  {
    AdvanceIsGameStep(cfg, w, input);
    AdvanceKeepsSound(cfg, w, input);
    ExtendedFaithful(cfg, v0, w.history, inputs, input);
  }

  // ---- Whole runs ----------------------------------------------------------------------------

  /** If the next request is a load, the references of its snapshot are restorable. */
  ghost predicate RestoringAt(v: World, ev: Event) {
    ev.request.Load? && RolledBack(v.history, ev.request.frame) != [] ==>
      Restorable(BeforeReconcile(v, ev.request.frame), RolledBack(v.history, ev.request.frame)[0].data)
  }

  /** Every load of the run found restorable references. */
  ghost predicate Restoring(cfg: Config, w0: World, es: seq<Event>) {
    if es == [] then true
    else
      var front := es[..|es| - 1];
      && Restoring(cfg, w0, front)
      && (RunFrom(cfg, w0, front).Running? ==> RestoringAt(RunFrom(cfg, w0, front).world, es[|es| - 1]))
  }

  /** One more request. */
  lemma RestoringOn(cfg: Config, w0: World, es: seq<Event>, v: World, ev: Event)
    requires RunFrom(cfg, w0, es) == Running(v)
    ensures Restoring(cfg, w0, es + [ev]) <==> Restoring(cfg, w0, es) && RestoringAt(v, ev)
  {
    assert (es + [ev])[..|es + [ev]| - 1] == es;
  }

  /** Saves and advances do not matter for that. */
  lemma {:induction false} OnwardRestores(cfg: Config, w0: World, es: seq<Event>, rest: seq<Event>)
    requires Restoring(cfg, w0, es) && Onward(rest)
    ensures Restoring(cfg, w0, es + rest)
  {
    if rest == [] {
      assert es + rest == es;
    } else {
      OnwardRestores(cfg, w0, es, rest[..|rest| - 1]);
      assert (es + rest)[..|es + rest| - 1] == es + rest[..|rest| - 1];
    }
  }

  lemma ServeFaithful(cfg: Config, v0: View, w: World, request: Request, c: Choice, inputs: seq<Input>)
    requires cfg.Valid() && Sound(w) && Coherent(w) && Faithful(cfg, v0, w, inputs) && !request.Load?
    requires request.Save? ==> w.window >= 1
    requires request.Advance? ==> CanAdvance(cfg, w)
    ensures request.Save? ==> Faithful(cfg, v0, SaveWorld(cfg, w), InputsAfter(inputs, request))
    ensures request.Advance? ==> Faithful(cfg, v0, AdvanceWorld(cfg, w, request.input), InputsAfter(inputs, request))
  {
    if request.Save? {
      SaveFaithful(cfg, v0, w, inputs);
    } else {
      AdvanceFaithful(cfg, v0, w, request.input, inputs);
    }
  }

  lemma EnterCoherent(v: World, s: Session)
    requires Coherent(v)
    ensures Coherent(Enter(v, s))
  {
  }

  /** A load request, in terms of the load. */
  lemma LoadStep(cfg: Config, v0: View, v: World, ev: Event, inputs: seq<Input>)
    requires cfg.rate >= 1 && ev.request.Load? && RolledBack(v.history, ev.request.frame) != []
    requires 0 <= ev.request.frame <= |inputs|
    ensures var w := Enter(v, ev.session);
            && Step(cfg, v, ev) == Running(LoadWorld(cfg, w, ev.request.frame, ev.choice))
            && InputsAfter(inputs, ev.request) == inputs[..ev.request.frame]
            && RestoringAt(v, ev)
                == Restorable(BeforeReconcile(w, ev.request.frame), RolledBack(w.history, ev.request.frame)[0].data)
  {
  }

  lemma StepFaithful(cfg: Config, v0: View, v: World, ev: Event, horizon: int, inputs: seq<Input>)
    requires cfg.Valid() && RunInvariant(cfg, v, horizon) && Permitted(v, horizon, ev) && Coherent(v)
    requires Faithful(cfg, v0, v, inputs)
    ensures Step(cfg, v, ev).Running?
    ensures Faithful(cfg, v0, Step(cfg, v, ev).world, InputsAfter(inputs, ev.request)) <==> RestoringAt(v, ev)
  {
    StepServes(cfg, v, ev, horizon);
    EnterCoherent(v, ev.session);
    EnterFaithful(cfg, v0, v, ev.session, inputs);
    if ev.request.Load? {
      LoadFaithful(cfg, v0, Enter(v, ev.session), ev.request.frame, ev.choice, inputs);
      LoadStep(cfg, v0, v, ev, inputs);
    } else {
      ServeFaithful(cfg, v0, Enter(v, ev.session), ev.request, ev.choice, inputs);
    }
  }

  lemma StartFaithful(cfg: Config, w: World)
    requires cfg.rate >= 1 && Start(w)
    ensures Faithful(cfg, ViewOf(w), w, [])
  {
  }

  /**
   Rollback transparency. After any conforming run whose loads found restorable references, the
   game state at the current frame equals the straight-through simulation of the latest inputs
   given for frames 0, 1, ... , and every stored snapshot equals that simulation up to its own frame.
   */
  lemma {:induction false} RollbackTransparency(cfg: Config, w0: World, es: seq<Event>)
    requires cfg.Valid() && Conforming(cfg, w0, es) && Restoring(cfg, w0, es)
    ensures RunFrom(cfg, w0, es).Running?
    ensures Faithful(cfg, ViewOf(w0), RunFrom(cfg, w0, es).world, LatestInputs(es))
  {
    if es == [] {
      StartFaithful(cfg, w0);
    } else {
      var front := es[..|es| - 1];
      RollbackTransparency(cfg, w0, front);
      RunNeverPanics(cfg, w0, front);
      RunsAreCoherent(cfg, w0, front);
      StepFaithful(cfg, ViewOf(w0), RunFrom(cfg, w0, front).world, es[|es| - 1], Horizon(cfg, w0, front),
                   LatestInputs(front));
    }
  }

  /**
   The condition is exact: the next permitted request keeps a transparent run transparent if and
   only if it is not a load of a snapshot with references that cannot be restored.
   */
  lemma TransparencyIsExact(cfg: Config, w0: World, es: seq<Event>, ev: Event)
    requires cfg.Valid() && Conforming(cfg, w0, es) && Restoring(cfg, w0, es)
    requires RunFrom(cfg, w0, es).Running? ==> Permitted(RunFrom(cfg, w0, es).world, Horizon(cfg, w0, es), ev)
    ensures RunFrom(cfg, w0, es).Running? && Step(cfg, RunFrom(cfg, w0, es).world, ev).Running?
    ensures Faithful(cfg, ViewOf(w0), Step(cfg, RunFrom(cfg, w0, es).world, ev).world,
                     InputsAfter(LatestInputs(es), ev.request))
            <==> RestoringAt(RunFrom(cfg, w0, es).world, ev)
  {
    RollbackTransparency(cfg, w0, es);
    RunNeverPanics(cfg, w0, es);
    RunsAreCoherent(cfg, w0, es);
    StepFaithful(cfg, ViewOf(w0), RunFrom(cfg, w0, es).world, ev, Horizon(cfg, w0, es), LatestInputs(es));
  }

  lemma {:induction false} RestoringPrefix(cfg: Config, w0: World, es: seq<Event>, part: seq<Event>)
    requires Restoring(cfg, w0, es) && part <= es
    ensures Restoring(cfg, w0, part)
  {
    if |part| < |es| {
      RestoringPrefix(cfg, w0, es[..|es| - 1], part);
    } else {
      assert part == es;
    }
  }

  /**
   Re-simulation is deterministic up to renaming of entities: two runs, with different fresh
   handles, confirmed frames and rollbacks, that end up with the same latest inputs show the same
   game state under registration indices.
   */
  lemma SameInputsSameView(cfg: Config, w0: World, es: seq<Event>, w0': World, es': seq<Event>)
    requires cfg.Valid()
    requires Conforming(cfg, w0, es) && Restoring(cfg, w0, es)
    requires Conforming(cfg, w0', es') && Restoring(cfg, w0', es')
    requires ViewOf(w0) == ViewOf(w0') && LatestInputs(es) == LatestInputs(es')
    ensures RunFrom(cfg, w0, es).Running? && RunFrom(cfg, w0', es').Running?
    ensures ViewOf(RunFrom(cfg, w0, es).world) == ViewOf(RunFrom(cfg, w0', es').world)
  {
    RollbackTransparency(cfg, w0, es);
    RollbackTransparency(cfg, w0', es');
  }
}
