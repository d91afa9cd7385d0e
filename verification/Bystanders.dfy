/**
 Hidden entities over whole runs. A load despawns its extras with their descendants; the descendants
 turn out to be extras themselves, so a hidden entity is never taken along.
 */
module Bystanders {
  import opened Prelude
  import opened Population
  import opened SnapshotQueue
  import opened WorldModel
  import opened Soundness
  import opened Reconciliation
  import opened Restoration
  import opened Hierarchy
  import opened Runs

  /** The visible parent of an entity that was hidden by `frame` is known to the snapshot of `frame`. */
  ghost predicate HiddenBelow(pop: Pop, frame: int, s: Snapshot) {
    forall e, h :: LinkedTo(pop, e, h) && pop[e].mark.Some? && pop[e].mark.value <= frame && Visible(pop, h)
                   ==> pop[h].rid in s.entities
  }

  ghost predicate HistoryHidden(h: seq<Entry<Snapshot>>, pop: Pop) {
    forall i :: 0 <= i < |h| ==> HiddenBelow(pop, h[i].frame, h[i].data)
  }

  ghost predicate Tidy(w: World) {
    LinkSafe(w) && HistoryHidden(w.history, w.pop)
  }

  // ---- Saving --------------------------------------------------------------------------------

  lemma CaptureHidden(cfg: Config, w: World)
    ensures HiddenBelow(w.pop, w.frame, Capture(cfg, w))
  {
  }

  lemma RecordedHidden(h: seq<Entry<Snapshot>>, confirmed: int, frame: int, s: Snapshot, depth: nat, pop: Pop)
    requires Chronological(h, frame) && HistoryHidden(h, pop) && HiddenBelow(pop, frame, s)
    ensures HistoryHidden(Recorded(h, confirmed, frame, s, depth), pop)
  {
    var drop := RecordedShape(h, confirmed, frame, s, depth);
    var r := Recorded(h, confirmed, frame, s, depth);
    forall i | 0 <= i < |r| ensures HiddenBelow(pop, r[i].frame, r[i].data) {
      assert i > 0 ==> r[i] == h[i - 1 + drop];
    }
  }

  lemma SaveTidy(cfg: Config, w: World)
    requires Sound(w) && Tidy(w)
    ensures Tidy(SaveWorld(cfg, w))
  {
    SaveLinkSafe(cfg, w);
    CaptureHidden(cfg, w);
    RecordedHidden(w.history, w.confirmed, w.frame, Capture(cfg, w), w.window, w.pop);
  }

  // ---- Advancing -----------------------------------------------------------------------------

  /** A hidden child of a visible parent was that before, or has been hidden just now. */
  ghost predicate HiddenStep(pop: Pop, p: Pop, now: int) {
    forall e, h :: LinkedTo(p, e, h) && p[e].mark.Some? && Visible(p, h) ==>
      || p[e].mark.value >= now
      || (LinkedTo(pop, e, h) && pop[e].mark == p[e].mark && Visible(pop, h) && pop[h].rid == p[h].rid)
  }

  lemma SteppedHidden(h: seq<Entry<Snapshot>>, pop: Pop, p: Pop, now: int)
    requires HistoryHidden(h, pop) && HiddenStep(pop, p, now) && BeforeFrame(h, now)
    ensures HistoryHidden(h, p)
  {
    forall i | 0 <= i < |h| ensures HiddenBelow(p, h[i].frame, h[i].data) {
      assert HiddenBelow(pop, h[i].frame, h[i].data);
    }
  }

  lemma DespawnStep(pop: Pop, roots: set<Entity>, now: int)
    ensures HiddenStep(pop, Despawned(pop, roots), now)
  {
    var p := Despawned(pop, roots);
    forall e, h | LinkedTo(p, e, h) ensures LinkedTo(pop, e, h) && pop[e] == p[e] && pop[h] == p[h] {}
  }

  lemma MarkStep(pop: Pop, root: Entity, now: int)
    requires Visible(pop, root)
    ensures HiddenStep(pop, Marked(pop, {root}, now), now)
  {
    var p := Marked(pop, {root}, now);
    forall e, h | LinkedTo(p, e, h) && p[e].mark.Some? && Visible(p, h)
      ensures p[e].mark.value >= now
          || (LinkedTo(pop, e, h) && pop[e].mark == p[e].mark && Visible(pop, h) && pop[h].rid == p[h].rid)
    {
      assert LinkedTo(pop, e, h);
    }
  }

  lemma BodyStep(pop: Pop, e: Entity, b: Body, now: int)
    requires e in pop && b.rid == pop[e].rid && b.mark == pop[e].mark && b.parent == pop[e].parent
    ensures HiddenStep(pop, pop[e := b], now)
  {
    var p := pop[e := b];
    forall d, h | LinkedTo(p, d, h)
      ensures LinkedTo(pop, d, h) && p[d].mark == pop[d].mark && p[h].mark == pop[h].mark && p[h].rid == pop[h].rid
    {}
  }

  lemma SpawnStep(pop: Pop, next: nat, b: Body, now: int)
    requires LinksOld(pop, next) && b.mark.None?
    ensures HiddenStep(pop, pop[Entity(next) := b], now)
  {
    var e := Entity(next);
    var p := pop[e := b];
    forall d, h | LinkedTo(p, d, h) && p[d].mark.Some? ensures d != e && h != e && LinkedTo(pop, d, h) {}
  }

  lemma ExecuteStep(w: World, c: Command)
    requires LinksOld(w.pop, w.next)
    ensures HiddenStep(w.pop, Execute(w, c).pop, w.frame)
  {
    match c
    case Spawn(v, p, d) =>
      SpawnStep(w.pop, w.next, Body(RollbackId(Entity(w.next)), None, v, None, ResolveOption(w, p), d), w.frame);
    case SetValue(t, v) =>
      if Resolve(w, t).Some? {
        BodyStep(w.pop, Resolve(w, t).value, w.pop[Resolve(w, t).value].(value := Some(v)), w.frame);
      }
    case ClearValue(t) =>
      if Resolve(w, t).Some? {
        BodyStep(w.pop, Resolve(w, t).value, w.pop[Resolve(w, t).value].(value := None), w.frame);
      }
    case SetLikes(t, l) =>
      if Resolve(w, t).Some? {
        BodyStep(w.pop, Resolve(w, t).value, w.pop[Resolve(w, t).value].(likes := Resolve(w, l)), w.frame);
      }
    case Despawn(t) =>
      if Resolve(w, t).Some? { DespawnStep(w.pop, {Resolve(w, t).value}, w.frame); }
    case DespawnRollback(t) =>
      if Resolve(w, t).Some? {
        MarkStep(w.pop, Resolve(w, t).value, w.frame);
        DespawnStep(w.pop, {Resolve(w, t).value}, w.frame);
      }
    case SetResource(_) =>
    case ClearResource =>
    case SetFavourite(_) =>
  }

  lemma ExecuteTidy(w: World, c: Command)
    requires Live(w) && Tidy(w)
    ensures Tidy(Execute(w, c))
  {
    ExecuteLinkSafe(w, c);
    ExecuteStep(w, c);
    ExecuteKeepsSession(w, c);
    LiveBefore(w);
    SteppedHidden(w.history, w.pop, Execute(w, c).pop, w.frame);
  }

  lemma {:induction false} ExecuteAllTidy(w: World, cs: seq<Command>)
    requires Live(w) && Tidy(w)
    ensures Tidy(ExecuteAll(w, cs))
  {
    if cs != [] {
      var front := cs[..|cs| - 1];
      ExecuteAllTidy(w, front);
      ExecuteAllKeepsLive(w, front);
      ExecuteTidy(ExecuteAll(w, front), cs[|cs| - 1]);
    }
  }

  lemma BeforeLogicTidy(cfg: Config, w: World)
    requires Sound(w) && Tidy(w) && CanAdvance(cfg, w)
    ensures Tidy(BeforeLogic(cfg, w))
  {
    var t := Tick(cfg, w);
    BeforeLogicLinkSafe(cfg, w);
    TickKeepsSound(cfg, w);
    DespawnStep(t.pop, ConfirmedGone(t.pop, t.confirmed), t.frame);
    StoredBefore(t.history, t.frame);
    SteppedHidden(t.history, t.pop, Despawned(t.pop, ConfirmedGone(t.pop, t.confirmed)), t.frame);
  }

  lemma StoredBefore(h: seq<Entry<Snapshot>>, frame: int)
    requires Chronological(h, frame) && (h != [] ==> h[0].frame < frame)
    ensures BeforeFrame(h, frame)
  {
    forall i | 0 <= i < |h| ensures h[i].frame < frame {
      assert i > 0 ==> h[i].frame < h[0].frame;
    }
  }

  lemma AdvanceTidy(cfg: Config, w: World, input: Input)
    requires Sound(w) && Tidy(w) && CanAdvance(cfg, w)
    ensures Tidy(AdvanceWorld(cfg, w, input))
  {
    var w1 := BeforeLogic(cfg, w);
    BeforeLogicTidy(cfg, w);
    BeforeLogicIsLive(cfg, w);
    ExecuteAllTidy(w1, cfg.logic(ViewOf(w1), input));
  }

  // ---- Loading -------------------------------------------------------------------------------

  lemma ResurrectedHidden(pop: Pop, r: int, frame: int, s: Snapshot)
    requires HiddenTogether(pop) && HiddenBelow(pop, frame, s)
    ensures HiddenBelow(Resurrected(pop, r), frame, s)
  {
    var p := Resurrected(pop, r);
    forall e, h | LinkedTo(p, e, h) && p[e].mark.Some? && p[e].mark.value <= frame && Visible(p, h)
      ensures p[h].rid in s.entities
    {
      assert LinkedTo(pop, e, h);
    }
  }

  /** What goes with an extra is an extra. */
  lemma ExtrasAreClosed(pop: Pop, r: int, s: Snapshot)
    requires KnownTogether(pop, s) && HiddenBelow(pop, r, s)
    requires forall e :: e in pop && pop[e].mark.Some? ==> pop[e].mark.value <= r
    ensures Family(pop, Extras(pop, s.entities)) == Extras(pop, s.entities)
  {
    var extras := Extras(pop, s.entities);
    forall e | e in pop && ChildOf(pop, e, extras) ensures e in extras {
      assert LinkedTo(pop, e, pop[e].parent.value);
    }
    FamilyIsLeast(pop, extras, extras);
  }

  /** A load despawns its extras and nobody else. */
  lemma LoadDespawnsExtrasOnly(w: World, r: int)
    requires Sound(w) && Tidy(w) && RolledBack(w.history, r) != []
    ensures var pop, s := BeforeReconcile(w, r), RolledBack(w.history, r)[0].data;
            Family(pop, Extras(pop, s.entities)) == Extras(pop, s.entities)
  {
    var n := RolledBackIndex(w.history, r, w.frame);
    LinksBeforeLoad(w, r);
    ResurrectedHidden(w.pop, r, r, w.history[n].data);
    ExtrasAreClosed(BeforeReconcile(w, r), r, w.history[n].data);
  }

  lemma LoadedHidden(cfg: Config, pop: Pop, next: nat, r: int, s: Snapshot, c: Choice, frame: int, t: Snapshot)
    requires Loadable(pop, next, r, s, c) && LinksOld(pop, next) && SavedLinks(s, pop, next) && NoDrag(pop, s)
    requires HiddenBelow(pop, frame, t)
    ensures HiddenBelow(LoadedPop(cfg, pop, s, c.spawned), frame, t)
  {
    var q := LoadedPop(cfg, pop, s, c.spawned);
    forall e, h | LinkedTo(q, e, h) && q[e].mark.Some? && q[e].mark.value <= frame && Visible(q, h)
      ensures q[h].rid in t.entities
    {
      LoadedLink(cfg, pop, next, r, s, c, e, h);
    }
  }

  lemma LoadedEntryHidden(cfg: Config, w: World, r: int, c: Choice, j: nat)
    requires Sound(w) && Tidy(w) && CanLoad(w, r, c) && j < |w.history|
    ensures HiddenBelow(LoadWorld(cfg, w, r, c).pop, w.history[j].frame, w.history[j].data)
  {
    var n := RolledBackIndex(w.history, r, w.frame);
    LoadStarts(w, r, c);
    LinksBeforeLoad(w, r);
    LoadDragsNothing(w, r);
    ResurrectedHidden(w.pop, r, w.history[j].frame, w.history[j].data);
    LoadedHidden(cfg, BeforeReconcile(w, r), w.next, r, w.history[n].data, c, w.history[j].frame, w.history[j].data);
  }

  lemma SuffixHidden(h: seq<Entry<Snapshot>>, n: nat, pop: Pop)
    requires n <= |h| && forall j :: n <= j < |h| ==> HiddenBelow(pop, h[j].frame, h[j].data)
    ensures HistoryHidden(h[n..], pop)
  {
    forall i | 0 <= i < |h[n..]| ensures HiddenBelow(pop, h[n..][i].frame, h[n..][i].data) {
      assert h[n..][i] == h[n + i];
    }
  }

  lemma LoadedHistoryHidden(cfg: Config, w: World, r: int, c: Choice)
    requires Sound(w) && Tidy(w) && CanLoad(w, r, c)
    ensures HistoryHidden(RolledBack(w.history, r), LoadWorld(cfg, w, r, c).pop)
  {
    var n := RolledBackIndex(w.history, r, w.frame);
    forall j | n <= j < |w.history|
      ensures HiddenBelow(LoadWorld(cfg, w, r, c).pop, w.history[j].frame, w.history[j].data)
    {
      LoadedEntryHidden(cfg, w, r, c, j);
    }
    SuffixHidden(w.history, n, LoadWorld(cfg, w, r, c).pop);
  }

  lemma LoadTidy(cfg: Config, w: World, r: int, c: Choice)
    requires Sound(w) && Tidy(w) && CanLoad(w, r, c)
    ensures Tidy(LoadWorld(cfg, w, r, c))
  {
    LoadLinkSafe(cfg, w, r, c);
    LoadedHistoryHidden(cfg, w, r, c);
  }

  /** What was marked at or before the loaded frame is still there after the load, hidden and untouched. */
  lemma HiddenStay(cfg: Config, w: World, r: int, c: Choice, e: Entity)
    requires Sound(w) && Tidy(w) && CanLoad(w, r, c)
    requires e in w.pop && w.pop[e].mark.Some? && w.pop[e].mark.value <= r
    ensures var p := LoadWorld(cfg, w, r, c).pop;
            e in p && p[e] == w.pop[e]
  {
    LoadDespawnsExtrasOnly(w, r);
    LoadKeepsHidden(cfg, w, r, c, e);
  }

  // ---- Whole runs ----------------------------------------------------------------------------

  lemma EnterTidy(v: World, s: Session)
    requires Tidy(v)
    ensures Tidy(Enter(v, s))
  {
  }

  lemma StepTidy(cfg: Config, v: World, ev: Event, horizon: int)
    requires RunInvariant(cfg, v, horizon) && Permitted(v, horizon, ev) && Tidy(v)
    ensures Step(cfg, v, ev).Running? && Tidy(Step(cfg, v, ev).world)
  {
    var w := Enter(v, ev.session);
    StepServes(cfg, v, ev, horizon);
    EnterTidy(v, ev.session);
    match ev.request
    case Save => SaveTidy(cfg, w);
    case Advance(i) => AdvanceTidy(cfg, w, i);
    case Load(r) => LoadTidy(cfg, w, r, ev.choice);
  }

  /** Over every run, whatever is despawned: loads take nobody along. */
  lemma {:induction false} RunsAreTidy(cfg: Config, w0: World, es: seq<Event>)
    requires Conforming(cfg, w0, es)
    ensures RunFrom(cfg, w0, es).Running? && Tidy(RunFrom(cfg, w0, es).world)
  {
    if es == [] {
      StartLinkSafe(w0);
    } else {
      var front := es[..|es| - 1];
      RunsAreTidy(cfg, w0, front);
      RunNeverPanics(cfg, w0, front);
      StepTidy(cfg, RunFrom(cfg, w0, front).world, es[|es| - 1], Horizon(cfg, w0, front));
    }
  }
}
