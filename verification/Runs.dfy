/**
 Whole runs of the engine: which requests a session may issue, and what every run keeps.
 */
module Runs {
  import opened Prelude
  import opened SnapshotQueue
  import opened WorldModel
  import opened Soundness
  import opened Reconciliation

  /** A freshly started app: nothing saved, nothing marked, the clock at zero. */
  ghost predicate Start(w: World) {
    && w.frame == 0 && w.history == [] && w.clock == Clock(0, 0)
    && PopSound(w.pop, w.next) && OrderSound(w.ordered, w.next) && Registered(w.pop, w.ordered)
    && (forall e :: e in w.pop ==> w.pop[e].mark.None?)
    && HandlesOld(w)
  }

  /**
   The lowest frame a session may still ask for: the largest of 0, every frame that was confirmed
   during a save or an advance, and, for every frame saved, the first frame inside its window.
   */
  ghost function Horizon(cfg: Config, w0: World, es: seq<Event>): int {
    if es == [] then 0
    else
      var before := Horizon(cfg, w0, es[..|es| - 1]);
      match RunFrom(cfg, w0, es[..|es| - 1])
      case Panicked => before
      case Running(v) => HorizonAfter(before, v, es[|es| - 1])
  }

  ghost function HorizonAfter(before: int, v: World, ev: Event): int {
    var w := Enter(v, ev.session);
    match ev.request
    case Save => Max(before, Max(w.confirmed, w.frame + 1 - w.window))
    case Advance(_) => Max(before, w.confirmed)
    case Load(_) => before
  }

  /** The allocator hands out fresh handles for what loading frame `r` respawns. */
  ghost predicate FreshHandles(v: World, s: Session, r: int, c: Choice) {
    var w := Enter(v, s);
    RolledBack(w.history, r) != [] ==>
      ChoiceOk(BeforeReconcile(w, r), RolledBack(w.history, r)[0].data.entities, w.next, c)
  }

  /** There always are fresh handles. */
  lemma {:induction false} FreshHandlesExist(missing: set<RollbackId>, next: nat) returns (c: Choice)
    ensures c.spawned.Keys == missing && next <= c.next
    ensures forall x :: x in c.spawned ==> next <= c.spawned[x].id < c.next
    ensures forall x, y :: x in c.spawned && y in c.spawned && c.spawned[x] == c.spawned[y] ==> x == y
  {
    if missing == {} {
      c := Choice(map[], next);
    } else {
      var x :| x in missing;
      c := FreshHandlesExist(missing - {x}, next);
      c := Choice(c.spawned[x := Entity(c.next)], c.next + 1);
    }
  }

  /** Every load in the run was given fresh handles; nothing else is asked of the requests. */
  ghost predicate Genuine(cfg: Config, w0: World, es: seq<Event>) {
    if es == [] then true
    else
      var front, ev := es[..|es| - 1], es[|es| - 1];
      && Genuine(cfg, w0, front)
      && (ev.request.Load? && RunFrom(cfg, w0, front).Running? ==>
            FreshHandles(RunFrom(cfg, w0, front).world, ev.session, ev.request.frame, ev.choice))
  }

  /**
   What the session guarantees: a prediction window, saving before advancing, and loads that
   neither reach below the horizon nor up to the current frame. Fresh handles must be fresh.
   */
  ghost predicate Permitted(v: World, horizon: int, ev: Event) {
    var w := Enter(v, ev.session);
    && Window(ev.session).Some? && Window(ev.session).value >= 1
    && match ev.request
       case Save => true
       case Advance(_) => Saved(w) && w.frame < I32_MAX
       case Load(r) =>
         horizon <= r < w.frame && FreshHandles(v, ev.session, r, ev.choice)
  }

  /** A run from a fresh start in which every request was permitted when it was issued. */
  ghost predicate Conforming(cfg: Config, w0: World, es: seq<Event>) {
    if es == [] then
      Start(w0) && cfg.rate >= 1
    else
      && Conforming(cfg, w0, es[..|es| - 1])
      && match RunFrom(cfg, w0, es[..|es| - 1])
         case Panicked => false
         case Running(v) => Permitted(v, Horizon(cfg, w0, es[..|es| - 1]), es[|es| - 1])
  }

  // ---- What every run keeps ------------------------------------------------------------------

  /** The oldest stored frame is at or below everything that may still be asked for. */
  ghost predicate Retained(w: World, horizon: int) {
    && 0 <= horizon
    && (w.history != [] ==> w.history[|w.history| - 1].frame <= horizon)
    && (w.frame > 0 ==> w.history != [])
  }

  /** The clock reading that belongs to a frame: the run time so far, and the last frame's share of it. */
  ghost function ClockAt(frame: int, rate: nat): Clock
    requires rate >= 1
  {
    if frame <= 0 then Clock(0, 0)
    else
      var now, before := RuntimeNanos(frame, rate), RuntimeNanos(frame - 1, rate);
      Clock(now, if before <= now then now - before else 0)
  }

  /** The game clock shows exactly the time of its frame, in the world and in every snapshot. */
  ghost predicate ClockExact(cfg: Config, w: World) {
    && cfg.rate >= 1
    && w.clock == ClockAt(w.frame, cfg.rate)
    && (forall i :: 0 <= i < |w.history| ==> w.history[i].data.clock == ClockAt(w.history[i].frame, cfg.rate))
  }

  /** The stored frames are an interval without gaps that ends at the current frame or just before it. */
  ghost predicate Contiguous(h: seq<Entry<Snapshot>>, frame: int) {
    && (forall i :: 0 <= i < |h| ==> h[i].frame == h[0].frame - i)
    && (h != [] ==> frame - 1 <= h[0].frame <= frame)
  }

  ghost predicate RunInvariant(cfg: Config, w: World, horizon: int) {
    Sound(w) && Contiguous(w.history, w.frame) && Retained(w, horizon) && ClockExact(cfg, w)
  }

  /** No 64-bit product ever wraps: within the frame counter's range the run time is exact. */
  lemma RuntimeExact(frame: int, rate: nat)
    requires rate >= 1 && 0 <= frame <= I32_MAX
    ensures frame * NANOS < U64
    ensures RuntimeNanos(frame, rate) == frame * NANOS / rate
  {
  }

  lemma DivideMonotone(x: nat, y: nat, d: nat)
    requires d >= 1 && x <= y
    ensures x / d <= y / d
  {
    var q, p := x / d, y / d;
    if q > p {
      MultiplyMonotone(p + 1, q, d);
    }
  }

  lemma MultiplyMonotone(a: nat, b: nat, d: nat)
    requires a <= b
    ensures a * d <= b * d
  {
  }

  lemma RuntimeMonotone(a: int, b: int, rate: nat)
    requires rate >= 1 && 0 <= a <= b <= I32_MAX
    ensures RuntimeNanos(a, rate) <= RuntimeNanos(b, rate)
  {
    RuntimeExact(a, rate);
    RuntimeExact(b, rate);
    DivideMonotone(a * NANOS, b * NANOS, rate);
  }

  lemma StartKept(cfg: Config, w: World)
    requires Start(w) && cfg.rate >= 1
    ensures RunInvariant(cfg, w, 0)
  {
  }

  lemma EnterKept(cfg: Config, v: World, s: Session, horizon: int)
    requires RunInvariant(cfg, v, horizon)
    ensures RunInvariant(cfg, Enter(v, s), horizon)
  {
  }

  lemma SaveKept(cfg: Config, w: World, horizon: int)
    requires RunInvariant(cfg, w, horizon) && w.window >= 1
    ensures RunInvariant(cfg, SaveWorld(cfg, w), Max(horizon, Max(w.confirmed, w.frame + 1 - w.window)))
  {
    SaveKeepsSound(cfg, w);
    SavedClocks(cfg, w);
    SaveRetained(cfg, w, horizon);
  }

  lemma SaveRetained(cfg: Config, w: World, horizon: int)
    requires Chronological(w.history, w.frame) && Contiguous(w.history, w.frame) && Retained(w, horizon)
    requires w.window >= 1
    ensures Contiguous(SaveWorld(cfg, w).history, w.frame)
    ensures Retained(SaveWorld(cfg, w), Max(horizon, Max(w.confirmed, w.frame + 1 - w.window)))
  {
    OldestRecorded(w.history, w.confirmed, w.frame, Capture(cfg, w), w.window);
    RecordedContiguousFrames(w.history, w.confirmed, w.frame, Capture(cfg, w), w.window);
  }

  lemma SavedClocks(cfg: Config, w: World)
    requires Sound(w) && ClockExact(cfg, w) && w.window >= 1
    ensures ClockExact(cfg, SaveWorld(cfg, w))
  {
    var s := Capture(cfg, w);
    var drop := RecordedShape(w.history, w.confirmed, w.frame, s, w.window);
    var r := Recorded(w.history, w.confirmed, w.frame, s, w.window);
    forall i | 0 <= i < |r| ensures r[i].data.clock == ClockAt(r[i].frame, cfg.rate) {
      assert i > 0 ==> r[i] == w.history[i - 1 + drop];
    }
  }

  /** Eviction and pruning remove no more than the window and the confirmed frame allow. */
  lemma OldestRecorded(h: seq<Entry<Snapshot>>, confirmed: int, frame: int, s: Snapshot, depth: nat)
    requires depth >= 1 && Chronological(h, frame) && Contiguous(h, frame) && (frame > 0 ==> h != [])
    ensures var r := Recorded(h, confirmed, frame, s, depth);
            r != [] && (r[|r| - 1].frame <= Max(0, Max(confirmed, frame + 1 - depth))
                        || (h != [] && r[|r| - 1].frame == h[|h| - 1].frame))
  {
    var drop := RecordedShape(h, confirmed, frame, s, depth);
    var r := Recorded(h, confirmed, frame, s, depth);
    RecordedContiguousFrames(h, confirmed, frame, s, depth);
    var last := |r| - 1;
    assert r[last].frame == frame - last;
    if |r| < depth && last + drop < |h| {
      assert h[last + drop].frame == h[0].frame - (last + drop);
    }
  }

  lemma RecordedContiguousFrames(h: seq<Entry<Snapshot>>, confirmed: int, frame: int, s: Snapshot, depth: nat)
    requires depth >= 1 && Chronological(h, frame) && Contiguous(h, frame)
    ensures var r := Recorded(h, confirmed, frame, s, depth);
            forall i :: 0 <= i < |r| ==> r[i].frame == frame - i
  {
    var drop := RecordedShape(h, confirmed, frame, s, depth);
    var r := Recorded(h, confirmed, frame, s, depth);
    forall i | 0 <= i < |r| ensures r[i].frame == frame - i {
      assert i > 0 ==> r[i] == h[i - 1 + drop];
    }
  }

  lemma NextFrameKept(cfg: Config, w: World, w': World, horizon: int)
    requires Contiguous(w.history, w.frame) && Retained(w, horizon) && Saved(w)
    requires w'.frame == w.frame + 1 && w'.history == w.history && w.frame >= 0
    requires Sound(w') && ClockExact(cfg, w')
    ensures RunInvariant(cfg, w', Max(horizon, w.confirmed))
  {
  }

  lemma AdvanceKept(cfg: Config, w: World, input: Input, horizon: int)
    requires RunInvariant(cfg, w, horizon) && Saved(w) && CanAdvance(cfg, w)
    ensures RunInvariant(cfg, AdvanceWorld(cfg, w, input), Max(horizon, w.confirmed))
  {
    AdvanceKeepsSound(cfg, w, input);
    AdvanceClockExact(cfg, w, input);
    NextFrameKept(cfg, w, AdvanceWorld(cfg, w, input), horizon);
  }

  lemma ClockCanAdvance(cfg: Config, w: World)
    requires ClockExact(cfg, w) && 0 <= w.frame < I32_MAX
    ensures CanAdvance(cfg, w)
    ensures Tick(cfg, w).clock == ClockAt(w.frame + 1, cfg.rate)
  {
    RuntimeMonotone(w.frame, w.frame + 1, cfg.rate);
    RuntimeExact(0, cfg.rate);
  }

  lemma AdvanceClockExact(cfg: Config, w: World, input: Input)
    requires ClockExact(cfg, w) && CanAdvance(cfg, w) && 0 <= w.frame
    ensures ClockExact(cfg, AdvanceWorld(cfg, w, input))
  {
    ClockCanAdvance(cfg, w);
    AdvanceCounters(cfg, w, input);
  }

  /** Game logic touches neither the frame counter, nor the clock, nor what is stored. */
  lemma AdvanceCounters(cfg: Config, w: World, input: Input)
    requires CanAdvance(cfg, w)
    ensures AdvanceWorld(cfg, w, input).clock == Tick(cfg, w).clock
    ensures AdvanceWorld(cfg, w, input).frame == w.frame + 1
    ensures AdvanceWorld(cfg, w, input).history == w.history
  {
    var w1 := BeforeLogic(cfg, w);
    LogicKeepsSession(w1, cfg.logic(ViewOf(w1), input));
  }

  lemma {:induction false} LogicKeepsSession(w: World, cs: seq<Command>)
    ensures SameSession(w, ExecuteAll(w, cs))
  {
    if cs != [] {
      LogicKeepsSession(w, cs[..|cs| - 1]);
      ExecuteKeepsSession(ExecuteAll(w, cs[..|cs| - 1]), cs[|cs| - 1]);
    }
  }

  /** A permitted load finds its snapshot: every frame from the horizon to the last saved one is stored. */
  lemma PermittedLoadIsStored(w: World, horizon: int, r: int)
    requires Chronological(w.history, w.frame) && Contiguous(w.history, w.frame) && Retained(w, horizon)
    requires horizon <= r < w.frame
    ensures RolledBack(w.history, r) != []
  {
    RolledBackIsDrop(w.history, r);
    var i := w.history[0].frame - r;
    assert w.history[|w.history| - 1].frame == w.history[0].frame - (|w.history| - 1);
    assert 0 <= i < |w.history| && w.history[i].frame == r;
  }

  lemma LoadKept(cfg: Config, w: World, r: int, c: Choice, horizon: int)
    requires RunInvariant(cfg, w, horizon) && CanLoad(w, r, c)
    ensures RunInvariant(cfg, LoadWorld(cfg, w, r, c), horizon)
  {
    LoadKeepsSound(cfg, w, r, c);
    LoadedCounters(cfg, w, r, c, horizon);
  }

  lemma LoadedContiguous(h: seq<Entry<Snapshot>>, now: int, r: int)
    requires Chronological(h, now) && Contiguous(h, now) && RolledBack(h, r) != []
    ensures Contiguous(RolledBack(h, r), r)
    ensures RolledBack(h, r)[|RolledBack(h, r)| - 1] == h[|h| - 1]
  {
    var n := RolledBackIndex(h, r, now);
    forall i | 0 <= i < |h| - n ensures h[n..][i].frame == h[n..][0].frame - i {
      assert h[n + i].frame == h[0].frame - (n + i);
    }
  }

  lemma LoadedClocks(cfg: Config, h: seq<Entry<Snapshot>>, now: int, r: int)
    requires cfg.rate >= 1 && Chronological(h, now) && RolledBack(h, r) != []
    requires forall i :: 0 <= i < |h| ==> h[i].data.clock == ClockAt(h[i].frame, cfg.rate)
    ensures var q := RolledBack(h, r);
            q[0].frame == r && forall i :: 0 <= i < |q| ==> q[i].data.clock == ClockAt(q[i].frame, cfg.rate)
  {
    var n := RolledBackIndex(h, r, now);
    forall i | 0 <= i < |h| - n ensures h[n..][i].data.clock == ClockAt(h[n..][i].frame, cfg.rate) {
      assert h[n..][i] == h[n + i];
    }
  }

  lemma LoadedCounters(cfg: Config, w: World, r: int, c: Choice, horizon: int)
    requires Chronological(w.history, w.frame) && Contiguous(w.history, w.frame) && Retained(w, horizon)
    requires ClockExact(cfg, w)
    requires RolledBack(w.history, r) != []
    ensures var w' := LoadWorld(cfg, w, r, c);
            Contiguous(w'.history, r) && Retained(w', horizon) && ClockExact(cfg, w')
  {
    LoadedContiguous(w.history, w.frame, r);
    LoadedClocks(cfg, w.history, w.frame, r);
  }

  lemma RaisedInvariant(cfg: Config, w: World, horizon: int, horizon': int)
    requires RunInvariant(cfg, w, horizon) && horizon <= horizon'
    ensures RunInvariant(cfg, w, horizon')
  {
  }

  /** What a request finds keeps the invariant, with the horizon it leaves. */
  lemma EnteredKept(cfg: Config, v: World, ev: Event, horizon: int)
    requires RunInvariant(cfg, v, horizon)
    ensures RunInvariant(cfg, Enter(v, ev.session), HorizonAfter(horizon, v, ev))
  {
    EnterKept(cfg, v, ev.session, horizon);
    RaisedInvariant(cfg, Enter(v, ev.session), horizon, HorizonAfter(horizon, v, ev));
  }

  lemma PermittedLoadIsServed(cfg: Config, v: World, ev: Event, horizon: int)
    requires RunInvariant(cfg, v, horizon) && Permitted(v, horizon, ev) && ev.request.Load?
    ensures CanLoad(Enter(v, ev.session), ev.request.frame, ev.choice)
  {
    PermittedLoadIsStored(Enter(v, ev.session), horizon, ev.request.frame);
  }

  /** A permitted request is served: none of the panics of the original is reached. */
  lemma StepServes(cfg: Config, v: World, ev: Event, horizon: int)
    requires RunInvariant(cfg, v, horizon) && Permitted(v, horizon, ev)
    ensures var w := Enter(v, ev.session);
            && RunInvariant(cfg, w, HorizonAfter(horizon, v, ev))
            && match ev.request
               case Save => w.window >= 1 && Step(cfg, v, ev) == Running(SaveWorld(cfg, w))
               case Advance(i) =>
                 Saved(w) && CanAdvance(cfg, w) && w.confirmed <= HorizonAfter(horizon, v, ev)
                 && Step(cfg, v, ev) == Running(AdvanceWorld(cfg, w, i))
               case Load(r) =>
                 horizon <= r && CanLoad(w, r, ev.choice)
                 && Step(cfg, v, ev) == Running(LoadWorld(cfg, w, r, ev.choice))
  {
    EnteredKept(cfg, v, ev, horizon);
    if ev.request.Advance? {
      ClockCanAdvance(cfg, Enter(v, ev.session));
    } else if ev.request.Load? {
      PermittedLoadIsServed(cfg, v, ev, horizon);
    }
  }

  lemma LoadStepKept(cfg: Config, v: World, ev: Event, horizon: int)
    requires RunInvariant(cfg, v, horizon) && Permitted(v, horizon, ev) && ev.request.Load?
    ensures Step(cfg, v, ev).Running?
    ensures RunInvariant(cfg, Step(cfg, v, ev).world, horizon)
  {
    EnterKept(cfg, v, ev.session, horizon);
    PermittedLoadIsStored(Enter(v, ev.session), horizon, ev.request.frame);
    LoadKept(cfg, Enter(v, ev.session), ev.request.frame, ev.choice, horizon);
  }

  /** A save request, in terms of the save. */
  lemma SaveStep(cfg: Config, v: World, ev: Event, horizon: int)
    requires ev.request.Save?
    ensures Step(cfg, v, ev) == Running(SaveWorld(cfg, Enter(v, ev.session)))
    ensures var w := Enter(v, ev.session);
            HorizonAfter(horizon, v, ev) == Max(horizon, Max(w.confirmed, w.frame + 1 - w.window))
  {
  }

  lemma SaveStepKept(cfg: Config, v: World, ev: Event, horizon: int)
    requires RunInvariant(cfg, v, horizon) && Permitted(v, horizon, ev) && ev.request.Save?
    ensures Step(cfg, v, ev).Running?
    ensures RunInvariant(cfg, Step(cfg, v, ev).world, HorizonAfter(horizon, v, ev))
  {
    EnterKept(cfg, v, ev.session, horizon);
    SaveKept(cfg, Enter(v, ev.session), horizon);
    SaveStep(cfg, v, ev, horizon);
  }

  lemma AdvanceStepKept(cfg: Config, v: World, ev: Event, horizon: int)
    requires RunInvariant(cfg, v, horizon) && Permitted(v, horizon, ev) && ev.request.Advance?
    ensures Step(cfg, v, ev).Running?
    ensures RunInvariant(cfg, Step(cfg, v, ev).world, HorizonAfter(horizon, v, ev))
  {
    EnterKept(cfg, v, ev.session, horizon);
    ClockCanAdvance(cfg, Enter(v, ev.session));
    AdvanceKept(cfg, Enter(v, ev.session), ev.request.input, horizon);
  }

  lemma StepKept(cfg: Config, v: World, ev: Event, horizon: int)
    requires RunInvariant(cfg, v, horizon) && Permitted(v, horizon, ev)
    ensures Step(cfg, v, ev).Running?
    ensures RunInvariant(cfg, Step(cfg, v, ev).world, HorizonAfter(horizon, v, ev))
  {
    match ev.request
    case Save => SaveStepKept(cfg, v, ev, horizon);
    case Advance(_) => AdvanceStepKept(cfg, v, ev, horizon);
    case Load(_) => LoadStepKept(cfg, v, ev, horizon);
  }

  /**
   Safety over whole runs, for every game logic: a conforming run never panics, the stored frames
   stay one contiguous interval that reaches down to the horizon, the register stays a growing
   bijection that knows every visible entity, and the clock is exact.
   */
  lemma {:induction false} RunNeverPanics(cfg: Config, w0: World, es: seq<Event>)
    requires Conforming(cfg, w0, es)
    ensures RunFrom(cfg, w0, es).Running?
    ensures RunInvariant(cfg, RunFrom(cfg, w0, es).world, Horizon(cfg, w0, es))
  {
    if es == [] {
      StartKept(cfg, w0);
    } else {
      var front := es[..|es| - 1];
      RunNeverPanics(cfg, w0, front);
      StepKept(cfg, RunFrom(cfg, w0, front).world, es[|es| - 1], Horizon(cfg, w0, front));
    }
  }

  lemma {:induction false} ConformingPrefix(cfg: Config, w0: World, es: seq<Event>, part: seq<Event>)
    requires Conforming(cfg, w0, es) && part <= es
    ensures Conforming(cfg, w0, part)
  {
    if |part| < |es| {
      ConformingPrefix(cfg, w0, es[..|es| - 1], part);
    } else {
      assert part == es;
    }
  }

  /** Running on from where a run has got to. */
  lemma {:induction false} RunOn(cfg: Config, w0: World, es: seq<Event>, w: World, more: seq<Event>)
    requires RunFrom(cfg, w0, es) == Running(w)
    ensures RunFrom(cfg, w0, es + more) == RunFrom(cfg, w, more)
  {
    if more == [] {
      assert es + more == es;
    } else {
      var front := more[..|more| - 1];
      RunOn(cfg, w0, es, w, front);
      assert (es + more)[..|es + more| - 1] == es + front;
    }
  }
}
