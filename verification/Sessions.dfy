/**
 The request batches a session emits, and why every such stream of batches is served.
 */
module Sessions {
  import opened Prelude
  import opened WorldModel
  import opened Soundness
  import opened Reconciliation
  import opened Runs

  /** One call of `advance_frame`: a plain frame, or a rollback that replays up to the current frame. */
  datatype Batch = Plain(input: Input) | Replay(frame: int, inputs: seq<Input>, choice: Choice)

  function SaveEvent(s: Session): Event {
    Event(s, Save, NO_CHOICE)
  }

  function AdvanceEvent(s: Session, i: Input): Event {
    Event(s, Advance(i), NO_CHOICE)
  }

  /** Advance, save, advance, ..., save, advance: one advance per input. */
  function Resimulate(s: Session, inputs: seq<Input>): seq<Event> {
    if |inputs| == 0 then []
    else if |inputs| == 1 then [AdvanceEvent(s, inputs[0])]
    else Resimulate(s, inputs[..|inputs| - 1]) + [SaveEvent(s)] + [AdvanceEvent(s, inputs[|inputs| - 1])]
  }

  function Expand(s: Session, b: Batch): seq<Event> {
    match b
    case Plain(i) => [SaveEvent(s)] + [AdvanceEvent(s, i)]
    case Replay(r, inputs, c) => [Event(s, Load(r), c)] + Resimulate(s, inputs)
  }

  /** An event of a batch other than its load. */
  predicate Replayed(s: Session, ev: Event) {
    ev.session == s && !ev.request.Load? && ev.choice == NO_CHOICE
  }

  lemma {:induction false} ResimulateShape(s: Session, inputs: seq<Input>)
    ensures forall i :: 0 <= i < |Resimulate(s, inputs)| ==> Replayed(s, Resimulate(s, inputs)[i])
  {
    if |inputs| > 1 {
      ResimulateShape(s, inputs[..|inputs| - 1]);
    }
  }

  lemma ExpandShape(s: Session, b: Batch)
    ensures Expand(s, b) != [] && Expand(s, b)[0].session == s
    ensures b.Replay? ==> Expand(s, b)[0] == Event(s, Load(b.frame), b.choice)
    ensures b.Plain? ==> Replayed(s, Expand(s, b)[0])
    ensures forall i :: 1 <= i < |Expand(s, b)| ==> Replayed(s, Expand(s, b)[i])
  {
    if b.Replay? {
      ResimulateShape(s, b.inputs);
      assert Expand(s, b)[1..] == Resimulate(s, b.inputs);
      forall i | 1 <= i < |Expand(s, b)| ensures Replayed(s, Expand(s, b)[i]) {
        assert Expand(s, b)[i] == Resimulate(s, b.inputs)[i - 1];
      }
    }
  }

  datatype Turn = Turn(session: Session, batch: Batch)

  function EventsOf(ts: seq<Turn>): seq<Event> {
    if ts == [] then [] else EventsOf(ts[..|ts| - 1]) + Expand(ts[|ts| - 1].session, ts[|ts| - 1].batch)
  }

  /** The largest confirmed frame in effect at any save or advance so far. */
  ghost function Settled(cfg: Config, w0: World, es: seq<Event>): int {
    if es == [] then 0
    else
      var before := Settled(cfg, w0, es[..|es| - 1]);
      match RunFrom(cfg, w0, es[..|es| - 1])
      case Panicked => before
      case Running(v) => SettledAfter(before, v, es[|es| - 1])
  }

  ghost function SettledAfter(before: int, v: World, ev: Event): int {
    if ev.request.Load? then before else Max(before, Enter(v, ev.session).confirmed)
  }

  /** What is settled may not be asked for any more. */
  lemma {:induction false} SettledBelowHorizon(cfg: Config, w0: World, es: seq<Event>)
    ensures Settled(cfg, w0, es) <= Horizon(cfg, w0, es)
  {
    if es != [] {
      SettledBelowHorizon(cfg, w0, es[..|es| - 1]);
    }
  }

  /**
   What a session with prediction window `depth` guarantees about its next batch, when the
   current frame is `v.frame`: a replay starts at a frame in `max(0, settled, frame - depth) ..
   frame - 1` and gives one input for each frame from there to the current one.
   */
  ghost predicate InRange(v: World, depth: nat, settled: int, t: Turn) {
    && Window(t.session) == Some(depth) && v.frame < I32_MAX
    && (t.batch.Replay? ==>
          && Max(0, Max(settled, v.frame - depth)) <= t.batch.frame < v.frame
          && |t.batch.inputs| == v.frame - t.batch.frame + 1)
  }

  ghost predicate TurnOk(v: World, depth: nat, settled: int, t: Turn) {
    && InRange(v, depth, settled, t)
    && (t.batch.Replay? ==> FreshHandles(v, t.session, t.batch.frame, t.batch.choice))
  }

  ghost predicate Legal(cfg: Config, w0: World, depth: nat, ts: seq<Turn>) {
    if ts == [] then
      Start(w0) && cfg.rate >= 1 && depth >= 1
    else
      var es := EventsOf(ts[..|ts| - 1]);
      && Legal(cfg, w0, depth, ts[..|ts| - 1])
      && match RunFrom(cfg, w0, es)
         case Panicked => false
         case Running(v) => TurnOk(v, depth, Settled(cfg, w0, es), ts[|ts| - 1])
  }

  lemma LegalNext(cfg: Config, w0: World, depth: nat, ts: seq<Turn>, t: Turn, w: World)
    requires Legal(cfg, w0, depth, ts) && RunFrom(cfg, w0, EventsOf(ts)) == Running(w)
    requires TurnOk(w, depth, Settled(cfg, w0, EventsOf(ts)), t)
    ensures Legal(cfg, w0, depth, ts + [t])
    ensures EventsOf(ts + [t]) == EventsOf(ts) + Expand(t.session, t.batch)
  {
  }

  /** A batch starts with a save or with its load. */
  function FirstOf(t: Turn): Event {
    if t.batch.Replay? then LoadOf(t) else SaveEvent(t.session)
  }

  function LoadOf(t: Turn): Event
    requires t.batch.Replay?
  {
    Event(t.session, Load(t.batch.frame), t.batch.choice)
  }

  function RestOf(t: Turn): seq<Event> {
    match t.batch
    case Plain(i) => [AdvanceEvent(t.session, i)]
    case Replay(_, inputs, _) => Resimulate(t.session, inputs)
  }

  lemma LastEvents(ts: seq<Turn>)
    requires ts != []
    ensures var es, t := EventsOf(ts[..|ts| - 1]), ts[|ts| - 1];
            EventsOf(ts) == es + [FirstOf(t)] + RestOf(t)
  {
    Prepend(EventsOf(ts[..|ts| - 1]), FirstOf(ts[|ts| - 1]), RestOf(ts[|ts| - 1]));
  }

  lemma OneMoreTurn(ts: seq<Turn>, t: Turn)
    ensures EventsOf(ts + [t]) == EventsOf(ts) + [FirstOf(t)] + RestOf(t)
  {
    LastEvents(ts + [t]);
    assert (ts + [t])[..|ts + [t]| - 1] == ts;
  }

  /** The load of a batch, without the rest of it, is part of the stream. */
  lemma LoadIsPart(ts: seq<Turn>, t: Turn)
    requires t.batch.Replay?
    ensures EventsOf(ts) + [LoadOf(t)] <= EventsOf(ts + [t])
  {
    OneMoreTurn(ts, t);
  }

  // ---- Appending one event ---------------------------------------------------------------------

  /** What each request does to the frame counter and to the front of the stored interval. */
  lemma ServedFrame(cfg: Config, v: World, ev: Event, horizon: int)
    requires RunInvariant(cfg, v, horizon) && Permitted(v, horizon, ev)
    ensures Step(cfg, v, ev).Running?
    ensures var w := Step(cfg, v, ev).world;
            match ev.request
            case Save => w.frame == v.frame && Saved(w)
            case Advance(_) => w.frame == v.frame + 1 && !Saved(w)
            case Load(r) => w.frame == r && Saved(w)
    ensures Step(cfg, v, ev).world.confirmed == Enter(v, ev.session).confirmed
  {
    var w := Enter(v, ev.session);
    StepServes(cfg, v, ev, horizon);
    match ev.request
    case Save => SaveKeepsSound(cfg, w);
    case Advance(i) => AdvanceKeepsSound(cfg, w, i);
    case Load(r) => LoadKeepsSound(cfg, w, r, ev.choice);
  }

  lemma AppendEvent(cfg: Config, w0: World, es: seq<Event>, ev: Event) returns (v: World, w: World)
    requires Conforming(cfg, w0, es)
    requires RunFrom(cfg, w0, es).Running? ==> Permitted(RunFrom(cfg, w0, es).world, Horizon(cfg, w0, es), ev)
    ensures RunFrom(cfg, w0, es) == Running(v) && RunFrom(cfg, w0, es + [ev]) == Running(w)
    ensures Conforming(cfg, w0, es + [ev])
    ensures Horizon(cfg, w0, es + [ev]) == HorizonAfter(Horizon(cfg, w0, es), v, ev)
    ensures Settled(cfg, w0, es + [ev]) == SettledAfter(Settled(cfg, w0, es), v, ev)
    ensures w.confirmed == Enter(v, ev.session).confirmed
    ensures match ev.request
            case Save => w.frame == v.frame && Saved(w)
            case Advance(_) => w.frame == v.frame + 1 && !Saved(w)
            case Load(r) => w.frame == r && Saved(w)
  {
    assert (es + [ev])[..|es + [ev]| - 1] == es;
    RunNeverPanics(cfg, w0, es);
    v := RunFrom(cfg, w0, es).world;
    ServedFrame(cfg, v, ev, Horizon(cfg, w0, es));
    w := RunFrom(cfg, w0, es + [ev]).world;
  }

  /**
   Where a run stands between two requests of a legal stream: at which frame, whether that frame
   is saved, how far down the session may still reach, and a bound on all confirmed frames so far.
   */
  ghost predicate At(cfg: Config, w0: World, es: seq<Event>, frame: int, saved: bool, floor: int, cap: int) {
    && Conforming(cfg, w0, es)
    && match RunFrom(cfg, w0, es)
       case Panicked => false
       case Running(v) =>
         && v.frame == frame && Saved(v) == saved && v.confirmed <= cap
         && Settled(cfg, w0, es) <= cap
         && Horizon(cfg, w0, es) <= Max(0, Max(Settled(cfg, w0, es), floor))
  }

  /** Up to frame `top` the session confirms nothing above `cap`. */
  predicate Capped(s: Session, top: int, cap: int) {
    ConfirmedBy(s, top).GetOr(cap) <= cap
  }

  lemma CapHolds(v: World, s: Session, cap: int)
    requires v.confirmed <= cap && Capped(s, v.frame, cap)
    ensures Enter(v, s).confirmed <= cap
  {
  }

  /** Confirming more raises the horizon no further than what is settled. */
  lemma HorizonSettles(horizon: int, settled: int, floor: int, confirmed: int)
    requires horizon <= Max(0, Max(settled, floor))
    ensures Max(horizon, confirmed) <= Max(0, Max(Max(settled, confirmed), floor))
  {
  }

  lemma AppendSave(cfg: Config, w0: World, es: seq<Event>, s: Session, frame: int, saved: bool, depth: nat,
                   floor: int, cap: int)
    requires At(cfg, w0, es, frame, saved, floor, cap) && frame + 1 - depth <= floor
    requires depth >= 1 && Window(s) == Some(depth) && Capped(s, frame, cap)
    ensures At(cfg, w0, es + [SaveEvent(s)], frame, true, floor, cap)
  {
    var v, w := AppendEvent(cfg, w0, es, SaveEvent(s));
  }

  lemma AppendAdvance(cfg: Config, w0: World, es: seq<Event>, s: Session, i: Input, frame: int, floor: int, cap: int)
    requires At(cfg, w0, es, frame, true, floor, cap) && frame < I32_MAX
    requires Window(s).GetOr(0) >= 1 && Capped(s, frame, cap)
    ensures At(cfg, w0, es + [AdvanceEvent(s, i)], frame + 1, false, floor, cap)
  {
    var v, w := AppendEvent(cfg, w0, es, AdvanceEvent(s, i));
    CapHolds(v, s, cap);
    HorizonSettles(Horizon(cfg, w0, es), Settled(cfg, w0, es), floor, Enter(v, s).confirmed);
  }

  lemma AppendSaveAdvance(cfg: Config, w0: World, es: seq<Event>, s: Session, i: Input, frame: int, depth: nat,
                          floor: int, cap: int)
    requires At(cfg, w0, es, frame, false, floor, cap) && frame + 1 - depth <= floor && frame < I32_MAX
    requires depth >= 1 && Window(s) == Some(depth) && Capped(s, frame, cap)
    ensures At(cfg, w0, es + [SaveEvent(s)] + [AdvanceEvent(s, i)], frame + 1, false, floor, cap)
  {
    AppendSave(cfg, w0, es, s, frame, false, depth, floor, cap);
    AppendAdvance(cfg, w0, es + [SaveEvent(s)], s, i, frame, floor, cap);
  }

  lemma AppendLoad(cfg: Config, w0: World, es: seq<Event>, t: Turn, frame: int, depth: nat, cap: int)
    requires At(cfg, w0, es, frame, false, frame - depth, cap)
    requires depth >= 1 && t.batch.Replay? && Capped(t.session, frame, cap)
    requires TurnOk(RunFrom(cfg, w0, es).world, depth, Settled(cfg, w0, es), t)
    ensures At(cfg, w0, es + [Event(t.session, Load(t.batch.frame), t.batch.choice)], t.batch.frame, true,
               frame - depth, cap)
  {
    var v, w := AppendEvent(cfg, w0, es, Event(t.session, Load(t.batch.frame), t.batch.choice));
  }

  lemma RaiseFloor(cfg: Config, w0: World, es: seq<Event>, frame: int, saved: bool, floor: int, floor': int, cap: int)
    requires At(cfg, w0, es, frame, saved, floor, cap) && floor <= floor'
    ensures At(cfg, w0, es, frame, saved, floor', cap)
  {
  }

  lemma Regroup<T>(a: seq<T>, b: seq<T>, c: T, d: T)
    ensures a + (b + [c] + [d]) == a + b + [c] + [d]
  {
  }

  lemma Prepend<T>(a: seq<T>, b: T, c: seq<T>)
    ensures a + ([b] + c) == a + [b] + c
  {
  }

  lemma AppendAfter(cfg: Config, w0: World, es: seq<Event>, part: seq<Event>, s: Session, i: Input,
                    frame: int, depth: nat, floor: int, cap: int)
    requires At(cfg, w0, es + part, frame, false, floor, cap) && frame + 1 - depth <= floor && frame < I32_MAX
    requires depth >= 1 && Window(s) == Some(depth) && Capped(s, frame, cap)
    ensures At(cfg, w0, es + (part + [SaveEvent(s)] + [AdvanceEvent(s, i)]), frame + 1, false, floor, cap)
  {
    AppendSaveAdvance(cfg, w0, es + part, s, i, frame, depth, floor, cap);
    Regroup(es, part, SaveEvent(s), AdvanceEvent(s, i));
  }

  lemma {:induction false} AppendResimulation(cfg: Config, w0: World, es: seq<Event>, s: Session, inputs: seq<Input>,
                                             frame: int, depth: nat, top: int, cap: int)
    requires At(cfg, w0, es, frame, true, top - depth, cap) && inputs != []
    requires frame + |inputs| <= top <= I32_MAX
    requires depth >= 1 && Window(s) == Some(depth) && Capped(s, top - 1, cap)
    ensures At(cfg, w0, es + Resimulate(s, inputs), frame + |inputs|, false, top - depth, cap)
  {
    if |inputs| == 1 {
      AppendAdvance(cfg, w0, es, s, inputs[0], frame, top - depth, cap);
    } else {
      var front := inputs[..|inputs| - 1];
      var last := inputs[|inputs| - 1];
      AppendResimulation(cfg, w0, es, s, front, frame, depth, top, cap);
      AppendAfter(cfg, w0, es, Resimulate(s, front), s, last, frame + |front|, depth, top - depth, cap);
    }
  }

  lemma AppendPlain(cfg: Config, w0: World, es: seq<Event>, s: Session, i: Input, frame: int, depth: nat, cap: int)
    requires At(cfg, w0, es, frame, false, frame - depth, cap) && frame < I32_MAX
    requires depth >= 1 && Window(s) == Some(depth) && Capped(s, frame, cap)
    ensures At(cfg, w0, es + Expand(s, Plain(i)), frame + 1, false, frame + 1 - depth, cap)
  {
    RaiseFloor(cfg, w0, es, frame, false, frame - depth, frame + 1 - depth, cap);
    AppendSaveAdvance(cfg, w0, es, s, i, frame, depth, frame + 1 - depth, cap);
    Regroup(es, [], SaveEvent(s), AdvanceEvent(s, i));
    assert [] + [SaveEvent(s)] + [AdvanceEvent(s, i)] == Expand(s, Plain(i));
    assert es + [] == es;
  }

  /** Going back, with the floor that the frame after the replay will have. */
  lemma AppendReturn(cfg: Config, w0: World, es: seq<Event>, t: Turn, frame: int, depth: nat, cap: int)
    requires At(cfg, w0, es, frame, false, frame - depth, cap) && t.batch.Replay?
    requires depth >= 1 && Capped(t.session, frame, cap)
    requires TurnOk(RunFrom(cfg, w0, es).world, depth, Settled(cfg, w0, es), t)
    ensures At(cfg, w0, es + [Event(t.session, Load(t.batch.frame), t.batch.choice)], t.batch.frame, true,
               frame + 1 - depth, cap)
  {
    AppendLoad(cfg, w0, es, t, frame, depth, cap);
    RaiseFloor(cfg, w0, es + [Event(t.session, Load(t.batch.frame), t.batch.choice)], t.batch.frame, true,
               frame - depth, frame + 1 - depth, cap);
  }

  lemma ReplayShape(v: World, depth: nat, settled: int, t: Turn)
    requires InRange(v, depth, settled, t) && t.batch.Replay?
    ensures t.batch.inputs != [] && t.batch.frame + |t.batch.inputs| == v.frame + 1 <= I32_MAX
    ensures Window(t.session) == Some(depth)
  {
  }

  lemma AppendReplay(cfg: Config, w0: World, es: seq<Event>, t: Turn, frame: int, depth: nat, cap: int)
    requires At(cfg, w0, es, frame, false, frame - depth, cap) && t.batch.Replay?
    requires depth >= 1 && Capped(t.session, frame, cap)
    requires TurnOk(RunFrom(cfg, w0, es).world, depth, Settled(cfg, w0, es), t)
    ensures At(cfg, w0, es + Expand(t.session, t.batch), frame + 1, false, frame + 1 - depth, cap)
  {
    var load := Event(t.session, Load(t.batch.frame), t.batch.choice);
    AppendReturn(cfg, w0, es, t, frame, depth, cap);
    ReplayShape(RunFrom(cfg, w0, es).world, depth, Settled(cfg, w0, es), t);
    AppendResimulation(cfg, w0, es + [load], t.session, t.batch.inputs, t.batch.frame, depth, frame + 1, cap);
    Prepend(es, load, Resimulate(t.session, t.batch.inputs));
  }

  lemma AppendTurn(cfg: Config, w0: World, es: seq<Event>, t: Turn, frame: int, depth: nat, cap: int)
    requires At(cfg, w0, es, frame, false, frame - depth, cap)
    requires depth >= 1 && Capped(t.session, frame, cap)
    requires TurnOk(RunFrom(cfg, w0, es).world, depth, Settled(cfg, w0, es), t)
    ensures At(cfg, w0, es + Expand(t.session, t.batch), frame + 1, false, frame + 1 - depth, cap)
  {
    match t.batch
    case Plain(i) => AppendPlain(cfg, w0, es, t.session, i, frame, depth, cap);
    case Replay(_, _, _) => AppendReplay(cfg, w0, es, t, frame, depth, cap);
  }

  lemma RaiseCap(cfg: Config, w0: World, es: seq<Event>, frame: int, saved: bool, floor: int, cap: int, cap': int)
    requires At(cfg, w0, es, frame, saved, floor, cap) && cap <= cap'
    ensures At(cfg, w0, es, frame, saved, floor, cap')
  {
  }

  lemma {:induction false} LegalStreamsConform(cfg: Config, w0: World, depth: nat, ts: seq<Turn>) returns (cap: int)
    requires Legal(cfg, w0, depth, ts)
    ensures depth >= 1 && At(cfg, w0, EventsOf(ts), |ts|, false, |ts| - depth, cap)
  {
    if ts == [] {
      cap := Max(0, w0.confirmed);
    } else {
      var front := ts[..|ts| - 1];
      var t := ts[|ts| - 1];
      var cap0 := LegalStreamsConform(cfg, w0, depth, front);
      cap := Max(cap0, ConfirmedBy(t.session, |front|).GetOr(cap0));
      RaiseCap(cfg, w0, EventsOf(front), |front|, false, |front| - depth, cap0, cap);
      AppendTurn(cfg, w0, EventsOf(front), t, |front|, depth, cap);
    }
  }

  /**
   Every legal stream of batches is served: no load ever misses its snapshot, and after every
   batch the stored frames are one contiguous interval that ends just before the current frame
   and starts at or below `max(0, settled, frame - depth)`.
   */
  lemma LegalStreamsAreServed(cfg: Config, w0: World, depth: nat, ts: seq<Turn>)
    requires Legal(cfg, w0, depth, ts)
    ensures Conforming(cfg, w0, EventsOf(ts)) && RunFrom(cfg, w0, EventsOf(ts)).Running?
    ensures var w := RunFrom(cfg, w0, EventsOf(ts)).world;
            && w.frame == |ts|
            && (forall i :: 0 <= i < |w.history| ==> w.history[i].frame == |ts| - 1 - i)
            && (ts != [] ==>
                  && w.history != []
                  && w.history[|w.history| - 1].frame <= Max(0, Max(Settled(cfg, w0, EventsOf(ts)), |ts| - depth)))
  {
    var cap := LegalStreamsConform(cfg, w0, depth, ts);
    RunNeverPanics(cfg, w0, EventsOf(ts));
  }
}
