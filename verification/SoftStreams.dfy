/**
 Soft despawn over the batches a session emits. A load is always followed by a replay up to the next
 frame, so of two loads in a row the second cannot reach as far back as the first. That makes the guard
 of `SoftDespawn` a frame weaker than for single requests, and exact.
 */
module SoftStreams {
  import opened Prelude
  import opened Population
  import opened SnapshotQueue
  import opened WorldModel
  import opened Bystanders
  import opened Runs
  import opened Sessions
  import opened Stretches
  import opened SoftDespawn

  // ---- The guard -----------------------------------------------------------------------------

  /** The lowest frame that the next batch may ask for. */
  ghost function Asked(cfg: Config, w0: World, depth: nat, ts: seq<Turn>): int {
    Max(0, Max(Settled(cfg, w0, EventsOf(ts)), |ts| - depth))
  }

  /** The lowest frame that the batch after the next one may ask for. */
  ghost function AskedLater(cfg: Config, w0: World, depth: nat, ts: seq<Turn>): int {
    Max(0, Max(Settled(cfg, w0, EventsOf(ts)), |ts| + 1 - depth))
  }

  /** All soft despawns of `more`, run after `es`, are harmless. */
  ghost predicate HarmlessOn(cfg: Config, w0: World, es: seq<Event>, more: seq<Event>, later: int) {
    if more == [] then true
    else
      var front := more[..|more| - 1];
      && HarmlessOn(cfg, w0, es, front, later)
      && (RunFrom(cfg, w0, es + front).Running? ==>
            HarmlessAt(cfg, RunFrom(cfg, w0, es + front).world, later, more[|more| - 1]))
  }

  /** The soft despawns of the last batch hid nobody again whom the batch after the next one may ask for. */
  ghost predicate HarmlessLast(cfg: Config, w0: World, depth: nat, ts: seq<Turn>)
    requires ts != []
  {
    var t := ts[|ts| - 1];
    HarmlessOn(cfg, w0, EventsOf(ts[..|ts| - 1]) + [FirstOf(t)], RestOf(t), AskedLater(cfg, w0, depth, ts))
  }

  ghost predicate HarmlessStream(cfg: Config, w0: World, depth: nat, ts: seq<Turn>) {
    ts == [] || (HarmlessStream(cfg, w0, depth, ts[..|ts| - 1]) && HarmlessLast(cfg, w0, depth, ts))
  }

  // ---- Where a batch is ------------------------------------------------------------------------

  lemma {:induction false} SettledGrows(cfg: Config, w0: World, es: seq<Event>, more: seq<Event>)
    ensures Settled(cfg, w0, es) <= Settled(cfg, w0, es + more)
    decreases |more|
  {
    if more == [] {
      assert es + more == es;
    } else {
      assert (es + more)[..|es + more| - 1] == es + more[..|more| - 1];
      SettledGrows(cfg, w0, es, more[..|more| - 1]);
    }
  }

  lemma RestIsOnward(t: Turn)
    ensures Onward(RestOf(t))
  {
    if t.batch.Replay? {
      ResimulateShape(t.session, t.batch.inputs);
    }
    OnwardEvents(RestOf(t));
  }

  lemma LegalAt(cfg: Config, w0: World, depth: nat, ts: seq<Turn>)
    requires Legal(cfg, w0, depth, ts)
    ensures Conforming(cfg, w0, EventsOf(ts)) && Horizon(cfg, w0, EventsOf(ts)) <= Asked(cfg, w0, depth, ts)
    ensures RunFrom(cfg, w0, EventsOf(ts)).Running? && RunFrom(cfg, w0, EventsOf(ts)).world.frame == |ts|
  {
    var cap := LegalStreamsConform(cfg, w0, depth, ts);
  }

  lemma BoundsGrow(settled: int, settled': int, frame: int, depth: nat)
    requires settled <= settled'
    ensures Max(0, Max(settled, frame - 1 - depth)) <= Max(0, Max(settled, frame - depth))
            <= Max(0, Max(settled', frame - depth)) <= Max(0, Max(settled', frame + 1 - depth))
  {
  }

  /** What may be asked for only moves up. */
  lemma AskedGrows(cfg: Config, w0: World, depth: nat, ts: seq<Turn>)
    requires Legal(cfg, w0, depth, ts) && ts != []
    ensures var front := ts[..|ts| - 1];
            && Asked(cfg, w0, depth, front) <= AskedLater(cfg, w0, depth, front) <= Asked(cfg, w0, depth, ts)
            && Asked(cfg, w0, depth, ts) <= AskedLater(cfg, w0, depth, ts)
  {
    var es, t := EventsOf(ts[..|ts| - 1]), ts[|ts| - 1];
    LegalAt(cfg, w0, depth, ts);
    SettledGrows(cfg, w0, es, Expand(t.session, t.batch));
    BoundsGrow(Settled(cfg, w0, es), Settled(cfg, w0, EventsOf(ts)), |ts|, depth);
  }

  /** The first event of the last batch is permitted; if it is a load, it is of a frame that may be asked for. */
  lemma FirstIsNext(cfg: Config, w0: World, depth: nat, ts: seq<Turn>) returns (v: World)
    requires Legal(cfg, w0, depth, ts) && ts != []
    ensures var es, t := EventsOf(ts[..|ts| - 1]), ts[|ts| - 1];
            && Legal(cfg, w0, depth, ts[..|ts| - 1]) && Next(cfg, w0, es, v, FirstOf(t)) && v.frame == |ts| - 1
            && (t.batch.Replay? ==> Asked(cfg, w0, depth, ts[..|ts| - 1]) <= t.batch.frame)
            && RunFrom(cfg, w0, es + [FirstOf(t)]) == Step(cfg, v, FirstOf(t))
            && Conforming(cfg, w0, es + [FirstOf(t)]) && Conforming(cfg, w0, es + [FirstOf(t)] + RestOf(t))
            && Horizon(cfg, w0, es + [FirstOf(t)]) == HorizonAfter(Horizon(cfg, w0, es), v, FirstOf(t))
            && Horizon(cfg, w0, es + [FirstOf(t)]) <= Horizon(cfg, w0, EventsOf(ts)) <= Asked(cfg, w0, depth, ts)
  {
    var es, t := EventsOf(ts[..|ts| - 1]), ts[|ts| - 1];
    LegalAt(cfg, w0, depth, ts[..|ts| - 1]);
    LegalAt(cfg, w0, depth, ts);
    LastEvents(ts);
    ConformingPrefix(cfg, w0, EventsOf(ts), es + [FirstOf(t)]);
    HorizonGrows(cfg, w0, es + [FirstOf(t)], RestOf(t));
    var front, ev;
    front, v, ev := LastStep(cfg, w0, es, [FirstOf(t)]);
    assert es + front == es;
  }

  // ---- Harmless streams lose nobody ------------------------------------------------------------

  /** The first event of a batch raises what may be asked for. */
  lemma FirstSoft(cfg: Config, w0: World, es: seq<Event>, v: World, ev: Event, asked: int, later: int, asked': int,
                  later': int)
    requires Next(cfg, w0, es, v, ev) && SoftLogic(cfg) && !ev.request.Advance?
    requires SoftInvariant(v, asked, later) && (ev.request.Load? ==> asked <= ev.request.frame)
    requires asked <= later <= asked' <= later'
    ensures Step(cfg, v, ev).Running? && SoftInvariant(Step(cfg, v, ev).world, asked', later')
  {
    Known(cfg, w0, es, v, ev);
    StepSoft(cfg, v, ev, Horizon(cfg, w0, es), asked, later);
    AskedRises(Step(cfg, v, ev).world, if ev.request.Load? then later else asked, later, asked', later');
  }

  lemma NextSoft(cfg: Config, w0: World, es: seq<Event>, v: World, ev: Event, asked: int, later: int)
    requires Next(cfg, w0, es, v, ev) && SoftLogic(cfg) && !ev.request.Load?
    requires SoftInvariant(v, asked, later) && HarmlessAt(cfg, v, later, ev)
    requires HorizonAfter(Horizon(cfg, w0, es), v, ev) <= asked
    ensures Step(cfg, v, ev).Running? && SoftInvariant(Step(cfg, v, ev).world, asked, later)
  {
    Known(cfg, w0, es, v, ev);
    StepSoft(cfg, v, ev, Horizon(cfg, w0, es), asked, later);
  }

  /** The rest of a batch, with any bound for later loads under which it is harmless. */
  lemma {:induction false} RestSoft(cfg: Config, w0: World, es: seq<Event>, rest: seq<Event>, asked: int, later: int)
    requires SoftLogic(cfg) && Conforming(cfg, w0, es + rest) && Onward(rest) && Horizon(cfg, w0, es + rest) <= asked
    requires RunFrom(cfg, w0, es).Running? && SoftInvariant(RunFrom(cfg, w0, es).world, asked, later)
    requires HarmlessOn(cfg, w0, es, rest, later)
    ensures RunFrom(cfg, w0, es + rest).Running? && SoftInvariant(RunFrom(cfg, w0, es + rest).world, asked, later)
  {
    if rest == [] {
      assert es + rest == es;
    } else {
      var front, v, ev := LastStep(cfg, w0, es, rest);
      RestSoft(cfg, w0, es, front, asked, later);
      NextSoft(cfg, w0, es + front, v, ev, asked, later);
    }
  }

  /** Up to the first event of the last batch. */
  lemma LastStartsSoft(cfg: Config, w0: World, depth: nat, ts: seq<Turn>, later: int)
    requires Legal(cfg, w0, depth, ts) && ts != [] && SoftLogic(cfg) && Asked(cfg, w0, depth, ts) <= later
    requires var front := ts[..|ts| - 1];
             && RunFrom(cfg, w0, EventsOf(front)).Running?
             && SoftInvariant(RunFrom(cfg, w0, EventsOf(front)).world, Asked(cfg, w0, depth, front),
                              AskedLater(cfg, w0, depth, front))
    ensures var es := EventsOf(ts[..|ts| - 1]) + [FirstOf(ts[|ts| - 1])];
            && RunFrom(cfg, w0, es).Running?
            && SoftInvariant(RunFrom(cfg, w0, es).world, Asked(cfg, w0, depth, ts), later)
  {
    var front := ts[..|ts| - 1];
    var v := FirstIsNext(cfg, w0, depth, ts);
    AskedGrows(cfg, w0, depth, ts);
    FirstSoft(cfg, w0, EventsOf(front), v, FirstOf(ts[|ts| - 1]), Asked(cfg, w0, depth, front),
              AskedLater(cfg, w0, depth, front), Asked(cfg, w0, depth, ts), later);
  }

  /** Over every harmless stream, everything that the next two batches may ask for is in place. */
  lemma {:induction false} StreamSoft(cfg: Config, w0: World, depth: nat, ts: seq<Turn>)
    requires SoftLogic(cfg) && Native(w0.pop)
    requires Legal(cfg, w0, depth, ts) && HarmlessStream(cfg, w0, depth, ts)
    ensures RunFrom(cfg, w0, EventsOf(ts)).Running?
    ensures SoftInvariant(RunFrom(cfg, w0, EventsOf(ts)).world, Asked(cfg, w0, depth, ts),
                          AskedLater(cfg, w0, depth, ts))
  {
    if ts != [] {
      var t := ts[|ts| - 1];
      StreamSoft(cfg, w0, depth, ts[..|ts| - 1]);
      AskedGrows(cfg, w0, depth, ts);
      LastStartsSoft(cfg, w0, depth, ts, AskedLater(cfg, w0, depth, ts));
      LastEvents(ts);
      LegalAt(cfg, w0, depth, ts);
      RestIsOnward(t);
      RestSoft(cfg, w0, EventsOf(ts[..|ts| - 1]) + [FirstOf(t)], RestOf(t), Asked(cfg, w0, depth, ts),
               AskedLater(cfg, w0, depth, ts));
    }
  }

  /**
   Over harmless streams soft despawn never loses an entity. The load of the next batch respawns nothing,
   and whatever its snapshot knows is there, visible, under its own handle, with its unregistered
   component exactly as it was before the load.
   */
  lemma SoftStreamsNeverLose(cfg: Config, w0: World, depth: nat, ts: seq<Turn>, t: Turn, x: RollbackId)
    requires SoftLogic(cfg) && Native(w0.pop) && Legal(cfg, w0, depth, ts) && HarmlessStream(cfg, w0, depth, ts)
    requires Legal(cfg, w0, depth, ts + [t]) && t.batch.Replay?
    requires RunFrom(cfg, w0, EventsOf(ts)).Running? ==>
               var h := RolledBack(RunFrom(cfg, w0, EventsOf(ts)).world.history, t.batch.frame);
               h != [] ==> x in h[0].data.entities
    ensures RunFrom(cfg, w0, EventsOf(ts)).Running?
    ensures Step(cfg, RunFrom(cfg, w0, EventsOf(ts)).world, LoadOf(t)).Running?
    ensures var w := RunFrom(cfg, w0, EventsOf(ts)).world;
            var w' := Step(cfg, w, LoadOf(t)).world;
            && t.batch.choice.spawned == map[]
            && x.entity in w.pop && Visible(w'.pop, x.entity) && w'.pop[x.entity].rid == x
            && w'.pop[x.entity].decor == w.pop[x.entity].decor
            && x.entity in w'.entityMap && w'.entityMap[x.entity] == x.entity
  {
    assert (ts + [t])[..|ts + [t]| - 1] == ts;
    StreamSoft(cfg, w0, depth, ts);
    var v := FirstIsNext(cfg, w0, depth, ts + [t]);
    Known(cfg, w0, EventsOf(ts), v, LoadOf(t));
    StepServes(cfg, v, LoadOf(t), Horizon(cfg, w0, EventsOf(ts)));
    EnterTidy(v, t.session);
    SoftLoadKeeps(cfg, Enter(v, t.session), t.batch.frame, t.batch.choice, Asked(cfg, w0, depth, ts),
                  AskedLater(cfg, w0, depth, ts), x);
  }

  // ---- Where the guard is weaker ----------------------------------------------------------------

  lemma {:induction false} HarmlessRises(w: World, later: int, later': int, cs: seq<Command>)
    requires HarmlessScript(w, later, cs) && later <= later'
    ensures HarmlessScript(w, later', cs)
  {
    if cs != [] {
      HarmlessRises(w, later, later', cs[..|cs| - 1]);
    }
  }

  lemma HarmlessAtRises(cfg: Config, v: World, later: int, later': int, ev: Event)
    requires HarmlessAt(cfg, v, later, ev) && later <= later'
    ensures HarmlessAt(cfg, v, later', ev)
  {
    var w := Enter(v, ev.session);
    if ev.request.Advance? && CanAdvance(cfg, w) {
      HarmlessRises(BeforeLogic(cfg, w), later, later', cfg.logic(ViewOf(BeforeLogic(cfg, w)), ev.request.input));
    }
  }

  /** A run up to its last event, and that event. */
  lemma LastHarmless(cfg: Config, w0: World, es: seq<Event>, front: seq<Event>, ev: Event, later: int)
    requires es != [] && front == es[..|es| - 1] && ev == es[|es| - 1]
    requires HarmlessRun(cfg, w0, es) && Horizon(cfg, w0, es) <= later
    ensures HarmlessRun(cfg, w0, front) && Horizon(cfg, w0, front) <= later
    ensures RunFrom(cfg, w0, front).Running? ==> HarmlessAt(cfg, RunFrom(cfg, w0, front).world, later, ev)
  {
    if RunFrom(cfg, w0, front).Running? {
      HarmlessAtRises(cfg, RunFrom(cfg, w0, front).world, Horizon(cfg, w0, es), later, ev);
    }
  }

  lemma {:induction false} RestHarmless(cfg: Config, w0: World, es: seq<Event>, rest: seq<Event>, later: int)
    requires HarmlessRun(cfg, w0, es + rest) && Horizon(cfg, w0, es + rest) <= later
    ensures HarmlessOn(cfg, w0, es, rest, later) && HarmlessRun(cfg, w0, es)
    decreases |rest|
  {
    if rest == [] {
      assert es + rest == es;
    } else {
      var front := rest[..|rest| - 1];
      assert (es + rest)[..|es + rest| - 1] == es + front;
      LastHarmless(cfg, w0, es + rest, es + front, rest[|rest| - 1], later);
      RestHarmless(cfg, w0, es, front, later);
    }
  }

  /** What is harmless for single requests is harmless for batches. */
  lemma {:induction false} HarmlessRunsAreHarmlessStreams(cfg: Config, w0: World, depth: nat, ts: seq<Turn>)
    requires Legal(cfg, w0, depth, ts) && HarmlessRun(cfg, w0, EventsOf(ts))
    ensures HarmlessStream(cfg, w0, depth, ts)
  {
    if ts != [] {
      var es, t := EventsOf(ts[..|ts| - 1]), ts[|ts| - 1];
      var v := FirstIsNext(cfg, w0, depth, ts);
      AskedGrows(cfg, w0, depth, ts);
      LastEvents(ts);
      RestHarmless(cfg, w0, es + [FirstOf(t)], RestOf(t), AskedLater(cfg, w0, depth, ts));
      assert (es + [FirstOf(t)])[..|es|] == es;
      HarmlessRunsAreHarmlessStreams(cfg, w0, depth, ts[..|ts| - 1]);
    }
  }
}
