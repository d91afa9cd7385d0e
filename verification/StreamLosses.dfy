/**
 What a harmful soft despawn costs. The guard of `SoftStreams` is exact: a batch that breaks it can be
 followed by two batches after which somebody is lost.
 */
module StreamLosses {
  import opened Prelude
  import opened SnapshotQueue
  import opened WorldModel
  import opened Soundness
  import opened Runs
  import opened Sessions
  import opened Stretches
  import opened SoftDespawn
  import opened Overwriting
  import opened SoftStreams

  // ---- Harmful batches lose somebody -----------------------------------------------------------

  lemma HarmfulNextLoses(cfg: Config, w0: World, es: seq<Event>, v: World, ev: Event, asked: int, later: int)
    requires Next(cfg, w0, es, v, ev) && SoftLogic(cfg) && !HarmlessAt(cfg, v, later, ev)
    requires SoftInvariant(v, asked, later) && HorizonAfter(Horizon(cfg, w0, es), v, ev) <= asked
    ensures Step(cfg, v, ev).Running? && Losing(Step(cfg, v, ev).world, later)
  {
    Known(cfg, w0, es, v, ev);
    StepServes(cfg, v, ev, Horizon(cfg, w0, es));
    EnterSoft(v, ev.session, asked, later);
    var d, newer, older := HarmfulAdvanceLoses(cfg, Enter(v, ev.session), ev.request.input, asked, later);
  }

  lemma LosingNext(cfg: Config, w0: World, es: seq<Event>, v: World, ev: Event, later: int)
    requires Next(cfg, w0, es, v, ev) && SoftLogic(cfg) && !ev.request.Load?
    requires Losing(v, later) && HorizonAfter(Horizon(cfg, w0, es), v, ev) <= later
    ensures Step(cfg, v, ev).Running? && Losing(Step(cfg, v, ev).world, later)
  {
    var d, newer, older :| Doomed(v, d, newer, older) && older.frame >= later;
    Known(cfg, w0, es, v, ev);
    DoomedStep(cfg, v, ev, Horizon(cfg, w0, es), d, newer, older);
  }

  /** A harmful event of a batch dooms somebody, and the rest of the batch does not change that. */
  lemma {:induction false} HarmfulRestLoses(cfg: Config, w0: World, es: seq<Event>, rest: seq<Event>, asked: int,
                                            later: int)
    requires SoftLogic(cfg) && Conforming(cfg, w0, es + rest) && Onward(rest)
    requires Horizon(cfg, w0, es + rest) <= asked <= later
    requires RunFrom(cfg, w0, es).Running? && SoftInvariant(RunFrom(cfg, w0, es).world, asked, later)
    requires !HarmlessOn(cfg, w0, es, rest, later)
    ensures RunFrom(cfg, w0, es + rest).Running? && Losing(RunFrom(cfg, w0, es + rest).world, later)
    decreases |rest|
  {
    var front, v, ev := LastStep(cfg, w0, es, rest);
    if HarmlessOn(cfg, w0, es, front, later) {
      RestSoft(cfg, w0, es, front, asked, later);
      HarmfulNextLoses(cfg, w0, es + front, v, ev, asked, later);
    } else {
      HarmfulRestLoses(cfg, w0, es, front, asked, later);
      LosingNext(cfg, w0, es + front, v, ev, later);
    }
  }

  lemma HarmfulLastLoses(cfg: Config, w0: World, depth: nat, ts: seq<Turn>)
    requires SoftLogic(cfg) && Native(w0.pop) && Legal(cfg, w0, depth, ts) && ts != []
    requires HarmlessStream(cfg, w0, depth, ts[..|ts| - 1]) && !HarmlessLast(cfg, w0, depth, ts)
    ensures RunFrom(cfg, w0, EventsOf(ts)).Running?
    ensures Losing(RunFrom(cfg, w0, EventsOf(ts)).world, AskedLater(cfg, w0, depth, ts))
  {
    var front, t := ts[..|ts| - 1], ts[|ts| - 1];
    LegalAt(cfg, w0, depth, ts);
    LastEvents(ts);
    RestIsOnward(t);
    AskedGrows(cfg, w0, depth, ts);
    var v := FirstIsNext(cfg, w0, depth, ts);
    StreamSoft(cfg, w0, depth, front);
    LastStartsSoft(cfg, w0, depth, ts, AskedLater(cfg, w0, depth, ts));
    HarmfulRestLoses(cfg, w0, EventsOf(front) + [FirstOf(t)], RestOf(t), Asked(cfg, w0, depth, ts),
                     AskedLater(cfg, w0, depth, ts));
  }

  // ---- Two more batches ------------------------------------------------------------------------

  /** Two replays in a row. */
  lemma TwoReplays(ts: seq<Turn>, t1: Turn, t2: Turn)
    requires t1.batch.Replay? && t2.batch.Replay?
    ensures var loads := TwoLoads(LoadOf(t1), RestOf(t1), LoadOf(t2));
            && EventsOf(ts + [t1]) + [LoadOf(t2)] == EventsOf(ts) + loads
            && EventsOf(ts + [t1] + [t2]) == EventsOf(ts) + loads + RestOf(t2)
  {
    OneMoreTurn(ts, t1);
    OneMoreTurn(ts + [t1], t2);
    InOrder(EventsOf(ts), LoadOf(t1), RestOf(t1), LoadOf(t2));
  }

  /**
   Whoever is doomed is lost by any two legal replays from the two frames: the second load respawns the
   identity under another handle, and to the end of the batch it is not back on its own handle, and
   its unregistered component is gone.
   */
  lemma DoomedIsLost(cfg: Config, w0: World, depth: nat, ts: seq<Turn>, t1: Turn, t2: Turn, d: Entity,
                     newer: Entry<Snapshot>, older: Entry<Snapshot>)
    requires Legal(cfg, w0, depth, ts) && Legal(cfg, w0, depth, ts + [t1] + [t2])
    requires RunFrom(cfg, w0, EventsOf(ts)).Running? && Doomed(RunFrom(cfg, w0, EventsOf(ts)).world, d, newer, older)
    requires t1.batch.Replay? && t1.batch.frame == newer.frame && t2.batch.Replay? && t2.batch.frame == older.frame
    ensures RunFrom(cfg, w0, EventsOf(ts + [t1]) + [LoadOf(t2)]).Running?
    ensures RunFrom(cfg, w0, EventsOf(ts + [t1] + [t2])).Running?
    ensures var x, c := RunFrom(cfg, w0, EventsOf(ts)).world.pop[d].rid, t2.batch.choice;
            && Respawned(RunFrom(cfg, w0, EventsOf(ts + [t1]) + [LoadOf(t2)]).world, c, x, d)
            && Confined(RunFrom(cfg, w0, EventsOf(ts + [t1] + [t2])).world, x, {c.spawned[x]})
  {
    LegalAt(cfg, w0, depth, ts + [t1] + [t2]);
    TwoReplays(ts, t1, t2);
    RestIsOnward(t1);
    RestIsOnward(t2);
    DoomedIsLostAfter(cfg, w0, EventsOf(ts), RunFrom(cfg, w0, EventsOf(ts)).world, LoadOf(t1), RestOf(t1), LoadOf(t2),
                      RestOf(t2), d, newer, older);
  }

  // ---- The guard is exact ----------------------------------------------------------------------

  lemma FreshFor(v: World, s: Session, r: int) returns (c: Choice)
    ensures FreshHandles(v, s, r, c)
  {
    var w := Enter(v, s);
    c := NO_CHOICE;
    if RolledBack(w.history, r) != [] {
      c := FreshHandlesExist(Missing(BeforeReconcile(w, r), RolledBack(w.history, r)[0].data.entities), w.next);
    }
  }

  lemma ReplayInRange(v: World, depth: nat, settled: int, s: Session, r: int, inputs: seq<Input>, c: Choice)
    requires Window(s) == Some(depth) && v.frame < I32_MAX && FreshHandles(v, s, r, c)
    requires Max(0, Max(settled, v.frame - depth)) <= r < v.frame && |inputs| == v.frame - r + 1
    ensures TurnOk(v, depth, settled, Turn(s, Replay(r, inputs, c)))
  {
  }

  /** What a session may ask for next, with fresh handles. */
  lemma ReplayIsLegal(cfg: Config, w0: World, depth: nat, ts: seq<Turn>, s: Session, r: int, inputs: seq<Input>)
    returns (t: Turn)
    requires Legal(cfg, w0, depth, ts) && |ts| < I32_MAX && Window(s) == Some(depth)
    requires Asked(cfg, w0, depth, ts) <= r < |ts| && |inputs| == |ts| - r + 1
    ensures t.batch.Replay? && t == Turn(s, Replay(r, inputs, t.batch.choice)) && Legal(cfg, w0, depth, ts + [t])
  {
    LegalAt(cfg, w0, depth, ts);
    var v := RunFrom(cfg, w0, EventsOf(ts)).world;
    var c := FreshFor(v, s, r);
    t := Turn(s, Replay(r, inputs, c));
    ReplayInRange(v, depth, Settled(cfg, w0, EventsOf(ts)), s, r, inputs, c);
    LegalNext(cfg, w0, depth, ts, t, v);
  }

  lemma AdvanceSettles(cfg: Config, w0: World, es: seq<Event>, ev: Event)
    requires Conforming(cfg, w0, es + [ev]) && ev.request.Advance?
    ensures RunFrom(cfg, w0, es + [ev]).Running?
    ensures RunFrom(cfg, w0, es + [ev]).world.confirmed <= Settled(cfg, w0, es + [ev])
  {
    assert (es + [ev])[..|es + [ev]| - 1] == es;
    var v, w := AppendEvent(cfg, w0, es, ev);
  }

  lemma SplitLast<T>(a: seq<T>, b: seq<T>)
    requires b != []
    ensures a + b == a + b[..|b| - 1] + [b[|b| - 1]]
  {
  }

  /** Batches end with an advance, so what is confirmed is settled. */
  lemma ConfirmedIsSettled(cfg: Config, w0: World, depth: nat, ts: seq<Turn>)
    requires Legal(cfg, w0, depth, ts) && ts != []
    ensures RunFrom(cfg, w0, EventsOf(ts)).Running?
    ensures RunFrom(cfg, w0, EventsOf(ts)).world.confirmed <= Settled(cfg, w0, EventsOf(ts))
  {
    var es, rest := EventsOf(ts[..|ts| - 1]) + [FirstOf(ts[|ts| - 1])], RestOf(ts[|ts| - 1]);
    LegalAt(cfg, w0, depth, ts);
    LastEvents(ts);
    LastIsAdvance(cfg, w0, depth, ts);
    SplitLast(es, rest);
    AdvanceSettles(cfg, w0, es + rest[..|rest| - 1], rest[|rest| - 1]);
  }

  lemma LastIsAdvance(cfg: Config, w0: World, depth: nat, ts: seq<Turn>)
    requires Legal(cfg, w0, depth, ts) && ts != []
    ensures var rest := RestOf(ts[|ts| - 1]);
            rest != [] && rest[|rest| - 1].request.Advance?
  {
    var v := FirstIsNext(cfg, w0, depth, ts);
  }

  /** A batch of a session that confirms nothing above `cap` settles nothing above it. */
  lemma SettledCapped(cfg: Config, w0: World, depth: nat, ts: seq<Turn>, t: Turn, cap: int)
    requires Legal(cfg, w0, depth, ts) && ts != [] && Legal(cfg, w0, depth, ts + [t])
    requires Settled(cfg, w0, EventsOf(ts)) <= cap && Capped(t.session, |ts|, cap)
    ensures Settled(cfg, w0, EventsOf(ts + [t])) <= cap
  {
    var other := LegalStreamsConform(cfg, w0, depth, ts);
    ConfirmedIsSettled(cfg, w0, depth, ts);
    assert (ts + [t])[..|ts + [t]| - 1] == ts;
    AppendTurn(cfg, w0, EventsOf(ts), t, |ts|, depth, cap);
  }

  lemma NextAsked(cfg: Config, w0: World, depth: nat, ts: seq<Turn>, t: Turn, frame: int)
    requires Legal(cfg, w0, depth, ts) && ts != [] && Legal(cfg, w0, depth, ts + [t])
    requires AskedLater(cfg, w0, depth, ts) <= frame && Capped(t.session, |ts|, frame)
    ensures Asked(cfg, w0, depth, ts + [t]) <= frame
  {
    SettledCapped(cfg, w0, depth, ts, t, frame);
  }

  /**
   Whoever is doomed below two permitted frames can be lost: there are two such replays, of any session
   that does not confirm past the older frame.
   */
  lemma DoomedCanBeLost(cfg: Config, w0: World, depth: nat, ts: seq<Turn>, d: Entity, newer: Entry<Snapshot>,
                        older: Entry<Snapshot>, s: Session, inputs1: seq<Input>, inputs2: seq<Input>)
    returns (t1: Turn, t2: Turn)
    requires Legal(cfg, w0, depth, ts) && |ts| + 1 < I32_MAX
    requires RunFrom(cfg, w0, EventsOf(ts)).Running? && Doomed(RunFrom(cfg, w0, EventsOf(ts)).world, d, newer, older)
    requires older.frame >= AskedLater(cfg, w0, depth, ts)
    requires Window(s) == Some(depth) && Capped(s, |ts|, older.frame)
    requires |inputs1| == |ts| - newer.frame + 1 && |inputs2| == |ts| - older.frame + 2
    ensures t1.batch.Replay? && t1 == Turn(s, Replay(newer.frame, inputs1, t1.batch.choice))
    ensures t2.batch.Replay? && t2 == Turn(s, Replay(older.frame, inputs2, t2.batch.choice))
    ensures Legal(cfg, w0, depth, ts + [t1] + [t2])
  {
    StoredIsPast(cfg, w0, depth, ts, newer);
    t1 := ReplayIsLegal(cfg, w0, depth, ts, s, newer.frame, inputs1);
    NextAsked(cfg, w0, depth, ts, t1, older.frame);
    t2 := ReplayIsLegal(cfg, w0, depth, ts + [t1], s, older.frame, inputs2);
  }

  lemma StoredIsPast(cfg: Config, w0: World, depth: nat, ts: seq<Turn>, e: Entry<Snapshot>)
    requires Legal(cfg, w0, depth, ts)
    requires RunFrom(cfg, w0, EventsOf(ts)).Running? && e in RunFrom(cfg, w0, EventsOf(ts)).world.history
    ensures ts != [] && e.frame < |ts|
  {
    LegalStreamsAreServed(cfg, w0, depth, ts);
  }

  /** If the batch is a replay, its load respawns nobody. */
  predicate RespawnsNobody(t: Turn) {
    t.batch.Replay? ==> t.batch.choice.spawned == map[]
  }

  ghost predicate Continues(cfg: Config, w0: World, depth: nat, ts: seq<Turn>, t1: Turn, t2: Turn) {
    Legal(cfg, w0, depth, ts + [t1] + [t2])
  }

  lemma NextLoadFinds(cfg: Config, w0: World, depth: nat, ts: seq<Turn>, later: int)
    requires Legal(cfg, w0, depth, ts) && ts != []
    requires var front := ts[..|ts| - 1];
             && RunFrom(cfg, w0, EventsOf(front)).Running?
             && SoftInvariant(RunFrom(cfg, w0, EventsOf(front)).world, Asked(cfg, w0, depth, front), later)
    ensures RespawnsNobody(ts[|ts| - 1])
  {
    var front, t := ts[..|ts| - 1], ts[|ts| - 1];
    var v := FirstIsNext(cfg, w0, depth, ts);
    if t.batch.Replay? {
      Known(cfg, w0, EventsOf(front), v, LoadOf(t));
      StepServes(cfg, v, LoadOf(t), Horizon(cfg, w0, EventsOf(front)));
      var n := SoftLoadStarts(Enter(v, t.session), t.batch.frame, t.batch.choice, Asked(cfg, w0, depth, front), later);
    }
  }

  /** As far as frames go, everything is harmless. */
  lemma {:induction false} ScriptHarmlessBeyond(w: World, cs: seq<Command>, later: int)
    requires Live(w) && later > I32_MAX
    ensures HarmlessScript(w, later, cs)
  {
    if cs != [] {
      ScriptHarmlessBeyond(w, cs[..|cs| - 1], later);
      ExecuteAllKeepsLive(w, cs[..|cs| - 1]);
    }
  }

  lemma HarmlessBeyond(cfg: Config, w0: World, es: seq<Event>, v: World, ev: Event, later: int)
    requires Next(cfg, w0, es, v, ev) && later > I32_MAX
    ensures HarmlessAt(cfg, v, later, ev)
  {
    Known(cfg, w0, es, v, ev);
    var w := Enter(v, ev.session);
    if ev.request.Advance? && CanAdvance(cfg, w) {
      BeforeLogicIsLive(cfg, w);
      ScriptHarmlessBeyond(BeforeLogic(cfg, w), cfg.logic(ViewOf(BeforeLogic(cfg, w)), ev.request.input), later);
    }
  }

  lemma {:induction false} RestHarmlessBeyond(cfg: Config, w0: World, es: seq<Event>, rest: seq<Event>, later: int)
    requires Conforming(cfg, w0, es + rest) && later > I32_MAX
    ensures HarmlessOn(cfg, w0, es, rest, later)
  {
    if rest != [] {
      var front, v, ev := LastStep(cfg, w0, es, rest);
      RestHarmlessBeyond(cfg, w0, es, front, later);
      HarmlessBeyond(cfg, w0, es + front, v, ev, later);
    }
  }

  /** Harmful or not, the marks of a batch cannot spoil the load right after it. */
  lemma OneMoreLoad(cfg: Config, w0: World, depth: nat, ts: seq<Turn>) returns (later: int)
    requires Legal(cfg, w0, depth, ts) && ts != [] && SoftLogic(cfg)
    requires var front := ts[..|ts| - 1];
             && RunFrom(cfg, w0, EventsOf(front)).Running?
             && SoftInvariant(RunFrom(cfg, w0, EventsOf(front)).world, Asked(cfg, w0, depth, front),
                              AskedLater(cfg, w0, depth, front))
    ensures RunFrom(cfg, w0, EventsOf(ts)).Running?
    ensures SoftInvariant(RunFrom(cfg, w0, EventsOf(ts)).world, Asked(cfg, w0, depth, ts), later)
  {
    var t := ts[|ts| - 1];
    var es := EventsOf(ts[..|ts| - 1]) + [FirstOf(t)];
    later := Max(I32_MAX + 1, Asked(cfg, w0, depth, ts));
    LastEvents(ts);
    LegalAt(cfg, w0, depth, ts);
    RestIsOnward(t);
    LastStartsSoft(cfg, w0, depth, ts, later);
    RestHarmlessBeyond(cfg, w0, es, RestOf(t), later);
    RestSoft(cfg, w0, es, RestOf(t), Asked(cfg, w0, depth, ts), later);
  }

  lemma Shortened(ts: seq<Turn>, t1: Turn, t2: Turn)
    ensures (ts + [t1])[..|ts + [t1]| - 1] == ts
    ensures (ts + [t1] + [t2])[..|ts + [t1] + [t2]| - 1] == ts + [t1]
  {
  }

  /** After a harmless stream, the loads of the next two batches respawn nobody, whatever these batches mark. */
  lemma TwoMoreLoads(cfg: Config, w0: World, depth: nat, ts: seq<Turn>, t1: Turn, t2: Turn)
    requires SoftLogic(cfg) && Native(w0.pop) && Legal(cfg, w0, depth, ts) && HarmlessStream(cfg, w0, depth, ts)
    requires Continues(cfg, w0, depth, ts, t1, t2)
    ensures RespawnsNobody(t1) && RespawnsNobody(t2)
  {
    Shortened(ts, t1, t2);
    StreamSoft(cfg, w0, depth, ts);
    NextLoadFinds(cfg, w0, depth, ts + [t1], AskedLater(cfg, w0, depth, ts));
    var later := OneMoreLoad(cfg, w0, depth, ts + [t1]);
    NextLoadFinds(cfg, w0, depth, ts + [t1] + [t2], later);
  }

  /** After a harmful batch there are two batches that lose somebody. */
  lemma TwoBatchesLose(cfg: Config, w0: World, depth: nat, ts: seq<Turn>) returns (t1: Turn, t2: Turn)
    requires Legal(cfg, w0, depth, ts) && |ts| + 1 < I32_MAX && RunFrom(cfg, w0, EventsOf(ts)).Running?
    requires Losing(RunFrom(cfg, w0, EventsOf(ts)).world, AskedLater(cfg, w0, depth, ts))
    ensures Continues(cfg, w0, depth, ts, t1, t2) && !RespawnsNobody(t2)
  {
    var d, newer, older :| Doomed(RunFrom(cfg, w0, EventsOf(ts)).world, d, newer, older)
                           && older.frame >= AskedLater(cfg, w0, depth, ts);
    StoredIsPast(cfg, w0, depth, ts, newer);
    t1, t2 := DoomedCanBeLost(cfg, w0, depth, ts, d, newer, older, P2P(depth, 0),
                              seq(|ts| - newer.frame + 1, _ => []), seq(|ts| - older.frame + 2, _ => []));
    DoomedIsLost(cfg, w0, depth, ts, t1, t2, d, newer, older);
  }

  /**
   The guard is exact for the batches of a session. Over a legal stream of softly despawning logic that
   was harmless up to its last batch, that batch is harmless if and only if no two legal batches after
   it respawn anybody. What it takes to be harmless can be told when the batch has been played: whoever
   it hid again is known to no snapshot from the first frame on that the batch after the next may ask for.
   */
  lemma StreamGuardIsExact(cfg: Config, w0: World, depth: nat, ts: seq<Turn>)
    requires SoftLogic(cfg) && Native(w0.pop) && Legal(cfg, w0, depth, ts) && 0 < |ts| < I32_MAX - 1
    requires HarmlessStream(cfg, w0, depth, ts[..|ts| - 1])
    ensures HarmlessLast(cfg, w0, depth, ts) <==> forall t1, t2 ::
        Continues(cfg, w0, depth, ts, t1, t2) ==> RespawnsNobody(t1) && RespawnsNobody(t2)
  {
    if HarmlessLast(cfg, w0, depth, ts) {
      forall t1, t2 | Continues(cfg, w0, depth, ts, t1, t2) ensures RespawnsNobody(t1) && RespawnsNobody(t2) {
        TwoMoreLoads(cfg, w0, depth, ts, t1, t2);
      }
    } else {
      HarmfulLastLoses(cfg, w0, depth, ts);
      var t1, t2 := TwoBatchesLose(cfg, w0, depth, ts);
    }
  }
}
