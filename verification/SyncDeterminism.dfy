/** Every replay of a frame in a sync test gets the same inputs, and reproduces its game state. */
module SyncDeterminism {
  import opened Prelude
  import opened WorldModel
  import opened Simulation
  import opened Runs
  import opened Transparency
  import opened Sessions
  import opened SyncTesting

  // ---- Replays get the same inputs ---------------------------------------------------------------

  /** Every advance in the run got the input that belongs to its frame. */
  predicate Plays(es: seq<Event>, inputs: int -> Input) {
    if es == [] then true
    else
      var front, request := es[..|es| - 1], es[|es| - 1].request;
      && Plays(front, inputs)
      && (request.Advance? ==> request.input == inputs(|LatestInputs(front)|))
      && (request.Load? ==> 0 <= request.frame <= |LatestInputs(front)|)
  }

  lemma {:induction false} PlaysInputs(es: seq<Event>, inputs: int -> Input)
    requires Plays(es, inputs)
    ensures forall i :: 0 <= i < |LatestInputs(es)| ==> LatestInputs(es)[i] == inputs(i)
  {
    if es != [] {
      PlaysInputs(es[..|es| - 1], inputs);
    }
  }

  lemma {:induction false} PlaysPrefix(es: seq<Event>, n: nat, inputs: int -> Input)
    requires Plays(es, inputs) && n <= |es|
    ensures Plays(es[..n], inputs)
  {
    if n < |es| {
      assert es[..|es| - 1][..n] == es[..n];
      PlaysPrefix(es[..|es| - 1], n, inputs);
    } else {
      assert es[..n] == es;
    }
  }

  lemma PlaysOne(es: seq<Event>, ev: Event, inputs: int -> Input)
    requires Plays(es, inputs)
    requires ev.request.Advance? ==> ev.request.input == inputs(|LatestInputs(es)|)
    requires ev.request.Load? ==> 0 <= ev.request.frame <= |LatestInputs(es)|
    ensures Plays(es + [ev], inputs)
    ensures LatestInputs(es + [ev]) == InputsAfter(LatestInputs(es), ev.request)
  {
    assert (es + [ev])[..|es + [ev]| - 1] == es;
  }

  lemma PlaysSaveAdvance(es: seq<Event>, s: Session, inputs: int -> Input)
    requires Plays(es, inputs)
    ensures var next := AdvanceEvent(s, inputs(|LatestInputs(es)|));
            Plays(es + [SaveEvent(s)] + [next], inputs)
                && |LatestInputs(es + [SaveEvent(s)] + [next])| == |LatestInputs(es)| + 1
  {
    PlaysOne(es, SaveEvent(s), inputs);
    PlaysOne(es + [SaveEvent(s)], AdvanceEvent(s, inputs(|LatestInputs(es)|)), inputs);
  }

  lemma ResimulateLast(s: Session, from: int, n: nat, inputs: int -> Input)
    requires n >= 2
    ensures Resimulate(s, Stretch(inputs, from, n)) ==
            Resimulate(s, Stretch(inputs, from, n - 1)) + [SaveEvent(s)] + [AdvanceEvent(s, inputs(from + n - 1))]
  {
    assert Stretch(inputs, from, n)[..n - 1] == Stretch(inputs, from, n - 1);
  }

  lemma {:induction false} PlaysResimulation(es: seq<Event>, s: Session, from: int, n: nat, inputs: int -> Input)
    requires Plays(es, inputs) && |LatestInputs(es)| == from && n >= 1
    ensures Plays(es + Resimulate(s, Stretch(inputs, from, n)), inputs)
    ensures |LatestInputs(es + Resimulate(s, Stretch(inputs, from, n)))| == from + n
  {
    if n == 1 {
      PlaysOne(es, AdvanceEvent(s, inputs(from)), inputs);
      assert Resimulate(s, Stretch(inputs, from, 1)) == [AdvanceEvent(s, inputs(from))];
    } else {
      PlaysResimulation(es, s, from, n - 1, inputs);
      var replayed := Resimulate(s, Stretch(inputs, from, n - 1));
      PlaysSaveAdvance(es + replayed, s, inputs);
      ResimulateLast(s, from, n, inputs);
      Regroup(es, replayed, SaveEvent(s), AdvanceEvent(s, inputs(from + n - 1)));
    }
  }

  lemma PlaysTurn(es: seq<Event>, depth: nat, distance: nat, inputs: int -> Input, frame: nat, c: Choice)
    requires Plays(es, inputs) && |LatestInputs(es)| == frame
    ensures var t := SyncTurn(depth, distance, inputs, frame, c);
            Plays(es + Expand(t.session, t.batch), inputs)
                && |LatestInputs(es + Expand(t.session, t.batch))| == frame + 1
  {
    var t := SyncTurn(depth, distance, inputs, frame, c);
    var s := t.session;
    if frame > distance {
      var load := Event(s, Load(frame - distance), c);
      PlaysOne(es, load, inputs);
      PlaysResimulation(es + [load], s, frame - distance, distance + 1, inputs);
      Prepend(es, load, Resimulate(s, Stretch(inputs, frame - distance, distance + 1)));
    } else {
      PlaysOne(es, SaveEvent(s), inputs);
      PlaysOne(es + [SaveEvent(s)], AdvanceEvent(s, inputs(frame)), inputs);
      assert es + Expand(s, t.batch) == es + [SaveEvent(s)] + [AdvanceEvent(s, inputs(frame))];
    }
  }

  lemma {:induction false} SyncTestPlays(cfg: Config, w0: World, depth: nat, distance: nat, inputs: int -> Input,
                                         ts: seq<Turn>)
    requires SyncTestStream(cfg, w0, depth, distance, inputs, ts)
    ensures Plays(EventsOf(ts), inputs) && |LatestInputs(EventsOf(ts))| == |ts|
  {
    if ts != [] {
      var front, t := ts[..|ts| - 1], ts[|ts| - 1];
      SyncTestPlays(cfg, w0, depth, distance, inputs, front);
      PlaysTurn(EventsOf(front), depth, distance, inputs, |front|,
                if t.batch.Replay? then t.batch.choice else NO_CHOICE);
    }
  }

  // ---- Replays reproduce states ------------------------------------------------------------------

  /** At any point of a run that plays fixed inputs, the game state is a function of the frame alone. */
  lemma StateIsFunctionOfFrame(cfg: Config, w0: World, es: seq<Event>, inputs: int -> Input)
    requires cfg.Valid() && Conforming(cfg, w0, es) && Restoring(cfg, w0, es) && Plays(es, inputs)
    ensures RunFrom(cfg, w0, es).Running? && RunFrom(cfg, w0, es).world.frame >= 0
    ensures var w := RunFrom(cfg, w0, es).world;
            ViewOf(w) == Simulate(cfg, ViewOf(w0), Stretch(inputs, 0, w.frame))
  {
    RollbackTransparency(cfg, w0, es);
    PlaysInputs(es, inputs);
    var w := RunFrom(cfg, w0, es).world;
    assert LatestInputs(es) == Stretch(inputs, 0, w.frame);
  }

  /**
   In a sync test of deterministic game logic any two moments of the run that are at the same frame,
   before or after any number of rollbacks, show the same game state.
   */
  lemma ReplaysReproduceStates(cfg: Config, w0: World, depth: nat, distance: nat, inputs: int -> Input, ts: seq<Turn>,
                               m: nat, n: nat)
    requires cfg.Valid() && Restoring(cfg, w0, EventsOf(ts))
    requires 1 <= distance <= depth && |ts| <= I32_MAX
    requires SyncTestStream(cfg, w0, depth, distance, inputs, ts)
    requires m <= |EventsOf(ts)| && n <= |EventsOf(ts)|
    ensures RunFrom(cfg, w0, EventsOf(ts)[..m]).Running? && RunFrom(cfg, w0, EventsOf(ts)[..n]).Running?
    ensures var v, w := RunFrom(cfg, w0, EventsOf(ts)[..m]).world, RunFrom(cfg, w0, EventsOf(ts)[..n]).world;
            v.frame == w.frame ==> ViewOf(v) == ViewOf(w)
  {
    var es := EventsOf(ts);
    SyncTestIsLegal(cfg, w0, depth, distance, inputs, ts);
    SyncTestPlays(cfg, w0, depth, distance, inputs, ts);
    ConformingPrefix(cfg, w0, es, es[..m]);
    ConformingPrefix(cfg, w0, es, es[..n]);
    RestoringPrefix(cfg, w0, es, es[..m]);
    RestoringPrefix(cfg, w0, es, es[..n]);
    PlaysPrefix(es, m, inputs);
    PlaysPrefix(es, n, inputs);
    StateIsFunctionOfFrame(cfg, w0, es[..m], inputs);
    StateIsFunctionOfFrame(cfg, w0, es[..n], inputs);
  }
}
