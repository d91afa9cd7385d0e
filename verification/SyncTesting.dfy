/** Sync-test sessions: every frame rolls back by the check distance and replays, and never misses a snapshot. */
module SyncTesting {
  import opened Prelude
  import opened SnapshotQueue
  import opened WorldModel
  import opened Soundness
  import opened Runs
  import opened Sessions

  /** The inputs of frames `from .. from + n`. */
  function Stretch(inputs: int -> Input, from: int, n: nat): (s: seq<Input>)
    ensures |s| == n
    ensures forall i :: 0 <= i < n ==> s[i] == inputs(from + i)
  {
    seq(n, i => inputs(from + i))
  }

  /** What a sync-test session emits at frame `frame`. */
  function SyncTurn(depth: nat, distance: nat, inputs: int -> Input, frame: nat, c: Choice): Turn {
    Turn(SyncTest(depth, distance),
         if frame > distance then Replay(frame - distance, Stretch(inputs, frame - distance, distance + 1), c)
         else Plain(inputs(frame)))
  }

  /** A sync-test run, one turn per frame, with any fresh handles. */
  ghost predicate SyncTestStream(cfg: Config, w0: World, depth: nat, distance: nat, inputs: int -> Input,
                                 ts: seq<Turn>)
  {
    if ts == [] then
      Start(w0) && cfg.rate >= 1 && w0.confirmed <= 0
    else
      var front, t := ts[..|ts| - 1], ts[|ts| - 1];
      && SyncTestStream(cfg, w0, depth, distance, inputs, front)
      && t == SyncTurn(depth, distance, inputs, |front|, if t.batch.Replay? then t.batch.choice else NO_CHOICE)
      && (t.batch.Replay? && RunFrom(cfg, w0, EventsOf(front)).Running? ==>
            FreshHandles(RunFrom(cfg, w0, EventsOf(front)).world, t.session, t.batch.frame, t.batch.choice))
  }

  /** The highest frame a sync-test session has confirmed by the end of frame `frame - 1`. */
  function SyncCap(distance: nat, frame: int): int {
    Max(0, frame - 1 - distance)
  }

  lemma SyncTurnOk(cfg: Config, w0: World, es: seq<Event>, t: Turn, depth: nat, distance: nat, inputs: int -> Input,
                   frame: nat)
    requires 1 <= distance <= depth && frame < I32_MAX
    requires At(cfg, w0, es, frame, false, frame - depth, SyncCap(distance, frame))
    requires t == SyncTurn(depth, distance, inputs, frame, if t.batch.Replay? then t.batch.choice else NO_CHOICE)
    requires t.batch.Replay? ==> FreshHandles(RunFrom(cfg, w0, es).world, t.session, t.batch.frame, t.batch.choice)
    ensures TurnOk(RunFrom(cfg, w0, es).world, depth, Settled(cfg, w0, es), t)
    ensures Capped(t.session, frame, SyncCap(distance, frame + 1))
  {
  }

  lemma SyncTurnServed(cfg: Config, w0: World, es: seq<Event>, t: Turn, depth: nat, distance: nat,
                       inputs: int -> Input, frame: nat)
    requires 1 <= distance <= depth && frame < I32_MAX
    requires At(cfg, w0, es, frame, false, frame - depth, SyncCap(distance, frame))
    requires t == SyncTurn(depth, distance, inputs, frame, if t.batch.Replay? then t.batch.choice else NO_CHOICE)
    requires t.batch.Replay? ==> FreshHandles(RunFrom(cfg, w0, es).world, t.session, t.batch.frame, t.batch.choice)
    ensures TurnOk(RunFrom(cfg, w0, es).world, depth, Settled(cfg, w0, es), t)
    ensures At(cfg, w0, es + Expand(t.session, t.batch), frame + 1, false, frame + 1 - depth,
               SyncCap(distance, frame + 1))
  {
    SyncTurnOk(cfg, w0, es, t, depth, distance, inputs, frame);
    RaiseCap(cfg, w0, es, frame, false, frame - depth, SyncCap(distance, frame), SyncCap(distance, frame + 1));
    AppendTurn(cfg, w0, es, t, frame, depth, SyncCap(distance, frame + 1));
  }

  lemma SyncStreamTurn(cfg: Config, w0: World, depth: nat, distance: nat, inputs: int -> Input, ts: seq<Turn>)
    requires SyncTestStream(cfg, w0, depth, distance, inputs, ts) && ts != []
    ensures var front, t := ts[..|ts| - 1], ts[|ts| - 1];
            && t == SyncTurn(depth, distance, inputs, |front|, if t.batch.Replay? then t.batch.choice else NO_CHOICE)
            && (t.batch.Replay? && RunFrom(cfg, w0, EventsOf(front)).Running? ==>
                  FreshHandles(RunFrom(cfg, w0, EventsOf(front)).world, t.session, t.batch.frame, t.batch.choice))
  {
  }

  lemma LegalTurn(cfg: Config, w0: World, depth: nat, ts: seq<Turn>, es: seq<Event>)
    requires ts != [] && Legal(cfg, w0, depth, ts[..|ts| - 1]) && es == EventsOf(ts[..|ts| - 1])
    requires RunFrom(cfg, w0, es).Running?
    requires TurnOk(RunFrom(cfg, w0, es).world, depth, Settled(cfg, w0, es), ts[|ts| - 1])
    ensures Legal(cfg, w0, depth, ts)
    ensures EventsOf(ts) == es + Expand(ts[|ts| - 1].session, ts[|ts| - 1].batch)
  {
  }

  lemma {:induction false} SyncTestIsLegal(cfg: Config, w0: World, depth: nat, distance: nat, inputs: int -> Input,
                                           ts: seq<Turn>)
    requires 1 <= distance <= depth && |ts| <= I32_MAX
    requires SyncTestStream(cfg, w0, depth, distance, inputs, ts)
    ensures Legal(cfg, w0, depth, ts)
    ensures At(cfg, w0, EventsOf(ts), |ts|, false, |ts| - depth, SyncCap(distance, |ts|))
  {
    if ts != [] {
      var front, t := ts[..|ts| - 1], ts[|ts| - 1];
      SyncTestIsLegal(cfg, w0, depth, distance, inputs, front);
      SyncStreamTurn(cfg, w0, depth, distance, inputs, ts);
      SyncTurnServed(cfg, w0, EventsOf(front), t, depth, distance, inputs, |front|);
      LegalTurn(cfg, w0, depth, ts, EventsOf(front));
    }
  }

  /** The frame a sync test goes back to may still be asked for. */
  lemma SyncReach(depth: nat, distance: nat, frame: nat)
    requires 1 <= distance <= depth
    ensures frame > distance ==> Max(0, Max(SyncCap(distance, frame), frame - depth)) <= frame - distance < frame
  {
  }

  /** The world after a sync test, and the horizon there. */
  lemma SyncTestWorld(cfg: Config, w0: World, depth: nat, distance: nat, inputs: int -> Input, ts: seq<Turn>)
    returns (w: World, horizon: int)
    requires 1 <= distance <= depth && |ts| <= I32_MAX
    requires SyncTestStream(cfg, w0, depth, distance, inputs, ts)
    ensures RunFrom(cfg, w0, EventsOf(ts)) == Running(w) && w.frame == |ts|
    ensures horizon <= Max(0, Max(SyncCap(distance, |ts|), |ts| - depth))
    ensures Chronological(w.history, w.frame) && Contiguous(w.history, w.frame) && Retained(w, horizon)
  {
    SyncTestIsLegal(cfg, w0, depth, distance, inputs, ts);
    w, horizon := WorldAt(cfg, w0, EventsOf(ts), |ts|, |ts| - depth, SyncCap(distance, |ts|));
  }

  /**
   Sync-test runs of any length never miss a snapshot when the check distance is between 1 and
   the prediction window, although the confirmed frame falls and rises again inside each batch.
   */
  lemma SyncTestNeverMisses(cfg: Config, w0: World, depth: nat, distance: nat, inputs: int -> Input, ts: seq<Turn>)
    returns (w: World, r: int)
    requires 1 <= distance <= depth && |ts| <= I32_MAX
    requires SyncTestStream(cfg, w0, depth, distance, inputs, ts)
    ensures RunFrom(cfg, w0, EventsOf(ts)) == Running(w) && w.frame == |ts| && r == w.frame - distance
    ensures r > 0 ==> RolledBack(w.history, r) != []
  {
    var horizon;
    w, horizon := SyncTestWorld(cfg, w0, depth, distance, inputs, ts);
    r := w.frame - distance;
    SyncReach(depth, distance, |ts|);
    StoredAbove(w, horizon, r);
  }

  /** The world that a run has led to, and its horizon. */
  lemma WorldAt(cfg: Config, w0: World, es: seq<Event>, frame: int, floor: int, cap: int)
    returns (w: World, horizon: int)
    requires At(cfg, w0, es, frame, false, floor, cap)
    ensures RunFrom(cfg, w0, es) == Running(w) && w.frame == frame && horizon <= Max(0, Max(cap, floor))
    ensures Chronological(w.history, w.frame) && Contiguous(w.history, w.frame) && Retained(w, horizon)
  {
    RunNeverPanics(cfg, w0, es);
    w, horizon := RunFrom(cfg, w0, es).world, Horizon(cfg, w0, es);
  }

  lemma StoredAbove(w: World, horizon: int, r: int)
    requires Chronological(w.history, w.frame) && Contiguous(w.history, w.frame) && Retained(w, horizon)
    ensures horizon <= r < w.frame ==> RolledBack(w.history, r) != []
  {
    if horizon <= r < w.frame {
      PermittedLoadIsStored(w, horizon, r);
    }
  }
}
