/** Rollback transparency for the batches a session emits. */
module Streams {
  import opened WorldModel
  import opened Simulation
  import opened Transparency
  import opened Sessions

  /** The inputs a stream of batches has settled on: a replay corrects everything from its frame on. */
  function Corrected(ts: seq<Turn>): seq<Input> {
    if ts == [] then []
    else
      var before := Corrected(ts[..|ts| - 1]);
      match ts[|ts| - 1].batch
      case Plain(i) => before + [i]
      case Replay(r, inputs, _) => (if 0 <= r <= |before| then before[..r] else before) + inputs
  }

  lemma OneMoreInput(es: seq<Event>, ev: Event)
    ensures LatestInputs(es + [ev]) == InputsAfter(LatestInputs(es), ev.request)
  {
    assert (es + [ev])[..|es + [ev]| - 1] == es;
  }

  lemma SaveThenAdvance(es: seq<Event>, s: Session, i: Input)
    ensures LatestInputs(es + [SaveEvent(s)] + [AdvanceEvent(s, i)]) == LatestInputs(es) + [i]
  {
    OneMoreInput(es, SaveEvent(s));
    OneMoreInput(es + [SaveEvent(s)], AdvanceEvent(s, i));
  }

  lemma Rejoin<T>(a: seq<T>, b: seq<T>)
    requires b != []
    ensures a + b[..|b| - 1] + [b[|b| - 1]] == a + b
  {
  }

  lemma {:induction false} ResimulatedInputs(es: seq<Event>, s: Session, inputs: seq<Input>)
    ensures LatestInputs(es + Resimulate(s, inputs)) == LatestInputs(es) + inputs
  {
    if |inputs| == 0 {
      assert es + Resimulate(s, inputs) == es;
    } else if |inputs| == 1 {
      OneMoreInput(es, AdvanceEvent(s, inputs[0]));
    } else {
      var front, last := inputs[..|inputs| - 1], inputs[|inputs| - 1];
      ResimulatedInputs(es, s, front);
      Regroup(es, Resimulate(s, front), SaveEvent(s), AdvanceEvent(s, last));
      SaveThenAdvance(es + Resimulate(s, front), s, last);
      Rejoin(LatestInputs(es), inputs);
    }
  }

  lemma {:induction false} StreamInputs(ts: seq<Turn>)
    ensures LatestInputs(EventsOf(ts)) == Corrected(ts)
  {
    if ts != [] {
      var front, t := ts[..|ts| - 1], ts[|ts| - 1];
      var es := EventsOf(front);
      StreamInputs(front);
      match t.batch {
        case Plain(i) =>
          SaveThenAdvance(es, t.session, i);
          assert es + Expand(t.session, t.batch) == es + [SaveEvent(t.session)] + [AdvanceEvent(t.session, i)];
        case Replay(r, inputs, c) =>
          var load := Event(t.session, Load(r), c);
          OneMoreInput(es, load);
          ResimulatedInputs(es + [load], t.session, inputs);
          Prepend(es, load, Resimulate(t.session, inputs));
      }
    }
  }

  /**
   The promise of rollback netcode, for every legal stream of batches: after each of them the game
   state is what playing the corrected inputs straight through from the start would have given.
   */
  lemma LegalStreamsAreTransparent(cfg: Config, w0: World, depth: nat, ts: seq<Turn>)
    requires cfg.Valid() && Legal(cfg, w0, depth, ts) && Restoring(cfg, w0, EventsOf(ts))
    ensures RunFrom(cfg, w0, EventsOf(ts)).Running?
    ensures |Corrected(ts)| == |ts|
    ensures ViewOf(RunFrom(cfg, w0, EventsOf(ts)).world) == Simulate(cfg, ViewOf(w0), Corrected(ts))
  {
    LegalStreamsAreServed(cfg, w0, depth, ts);
    RollbackTransparency(cfg, w0, EventsOf(ts));
    StreamInputs(ts);
  }
}
