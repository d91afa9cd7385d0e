/** Driving the engine with the batches a session emits. */
module Driver {
  import opened WorldModel
  import opened Soundness
  import opened Runs
  import opened Sessions
  import opened Checksums
  import Engine

  /** The requests of a batch, in order. */
  function RequestsOf(s: Session, b: Batch): (requests: seq<Request>)
    ensures |requests| == |Expand(s, b)|
    ensures forall i :: 0 <= i < |requests| ==> requests[i] == Expand(s, b)[i].request
  {
    seq(|Expand(s, b)|, i requires 0 <= i < |Expand(s, b)| => Expand(s, b)[i].request)
  }

  /** The same batch with the handles that were actually given out. */
  function Given(b: Batch, c: Choice): Batch {
    if b.Replay? then b.(choice := c) else b
  }

  /** Equal but for the handles. */
  predicate SameBatch(b: Batch, g: Batch) {
    match (b, g)
    case (Plain(i), Plain(j)) => i == j
    case (Replay(r, i, _), Replay(q, j, _)) => r == q && i == j
    case _ => false
  }

  lemma {:induction false} AnswersAt(s: Session, requests: seq<Request>, es: seq<Event>)
    requires Engine.Answers(s, requests, es)
    ensures |es| <= |requests|
    ensures forall i :: 0 <= i < |es| ==> Engine.Answer(s, requests[i], es[i])
  {
    if es != [] {
      AnswersAt(s, requests, es[..|es| - 1]);
    }
  }

  /** What the interpreter served is the batch itself, cut off where it stopped. */
  lemma ServedIsExpansion(s: Session, b: Batch, es: seq<Event>)
    requires Engine.Answers(s, RequestsOf(s, b), es) && es != []
    ensures |es| <= |Expand(s, Given(b, es[0].choice))| == |RequestsOf(s, b)|
    ensures es == Expand(s, Given(b, es[0].choice))[..|es|]
  {
    var g := Given(b, es[0].choice);
    AnswersAt(s, RequestsOf(s, b), es);
    ExpandShape(s, b);
    ExpandShape(s, g);
    assert Expand(s, g)[1..] == Expand(s, b)[1..];
    forall i | 0 <= i < |es| ensures es[i] == Expand(s, g)[i] {
      assert i > 0 ==> Expand(s, g)[i] == Expand(s, g)[1..][i - 1] == Expand(s, b)[1..][i - 1] == Expand(s, b)[i];
    }
  }

  lemma {:induction false} FirstIsGenuine(cfg: Config, w: World, es: seq<Event>)
    requires Genuine(cfg, w, es) && es != []
    ensures es[0].request.Load? ==> FreshHandles(w, es[0].session, es[0].request.frame, es[0].choice)
  {
    if |es| > 1 {
      FirstIsGenuine(cfg, w, es[..|es| - 1]);
    } else {
      assert es[..0] == [];
    }
  }

  lemma PartOfConcat<T>(a: seq<T>, b: seq<T>, n: nat)
    requires n <= |b|
    ensures a + b[..n] <= a + b
  {
  }

  lemma NoPanic(cfg: Config, w0: World, es: seq<Event>)
    requires Conforming(cfg, w0, es)
    ensures RunFrom(cfg, w0, es).Running?
  {
    RunNeverPanics(cfg, w0, es);
  }

  /** No part of a conforming run's continuation panics. */
  lemma ContinuationIsServed(cfg: Config, w0: World, es: seq<Event>, w: World, more: seq<Event>, n: nat)
    requires Conforming(cfg, w0, es + more) && RunFrom(cfg, w0, es) == Running(w) && n <= |more|
    ensures RunFrom(cfg, w, more[..n]).Running?
  {
    PartOfConcat(es, more, n);
    ConformingPrefix(cfg, w0, es + more, es + more[..n]);
    NoPanic(cfg, w0, es + more[..n]);
    RunOn(cfg, w0, es, w, more[..n]);
  }

  /** No part of the next batch of a legal stream panics. */
  lemma NextBatchIsServed(cfg: Config, w0: World, depth: nat, ts: seq<Turn>, t: Turn, w: World, n: nat)
    requires Legal(cfg, w0, depth, ts + [t]) && EventsOf(ts + [t]) == EventsOf(ts) + Expand(t.session, t.batch)
    requires RunFrom(cfg, w0, EventsOf(ts)) == Running(w) && n <= |Expand(t.session, t.batch)|
    ensures RunFrom(cfg, w, Expand(t.session, t.batch)[..n]).Running?
    ensures RunFrom(cfg, w0, EventsOf(ts + [t])) == RunFrom(cfg, w, Expand(t.session, t.batch))
  {
    var cap := LegalStreamsConform(cfg, w0, depth, ts + [t]);
    ContinuationIsServed(cfg, w0, EventsOf(ts), w, Expand(t.session, t.batch), n);
    RunOn(cfg, w0, EventsOf(ts), w, Expand(t.session, t.batch));
  }

  lemma LegalIsSound(cfg: Config, w0: World, depth: nat, ts: seq<Turn>)
    requires Legal(cfg, w0, depth, ts)
    ensures RunFrom(cfg, w0, EventsOf(ts)).Running? && Sound(RunFrom(cfg, w0, EventsOf(ts)).world)
  {
    var cap := LegalStreamsConform(cfg, w0, depth, ts);
    RunNeverPanics(cfg, w0, EventsOf(ts));
  }

  /** The turn that was played: the batch, with the handles that were given out. */
  lemma PlayedTurn(cfg: Config, w: World, t: Turn, served: seq<Event>) returns (played: Turn)
    requires Engine.Answers(t.session, RequestsOf(t.session, t.batch), served) && served != []
    requires Genuine(cfg, w, served)
    ensures played == Turn(t.session, Given(t.batch, served[0].choice)) && SameBatch(t.batch, played.batch)
    ensures |served| <= |Expand(played.session, played.batch)| == |RequestsOf(t.session, t.batch)|
    ensures served == Expand(played.session, played.batch)[..|served|]
    ensures played.batch.Replay? ==> FreshHandles(w, played.session, played.batch.frame, played.batch.choice)
  {
    played := Turn(t.session, Given(t.batch, served[0].choice));
    ServedIsExpansion(t.session, t.batch, served);
    ExpandShape(played.session, played.batch);
    FirstIsGenuine(cfg, w, served);
  }

  lemma GivenInRange(w: World, depth: nat, settled: int, t: Turn, c: Choice)
    requires InRange(w, depth, settled, t)
    ensures InRange(w, depth, settled, Turn(t.session, Given(t.batch, c)))
  {
  }

  lemma SomethingServed(cfg: Config, w: World, t: Turn, ok: bool, w': World, served: seq<Event>)
    requires Engine.Report(ok, w') == RunFrom(cfg, w, served)
    requires ok ==> |served| == |RequestsOf(t.session, t.batch)|
    ensures served != []
  {
    ExpandShape(t.session, t.batch);
  }

  lemma WholeOf<T>(part: seq<T>, whole: seq<T>)
    requires |part| == |whole| && part == whole[..|part|]
    ensures part == whole
  {
  }

  lemma BatchIsPlayed(cfg: Config, w0: World, depth: nat, ts: seq<Turn>, t: Turn, w: World, ok: bool, w': World,
                      served: seq<Event>)
    returns (played: Turn)
    requires Legal(cfg, w0, depth, ts) && RunFrom(cfg, w0, EventsOf(ts)) == Running(w)
    requires InRange(w, depth, Settled(cfg, w0, EventsOf(ts)), t)
    requires Engine.Answers(t.session, RequestsOf(t.session, t.batch), served)
    requires Engine.Report(ok, w') == RunFrom(cfg, w, served) && Genuine(cfg, w, served)
    requires ok ==> |served| == |RequestsOf(t.session, t.batch)|
    ensures ok && played.session == t.session && SameBatch(t.batch, played.batch)
    ensures EventsOf(ts + [played]) == EventsOf(ts) + served
    ensures Legal(cfg, w0, depth, ts + [played]) && RunFrom(cfg, w0, EventsOf(ts + [played])) == Running(w')
  {
    SomethingServed(cfg, w, t, ok, w', served);
    played := PlayedTurn(cfg, w, t, served);
    GivenInRange(w, depth, Settled(cfg, w0, EventsOf(ts)), t, served[0].choice);
    LegalNext(cfg, w0, depth, ts, played, w);
    NextBatchIsServed(cfg, w0, depth, ts, played, w, |served|);
    assert ok;
    WholeOf(served, Expand(played.session, played.batch));
  }

  /** One event later the reports of two runs still differ by the same beginning. */
  lemma ReportsStep<T(!new)>(h: Hashing<T>, cfg: Config, w0: World, es: seq<Event>, w: World, more: seq<Event>,
                             ev: Event)
    requires RunFrom(cfg, w0, es + more) == RunFrom(cfg, w, more)
    requires Reports(h, cfg, w0, es + more) == Reports(h, cfg, w0, es) + Reports(h, cfg, w, more)
    ensures Reports(h, cfg, w0, es + more + [ev]) == Reports(h, cfg, w0, es) + Reports(h, cfg, w, more + [ev])
  {
    ReportsAppended(h, cfg, w0, es + more, ev);
    ReportsAppended(h, cfg, w, more, ev);
  }

  lemma LastApart<T>(a: seq<T>, b: seq<T>)
    requires b != []
    ensures b == b[..|b| - 1] + [b[|b| - 1]]
    ensures a + b == a + b[..|b| - 1] + [b[|b| - 1]]
  {
  }

  /** What the saves of a batch report, appended to what was reported before. */
  lemma {:induction false} ReportsOn<T(!new)>(h: Hashing<T>, cfg: Config, w0: World, es: seq<Event>, w: World,
                                              more: seq<Event>)
    requires RunFrom(cfg, w0, es) == Running(w)
    ensures Reports(h, cfg, w0, es + more) == Reports(h, cfg, w0, es) + Reports(h, cfg, w, more)
  {
    if more == [] {
      assert es + more == es;
    } else {
      var front, last := more[..|more| - 1], more[|more| - 1];
      ReportsOn(h, cfg, w0, es, w, front);
      RunOn(cfg, w0, es, w, front);
      ReportsStep(h, cfg, w0, es, w, front, last);
      LastApart(es, more);
    }
  }

  lemma GenuineStep(cfg: Config, w0: World, es: seq<Event>, w: World, more: seq<Event>, ev: Event)
    requires RunFrom(cfg, w0, es + more) == RunFrom(cfg, w, more)
    requires Genuine(cfg, w0, es + more) && Genuine(cfg, w, more + [ev])
    ensures Genuine(cfg, w0, es + more + [ev])
  {
    assert (es + more + [ev])[..|es + more + [ev]| - 1] == es + more;
    assert (more + [ev])[..|more + [ev]| - 1] == more;
  }

  lemma {:induction false} GenuineOn(cfg: Config, w0: World, es: seq<Event>, w: World, more: seq<Event>)
    requires Genuine(cfg, w0, es) && RunFrom(cfg, w0, es) == Running(w) && Genuine(cfg, w, more)
    ensures Genuine(cfg, w0, es + more)
  {
    if more == [] {
      assert es + more == es;
    } else {
      var front, last := more[..|more| - 1], more[|more| - 1];
      GenuineOn(cfg, w0, es, w, front);
      RunOn(cfg, w0, es, w, front);
      LastApart(es, more);
      GenuineStep(cfg, w0, es, w, front, last);
    }
  }

  /**
   Plays the next batch. Whenever the batch is in range, the interpreter serves all of it, the
   engine is where the model's legal stream is, one batch further, and its saves have reported what
   the model's saves report.
   */
  method PlayTurn<T(!new)>(engine: Engine.World, t: Turn, h: Hashing<T>, ghost w0: World, ghost depth: nat,
                           ghost ts: seq<Turn>)
    returns (cells: seq<Cell<T>>, ghost played: Turn)
    requires engine.Valid() && Legal(engine.cfg, w0, depth, ts) && h.mixer.Lawful()
    requires RunFrom(engine.cfg, w0, EventsOf(ts)) == Running(engine.State())
    requires InRange(engine.State(), depth, Settled(engine.cfg, w0, EventsOf(ts)), t)
    modifies engine, engine.entities, engine.values, engine.likes, engine.parents
    modifies engine.resources, engine.favourites, engine.orders, engine.clocks
    ensures engine.Valid()
    ensures played.session == t.session && SameBatch(t.batch, played.batch)
    ensures Legal(engine.cfg, w0, depth, ts + [played])
    ensures RunFrom(engine.cfg, w0, EventsOf(ts + [played])) == Running(engine.State())
    ensures Reports(h, engine.cfg, w0, EventsOf(ts + [played])) == Reports(h, engine.cfg, w0, EventsOf(ts)) + cells
  {
    ghost var w := engine.State();
    LegalIsSound(engine.cfg, w0, depth, ts);
    var requests := RequestsOf(t.session, t.batch);
    ghost var served;
    var ok;
    ok, cells, served := engine.HandleRequests(t.session, requests, h);
    played := BatchIsPlayed(engine.cfg, w0, depth, ts, t, w, ok, engine.State(), served);
    ReportsOn(h, engine.cfg, w0, EventsOf(ts), w, served);
  }
}
