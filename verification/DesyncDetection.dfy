/**
 What checksums are for. The last one reported for a past frame is the checksum of the straight
 simulation up to that frame, so peers that have settled on the same inputs report the same, and a
 sync test of deterministic logic never sees two checksums for one frame.
 */
module DesyncDetection {
  import opened Prelude
  import opened WorldModel
  import opened Simulation
  import opened Soundness
  import opened Runs
  import opened Transparency
  import opened Sessions
  import opened Streams
  import opened SyncTesting
  import opened SyncDeterminism
  import opened SoftDespawn
  import opened SoftStreams
  import opened LosslessGames
  import opened Mixing
  import opened Checksums

  // ---- The last report of a frame ----------------------------------------------------------------

  /** The checksum that was reported last for a frame. */
  function LatestReport<T(!new)>(cells: seq<Cell<T>>, frame: int): Option<Wide<T>> {
    if cells == [] then None
    else
      var last := cells[|cells| - 1];
      if last.frame == frame then Some(last.checksum) else LatestReport(cells[..|cells| - 1], frame)
  }

  /** For every frame that has been left behind, or has just been saved, the last report is right. */
  ghost predicate ReportsExact<T(!new)>(h: Hashing<T>, cfg: Config, v0: View, w: World, inputs: seq<Input>,
                                        cells: seq<Cell<T>>)
    requires cfg.rate >= 1
  {
    && |inputs| == w.frame
    && forall f :: 0 <= f <= w.frame && (f < w.frame || Saved(w)) ==> ReportExact(h, cfg, v0, f, inputs, cells)
  }

  ghost predicate ReportExact<T(!new)>(h: Hashing<T>, cfg: Config, v0: View, f: int, inputs: seq<Input>,
                                       cells: seq<Cell<T>>)
    requires cfg.rate >= 1 && 0 <= f <= |inputs|
  {
    LatestReport(cells, f) == Some(ChecksumOf(h, Simulate(cfg, v0, inputs[..f])))
  }

  lemma SaveReports<T(!new)>(h: Hashing<T>, cfg: Config, v0: View, v: World, w: World, inputs: seq<Input>,
                             cells: seq<Cell<T>>)
    requires cfg.rate >= 1 && ReportsExact(h, cfg, v0, v, inputs, cells)
    requires ViewOf(v) == Simulate(cfg, v0, inputs) && w.frame == v.frame
    ensures ReportsExact(h, cfg, v0, w, inputs, cells + CellsOf(h, v, Save))
  {
    var cell := CellsOf(h, v, Save);
    assert (cells + cell)[..|cells + cell| - 1] == cells;
    assert inputs[..v.frame] == inputs;
    forall f | 0 <= f <= w.frame ensures ReportExact(h, cfg, v0, f, inputs, cells + cell) {
      assert f < v.frame ==> ReportExact(h, cfg, v0, f, inputs, cells);
    }
  }

  lemma AdvanceReports<T(!new)>(h: Hashing<T>, cfg: Config, v0: View, v: World, w: World, inputs: seq<Input>,
                                i: Input, cells: seq<Cell<T>>)
    requires cfg.rate >= 1 && ReportsExact(h, cfg, v0, v, inputs, cells)
    requires Saved(v) && !Saved(w) && w.frame == v.frame + 1
    ensures ReportsExact(h, cfg, v0, w, inputs + [i], cells)
  {
    forall f | 0 <= f <= v.frame ensures ReportExact(h, cfg, v0, f, inputs + [i], cells) {
      assert (inputs + [i])[..f] == inputs[..f];
      assert ReportExact(h, cfg, v0, f, inputs, cells);
    }
  }

  lemma LoadReports<T(!new)>(h: Hashing<T>, cfg: Config, v0: View, v: World, w: World, inputs: seq<Input>, r: int,
                             cells: seq<Cell<T>>)
    requires cfg.rate >= 1 && ReportsExact(h, cfg, v0, v, inputs, cells)
    requires 0 <= r < v.frame && w.frame == r
    ensures ReportsExact(h, cfg, v0, w, inputs[..r], cells)
  {
    forall f | 0 <= f <= r ensures ReportExact(h, cfg, v0, f, inputs[..r], cells) {
      assert inputs[..r][..f] == inputs[..f];
      assert ReportExact(h, cfg, v0, f, inputs, cells);
    }
  }

  /** How the frame moves in a served request. */
  ghost predicate Moves(v: World, w: World, request: Request) {
    match request
    case Save => w.frame == v.frame
    case Advance(_) => Saved(v) && !Saved(w) && w.frame == v.frame + 1
    case Load(r) => 0 <= r < v.frame && w.frame == r
  }

  lemma FrameMoves(cfg: Config, v: World, ev: Event, horizon: int)
    requires RunInvariant(cfg, v, horizon) && Permitted(v, horizon, ev)
    ensures Step(cfg, v, ev).Running? && Moves(v, Step(cfg, v, ev).world, ev.request)
  {
    StepServes(cfg, v, ev, horizon);
    if ev.request.Advance? {
      AdvanceKeepsSound(cfg, Enter(v, ev.session), ev.request.input);
    }
  }

  lemma MoveReports<T(!new)>(h: Hashing<T>, cfg: Config, v0: View, v: World, w: World, request: Request,
                             inputs: seq<Input>, cells: seq<Cell<T>>)
    requires cfg.rate >= 1 && Moves(v, w, request)
    requires ReportsExact(h, cfg, v0, v, inputs, cells) && ViewOf(v) == Simulate(cfg, v0, inputs)
    ensures ReportsExact(h, cfg, v0, w, InputsAfter(inputs, request), cells + CellsOf(h, v, request))
  {
    assert cells + [] == cells;
    match request
    case Save => SaveReports(h, cfg, v0, v, w, inputs, cells);
    case Advance(i) => AdvanceReports(h, cfg, v0, v, w, inputs, i, cells);
    case Load(r) => LoadReports(h, cfg, v0, v, w, inputs, r, cells);
  }

  lemma {:induction false} RunsReportExactly<T(!new)>(h: Hashing<T>, cfg: Config, w0: World, es: seq<Event>)
    requires cfg.Valid() && Conforming(cfg, w0, es) && Restoring(cfg, w0, es)
    ensures RunFrom(cfg, w0, es).Running?
    ensures ReportsExact(h, cfg, ViewOf(w0), RunFrom(cfg, w0, es).world, LatestInputs(es), Reports(h, cfg, w0, es))
  {
    RunNeverPanics(cfg, w0, es);
    if es == [] {
      RollbackTransparency(cfg, w0, es);
    } else {
      var front := es[..|es| - 1];
      RunsReportExactly(h, cfg, w0, front);
      RunNeverPanics(cfg, w0, front);
      RollbackTransparency(cfg, w0, front);
      var v, ev := RunFrom(cfg, w0, front).world, es[|es| - 1];
      FrameMoves(cfg, v, ev, Horizon(cfg, w0, front));
      MoveReports(h, cfg, ViewOf(w0), v, Step(cfg, v, ev).world, ev.request, LatestInputs(front),
                  Reports(h, cfg, w0, front));
    }
  }

  /**
   After any transparent run, the last checksum that was reported for a past frame is that of the
   straight simulation of the latest inputs up to that frame: no report of a mispredicted state is left.
   */
  lemma LatestReportsAreExact<T(!new)>(h: Hashing<T>, cfg: Config, w0: World, es: seq<Event>, f: int)
    requires cfg.Valid() && Conforming(cfg, w0, es) && Restoring(cfg, w0, es)
    requires RunFrom(cfg, w0, es).Running? ==> 0 <= f < RunFrom(cfg, w0, es).world.frame
    ensures RunFrom(cfg, w0, es).Running? && 0 <= f < |LatestInputs(es)|
    ensures LatestReport(Reports(h, cfg, w0, es), f)
        == Some(ChecksumOf(h, Simulate(cfg, ViewOf(w0), LatestInputs(es)[..f])))
  {
    RunsReportExactly(h, cfg, w0, es);
    assert ReportExact(h, cfg, ViewOf(w0), f, LatestInputs(es), Reports(h, cfg, w0, es));
  }

  // ---- Peers -------------------------------------------------------------------------------------

  lemma StreamReportsExactly<T(!new)>(h: Hashing<T>, cfg: Config, w0: World, depth: nat, ts: seq<Turn>, f: int)
    requires cfg.Valid() && Legal(cfg, w0, depth, ts) && Restoring(cfg, w0, EventsOf(ts)) && 0 <= f < |ts|
    ensures |Corrected(ts)| == |ts|
    ensures LatestReport(Reports(h, cfg, w0, EventsOf(ts)), f)
            == Some(ChecksumOf(h, Simulate(cfg, ViewOf(w0), Corrected(ts)[..f])))
  {
    LegalStreamsAreTransparent(cfg, w0, depth, ts);
    var cap := LegalStreamsConform(cfg, w0, depth, ts);
    StreamInputs(ts);
    RollbackTransparency(cfg, w0, EventsOf(ts));
    LatestReportsAreExact(h, cfg, w0, EventsOf(ts), f);
  }

  /**
   Two peers of one game never diverge: however their batches, rollbacks, confirmed frames,
   prediction windows and entity handles differ, for every past frame up to which they have settled
   on the same inputs, the last checksums that their saves reported are equal; and once all inputs
   are the same, they show the same game state.
   */
  lemma PeersAgree<T(!new)>(h: Hashing<T>, cfg: Config, w: World, depth: nat, ts: seq<Turn>, w': World, depth': nat,
                            ts': seq<Turn>, f: int)
    requires cfg.Valid() && ViewOf(w) == ViewOf(w')
    requires Legal(cfg, w, depth, ts) && Restoring(cfg, w, EventsOf(ts))
    requires Legal(cfg, w', depth', ts') && Restoring(cfg, w', EventsOf(ts'))
    requires 0 <= f < |ts| && f < |ts'|
    ensures |Corrected(ts)| == |ts| && |Corrected(ts')| == |ts'|
    ensures Corrected(ts)[..f] == Corrected(ts')[..f] ==>
              && LatestReport(Reports(h, cfg, w, EventsOf(ts)), f).Some?
              && LatestReport(Reports(h, cfg, w, EventsOf(ts)), f)
                  == LatestReport(Reports(h, cfg, w', EventsOf(ts')), f)
    ensures RunFrom(cfg, w, EventsOf(ts)).Running? && RunFrom(cfg, w', EventsOf(ts')).Running?
    ensures Corrected(ts) == Corrected(ts') ==>
              ViewOf(RunFrom(cfg, w, EventsOf(ts)).world) == ViewOf(RunFrom(cfg, w', EventsOf(ts')).world)
  {
    LegalStreamsAreTransparent(cfg, w, depth, ts);
    LegalStreamsAreTransparent(cfg, w', depth', ts');
    StreamReportsExactly(h, cfg, w, depth, ts, f);
    StreamReportsExactly(h, cfg, w', depth', ts', f);
  }

  /** Peers of a game that despawns softly and harmlessly agree, whatever its hierarchies and references. */
  lemma SoftPeersAgree<T(!new)>(h: Hashing<T>, cfg: Config, w: World, depth: nat, ts: seq<Turn>, w': World,
                                depth': nat, ts': seq<Turn>, f: int)
    requires cfg.Valid() && SoftLogic(cfg) && Native(w.pop) && Native(w'.pop) && ViewOf(w) == ViewOf(w')
    requires Legal(cfg, w, depth, ts) && HarmlessStream(cfg, w, depth, ts)
    requires Legal(cfg, w', depth', ts') && HarmlessStream(cfg, w', depth', ts')
    requires 0 <= f < |ts| && f < |ts'|
    ensures |Corrected(ts)| == |ts| && |Corrected(ts')| == |ts'|
    ensures Corrected(ts)[..f] == Corrected(ts')[..f] ==>
              && LatestReport(Reports(h, cfg, w, EventsOf(ts)), f).Some?
              && LatestReport(Reports(h, cfg, w, EventsOf(ts)), f)
                  == LatestReport(Reports(h, cfg, w', EventsOf(ts')), f)
    ensures RunFrom(cfg, w, EventsOf(ts)).Running? && RunFrom(cfg, w', EventsOf(ts')).Running?
    ensures Corrected(ts) == Corrected(ts') ==>
              ViewOf(RunFrom(cfg, w, EventsOf(ts)).world) == ViewOf(RunFrom(cfg, w', EventsOf(ts')).world)
  {
    SoftStreamsRestore(cfg, w, depth, ts);
    SoftStreamsRestore(cfg, w', depth', ts');
    PeersAgree(h, cfg, w, depth, ts, w', depth', ts', f);
  }

  // ---- Sync tests --------------------------------------------------------------------------------

  /** A report of a run that plays fixed inputs is a function of its frame. */
  ghost predicate ReportOf<T(!new)>(h: Hashing<T>, cfg: Config, v0: View, inputs: int -> Input, cell: Cell<T>)
    requires cfg.rate >= 1
  {
    cell.frame >= 0 && cell.checksum == ChecksumOf(h, Simulate(cfg, v0, Stretch(inputs, 0, cell.frame)))
  }

  lemma {:induction false} ReportsAreFunctionsOfFrame<T(!new)>(h: Hashing<T>, cfg: Config, w0: World, es: seq<Event>,
                                                               inputs: int -> Input)
    requires cfg.Valid() && Conforming(cfg, w0, es) && Restoring(cfg, w0, es) && Plays(es, inputs)
    ensures forall i :: 0 <= i < |Reports(h, cfg, w0, es)| ==>
        ReportOf(h, cfg, ViewOf(w0), inputs, Reports(h, cfg, w0, es)[i])
  {
    if es != [] {
      var front := es[..|es| - 1];
      ReportsAreFunctionsOfFrame(h, cfg, w0, front, inputs);
      StateIsFunctionOfFrame(cfg, w0, front, inputs);
    }
  }

  /**
   A sync test of deterministic game logic never reports a mismatch: any two checksums that its
   saves report for the same frame, before or after any number of rollbacks, are equal.
   */
  lemma SyncTestNeverMismatches<T(!new)>(h: Hashing<T>, cfg: Config, w0: World, depth: nat, distance: nat,
                                         inputs: int -> Input,
                                         ts: seq<Turn>, i: nat, j: nat)
    requires cfg.Valid() && Restoring(cfg, w0, EventsOf(ts))
    requires 1 <= distance <= depth && |ts| <= I32_MAX
    requires SyncTestStream(cfg, w0, depth, distance, inputs, ts)
    requires i < |Reports(h, cfg, w0, EventsOf(ts))| && j < |Reports(h, cfg, w0, EventsOf(ts))|
    ensures var cells := Reports(h, cfg, w0, EventsOf(ts));
            cells[i].frame == cells[j].frame ==> cells[i].checksum == cells[j].checksum
  {
    SyncTestIsLegal(cfg, w0, depth, distance, inputs, ts);
    SyncTestPlays(cfg, w0, depth, distance, inputs, ts);
    ReportsAreFunctionsOfFrame(h, cfg, w0, EventsOf(ts), inputs);
    var cells := Reports(h, cfg, w0, EventsOf(ts));
    assert ReportOf(h, cfg, ViewOf(w0), inputs, cells[i]) && ReportOf(h, cfg, ViewOf(w0), inputs, cells[j]);
  }
}
