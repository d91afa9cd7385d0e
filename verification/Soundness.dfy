/**
 Structural soundness of the engine: an invariant of every run, whatever the game logic does,
 hierarchies and re-used identities included.
 */
module Soundness {
  import opened Prelude
  import opened Population
  import opened Ordering
  import opened SnapshotQueue
  import opened WorldModel

  /** Handles and identities come from the allocator, and no two entities share an identity. */
  ghost predicate PopSound(pop: Pop, next: nat) {
    && (forall e :: e in pop ==> e.id < next && pop[e].rid.entity.id < next)
    && Distinct(pop)
  }

  /** No reference points at a handle that is still to be handed out. */
  ghost predicate HandlesOld(w: World) {
    LinksOld(w.pop, w.next) && LikesOld(w.pop, w.next) && HandleOld(w.favourite, w.next)
  }

  /** Marks lie above the last scanned confirmed frame and not in the future. */
  ghost predicate MarksSound(pop: Pop, scanned: int, frame: int) {
    forall e :: e in pop && pop[e].mark.Some? ==> scanned < pop[e].mark.value <= frame
  }

  ghost predicate OrderSound(o: Order, next: nat) {
    && Bijective(o)
    && (forall x :: x in o.order ==> x.entity.id < next)
  }

  /** `order` never panics on a visible entity. */
  ghost predicate Registered(pop: Pop, o: Order) {
    forall e :: e in pop && Visible(pop, e) ==> pop[e].rid in o.order
  }

  /**
   A stored snapshot fits the world: it refers to handles that still mean the same identity, or
   to none at all, and it does not know entities that were marked by the time it was taken.
   */
  ghost predicate SnapSound(frame: int, s: Snapshot, pop: Pop, next: nat) {
    && OrderSound(s.ordered, next)
    && s.entities.Keys <= s.ordered.order.Keys
    && s.values.Keys <= s.entities.Keys
    && (forall x :: x in s.entities ==> s.entities[x].id < next)
    && (forall x :: x in s.entities && s.entities[x] in pop ==> pop[s.entities[x]].rid == x)
    && (forall x, y :: x in s.entities && y in s.entities && s.entities[x] == s.entities[y] ==> x == y)
    && (forall e :: e in pop && pop[e].mark.Some? && pop[e].mark.value <= frame ==> pop[e].rid !in s.entities)
  }

  ghost predicate HistorySound(h: seq<Entry<Snapshot>>, pop: Pop, next: nat) {
    forall i :: 0 <= i < |h| ==> SnapSound(h[i].frame, h[i].data, pop, next)
  }

  /** Older registers are prefixes of newer ones. */
  ghost predicate Prefixes(h: seq<Entry<Snapshot>>, o: Order) {
    && (forall i :: 0 <= i < |h| ==> h[i].data.ordered.sorted <= o.sorted)
    && (forall i, j :: 0 <= i < j < |h| ==> h[j].data.ordered.sorted <= h[i].data.ordered.sorted)
  }

  /** The stored frames strictly decrease and none lies in the future. */
  ghost predicate Chronological<T>(h: seq<Entry<T>>, frame: int) {
    && 0 <= frame <= I32_MAX
    && (forall i :: 0 <= i < |h| ==> 0 <= h[i].frame <= frame)
    && (forall i, j :: 0 <= i < j < |h| ==> h[j].frame < h[i].frame)
  }

  ghost predicate Sound(w: World) {
    && PopSound(w.pop, w.next)
    && MarksSound(w.pop, w.scanned, w.frame)
    && OrderSound(w.ordered, w.next)
    && Registered(w.pop, w.ordered)
    && HistorySound(w.history, w.pop, w.next)
    && Prefixes(w.history, w.ordered)
    && Chronological(w.history, w.frame)
  }

  ghost predicate Saved(w: World) {
    w.history != [] && w.history[0].frame == w.frame
  }

  // ---- Saving --------------------------------------------------------------------------------

  lemma CaptureSound(cfg: Config, w: World)
    requires PopSound(w.pop, w.next) && OrderSound(w.ordered, w.next) && Registered(w.pop, w.ordered)
    ensures SnapSound(w.frame, Capture(cfg, w), w.pop, w.next)
  {
  }

  /** When nothing stored lies in the future, at most the front gives way to a push. */
  lemma DropShape<T>(q: seq<Entry<T>>, frame: int)
    requires Chronological(q, frame)
    ensures DropSuperseded(q, frame) == if q != [] && q[0].frame == frame then q[1..] else q
  {
  }

  /** What one save leaves in the queue, entry by entry. */
  lemma RecordedShape<T>(h: seq<Entry<T>>, confirmed: int, frame: int, data: T, depth: nat) returns (drop: nat)
    requires Chronological(h, frame)
    ensures drop == (if h != [] && h[0].frame == frame then 1 else 0)
    ensures var r := Recorded(h, confirmed, frame, data, depth);
            && |r| <= depth && (depth >= 1 ==> r != [])
            && (r != [] ==> r[0] == Entry(frame, data))
            && |r| - 1 + drop <= |h|
            && (forall i :: 1 <= i < |r| ==> r[i] == h[i - 1 + drop])
            && (|r| == depth || |r| - 1 + drop == |h| || h[|r| - 1 + drop].frame < confirmed)
  {
    drop := if h != [] && h[0].frame == frame then 1 else 0;
    RestShape(h, confirmed, frame);
    PushedShape(DropSuperseded(Confirmed(h, confirmed), frame), frame, data, depth);
  }

  lemma RestShape<T>(h: seq<Entry<T>>, confirmed: int, frame: int)
    requires Chronological(h, frame)
    ensures var rest := DropSuperseded(Confirmed(h, confirmed), frame);
            var drop := if h != [] && h[0].frame == frame then 1 else 0;
            && |rest| + drop <= |h|
            && (forall i :: 0 <= i < |rest| ==> rest[i] == h[i + drop])
            && (|rest| + drop == |h| || h[|rest| + drop].frame < confirmed)
  {
    var kept := Confirmed(h, confirmed);
    ConfirmedIsTake(h, confirmed);
    assert Chronological(kept, frame);
    DropShape(kept, frame);
  }

  lemma PushedShape<T>(rest: seq<Entry<T>>, frame: int, data: T, depth: nat)
    ensures var r := Evicted([Entry(frame, data)] + rest, depth);
            && |r| <= depth && (depth >= 1 ==> r != [])
            && |r| - 1 <= |rest| && (r != [] ==> r[0] == Entry(frame, data))
            && (forall i :: 1 <= i < |r| ==> r[i] == rest[i - 1])
            && (|r| == depth || |r| - 1 == |rest|)
  {
    EvictedIsTake([Entry(frame, data)] + rest, depth);
  }

  lemma RecordedSound(h: seq<Entry<Snapshot>>, confirmed: int, frame: int, data: Snapshot, depth: nat, pop: Pop,
                      next: nat)
    requires Chronological(h, frame)
    requires HistorySound(h, pop, next) && SnapSound(frame, data, pop, next)
    ensures HistorySound(Recorded(h, confirmed, frame, data, depth), pop, next)
  {
    var drop := RecordedShape(h, confirmed, frame, data, depth);
    var r := Recorded(h, confirmed, frame, data, depth);
    forall i | 0 <= i < |r| ensures SnapSound(r[i].frame, r[i].data, pop, next) {
      assert i > 0 ==> r[i] == h[i - 1 + drop];
    }
  }

  lemma RecordedChronological(h: seq<Entry<Snapshot>>, confirmed: int, frame: int, data: Snapshot, depth: nat, o: Order)
    requires Chronological(h, frame) && Prefixes(h, o) && data.ordered == o
    ensures Chronological(Recorded(h, confirmed, frame, data, depth), frame)
    ensures Prefixes(Recorded(h, confirmed, frame, data, depth), o)
    ensures depth >= 1 ==> Recorded(h, confirmed, frame, data, depth) != []
                           && Recorded(h, confirmed, frame, data, depth)[0] == Entry(frame, data)
  {
    var drop := RecordedShape(h, confirmed, frame, data, depth);
    var r := Recorded(h, confirmed, frame, data, depth);
    forall i | 0 <= i < |r| ensures 0 <= r[i].frame <= frame && r[i].data.ordered.sorted <= o.sorted {
      assert i > 0 ==> r[i] == h[i - 1 + drop];
    }
    forall i, j | 0 <= i < j < |r|
      ensures r[j].frame < r[i].frame && r[j].data.ordered.sorted <= r[i].data.ordered.sorted
    {
      assert r[j] == h[j - 1 + drop];
      assert i > 0 ==> r[i] == h[i - 1 + drop];
      assert drop > 0 ==> h[j - 1 + drop].frame < h[0].frame;
    }
  }

  lemma RecordKeepsSound(w: World, s: Snapshot)
    requires Sound(w) && SnapSound(w.frame, s, w.pop, w.next) && s.ordered == w.ordered
    ensures Sound(w.(history := Recorded(w.history, w.confirmed, w.frame, s, w.window)))
  {
    RecordedSound(w.history, w.confirmed, w.frame, s, w.window, w.pop, w.next);
    RecordedChronological(w.history, w.confirmed, w.frame, s, w.window, w.ordered);
    WithHistory(w, Recorded(w.history, w.confirmed, w.frame, s, w.window));
  }

  lemma SaveKeepsSound(cfg: Config, w: World)
    requires Sound(w)
    ensures Sound(SaveWorld(cfg, w))
    ensures w.window >= 1 ==> Saved(SaveWorld(cfg, w))
  {
    CaptureSound(cfg, w);
    RecordKeepsSound(w, Capture(cfg, w));
    RecordedChronological(w.history, w.confirmed, w.frame, Capture(cfg, w), w.window, w.ordered);
  }

  lemma WithHistory(w: World, h: seq<Entry<Snapshot>>)
    requires Sound(w)
    requires HistorySound(h, w.pop, w.next) && Prefixes(h, w.ordered) && Chronological(h, w.frame)
    ensures Sound(w.(history := h))
  {
  }

  // ---- Game logic ----------------------------------------------------------------------------

  /** What commands may do to the population: remove, re-mark with the current frame, or add fresh entities. */
  ghost predicate Evolves(pop: Pop, next: nat, scanned: int, frame: int, pop': Pop, next': nat) {
    && next <= next'
    && forall e :: e in pop' ==>
         || (e in pop && pop'[e].rid == pop[e].rid
             && (pop'[e].mark == pop[e].mark || (pop'[e].mark == Some(frame) && scanned < frame)))
         || (next <= e.id < next' && pop'[e].rid == RollbackId(e) && pop'[e].mark.None?)
  }

  lemma EvolvedSnapshot(f: int, s: Snapshot, pop: Pop, next: nat, scanned: int, frame: int, pop': Pop, next': nat)
    requires SnapSound(f, s, pop, next) && f < frame
    requires Evolves(pop, next, scanned, frame, pop', next')
    ensures SnapSound(f, s, pop', next')
  {
  }

  /** The part of soundness that commands can touch, while the current frame is still unsaved. */
  ghost predicate Live(w: World) {
    && Sound(w)
    && w.scanned == w.confirmed
    && (w.history != [] ==> w.history[0].frame < w.frame)
  }

  /** Everything stored is older than `frame`. */
  ghost predicate BeforeFrame(h: seq<Entry<Snapshot>>, frame: int) {
    forall i :: 0 <= i < |h| ==> h[i].frame < frame
  }

  lemma LiveBefore(w: World)
    requires Live(w)
    ensures BeforeFrame(w.history, w.frame)
  {
  }

  lemma EvolvedHistory(h: seq<Entry<Snapshot>>, pop: Pop, next: nat, scanned: int, frame: int, pop': Pop, next': nat)
    requires HistorySound(h, pop, next) && Chronological(h, frame) && (h != [] ==> h[0].frame < frame)
    requires Evolves(pop, next, scanned, frame, pop', next')
    ensures HistorySound(h, pop', next')
  {
    forall i | 0 <= i < |h| ensures SnapSound(h[i].frame, h[i].data, pop', next') {
      EvolvedSnapshot(h[i].frame, h[i].data, pop, next, scanned, frame, pop', next');
    }
  }

  lemma EvolvedPop(pop: Pop, next: nat, scanned: int, frame: int, pop': Pop, next': nat)
    requires PopSound(pop, next) && MarksSound(pop, scanned, frame)
    requires Evolves(pop, next, scanned, frame, pop', next')
    ensures PopSound(pop', next') && MarksSound(pop', scanned, frame)
  {
  }

  lemma GrownPrefixes(h: seq<Entry<Snapshot>>, o: Order, o': Order)
    requires Prefixes(h, o) && o.sorted <= o'.sorted
    ensures Prefixes(h, o')
  {
  }

  lemma EvolvedWorld(w: World, w': World)
    requires Live(w)
    requires Evolves(w.pop, w.next, w.scanned, w.frame, w'.pop, w'.next)
    requires SameSession(w, w')
    requires OrderSound(w'.ordered, w'.next) && w.ordered.sorted <= w'.ordered.sorted
    requires Registered(w'.pop, w'.ordered)
    ensures Live(w')
  {
    EvolvedHistory(w.history, w.pop, w.next, w.scanned, w.frame, w'.pop, w'.next);
    EvolvedPop(w.pop, w.next, w.scanned, w.frame, w'.pop, w'.next);
    GrownPrefixes(w.history, w.ordered, w'.ordered);
  }

  /** Everything commands cannot touch. */
  ghost predicate SameSession(w: World, w': World) {
    && w'.clock == w.clock && w'.frame == w.frame && w'.confirmed == w.confirmed && w'.window == w.window
    && w'.scanned == w.scanned && w'.entityMap == w.entityMap && w'.history == w.history
  }

  lemma EditKeepsLive(w: World, e: Entity, b: Body)
    requires Live(w) && Visible(w.pop, e) && b.rid == w.pop[e].rid && b.mark == w.pop[e].mark
    ensures Live(w.(pop := w.pop[e := b]))
  {
    EvolvedWorld(w, w.(pop := w.pop[e := b]));
  }

  lemma DespawnKeepsLive(w: World, roots: set<Entity>)
    requires Live(w)
    ensures Live(w.(pop := Despawned(w.pop, roots)))
  {
    EvolvedWorld(w, w.(pop := Despawned(w.pop, roots)));
  }

  lemma MarkKeepsLive(w: World, roots: set<Entity>)
    requires Live(w) && w.confirmed < w.frame
    ensures Live(w.(pop := Marked(w.pop, roots, w.frame)))
  {
    EvolvedWorld(w, w.(pop := Marked(w.pop, roots, w.frame)));
  }

  lemma SpawnKeepsLive(w: World, b: Body)
    requires Live(w) && b.rid == RollbackId(Entity(w.next)) && b.mark.None?
    ensures Live(w.(pop := w.pop[Entity(w.next) := b], next := w.next + 1, ordered := Register(w.ordered, b.rid)))
  {
    RegisterKeepsBijection(w.ordered, b.rid);
    EvolvedWorld(w, w.(pop := w.pop[Entity(w.next) := b], next := w.next + 1, ordered := Register(w.ordered, b.rid)));
  }

  lemma ResourcesKeepLive(w: World, w': World)
    requires Live(w) && w' == w.(resource := w'.resource, favourite := w'.favourite)
    ensures Live(w')
  {
  }

  lemma ExecuteEditKeepsLive(w: World, c: Command)
    requires Live(w) && (c.SetValue? || c.ClearValue? || c.SetLikes?)
    ensures Live(Execute(w, c))
  {
    var e := Resolve(w, c.target);
    if e.Some? {
      var b := w.pop[e.value];
      EditKeepsLive(w, e.value,
                    if c.SetValue? then b.(value := Some(c.newValue))
                    else if c.ClearValue? then b.(value := None)
                    else b.(likes := Resolve(w, c.liked)));
    }
  }

  lemma ExecuteDespawnKeepsLive(w: World, c: Command)
    requires Live(w) && (c.Despawn? || c.DespawnRollback?)
    ensures Live(Execute(w, c))
  {
    var e := Resolve(w, c.target);
    if e.Some? {
      if c.DespawnRollback? && w.confirmed < w.frame {
        MarkKeepsLive(w, {e.value});
      } else {
        DespawnKeepsLive(w, {e.value});
      }
    }
  }

  lemma ExecuteSpawnKeepsLive(w: World, c: Command)
    requires Live(w) && c.Spawn?
    ensures Live(Execute(w, c))
  {
    SpawnKeepsLive(w, Body(RollbackId(Entity(w.next)), None, c.value, None, ResolveOption(w, c.parentIndex), c.decor));
  }

  lemma ExecuteKeepsSession(w: World, c: Command)
    ensures SameSession(w, Execute(w, c))
  {
  }

  lemma ExecuteKeepsLive(w: World, c: Command)
    requires Live(w)
    ensures Live(Execute(w, c)) && SameSession(w, Execute(w, c))
  {
    ExecuteKeepsSession(w, c);
    if c.Spawn? {
      ExecuteSpawnKeepsLive(w, c);
    } else if c.SetValue? || c.ClearValue? || c.SetLikes? {
      ExecuteEditKeepsLive(w, c);
    } else if c.Despawn? || c.DespawnRollback? {
      ExecuteDespawnKeepsLive(w, c);
    } else {
      ResourcesKeepLive(w, Execute(w, c));
    }
  }

  lemma {:induction false} ExecuteAllKeepsLive(w: World, cs: seq<Command>)
    requires Live(w)
    ensures Live(ExecuteAll(w, cs)) && SameSession(w, ExecuteAll(w, cs))
  {
    if cs != [] {
      ExecuteAllKeepsLive(w, cs[..|cs| - 1]);
      ExecuteKeepsLive(ExecuteAll(w, cs[..|cs| - 1]), cs[|cs| - 1]);
    }
  }

  /**
   The cached early return of the confirmed-despawn system agrees with always scanning: no mark
   at or below the confirmed frame is left, even when the confirmed frame has moved backwards.
   */
  lemma EarlyReturnAgreesWithScan(w: World)
    requires MarksSound(w.pop, w.scanned, w.frame)
    ensures DespawnConfirmed(w)
        == w.(pop := Despawned(w.pop, ConfirmedGone(w.pop, w.confirmed)), scanned := w.confirmed)
    ensures MarksSound(DespawnConfirmed(w).pop, w.confirmed, w.frame)
  {
  }

  lemma DespawnConfirmedIsLive(w: World)
    requires Sound(w) && (w.history != [] ==> w.history[0].frame < w.frame)
    ensures Live(DespawnConfirmed(w))
  {
    var w2 := DespawnConfirmed(w);
    EarlyReturnAgreesWithScan(w);
    assert Evolves(w.pop, w.next, w.scanned, w.frame, w2.pop, w2.next);
    EvolvedHistory(w.history, w.pop, w.next, w.scanned, w.frame, w2.pop, w2.next);
    EvolvedPop(w.pop, w.next, w.scanned, w.frame, w2.pop, w2.next);
  }

  lemma TickKeepsSound(cfg: Config, w: World)
    requires Sound(w) && CanAdvance(cfg, w)
    ensures Sound(Tick(cfg, w)) && (w.history != [] ==> w.history[0].frame < Tick(cfg, w).frame)
  {
  }

  lemma BeforeLogicIsLive(cfg: Config, w: World)
    requires Sound(w) && CanAdvance(cfg, w)
    ensures Live(BeforeLogic(cfg, w))
  {
    TickKeepsSound(cfg, w);
    DespawnConfirmedIsLive(Tick(cfg, w));
  }

  lemma AdvanceKeepsSound(cfg: Config, w: World, input: Input)
    requires Sound(w) && CanAdvance(cfg, w)
    ensures Sound(AdvanceWorld(cfg, w, input)) && !Saved(AdvanceWorld(cfg, w, input))
    ensures AdvanceWorld(cfg, w, input).frame == w.frame + 1
    ensures AdvanceWorld(cfg, w, input).history == w.history
    ensures AdvanceWorld(cfg, w, input).scanned == w.confirmed == AdvanceWorld(cfg, w, input).confirmed
  {
    var w1 := BeforeLogic(cfg, w);
    BeforeLogicIsLive(cfg, w);
    ExecuteAllKeepsLive(w1, cfg.logic(ViewOf(w1), input));
  }
}
