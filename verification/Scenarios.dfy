/**
 Streams of batches that a session may emit and that do lose something: where the conditions of
 `Recovery` and `SoftStreams` fail, in a game of two entities, Bob and his child Ann.
 */
module Scenarios {
  import opened Prelude
  import opened Population
  import opened Ordering
  import opened SnapshotQueue
  import opened WorldModel
  import opened Soundness
  import opened Reconciliation
  import opened Restoration
  import opened Remapping
  import opened Hierarchy
  import opened Recovery
  import opened Runs
  import opened Sessions
  import opened References
  import opened Transparency
  import opened Stretches
  import opened Overwriting
  import opened SoftStreams
  import opened StreamLosses

  // ---- The game --------------------------------------------------------------------------------

  /** Game logic that is told by its input what to despawn: `[t]` is index `t`. */
  function Target(input: Input): Option<nat> {
    if |input| == 1 && input[0] >= 0 then Some(input[0]) else None
  }

  /** A game that despawns the target. */
  ghost predicate Despawning(cfg: Config) {
    cfg.Valid() && forall v: View, input: Input ::
      cfg.logic(v, input) == if Target(input).Some? then [Despawn(Target(input).value)] else []
  }

  /** A game that despawns it softly. */
  ghost predicate Softly(cfg: Config) {
    cfg.Valid() && forall v: View, input: Input ::
      cfg.logic(v, input) == if Target(input).Some? then [DespawnRollback(Target(input).value)] else []
  }

  const BOB := Entity(0)
  const ANN := Entity(1)

  /** The register of the game. */
  const BOTH := Order(map[RollbackId(BOB) := 0, RollbackId(ANN) := 1], [RollbackId(BOB), RollbackId(ANN)])

  /** A peer-to-peer session that has confirmed nothing yet. */
  const PEERS := P2P(8, -1)

  /** Bob's child. */
  function Child(likes: Option<Entity>, decor: Option<int>): Body {
    Body(RollbackId(ANN), None, None, likes, Some(BOB), decor)
  }

  ghost predicate Couple(pop: Pop, ann: Body) {
    pop.Keys == {BOB, ANN} && pop[BOB] == Blank(RollbackId(BOB)) && pop[ANN] == ann
  }

  /** The game starts with both, and with the engine's own counters as they are in a new world. */
  ghost predicate Home(w: World, likes: Option<Entity>, decor: Option<int>) {
    && Couple(w.pop, Child(likes, decor)) && (likes.Some? ==> likes.value == BOB)
    && w.next == 2 && w.ordered == BOTH && w.favourite == None && w.clock == Clock(0, 0)
    && w.frame == 0 && w.confirmed == 0 && w.window == 0 && w.scanned == 0 && w.history == []
  }

  function LoadEvent(frame: int, c: Choice): Event {
    Event(PEERS, Load(frame), c)
  }

  /** A batch that plays a frame, and one that goes back first. */
  function Frame(input: Input): Turn {
    Turn(PEERS, Plain(input))
  }

  function Rewind(frame: int, inputs: seq<Input>, c: Choice): Turn {
    Turn(PEERS, Replay(frame, inputs, c))
  }

  // ---- Runs ------------------------------------------------------------------------------------

  /** A conforming run has led to `w`, and any frame may still be asked for. */
  ghost predicate Reached(cfg: Config, w0: World, es: seq<Event>, w: World) {
    Conforming(cfg, w0, es) && RunFrom(cfg, w0, es) == Running(w) && Horizon(cfg, w0, es) == 0
  }

  lemma Reach(cfg: Config, w0: World, es: seq<Event>, v: World, ev: Event) returns (w: World)
    requires Reached(cfg, w0, es, v) && Permitted(v, 0, ev) && HorizonAfter(0, v, ev) == 0
    ensures Reached(cfg, w0, es + [ev], w) && Step(cfg, v, ev) == Running(w)
  {
    var u;
    u, w := AppendEvent(cfg, w0, es, ev);
    assert (es + [ev])[..|es + [ev]| - 1] == es;
  }

  lemma BothAreRegistered()
    ensures OrderSound(BOTH, 2)
  {
  }

  lemma HomeStarts(cfg: Config, w0: World, likes: Option<Entity>, decor: Option<int>)
    requires cfg.Valid() && Home(w0, likes, decor)
    ensures Start(w0) && Reached(cfg, w0, [], w0)
  {
    BothAreRegistered();
  }

  /** What the snapshot of the start knows. */
  ghost predicate HomeSnapshot(s: Snapshot, likes: Option<Entity>) {
    && s.entities.Keys == {RollbackId(BOB), RollbackId(ANN)}
    && s.entities[RollbackId(BOB)] == BOB && s.entities[RollbackId(ANN)] == ANN
    && Get(s.parents, RollbackId(ANN)) == Some(BOB) && Get(s.parents, RollbackId(BOB)) == None
    && Get(s.likes, RollbackId(ANN)) == likes && Get(s.likes, RollbackId(BOB)) == None
    && s.favourite == None && s.ordered == BOTH
  }

  lemma CoupleFound(pop: Pop, likes: Option<Entity>, decor: Option<int>)
    requires Couple(pop, Child(likes, decor))
    ensures VisibleIds(pop) == {RollbackId(BOB), RollbackId(ANN)}
    ensures Find(pop, RollbackId(BOB)) == Some(BOB) && Find(pop, RollbackId(ANN)) == Some(ANN)
  {
    assert Visible(pop, BOB) && Visible(pop, ANN);
    FindVisible(pop, BOB);
    FindVisible(pop, ANN);
  }

  lemma HomeIsCaptured(cfg: Config, w: World, likes: Option<Entity>, decor: Option<int>)
    requires Couple(w.pop, Child(likes, decor)) && w.ordered == BOTH && w.favourite == None
    ensures HomeSnapshot(Capture(cfg, w), likes)
  {
    CoupleFound(w.pop, likes, decor);
  }

  lemma FirstRecord(frame: int, s: Snapshot)
    ensures Recorded([], -1, frame, s, 8) == [Entry(frame, s)]
  {
    EvictedIsTake([Entry(frame, s)], 8);
  }

  /** The world after saving frame 0. */
  lemma FirstSave(cfg: Config, w0: World, likes: Option<Entity>, decor: Option<int>) returns (w: World, s: Snapshot)
    requires cfg.Valid() && Home(w0, likes, decor)
    ensures Reached(cfg, w0, [SaveEvent(PEERS)], w)
    ensures Playing(w, 0, 2) && w.pop == w0.pop && w.history == [Entry(0, s)] && HomeSnapshot(s, likes)
  {
    HomeStarts(cfg, w0, likes, decor);
    w := Reach(cfg, w0, [], w0, SaveEvent(PEERS));
    assert [] + [SaveEvent(PEERS)] == [SaveEvent(PEERS)];
    var v := Enter(w0, PEERS);
    s := Capture(cfg, v);
    FirstRecord(0, s);
    HomeIsCaptured(cfg, v, likes, decor);
  }

  /** The worlds of these runs: nothing is confirmed, and the session is known. */
  ghost predicate Playing(w: World, frame: int, next: nat) {
    && w.frame == frame && w.next == next && w.ordered == BOTH && w.favourite == None
    && w.confirmed == -1 && w.window == 8 && w.scanned >= -1
  }

  /** Nothing is confirmed, so nobody is despawned for good. */
  lemma NothingConfirmed(t: World)
    requires t.confirmed == -1 && t.scanned >= -1 && MarksSound(t.pop, t.scanned, t.frame)
    ensures DespawnConfirmed(t) == t.(scanned := -1)
  {
    assert ConfirmedGone(t.pop, -1) == {};
    assert Closed(t.pop, {});
    assert Despawned(t.pop, {}) == t.pop;
  }

  /** An advance with an input that scripts these commands. */
  lemma ScriptedAdvance(cfg: Config, w: World, input: Input, cs: seq<Command>)
    requires CanAdvance(cfg, w) && w.confirmed == -1 && w.scanned >= -1 && MarksSound(w.pop, w.scanned, w.frame)
    requires forall v: View :: cfg.logic(v, input) == cs
    ensures AdvanceWorld(cfg, w, input) == ExecuteAll(Tick(cfg, w).(scanned := -1), cs)
  {
    var w1 := BeforeLogic(cfg, w);
    NothingConfirmed(Tick(cfg, w));
    assert cfg.logic(ViewOf(w1), input) == cs;
  }

  lemma OneCommand(w: World, c: Command)
    ensures ExecuteAll(w, [c]) == Execute(w, c)
  {
    assert [c][..0] == [];
    assert ExecuteAll(w, [c][..0]) == w;
  }

  /** A frame in which these commands are run. */
  lemma PlayFrame(cfg: Config, w0: World, es: seq<Event>, v: World, input: Input, cs: seq<Command>)
    returns (w: World, t: World)
    requires cfg.Valid() && Reached(cfg, w0, es, v) && Playing(v, v.frame, v.next) && Saved(v) && v.frame < 10
    requires forall u: View :: cfg.logic(u, input) == cs
    ensures Reached(cfg, w0, es + [AdvanceEvent(PEERS, input)], w)
    ensures Playing(t, v.frame + 1, v.next) && t.pop == v.pop && t.history == v.history
    ensures w == ExecuteAll(t, cs)
  {
    assert Enter(v, PEERS) == v;
    w := Reach(cfg, w0, es, v, AdvanceEvent(PEERS, input));
    RunNeverPanics(cfg, w0, es);
    ScriptedAdvance(cfg, v, input, cs);
    t := Tick(cfg, v).(scanned := -1);
  }

  // ---- Streams --------------------------------------------------------------------------------

  /** A legal stream has led to `w`, and any frame may still be asked for. */
  ghost predicate Played(cfg: Config, w0: World, ts: seq<Turn>, w: World) {
    Legal(cfg, w0, 8, ts) && Reached(cfg, w0, EventsOf(ts), w) && w.frame == |ts|
  }

  lemma MayRewind(v: World, t: Turn)
    requires v.frame <= 8 && t.session == PEERS
    requires t.batch.Replay? ==>
               && 0 <= t.batch.frame < v.frame && |t.batch.inputs| == v.frame - t.batch.frame + 1
               && FreshHandles(v, PEERS, t.batch.frame, t.batch.choice)
    ensures TurnOk(v, 8, 0, t)
  {
  }

  lemma PlayTurn(cfg: Config, w0: World, ts: seq<Turn>, v: World, t: Turn)
    requires Played(cfg, w0, ts, v) && v.frame <= 8 && t.session == PEERS
    requires t.batch.Replay? ==>
               && 0 <= t.batch.frame < v.frame && |t.batch.inputs| == v.frame - t.batch.frame + 1
               && FreshHandles(v, PEERS, t.batch.frame, t.batch.choice)
    ensures Legal(cfg, w0, 8, ts + [t]) && EventsOf(ts + [t]) == EventsOf(ts) + [FirstOf(t)] + RestOf(t)
  {
    SettledIsZero(cfg, w0, EventsOf(ts));
    MayRewind(v, t);
    LegalNext(cfg, w0, 8, ts, t, v);
    OneMoreTurn(ts, t);
  }

  lemma {:induction false} SettledIsZero(cfg: Config, w0: World, es: seq<Event>)
    requires Horizon(cfg, w0, es) == 0
    ensures Settled(cfg, w0, es) == 0
  {
    SettledBelowHorizon(cfg, w0, es);
    SettledAtLeast(cfg, w0, es);
  }

  lemma {:induction false} SettledAtLeast(cfg: Config, w0: World, es: seq<Event>)
    ensures Settled(cfg, w0, es) >= 0
  {
    if es != [] {
      SettledAtLeast(cfg, w0, es[..|es| - 1]);
    }
  }

  lemma OneTurn(t: Turn)
    ensures EventsOf([t]) == [FirstOf(t)] + RestOf(t)
  {
    OneMoreTurn([], t);
    assert [] + [t] == [t];
    assert [] + [FirstOf(t)] == [FirstOf(t)];
  }

  /** The load of the last batch of a legal stream ends a transparent run in the wrong game state. */
  ghost predicate Spoils(cfg: Config, w0: World, ts: seq<Turn>, t: Turn)
    requires cfg.rate >= 1
  {
    && Legal(cfg, w0, 8, ts + [t]) && t.batch.Replay?
    && var es := EventsOf(ts) + [LoadOf(t)];
       && es <= EventsOf(ts + [t]) && RunFrom(cfg, w0, es).Running?
       && Restoring(cfg, w0, EventsOf(ts)) && !Restoring(cfg, w0, es)
       && !Faithful(cfg, ViewOf(w0), RunFrom(cfg, w0, es).world, LatestInputs(es))
  }

  // ---- Bob goes, Ann goes with him, and both come back -------------------------------------------

  const NEW_BOB := Entity(2)
  const NEW_ANN := Entity(3)

  /** The handles for respawning both. */
  const BOTH_AGAIN := Choice(map[RollbackId(BOB) := NEW_BOB, RollbackId(ANN) := NEW_ANN], 4)

  lemma WholeFamilyGone(pop: Pop, likes: Option<Entity>, decor: Option<int>)
    requires Couple(pop, Child(likes, decor))
    ensures forall e :: e !in Despawned(pop, {BOB})
  {
    assert ChildOf(pop, ANN, Family(pop, {BOB}));
  }

  /** Despawn Bob in the first frame. */
  function DespawnTurns(): seq<Turn> {
    [Frame([0])]
  }

  /** That is: save, then despawn him. */
  function DespawnRun(): seq<Event> {
    [SaveEvent(PEERS)] + [AdvanceEvent(PEERS, [0])]
  }

  lemma DespawnTurnsAreLegal(cfg: Config, w0: World, likes: Option<Entity>)
    requires Despawning(cfg) && Home(w0, likes, None)
    ensures Legal(cfg, w0, 8, DespawnTurns()) && EventsOf(DespawnTurns()) == DespawnRun()
  {
    HomeStarts(cfg, w0, likes, None);
    OneTurn(Frame([0]));
    PlayTurn(cfg, w0, [], w0, Frame([0]));
    assert [] + [Frame([0])] == [Frame([0])];
  }

  /** Ann goes with him. */
  lemma BobDespawned(cfg: Config, w0: World, likes: Option<Entity>) returns (w: World, s: Snapshot)
    requires Despawning(cfg) && Home(w0, likes, None)
    ensures Reached(cfg, w0, DespawnRun(), w)
    ensures Playing(w, 1, 2) && w.history == [Entry(0, s)] && HomeSnapshot(s, likes) && forall e :: e !in w.pop
  {
    var v, t;
    v, s := FirstSave(cfg, w0, likes, None);
    w, t := PlayFrame(cfg, w0, [SaveEvent(PEERS)], v, [0], [Despawn(0)]);
    OneCommand(t, Despawn(0));
    CoupleFound(t.pop, likes, None);
    assert Resolve(t, 0) == Some(BOB);
    WholeFamilyGone(t.pop, likes, None);
  }

  lemma BothAreMissing(pop: Pop, s: Snapshot, likes: Option<Entity>)
    requires HomeSnapshot(s, likes) && forall e :: e !in pop
    ensures VisibleIds(pop) == {} && ChoiceOk(pop, s.entities, 2, BOTH_AGAIN)
  {
    assert VisibleIds(pop) == {};
  }

  /** Both are there under new handles, and Ann is Bob's child again. */
  ghost predicate NewCouple(pop: Pop) {
    && pop.Keys == {NEW_BOB, NEW_ANN}
    && pop[NEW_BOB].rid == RollbackId(BOB) && pop[NEW_ANN].rid == RollbackId(ANN)
    && pop[NEW_BOB].mark == None && pop[NEW_ANN].mark == None
    && pop[NEW_BOB].parent == None && pop[NEW_ANN].parent == Some(NEW_BOB)
  }

  /** Going back to frame 0. */
  lemma LoadFirst(cfg: Config, w0: World, es: seq<Event>, v: World, s: Snapshot, likes: Option<Entity>, c: Choice)
    returns (w: World)
    requires Reached(cfg, w0, es, v) && v.frame > 0 && Playing(v, v.frame, v.next)
    requires RolledBack(v.history, 0) == [Entry(0, s)] && HomeSnapshot(s, likes)
    requires ChoiceOk(BeforeReconcile(v, 0), s.entities, v.next, c)
    ensures Reached(cfg, w0, es + [LoadEvent(0, c)], w) && FreshHandles(v, PEERS, 0, c)
    ensures CanLoad(v, 0, c) && w == LoadWorld(cfg, v, 0, c)
    ensures Playing(w, 0, c.next) && w.history == [Entry(0, s)]
    ensures Loadable(BeforeReconcile(v, 0), v.next, 0, s, c)
  {
    assert Enter(v, PEERS) == v;
    w := Reach(cfg, w0, es, v, LoadEvent(0, c));
    RunNeverPanics(cfg, w0, es);
    LoadStarts(v, 0, c);
  }

  lemma RespawnedAt(cfg: Config, pop: Pop, next: nat, frame: int, s: Snapshot, c: Choice, x: RollbackId)
    requires Loadable(pop, next, frame, s, c) && x in c.spawned
    ensures var q := LoadedPop(cfg, pop, s, c.spawned);
            && c.spawned[x] in q && q[c.spawned[x]].rid == x && q[c.spawned[x]].mark == None
            && q[c.spawned[x]].parent
                == RestoredParent(None, Get(s.parents, x), EntityMapOf(pop, s.entities, c.spawned))
            && q[c.spawned[x]].decor == None
  {
    FreshEntity(pop, next, frame, s, c, x);
    LoadedAt(cfg, pop, s, c.spawned, c.spawned[x]);
  }

  lemma OnlyRespawned(cfg: Config, pop: Pop, next: nat, frame: int, s: Snapshot, c: Choice)
    requires Loadable(pop, next, frame, s, c) && forall e :: e !in pop
    ensures forall e :: e in LoadedPop(cfg, pop, s, c.spawned) <==> e in c.spawned.Values
  {
    LoadedIdentity(cfg, pop, s, c.spawned);
    forall e ensures e in LoadedPop(cfg, pop, s, c.spawned) <==> e in c.spawned.Values {
      ReconciledAt(pop, next, frame, s, c, e);
    }
  }

  lemma BobRespawned(cfg: Config, pop: Pop, s: Snapshot, likes: Option<Entity>)
    requires Loadable(pop, 2, 0, s, BOTH_AGAIN) && HomeSnapshot(s, likes)
    ensures var q := LoadedPop(cfg, pop, s, BOTH_AGAIN.spawned);
            && NEW_BOB in q && q[NEW_BOB].rid == RollbackId(BOB) && q[NEW_BOB].mark == None && q[NEW_BOB].parent == None
  {
    RespawnedAt(cfg, pop, 2, 0, s, BOTH_AGAIN, RollbackId(BOB));
  }

  lemma AnnRespawned(cfg: Config, pop: Pop, s: Snapshot, likes: Option<Entity>)
    requires Loadable(pop, 2, 0, s, BOTH_AGAIN) && HomeSnapshot(s, likes)
    ensures var q := LoadedPop(cfg, pop, s, BOTH_AGAIN.spawned);
            && NEW_ANN in q && q[NEW_ANN].rid == RollbackId(ANN) && q[NEW_ANN].mark == None
                && q[NEW_ANN].parent == Some(NEW_BOB)
  {
    RespawnedAt(cfg, pop, 2, 0, s, BOTH_AGAIN, RollbackId(ANN));
    RespawnKey(pop, 2, 0, s, BOTH_AGAIN, RollbackId(BOB));
  }

  lemma BothRespawned(cfg: Config, pop: Pop, s: Snapshot, likes: Option<Entity>)
    requires Loadable(pop, 2, 0, s, BOTH_AGAIN) && HomeSnapshot(s, likes) && forall e :: e !in pop
    ensures NewCouple(LoadedPop(cfg, pop, s, BOTH_AGAIN.spawned))
  {
    BobRespawned(cfg, pop, s, likes);
    AnnRespawned(cfg, pop, s, likes);
    OnlyRespawned(cfg, pop, 2, 0, s, BOTH_AGAIN);
    NewHandles();
  }

  lemma NewHandles()
    ensures BOTH_AGAIN.spawned.Values == {NEW_BOB, NEW_ANN}
  {
    assert BOTH_AGAIN.spawned[RollbackId(BOB)] == NEW_BOB && BOTH_AGAIN.spawned[RollbackId(ANN)] == NEW_ANN;
  }

  /** Save, despawn Bob, and go back. */
  function ReturnRun(): seq<Event> {
    DespawnRun() + [LoadEvent(0, BOTH_AGAIN)]
  }

  /** The family is complete again. */
  lemma FamilyRespawned(cfg: Config, w0: World, likes: Option<Entity>) returns (v: World, w: World, s: Snapshot)
    requires Despawning(cfg) && Home(w0, likes, None)
    ensures Reached(cfg, w0, DespawnRun(), v)
    ensures Playing(v, 1, 2) && v.history == [Entry(0, s)] && HomeSnapshot(s, likes) && forall e :: e !in v.pop
    ensures RolledBack(v.history, 0) == v.history && FreshHandles(v, PEERS, 0, BOTH_AGAIN)
    ensures CanLoad(v, 0, BOTH_AGAIN) && w == LoadWorld(cfg, v, 0, BOTH_AGAIN)
    ensures Reached(cfg, w0, ReturnRun(), w)
    ensures Playing(w, 0, 4) && w.history == [Entry(0, s)] && NewCouple(w.pop)
  {
    v, s := BobDespawned(cfg, w0, likes);
    assert RolledBack(v.history, 0) == v.history;
    BothAreMissing(BeforeReconcile(v, 0), s, likes);
    w := LoadFirst(cfg, w0, DespawnRun(), v, s, likes, BOTH_AGAIN);
    BothRespawned(cfg, BeforeReconcile(v, 0), s, likes);
  }

  // ---- Parents: the second load of a frame orphans a respawned child -----------------------------

  /** Despawn Bob in the first frame; then go back and despawn Ann instead. */
  function OrphanTurns(): seq<Turn> {
    DespawnTurns() + [Rewind(0, [[1]] + [[]], BOTH_AGAIN)]
  }

  /** What is played after going back. */
  function OrphanReplay(): seq<Event> {
    [AdvanceEvent(PEERS, [1])] + [SaveEvent(PEERS)] + [AdvanceEvent(PEERS, [])]
  }

  function OrphanRun(): seq<Event> {
    ReturnRun() + OrphanReplay()
  }

  lemma ResimulateTwo(s: Session, a: Input, b: Input)
    ensures Resimulate(s, [a] + [b]) == [AdvanceEvent(s, a)] + [SaveEvent(s)] + [AdvanceEvent(s, b)]
  {
    assert ([a] + [b])[..1] == [a];
  }

  lemma OrphanTurnsAreLegal(cfg: Config, w0: World, v: World)
    requires Despawning(cfg) && Home(w0, None, None) && Reached(cfg, w0, DespawnRun(), v) && v.frame == 1
    requires FreshHandles(v, PEERS, 0, BOTH_AGAIN)
    ensures Legal(cfg, w0, 8, OrphanTurns()) && EventsOf(OrphanTurns()) == OrphanRun()
  {
    DespawnTurnsAreLegal(cfg, w0, None);
    PlayTurn(cfg, w0, DespawnTurns(), v, Rewind(0, [[1]] + [[]], BOTH_AGAIN));
    ResimulateTwo(PEERS, [1], []);
  }

  /** And go back again: only Ann has to be respawned. */
  const ANN_AGAIN := Choice(map[RollbackId(ANN) := Entity(4)], 5)

  ghost predicate OnlyBob(pop: Pop) {
    pop.Keys == {NEW_BOB} && pop[NEW_BOB].rid == RollbackId(BOB) && pop[NEW_BOB].mark == None
  }

  lemma ChildlessGone(pop: Pop)
    requires NewCouple(pop)
    ensures OnlyBob(Despawned(pop, {NEW_ANN}))
  {
    assert Closed(pop, {NEW_ANN});
  }

  lemma NewCoupleFound(pop: Pop)
    requires NewCouple(pop)
    ensures Find(pop, RollbackId(ANN)) == Some(NEW_ANN)
  {
    assert Distinct(pop);
    FindVisible(pop, NEW_ANN);
  }

  lemma AnnGoes(t: World)
    requires t.ordered == BOTH && NewCouple(t.pop)
    ensures OnlyBob(Execute(t, Despawn(1)).pop) && Execute(t, Despawn(1)) == t.(pop := Execute(t, Despawn(1)).pop)
  {
    NewCoupleFound(t.pop);
    assert Resolve(t, 1) == Some(NEW_ANN);
    ChildlessGone(t.pop);
  }

  lemma DespawnAnn(cfg: Config, w0: World, es: seq<Event>, w: World) returns (v: World)
    requires Despawning(cfg) && Reached(cfg, w0, es, w) && Playing(w, 0, 4) && Saved(w) && NewCouple(w.pop)
    ensures Reached(cfg, w0, es + [AdvanceEvent(PEERS, [1])], v)
    ensures Playing(v, 1, 4) && v.history == w.history && OnlyBob(v.pop)
  {
    var t;
    v, t := PlayFrame(cfg, w0, es, w, [1], [Despawn(1)]);
    OneCommand(t, Despawn(1));
    AnnGoes(t);
  }

  /** Saving frame 1 puts another snapshot in front. */
  lemma SaveAgain(cfg: Config, w0: World, es: seq<Event>, v: World, s0: Snapshot) returns (w: World, s1: Snapshot)
    requires cfg.Valid() && Reached(cfg, w0, es, v) && Playing(v, 1, v.next) && v.history == [Entry(0, s0)]
    ensures Reached(cfg, w0, es + [SaveEvent(PEERS)], w)
    ensures s1 == Capture(cfg, v) && w == v.(history := [Entry(1, s1), Entry(0, s0)])
  {
    w := Reach(cfg, w0, es, v, SaveEvent(PEERS));
    assert Enter(v, PEERS) == v;
    s1 := Capture(cfg, v);
    SecondRecord(s0, s1);
  }

  lemma SecondRecord(s0: Snapshot, s1: Snapshot)
    ensures Recorded([Entry(0, s0)], -1, 1, s1, 8) == [Entry(1, s1), Entry(0, s0)]
  {
    EvictedIsTake([Entry(1, s1), Entry(0, s0)], 8);
  }

  lemma PlayIdle(cfg: Config, w0: World, es: seq<Event>, v: World) returns (w: World)
    requires Despawning(cfg) && Reached(cfg, w0, es, v) && Playing(v, 1, v.next) && Saved(v)
    ensures Reached(cfg, w0, es + [AdvanceEvent(PEERS, [])], w)
    ensures Playing(w, 2, v.next) && w.history == v.history && w.pop == v.pop
  {
    var t;
    w, t := PlayFrame(cfg, w0, es, v, [], []);
    assert ExecuteAll(t, []) == t;
  }

  lemma ReplayInOrder(es: seq<Event>)
    ensures es + OrphanReplay() == es + [AdvanceEvent(PEERS, [1])] + [SaveEvent(PEERS)] + [AdvanceEvent(PEERS, [])]
  {
  }

  lemma AnnDespawned(cfg: Config, w0: World, w: World, s: Snapshot) returns (v: World)
    requires Despawning(cfg) && Reached(cfg, w0, ReturnRun(), w)
    requires Playing(w, 0, 4) && w.history == [Entry(0, s)] && NewCouple(w.pop)
    ensures Reached(cfg, w0, OrphanRun(), v)
    ensures Playing(v, 2, 4) && RolledBack(v.history, 0) == [Entry(0, s)] && OnlyBob(v.pop)
  {
    var es := ReturnRun() + [AdvanceEvent(PEERS, [1])];
    var v1 := DespawnAnn(cfg, w0, ReturnRun(), w);
    var v2, s1 := SaveAgain(cfg, w0, es, v1, s);
    v := PlayIdle(cfg, w0, es + [SaveEvent(PEERS)], v2);
    ReplayInOrder(ReturnRun());
  }

  lemma OnlyAnnMissing(pop: Pop, s: Snapshot)
    requires OnlyBob(pop) && HomeSnapshot(s, None)
    ensures OnlyBob(Resurrected(pop, 0))
    ensures VisibleIds(Resurrected(pop, 0)) == {RollbackId(BOB)}
    ensures ChoiceOk(Resurrected(pop, 0), s.entities, 4, ANN_AGAIN)
    ensures !ParentFound(Resurrected(pop, 0), s, RollbackId(ANN), RollbackId(BOB))
  {
    var q := Resurrected(pop, 0);
    assert Visible(q, NEW_BOB);
    assert VisibleIds(q) == {RollbackId(BOB)};
  }

  /** With nobody to be seen, everything can be respawned and mapped, parents included. */
  lemma NobodyIsRestorable(pop: Pop, s: Snapshot)
    requires VisibleIds(pop) == {} && HomeSnapshot(s, None)
    ensures Restorable(pop, s)
  {
  }

  lemma DespawnRunRestores(cfg: Config, w0: World)
    ensures Restoring(cfg, w0, DespawnRun())
  {
    OnwardEvents(DespawnRun());
    OnwardRestores(cfg, w0, [], DespawnRun());
    assert [] + DespawnRun() == DespawnRun();
  }

  lemma NobodyRestoringAt(v: World, s: Snapshot)
    requires v.history == [Entry(0, s)] && HomeSnapshot(s, None) && forall e :: e !in v.pop
    ensures RestoringAt(v, LoadEvent(0, BOTH_AGAIN))
  {
    BothAreMissing(BeforeReconcile(v, 0), s, None);
    NobodyIsRestorable(BeforeReconcile(v, 0), s);
    assert RolledBack(v.history, 0) == v.history;
  }

  lemma ReturnRestores(cfg: Config, w0: World, v: World, s: Snapshot)
    requires Reached(cfg, w0, DespawnRun(), v) && v.history == [Entry(0, s)] && HomeSnapshot(s, None)
    requires forall e :: e !in v.pop
    ensures Restoring(cfg, w0, ReturnRun())
  {
    DespawnRunRestores(cfg, w0);
    NobodyRestoringAt(v, s);
    RestoringOn(cfg, w0, DespawnRun(), v, LoadEvent(0, BOTH_AGAIN));
  }

  /** Up to here all is well. */
  lemma OrphanRunRestores(cfg: Config, w0: World, v: World, s: Snapshot)
    requires Reached(cfg, w0, DespawnRun(), v) && v.history == [Entry(0, s)] && HomeSnapshot(s, None)
    requires forall e :: e !in v.pop
    ensures Restoring(cfg, w0, OrphanRun())
  {
    ReturnRestores(cfg, w0, v, s);
    OnwardEvents(OrphanReplay());
    OnwardRestores(cfg, w0, ReturnRun(), OrphanReplay());
  }

  /**
   A stream after which the game state is wrong. Ann is Bob's child. Despawn Bob in the first frame, Ann
   goes with him. Go back: both are respawned, Ann below Bob; despawn Ann instead, and play another
   frame. Go back again: Ann is respawned without her parent, because Bob is not on the handle that the
   snapshot has for him.
   */
  lemma SecondLoadOrphansChild(cfg: Config, w0: World, inputs: seq<Input>)
    requires Despawning(cfg) && Home(w0, None, None) && |inputs| == 3
    ensures Spoils(cfg, w0, OrphanTurns(), Rewind(0, inputs, ANN_AGAIN))
    ensures var w := RunFrom(cfg, w0, EventsOf(OrphanTurns()) + [LoadEvent(0, ANN_AGAIN)]).world;
            && Find(w.pop, RollbackId(ANN)).Some? && Find(w.pop, RollbackId(BOB)).Some?
            && w.pop[Find(w.pop, RollbackId(ANN)).value].parent != Find(w.pop, RollbackId(BOB))
  {
    var u, x, s := FamilyRespawned(cfg, w0, None);
    var v := AnnDespawned(cfg, w0, x, s);
    OnlyAnnMissing(v.pop, s);
    var w := LoadFirst(cfg, w0, OrphanRun(), v, s, None, ANN_AGAIN);
    OrphanTurnsAreLegal(cfg, w0, u);
    OrphanRunRestores(cfg, w0, u, s);
    BobIsRefused(v, s);
    LoadSpoils(cfg, w0, OrphanTurns(), v, Rewind(0, inputs, ANN_AGAIN), w);
    OrphanIsAlone(cfg, w0, v, s);
  }

  lemma OrphanIsAlone(cfg: Config, w0: World, v: World, s: Snapshot)
    requires Reached(cfg, w0, OrphanRun(), v) && CanLoad(v, 0, ANN_AGAIN)
    requires RolledBack(v.history, 0) == [Entry(0, s)] && HomeSnapshot(s, None) && OnlyBob(v.pop)
    ensures var q := LoadWorld(cfg, v, 0, ANN_AGAIN).pop;
            && Find(q, RollbackId(ANN)).Some? && Find(q, RollbackId(BOB)).Some?
            && q[Find(q, RollbackId(ANN)).value].parent != Find(q, RollbackId(BOB))
  {
    OnlyAnnMissing(v.pop, s);
    RunsAreCoherent(cfg, w0, OrphanRun());
    RunNeverPanics(cfg, w0, OrphanRun());
    LinkRestored(cfg, v, 0, ANN_AGAIN, RollbackId(ANN), RollbackId(BOB));
  }

  lemma BobIsRefused(v: World, s: Snapshot)
    requires RolledBack(v.history, 0) == [Entry(0, s)] && HomeSnapshot(s, None)
    requires !ParentFound(BeforeReconcile(v, 0), s, RollbackId(ANN), RollbackId(BOB))
    ensures !RestoringAt(v, LoadEvent(0, ANN_AGAIN))
  {
    assert Refers(s, Get(s.parents, RollbackId(ANN)), RollbackId(BOB));
  }

  /** A load that cannot restore everything ends a transparent run. */
  lemma LastEventSpoils(cfg: Config, w0: World, es: seq<Event>, v: World, ev: Event, w: World)
    requires cfg.Valid() && Restoring(cfg, w0, es) && RunFrom(cfg, w0, es) == Running(v) && !RestoringAt(v, ev)
    requires Conforming(cfg, w0, es + [ev]) && RunFrom(cfg, w0, es + [ev]) == Running(w)
    ensures !Restoring(cfg, w0, es + [ev])
    ensures !Faithful(cfg, ViewOf(w0), w, LatestInputs(es + [ev]))
  {
    assert (es + [ev])[..|es + [ev]| - 1] == es;
    RestoringOn(cfg, w0, es, v, ev);
    TransparencyIsExact(cfg, w0, es, ev);
  }

  /** So does the load of a legal batch. */
  lemma LoadSpoils(cfg: Config, w0: World, ts: seq<Turn>, v: World, t: Turn, w: World)
    requires cfg.Valid() && Played(cfg, w0, ts, v) && v.frame <= 8 && Restoring(cfg, w0, EventsOf(ts))
    requires t.session == PEERS && t.batch.Replay? && !RestoringAt(v, LoadOf(t))
    requires 0 <= t.batch.frame < v.frame && |t.batch.inputs| == v.frame - t.batch.frame + 1
    requires FreshHandles(v, PEERS, t.batch.frame, t.batch.choice)
    requires Reached(cfg, w0, EventsOf(ts) + [LoadOf(t)], w)
    ensures Spoils(cfg, w0, ts, t)
  {
    PlayTurn(cfg, w0, ts, v, t);
    LoadIsPart(ts, t);
    LastEventSpoils(cfg, w0, EventsOf(ts), v, LoadOf(t), w);
  }

  // ---- References: a load leaves the reference of a respawned component stale --------------------

  lemma ReferenceIsRefused(v: World, s: Snapshot)
    requires v.history == [Entry(0, s)] && HomeSnapshot(s, Some(BOB)) && forall e :: e !in v.pop
    ensures !ReferenceFound(BeforeReconcile(v, 0), s, RollbackId(ANN), RollbackId(BOB))
    ensures !RestoringAt(v, LoadEvent(0, BOTH_AGAIN))
  {
    assert RolledBack(v.history, 0) == v.history;
    BothAreMissing(BeforeReconcile(v, 0), s, Some(BOB));
    assert Refers(s, Get(s.likes, RollbackId(ANN)), RollbackId(BOB));
  }

  /**
   The same for a component's reference, one load earlier. Ann likes Bob. Despawn both in the first
   frame; go back: both are respawned, but Ann's reference is still to the handle that Bob had in the
   snapshot.
   */
  lemma LoadStalesReference(cfg: Config, w0: World, inputs: seq<Input>)
    requires Despawning(cfg) && Home(w0, Some(BOB), None) && |inputs| == 2
    ensures Spoils(cfg, w0, DespawnTurns(), Rewind(0, inputs, BOTH_AGAIN))
    ensures var w := RunFrom(cfg, w0, EventsOf(DespawnTurns()) + [LoadEvent(0, BOTH_AGAIN)]).world;
            && Find(w.pop, RollbackId(ANN)).Some? && Find(w.pop, RollbackId(BOB)).Some?
            && w.pop[Find(w.pop, RollbackId(ANN)).value].likes != Find(w.pop, RollbackId(BOB))
  {
    var v, w, s := FamilyRespawned(cfg, w0, Some(BOB));
    DespawnTurnsAreLegal(cfg, w0, Some(BOB));
    ReferenceSpoils(cfg, w0, v, w, s, inputs);
    ReferenceIsStale(cfg, w0, v, s);
  }

  lemma ReferenceSpoils(cfg: Config, w0: World, v: World, w: World, s: Snapshot, inputs: seq<Input>)
    requires cfg.Valid() && Played(cfg, w0, DespawnTurns(), v) && EventsOf(DespawnTurns()) == DespawnRun()
    requires v.history == [Entry(0, s)] && HomeSnapshot(s, Some(BOB)) && forall e :: e !in v.pop
    requires FreshHandles(v, PEERS, 0, BOTH_AGAIN) && Reached(cfg, w0, ReturnRun(), w) && |inputs| == 2
    ensures Spoils(cfg, w0, DespawnTurns(), Rewind(0, inputs, BOTH_AGAIN))
  {
    DespawnRunRestores(cfg, w0);
    ReferenceIsRefused(v, s);
    LoadSpoils(cfg, w0, DespawnTurns(), v, Rewind(0, inputs, BOTH_AGAIN), w);
  }

  lemma ReferenceIsStale(cfg: Config, w0: World, v: World, s: Snapshot)
    requires Reached(cfg, w0, DespawnRun(), v) && CanLoad(v, 0, BOTH_AGAIN)
    requires v.history == [Entry(0, s)] && HomeSnapshot(s, Some(BOB)) && forall e :: e !in v.pop
    ensures var q := LoadWorld(cfg, v, 0, BOTH_AGAIN).pop;
            && Find(q, RollbackId(ANN)).Some? && Find(q, RollbackId(BOB)).Some?
            && q[Find(q, RollbackId(ANN)).value].likes != Find(q, RollbackId(BOB))
  {
    assert RolledBack(v.history, 0) == v.history;
    ReferenceIsRefused(v, s);
    RunNeverPanics(cfg, w0, DespawnRun());
    RunsAreCoherent(cfg, w0, DespawnRun());
    LoadDragsNothing(v, 0);
    ComponentReferenceCoherent(cfg, v, 0, BOTH_AGAIN, RollbackId(ANN), RollbackId(BOB));
  }

  // ---- Soft despawn: a second mark loses a child that was hidden already --------------------------

  /** Hide Ann in the first frame and Bob in the second. */
  function HideTurns(): seq<Turn> {
    [Frame([1])] + [Frame([0])]
  }

  function HideAnn(): seq<Event> {
    [SaveEvent(PEERS)] + [AdvanceEvent(PEERS, [1])]
  }

  function HideBoth(): seq<Event> {
    HideAnn() + [SaveEvent(PEERS)] + [AdvanceEvent(PEERS, [0])]
  }

  /** The couple as they started, hidden by these marks. */
  ghost predicate Hidden(pop: Pop, bob: Option<int>, ann: Option<int>) {
    && pop.Keys == {BOB, ANN} && pop[BOB].rid == RollbackId(BOB) && pop[ANN].rid == RollbackId(ANN)
    && pop[BOB].mark == bob && pop[ANN].mark == ann && pop[BOB].parent == None && pop[ANN].parent == Some(BOB)
  }

  lemma AnnHidden(t: World)
    requires t.ordered == BOTH && t.frame == 1 && t.confirmed == -1 && Hidden(t.pop, None, None)
    ensures var t' := Execute(t, DespawnRollback(1));
            Hidden(t'.pop, None, Some(1)) && t' == t.(pop := t'.pop)
  {
    assert Distinct(t.pop);
    FindVisible(t.pop, ANN);
    assert Resolve(t, 1) == Some(ANN);
    assert Closed(t.pop, {ANN});
  }

  lemma BothHidden(t: World)
    requires t.ordered == BOTH && t.frame == 2 && t.confirmed == -1 && Hidden(t.pop, None, Some(1))
    ensures var t' := Execute(t, DespawnRollback(0));
            Hidden(t'.pop, Some(2), Some(2)) && t' == t.(pop := t'.pop)
  {
    assert Distinct(t.pop);
    FindVisible(t.pop, BOB);
    assert Resolve(t, 0) == Some(BOB);
    assert ChildOf(t.pop, ANN, Family(t.pop, {BOB}));
  }

  lemma FirstMark(cfg: Config, w0: World, decor: Option<int>) returns (w: World, s: Snapshot)
    requires Softly(cfg) && Home(w0, None, decor)
    ensures Reached(cfg, w0, HideAnn(), w)
    ensures Playing(w, 1, 2) && w.history == [Entry(0, s)] && HomeSnapshot(s, None) && Hidden(w.pop, None, Some(1))
  {
    var v, t;
    v, s := FirstSave(cfg, w0, None, decor);
    w, t := PlayFrame(cfg, w0, [SaveEvent(PEERS)], v, [1], [DespawnRollback(1)]);
    OneCommand(t, DespawnRollback(1));
    AnnHidden(t);
  }

  lemma OnlyBobCaptured(cfg: Config, w: World)
    requires Hidden(w.pop, None, Some(1))
    ensures Capture(cfg, w).entities.Keys == {RollbackId(BOB)}
  {
    assert Visible(w.pop, BOB);
    assert VisibleIds(w.pop) == {RollbackId(BOB)};
  }

  lemma SecondSave(cfg: Config, w0: World, v: World, s0: Snapshot) returns (w: World, s1: Snapshot)
    requires cfg.Valid() && Reached(cfg, w0, HideAnn(), v)
    requires Playing(v, 1, 2) && v.history == [Entry(0, s0)] && Hidden(v.pop, None, Some(1))
    ensures Reached(cfg, w0, HideAnn() + [SaveEvent(PEERS)], w)
    ensures w == v.(history := [Entry(1, s1), Entry(0, s0)]) && s1.entities.Keys == {RollbackId(BOB)}
  {
    w, s1 := SaveAgain(cfg, w0, HideAnn(), v, s0);
    OnlyBobCaptured(cfg, v);
  }

  lemma SecondMark(cfg: Config, w0: World, v: World) returns (w: World)
    requires Softly(cfg) && Reached(cfg, w0, HideAnn() + [SaveEvent(PEERS)], v)
    requires Playing(v, 1, 2) && Saved(v) && Hidden(v.pop, None, Some(1))
    ensures Reached(cfg, w0, HideBoth(), w)
    ensures Playing(w, 2, 2) && w.history == v.history && Hidden(w.pop, Some(2), Some(2))
  {
    var t;
    w, t := PlayFrame(cfg, w0, HideAnn() + [SaveEvent(PEERS)], v, [0], [DespawnRollback(0)]);
    OneCommand(t, DespawnRollback(0));
    BothHidden(t);
  }

  lemma AnnIsDoomed(v: World, s0: Snapshot, s1: Snapshot)
    requires Hidden(v.pop, Some(2), Some(2)) && v.history == [Entry(1, s1), Entry(0, s0)]
    requires HomeSnapshot(s0, None) && s1.entities.Keys == {RollbackId(BOB)}
    ensures Doomed(v, ANN, Entry(1, s1), Entry(0, s0)) && v.pop[ANN].rid == RollbackId(ANN)
  {
  }

  lemma HideTurnsAreLegal(cfg: Config, w0: World, decor: Option<int>, v: World)
    requires Softly(cfg) && Home(w0, None, decor) && Reached(cfg, w0, HideAnn(), v) && v.frame == 1
    ensures Legal(cfg, w0, 8, HideTurns()) && EventsOf(HideTurns()) == HideBoth()
  {
    HomeStarts(cfg, w0, None, decor);
    OneTurn(Frame([1]));
    PlayTurn(cfg, w0, [], w0, Frame([1]));
    assert [] + [Frame([1])] == [Frame([1])];
    PlayTurn(cfg, w0, [Frame([1])], v, Frame([0]));
  }

  lemma DoubleMark(cfg: Config, w0: World, decor: Option<int>) returns (v: World, s0: Snapshot, s1: Snapshot)
    requires Softly(cfg) && Home(w0, None, decor)
    ensures Reached(cfg, w0, HideBoth(), v) && Playing(v, 2, 2) && Hidden(v.pop, Some(2), Some(2))
    ensures v.history == [Entry(1, s1), Entry(0, s0)] && HomeSnapshot(s0, None) && s1.entities.Keys == {RollbackId(BOB)}
    ensures Legal(cfg, w0, 8, HideTurns()) && EventsOf(HideTurns()) == HideBoth()
  {
    var u;
    v, s0 := FirstMark(cfg, w0, decor);
    HideTurnsAreLegal(cfg, w0, decor, v);
    u, s1 := SecondSave(cfg, w0, v, s0);
    v := SecondMark(cfg, w0, u);
  }

  lemma AllMayBeAsked(cfg: Config, w0: World, ts: seq<Turn>)
    requires Horizon(cfg, w0, EventsOf(ts)) == 0 && |ts| <= 7
    ensures AskedLater(cfg, w0, 8, ts) == 0
  {
    SettledIsZero(cfg, w0, EventsOf(ts));
  }

  /**
   A legal stream of a softly despawning game that loses an entity, whatever is played in its replays.
   Hide Ann; hide Bob, which marks Ann a second time. Go back to frame 1, which shows Ann again and
   despawns her as an extra. Go back to frame 0, which has to respawn her: under another handle, and
   without her unregistered component. By the end of the batch that is still so.
   */
  lemma SecondMarkLosesChild(cfg: Config, w0: World, decor: Option<int>, inputs1: seq<Input>, inputs2: seq<Input>)
    returns (t1: Turn, t2: Turn)
    requires Softly(cfg) && Home(w0, None, decor) && |inputs1| == 2 && |inputs2| == 4
    ensures t1.batch.Replay? && t1 == Rewind(1, inputs1, t1.batch.choice)
    ensures t2.batch.Replay? && t2 == Rewind(0, inputs2, t2.batch.choice)
    ensures Legal(cfg, w0, 8, HideTurns() + [t1] + [t2]) && w0.pop[ANN].decor == decor
    ensures RunFrom(cfg, w0, EventsOf(HideTurns() + [t1]) + [LoadOf(t2)]).Running?
    ensures RunFrom(cfg, w0, EventsOf(HideTurns() + [t1] + [t2])).Running?
    ensures var w := RunFrom(cfg, w0, EventsOf(HideTurns() + [t1]) + [LoadOf(t2)]).world;
            && Respawned(w, t2.batch.choice, RollbackId(ANN), ANN)
            && Confined(RunFrom(cfg, w0, EventsOf(HideTurns() + [t1] + [t2])).world, RollbackId(ANN),
                        {t2.batch.choice.spawned[RollbackId(ANN)]})
  {
    var v, s0, s1 := DoubleMark(cfg, w0, decor);
    AnnIsDoomed(v, s0, s1);
    AllMayBeAsked(cfg, w0, HideTurns());
    t1, t2 := DoomedCanBeLost(cfg, w0, 8, HideTurns(), ANN, Entry(1, s1), Entry(0, s0), PEERS, inputs1, inputs2);
    DoomedIsLost(cfg, w0, 8, HideTurns(), t1, t2, ANN, Entry(1, s1), Entry(0, s0));
  }

  // ---- There are such games --------------------------------------------------------------------

  function Wrap(x: Value): Stored { Stored([x]) }

  function Unwrap(s: Stored): Value { if |s.payload| == 1 then s.payload[0] else 0 }

  lemma PlainIsLawful(plain: Strategy<Value, Stored>)
    requires plain == Strategy(Wrap, Unwrap, (x: Value, s: Stored) => Unwrap(s))
    ensures plain.Lawful()
  {
  }

  /** Any number of frames per second, and a world with whatever Ann is to like and to wear. */
  lemma SuchGamesExist(rate: nat, likes: Option<Entity>, decor: Option<int>)
    returns (hard: Config, soft: Config, w0: World)
    requires rate >= 1 && (likes.Some? ==> likes.value == BOB)
    ensures Despawning(hard) && Softly(soft) && Home(w0, likes, decor)
  {
    var plain := Strategy(Wrap, Unwrap, (x: Value, s: Stored) => Unwrap(s));
    PlainIsLawful(plain);
    var logic := (_: View, input: Input) => if Target(input).Some? then [Despawn(Target(input).value)] else [];
    hard := Config(logic, rate, plain, plain);
    logic := (_: View, input: Input) => if Target(input).Some? then [DespawnRollback(Target(input).value)] else [];
    soft := Config(logic, rate, plain, plain);
    w0 := World(map[BOB := Blank(RollbackId(BOB)), ANN := Child(likes, decor)], 2, BOTH, None, None, Clock(0, 0), 0,
                0, 0, 0, map[], []);
  }
}