/**
 The rollback engine as a value: the world, the three schedules (save, load, advance) and the
 request interpreter. The classes of `Engine.dfy` are proved to compute these functions.
 */
module WorldModel {
  import opened Prelude
  import opened Population
  import opened Ordering
  import opened SnapshotQueue

  /** What a strategy keeps of a value. */
  datatype Stored = Stored(payload: seq<int>)

  /** How a component or resource is turned into its stored form and back. */
  datatype Strategy<!T(!new), !S> = Strategy(Store: T -> S, Load: S -> T, Update: (T, S) -> T) {
    ghost predicate Lawful() {
      && (forall x: T :: Load(Store(x)) == x)
      && (forall x: T, y: T :: Update(y, Store(x)) == x)
    }
  }

  /** All players' inputs for one frame. */
  type Input = seq<int>

  datatype Clock = Clock(elapsed: nat, delta: nat)

  /** What deterministic game logic may look at: entities, and whom they refer to, by registration index. */
  datatype View = View(
    frame: int,
    bodies: map<int, Option<Value>>,
    parents: map<int, int>,
    likes: map<int, int>,
    favourite: Option<int>,
    count: nat,
    resource: Option<Value>,
    clock: Clock)

  datatype Command =
    | Spawn(value: Option<Value>, parentIndex: Option<nat>, decor: Option<int>)
    | SetValue(target: nat, newValue: Value)
    | ClearValue(target: nat)
    | SetLikes(target: nat, liked: nat)
    | Despawn(target: nat)
    | DespawnRollback(target: nat)
    | SetResource(newValue: Value)
    | ClearResource
    | SetFavourite(liked: nat)

  datatype Config = Config(
    logic: (View, Input) -> seq<Command>,
    rate: nat,
    values: Strategy<Value, Stored>,
    resources: Strategy<Value, Stored>)
  {
    ghost predicate Valid() {
      rate >= 1 && values.Lawful() && resources.Lawful()
    }
  }

  /** One saved frame: a map per component type, keyed by rollback id, and a copy per resource. */
  datatype Snapshot = Snapshot(
    entities: map<RollbackId, Entity>,
    values: map<RollbackId, Stored>,
    likes: map<RollbackId, Entity>,
    parents: map<RollbackId, Entity>,
    resource: Option<Stored>,
    favourite: Option<Entity>,
    ordered: Order,
    clock: Clock)

  datatype World = World(
    pop: Pop,
    next: nat,
    ordered: Order,
    resource: Option<Value>,
    favourite: Option<Entity>,
    clock: Clock,
    frame: int,
    confirmed: int,
    window: nat,
    scanned: int,
    entityMap: map<Entity, Entity>,
    history: seq<Entry<Snapshot>>)

  // ---- The view of game logic ----------------------------------------------------------------

  ghost function Bodies(pop: Pop, sorted: seq<RollbackId>): map<int, Option<Value>> {
    map i | 0 <= i < |sorted| && Find(pop, sorted[i]).Some? :: pop[Find(pop, sorted[i]).value].value
  }

  /** The registration index of the visible entity that a handle means, if it means one. */
  function ReferenceIndex(pop: Pop, o: Order, r: Option<Entity>): Option<int> {
    if r.Some? && Visible(pop, r.value) && pop[r.value].rid in o.order then Some(o.order[pop[r.value].rid]) else None
  }

  function ParentLink(b: Body): Option<Entity> { b.parent }

  function LikesLink(b: Body): Option<Entity> { b.likes }

  /** Whom the visible entities refer to, both by registration index. */
  ghost function Links(pop: Pop, o: Order, link: Body -> Option<Entity>): map<int, int> {
    map i | 0 <= i < |o.sorted| && Find(pop, o.sorted[i]).Some?
            && ReferenceIndex(pop, o, link(pop[Find(pop, o.sorted[i]).value])).Some? ::
      ReferenceIndex(pop, o, link(pop[Find(pop, o.sorted[i]).value])).value
  }

  ghost function Parents(pop: Pop, o: Order): map<int, int> {
    Links(pop, o, ParentLink)
  }

  ghost function Likes(pop: Pop, o: Order): map<int, int> {
    Links(pop, o, LikesLink)
  }

  ghost function ViewOf(w: World): View {
    View(w.frame, Bodies(w.pop, w.ordered.sorted), Parents(w.pop, w.ordered), Likes(w.pop, w.ordered),
         ReferenceIndex(w.pop, w.ordered, w.favourite), |w.ordered.sorted|, w.resource, w.clock)
  }

  // ---- SaveWorld -----------------------------------------------------------------------------

  ghost function CaptureEntities(pop: Pop): map<RollbackId, Entity> {
    map x | x in VisibleIds(pop) :: Find(pop, x).value
  }

  ghost function CaptureValues(cfg: Config, pop: Pop): map<RollbackId, Stored> {
    map x | x in VisibleIds(pop) && pop[Find(pop, x).value].value.Some? ::
      cfg.values.Store(pop[Find(pop, x).value].value.value)
  }

  ghost function CaptureLikes(pop: Pop): map<RollbackId, Entity> {
    map x | x in VisibleIds(pop) && pop[Find(pop, x).value].likes.Some? :: pop[Find(pop, x).value].likes.value
  }

  ghost function CaptureParents(pop: Pop): map<RollbackId, Entity> {
    map x | x in VisibleIds(pop) && pop[Find(pop, x).value].parent.Some? :: pop[Find(pop, x).value].parent.value
  }

  function StoreOption(s: Strategy<Value, Stored>, r: Option<Value>): Option<Stored> {
    if r.Some? then Some(s.Store(r.value)) else None
  }

  ghost function Capture(cfg: Config, w: World): Snapshot {
    Snapshot(CaptureEntities(w.pop), CaptureValues(cfg, w.pop), CaptureLikes(w.pop), CaptureParents(w.pop),
             StoreOption(cfg.resources, w.resource), w.favourite, w.ordered, w.clock)
  }

  ghost function SaveWorld(cfg: Config, w: World): World {
    w.(history := Recorded(w.history, w.confirmed, w.frame, Capture(cfg, w), w.window))
  }

  // ---- LoadWorld -----------------------------------------------------------------------------

  /** Marks made after the loaded frame are lifted. */
  function Resurrected(pop: Pop, frame: int): Pop {
    map e | e in pop ::
      if pop[e].mark.Some? && pop[e].mark.value > frame then pop[e].(mark := None) else pop[e]
  }

  /** Visible entities the snapshot does not know. */
  function Extras(pop: Pop, saved: map<RollbackId, Entity>): set<Entity> {
    set e | e in pop && Visible(pop, e) && pop[e].rid !in saved
  }

  /** Visible entities the snapshot knows. */
  function Survivors(pop: Pop, saved: map<RollbackId, Entity>): set<Entity> {
    set e | e in pop && Visible(pop, e) && pop[e].rid in saved
  }

  /** Saved identities without a visible entity. */
  function Missing(pop: Pop, saved: map<RollbackId, Entity>): set<RollbackId> {
    saved.Keys - VisibleIds(pop)
  }

  /** The handles handed out to respawned entities, and the allocator position afterwards. */
  datatype Choice = Choice(spawned: map<RollbackId, Entity>, next: nat)

  const NO_CHOICE := Choice(map[], 0)

  ghost predicate ChoiceOk(pop: Pop, saved: map<RollbackId, Entity>, next: nat, c: Choice) {
    && c.spawned.Keys == Missing(pop, saved)
    && next <= c.next
    && (forall x :: x in c.spawned ==> next <= c.spawned[x].id < c.next)
    && (forall x, y :: x in c.spawned && y in c.spawned && c.spawned[x] == c.spawned[y] ==> x == y)
  }

  ghost function KeyOf<K, V>(m: map<K, V>, v: V): (k: K)
    requires v in m.Values
    ensures k in m && m[k] == v
  {
    var k :| k in m && m[k] == v;
    k
  }

  /** A respawned entity starts with its identity and nothing else. */
  function Blank(x: RollbackId): Body {
    Body(x, None, None, None, None, None)
  }

  ghost function Reconciled(pop: Pop, saved: map<RollbackId, Entity>, spawned: map<RollbackId, Entity>): Pop {
    Despawned(pop, Extras(pop, saved)) + (map e | e in spawned.Values :: Blank(KeyOf(spawned, e)))
  }

  /** The handles the respawned entities had in the snapshot. */
  function Lost(saved: map<RollbackId, Entity>, spawned: map<RollbackId, Entity>): map<RollbackId, Entity> {
    map x | x in spawned && x in saved :: saved[x]
  }

  /** `current -> saved` for survivors, `saved -> fresh` for respawned entities. */
  ghost function EntityMapOf(pop: Pop, saved: map<RollbackId, Entity>, spawned: map<RollbackId, Entity>)
    : map<Entity, Entity>
  {
    map e | e in Survivors(pop, saved) + Lost(saved, spawned).Values ::
      if e in Survivors(pop, saved) then saved[pop[e].rid] else spawned[KeyOf(Lost(saved, spawned), e)]
  }

  /** The mutable loader: update, remove or insert. */
  function RestoredValue(s: Strategy<Value, Stored>, current: Option<Value>, saved: Option<Stored>): Option<Value> {
    match (current, saved)
    case (Some(c), Some(v)) => Some(s.Update(c, v))
    case (Some(_), None) => None
    case (None, Some(v)) => Some(s.Load(v))
    case (None, None) => None
  }

  /** The immutable loader: re-insert or remove. */
  function ReinsertedValue(s: Strategy<Value, Stored>, current: Option<Value>, saved: Option<Stored>): Option<Value> {
    match (current, saved)
    case (_, Some(v)) => Some(s.Load(v))
    case (Some(_), None) => None
    case (None, None) => None
  }

  function RestoredParent(current: Option<Entity>, saved: Option<Entity>, m: map<Entity, Entity>): Option<Entity> {
    match (current, saved)
    case (Some(_), None) => None
    case (_, Some(p)) => if p in m then Some(m[p]) else current
    case (None, None) => None
  }

  function RestoreValues(cfg: Config, pop: Pop, values: map<RollbackId, Stored>): Pop {
    map e | e in pop ::
      if Visible(pop, e) then pop[e].(value := RestoredValue(cfg.values, pop[e].value, Get(values, pop[e].rid)))
      else pop[e]
  }

  function ReinsertValues(cfg: Config, pop: Pop, values: map<RollbackId, Stored>): Pop {
    map e | e in pop ::
      if Visible(pop, e) then pop[e].(value := ReinsertedValue(cfg.values, pop[e].value, Get(values, pop[e].rid)))
      else pop[e]
  }

  function RestoreLikes(pop: Pop, likes: map<RollbackId, Entity>): Pop {
    map e | e in pop :: if Visible(pop, e) then pop[e].(likes := Get(likes, pop[e].rid)) else pop[e]
  }

  function RestoreParents(pop: Pop, parents: map<RollbackId, Entity>, m: map<Entity, Entity>): Pop {
    map e | e in pop ::
      if Visible(pop, e) then pop[e].(parent := RestoredParent(pop[e].parent, Get(parents, pop[e].rid), m)) else pop[e]
  }

  /** The mapper's answer: the recorded entity, or the argument itself. */
  function GetMapped(m: map<Entity, Entity>, e: Entity): Entity {
    if e in m then m[e] else e
  }

  function MappedReference(m: map<Entity, Entity>, r: Option<Entity>): Option<Entity> {
    if r.Some? then Some(GetMapped(m, r.value)) else None
  }

  /** Only components held by keys of the map are visited. */
  function MapLikes(pop: Pop, m: map<Entity, Entity>): Pop {
    map e | e in pop :: if e in m then pop[e].(likes := MappedReference(m, pop[e].likes)) else pop[e]
  }

  /** The population a load starts reconciling from. */
  function BeforeReconcile(w: World, frame: int): Pop {
    Resurrected(w.pop, frame)
  }

  ghost function LoadedPop(cfg: Config, pop: Pop, s: Snapshot, spawned: map<RollbackId, Entity>): Pop {
    var m := EntityMapOf(pop, s.entities, spawned);
    var p1 := Reconciled(pop, s.entities, spawned);
    var p2 := RestoreValues(cfg, p1, s.values);
    var p3 := RestoreLikes(p2, s.likes);
    var p4 := RestoreParents(p3, s.parents, m);
    MapLikes(p4, m)
  }

  ghost function LoadWorld(cfg: Config, w: World, frame: int, c: Choice): World
    requires RolledBack(w.history, frame) != []
  {
    var history := RolledBack(w.history, frame);
    var s := history[0].data;
    var pop := BeforeReconcile(w, frame);
    var m := EntityMapOf(pop, s.entities, c.spawned);
    w.(pop := LoadedPop(cfg, pop, s, c.spawned),
       next := c.next,
       ordered := s.ordered,
       resource := RestoredValue(cfg.resources, w.resource, s.resource),
       favourite := MappedReference(m, s.favourite),
       clock := s.clock,
       frame := frame,
       entityMap := m,
       history := history)
  }

  // ---- AdvanceWorld --------------------------------------------------------------------------

  const NANOS := 1_000_000_000
  const U64 := 0x1_0000_0000_0000_0000

  /** The run time of a frame in nanoseconds, in 64-bit arithmetic as the code has it. */
  function RuntimeNanos(frame: int, rate: nat): nat
    requires rate >= 1
  {
    ((frame % U64) * NANOS % U64) / rate
  }

  function Ticked(clock: Clock, runtime: nat): Clock
    requires clock.elapsed <= runtime
  {
    Clock(runtime, runtime - clock.elapsed)
  }

  /** Entities whose mark is at or before the confirmed frame go for good. */
  function ConfirmedGone(pop: Pop, confirmed: int): set<Entity> {
    set e | e in pop && pop[e].mark.Some? && pop[e].mark.value <= confirmed
  }

  ghost function DespawnConfirmed(w: World): World {
    if w.confirmed == w.scanned then w
    else w.(pop := Despawned(w.pop, ConfirmedGone(w.pop, w.confirmed)), scanned := w.confirmed)
  }

  ghost function Resolve(w: World, index: nat): Option<Entity> {
    if index < |w.ordered.sorted| then Find(w.pop, w.ordered.sorted[index]) else None
  }

  ghost function ResolveOption(w: World, index: Option<nat>): Option<Entity> {
    if index.Some? then Resolve(w, index.value) else None
  }

  ghost function Execute(w: World, c: Command): World {
    match c
    case Spawn(v, p, d) =>
      var e := Entity(w.next);
      w.(pop := w.pop[e := Body(RollbackId(e), None, v, None, ResolveOption(w, p), d)],
         next := w.next + 1,
         ordered := Register(w.ordered, RollbackId(e)))
    case SetValue(t, v) =>
      var e := Resolve(w, t);
      if e.Some? then w.(pop := w.pop[e.value := w.pop[e.value].(value := Some(v))]) else w
    case ClearValue(t) =>
      var e := Resolve(w, t);
      if e.Some? then w.(pop := w.pop[e.value := w.pop[e.value].(value := None)]) else w
    case SetLikes(t, l) =>
      var e := Resolve(w, t);
      if e.Some? then w.(pop := w.pop[e.value := w.pop[e.value].(likes := Resolve(w, l))]) else w
    case Despawn(t) =>
      var e := Resolve(w, t);
      if e.Some? then w.(pop := Despawned(w.pop, {e.value})) else w
    case DespawnRollback(t) =>
      var e := Resolve(w, t);
      if e.None? then w
      else if w.confirmed < w.frame then w.(pop := Marked(w.pop, {e.value}, w.frame))
      else w.(pop := Despawned(w.pop, {e.value}))
    case SetResource(v) => w.(resource := Some(v))
    case ClearResource => w.(resource := None)
    case SetFavourite(l) => w.(favourite := Resolve(w, l))
  }

  ghost function ExecuteAll(w: World, cs: seq<Command>): World {
    if cs == [] then w else Execute(ExecuteAll(w, cs[..|cs| - 1]), cs[|cs| - 1])
  }

  /** The clock refuses to go backwards, and the frame counter has 31 bits. */
  predicate CanAdvance(cfg: Config, w: World) {
    cfg.rate >= 1 && w.frame < I32_MAX && w.clock.elapsed <= RuntimeNanos(w.frame + 1, cfg.rate)
  }

  /** The frame counter and the clock move on first. */
  function Tick(cfg: Config, w: World): World
    requires CanAdvance(cfg, w)
  {
    w.(frame := w.frame + 1, clock := Ticked(w.clock, RuntimeNanos(w.frame + 1, cfg.rate)))
  }

  ghost function BeforeLogic(cfg: Config, w: World): World
    requires CanAdvance(cfg, w)
  {
    DespawnConfirmed(Tick(cfg, w))
  }

  ghost function AdvanceWorld(cfg: Config, w: World, input: Input): World
    requires CanAdvance(cfg, w)
  {
    var w1 := BeforeLogic(cfg, w);
    ExecuteAll(w1, cfg.logic(ViewOf(w1), input))
  }

  // ---- Requests ------------------------------------------------------------------------------

  datatype Session =
    | P2P(maxPrediction: nat, confirmedFrame: int)
    | SyncTest(maxPrediction: nat, checkDistance: nat)
    | Spectator
    | NoSession

  datatype Request = Save | Load(frame: int) | Advance(input: Input)

  function Window(s: Session): Option<nat> {
    match s
    case P2P(m, _) => Some(m)
    case SyncTest(m, _) => Some(m)
    case Spectator => Some(0)
    case NoSession => None
  }

  /** The confirmed frame the session reports while the world is at `frame`. */
  function ConfirmedBy(s: Session, frame: int): Option<int> {
    match s
    case P2P(_, c) => Some(c)
    case SyncTest(_, d) => if frame - d >= 0 then Some(frame - d) else None
    case Spectator => Some(frame)
    case NoSession => None
  }

  /** The two resources that are refreshed before every request. */
  function Enter(w: World, s: Session): World {
    w.(window := Window(s).GetOr(w.window), confirmed := ConfirmedBy(s, w.frame).GetOr(w.confirmed))
  }

  /** A request as it was served: under which session, and with which fresh handles. */
  datatype Event = Event(session: Session, request: Request, choice: Choice)

  /** A world, or a panic of the original. */
  datatype Outcome = Running(world: World) | Panicked

  ghost function Step(cfg: Config, w0: World, ev: Event): Outcome {
    var w := Enter(w0, ev.session);
    match ev.request
    case Save => Running(SaveWorld(cfg, w))
    case Load(r) => if RolledBack(w.history, r) == [] then Panicked else Running(LoadWorld(cfg, w, r, ev.choice))
    case Advance(i) => if CanAdvance(cfg, w) then Running(AdvanceWorld(cfg, w, i)) else Panicked
  }

  ghost function RunFrom(cfg: Config, w: World, es: seq<Event>): Outcome {
    if es == [] then Running(w)
    else
      match RunFrom(cfg, w, es[..|es| - 1])
      case Running(v) => Step(cfg, v, es[|es| - 1])
      case Panicked => Panicked
  }
}
