/**
 The fixed-timestep accumulator: how many times an update of the app steps the session, and that the
 engine interprets what the session requests in each of these steps.
 */
module Timestep {
  import opened WorldModel
  import opened Soundness
  import opened Runs
  import opened Checksums
  import Driver
  import Engine

  /** The largest representable duration, in nanoseconds. */
  const DURATION_MAX := U64 * NANOS - 1

  /** The frame period; running slow makes it 11/10 as long. */
  function Period(runSlow: bool, rate: nat): nat
    requires rate >= 1
  {
    if runSlow then Quotient(NANOS * 11, rate * 10) else Quotient(NANOS, rate)
  }

  function Quotient(n: nat, d: nat): nat
    requires d >= 1
  {
    n / d
  }

  function SaturatingAdd(a: nat, b: nat): nat {
    if a + b <= DURATION_MAX then a + b else DURATION_MAX
  }

  function SaturatingSub(a: nat, b: nat): nat {
    if b <= a then a - b else 0
  }

  datatype State = State(accumulator: nat, runSlow: bool)

  /**
   What one update sees: the time passed, the session if there is one, and for each step whether we
   are ahead of the others, what is confirmed, and which requests the session issues, if any.
   */
  datatype Update = Update(
    delta: nat,
    session: Session,
    ahead: nat -> bool,
    confirmed: nat -> int,
    requests: nat -> seq<Request>)

  /** The session as it is in step `k` of the update. */
  function SessionAt(u: Update, k: nat): Session {
    if u.session.P2P? then u.session.(confirmedFrame := u.confirmed(k)) else u.session
  }

  /** The time an update has to spend. */
  function Total(st: State, u: Update): nat {
    SaturatingAdd(st.accumulator, u.delta)
  }

  /** With a session, as many steps are taken as whole periods fit. */
  function Steps(st: State, u: Update, rate: nat): nat
    requires rate >= 1 && Period(st.runSlow, rate) >= 1
  {
    if u.session.NoSession? then 0 else Total(st, u) / Period(st.runSlow, rate)
  }

  /** Without a session, the time of a whole period or more is thrown away. */
  function Discarded(st: State, u: Update, rate: nat): nat
    requires rate >= 1
  {
    if u.session.NoSession? && Total(st, u) >= Period(st.runSlow, rate) then Total(st, u) else 0
  }

  /** The specification: what the steps do not consume is kept; a discard resets everything. */
  function After(st: State, u: Update, rate: nat): State
    requires rate >= 1 && Period(st.runSlow, rate) >= 1
  {
    if u.session.NoSession? then
      if Total(st, u) >= Period(st.runSlow, rate) then State(0, false) else State(Total(st, u), st.runSlow)
    else
      var n := Steps(st, u, rate);
      State(Total(st, u) % Period(st.runSlow, rate), if u.session.P2P? && n > 0 then u.ahead(n - 1) else st.runSlow)
  }

  function Least(a: int, b: int): int {
    if a <= b then a else b
  }

  /**
   What one update with a session does to the timestep data: of the time there is, which is at most the
   longest duration, whole periods are spent and the rest is kept. Running slow is up to the last step.
   */
  ghost predicate SpendsPeriods(st: State, u: Update, period: nat, steps: nat, now: State) {
    && now.accumulator < period
    && steps * period + now.accumulator == Least(st.accumulator + u.delta, 0x1_0000_0000_0000_0000 * 1_000_000_000 - 1)
    && now.runSlow == if u.session.P2P? && steps > 0 then u.ahead(steps - 1) else st.runSlow
  }

  lemma AfterSpends(st: State, u: Update, rate: nat)
    requires rate >= 1 && Period(st.runSlow, rate) >= 1 && !u.session.NoSession?
    ensures SpendsPeriods(st, u, Period(st.runSlow, rate), Steps(st, u, rate), After(st, u, rate))
  {
    Divide(Total(st, u), Period(st.runSlow, rate));
  }

  /**
   And one without a session: short of a period, time is kept and the engine left alone; else the
   timestep data is reset, the frame is 0, nothing is confirmed and the window is 8.
   */
  ghost predicate Idles(st: State, delta: nat, period: nat, now: State, before: World, w: World) {
    if st.accumulator + delta < period then now == State(st.accumulator + delta, st.runSlow) && w == before
    else now == State(0, false) && w == before.(frame := 0, confirmed := -1, window := 8)
  }

  /** The loop terminates exactly when the period is not zero. */
  lemma PeriodPositive(runSlow: bool, rate: nat)
    requires rate >= 1
    ensures Period(runSlow, rate) >= 1 <==> if runSlow then rate * 10 <= NANOS * 11 else rate <= NANOS
  {
    if runSlow {
      QuotientPositive(NANOS * 11, rate * 10);
    } else {
      QuotientPositive(NANOS, rate);
    }
  }

  /** The period in nanoseconds, written out: a second over the rate, or eleven tenths of that, rounded down. */
  lemma PeriodIs(rate: nat)
    requires rate >= 1
    ensures rate * Period(false, rate) <= 1_000_000_000 < rate * (Period(false, rate) + 1)
    ensures 10 * rate * Period(true, rate) <= 11_000_000_000 < 10 * rate * (Period(true, rate) + 1)
  {
    QuotientIs(1_000_000_000, rate);
    QuotientIs(11_000_000_000, 10 * rate);
  }

  lemma QuotientIs(n: nat, d: nat)
    requires d >= 1
    ensures d * Quotient(n, d) <= n < d * (Quotient(n, d) + 1)
  {
    Divide(n, d);
    OneMore(d, n / d);
  }

  lemma OneMore(d: nat, q: nat)
    ensures d * (q + 1) == q * d + d && d * q == q * d
  {
  }

  lemma QuotientPositive(n: nat, d: nat)
    requires d >= 1
    ensures Quotient(n, d) >= 1 <==> d <= n
  {
    if d <= n {
      QuotientAtLeast(n, d, 1);
    } else {
      QuotientBelow(n, d, 1);
    }
  }

  lemma QuotientAtLeast(x: nat, d: nat, q: nat)
    requires d >= 1 && q * d <= x
    ensures q <= Quotient(x, d)
  {
    if x / d < q { MultiplyMonotone(x / d + 1, q, d); }
  }

  lemma QuotientBelow(x: nat, d: nat, q: nat)
    requires d >= 1 && x < q * d
    ensures Quotient(x, d) < q
  {
    if x / d >= q { MultiplyMonotone(q, x / d, d); }
  }

  // ---- One update ------------------------------------------------------------------------------

  function Flatten<T>(parts: seq<seq<T>>): seq<T> {
    if parts == [] then [] else Flatten(parts[..|parts| - 1]) + parts[|parts| - 1]
  }

  /** The events of the first steps, each step answering its own requests; all but the last in full. */
  ghost predicate Stepped(u: Update, played: seq<seq<Event>>) {
    forall k :: 0 <= k < |played| ==>
      && Engine.Answers(SessionAt(u, k), u.requests(k), played[k])
      && (k < |played| - 1 ==> |played[k]| == |u.requests(k)|)
  }

  ghost predicate LastInFull(u: Update, played: seq<seq<Event>>) {
    played != [] ==> |played[|played| - 1]| == |u.requests(|played| - 1)|
  }

  /** After `k` steps the engine is where the requests of these steps have led it. */
  ghost predicate Ongoing(cfg: Config, u: Update, k: nat, before: World, played: seq<seq<Event>>, ok: bool, w: World) {
    && Sound(before) && |played| == k && Stepped(u, played) && (ok ==> LastInFull(u, played))
    && Engine.Report(ok, w) == RunFrom(cfg, before, Flatten(played))
    && Genuine(cfg, before, Flatten(played))
  }

  /** The timestep data after one round of the loop. */
  function Spent(now: State, u: Update, period: nat, k: nat): State
    requires period <= now.accumulator
  {
    if u.session.NoSession? then State(0, false)
    else State(now.accumulator - period, if u.session.P2P? then u.ahead(k) else now.runSlow)
  }

  lemma SteppedOn(u: Update, played: seq<seq<Event>>, es: seq<Event>)
    requires Stepped(u, played) && LastInFull(u, played)
    requires Engine.Answers(SessionAt(u, |played|), u.requests(|played|), es)
    ensures Stepped(u, played + [es])
  {
  }

  lemma FlattenOn<T>(parts: seq<seq<T>>, part: seq<T>)
    ensures Flatten(parts + [part]) == Flatten(parts) + part
  {
    assert (parts + [part])[..|parts + [part]| - 1] == parts;
  }

  class FixedTimestep {
    var accumulator: nat
    var runSlow: bool

    constructor ()
      ensures accumulator == 0 && !runSlow
    {
      accumulator, runSlow := 0, false;
    }

    /** One step of the session: the engine interprets what it requests, after what it has served so far. */
    method StepSession<T(!new)>(engine: Engine.World, u: Update, k: nat, h: Hashing<T>,
                                ghost before: World, ghost played: seq<seq<Event>>)
      returns (ok: bool, cells: seq<Cell<T>>, ghost es: seq<Event>)
      requires h.mixer.Lawful()
      requires engine.Valid() && Ongoing(engine.cfg, u, k, before, played, true, engine.State())
      modifies engine, engine.entities, engine.values, engine.likes, engine.parents
      modifies engine.resources, engine.favourites, engine.orders, engine.clocks
      ensures ok ==> engine.Valid()
      ensures Ongoing(engine.cfg, u, k + 1, before, played + [es], ok, engine.State())
      ensures Reports(h, engine.cfg, before, Flatten(played + [es]))
          == Reports(h, engine.cfg, before, Flatten(played)) + cells
    {
      ghost var w := engine.State();
      Engine.GenuineRunsAreSound(engine.cfg, before, Flatten(played));
      ok, cells, es := engine.HandleRequests(SessionAt(u, k), u.requests(k), h);
      FlattenOn(played, es);
      SteppedOn(u, played, es);
      RunOn(engine.cfg, before, Flatten(played), w, es);
      Driver.GenuineOn(engine.cfg, before, Flatten(played), w, es);
      Driver.ReportsOn(h, engine.cfg, before, Flatten(played), w, es);
    }

    /** A period is taken from the accumulator; without a session everything is reset. */
    method SpendPeriod(u: Update, period: nat, k: nat)
      requires period <= accumulator
      modifies this
      ensures State(accumulator, runSlow) == Spent(old(State(accumulator, runSlow)), u, period, k)
    {
      accumulator := SaturatingSub(accumulator, period);
      match u.session {
        case P2P(_, _) => runSlow := u.ahead(k);
        case SyncTest(_, _) =>
        case Spectator =>
        case NoSession => accumulator, runSlow := 0, false;
      }
    }

    /** A round of the loop: a step of the session if there is one; without one the engine's counters are reset. */
    method SpendRound<T(!new)>(engine: Engine.World, u: Update, period: nat, k: nat, h: Hashing<T>,
                               ghost before: World, ghost played: seq<seq<Event>>)
      returns (ok: bool, cells: seq<Cell<T>>, ghost es: seq<Event>)
      requires h.mixer.Lawful() && period <= accumulator && engine.Valid()
      requires !u.session.NoSession? ==> Ongoing(engine.cfg, u, k, before, played, true, engine.State())
      modifies this, engine, engine.entities, engine.values, engine.likes, engine.parents
      modifies engine.resources, engine.favourites, engine.orders, engine.clocks
      ensures State(accumulator, runSlow) == Spent(old(State(accumulator, runSlow)), u, period, k)
      ensures ok ==> engine.Valid()
      ensures if u.session.NoSession? then
                ok && cells == [] && engine.State() == Engine.CountersReset(old(engine.State()))
              else
                && Ongoing(engine.cfg, u, k + 1, before, played + [es], ok, engine.State())
                && Reports(h, engine.cfg, before, Flatten(played + [es]))
                    == Reports(h, engine.cfg, before, Flatten(played)) + cells
    {
      SpendPeriod(u, period, k);
      ghost var spent := State(accumulator, runSlow);
      if u.session.NoSession? {
        ok, cells, es := true, [], [];
        engine.ResetCounters();
      } else {
        ok, cells, es := StepSession(engine, u, k, h, before, played);
      }
      assert State(accumulator, runSlow) == spent;
    }

    /** The loop of an update: rounds are taken for as long as a whole period fits. */
    method TakeSteps<T(!new)>(engine: Engine.World, u: Update, period: nat, h: Hashing<T>)
      returns (ok: bool, steps: nat, cells: seq<Cell<T>>, ghost played: seq<seq<Event>>)
      requires period >= 1 && engine.Valid() && Sound(engine.State()) && h.mixer.Lawful()
      modifies this, engine, engine.entities, engine.values, engine.likes, engine.parents
      modifies engine.resources, engine.favourites, engine.orders, engine.clocks
      ensures ok ==> engine.Valid() && accumulator < period
      ensures if u.session.NoSession? then
                ok && steps == 0 && cells == []
                    && Idle(old(State(accumulator, runSlow)), period, State(accumulator, runSlow),
                            old(engine.State()), engine.State())
              else
                && cells == Reports(h, engine.cfg, old(engine.State()), Flatten(played))
                && Ongoing(engine.cfg, u, steps, old(engine.State()), played, ok, engine.State())
                && Midway(old(State(accumulator, runSlow)), u, period, steps, State(accumulator, runSlow))
    {
      ok, steps, cells, played := true, 0, [], [];
      ghost var st, before := State(accumulator, runSlow), engine.State();
      while ok && accumulator >= period
        invariant ok ==> engine.Valid()
        invariant if u.session.NoSession? then
                    ok && steps == 0 && cells == []
                        && Idle(st, period, State(accumulator, runSlow), before, engine.State())
                  else
                    && cells == Reports(h, engine.cfg, before, Flatten(played))
                    && Ongoing(engine.cfg, u, steps, before, played, ok, engine.State())
                    && Midway(st, u, period, steps, State(accumulator, runSlow))
        decreases accumulator
      {
        SpendOne(st, u, period, steps, State(accumulator, runSlow));
        ghost var es;
        var more;
        ok, more, es := SpendRound(engine, u, period, steps, h, before, played);
        if !u.session.NoSession? {
          cells, played, steps := cells + more, played + [es], steps + 1;
        }
      }
    }

    /**
     One update of the app. As many steps are taken as whole periods fit, and in each of them the
     engine interprets the requests of the session; `ok` is false where it would panic. Without a
     session the timestep data and the frame counters are reset instead.
     */
    method RunGgrsSchedules<T(!new)>(engine: Engine.World, u: Update, rate: nat, h: Hashing<T>)
      returns (ok: bool, steps: nat, cells: seq<Cell<T>>, ghost played: seq<seq<Event>>)
      requires rate >= 1 && Period(runSlow, rate) >= 1
      requires engine.Valid() && Sound(engine.State()) && h.mixer.Lawful()
      modifies this, engine, engine.entities, engine.values, engine.likes, engine.parents
      modifies engine.resources, engine.favourites, engine.orders, engine.clocks
      ensures ok ==> engine.Valid()
      ensures ok ==> steps == Steps(old(State(accumulator, runSlow)), u, rate)
      ensures ok ==> State(accumulator, runSlow) == After(old(State(accumulator, runSlow)), u, rate)
      ensures !u.session.NoSession? ==> Ongoing(engine.cfg, u, steps, old(engine.State()), played, ok, engine.State())
      ensures !u.session.NoSession? ==> cells == Reports(h, engine.cfg, old(engine.State()), Flatten(played))
      ensures u.session.NoSession? ==> ok && cells == []
      ensures ok && !u.session.NoSession? ==>
                SpendsPeriods(old(State(accumulator, runSlow)), u, Period(old(runSlow), rate), steps,
                              State(accumulator, runSlow))
      ensures u.session.NoSession? ==>
                Idles(old(State(accumulator, runSlow)), u.delta, Period(old(runSlow), rate),
                      State(accumulator, runSlow), old(engine.State()), engine.State())
    {
      var fpsDelta := Period(runSlow, rate);
      accumulator := SaturatingAdd(accumulator, u.delta);
      ok, steps, cells, played := TakeSteps(engine, u, fpsDelta, h);
      if u.session.NoSession? {
        Reset(old(State(accumulator, runSlow)), u, rate, State(accumulator, runSlow), old(engine.State()),
              engine.State());
      } else if ok {
        Finished(old(State(accumulator, runSlow)), u, rate, steps, State(accumulator, runSlow));
        AfterSpends(old(State(accumulator, runSlow)), u, rate);
      }
    }
  }

  /** What a run of rounds without a session comes to. */
  lemma Reset(st: State, u: Update, rate: nat, now: State, before: World, w: World)
    requires rate >= 1 && Period(st.runSlow, rate) >= 1 && u.session.NoSession?
    requires Idle(State(Total(st, u), st.runSlow), Period(st.runSlow, rate), now, before, w)
    requires now.accumulator < Period(st.runSlow, rate)
    ensures now == After(st, u, rate) && Steps(st, u, rate) == 0
    ensures Idles(st, u.delta, Period(st.runSlow, rate), now, before, w)
  {
    PeriodBound(st.runSlow, rate);
  }

  /** What is left when no whole period fits any more. */
  lemma Finished(st: State, u: Update, rate: nat, n: nat, now: State)
    requires rate >= 1 && Period(st.runSlow, rate) >= 1 && !u.session.NoSession?
    requires Midway(State(Total(st, u), st.runSlow), u, Period(st.runSlow, rate), n, now)
    requires now.accumulator < Period(st.runSlow, rate)
    ensures n == Steps(st, u, rate) && now == After(st, u, rate)
  {
    WholePeriods(Total(st, u), Period(st.runSlow, rate), n, now.accumulator);
  }

  /** Where the timestep data is after `n` steps of an update that began with `st`. */
  ghost predicate Midway(st: State, u: Update, period: nat, n: nat, now: State) {
    && st.accumulator == n * period + now.accumulator
    && now.runSlow == if u.session.P2P? && n > 0 then u.ahead(n - 1) else st.runSlow
  }

  /** Without a session, an update that began with `st` either has not happened yet or has reset everything. */
  ghost predicate Idle(st: State, period: nat, now: State, before: World, w: World) {
    || (now == st && w == before)
    || (now == State(0, false) && st.accumulator >= period && w == Engine.CountersReset(before))
  }

  lemma SpendOne(st: State, u: Update, period: nat, n: nat, now: State)
    requires 1 <= period <= now.accumulator
    ensures Spent(now, u, period, n).accumulator < now.accumulator
    ensures !u.session.NoSession? && Midway(st, u, period, n, now) ==>
        Midway(st, u, period, n + 1, Spent(now, u, period, n))
  {
    if !u.session.NoSession? {
      OneMorePeriod(n, period, now.accumulator);
    }
  }

  lemma OneMorePeriod(n: nat, period: nat, rest: nat)
    requires period <= rest
    ensures n * period + rest == (n + 1) * period + (rest - period)
    ensures SaturatingSub(rest, period) == rest - period
  {
  }

  lemma WholePeriods(total: nat, period: nat, n: nat, rest: nat)
    requires period >= 1 && total == n * period + rest && rest < period
    ensures total / period == n && total % period == rest
  {
    var q, r := total / period, total % period;
    assert total == q * period + r;
    if q < n { MultiplyMonotone(q + 1, n, period); }
    if n < q { MultiplyMonotone(n + 1, q, period); }
  }

  // ---- Whole runs ------------------------------------------------------------------------------

  function StateAfter(st: State, us: seq<Update>, rate: nat): State
    requires 1 <= rate <= NANOS
  {
    if us == [] then st
    else
      var before := StateAfter(st, us[..|us| - 1], rate);
      RateAllows(before.runSlow, rate);
      After(before, us[|us| - 1], rate)
  }

  lemma RateAllows(runSlow: bool, rate: nat)
    requires 1 <= rate <= NANOS
    ensures Period(runSlow, rate) >= 1
  {
    PeriodPositive(runSlow, rate);
  }

  /** The simulated time of all steps: every step counts the period in force when it was taken. */
  function Consumed(st: State, us: seq<Update>, rate: nat): nat
    requires 1 <= rate <= NANOS
  {
    if us == [] then 0
    else
      var before := StateAfter(st, us[..|us| - 1], rate);
      RateAllows(before.runSlow, rate);
      Consumed(st, us[..|us| - 1], rate) + Steps(before, us[|us| - 1], rate) * Period(before.runSlow, rate)
  }

  /** What was thrown away while there was no session. */
  function Wasted(st: State, us: seq<Update>, rate: nat): nat
    requires 1 <= rate <= NANOS
  {
    if us == [] then 0
    else Wasted(st, us[..|us| - 1], rate) + Discarded(StateAfter(st, us[..|us| - 1], rate), us[|us| - 1], rate)
  }

  function Elapsed(us: seq<Update>): nat {
    if us == [] then 0 else Elapsed(us[..|us| - 1]) + us[|us| - 1].delta
  }

  /** No single update is so long that adding it to less than a period saturates. */
  ghost predicate Unsaturated(us: seq<Update>) {
    forall i :: 0 <= i < |us| ==> us[i].delta <= DURATION_MAX - 2 * NANOS
  }

  lemma PeriodBound(runSlow: bool, rate: nat)
    requires rate >= 1
    ensures Period(runSlow, rate) <= 2 * NANOS
  {
    if runSlow {
      QuotientBound(NANOS * 11, rate * 10, 2 * NANOS);
    } else {
      QuotientBound(NANOS, rate, 2 * NANOS);
    }
  }

  lemma QuotientBound(n: nat, d: nat, bound: nat)
    requires d >= 1 && n <= bound * d
    ensures Quotient(n, d) <= bound
  {
    if n / d > bound { MultiplyMonotone(bound + 1, n / d, d); }
  }

  /**
   Timestep conservation, over any run, with or without a session: real time is neither lost nor
   invented. Everything is consumed by a step, or was thrown away without a session, or is still in
   the accumulator, which is short of the period that was in force in the last update.
   */
  lemma {:induction false} TimeIsConserved(us: seq<Update>, rate: nat)
    requires 1 <= rate <= NANOS && Unsaturated(us)
    ensures var st := State(0, false);
            Elapsed(us) == Consumed(st, us, rate) + Wasted(st, us, rate) + StateAfter(st, us, rate).accumulator
    ensures us == [] ==> StateAfter(State(0, false), us, rate).accumulator == 0
    ensures us != [] ==> StateAfter(State(0, false), us, rate).accumulator
                         < Period(StateAfter(State(0, false), us[..|us| - 1], rate).runSlow, rate)
    ensures (forall u :: u in us ==> !u.session.NoSession?) ==> Wasted(State(0, false), us, rate) == 0
  {
    if us != [] {
      var front, u := us[..|us| - 1], us[|us| - 1];
      TimeIsConserved(front, rate);
      var before := StateAfter(State(0, false), front, rate);
      AccumulatorBound(front, rate, before.accumulator);
      RateAllows(before.runSlow, rate);
      OneUpdate(before, u, rate);
    }
  }

  lemma AccumulatorBound(us: seq<Update>, rate: nat, accumulator: nat)
    requires 1 <= rate <= NANOS
    requires us == [] ==> accumulator == 0
    requires us != [] ==> accumulator < Period(StateAfter(State(0, false), us[..|us| - 1], rate).runSlow, rate)
    ensures accumulator <= 2 * NANOS
  {
    if us != [] {
      PeriodBound(StateAfter(State(0, false), us[..|us| - 1], rate).runSlow, rate);
    }
  }

  /** One update splits the time it has into whole periods, what it throws away, and a remainder. */
  lemma OneUpdate(st: State, u: Update, rate: nat)
    requires rate >= 1 && Period(st.runSlow, rate) >= 1
    requires st.accumulator <= 2 * NANOS && u.delta <= DURATION_MAX - 2 * NANOS
    ensures st.accumulator + u.delta
            == Steps(st, u, rate) * Period(st.runSlow, rate) + Discarded(st, u, rate) + After(st, u, rate).accumulator
    ensures After(st, u, rate).accumulator < Period(st.runSlow, rate)
  {
    Divide(st.accumulator + u.delta, Period(st.runSlow, rate));
  }

  lemma Divide(n: nat, d: nat)
    requires d >= 1
    ensures n == n / d * d + n % d && n % d < d
  {
  }

  /**
   The drift of integer periods: n steps fall short of n seconds over the rate by less than n ns, and
   n slow steps of eleven tenths of that.
   */
  lemma Drift(n: nat, rate: nat)
    requires rate >= 1
    ensures n * Period(false, rate) <= n * 1_000_000_000 / rate
    ensures n >= 1 ==> n * 1_000_000_000 / rate < n * Period(false, rate) + n
    ensures n * Period(true, rate) <= n * 11_000_000_000 / (10 * rate)
    ensures n >= 1 ==> n * 11_000_000_000 / (10 * rate) < n * Period(true, rate) + n
  {
    QuotientDrift(n, 1_000_000_000, rate);
    QuotientDrift(n, 11_000_000_000, 10 * rate);
  }

  lemma QuotientDrift(n: nat, x: nat, d: nat)
    requires d >= 1
    ensures n * Quotient(x, d) <= Quotient(n * x, d)
    ensures n >= 1 ==> Quotient(n * x, d) < n * Quotient(x, d) + n
  {
    var p, r := x / d, x % d;
    Divide(x, d);
    Distribute(n, p, d, r);
    QuotientAtLeast(n * x, d, n * p);
    if n >= 1 {
      StrictlyLess(n, r, d);
      QuotientBelow(n * x, d, n * p + n);
    }
  }

  lemma Distribute(n: nat, p: nat, d: nat, r: nat)
    ensures n * (p * d + r) == n * p * d + n * r
    ensures (n * p + n) * d == n * p * d + n * d
  {
  }

  lemma StrictlyLess(n: nat, r: nat, d: nat)
    requires n >= 1 && r < d
    ensures n * r < n * d
  {
  }
}
