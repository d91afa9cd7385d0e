/** GGRS time is exact over whole runs. */
module GameClock {
  import opened Prelude
  import opened WorldModel
  import opened Runs

  lemma QuotientStep(x: nat, y: nat, d: nat)
    requires d >= 1
    ensures x / d + y / d <= (x + y) / d <= x / d + y / d + 1
  {
    var r := x % d + y % d;
    var k := if r < d then 0 else 1;
    DivisionIs(x + y, d, x / d + y / d + k, r - k * d);
  }

  lemma DivisionIs(n: nat, d: nat, q: nat, r: nat)
    requires d >= 1 && n == q * d + r && r < d
    ensures n / d == q
  {
    var q', r' := n / d, n % d;
    assert n == q' * d + r';
    if q' < q { MultiplyMonotone(q' + 1, q, d); }
    if q < q' { MultiplyMonotone(q + 1, q', d); }
  }

  /** The time a frame takes is the period rounded down or up. */
  lemma FrameTime(frame: int, rate: nat)
    requires rate >= 1 && 1 <= frame <= I32_MAX
    ensures NANOS / rate <= ClockAt(frame, rate).delta <= NANOS / rate + 1
  {
    RuntimeExact(frame, rate);
    RuntimeExact(frame - 1, rate);
    QuotientStep((frame - 1) * NANOS, NANOS, rate);
  }

  /**
   In every conforming run, rollbacks included, the elapsed game time after each request is the
   frame number times a second over the rate, rounded down; the product fits 64 bits; every frame's
   delta is what elapsed since the frame before, which is the period rounded down or up, so any two
   deltas differ by at most 1 ns.
   */
  lemma GgrsTimeIsExact(cfg: Config, w0: World, es: seq<Event>)
    requires Conforming(cfg, w0, es)
    ensures RunFrom(cfg, w0, es).Running? && cfg.rate >= 1
    ensures var w := RunFrom(cfg, w0, es).world;
            && 0 <= w.frame && w.frame * NANOS < U64
            && w.clock.elapsed == w.frame * 1_000_000_000 / cfg.rate
            && (w.frame > 0 ==>
                  && w.clock.elapsed == (w.frame - 1) * 1_000_000_000 / cfg.rate + w.clock.delta
                  && NANOS / cfg.rate <= w.clock.delta <= NANOS / cfg.rate + 1)
  {
    RunNeverPanics(cfg, w0, es);
    ClockReading(cfg, RunFrom(cfg, w0, es).world);
  }

  lemma ClockReading(cfg: Config, w: World)
    requires ClockExact(cfg, w) && 0 <= w.frame <= I32_MAX
    ensures w.frame * NANOS < U64
    ensures w.clock.elapsed == w.frame * NANOS / cfg.rate
    ensures w.frame > 0 ==> w.clock.elapsed == (w.frame - 1) * NANOS / cfg.rate + w.clock.delta
    ensures w.frame > 0 ==> NANOS / cfg.rate <= w.clock.delta <= NANOS / cfg.rate + 1
  {
    RuntimeExact(w.frame, cfg.rate);
    if w.frame > 0 {
      FrameTime(w.frame, cfg.rate);
      RuntimeExact(w.frame - 1, cfg.rate);
      RuntimeMonotone(w.frame - 1, w.frame, cfg.rate);
    }
  }
}
