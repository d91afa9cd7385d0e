/** The wraparound-aware frame comparison of `push` and what it means. */
module FrameOrder {
  import opened Prelude
  import opened SnapshotQueue

  const SPAN := 0x1_0000_0000
  const HALF := 0x8000_0000

  /** The 32-bit signed counter value of an unbounded frame number. */
  function Wrap(x: int): (w: Frame)
    ensures (w - x) % SPAN == 0
  {
    (x + HALF) % SPAN - HALF
  }

  /** The same counter read as the unsigned serial number of RFC 1982. */
  function Serial(f: Frame): int {
    f % SPAN
  }

  /** Section 3.2 of RFC 1982 with SERIAL_BITS = 32: s1 is greater than s2. */
  predicate SerialGreater(s1: int, s2: int) {
    (s1 < s2 && s2 - s1 > HALF) || (s1 > s2 && s1 - s2 < HALF)
  }

  /**
   The refinement: as long as the two frame numbers are at most 2^31 - 1 apart, the test on the
   wrapped counters decides the comparison of the unbounded numbers.
   */
  lemma WrapAwareTestIsComparison(current: int, frame: int)
    requires AbsDiff(current, frame) <= I32_MAX
    ensures Superseded(Wrap(current), Wrap(frame)) <==> current >= frame
  {
    var d := current - frame;
    assert (Wrap(current) - Wrap(frame) - d) % SPAN == 0;
  }

  /** The bound is tight: at distance 2^31 every frame has a neighbour the test gets wrong. */
  lemma WrapBoundIsTight(frame: int) returns (current: int)
    ensures AbsDiff(current, frame) == HALF
    ensures Superseded(Wrap(current), Wrap(frame)) <==> current < frame
  {
    current := if Wrap(frame) >= 0 then frame - HALF else frame + HALF;
    assert (Wrap(current) - Wrap(frame) - HALF) % SPAN == 0;
  }

  /** Away from distance 2^31 the test is serial-number comparison; RFC 1982 leaves that distance open. */
  lemma TestIsSerialComparison(current: Frame, frame: Frame)
    ensures AbsDiff(current, frame) != HALF ==>
              (Superseded(current, frame) <==> current == frame || SerialGreater(Serial(current), Serial(frame)))
    ensures AbsDiff(current, frame) == HALF ==>
              !SerialGreater(Serial(current), Serial(frame)) && !SerialGreater(Serial(frame), Serial(current))
  {
  }

  function Wrapped<T>(q: seq<Entry<T>>): (w: seq<Entry<T>>)
    ensures |w| == |q|
  {
    seq(|q|, i requires 0 <= i < |q| => Entry(Wrap(q[i].frame), q[i].data))
  }

  function PlainDrop<T>(q: seq<Entry<T>>, frame: int): seq<Entry<T>> {
    if q != [] && q[0].frame >= frame then PlainDrop(q[1..], frame) else q
  }

  /** `push` on a counter that never wraps. */
  function PlainPushed<T>(q: seq<Entry<T>>, frame: int, data: T, depth: nat): seq<Entry<T>> {
    Evicted([Entry(frame, data)] + PlainDrop(q, frame), depth)
  }

  lemma {:induction false} WrappedDrop<T>(q: seq<Entry<T>>, frame: int)
    requires Near(q, frame)
    ensures DropSuperseded(Wrapped(q), Wrap(frame)) == Wrapped(PlainDrop(q, frame))
  {
    if q != [] {
      WrapAwareTestIsComparison(q[0].frame, frame);
      assert Wrapped(q)[1..] == Wrapped(q[1..]);
      WrappedDrop(q[1..], frame);
    }
  }

  /** Wraparound-aware `push` on 32-bit frames refines `push` on unbounded frames. */
  lemma {:induction false} WrappedPushRefinesPush<T>(q: seq<Entry<T>>, frame: int, data: T, depth: nat)
    requires Near(q, frame)
    ensures Pushed(Wrapped(q), Wrap(frame), data, depth) == Wrapped(PlainPushed(q, frame, data, depth))
  {
    WrappedDrop(q, frame);
    var p := [Entry(frame, data)] + PlainDrop(q, frame);
    assert [Entry(Wrap(frame) as int, data)] + Wrapped(PlainDrop(q, frame)) == Wrapped(p);
    EvictedIsTake(p, depth);
    EvictedIsTake(Wrapped(p), depth);
  }
}
