/**
 The snapshot queue as a value: what each operation of `GgrsSnapshots` does to the list of
 (frame, snapshot) pairs, newest first, and what those operations mean as operations on an
 ordered map from frames to snapshots.
 */
module SnapshotQueue {
  import opened Prelude

  datatype Entry<+T> = Entry(frame: int, data: T)

  function AbsDiff(a: int, b: int): nat {
    if a < b then b - a else a - b
  }

  /** The test of `push`: does the stored frame give way to the frame being pushed? */
  predicate Superseded(current: int, frame: int) {
    var wrapped := AbsDiff(current, frame) > I32_MAX;
    (current >= frame && !wrapped) || (frame >= current && wrapped)
  }

  function DropSuperseded<T>(q: seq<Entry<T>>, frame: int): seq<Entry<T>> {
    if q != [] && Superseded(q[0].frame, frame) then DropSuperseded(q[1..], frame) else q
  }

  function Evicted<T>(q: seq<Entry<T>>, depth: nat): seq<Entry<T>> {
    if |q| > depth then Evicted(q[..|q| - 1], depth) else q
  }

  function Pushed<T>(q: seq<Entry<T>>, frame: int, data: T, depth: nat): seq<Entry<T>> {
    Evicted([Entry(frame, data)] + DropSuperseded(q, frame), depth)
  }

  function Confirmed<T>(q: seq<Entry<T>>, confirmed: int): seq<Entry<T>> {
    if q != [] && q[|q| - 1].frame < confirmed then Confirmed(q[..|q| - 1], confirmed) else q
  }

  function RolledBack<T>(q: seq<Entry<T>>, frame: int): seq<Entry<T>> {
    if q != [] && q[0].frame != frame then RolledBack(q[1..], frame) else q
  }

  /** One turn of the per-plugin save chain: prune what is confirmed, then push. */
  function Recorded<T>(q: seq<Entry<T>>, confirmed: int, frame: int, data: T, depth: nat): seq<Entry<T>> {
    Pushed(Confirmed(q, confirmed), frame, data, depth)
  }

  // ---- Closed forms -------------------------------------------------------------------------

  /** Frames strictly decrease from front to back and no two lie a wraparound apart. */
  ghost predicate Decreasing<T>(q: seq<Entry<T>>) {
    forall i, j :: 0 <= i < j < |q| ==> q[j].frame < q[i].frame
  }

  /** No stored frame is so far from `frame` that the wraparound test would fire. */
  ghost predicate Near<T>(q: seq<Entry<T>>, frame: int) {
    forall i :: 0 <= i < |q| ==> AbsDiff(q[i].frame, frame) <= I32_MAX
  }

  lemma {:induction false} EvictedIsTake<T>(q: seq<Entry<T>>, depth: nat)
    ensures Evicted(q, depth) == if |q| > depth then q[..depth] else q
  {
    if |q| > depth {
      EvictedIsTake(q[..|q| - 1], depth);
    }
  }

  /** How many entries at the front are not older than `frame`. */
  ghost function NewerCount<T>(q: seq<Entry<T>>, frame: int): (n: nat)
    ensures n <= |q|
    ensures forall i :: 0 <= i < n ==> q[i].frame >= frame
    ensures n < |q| ==> q[n].frame < frame
  {
    if q != [] && q[0].frame >= frame then 1 + NewerCount(q[1..], frame) else 0
  }

  lemma {:induction false} DropSupersededIsDrop<T>(q: seq<Entry<T>>, frame: int)
    requires Near(q, frame)
    ensures DropSuperseded(q, frame) == q[NewerCount(q, frame)..]
  {
    if q != [] && q[0].frame >= frame {
      assert forall i :: 0 <= i < |q[1..]| ==> q[1..][i] == q[i + 1];
      DropSupersededIsDrop(q[1..], frame);
      assert q[1..][NewerCount(q[1..], frame)..] == q[NewerCount(q, frame)..];
    }
  }

  lemma {:induction false} ConfirmedIsTake<T>(q: seq<Entry<T>>, confirmed: int)
    ensures |Confirmed(q, confirmed)| <= |q| && Confirmed(q, confirmed) == q[..|Confirmed(q, confirmed)|]
    ensures forall i :: |Confirmed(q, confirmed)| <= i < |q| ==> q[i].frame < confirmed
    ensures Confirmed(q, confirmed) != [] ==> q[|Confirmed(q, confirmed)| - 1].frame >= confirmed
  {
    if q != [] && q[|q| - 1].frame < confirmed {
      ConfirmedIsTake(q[..|q| - 1], confirmed);
    }
  }

  /** `rollback` pops up to the first entry of the wanted frame; without one it empties the queue. */
  lemma {:induction false} RolledBackIsDrop<T>(q: seq<Entry<T>>, frame: int)
    ensures |RolledBack(q, frame)| <= |q| && RolledBack(q, frame) == q[|q| - |RolledBack(q, frame)|..]
    ensures forall i :: 0 <= i < |q| - |RolledBack(q, frame)| ==> q[i].frame != frame
    ensures RolledBack(q, frame) != [] ==> RolledBack(q, frame)[0].frame == frame
  {
    if q != [] && q[0].frame != frame {
      RolledBackIsDrop(q[1..], frame);
      var n := |q[1..]| - |RolledBack(q[1..], frame)|;
      assert forall i :: 0 < i < |q| ==> q[i] == q[1..][i - 1];
      assert q[1..][n..] == q[n + 1..];
    }
  }

  // ---- The ordered map behind the queue ------------------------------------------------------

  function Contents<T>(q: seq<Entry<T>>): map<int, T> {
    if q == [] then map[] else Contents(q[1..])[q[0].frame := q[0].data]
  }

  /** Some entry at an index in `lo..hi` has frame `k`. */
  ghost predicate Has<T>(q: seq<Entry<T>>, lo: nat, hi: nat, k: int)
    requires hi <= |q|
  {
    exists i :: lo <= i < hi && q[i].frame == k
  }

  lemma {:induction false} ContentsKeys<T>(q: seq<Entry<T>>)
    ensures forall k :: k in Contents(q) <==> Has(q, 0, |q|, k)
  {
    if q != [] {
      ContentsKeys(q[1..]);
      forall k ensures k in Contents(q) <==> Has(q, 0, |q|, k) {
        if k in Contents(q[1..]) {
          var i :| 0 <= i < |q[1..]| && q[1..][i].frame == k;
          assert q[i + 1].frame == k;
        }
        if i :| 1 <= i < |q| && q[i].frame == k {
          assert q[1..][i - 1].frame == k;
          assert Has(q[1..], 0, |q[1..]|, k);
        }
      }
    }
  }

  lemma {:induction false} ContentsAt<T>(q: seq<Entry<T>>, i: nat)
    requires Decreasing(q) && i < |q|
    ensures q[i].frame in Contents(q) && Contents(q)[q[i].frame] == q[i].data
  {
    if i > 0 {
      assert q[1..][i - 1] == q[i];
      ContentsAt(q[1..], i - 1);
    }
  }

  lemma ContentsKey<T>(q: seq<Entry<T>>, k: int)
    ensures k in Contents(q) <==> Has(q, 0, |q|, k)
  {
    ContentsKeys(q);
  }

  lemma SliceHas<T>(q: seq<Entry<T>>, lo: nat, hi: nat, k: int)
    requires lo <= hi <= |q|
    ensures Has(q[lo..hi], 0, hi - lo, k) <==> Has(q, lo, hi, k)
    ensures Has(q, lo, hi, k) ==> Has(q, 0, |q|, k)
  {
    if i :| lo <= i < hi && q[i].frame == k {
      assert q[lo..hi][i - lo].frame == k;
    }
  }

  lemma SliceDecreasing<T>(q: seq<Entry<T>>, lo: nat, hi: nat)
    requires Decreasing(q) && lo <= hi <= |q|
    ensures Decreasing(q[lo..hi])
  {
    forall i, j | 0 <= i < j < hi - lo ensures q[lo..hi][j].frame < q[lo..hi][i].frame {
      assert q[lo..hi][i] == q[lo + i] && q[lo..hi][j] == q[lo + j];
    }
  }

  lemma SliceValue<T>(q: seq<Entry<T>>, lo: nat, hi: nat, i: nat)
    requires Decreasing(q) && lo <= i < hi <= |q|
    ensures var k := q[i].frame;
            k in Contents(q[lo..hi]) && k in Contents(q) && Contents(q[lo..hi])[k] == Contents(q)[k]
  {
    var s := q[lo..hi];
    assert s[i - lo] == q[i];
    SliceDecreasing(q, lo, hi);
    ContentsAt(s, i - lo);
    ContentsAt(q, i);
  }

  lemma SliceAt<T>(q: seq<Entry<T>>, lo: nat, hi: nat, k: int)
    requires Decreasing(q) && lo <= hi <= |q|
    ensures k in Contents(q[lo..hi]) <==> k in Contents(q) && Has(q, lo, hi, k)
    ensures k in Contents(q[lo..hi]) && k in Contents(q) ==> Contents(q[lo..hi])[k] == Contents(q)[k]
  {
    ContentsKey(q[lo..hi], k);
    SliceHas(q, lo, hi, k);
    if i :| lo <= i < hi && q[i].frame == k {
      SliceValue(q, lo, hi, i);
    }
  }

  /** A contiguous part of the queue is the map cut to the frames that part spans. */
  lemma CutContents<T>(q: seq<Entry<T>>, lo: nat, hi: nat, cut: map<int, T>)
    requires Decreasing(q) && lo <= hi <= |q|
    requires forall k :: k in cut <==> k in Contents(q) && Has(q, lo, hi, k)
    requires forall k :: k in cut ==> cut[k] == Contents(q)[k]
    ensures Decreasing(q[lo..hi]) && Contents(q[lo..hi]) == cut
  {
    var s := Contents(q[lo..hi]);
    forall k
      ensures k in s ==> k in cut && s[k] == cut[k]
      ensures k in cut ==> k in s
    {
      SliceAt(q, lo, hi, k);
    }
    SameMap(s, cut);
  }

  /** When the part is exactly the frames satisfying a bound, cutting by index is cutting by frame. */
  lemma {:induction false} HasByFrame<T>(q: seq<Entry<T>>, lo: nat, hi: nat, k: int)
    requires Decreasing(q) && lo <= hi <= |q| && k in Contents(q)
    ensures !Has(q, lo, hi, k) ==> Has(q, 0, lo, k) || Has(q, hi, |q|, k)
    ensures Has(q, lo, hi, k) ==> !Has(q, 0, lo, k) && !Has(q, hi, |q|, k)
  {
    ContentsKeys(q);
    var i :| 0 <= i < |q| && q[i].frame == k;
    forall j | 0 <= j < |q| && j != i ensures q[j].frame != k {
      assert if i < j then q[j].frame < q[i].frame else q[i].frame < q[j].frame;
    }
  }

  /** The entries of `m` that have fewer than `depth` newer ones. */
  ghost function Newest<T>(m: map<int, T>, depth: nat): map<int, T> {
    map k | k in m && |NewerKeys(m, k)| < depth :: m[k]
  }

  ghost function NewerKeys<T>(m: map<int, T>, k: int): set<int> {
    set j | j in m && j > k
  }

  ghost function Below<T>(m: map<int, T>, frame: int): map<int, T> {
    map k | k in m && k < frame :: m[k]
  }

  lemma {:induction false} NewerThan<T>(q: seq<Entry<T>>, i: nat)
    requires Decreasing(q) && i < |q|
    ensures |NewerKeys(Contents(q), q[i].frame)| == i
  {
    ContentsKeys(q);
    if i == 0 {
      assert NewerKeys(Contents(q), q[i].frame) == {};
    } else {
      NewerThan(q, i - 1);
      NewerStep(q, i);
    }
  }

  lemma NewerStep<T>(q: seq<Entry<T>>, i: nat)
    requires Decreasing(q) && 0 < i < |q|
    ensures NewerKeys(Contents(q), q[i].frame) == NewerKeys(Contents(q), q[i - 1].frame) + {q[i - 1].frame}
  {
    ContentsKeys(q);
    forall k | k in Contents(q)
      ensures k > q[i].frame <==> k > q[i - 1].frame || k == q[i - 1].frame
    {
      var j :| 0 <= j < |q| && q[j].frame == k;
    }
    ContentsAt(q, i - 1);
  }

  lemma {:induction false} TakeIsNewest<T>(q: seq<Entry<T>>, depth: nat)
    requires Decreasing(q)
    ensures Contents(Evicted(q, depth)) == Newest(Contents(q), depth)
    ensures Decreasing(Evicted(q, depth))
  {
    EvictedIsTake(q, depth);
    var n := if |q| > depth then depth else |q|;
    forall k | k in Contents(q)
      ensures Has(q, 0, n, k) <==> |NewerKeys(Contents(q), k)| < depth
    {
      ContentsKeys(q);
      var i :| 0 <= i < |q| && q[i].frame == k;
      NewerThan(q, i);
      if Has(q, 0, n, k) {
        var j :| 0 <= j < n && q[j].frame == k;
        NewerThan(q, j);
      }
    }
    CutContents(q, 0, n, Newest(Contents(q), depth));
    assert q[0..n] == Evicted(q, depth);
  }

  ghost predicate AllBelow<T>(q: seq<Entry<T>>, frame: int) {
    forall i :: 0 <= i < |q| ==> q[i].frame < frame
  }

  lemma {:induction false} PrependIsInsert<T>(q: seq<Entry<T>>, frame: int, data: T)
    requires Decreasing(q) && AllBelow(q, frame)
    ensures Decreasing([Entry(frame, data)] + q)
    ensures Contents([Entry(frame, data)] + q) == Contents(q)[frame := data]
  {
  }

  lemma {:induction false} DropSupersededIsBelow<T>(q: seq<Entry<T>>, frame: int)
    requires Decreasing(q) && Near(q, frame)
    ensures Decreasing(DropSuperseded(q, frame)) && AllBelow(DropSuperseded(q, frame), frame)
    ensures Contents(DropSuperseded(q, frame)) == Below(Contents(q), frame)
  {
    DropSupersededIsDrop(q, frame);
    var n := NewerCount(q, frame);
    forall k | k in Contents(q) ensures Has(q, n, |q|, k) <==> k < frame {
      HasByFrame(q, n, |q|, k);
    }
    CutContents(q, n, |q|, Below(Contents(q), frame));
    assert q[n..|q|] == DropSuperseded(q, frame);
  }

  /**
   `push` as an ordered map: forget what is not older than the new frame, insert it, and keep
   the `depth` newest entries. A depth of 0 evicts even the snapshot just pushed.
   */
  lemma {:induction false} PushIsInsert<T>(q: seq<Entry<T>>, frame: int, data: T, depth: nat)
    requires Decreasing(q) && Near(q, frame)
    ensures Decreasing(Pushed(q, frame, data, depth))
    ensures Contents(Pushed(q, frame, data, depth)) == Newest(Below(Contents(q), frame)[frame := data], depth)
  {
    DropSupersededIsBelow(q, frame);
    PrependIsInsert(DropSuperseded(q, frame), frame, data);
    TakeIsNewest([Entry(frame, data)] + DropSuperseded(q, frame), depth);
  }

  /** `confirm(c)` keeps exactly the frames at or above `c`. */
  lemma {:induction false} ConfirmIsRestrict<T>(q: seq<Entry<T>>, confirmed: int)
    requires Decreasing(q)
    ensures Decreasing(Confirmed(q, confirmed))
    ensures Contents(Confirmed(q, confirmed)) == map k | k in Contents(q) && k >= confirmed :: Contents(q)[k]
  {
    ConfirmedIsTake(q, confirmed);
    var n := |Confirmed(q, confirmed)|;
    var cut := map k | k in Contents(q) && k >= confirmed :: Contents(q)[k];
    forall k | k in Contents(q) ensures Has(q, 0, n, k) <==> k >= confirmed {
      HasByFrame(q, 0, n, k);
    }
    CutContents(q, 0, n, cut);
    assert q[0..n] == Confirmed(q, confirmed);
  }

  lemma PrefixNear<T>(q: seq<Entry<T>>, frame: int, confirmed: int)
    requires Near(q, frame)
    ensures Near(Confirmed(q, confirmed), frame)
  {
    ConfirmedIsTake(q, confirmed);
  }

  /**
   A whole save as an ordered map: of what was stored, exactly the frames from the confirmed one to just
   below the saved one are worth keeping; the new frame is added, and the `depth` newest are kept.
   */
  lemma {:induction false} SavePrunes<T>(q: seq<Entry<T>>, confirmed: int, frame: int, data: T, depth: nat)
    requires Decreasing(q) && Near(q, frame)
    ensures Decreasing(Recorded(q, confirmed, frame, data, depth))
    ensures |Recorded(q, confirmed, frame, data, depth)| <= depth
    ensures var kept := map k | k in Contents(q) && confirmed <= k < frame :: Contents(q)[k];
            Contents(Recorded(q, confirmed, frame, data, depth)) == Newest(kept[frame := data], depth)
  {
    ConfirmIsRestrict(q, confirmed);
    PrefixNear(q, frame, confirmed);
    PushIsInsert(Confirmed(q, confirmed), frame, data, depth);
    EvictedIsTake([Entry(frame, data)] + DropSuperseded(Confirmed(q, confirmed), frame), depth);
    SameMap(Below(Contents(Confirmed(q, confirmed)), frame),
            map k | k in Contents(q) && confirmed <= k < frame :: Contents(q)[k]);
  }

  /** `rollback(r)` keeps exactly the frames at or below `r`, and succeeds iff `r` is stored. */
  lemma {:induction false} RollbackIsRestrict<T>(q: seq<Entry<T>>, frame: int)
    requires Decreasing(q)
    ensures Decreasing(RolledBack(q, frame))
    ensures RolledBack(q, frame) != [] <==> frame in Contents(q)
    ensures frame in Contents(q) ==>
              && RolledBack(q, frame)[0] == Entry(frame, Contents(q)[frame])
              && Contents(RolledBack(q, frame)) == map k | k in Contents(q) && k <= frame :: Contents(q)[k]
  {
    RolledBackIsDrop(q, frame);
    ContentsKeys(q);
    var n := |q| - |RolledBack(q, frame)|;
    assert q[n..|q|] == RolledBack(q, frame);
    if n < |q| {
      assert q[n] == RolledBack(q, frame)[0];
      ContentsAt(q, n);
      forall k | k in Contents(q) ensures Has(q, n, |q|, k) <==> k <= frame {
        HasByFrame(q, n, |q|, k);
      }
      CutContents(q, n, |q|, map k | k in Contents(q) && k <= frame :: Contents(q)[k]);
    }
  }

  // ---- Parallel queues -----------------------------------------------------------------------

  /** The queue a single plugin keeps when the whole world's history is `h`. */
  function Column<T, U>(h: seq<Entry<T>>, part: T -> U): (c: seq<Entry<U>>)
    ensures |c| == |h|
    ensures forall i :: 0 <= i < |h| ==> c[i] == Entry(h[i].frame, part(h[i].data))
  {
    seq(|h|, i requires 0 <= i < |h| => Entry(h[i].frame, part(h[i].data)))
  }

  lemma {:induction false} ColumnDropSuperseded<T, U>(h: seq<Entry<T>>, part: T -> U, frame: int)
    ensures DropSuperseded(Column(h, part), frame) == Column(DropSuperseded(h, frame), part)
  {
    if h != [] && Superseded(h[0].frame, frame) {
      ColumnDropSuperseded(h[1..], part, frame);
      assert Column(h, part)[1..] == Column(h[1..], part);
    }
  }

  lemma {:induction false} ColumnConfirmed<T, U>(h: seq<Entry<T>>, part: T -> U, confirmed: int)
    ensures Confirmed(Column(h, part), confirmed) == Column(Confirmed(h, confirmed), part)
  {
    if h != [] && h[|h| - 1].frame < confirmed {
      ColumnConfirmed(h[..|h| - 1], part, confirmed);
      assert Column(h, part)[..|h| - 1] == Column(h[..|h| - 1], part);
    }
  }

  /** Saving one part of the world into its own queue is the same part of saving the whole world. */
  lemma {:induction false} ColumnRecorded<T, U>(h: seq<Entry<T>>, part: T -> U, confirmed: int, frame: int,
                                                data: T, depth: nat)
    ensures Recorded(Column(h, part), confirmed, frame, part(data), depth) ==
            Column(Recorded(h, confirmed, frame, data, depth), part)
  {
    ColumnConfirmed(h, part, confirmed);
    var h1 := Confirmed(h, confirmed);
    ColumnDropSuperseded(h1, part, frame);
    var h2 := DropSuperseded(h1, frame);
    assert [Entry(frame, part(data))] + Column(h2, part) == Column([Entry(frame, data)] + h2, part);
    EvictedIsTake(Column([Entry(frame, data)] + h2, part), depth);
    EvictedIsTake([Entry(frame, data)] + h2, depth);
  }

  /** Rolling back every part succeeds or fails together with rolling back the whole. */
  lemma {:induction false} ColumnRolledBack<T, U>(h: seq<Entry<T>>, part: T -> U, frame: int)
    ensures RolledBack(Column(h, part), frame) == Column(RolledBack(h, frame), part)
  {
    if h != [] && h[0].frame != frame {
      ColumnRolledBack(h[1..], part, frame);
      assert Column(h, part)[1..] == Column(h[1..], part);
    }
  }
}
