/** Storage for one snapshotted type: two parallel deques, newest first, and a depth. */
module GgrsSnapshots {
  import opened Prelude
  import opened SnapshotQueue

  const DEFAULT_FPS := 60

  function Zip<T>(frames: seq<Frame>, snapshots: seq<T>): (q: seq<Entry<T>>)
    requires |frames| == |snapshots|
    ensures |q| == |frames|
    ensures forall i :: 0 <= i < |q| ==> q[i] == Entry(frames[i] as int, snapshots[i])
  {
    seq(|frames|, i requires 0 <= i < |frames| => Entry(frames[i] as int, snapshots[i]))
  }

  class Snapshots<T> {
    var snapshots: seq<T>
    var frames: seq<Frame>
    var depth: nat

    ghost predicate Valid()
      reads this`snapshots, this`frames
    {
      |snapshots| == |frames|
    }

    /** The two deques read as one list of entries. */
    ghost function Entries(): (q: seq<Entry<T>>)
      reads this`snapshots, this`frames
      requires Valid()
      ensures |q| == |frames|
    {
      Zip(frames, snapshots)
    }

    constructor ()
      ensures Valid() && Entries() == [] && depth == DEFAULT_FPS == 60
    {
      snapshots, frames, depth := [], [], DEFAULT_FPS;
    }

    /** Changes the capacity only; what is stored is not truncated until the next push. */
    method SetDepth(newDepth: nat)
      requires Valid()
      modifies this`depth
      ensures depth == newDepth
    {
      depth := newDepth;
    }

    method PopFront()
      requires Valid() && frames != []
      modifies this`snapshots, this`frames
      ensures Valid() && Entries() == old(Entries())[1..] && frames == old(frames)[1..]
    {
      snapshots, frames := snapshots[1..], frames[1..];
    }

    method PopBack()
      requires Valid() && frames != []
      modifies this`snapshots, this`frames
      ensures Valid() && Entries() == old(Entries())[..|old(Entries())| - 1]
    {
      snapshots, frames := snapshots[..|snapshots| - 1], frames[..|frames| - 1];
    }

    /** Newer snapshots give way to the pushed frame; then the oldest are evicted down to the depth. */
    method Push(frame: Frame, snapshot: T)
      requires Valid()
      modifies this`snapshots, this`frames
      ensures Valid() && Entries() == Pushed(old(Entries()), frame, snapshot, depth)
    {
      ghost var start := Entries();
      while frames != []
        invariant Valid()
        invariant DropSuperseded(Entries(), frame) == DropSuperseded(start, frame)
        decreases |frames|
      {
        var current := frames[0];
        assert Entries()[0].frame == current;
        var wrapped := AbsDiff(current, frame) > I32_MAX;
        var currentAfterFrame := current >= frame && !wrapped;
        var currentAfterFrameWrapped := frame >= current && wrapped;
        if currentAfterFrame || currentAfterFrameWrapped {
          PopFront();
        } else {
          break;
        }
      }
      assert Entries() == DropSuperseded(start, frame);
      ghost var rest := Entries();
      snapshots, frames := [snapshot] + snapshots, [frame] + frames;
      assert Entries() == [Entry(frame as int, snapshot)] + rest;
      ghost var full := Entries();
      while |snapshots| > depth
        invariant Valid()
        invariant Evicted(Entries(), depth) == Evicted(full, depth)
        decreases |snapshots|
      {
        PopBack();
      }
    }

    /** Discards, from the back, what lies before the confirmed frame. */
    method Confirm(confirmedFrame: int)
      requires Valid()
      modifies this`snapshots, this`frames
      ensures Valid() && Entries() == Confirmed(old(Entries()), confirmedFrame)
    {
      ghost var start := Entries();
      while frames != []
        invariant Valid()
        invariant Confirmed(Entries(), confirmedFrame) == Confirmed(start, confirmedFrame)
        decreases |frames|
      {
        var frame := frames[|frames| - 1];
        assert Entries()[|frames| - 1].frame == frame;
        if frame < confirmedFrame {
          PopBack();
        } else {
          break;
        }
      }
    }

    /** Pops to the wanted frame. `found` is false where the original panics: the queue ran empty. */
    method Rollback(frame: int) returns (found: bool)
      requires Valid()
      modifies this`snapshots, this`frames
      ensures Valid() && Entries() == RolledBack(old(Entries()), frame)
      ensures found == (frame in old(frames))
      ensures found == (RolledBack(old(Entries()), frame) != [])
    {
      ghost var start := Entries();
      while true
        invariant Valid()
        invariant RolledBack(Entries(), frame) == RolledBack(start, frame)
        invariant frame in frames <==> frame in old(frames)
        decreases |frames|
      {
        if frames == [] {
          return false;
        }
        var current := frames[0];
        assert Entries()[0].frame == current;
        if current != frame {
          PopFront();
        } else {
          return true;
        }
      }
    }

    /** The snapshot at the front. */
    method Front() returns (snapshot: T)
      requires Valid() && frames != []
      ensures snapshot == Entries()[0].data
    {
      snapshot := snapshots[0];
    }

    /** The snapshot of a frame, if stored: lookup in the ordered map behind the queue. */
    method Peek(frame: int) returns (found: Option<T>)
      requires Valid()
      ensures found == Get(Contents(Entries()), frame)
    {
      ghost var start := Entries();
      var i := 0;
      assert start[0..] == start;
      while i < |frames|
        invariant 0 <= i <= |frames|
        invariant Get(Contents(start), frame) == Get(Contents(start[i..]), frame)
      {
        assert start[i..][0] == start[i] && start[i..][1..] == start[i + 1..];
        if frames[i] == frame {
          return Some(snapshots[i]);
        }
        i := i + 1;
      }
      return None;
    }

    /** Prunes up to the confirmed frame, when there is one. */
    method DiscardOldSnapshots(confirmedFrame: Option<int>)
      requires Valid()
      modifies this`snapshots, this`frames
      ensures Valid()
      ensures Entries() == match confirmedFrame
                           case None => old(Entries())
                           case Some(c) => Confirmed(old(Entries()), c)
    {
      if confirmedFrame.None? {
        return;
      }
      Confirm(confirmedFrame.value);
    }

    /** Follows the prediction window, when there is one. */
    method SyncDepth(maxPrediction: Option<nat>)
      requires Valid()
      modifies this`depth
      ensures depth == maxPrediction.GetOr(old(depth))
    {
      if maxPrediction.None? {
        return;
      }
      SetDepth(maxPrediction.value);
    }

    /**
     The chain every snapshot plugin registers: sync the depth, prune, then save. Of what was stored,
     the frames from the confirmed one to just below the saved one stay; with the new one, the newest
     `maxPrediction` of them.
     */
    method Save(maxPrediction: nat, confirmedFrame: int, frame: Frame, snapshot: T)
      requires Valid()
      modifies this
      ensures Valid() && depth == maxPrediction
      ensures Entries() == Recorded(old(Entries()), confirmedFrame, frame, snapshot, maxPrediction)
      ensures Decreasing(old(Entries())) && Near(old(Entries()), frame) ==>
                var stored := Contents(old(Entries()));
                var kept := map k | k in stored && confirmedFrame <= k < frame :: stored[k];
                && Decreasing(Entries()) && |Entries()| <= maxPrediction
                && Contents(Entries()) == Newest(kept[frame as int := snapshot], maxPrediction)
    {
      ghost var start := Entries();
      SyncDepth(Some(maxPrediction));
      DiscardOldSnapshots(Some(confirmedFrame));
      Push(frame, snapshot);
      if Decreasing(start) && Near(start, frame) {
        SavePrunes(start, confirmedFrame, frame, snapshot, maxPrediction);
      }
    }
  }
}
