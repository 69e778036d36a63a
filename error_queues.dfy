/**
  The error timestamp queue of the advertisement service: a FIFO of failure
  timestamps that is appended to at the tail, pruned from the head (never below a
  floor), counted against a threshold and cleared.

  Timestamps are `DateTime` values written as integer ticks; comparisons on them are
  the comparisons on `DateTime`.
 */
module ErrorQueues {

  /** A `DateTime`, as its tick count (100 ns units). */
  type Timestamp = int

  /**
    The mutable `Queue<DateTime>` that an error queue works on. It is an object of
    its own because several error queues may hold the same one and then see each
    other's changes.
   */
  class TimestampQueue {
    /** The queued timestamps, head first. */
    var items: seq<Timestamp>

    constructor ()
      ensures items == []
    {
      items := [];
    }
  }

  /** The number of timestamps in `s` strictly newer than `threshold`. */
  function CountAbove(s: seq<Timestamp>, threshold: Timestamp): (n: nat)
    ensures n <= |s|
  {
    if s == [] then 0
    else CountAbove(s[..|s| - 1], threshold) + (if s[|s| - 1] > threshold then 1 else 0)
  }

  /** Nothing is counted exactly when no entry is newer, everything exactly when every entry is. */
  lemma {:induction false} CountAboveExtremes(s: seq<Timestamp>, threshold: Timestamp)
    ensures CountAbove(s, threshold) == 0 <==> forall i :: 0 <= i < |s| ==> s[i] <= threshold
    ensures CountAbove(s, threshold) == |s| <==> forall i :: 0 <= i < |s| ==> s[i] > threshold
    decreases |s|
  {
    if s != [] {
      var init := s[..|s| - 1];
      assert forall i :: 0 <= i < |init| ==> init[i] == s[i];
      CountAboveExtremes(init, threshold);
    }
  }

  /** The positions of `s` that hold a timestamp strictly newer than `threshold`. */
  ghost function PositionsAbove(s: seq<Timestamp>, threshold: Timestamp): set<int>
  {
    set i | 0 <= i < |s| && s[i] > threshold
  }

  /**
    What the pruning loop leaves of `s`: drop the head while more than `floor`
    entries remain and the head is older than `threshold`.
   */
  function Pruned(s: seq<Timestamp>, floor: nat, threshold: Timestamp): (r: seq<Timestamp>)
    // only a prefix is removed
    ensures |r| <= |s| && r == s[|s| - |r|..]
    // at or below the floor nothing is removed, above it the floor is kept
    ensures |s| <= floor ==> r == s
    ensures |s| > floor ==> |r| >= floor
    // every removed entry is older than the threshold
    ensures forall i :: 0 <= i < |s| - |r| ==> s[i] < threshold
    // on exit either the floor is reached or the head is not older than the threshold
    ensures |r| <= floor || r[0] >= threshold
    decreases |s|
  {
    if |s| > floor && s[0] < threshold then Pruned(s[1..], floor, threshold) else s
  }

  /** An error queue: a shared timestamp queue together with the floor below which it is never pruned. */
  class ErrorQueueBase {
    /** Size at or below which the queue is not pruned, whatever the ages of its entries. */
    const minimumLength: nat
    /** The queue this error queue works on; possibly shared with other error queues. */
    const queue: TimestampQueue

    constructor (minimumLength: nat, queue: TimestampQueue)
      ensures this.minimumLength == minimumLength && this.queue == queue
      ensures unchanged(queue)
    {
      this.minimumLength := minimumLength;
      this.queue := queue;
    }

    /** Appends `timestamp` at the tail. */
    method Enqueue(timestamp: Timestamp)
      modifies queue
      ensures queue.items == old(queue.items) + [timestamp]
    {
      queue.items := queue.items + [timestamp];
    }

    /** Removes from the head the entries older than `threshold`, keeping at least `minimumLength` entries. */
    method ClearExcessItems(threshold: Timestamp)
      modifies queue
      ensures queue.items == Pruned(old(queue.items), minimumLength, threshold)
    {
      while |queue.items| > minimumLength
        invariant Pruned(queue.items, minimumLength, threshold) == Pruned(old(queue.items), minimumLength, threshold)
        decreases |queue.items|
      {
        if queue.items[0] < threshold {
          queue.items := queue.items[1..];
        } else {
          break;
        }
      }
    }

    /** The number of queued timestamps strictly newer than `threshold`; the queue is only read. */
    function CountWithinThreshold(threshold: Timestamp): (n: nat)
      reads queue
      ensures n <= |queue.items|
      ensures n == |PositionsAbove(queue.items, threshold)|
    {
      CountAboveIsPositionCount(queue.items, threshold);
      CountAbove(queue.items, threshold)
    }

    /** Dequeues until the queue is empty. */
    method ClearQueue()
      modifies queue
      ensures queue.items == []
    {
      while |queue.items| > 0
        decreases |queue.items|
      {
        queue.items := queue.items[1..];
      }
    }
  }

  /** Counting distributes over concatenation. */
  lemma {:induction false} CountAboveAppend(a: seq<Timestamp>, b: seq<Timestamp>, threshold: Timestamp)
    ensures CountAbove(a + b, threshold) == CountAbove(a, threshold) + CountAbove(b, threshold)
    decreases |b|
  {
    if b == [] {
      assert a + b == a;
    } else {
      var ab := a + b;
      assert ab[..|ab| - 1] == a + b[..|b| - 1];
      assert ab[|ab| - 1] == b[|b| - 1];
      CountAboveAppend(a, b[..|b| - 1], threshold);
    }
  }

  /** The recursive count agrees with the number of positions holding a newer timestamp. */
  lemma {:induction false} CountAboveIsPositionCount(s: seq<Timestamp>, threshold: Timestamp)
    ensures CountAbove(s, threshold) == |PositionsAbove(s, threshold)|
    decreases |s|
  {
    if s == [] {
      assert PositionsAbove(s, threshold) == {};
    } else {
      var n := |s| - 1;
      var init := s[..n];
      CountAboveIsPositionCount(init, threshold);
      var before := PositionsAbove(init, threshold);
      if s[n] > threshold {
        assert PositionsAbove(s, threshold) == before + {n};
        assert n !in before;
      } else {
        assert PositionsAbove(s, threshold) == before;
      }
    }
  }

  /**
    Pruning with `threshold` does not change the count against any threshold at or
    after it: the entries it removes are older than `threshold`, and only entries
    newer than the later threshold are counted.
   */
  lemma {:induction false} PruneKeepsCount(s: seq<Timestamp>, floor: nat, threshold: Timestamp, later: Timestamp)
    requires threshold <= later
    ensures CountAbove(Pruned(s, floor, threshold), later) == CountAbove(s, later)
    decreases |s|
  {
    if |s| > floor && s[0] < threshold {
      assert s == [s[0]] + s[1..];
      CountAboveAppend([s[0]], s[1..], later);
      assert CountAbove([s[0]], later) == 0 by {
        assert [s[0]][..0] == [];
      }
      PruneKeepsCount(s[1..], floor, threshold, later);
    }
  }

  /** Pruning twice with the same floor and threshold removes nothing the second time. */
  lemma PruneIdempotent(s: seq<Timestamp>, floor: nat, threshold: Timestamp)
    ensures Pruned(Pruned(s, floor, threshold), floor, threshold) == Pruned(s, floor, threshold)
  {
  }

  /**
    `Pruned` is the only outcome with its properties: a suffix that dropped only
    entries older than `threshold`, kept the floor, and stopped where the loop
    stops is exactly what pruning leaves.
   */
  lemma PrunedIsUnique(s: seq<Timestamp>, floor: nat, threshold: Timestamp, k: nat)
    requires k <= |s|
    requires forall i :: 0 <= i < k ==> s[i] < threshold
    requires k == 0 || |s| - k >= floor
    requires |s| - k <= floor || s[k] >= threshold
    ensures Pruned(s, floor, threshold) == s[k..]
  {
  }
}
