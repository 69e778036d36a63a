/**
  The HTTP error queue: an error queue whose floor is fixed at 20 and whose
  timestamp queue is the one process-wide queue that every instance shares.
 */
module HttpErrorQueues {
  import opened ErrorQueues

  /** Size at or below which the HTTP error queue is never pruned. */
  const MinimumHttpErrorQueueLength: nat := 20

  /**
    An HTTP error queue. Dafny has no static fields, so the shared static queue is
    the object `shared` that the composition root creates once and hands to every
    instance; the constructor only wires it in.
   */
  class HttpErrorQueue {
    const errors: ErrorQueueBase

    constructor (shared: TimestampQueue)
      ensures errors.minimumLength == MinimumHttpErrorQueueLength
      ensures errors.queue == shared
      ensures fresh(errors)
      ensures unchanged(shared)
    {
      errors := new ErrorQueueBase(MinimumHttpErrorQueueLength, shared);
    }
  }

  /** An HTTP error queue holding at most 20 entries is left as it is by pruning, whatever their ages. */
  lemma SmallHttpQueueIsNotPruned(s: seq<Timestamp>, threshold: Timestamp)
    requires |s| <= MinimumHttpErrorQueueLength
    ensures Pruned(s, MinimumHttpErrorQueueLength, threshold) == s
  {
  }

  /**
    Two instances built on the shared queue alias it: a timestamp enqueued through
    one is counted through the other.
   */
  method EnqueueIsSeenByEveryInstance(a: HttpErrorQueue, b: HttpErrorQueue, timestamp: Timestamp, threshold: Timestamp)
    requires a.errors.queue == b.errors.queue
    modifies a.errors.queue
    ensures b.errors.queue.items == old(b.errors.queue.items) + [timestamp]
    ensures b.errors.CountWithinThreshold(threshold)
         == old(b.errors.CountWithinThreshold(threshold)) + (if timestamp > threshold then 1 else 0)
  {
    a.errors.Enqueue(timestamp);
  }

  /** Constructing a further instance on the shared queue leaves what earlier instances see unchanged. */
  method NewInstanceKeepsSharedQueue(a: HttpErrorQueue, threshold: Timestamp) returns (b: HttpErrorQueue)
    ensures fresh(b) && b.errors.queue == a.errors.queue
    ensures b.errors.queue.items == old(a.errors.queue.items)
    ensures b.errors.CountWithinThreshold(threshold) == old(a.errors.CountWithinThreshold(threshold))
  {
    b := new HttpErrorQueue(a.errors.queue);
  }
}
