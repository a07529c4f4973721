/**
 * The batching queue (`event-queue.ts`). The asynchronous `flush` is split at
 * its only suspension point: `BeginFlush` is the synchronous snapshot-and-clear
 * that ends by handing the batch to the transport callback, and
 * `CompleteFlush(batch, ok)` is the continuation that runs when that callback
 * settles. Any interleaving of `Enqueue`, `BeginFlush` and `CompleteFlush`
 * (including two overlapping flushes) is a sequence of calls on one object.
 */
module Queue {
  import opened Wrappers
  import opened AnalyticsTypes
  import opened AnalyticsUtils

  /** The concatenation of a list of batches. */
  ghost function Flatten<T>(batches: seq<seq<T>>): seq<T> {
    if batches == [] then [] else batches[0] + Flatten(batches[1..])
  }

  lemma {:induction false} FlattenSnoc<T>(batches: seq<seq<T>>, b: seq<T>)
    ensures Flatten(batches + [b]) == Flatten(batches) + b
  {
    if batches != [] {
      assert (batches + [b])[1..] == batches[1..] + [b];
      FlattenSnoc(batches[1..], b);
    }
  }

  /** Taking batch `i` out of the list takes exactly its events out of the concatenation. */
  lemma {:induction false} FlattenRemove<T>(batches: seq<seq<T>>, i: nat)
    requires i < |batches|
    ensures multiset(Flatten(batches)) ==
            multiset(Flatten(batches[..i] + batches[i + 1..])) + multiset(batches[i])
  {
    if i > 0 {
      FlattenRemove(batches[1..], i - 1);
      assert batches[1..][..i - 1] + batches[1..][i..] == (batches[..i] + batches[i + 1..])[1..];
    } else {
      assert batches[..0] + batches[1..] == batches[1..];
    }
  }

  /** The event `enqueue` stores: the draft's fields, the new id and the enqueue time. */
  function Stamp(draft: EventDraft, id: string, now: Time): (e: PendingEvent)
    ensures e.fields == draft.fields && e.id == id && e.timestamp == now
  {
    PendingEvent(draft.fields, id, now)
  }

  /** A timestamp carried by the draft never reaches the queued event. */
  lemma StampIgnoresDraftTimestamp(draft: EventDraft, id: string, now: Time, t: Option<Time>)
    ensures Stamp(draft.(timestamp := t), id, now) == Stamp(draft, id, now)
    ensures Stamp(draft, id, now).timestamp == now
  {
  }

  /** Settling batch `i` moves its events to `delivered` (ok) or back to the head of the queue. */
  lemma SettleKeepsAccount<T>(enqueued: seq<T>, delivered: seq<T>, inFlight: seq<seq<T>>, queue: seq<T>,
                              discarded: seq<T>, i: nat, ok: bool)
    requires i < |inFlight|
    requires multiset(enqueued) ==
             multiset(delivered) + multiset(Flatten(inFlight)) + multiset(queue) + multiset(discarded)
    ensures multiset(enqueued) ==
            multiset(if ok then delivered + inFlight[i] else delivered)
            + multiset(Flatten(inFlight[..i] + inFlight[i + 1..]))
            + multiset(if ok then queue else inFlight[i] + queue)
            + multiset(discarded)
  {
    FlattenRemove(inFlight, i);
  }

  lemma RemoveKeepsNonEmpty<T>(batches: seq<seq<T>>, i: nat, rest: seq<seq<T>>)
    requires i < |batches| && rest == batches[..i] + batches[i + 1..]
    requires forall j | 0 <= j < |batches| :: batches[j] != []
    ensures forall j | 0 <= j < |rest| :: rest[j] != []
  {
    forall j | 0 <= j < |rest|
      ensures rest[j] != []
    {
      assert rest[j] == if j < i then batches[j] else batches[j + 1];
    }
  }

  class EventQueue {
    var queue: seq<PendingEvent>
    const batchSize: int
    const batchInterval: int
    /** Whether the periodic flush timer is set (`timer !== null`). */
    var timerArmed: bool
    const ids: IdSource

    // Accounting of every event ever enqueued, for the no-loss invariant.
    ghost var enqueued: seq<PendingEvent>
    /** The batches handed to the transport whose flush has not settled yet. */
    ghost var inFlight: seq<seq<PendingEvent>>
    ghost var delivered: seq<PendingEvent>
    /** Events dropped by `clear`. */
    ghost var discarded: seq<PendingEvent>

    /** No loss: every enqueued event is delivered, in flight, queued or cleared, exactly once. */
    ghost predicate Valid()
      reads this
    {
      && multiset(enqueued) ==
           multiset(delivered) + multiset(Flatten(inFlight)) + multiset(queue) + multiset(discarded)
      && forall i | 0 <= i < |inFlight| :: inFlight[i] != []
    }

    /** The constructor arms the timer (`startTimer`). */
    constructor (batchSize: int, batchInterval: int, ids: IdSource)
      ensures Valid()
      ensures this.batchSize == batchSize && this.batchInterval == batchInterval && this.ids == ids
      ensures queue == [] && timerArmed
      ensures enqueued == [] && inFlight == [] && delivered == [] && discarded == []
    {
      this.batchSize, this.batchInterval, this.ids := batchSize, batchInterval, ids;
      queue := [];
      timerArmed := true;
      enqueued, inFlight, delivered, discarded := [], [], [], [];
    }

    /**
     * `enqueue(event)`: appends the stamped event. When the queue then holds
     * `batchSize` events or more, the flush it starts has snapshotted and
     * cleared the queue before `enqueue` returns; its batch is `started`.
     */
    method Enqueue(draft: EventDraft, now: Time) returns (started: Option<seq<PendingEvent>>)
      requires Valid() && ids.Valid()
      modifies this, ids
      ensures Valid()
      ensures ids.drawn == old(ids.drawn) + 1
      ensures var e := Stamp(draft, ids.Id(old(ids.drawn)), now);
        && enqueued == old(enqueued) + [e]
        && (if |old(queue)| + 1 >= batchSize then
              && started == Some(old(queue) + [e])
              && queue == []
              && inFlight == old(inFlight) + [old(queue) + [e]]
            else
              && started == None
              && queue == old(queue) + [e]
              && inFlight == old(inFlight))
      ensures delivered == old(delivered) && discarded == old(discarded) && timerArmed == old(timerArmed)
    {
      var id := ids.GenerateId();
      var e := Stamp(draft, id, now);
      queue := queue + [e];
      enqueued := enqueued + [e];
      if |queue| >= batchSize {
        started := BeginFlush();
      } else {
        started := None;
      }
    }

    /**
     * The synchronous part of `flush()`, also what a timer tick runs: nothing
     * on an empty queue; otherwise the whole queue, in order, goes to the
     * transport and the live queue is left empty.
     */
    method BeginFlush() returns (batch: Option<seq<PendingEvent>>)
      requires Valid()
      modifies this
      ensures Valid()
      ensures old(queue) == [] ==> batch == None && inFlight == old(inFlight)
      ensures old(queue) != [] ==> batch == Some(old(queue)) && inFlight == old(inFlight) + [old(queue)]
      ensures queue == []
      ensures enqueued == old(enqueued) && delivered == old(delivered) && discarded == old(discarded)
      ensures timerArmed == old(timerArmed)
    {
      if queue == [] {
        return None;
      }
      var events := queue;
      queue := [];
      FlattenSnoc(inFlight, events);
      inFlight := inFlight + [events];
      batch := Some(events);
    }

    /**
     * The continuation of a flush whose transport call settled (`ok`) or
     * threw (`!ok`). On failure the batch goes back in front of whatever was
     * enqueued meanwhile.
     */
    method CompleteFlush(batch: seq<PendingEvent>, ok: bool)
      requires Valid()
      requires batch in inFlight
      modifies this
      ensures Valid()
      ensures exists i | 0 <= i < |old(inFlight)| ::
        old(inFlight)[i] == batch && inFlight == old(inFlight)[..i] + old(inFlight)[i + 1..]
      ensures ok ==> queue == old(queue) && delivered == old(delivered) + batch
      ensures !ok ==> queue == batch + old(queue) && delivered == old(delivered)
      ensures enqueued == old(enqueued) && discarded == old(discarded) && timerArmed == old(timerArmed)
    {
      ghost var i :| 0 <= i < |inFlight| && inFlight[i] == batch;
      ghost var rest := inFlight[..i] + inFlight[i + 1..];
      SettleKeepsAccount(enqueued, delivered, inFlight, queue, discarded, i, ok);
      RemoveKeepsNonEmpty(inFlight, i, rest);
      inFlight := rest;
      if ok {
        delivered := delivered + batch;
      } else {
        queue := batch + queue;
      }
      assert old(inFlight)[i] == batch && inFlight == old(inFlight)[..i] + old(inFlight)[i + 1..];
    }

    /** `stop()`: the timer is cancelled; the queue is untouched. */
    method Stop()
      requires Valid()
      modifies this
      ensures Valid() && !timerArmed
      ensures queue == old(queue) && inFlight == old(inFlight)
      ensures enqueued == old(enqueued) && delivered == old(delivered) && discarded == old(discarded)
    {
      timerArmed := false;
    }

    /** `clear()`: the queued events are dropped; nothing else changes. */
    method Clear()
      requires Valid()
      modifies this
      ensures Valid() && queue == []
      ensures discarded == old(discarded) + old(queue)
      ensures enqueued == old(enqueued) && delivered == old(delivered) && inFlight == old(inFlight)
      ensures timerArmed == old(timerArmed)
    {
      discarded := discarded + queue;
      queue := [];
    }

    /** `getLength()`. */
    method GetLength() returns (n: nat)
      ensures n == |queue|
    {
      n := |queue|;
    }
  }

  /**
   * A failed batch is retried ahead of later events: `a` and `b` fail, `c` is
   * enqueued while they were in flight, and the next flush carries all three in order.
   */
  method RetryKeepsOrder(ids: IdSource, a: EventDraft, b: EventDraft, c: EventDraft, now: Time)
    returns (first: seq<PendingEvent>, second: seq<PendingEvent>)
    requires ids.Valid()
    modifies ids
    ensures |first| == 2 && |second| == 3
    ensures second == first + [second[2]]
    ensures first[0].fields == a.fields && first[1].fields == b.fields && second[2].fields == c.fields
  {
    var q := new EventQueue(10, 5000, ids);
    EnqueuePair(q, a, b, now);
    first := FailedFlush(q);
    var s := q.Enqueue(c, now);
    var batch := q.BeginFlush();
    second := batch.value;
  }

  /** Two events enqueued on an empty queue below the size threshold stay queued, in order. */
  method EnqueuePair(q: EventQueue, a: EventDraft, b: EventDraft, now: Time)
    requires q.Valid() && q.ids.Valid() && q.queue == [] && q.batchSize > 2
    modifies q, q.ids
    ensures q.Valid() && |q.queue| == 2
    ensures q.queue[0].fields == a.fields && q.queue[1].fields == b.fields
  {
    var s := q.Enqueue(a, now);
    s := q.Enqueue(b, now);
  }

  /** A flush that fails while nothing else was enqueued puts the queue back as it was. */
  method FailedFlush(q: EventQueue) returns (batch: seq<PendingEvent>)
    requires q.Valid() && q.queue != []
    modifies q
    ensures q.Valid() && batch == old(q.queue) && q.queue == batch
  {
    var started := q.BeginFlush();
    batch := started.value;
    q.CompleteFlush(batch, false);
  }

  /** With `batchSize` 3 the third enqueue starts one flush carrying all three events. */
  method SizeTriggeredFlush(ids: IdSource, a: EventDraft, b: EventDraft, c: EventDraft, now: Time)
    returns (started: Option<seq<PendingEvent>>, remaining: nat)
    requires ids.Valid()
    modifies ids
    ensures started.Some? && |started.value| == 3 && remaining == 0
    ensures started.value[0].fields == a.fields && started.value[2].fields == c.fields
  {
    var q := new EventQueue(3, 5000, ids);
    var s := q.Enqueue(a, now);
    s := q.Enqueue(b, now);
    started := q.Enqueue(c, now);
    remaining := q.GetLength();
  }
}
