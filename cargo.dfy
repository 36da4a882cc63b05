/**
 * The `async.cargo` queues that js/dispatcher/appDispatcher.js builds: items are
 * pushed one at a time and handed to a worker in batches of at most `limit`
 * items (200 for the dispatcher's own queues, 20 per renderer on the hub).
 * Each cargo is owned by exactly one closure and never shared, so it is held
 * here as a value that its owner reassigns; the timing of the worker is left
 * to the caller, and each `Take` is one run of the worker.
 */
module BatchCargo {
  import opened Wrappers

  datatype Cargo<T> = Cargo(limit: nat, queue: seq<T>)
  {
    /** `cargo.push(item)`: the item joins the end of the queue. */
    function Push(item: T): Cargo<T>
    {
      this.(queue := queue + [item])
    }

    /** `cargo.idle()`: nothing is waiting for the worker. */
    predicate Idle()
    {
      queue == []
    }

    /**
     * One run of the worker: the oldest items leave the queue as one batch,
     * in push order. The batch is never larger than the limit, is empty only
     * when the queue was, and takes everything when fewer than `limit` items wait.
     */
    function Take(): (r: (seq<T>, Cargo<T>))
      ensures r.0 + r.1.queue == queue
      ensures |r.0| == Min(limit, |queue|)
      ensures r.1.limit == limit
    {
      var n := Min(limit, |queue|);
      assert queue[..n] + queue[n..] == queue;
      (queue[..n], this.(queue := queue[n..]))
    }
  }

  /** No batch handed to the worker is empty, and none is larger than the limit. */
  predicate BatchesWithin<T>(batches: seq<seq<T>>, limit: nat)
  {
    forall i :: 0 <= i < |batches| ==> 0 < |batches[i]| <= limit
  }

  /**
   * The cargo's guarantee over its whole life: the batches handed to the
   * worker so far, followed by what still waits, are exactly the items
   * pushed, in push order, and every batch is within the limit.
   */
  ghost predicate Conveyed<T>(batches: seq<seq<T>>, queue: seq<T>, pushed: seq<T>, limit: nat)
  {
    Flatten(batches) + queue == pushed && BatchesWithin(batches, limit)
  }

  /** Pushing keeps the guarantee: the new items are the last ones pushed and the last ones waiting. */
  lemma ConveyedPush<T>(batches: seq<seq<T>>, queue: seq<T>, pushed: seq<T>, limit: nat, items: seq<T>)
    requires Conveyed(batches, queue, pushed, limit)
    ensures Conveyed(batches, queue + items, pushed + items, limit)
  {
    assert Flatten(batches) + (queue + items) == (Flatten(batches) + queue) + items;
  }

  /** A worker run keeps the guarantee: a nonempty batch joins the handed-over ones, an idle cargo hands over nothing. */
  lemma ConveyedTake<T>(c: Cargo<T>, batches: seq<seq<T>>, pushed: seq<T>)
    requires c.limit > 0
    requires Conveyed(batches, c.queue, pushed, c.limit)
    ensures var (batch, c') := c.Take();
      && (c.queue == [] <==> batch == [])
      && Conveyed(if batch == [] then batches else batches + [batch], c'.queue, pushed, c.limit)
  {
    var (batch, c') := c.Take();
    if batch != [] {
      FlattenAppend(batches, batch);
      assert Flatten(batches + [batch]) + c'.queue == Flatten(batches) + (batch + c'.queue);
      assert forall i :: 0 <= i < |batches| ==> (batches + [batch])[i] == batches[i];
    }
  }
}
