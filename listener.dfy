/** What the two frame listeners share: the arrival of samples while the
    listener sleeps, and the wait for the next sample.

    The source's listener loops forever and sleeps whenever the queue is
    empty, while a producer thread keeps adding samples. Here the producer
    is an arrival schedule: the k-th sleep lets batch `arrivals[k]` reach
    the queue. A listener runs until it would have to wait with the
    schedule used up; what it has done then depends only on the samples,
    in order, and not on how they were split into batches. */
module Listener {
  import opened Wrappers
  import opened InputQueues

  /** The samples of all batches, in arrival order. */
  function Flatten(batches: seq<seq<int>>): (s: seq<int>)
  {
    if batches == [] then [] else Flatten(batches[..|batches| - 1]) + batches[|batches| - 1]
  }

  /** Delivering one more batch appends exactly that batch. */
  lemma FlattenStep(batches: seq<seq<int>>, t: nat)
    requires t < |batches|
    ensures Flatten(batches[..t + 1]) == Flatten(batches[..t]) + batches[t]
  {
    assert batches[..t + 1][..t] == batches[..t];
  }

  /** The batches delivered so far never hold more samples than the whole
      schedule. */
  lemma {:induction false} FlattenGrows(batches: seq<seq<int>>, t: nat)
    requires t <= |batches|
    ensures |Flatten(batches[..t])| <= |Flatten(batches)|
    decreases |batches| - t
  {
    if t == |batches| {
      assert batches[..t] == batches;
    } else {
      FlattenGrows(batches, t + 1);
      FlattenStep(batches, t);
    }
  }

  /** The producer's side of one sleep: `batch` is added to the queue. */
  method Produce(q: InputQueue, batch: seq<int>)
    modifies q
    ensures q.contents == old(q.contents) + batch
  {
    var j := 0;
    while j < |batch|
      invariant 0 <= j <= |batch|
      invariant q.contents == old(q.contents) + batch[..j]
    {
      q.Add(batch[j]);
      assert batch[..j + 1] == batch[..j] + [batch[j]];
      j := j + 1;
    }
    assert batch[..j] == batch;
  }

  /** The listener's wait: peek, and while the queue is empty sleep (the
      next batch arrives) and peek again. It gives up only when the
      schedule is used up. Nothing is taken from the queue. `consumed` and
      `base` are the samples taken so far and the queue's contents when
      the listener started. */
  method WaitForData(q: InputQueue, arrivals: seq<seq<int>>, t0: nat,
                     ghost consumed: seq<int>, ghost base: seq<int>)
    returns (t: nat, head: Option<int>)
    requires t0 <= |arrivals|
    requires consumed + q.contents == base + Flatten(arrivals[..t0])
    modifies q
    ensures t0 <= t <= |arrivals|
    ensures consumed + q.contents == base + Flatten(arrivals[..t])
    ensures old(q.contents) <= q.contents
    ensures head.Some? ==> q.contents != [] && head == Some(q.contents[0])
    ensures head.None? ==> q.contents == [] && t == |arrivals|
  {
    t := t0;
    head := q.Peek();
    while head.None? && t < |arrivals|
      invariant t0 <= t <= |arrivals|
      invariant consumed + q.contents == base + Flatten(arrivals[..t])
      invariant old(q.contents) <= q.contents
      invariant head == if q.contents == [] then None else Some(q.contents[0])
      decreases |arrivals| - t
    {
      ghost var before := q.contents;
      Produce(q, arrivals[t]);
      FlattenStep(arrivals, t);
      assert consumed + q.contents == (consumed + before) + arrivals[t];
      t := t + 1;
      head := q.Peek();
    }
  }

  /** Taking the head off the queue moves it to the end of what has been
      consumed. */
  lemma PollKeepsStream(consumed: seq<int>, queue: seq<int>)
    requires queue != []
    ensures (consumed + [queue[0]]) + queue[1..] == consumed + queue
  {
    assert queue == [queue[0]] + queue[1..];
  }
}
