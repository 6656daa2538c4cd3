/** The FIFO of raw samples between the DMX producer and the frame
    listener, and the two ways the revisions hand out its one instance. */
module InputQueues {
  import opened Wrappers

  class InputQueue {
    /** The queued samples, head first (the source's `LinkedList`). */
    var contents: seq<int>

    /** A new, empty queue. */
    constructor ()
      ensures contents == []
    {
      contents := [];
    }

    /** Appends `value` at the tail (both `add` overloads). */
    method Add(value: int)
      modifies this
      ensures contents == old(contents) + [value]
    {
      contents := contents + [value];
    }

    /** Removes and answers the head; an empty queue answers `None` (the
        source's `null`) and stays empty. */
    method Poll() returns (head: Option<int>)
      modifies this
      ensures old(contents) == [] ==> head == None && contents == []
      ensures old(contents) != [] ==> head == Some(old(contents)[0]) && contents == old(contents)[1..]
    {
      if contents == [] {
        head := None;
      } else {
        head := Some(contents[0]);
        contents := contents[1..];
      }
    }

    /** Answers the head without removing it; `None` when empty. */
    method Peek() returns (head: Option<int>)
      ensures head == if contents == [] then None else Some(contents[0])
      ensures head.None? <==> contents == []
    {
      if contents == [] {
        head := None;
      } else {
        head := Some(contents[0]);
      }
    }
  }

  /** The earlier revision's static state: one queue, created when the class
      is loaded and never replaced. */
  class EagerQueueHolder {
    const singletonQueue: InputQueue

    /** Class loading creates the one, empty queue. */
    constructor ()
      ensures fresh(singletonQueue) && singletonQueue.contents == []
    {
      singletonQueue := new InputQueue();
    }

    /** Always the queue created at class load. */
    method GetInstance() returns (q: InputQueue)
      ensures q == singletonQueue
    {
      q := singletonQueue;
    }
  }

  /** The later revision's static state: a queue created on first demand,
      which `DestroyInstance` discards. */
  class LazyQueueHolder {
    var singletonInputQueue: InputQueue?

    /** Before any call there is no queue. */
    constructor ()
      ensures singletonInputQueue == null
    {
      singletonInputQueue := null;
    }

    /** The current queue, created empty if there is none. */
    method GetInstance() returns (q: InputQueue)
      modifies this
      ensures old(singletonInputQueue) != null ==> q == old(singletonInputQueue) && unchanged(q)
      ensures old(singletonInputQueue) == null ==> fresh(q) && q.contents == []
      ensures singletonInputQueue == q
    {
      if singletonInputQueue == null {
        singletonInputQueue := new InputQueue();
      }
      q := singletonInputQueue;
    }

    /** Forgets the current queue: the next `GetInstance` makes a new one. */
    method DestroyInstance()
      modifies this
      ensures singletonInputQueue == null
    {
      singletonInputQueue := null;
    }
  }

  /** Three samples added to an empty queue are polled back in the order
      they were added. */
  method FifoRoundTrip(q: InputQueue, a: int, b: int, c: int)
    returns (x: Option<int>, y: Option<int>, z: Option<int>)
    requires q.contents == []
    modifies q
    ensures x == Some(a) && y == Some(b) && z == Some(c)
    ensures q.contents == []
  {
    q.Add(a);
    q.Add(b);
    q.Add(c);
    x := q.Poll();
    y := q.Poll();
    z := q.Poll();
  }

  /** Peeking twice answers the same head and leaves the queue as it was;
      the following poll answers that head. */
  method PeekDoesNotRemove(q: InputQueue) returns (first: Option<int>, second: Option<int>, polled: Option<int>)
    modifies q
    ensures first == second == polled
    ensures old(q.contents) != [] ==> first == Some(old(q.contents)[0])
  {
    first := q.Peek();
    second := q.Peek();
    polled := q.Poll();
  }

  /** After `DestroyInstance` the holder hands out a fresh, empty queue even
      if the old one held samples. */
  method DestroyThenGet(h: LazyQueueHolder) returns (before: InputQueue, after: InputQueue)
    modifies h
    ensures fresh(after) && after.contents == [] && after != before
  {
    before := h.GetInstance();
    h.DestroyInstance();
    after := h.GetInstance();
  }
}
