/** The earlier revision's frame listener: it announces that it started,
    then cuts the sample stream into frames of 512 slots and emits
    `(slot, sample)` for every slot, in order. */
module SrcDmxInput {
  import opened Wrappers
  import opened InputQueues
  import opened Listener

  /** The listener's signals. */
  datatype ListenerEvent = ListenerStarted | InputValue(channel: int, value: int)

  /** The events for a stream of samples: sample k goes to slot
      k mod 512 + 1. */
  function StreamEvents(s: seq<int>): (es: seq<ListenerEvent>)
  {
    seq(|s|, k requires 0 <= k < |s| => InputValue(k % 512 + 1, s[k]))
  }

  /** The events of one frame: slots 1 .. 512 in order, slot i carrying
      the i-th sample. */
  function FrameEvents(f: seq<int>): (es: seq<ListenerEvent>)
    requires |f| == 512
  {
    seq(512, i requires 0 <= i < 512 => InputValue(i + 1, f[i]))
  }

  /** The events of whole frames, one frame after the other. */
  function FramesEvents(s: seq<int>): (es: seq<ListenerEvent>)
    requires |s| % 512 == 0
    decreases |s|
  {
    if s == [] then [] else FrameEvents(s[..512]) + FramesEvents(s[512..])
  }

  /** One more sample adds its event at the end. */
  lemma StreamEventsStep(s: seq<int>, x: int)
    ensures StreamEvents(s + [x]) == StreamEvents(s) + [InputValue(|s| % 512 + 1, x)]
  {
  }

  /** A stream that starts with a whole frame emits that frame's events,
      then the rest. */
  lemma StreamEventsFrame(f: seq<int>, rest: seq<int>)
    requires |f| == 512
    ensures StreamEvents(f + rest) == FrameEvents(f) + StreamEvents(rest)
  {
    var lhs, rhs := StreamEvents(f + rest), FrameEvents(f) + StreamEvents(rest);
    forall k | 0 <= k < |lhs| ensures lhs[k] == rhs[k] {
      if k >= 512 {
        assert (k - 512) % 512 + 1 == k % 512 + 1;
      }
    }
  }

  /** Successive frames consume consecutive 512-sample blocks: the events
      of m whole frames are the frames' events, never interleaved. */
  lemma {:induction false} FramesInOrder(s: seq<int>)
    requires |s| % 512 == 0
    ensures StreamEvents(s) == FramesEvents(s)
    decreases |s|
  {
    if s != [] {
      assert s == s[..512] + s[512..];
      StreamEventsFrame(s[..512], s[512..]);
      FramesInOrder(s[512..]);
    }
  }

  /** Two frames queued one after the other come out first frame, then
      second frame. */
  lemma TwoFrames(f1: seq<int>, f2: seq<int>)
    requires |f1| == 512 && |f2| == 512
    ensures StreamEvents(f1 + f2) == FrameEvents(f1) + FrameEvents(f2)
  {
    StreamEventsFrame(f1, f2);
    StreamEventsFrame(f2, []);
    assert f2 + [] == f2;
  }

  class DmxInput {
    /** Every signal emitted so far, oldest first. */
    var events: seq<ListenerEvent>

    constructor ()
      ensures events == []
    {
      events := [];
    }

    /** Slot `slot` of a frame: the head sample is polled and emitted as
        `inputValue(slot, sample)`. */
    method EmitSlot(q: InputQueue, slot: int, ghost consumed: seq<int>, ghost started: seq<ListenerEvent>)
      returns (ghost taken: seq<int>)
      requires q.contents != [] && |consumed| % 512 == slot - 1
      requires events == started + StreamEvents(consumed)
      modifies this, q
      ensures taken == consumed + [old(q.contents)[0]] && taken + q.contents == consumed + old(q.contents)
      ensures events == started + StreamEvents(taken)
    {
      PollKeepsStream(consumed, q.contents);
      var sample := q.Poll();
      events := events + [InputValue(slot, sample.value)];
      StreamEventsStep(consumed, sample.value);
      taken := consumed + [sample.value];
    }

    /** The 512 slots of one frame, each waited for, polled and emitted.
        The frame is incomplete only if the schedule ran out while the
        queue was empty. */
    method ReadFrame(q: InputQueue, arrivals: seq<seq<int>>, t0: nat,
                     ghost consumed0: seq<int>, ghost base: seq<int>, ghost started: seq<ListenerEvent>)
      returns (t: nat, complete: bool, ghost consumed: seq<int>)
      requires t0 <= |arrivals| && |consumed0| % 512 == 0
      requires consumed0 + q.contents == base + Flatten(arrivals[..t0])
      requires events == started + StreamEvents(consumed0)
      modifies this, q
      ensures t0 <= t <= |arrivals|
      ensures consumed + q.contents == base + Flatten(arrivals[..t])
      ensures events == started + StreamEvents(consumed)
      ensures complete ==> |consumed| == |consumed0| + 512
      ensures !complete ==> q.contents == [] && t == |arrivals| &&
                            |consumed0| <= |consumed| < |consumed0| + 512
    {
      t, consumed := t0, consumed0;
      var i := 1;
      while i < 513
        invariant 1 <= i <= 513
        invariant t0 <= t <= |arrivals|
        invariant consumed + q.contents == base + Flatten(arrivals[..t])
        invariant |consumed| == |consumed0| + i - 1
        invariant events == started + StreamEvents(consumed)
      {
        var head;
        t, head := WaitForData(q, arrivals, t, consumed, base);
        if head.None? {
          return t, false, consumed;
        }
        consumed := EmitSlot(q, i, consumed, started);
        i := i + 1;
      }
      complete := true;
    }

    /** The listener thread's body, run until the arrival schedule is used
        up: `listenerStarted` once, then one event per sample, slot
        numbers cycling 1 .. 512. Every sample is consumed, none twice. */
    method Run(q: InputQueue, arrivals: seq<seq<int>>)
      modifies this, q
      ensures q.contents == []
      ensures events == old(events) + [ListenerStarted] + StreamEvents(old(q.contents) + Flatten(arrivals))
    {
      events := events + [ListenerStarted];
      ghost var started := events;
      ghost var base := q.contents;
      ghost var stream := base + Flatten(arrivals);
      ghost var consumed: seq<int> := [];
      var t: nat := 0;
      FlattenGrows(arrivals, 0);
      while true
        invariant t <= |arrivals|
        invariant consumed + q.contents == base + Flatten(arrivals[..t])
        invariant |consumed| + |q.contents| <= |stream|
        invariant |consumed| % 512 == 0
        invariant events == started + StreamEvents(consumed)
        decreases |stream| - |consumed| + |arrivals| - t
      {
        // Wait for the start of a frame.
        var head;
        t, head := WaitForData(q, arrivals, t, consumed, base);
        if head.None? {
          assert arrivals[..t] == arrivals;
          assert consumed == stream;
          return;
        }
        var complete;
        t, complete, consumed := ReadFrame(q, arrivals, t, consumed, base, started);
        if !complete {
          assert arrivals[..t] == arrivals;
          assert consumed == stream;
          return;
        }
        FlattenGrows(arrivals, t);
      }
    }
  }
}
