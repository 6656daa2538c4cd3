/** The later revision's frame listener: it cuts the sample stream into
    frames of 512 slots, hands slot i of every frame to the Universe as
    `setValue(i, sample)`, skips samples the Universe rejects, and signals
    `updateTable` after each whole frame. */
module TrunkDmxInput {
  import opened Wrappers
  import opened Validator
  import opened UniverseEvents
  import opened InputQueues
  import opened Listener
  import opened TrunkUniverse

  /** The channel values after the samples `s` went through `setValue`,
      sample k on channel k mod 512 + 1; a sample outside 0 .. 255 leaves
      its channel as it was. */
  function ApplyStream(vals: seq<int>, s: seq<int>): (r: seq<int>)
    requires |vals| == Channels
    ensures |r| == Channels
    decreases |s|
  {
    if s == [] then vals
    else
      var k := |s| - 1;
      var prev := ApplyStream(vals, s[..k]);
      if ValidateChannelValue(s[k]) then prev[k % 512 := s[k]] else prev
  }

  /** The Universe's notifications for the samples `s`: one per accepted
      sample, none for a rejected one. */
  function ValueEvents(s: seq<int>): (es: seq<Event>)
    decreases |s|
  {
    if s == [] then []
    else
      var k := |s| - 1;
      var prev := ValueEvents(s[..k]);
      if ValidateChannelValue(s[k]) then prev + [ValueChanged(k % 512 + 1, s[k])] else prev
  }

  /** One more sample changes at most its own channel and adds at most its
      own notification. */
  lemma StreamStep(vals: seq<int>, s: seq<int>, x: int)
    requires |vals| == Channels
    ensures ApplyStream(vals, s + [x]) ==
            if 0 <= x <= 255 then ApplyStream(vals, s)[|s| % 512 := x] else ApplyStream(vals, s)
    ensures ValueEvents(s + [x]) ==
            if 0 <= x <= 255 then ValueEvents(s) + [ValueChanged(|s| % 512 + 1, x)] else ValueEvents(s)
  {
    assert (s + [x])[..|s|] == s;
  }

  /** After one frame (or the first slots of one), channel c holds the
      frame's sample for it if that sample is a valid value, and its
      previous value otherwise. */
  lemma {:induction false} FrameApplied(vals: seq<int>, s: seq<int>, c: int)
    requires |vals| == Channels && |s| <= Channels && 0 <= c < Channels
    ensures ApplyStream(vals, s)[c] == if c < |s| && 0 <= s[c] <= 255 then s[c] else vals[c]
    decreases |s|
  {
    if s != [] {
      FrameApplied(vals, s[..|s| - 1], c);
    }
  }

  /** Feeding whole frames and then more samples is feeding the frames
      first and the rest into the store they left: the rest starts again
      on slot 1. */
  lemma {:induction false} ApplyAppend(vals: seq<int>, s1: seq<int>, s2: seq<int>)
    requires |vals| == Channels && |s1| % 512 == 0
    ensures ApplyStream(vals, s1 + s2) == ApplyStream(ApplyStream(vals, s1), s2)
    decreases |s2|
  {
    if s2 == [] {
      assert s1 + s2 == s1;
    } else {
      var k := |s2| - 1;
      assert (s1 + s2)[..|s1| + k] == s1 + s2[..k];
      assert (s1 + s2)[|s1| + k] == s2[k];
      assert (|s1| + k) % 512 == k % 512 by {
        assert |s1| == 512 * (|s1| / 512);
      }
      ApplyAppend(vals, s1, s2[..k]);
    }
  }

  /** Frame m of the stream (slots 512m .. 512m+511): after it, channel c
      holds the frame's sample for it if that sample is a valid value, and
      what the earlier frames left there otherwise. */
  lemma FrameMApplied(vals: seq<int>, s: seq<int>, m: nat, c: int)
    requires |vals| == Channels && 512 * (m + 1) <= |s| && 0 <= c < Channels
    ensures ApplyStream(vals, s[..512 * (m + 1)])[c] ==
            if 0 <= s[512 * m + c] <= 255 then s[512 * m + c]
            else ApplyStream(vals, s[..512 * m])[c]
  {
    var before, frame := s[..512 * m], s[512 * m..512 * (m + 1)];
    assert s[..512 * (m + 1)] == before + frame;
    ApplyAppend(vals, before, frame);
    FrameApplied(ApplyStream(vals, before), frame, c);
  }

  /** The store as it stands at each of the first m `updateTable` signals:
      signal j comes right after the 512 samples of frame j went through
      `setValue`. */
  function FrameStores(vals: seq<int>, s: seq<int>, m: nat): (r: seq<seq<int>>)
    requires |vals| == Channels && 512 * m <= |s|
    ensures |r| == m
  {
    seq(m, j requires 0 <= j < m => ApplyStream(vals, s[..512 * (j + 1)]))
  }

  /** The stores seen at the first m signals depend only on the samples of
      the first m frames. */
  lemma FrameStoresPrefix(vals: seq<int>, s: seq<int>, t: seq<int>, m: nat)
    requires |vals| == Channels && 512 * m <= |s| && s <= t
    ensures FrameStores(vals, s, m) == FrameStores(vals, t, m)
  {
    forall j | 0 <= j < m
      ensures FrameStores(vals, s, m)[j] == FrameStores(vals, t, m)[j]
    {
      assert s[..512 * (j + 1)] == t[..512 * (j + 1)];
    }
  }

  /** A completed frame adds one store, the one the whole frame leaves. */
  lemma FrameStoresNext(vals: seq<int>, previous: seq<int>, s: seq<int>, m: nat)
    requires |vals| == Channels && |previous| == 512 * m && previous <= s
    requires |s| == 512 * (m + 1)
    ensures FrameStores(vals, s, m + 1) == FrameStores(vals, previous, m) + [ApplyStream(vals, s)]
  {
    FrameStoresPrefix(vals, previous, s, m);
    assert s[..512 * (m + 1)] == s;
  }

  /** A frame cut short by the end of the schedule adds no store. */
  lemma FrameStoresShort(vals: seq<int>, previous: seq<int>, s: seq<int>, m: nat)
    requires |vals| == Channels && |previous| == 512 * m && previous <= s
    requires |s| < 512 * (m + 1)
    ensures |s| / 512 == m
    ensures FrameStores(vals, s, |s| / 512) == FrameStores(vals, previous, m)
  {
    assert |s| == 512 * m + (|s| - 512 * m);
    FrameStoresPrefix(vals, previous, s, m);
  }

  /** Feeding samples through the listener keeps every channel value
      valid. */
  lemma {:induction false} ApplyKeepsValid(vals: seq<int>, s: seq<int>)
    requires |vals| == Channels
    requires forall c :: 0 <= c < Channels ==> 0 <= vals[c] <= 255
    ensures forall c :: 0 <= c < Channels ==> 0 <= ApplyStream(vals, s)[c] <= 255
    decreases |s|
  {
    if s != [] {
      ApplyKeepsValid(vals, s[..|s| - 1]);
    }
  }

  /** Slot `channel` of a frame: the sample goes to the Universe, which
      rejects it if it is not a valid value; the slot number itself is
      always valid, so the number error never arises. */
  method StoreSample(u: Universe, channel: int, sample: int,
                     ghost consumed: seq<int>, ghost values0: seq<int>, ghost events0: seq<Event>)
    requires u.Valid() && |values0| == Channels
    requires 1 <= channel <= 512 && |consumed| % 512 == channel - 1
    requires u.dmxValues[..] == ApplyStream(values0, consumed)
    requires u.events == events0 + ValueEvents(consumed)
    modifies u, u.dmxValues
    ensures u.Valid()
    ensures u.dmxValues[..] == ApplyStream(values0, consumed + [sample])
    ensures u.events == events0 + ValueEvents(consumed + [sample])
    ensures unchanged(u.dmxAssociations)
  {
    var r := u.SetValue(channel, sample);
    assert r != Failed(InvalidChannelNumber(channel));
    StreamStep(values0, consumed, sample);
  }

  /** The 512 slots of one frame, slot i going to `setValue(i, sample)`.
      The frame is incomplete only if the schedule ran out while the queue
      was empty. */
  method ReadFrame(q: InputQueue, u: Universe, arrivals: seq<seq<int>>, t0: nat,
                   ghost consumed0: seq<int>, ghost base: seq<int>,
                   ghost values0: seq<int>, ghost events0: seq<Event>)
    returns (t: nat, complete: bool, ghost consumed: seq<int>)
    requires u.Valid() && |values0| == Channels && t0 <= |arrivals|
    requires consumed0 + q.contents == base + Flatten(arrivals[..t0])
    requires |consumed0| % 512 == 0
    requires u.dmxValues[..] == ApplyStream(values0, consumed0)
    requires u.events == events0 + ValueEvents(consumed0)
    modifies q, u, u.dmxValues
    ensures u.Valid() && t0 <= t <= |arrivals|
    ensures consumed + q.contents == base + Flatten(arrivals[..t])
    ensures u.dmxValues[..] == ApplyStream(values0, consumed)
    ensures u.events == events0 + ValueEvents(consumed)
    ensures unchanged(u.dmxAssociations)
    ensures consumed0 <= consumed
    ensures complete ==> |consumed| == |consumed0| + 512
    ensures !complete ==> q.contents == [] && t == |arrivals| &&
                          |consumed0| <= |consumed| < |consumed0| + 512
  {
    t, consumed := t0, consumed0;
    var i := 1;
    while i < 513
      invariant 1 <= i <= 513
      invariant u.Valid()
      invariant t0 <= t <= |arrivals|
      invariant consumed + q.contents == base + Flatten(arrivals[..t])
      invariant consumed0 <= consumed
      invariant |consumed| == |consumed0| + i - 1
      invariant u.dmxValues[..] == ApplyStream(values0, consumed)
      invariant u.events == events0 + ValueEvents(consumed)
      invariant unchanged(u.dmxAssociations)
    {
      var head;
      t, head := WaitForData(q, arrivals, t, consumed, base);
      if head.None? {
        return t, false, consumed;
      }
      PollKeepsStream(consumed, q.contents);
      var sample := q.Poll();
      StoreSample(u, i, sample.value, consumed, values0, events0);
      consumed := consumed + [sample.value];
      i := i + 1;
    }
    complete := true;
  }

  class DmxInput {
    /** How many times `updateTable` has been signalled. */
    var tableUpdates: nat
    /** The Universe's channel values at each `updateTable` signal, in
        order. */
    ghost var tableStores: seq<seq<int>>

    constructor ()
      ensures tableUpdates == 0 && tableStores == []
    {
      tableUpdates := 0;
      tableStores := [];
    }

    /** One frame of the listener's loop: its 512 slots go to `setValue`,
        and only once all of them are stored is `updateTable` signalled,
        recording the store as it then stands. */
    method ReadAndSignal(q: InputQueue, u: Universe, arrivals: seq<seq<int>>, t0: nat,
                         ghost consumed0: seq<int>, ghost base: seq<int>,
                         ghost values0: seq<int>, ghost events0: seq<Event>,
                         ghost frames: nat, ghost updates0: int, ghost stores0: seq<seq<int>>)
      returns (t: nat, complete: bool, ghost consumed: seq<int>)
      requires u.Valid() && |values0| == Channels && t0 <= |arrivals|
      requires consumed0 + q.contents == base + Flatten(arrivals[..t0])
      requires |consumed0| == 512 * frames
      requires u.dmxValues[..] == ApplyStream(values0, consumed0)
      requires u.events == events0 + ValueEvents(consumed0)
      requires tableUpdates == updates0 + frames
      requires tableStores == stores0 + FrameStores(values0, consumed0, frames)
      modifies this, q, u, u.dmxValues
      ensures u.Valid() && t0 <= t <= |arrivals|
      ensures consumed + q.contents == base + Flatten(arrivals[..t])
      ensures u.dmxValues[..] == ApplyStream(values0, consumed)
      ensures u.events == events0 + ValueEvents(consumed)
      ensures unchanged(u.dmxAssociations)
      ensures complete ==> |consumed| == 512 * (frames + 1) &&
                           tableUpdates == updates0 + frames + 1 &&
                           tableStores == stores0 + FrameStores(values0, consumed, frames + 1)
      ensures !complete ==> q.contents == [] && t == |arrivals| &&
                            |consumed0| <= |consumed| < |consumed0| + 512 &&
                            tableUpdates == updates0 + |consumed| / 512 &&
                            tableStores == stores0 + FrameStores(values0, consumed, |consumed| / 512)
    {
      t, complete, consumed := ReadFrame(q, u, arrivals, t0, consumed0, base, values0, events0);
      if !complete {
        FrameStoresShort(values0, consumed0, consumed, frames);
        return;
      }
      tableUpdates := tableUpdates + 1;
      tableStores := tableStores + [u.dmxValues[..]];
      FrameStoresNext(values0, consumed0, consumed, frames);
    }

    /** The listener thread's body, run until the arrival schedule is used
        up. Every sample is consumed, none twice; the Universe ends as if
        every sample had been set on its slot in order, and `updateTable`
        was signalled once per whole frame. */
    method Run(q: InputQueue, u: Universe, arrivals: seq<seq<int>>)
      requires u.Valid()
      modifies this, q, u, u.dmxValues
      ensures u.Valid()
      ensures q.contents == []
      ensures u.dmxValues[..] == ApplyStream(old(u.dmxValues[..]), old(q.contents) + Flatten(arrivals))
      ensures u.events == old(u.events) + ValueEvents(old(q.contents) + Flatten(arrivals))
      ensures tableUpdates == old(tableUpdates) + |old(q.contents) + Flatten(arrivals)| / 512
      ensures tableStores == old(tableStores) +
              FrameStores(old(u.dmxValues[..]), old(q.contents) + Flatten(arrivals),
                          |old(q.contents) + Flatten(arrivals)| / 512)
      ensures unchanged(u.dmxAssociations)
    {
      ghost var base := q.contents;
      ghost var stream := base + Flatten(arrivals);
      ghost var values0 := u.dmxValues[..];
      ghost var events0 := u.events;
      ghost var updates0, stores0 := tableUpdates, tableStores;
      ghost var consumed: seq<int> := [];
      ghost var frames: nat := 0;
      var t: nat := 0;
      FlattenGrows(arrivals, 0);
      while true
        invariant u.Valid()
        invariant t <= |arrivals|
        invariant consumed + q.contents == base + Flatten(arrivals[..t])
        invariant |consumed| + |q.contents| <= |stream|
        invariant |consumed| == 512 * frames
        invariant u.dmxValues[..] == ApplyStream(values0, consumed)
        invariant u.events == events0 + ValueEvents(consumed)
        invariant tableUpdates == updates0 + frames
        invariant tableStores == stores0 + FrameStores(values0, consumed, frames)
        invariant unchanged(u.dmxAssociations)
        decreases |stream| - |consumed| + |arrivals| - t
      {
        // Wait for the start of a frame.
        var head;
        t, head := WaitForData(q, arrivals, t, consumed, base);
        if head.None? {
          assert arrivals[..t] == arrivals;
          assert consumed == stream;
          FrameStoresShort(values0, consumed, consumed, frames);
          return;
        }
        var complete;
        t, complete, consumed :=
          ReadAndSignal(q, u, arrivals, t, consumed, base, values0, events0, frames, updates0, stores0);
        if !complete {
          assert arrivals[..t] == arrivals;
          assert consumed == stream;
          return;
        }
        frames := frames + 1;
        FlattenGrows(arrivals, t);
      }
    }
  }
}
