/** Test-signal generation: whole frames of samples queued for the
    listener, built from the Universe's current values. */
module Generator {
  import opened Wrappers
  import opened Validator
  import opened InputQueues
  import opened Listener
  import opened TrunkUniverse
  import opened TrunkDmxInput

  /** `Random.nextInt(256)`: some value in 0 .. 255. */
  method GenerateValue() returns (v: int)
    ensures 0 <= v <= 255
  {
    v :| 0 <= v <= 255;
  }

  /** Queues a frame of 512 random valid values. */
  method GenerateAll(q: InputQueue)
    modifies q
    ensures |q.contents| == |old(q.contents)| + 512
    ensures q.contents[..|old(q.contents)|] == old(q.contents)
    ensures forall k :: |old(q.contents)| <= k < |q.contents| ==> 0 <= q.contents[k] <= 255
  {
    for i := 1 to 513
      invariant |q.contents| == |old(q.contents)| + i - 1
      invariant q.contents[..|old(q.contents)|] == old(q.contents)
      invariant forall k :: |old(q.contents)| <= k < |q.contents| ==> 0 <= q.contents[k] <= 255
    {
      var v := GenerateValue();
      q.Add(v);
    }
  }

  /** Queues a frame that repeats the Universe's values except on channel
      `n`, which gets `x`: the sample building shared by `Generate` and
      `Inject`, where `x` is random or given. */
  predicate QueuedFrame(before: seq<int>, after: seq<int>, values: seq<int>, n: int, x: int)
    requires |values| == Channels && 1 <= n <= 512
  {
    after == before + values[n - 1 := x]
  }

  /** Queues a frame whose channel `channelNumber` is random and whose other
      channels are the Universe's current values; the Universe is only
      read. */
  method Generate(channelNumber: int, u: Universe, q: InputQueue) returns (r: Status)
    requires u.Valid()
    modifies q
    ensures r == if 1 <= channelNumber <= 512 then Done else Failed(InvalidChannelNumber(channelNumber))
    ensures r.Failed? ==> q.contents == old(q.contents)
    ensures r.Done? ==> |q.contents| == |old(q.contents)| + 512 &&
                        0 <= q.contents[|old(q.contents)| + channelNumber - 1] <= 255 &&
                        QueuedFrame(old(q.contents), q.contents, u.dmxValues[..], channelNumber,
                                    q.contents[|old(q.contents)| + channelNumber - 1])
  {
    if Validate(channelNumber, NumValidation) {
      ghost var x: int := 0;
      for i := 1 to 513
        invariant 0 <= x <= 255
        invariant q.contents == old(q.contents) + u.dmxValues[..][channelNumber - 1 := x][..i - 1]
      {
        ghost var frame := u.dmxValues[..][channelNumber - 1 := x];
        if i == channelNumber {
          var v := GenerateValue();
          q.Add(v);
          x := v;
          assert frame[..i - 1] == u.dmxValues[..][channelNumber - 1 := x][..i - 1];
        } else {
          var value := u.GetValue(i);
          q.Add(value.value);
        }
        frame := u.dmxValues[..][channelNumber - 1 := x];
        assert frame[..i] == frame[..i - 1] + [frame[i - 1]];
      }
      assert u.dmxValues[..][channelNumber - 1 := x][..512] == u.dmxValues[..][channelNumber - 1 := x];
      r := Done;
    } else {
      r := Failed(InvalidChannelNumber(channelNumber));
    }
  }

  /** Queues a frame whose channel `channelNumber` is `channelValue` and
      whose other channels are the Universe's current values. The number is
      validated before the value; the Universe is only read. */
  method Inject(channelNumber: int, channelValue: int, u: Universe, q: InputQueue) returns (r: Status)
    requires u.Valid()
    modifies q
    ensures r == if !(1 <= channelNumber <= 512) then Failed(InvalidChannelNumber(channelNumber))
                 else if !(0 <= channelValue <= 255) then Failed(InvalidChannelValue(channelValue))
                 else Done
    ensures r.Failed? ==> q.contents == old(q.contents)
    ensures r.Done? ==> QueuedFrame(old(q.contents), q.contents, u.dmxValues[..], channelNumber, channelValue)
  {
    if Validate(channelNumber, NumValidation) {
      if Validate(channelValue, ValValidation) {
        ghost var frame := u.dmxValues[..][channelNumber - 1 := channelValue];
        for i := 1 to 513
          invariant q.contents == old(q.contents) + frame[..i - 1]
        {
          if i == channelNumber {
            q.Add(channelValue);
          } else {
            var value := u.GetValue(i);
            q.Add(value.value);
          }
          assert frame[..i] == frame[..i - 1] + [frame[i - 1]];
        }
        assert frame[..512] == frame;
        r := Done;
      } else {
        r := Failed(InvalidChannelValue(channelValue));
      }
    } else {
      r := Failed(InvalidChannelNumber(channelNumber));
    }
  }

  /** A queued frame, once the listener has read it, leaves the Universe
      exactly as the generator saw it except that channel n holds x. */
  lemma {:induction false} ListenedFrameSetsChannel(values: seq<int>, n: int, x: int)
    requires |values| == Channels && 1 <= n <= 512 && 0 <= x <= 255
    requires forall c :: 0 <= c < Channels ==> 0 <= values[c] <= 255
    ensures ApplyStream(values, values[n - 1 := x]) == values[n - 1 := x]
  {
    var frame := values[n - 1 := x];
    forall c | 0 <= c < Channels
      ensures ApplyStream(values, frame)[c] == frame[c]
    {
      FrameApplied(values, frame, c);
    }
  }

  /** Injecting a value and letting the listener read the queued frame has
      the effect of setting that one channel. */
  method InjectThenListen(channelNumber: int, channelValue: int, u: Universe, q: InputQueue, l: DmxInput)
    returns (r: Status)
    requires u.Valid() && q.contents == []
    modifies q, u, u.dmxValues, l
    ensures u.Valid() && q.contents == []
    ensures r.Done? <==> 1 <= channelNumber <= 512 && 0 <= channelValue <= 255
    ensures r.Done? ==> u.dmxValues[..] == old(u.dmxValues[..])[channelNumber - 1 := channelValue]
    ensures r.Failed? ==> u.dmxValues[..] == old(u.dmxValues[..])
  {
    r := Inject(channelNumber, channelValue, u, q);
    ghost var frame := q.contents;
    assert r.Done? ==> frame == old(u.dmxValues[..])[channelNumber - 1 := channelValue];
    assert r.Failed? ==> frame == [];
    assert frame + Flatten([]) == frame;
    l.Run(q, u, []);
    if r.Done? {
      ListenedFrameSetsChannel(old(u.dmxValues[..]), channelNumber, channelValue);
    }
  }
}
