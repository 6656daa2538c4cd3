# dmxeffects core, modelled in Dafny

dmxeffects is a DMX512 lighting-control application. This project models its core: the channel pipeline and one validated record.

- **Validator** checks channel numbers (1–512) and channel values (0–255).
- **InputQueue** is the FIFO of raw samples between the DMX producer and the listener.
- **DMXInput** is the listener thread. It cuts the sample stream into frames of 512 slots.
- **Universe** is the 512-channel value store and its parallel association (label) store. Both are validated and publish notifications.
- **ControlChannel** is a module's sparse table from a channel value to an action.
- **Generator** builds test frames.
- **SoundTrack** is a record with a validated title and status.

The repository holds two revisions, `src/` and `trunk/`. Where they behave differently, each is modelled.

- `SrcUniverse` and `TrunkUniverse` differ in the label sent for a cleared slot: `" "` and `""`.
- `SrcDmxInput` reports every slot as a `(slot, sample)` event after a single `listenerStarted`. `TrunkDmxInput` writes every slot into the Universe, skipping rejected samples, and signals `updateTable` after each frame.
- `InputQueues.EagerQueueHolder` is the earlier revision's singleton, created at class load. `InputQueues.LazyQueueHolder` is the later revision's, created on demand and discarded by `DestroyInstance`.

How the model stands in for the source:

- **Exceptions** become `Status`/`Result` values carrying a `DmxError`.
- **`null` returns** become `Option`.
- **Each Qt signal** becomes an entry appended to a log field. The log is `events` on Universe and the src listener, `fired` on ControlChannel, and a counter on SoundTrack. The trunk listener counts its `updateTable` signals and also records, as a ghost log, the channel values at each signal.
- **The `InputQueue` singletons** become explicit holder objects. The listener and Generator do not go through a holder: they take one fixed queue as a parameter.
- **The user's answer** to the removal confirmation becomes the `confirmed` parameter.
- **`Random.nextInt(256)`** becomes a nondeterministic choice in 0..255.
- **The listener's infinite loop and its sleeps.** While the listener sleeps on an empty queue, the producer thread adds samples. Here that producer is an arrival schedule: the k-th sleep delivers batch `arrivals[k]`. `Run` goes on until it would wait with the schedule used up. Its contract depends only on the samples in order, not on how they were split into batches. So a stall inside a slot emits nothing, does not advance the slot, and the slot resumes when data arrives.
- **The two sleep tiers** (88 µs before a frame, 10 µs inside one) and the semaphores are timing and locking, and are abstracted.

Source quirks kept as written:

- A confirmed `removeAssociation(n, count)` sends one `RangeRemoved(n, count)`, then `count` association notices. Every one of them carries the first channel `n`, not `n + i`.
- A cleared slot is set back to unset (`null`) in both revisions. Only the label sent differs.
- Replacing a label with `setAssociation` goes through `removeAssociation(n, 1)`. A declined confirmation cancels the whole call.
- Nothing in the source keeps `n + count - 1 <= 512`. The model makes it a precondition of `RemoveAssociation`.
- The `src` classes and trunk/src/dmxeffects/dmx/Generator.java (lines 75, 115 and 117) name the validation kinds `CHANNEL_NUMBER_VALIDATION` and `CHANNEL_VALUE_VALIDATION`. The Validator shown defines `NUM_VALIDATION` and `VAL_VALIDATION`. They are taken to be the same two kinds, as the code evidently means.
- The trunk listener and Generator call `Universe.getInstance()` and `Main.getInstance().getDMX().getUniverse()`. The Universe is passed to them as a parameter instead.

## Model

| member | source | states |
|---|---|---|
| Validator.Validate | src/dmxeffects/dmx/Validator.java:49-62 | number validation holds iff 1 ≤ v ≤ 512, value validation iff 0 ≤ v ≤ 255, any other validation kind rejects |
| Validator.ValidateChannelNumber | src/dmxeffects/dmx/Validator.java:70-78 | true iff the number lies in 1..512 |
| Validator.ValidateChannelValue | src/dmxeffects/dmx/Validator.java:86-94 | true iff the value lies in 0..255 |
| Validator.ValidIndices | src/dmxeffects/dmx/Validator.java:70-94 | the accepted ranges as index ranges: a valid number n gives n−1 in [0,512), a valid value lies in [0,256) |
| UniverseEvents.ClearNotices | src/dmxeffects/dmx/Universe.java:232-236 | a confirmed removal sends max(count,0) notices, each carrying the first channel and the blank label |
| SrcUniverse.Universe.constructor | src/dmxeffects/dmx/Universe.java:48-61 | a new universe has every value 0, every label unset, no notification |
| SrcUniverse.Universe.SetValue | src/dmxeffects/dmx/Universe.java:95-113 | number error first (even if the value is bad too), then value error, both with nothing changed or sent; otherwise only slot n−1 changes, labels untouched, exactly one ValueChanged(n,v); stored values stay valid |
| SrcUniverse.Universe.SetValueBoxed | src/dmxeffects/dmx/Universe.java:63-76 | the Integer overload: same store on valid input, a silent no-op on either error |
| SrcUniverse.Universe.GetValue | src/dmxeffects/dmx/Universe.java:126-142 | number error for an invalid n, otherwise the stored value (0 if never set), always in 0..255 |
| SrcUniverse.Universe.SetAssociation | src/dmxeffects/dmx/Universe.java:157-175 | number error first; an unset slot takes the label with one AssocChanged; a set slot is first cleared by removing (n,1), and a declined confirmation cancels with the old label kept and nothing sent |
| SrcUniverse.Universe.GetAssociation | src/dmxeffects/dmx/Universe.java:186-201 | number error for an invalid n, otherwise the stored label or none |
| SrcUniverse.Universe.RemoveAssociation | src/dmxeffects/dmx/Universe.java:203-244 | number error, then cancellation with nothing changed; confirmed: slots n..n+count−1 unset and no other, RangeRemoved(n,count) then count AssocChanged(n," ") |
| SrcUniverse.SetThenGet | src/dmxeffects/dmx/Universe.java:95-142 | a valid set reads back exactly, with one notification |
| SrcUniverse.LabelThenRemove | src/dmxeffects/dmx/Universe.java:157-244 | labelling then removing: declined keeps the label, confirmed unsets it and sends the blank notice |
| TrunkUniverse.Universe.constructor | trunk/src/dmxeffects/dmx/Universe.java:63-77 | a new universe has every value 0, every label unset, no notification |
| TrunkUniverse.Universe.SetValue | trunk/src/dmxeffects/dmx/Universe.java:109-128 | number checked before value, either failure leaves state and log unchanged; success changes only slot n−1 and appends one ValueChanged(n,v) |
| TrunkUniverse.Universe.SetValueBoxed | trunk/src/dmxeffects/dmx/Universe.java:79-90 | both exceptions caught: bad input is a no-op |
| TrunkUniverse.Universe.GetValue | trunk/src/dmxeffects/dmx/Universe.java:141-158 | stored value (0 if unset), number error for an invalid n |
| TrunkUniverse.Universe.SetAssociation | trunk/src/dmxeffects/dmx/Universe.java:173-192 | replace through removal of (n,1); cancel keeps the old label and sends nothing |
| TrunkUniverse.Universe.GetAssociation | trunk/src/dmxeffects/dmx/Universe.java:203-218 | stored label; an unset slot answers none, since the handler that would answer "" cannot fire |
| TrunkUniverse.Universe.RemoveAssociation | trunk/src/dmxeffects/dmx/Universe.java:220-261 | declined: cancelled, no change; confirmed: one RangeRemoved(n,count), then count AssocChanged(n,""), slots n..n+count−1 unset |
| ControlChannels.ControlChannel.constructor | src/dmxeffects/dmx/ControlChannel.java:53-57 | all 256 values unbound, module number and name are the arguments |
| ControlChannels.ControlChannel.SetSignal | src/dmxeffects/dmx/ControlChannel.java:69-76 | a valid value's slot gets the action, replacing the old one, other 255 slots unchanged; an invalid value is the value error with the table unchanged |
| ControlChannels.ControlChannel.GetSignal | src/dmxeffects/dmx/ControlChannel.java:87-94 | the action bound to the value, or none; value error when out of range |
| ControlChannels.ControlChannel.Trigger | src/dmxeffects/dmx/ControlChannel.java:104-114 | a bound value fires its action exactly once with the value as argument, an unbound one does nothing, an invalid one is the value error; the table never changes |
| ControlChannels.ControlChannel.GetModuleChanNumber | src/dmxeffects/dmx/ControlChannel.java:121-123 | the module-local number given at construction |
| ControlChannels.ControlChannel.GetModuleName | src/dmxeffects/dmx/ControlChannel.java:130-132 | the module name given at construction |
| ControlChannels.RebindThenTrigger | src/dmxeffects/dmx/ControlChannel.java:69-107 | binding two actions to one value and triggering it fires only the second |
| InputQueues.InputQueue.constructor | src/dmxeffects/dmx/InputQueue.java:47-50 | a new queue is empty |
| InputQueues.InputQueue.Add | src/dmxeffects/dmx/InputQueue.java:68-92 | both overloads append at the tail: contents′ = contents + [v] |
| InputQueues.InputQueue.Poll | src/dmxeffects/dmx/InputQueue.java:99-113 | a non-empty queue answers its head and loses exactly that element; an empty one answers none and stays empty (the −1 sentinel is unreachable) |
| InputQueues.InputQueue.Peek | src/dmxeffects/dmx/InputQueue.java:121-135 | answers the head or none, never removes |
| InputQueues.FifoRoundTrip | src/dmxeffects/dmx/InputQueue.java:68-113 | adding a, b, c to an empty queue and polling three times answers a, b, c |
| InputQueues.PeekDoesNotRemove | trunk/src/dmxeffects/dmx/InputQueue.java:124-161 | repeated peeks answer the same head, which the next poll returns |
| InputQueues.EagerQueueHolder.constructor | src/dmxeffects/dmx/InputQueue.java:38 | class loading creates one empty queue |
| InputQueues.EagerQueueHolder.GetInstance | src/dmxeffects/dmx/InputQueue.java:58-60 | always the queue created at class load |
| InputQueues.LazyQueueHolder.constructor | trunk/src/dmxeffects/dmx/InputQueue.java:35 | no queue exists before the first request |
| InputQueues.LazyQueueHolder.GetInstance | trunk/src/dmxeffects/dmx/InputQueue.java:57-69 | the first call creates an empty queue, later calls answer the same one untouched |
| InputQueues.LazyQueueHolder.DestroyInstance | trunk/src/dmxeffects/dmx/InputQueue.java:74-83 | the current queue is forgotten |
| InputQueues.DestroyThenGet | trunk/src/dmxeffects/dmx/InputQueue.java:57-83 | after DestroyInstance the next GetInstance answers a fresh, empty queue |
| Listener.WaitForData | src/dmxeffects/dmx/DMXInput.java:55-81 | the wait loops only peek: no sample is taken, newly arrived samples are kept, and it ends with data present or the schedule used up |
| SrcDmxInput.DmxInput.constructor | src/dmxeffects/dmx/DMXInput.java:34-35 | a new listener has sent no notification: its log is empty |
| SrcDmxInput.DmxInput.Run | src/dmxeffects/dmx/DMXInput.java:40-87 | listenerStarted once before any value event, then one InputValue(k mod 512 + 1, s[k]) per sample of the whole stream, in order; the queue ends empty |
| SrcDmxInput.DmxInput.ReadFrame | src/dmxeffects/dmx/DMXInput.java:65-85 | slots 1..512 are each waited for, polled and emitted in order; a frame stops short only when the schedule runs out on an empty queue |
| SrcDmxInput.DmxInput.EmitSlot | src/dmxeffects/dmx/DMXInput.java:83-84 | the head sample is removed and emitted on the current slot, nothing else is taken |
| SrcDmxInput.StreamEventsStep | src/dmxeffects/dmx/DMXInput.java:83-84 | the next sample polled becomes the next event, on the next slot |
| SrcDmxInput.StreamEventsFrame | src/dmxeffects/dmx/DMXInput.java:65-85 | a stream starting with a whole frame emits slots 1..512 with that frame's samples, then the rest |
| SrcDmxInput.FramesInOrder | src/dmxeffects/dmx/DMXInput.java:43-85 | the events of m whole frames are the frames' events one after the other, never interleaved |
| SrcDmxInput.TwoFrames | src/dmxeffects/dmx/DMXInput.java:65-85 | two queued frames come out as frame one's 512 events, then frame two's |
| TrunkDmxInput.ApplyStream | trunk/src/dmxeffects/dmx/DMXInput.java:67-92 | feeding samples through setValue keeps a 512-slot store |
| TrunkDmxInput.StreamStep | trunk/src/dmxeffects/dmx/DMXInput.java:83-91 | one sample changes only its own channel and adds one ValueChanged if valid, and changes nothing and adds nothing if not |
| TrunkDmxInput.FrameApplied | trunk/src/dmxeffects/dmx/DMXInput.java:67-92 | after one frame fed into a store, channel c holds sample c if it is in 0..255 and its previous value otherwise |
| TrunkDmxInput.ApplyAppend | trunk/src/dmxeffects/dmx/DMXInput.java:44-95 | after whole frames, the next samples start again on slot 1: applying s1 + s2 is applying s2 to the store s1 left |
| TrunkDmxInput.FrameMApplied | trunk/src/dmxeffects/dmx/DMXInput.java:67-92 | for every frame m of the stream, not just the first: after it, channel c holds that frame's sample c if it is in 0..255, else what frames 0..m−1 left there |
| TrunkDmxInput.ApplyKeepsValid | trunk/src/dmxeffects/dmx/DMXInput.java:83-91 | skipping invalid samples keeps every channel value in 0..255 |
| TrunkDmxInput.StoreSample | trunk/src/dmxeffects/dmx/DMXInput.java:83-91 | setValue(i, sample) for one slot: an out-of-range sample is skipped, and the number error cannot arise |
| TrunkDmxInput.ReadFrame | trunk/src/dmxeffects/dmx/DMXInput.java:67-92 | polls exactly 512 samples in order and hands each to setValue on its slot; a frame stops short only when the schedule runs out on an empty queue |
| TrunkDmxInput.DmxInput.constructor | trunk/src/dmxeffects/dmx/DMXInput.java:20-21 | a new listener has signalled no `updateTable` yet, and its record of the stores seen at the signals is empty |
| TrunkDmxInput.DmxInput.ReadAndSignal | trunk/src/dmxeffects/dmx/DMXInput.java:67-93 | a completed frame signals updateTable once, after all 512 setValue calls, and records the store the whole frame left; a frame cut short signals nothing |
| TrunkDmxInput.FrameStoresNext | trunk/src/dmxeffects/dmx/DMXInput.java:67-93 | a completed frame m adds exactly one recorded store, ApplyStream of the first m+1 frames, after the m already recorded |
| TrunkDmxInput.FrameStoresShort | trunk/src/dmxeffects/dmx/DMXInput.java:44-95 | a frame the schedule cuts short adds no recorded store, and the stream then holds exactly the frames already signalled |
| TrunkDmxInput.DmxInput.Run | trunk/src/dmxeffects/dmx/DMXInput.java:44-95 | the whole stream is consumed in order; the Universe ends as ApplyStream of it with one ValueChanged per accepted sample; updateTable once per whole frame, signal j seeing exactly the store after frames 0..j (FrameStores), so no signal comes early or late; labels untouched |
| Generator.GenerateValue | trunk/src/dmxeffects/dmx/Generator.java:150-152 | a value in 0..255 |
| Generator.GenerateAll | trunk/src/dmxeffects/dmx/Generator.java:52-58 | appends exactly 512 samples, each in 0..255, keeping what was queued |
| Generator.Generate | trunk/src/dmxeffects/dmx/Generator.java:72-93 | invalid n: number error, queue unchanged; valid n: appends the Universe's values with slot n replaced by a value in 0..255; the Universe is only read |
| Generator.Inject | trunk/src/dmxeffects/dmx/Generator.java:112-142 | number error before value error, queue unchanged on either; otherwise appends the Universe's values with slot n replaced by v |
| Generator.ListenedFrameSetsChannel | trunk/src/dmxeffects/dmx/Generator.java:118-126 | the frame Generate or Inject queues, once read by the listener, changes exactly channel n to the injected value |
| Generator.InjectThenListen | trunk/src/dmxeffects/dmx/Generator.java:112-142 | inject then listen has the effect of setting channel n to v, and of nothing on bad input |
| SoundTracks.NewSoundTrack | src/dmxeffects/sound/SoundTrack.java:74-85 | a missing file fails first, then an empty title; otherwise the file and title are stored and the status is READY (30001) |
| SoundTracks.SoundTrack.Init | src/dmxeffects/sound/SoundTrack.java:80-84 | the successful construction stores the file and title, status READY, the invariant holds |
| SoundTracks.SoundTrack.GetFile | src/dmxeffects/sound/SoundTrack.java:92-94 | the file given at construction, which never changes |
| SoundTracks.SoundTrack.GetTitle | src/dmxeffects/sound/SoundTrack.java:101-103 | the stored title, never empty |
| SoundTracks.SoundTrack.GetStatus | src/dmxeffects/sound/SoundTrack.java:110-112 | the stored status, always one of 30001–30004 |
| SoundTracks.SoundTrack.SetTitle | src/dmxeffects/sound/SoundTrack.java:122-129 | an empty title fails with nothing changed or sent; otherwise the title is replaced and dataUpdated sent once |
| SoundTracks.SoundTrack.SetStatus | src/dmxeffects/sound/SoundTrack.java:140-153 | exactly 30001–30004 accepted, stored and signalled once; anything else fails with nothing changed or sent |

## Left out

- The GUI classes are not part of this model: Main, DMXModule, DMXDisplay, DMXUserInput, SoundGUI, ModuleGUI and Module. They are menus, dialogs and tables. Generator's status-bar messages are left out for the same reason.
- SoundModule and Player are not part of this model. Their dispatch through control channels is unreachable, and playback is empty stubs.
- trunk/src/dmxeffects/sound/SoundTrack.java behaves exactly like the src revision; only identifier names differ. The one `SoundTracks` class models both.
- trunk/src/dmxeffects/dmx/InputQueue.java `add`, `poll` and `peek` behave like the src revision's. The one `InputQueue` class models both; only the singletons differ.
- Multithreading: the semaphores, `moveToThread`, and `Thread.sleep` and its interruption. The queue is single-threaded here, and each sleep is one step of the arrival schedule.
- Exception messages and the text of the removal confirmation.
- SrcUniverse.Universe.RemoveAssociation: requires `n + count - 1 <= 512`. Past the end, the source would clear the slots up to 512, send their notices, and then fail with an array index error. That partial change is not modelled.
- TrunkUniverse.Universe.RemoveAssociation: the same precondition, for the same reason.
- `null` arguments are not modelled: a `null` label in `setAssociation`, a `null` Integer in `add` or `setValue`, and a `null` title. `setSignal`'s `null` is modelled, as `None`, which unbinds the value.
- TrunkDmxInput.DmxInput.Run, Generator.GenerateAll, Generator.Generate and Generator.Inject take one fixed queue. The source calls `InputQueue.getInstance()` again for every peek, poll and add (trunk/src/dmxeffects/dmx/DMXInput.java:57-84, trunk/src/dmxeffects/dmx/Generator.java:54, 78-80, 120-122). A `destroyInstance` during a run or a frame would move those later calls to a new queue. That switch is not modelled.
- Generator.InjectThenListen passes the same Universe to `Inject` and to the listener's `Run`. The Generator reads `Main.getInstance().getDMX().getUniverse()` (trunk/src/dmxeffects/dmx/Generator.java:81, 123). The listener writes to `Universe.getInstance()` (trunk/src/dmxeffects/dmx/DMXInput.java:84). These are assumed to be one object. The trunk Universe.java shown defines no `getInstance`, and Main is not part of this model.
- The listener's loop has no end in the source. `Run` stops when the arrival schedule is used up and the queue is empty. What follows would be further waiting.
