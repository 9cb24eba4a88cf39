# FluidLite real-time backend: a Dafny model

This project models the core of a Drumstick RT output backend. The backend renders MIDI
through the FluidLite software synthesizer into a Qt audio sink. Two classes carry the logic:

- `FluidRenderer` (`renderer.dfy`) is the pull-model audio source. When the sink asks for
  `maxlen` bytes, `readData` renders as many whole quanta as fit. A quantum is 64 frames ×
  2 channels × 4-byte floats = 512 bytes. It records the produced byte count in
  `lastBufferSize`. The class also strips System Exclusive framing (MIDI 1.0 Detailed
  Specification: Start-of-Exclusive 0xF0, End-of-Exclusive 0xF7) before forwarding a message.
  It keeps the lifecycle flags (synth, settings, status, soundfont id, open state) and the
  diagnostics log.
- `FluidController` (`controller.dfy`) orchestrates the stream and watches its health. It
  reads the preferences with their defaults. It builds the map of output devices that
  support the renderer's format, and resolves the configured device name against that map,
  falling back to the platform default. It sizes the sink buffer from the requested
  latency. The stall detector is armed after twice the latency the sink actually applied and
  ticks every four times that latency. A stall is reported when a running stream produced
  nothing since the last tick, and an underrun when the sink reports one while running.

Supporting modules:

- `fluid_lite.dfy` models the synthesizer as an opaque object. It is created with the byte
  stream it will render. Each `fluid_synth_write_float` call hands out the next piece of
  that stream and is logged.
- `qt_audio.dfy` models output devices (a description and the set of formats each accepts)
  and the sink (state, last error, buffer size, number of stop calls).
- `ordered_map.dfy` models `QMap<QString, …>` as a strictly sorted association list.
- `audio_format.dfy` holds the PCM format and Qt's duration/byte arithmetic.
- `settings.dfy` models the settings store as a key/value map of variants.
- `defaults.dfy` holds the controller's constants.

Timer and sink callbacks are explicit methods:

- `ArmTimeout` is the single-shot arming callback. Each one `initialize` schedules is kept in
  `pendingArms` as a `PendingArm` holding its delay and the latency it was computed from.
- `StallTick` is the stall-timer timeout.
- `SinkStateChanged` is the sink's state-change slot, and `SinkReports` the driver's state change
  delivered to it.

The synthesizer's results and the platform's answers are parameters. These include what
`new_fluid_synth` and `fluid_synth_sfload` return, the messages FluidLite hands to the log
callback meanwhile (`engineLog`), the enumerated devices, the platform
default device, the buffer size the driver applies, the settings store, and whether the
default soundfont exists on disk.

Qt's implementation of `QAudioFormat::bytesForDuration` and `durationForBytes` is not
modelled. The model assumes frames = µs × rate / 1 000 000 and bytes = frames × bytes per
frame. The reverse conversion goes back to whole frames, then to µs = 1 000 000 × frames /
rate. Every division truncates toward zero.

The model keeps these behaviours of the code as written:

- `readData` has no "synthesis unavailable" path. It needs a synth.
- Device resolution never fails. With an unknown name, the previously selected platform
  default is kept. If that device cannot play the format, no sink is created.
- There is no explicit stream-state enumeration. A `running` flag and the stall timer stand
  for it.
- `stop` does not cancel a pending arming callback. If the callback fires after `stop`, it
  marks the stream running again and restarts the stall timer. The model keeps that callback
  pending across `Stop`.
- `setSoundFont` updates the soundfont id and the loaded flag but not `status`.
- `initialize` leaves the soundfont id untouched when no soundfont is configured. The status
  it computes then depends on the id left by an earlier session.

## Model

| member | source | states |
|---|---|---|
| `AudioFormat.RendererFormat` | fluidrenderer.cpp:100-111 | The published format has exactly the renderer's sample rate, 2 channels and 32-bit float samples. For a positive rate it is valid, with 8 bytes per frame. |
| `AudioFormat.FramesOfBytesForDuration` | fluidcontroller.cpp:89 | The requested buffer size is a whole number of frames: dividing it by the frame size gives back the frame count for the requested duration. |
| `AudioFormat.AppliedLatencyMs` | fluidcontroller.cpp:95 | The buffer time is the sink's applied byte size converted to a duration, truncated to whole milliseconds. It is never negative. |
| `AudioFormat.ArmingDelayMs` | fluidcontroller.cpp:99 | The warm-up delay before arming is exactly twice the applied buffer time, so never shorter than it. |
| `AudioFormat.StallIntervalMs` | fluidcontroller.cpp:101 | The stall-check period is twice the arming delay, i.e. four times the buffer time. |
| `AudioFormat.AppliedLatencyNeverExceedsRequest` | fluidcontroller.cpp:89-95 | If the sink applies exactly the requested size, the derived buffer time lies between 0 and the requested milliseconds, for every valid format. |
| `AudioFormat.DefaultBufferArithmetic` | fluidcontroller.cpp:89-101 | 100 ms of stereo float32 at 44100 Hz requests 35280 bytes. That size reads back as 100 ms, so arming waits 200 ms and the detector ticks every 400 ms. |
| `OrderedMap.Lookup` | fluidcontroller.cpp:149-150 | A key is found iff some entry holds it, and the value found is stored under that key. |
| `OrderedMap.InsertSorted` | fluidcontroller.cpp:185-195 | Inserting into a sorted map keeps it sorted, so keys stay unique and ascending. |
| `OrderedMap.LookupInsert` | fluidcontroller.cpp:185-195 | After an insert, the key maps to the new value. Every other key keeps its previous lookup result, so a later duplicate replaces an earlier one. |
| `OrderedMap.KeysSorted` | fluidcontroller.cpp:236 | The keys of a sorted map are strictly ascending and pairwise distinct. |
| `QtAudio.SupportedDevicesSorted` | fluidcontroller.cpp:174-200 | The device map built from any enumeration is a well-formed QMap. |
| `QtAudio.SupportedDevicesHas` | fluidcontroller.cpp:189-197 | A name is registered iff some enumerated device with that description supports the format. |
| `QtAudio.SupportedDevicesLast` | fluidcontroller.cpp:189-197 | A registered name maps to a capable device with that description, and no later device in the enumeration is one. |
| `QtAudio.SupportedDevicesLookup` | fluidcontroller.cpp:189-197 | A name is registered iff some enumerated device with that description supports the format. It then maps to the last such device in enumeration order. |
| `QtAudio.ResolveDevice` | fluidcontroller.cpp:149-151 | A registered configured name selects its device. Otherwise the previously selected device is kept. |
| `Renderer.LeadingFraming` | fluidrenderer.cpp:235-237 | At most one leading byte is ever dropped. |
| `Renderer.StripSysexFraming` | fluidrenderer.cpp:230-240 | The forwarded bytes are a contiguous, in-order slice of the message. At most one leading and at most one trailing byte are dropped. They start after the first byte iff that byte is 0xF0. They stop before the last byte iff a byte remains after that and the last byte is 0xF7. |
| `Renderer.StripFramedRoundTrip` | fluidrenderer.cpp:232-240 | Stripping undoes framing for every payload: 0xF0 + p + 0xF7 is forwarded as p. |
| `Renderer.StripUnframed` | fluidrenderer.cpp:235-240 | A message with neither framing byte is forwarded unchanged. |
| `Renderer.StripKeepsInnerBytes` | fluidrenderer.cpp:235-240 | Every byte strictly inside the message is forwarded. |
| `Renderer.StripExample` | fluidrenderer.cpp:230-241 | [F0 43 12 F7] is forwarded as [43 12]. |
| `Renderer.StripNotIdempotent` | fluidrenderer.cpp:235-237 | [F0 F0 x] is forwarded as [F0 x], and stripping that again changes it: the operation is not idempotent. |
| `Renderer.WholeQuanta` | fluidrenderer.cpp:124-127 | Given 0 < quantum ≤ maxlen, the produced size is a multiple of the quantum with quantum ≤ size ≤ maxlen and maxlen − size < quantum. It is therefore never 0. |
| `Renderer.WritePlanAt` | fluidrenderer.cpp:131-135 | Render call i writes `frames` frames at float offset i × frames × channels. |
| `Renderer.ToInt32` | fluidrenderer.cpp:137 | Storing the qint64 count in the `int` field wraps modulo 2^32 into the int range. It is the identity on that range. |
| `Renderer.WideRequestRecordedAsZero` | fluidrenderer.cpp:127-137 | A 4 GiB request produces 2^32 bytes (whole quanta), but the counter records 0. |
| `Renderer.LevelPrefix` | fluidrenderer.cpp:335-340 | The prefix is empty exactly for levels outside Error, Warning, Information and Debug. |
| `Renderer.DiagnosticLine` | fluidrenderer.cpp:341 | An entry is the level prefix, then ": ", then the message verbatim. |
| `Renderer.LogLinesAt` | fluidrenderer.cpp:28-33 | The callback appends one entry per FluidLite message, in order: entry i is message i formatted as `appendDiagnostics` formats it. |
| `Renderer.ReverbPreset` | fluidrenderer.cpp:249-265 | Parameters are set only for types 1..5: room size type/5, damping 0.2, width 0.75, level 0.8. |
| `Renderer.FluidRenderer.constructor` | fluidrenderer.cpp:35-54 | A new renderer has no synth or settings, status false, soundfont id −1, not loaded, counter 0, empty log and closed device, and uses the controller's defaults. |
| `Renderer.FluidRenderer.QuantumBytes` | fluidrenderer.cpp:124-125 | One render quantum is 512 bytes (64 frames × 2 channels × 4 bytes). |
| `Renderer.FluidRenderer.ReadData` | fluidrenderer.cpp:121-140 | It returns the whole quanta that fit (a multiple of 512, ≤ maxlen, less than 512 short of it). It calls the synth maxlen/512 times at successive offsets. The returned bytes are the synth's next output in order, bytes from the result on are untouched, and the counter is overwritten with the result. |
| `Renderer.FluidRenderer.WriteData` | fluidrenderer.cpp:142-148 | The device is read-only: every write reports 0 bytes accepted. |
| `Renderer.FluidRenderer.Size` | fluidrenderer.cpp:150-154 | The stream is endless: its size is the largest qint64. |
| `Renderer.FluidRenderer.BytesAvailable` | fluidrenderer.cpp:156-160 | A read never waits: the largest qint64 is always available. |
| `Renderer.FluidRenderer.LastBufferSize` | fluidrenderer.cpp:317-320 | The accessor returns the byte count the latest `readData` recorded (0 after a reset). |
| `Renderer.FluidRenderer.ResetLastBufferSize` | fluidrenderer.cpp:322-325 | The counter becomes 0 and nothing else changes. |
| `Renderer.FluidRenderer.Stopped` | fluidrenderer.cpp:162-167 | Stopped iff the device is not open. |
| `Renderer.FluidRenderer.Uninitialize` | fluidrenderer.cpp:56-70 | Afterwards there is no synth and no settings, status is false and the log is empty. A second call changes nothing. |
| `Renderer.FluidRenderer.Initialize` | fluidrenderer.cpp:72-113 | Settings carry the renderer's rate, gain, chorus, reverb and polyphony. A fresh synth exists iff the engine yields one; it renders the engine's stream from its start and has received nothing yet. A configured soundfont sets id := load result and loaded := (result ≠ −1); without one both keep their earlier values. The format is the stereo float format at the renderer's rate. Status ⇔ synth exists ∧ id ≥ 0. The log callback is registered first, so the log grows by exactly the formatted messages FluidLite logs meanwhile. |
| `Renderer.FluidRenderer.Start` | fluidrenderer.cpp:169-175 | Everything `Initialize` states, including the log entries, and the device is open. |
| `Renderer.FluidRenderer.Stop` | fluidrenderer.cpp:177-185 | The device is closed and the renderer is uninitialized. On an already stopped renderer nothing changes. |
| `Renderer.FluidRenderer.SetSoundFont` | fluidrenderer.cpp:305-315 | The file name is always recorded. The id and loaded flag follow the load result only when a synth exists; otherwise they are unchanged. The log grows by FluidLite's formatted messages when a synth loads, and is unchanged otherwise. Status is not touched. |
| `Renderer.FluidRenderer.AppendDiagnostics` | fluidrenderer.cpp:333-343 | The log grows by exactly one formatted entry, and earlier entries are unchanged. |
| `Renderer.FluidRenderer.Sysex` | fluidrenderer.cpp:230-243 | The synth receives exactly the stripped payload. No audio is rendered by it, and its reverb and chorus state are unchanged. |
| `Renderer.FluidRenderer.InitReverb` | fluidrenderer.cpp:245-267 | Reverb is on iff type > 0. The preset parameters are sent only for types 1..5. Chorus, received SysEx and the rendering position are unchanged. |
| `Renderer.FluidRenderer.InitChorus` | fluidrenderer.cpp:269-274 | Chorus is on iff type > 0. Reverb, received SysEx and the rendering position are unchanged. |
| `Settings.Value` | fluidcontroller.cpp:257-264 | A key in the group yields its stored value; an absent key yields the default. |
| `Settings.TextToIntRoundTrip` | fluidcontroller.cpp:259 | A number stored as decimal text is read back as that number. |
| `Settings.ReadPrefsDefaults` | fluidcontroller.cpp:257-265 | With no key stored, the preferences are: the located soundfont, buffer time 100, chorus 0, reverb 1, gain 1.0, polyphony 256, device "default". |
| `Settings.ReadPrefsStored` | fluidcontroller.cpp:258-264 | A stored buffer time, soundfont, device or gain wins over its default. |
| `Settings.ReadPrefsIgnoresSampleRate` | fluidcontroller.cpp:257-265 | A stored sample rate has no effect on what is read. |
| `Controller.LastAfterTick` | fluidcontroller.cpp:62-69 | A tick resets the counter while running and leaves it untouched otherwise. |
| `Controller.LastAfterPulls` | fluidrenderer.cpp:137 | After pulls, the counter holds the last pull's size (overwritten, not summed). Without pulls it is unchanged. |
| `Controller.IdleIntervals` | fluidcontroller.cpp:62-69 | The count of intervals without a pull is at most the number of intervals; it is 0 iff every interval has a pull and equals their number iff none has. |
| `Controller.StallsCountIdleIntervals` | fluidcontroller.cpp:62-69 | Over any run of detector intervals, with every pull a positive in-range size, exactly one stall is reported per interval without a pull and none for the others. The only exception is a first idle interval covered by a count left from before arming. |
| `Controller.FluidController.constructor` | fluidcontroller.cpp:53-70 | A new controller is not running, has no sink, no devices, no pending arming and no signals, and uses the given buffer time and device "default". |
| `Controller.FluidController.StallTick` | fluidcontroller.cpp:62-69 | While running, one stall is emitted iff the counter is 0, and the counter is reset either way. When not running, nothing is emitted and the counter is untouched. |
| `Controller.FluidController.SinkStateChanged` | fluidcontroller.cpp:165-171 | An underrun signal is emitted iff running and the sink's error is an underrun. The reported state is ignored and nothing else changes. |
| `Controller.FluidController.SinkReports` | fluidcontroller.cpp:160-171 | When the driver reports a new state and error, the sink records both, and an underrun signal follows iff the controller is running and the error is an underrun. |
| `Controller.FluidController.ArmTimeout` | fluidcontroller.cpp:99-102 | The only place where running becomes true. It starts the stall timer with 4× the scheduled buffer time and consumes that pending callback. |
| `Controller.FluidController.InitAudioDevices` | fluidcontroller.cpp:174-200 | The map is rebuilt from scratch with the format-capable devices. It stays a valid QMap, and the current device becomes the platform default. |
| `Controller.FluidController.AvailableAudioDevices` | fluidcontroller.cpp:232-237 | Exactly the registered names, strictly ascending, each once. |
| `Controller.FluidController.InitAudio` | fluidcontroller.cpp:144-172 | The device is the registered device of the configured name, else the current one. A fresh sink on it exists iff that device supports the format. |
| `Controller.FluidController.StartRenderer` | fluidcontroller.cpp:84-86 | The renderer is initialized and started (open, with everything `Initialize` states) and the controller adopts its format. The log grows by FluidLite's messages from the initialize, then those from the start (`AfterStart`). |
| `Controller.FluidController.OpenSink` | fluidcontroller.cpp:89-102 | The sink requests bytesForDuration(bufferTime ms) and runs with the size the driver applies. One arming callback is scheduled with delay 2 × t, where t is the latency derived from the applied size, not the requested one. |
| `Controller.FluidController.OpenOutput` | fluidcontroller.cpp:87-102 | The capable devices are registered and the configured one resolved. A sink is opened and one arming callback scheduled iff that device supports the format; otherwise no sink exists and nothing is scheduled. |
| `Controller.FluidController.Initialize` | fluidcontroller.cpp:80-103 | The renderer is started, devices are registered and the device resolved. With a sink, the request is bytesForDuration(bufferTime ms) and the sink runs with the applied size. Exactly one pending arming callback is added, with delay 2 × t for the latency t derived from the applied size. Without a sink it stops early and schedules nothing. The renderer's log grows as in `StartRenderer`. Preferences, running flag and signals are outside its frame. |
| `Controller.FluidController.Uninitialize` | fluidcontroller.cpp:121-126 | The renderer is uninitialized and closed. Only its lifecycle fields (synth, settings, status, log, open state) may change; the soundfont, its id and the preferences stay. Repeating it changes nothing. |
| `Controller.FluidController.Stop` | fluidcontroller.cpp:105-119 | Afterwards: not running, timer stopped, sink stopped, renderer torn down. Only those fields change: the sink keeps its error and buffer sizes, and the preferences, the soundfont and its id stay. The sink's stop is called once iff it was not already stopped. Pending arming callbacks survive. On a stopped controller nothing changes, so a second stop issues no second sink stop. |
| `Controller.FluidController.ReadSettings` | fluidcontroller.cpp:239-268 | The default soundfont becomes the located file when one exists. Each preference is taken from the store or its default; the sample rate is not read. |
| `Controller.FluidController.ReloadSettings` | fluidliteoutput.cpp:53-57 | After readSettings and stop, the stream is quiescent and the preferences in place are exactly those read from the store. This is the predicate `Configured(store)`. The preferences in place are gathered by `CurrentPrefs`, the view of the fields readSettings writes. |
| `Controller.FluidController.ApplySettings` | fluidliteoutput.cpp:53-58 | After readSettings, stop and initialize, the renderer uses the soundfont read from the store, and when one is configured its id and loaded flag are the load result. The buffer time and device name in place are the ones read, and a started sink asks for that buffer time. The synth settings are built from the renderer's gain, chorus, reverb and polyphony. The stream is not yet running and the controller invariant holds. |

## Left out

- Renderer.FluidRenderer.ReadData: requires a synth. The source has no path for a missing synth and hands the null handle to FluidLite.
- Renderer.FluidRenderer.ReadData: requires maxlen ≥ 512, the debug assertion of fluidrenderer.cpp:126. A release build drops that assertion; a smaller request then returns 0 and records 0, which the next tick reports as a stall.
- Renderer.FluidRenderer.ReadData: the synth's output is abstracted as bytes written contiguously per call. The left/right interleaving by `fluid_synth_write_float`'s increments is not modelled.
- Renderer.FluidRenderer.Sysex: with no synth the message is treated as lost. What FluidLite does with a null handle is not modelled. The same holds for InitReverb and InitChorus.
- Controller.FluidController.Initialize: when no sink was created, the source goes on to use the missing sink (undefined behaviour). The model returns `NoSink` at that point instead.
- Controller.FluidController.Initialize: both renderer initializations (`initialize`, then `start`) get the same engine, load result and engine messages. The first synth is simply dropped.
- Controller.FluidController.InitAudio: deleting the previous sink is modelled only as dropping the reference. The source deletes the sink without clearing the member (fluidcontroller.cpp:148), so after the early return at fluidcontroller.cpp:154 the member dangles; the model sets it to null.
- The note, controller, program, pressure and pitch-bend forwarders of the renderer are not modelled. They pass their arguments to FluidLite unchanged.
- `setReverbLevel` and `setChorusLevel` are not modelled (floating-point comparisons). Gain is a real, and the reverb presets are exact reals rather than doubles.
- The plain accessors (`getDiagnostics`, `getLibVersion`, `getStatus`, `format`, `renderer`, `audioDevice`, `setAudioDevice`) are not modelled. They are the fields themselves. The controller's empty `open` and `close` are not modelled either.
- Destructors and memory ownership are not modelled.
- Renderer.LevelPrefix: the prefixes of fluidrenderer.cpp:336-339 go through `tr()` and are translated at run time. The model fixes the untranslated English words.
- The registration of the FluidLite log callback is modelled only by its effect: the messages FluidLite logs during `initialize`, `start` and `setSoundFont` are a parameter and are appended as `AppendDiagnostics` appends them. Messages FluidLite logs at other times (while rendering, say) are not modelled.
- Controller.FluidController.ApplySettings: states the soundfont, buffer time and device read from the store. It states that the synth settings come from the renderer's gain, chorus, reverb and polyphony, but not that these equal the values read; `ReloadSettings` states that, and `Initialize` does not write them.
- Concurrency is not modelled. `readData` runs on the audio thread and the timers on the control thread; here they are sequential method calls.
- Integer widths are unbounded except where the source stores a qint64 into an `int` field (`ToInt32`). Overflow of `bufferTime * 1000` and of Qt's qint32 byte counts is not modelled.
- QString ordering: Dafny characters are Unicode scalar values. Keys with characters beyond U+FFFF may order differently from QString's UTF-16 comparison.
- QVariant conversions: integer text with an optional sign converts. Other text, surrounding whitespace, real-to-int conversion and real-to-text formatting read as 0, 0.0 or "".
- Device format support is modelled as membership in a set of formats per device. Qt 5 keys devices by `deviceName()` and Qt 6 by `description()`; the model has one name.
- The settings dialog is not part of this model. Of the plugin adapter only its `initialize` sequence is modelled (`ApplySettings`); its `start` and `stop` call the controller directly.
