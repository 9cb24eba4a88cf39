/**
 * FluidController: stream orchestration and health monitoring.  It reads the
 * preferences, enumerates the output devices able to play the renderer's
 * format, opens a sink on the configured device with a buffer sized from the
 * requested latency, arms the stall detector after a warm-up delay and
 * reports stalls and underruns.  Timer and sink callbacks are the methods
 * ArmTimeout, StallTick and SinkStateChanged.
 */
module Controller {
  import opened Wrappers
  import opened Defaults
  import opened AudioFormat
  import opened OrderedMap
  import opened QtAudio
  import opened FluidLite
  import opened Renderer
  import opened Settings

  datatype Notification = StallDetected | UnderrunDetected

  /**
   * How `initialize` ends: with the sink started, or where the source goes
   * on to use a sink that `initAudio` did not create (no capable device).
   */
  datatype InitOutcome = Started | NoSink

  /**
   * The log after `initialize`: what it held, then FluidLite's messages
   * from the renderer's initialize, then those from its start.
   */
  function AfterStart(prior: seq<string>, engineLog: seq<LogMessage>): (log: seq<string>)
    ensures |log| == |prior| + 2 * |engineLog|
    ensures log[..|prior|] == prior
  {
    prior + LogLines(engineLog) + LogLines(engineLog)
  }

  /**
   * A single-shot arming callback scheduled by `initialize`: it fires after
   * `delayMs` and then starts the detector with the buffer time it captured.
   */
  datatype PendingArm = PendingArm(delayMs: int, bufferTimeMs: int)

  // ---------------------------------------------------------------------
  // Stall detection, one tick and over many intervals
  // ---------------------------------------------------------------------

  /** A tick reports a stall iff the stream is running and nothing was produced. */
  predicate StallFires(running: bool, lastBufferSize: int) {
    running && lastBufferSize == 0
  }

  /** The counter after a tick: reset while running, untouched otherwise. */
  function LastAfterTick(running: bool, lastBufferSize: int): (last: int)
    ensures running ==> last == 0
    ensures !running ==> last == lastBufferSize
  {
    if running then 0 else lastBufferSize
  }

  /** The counter after a run of pulls: the last pull overwrites, nothing accumulates. */
  function LastAfterPulls(last: int, pulls: seq<int>): (r: int)
    ensures pulls == [] ==> r == last
    ensures pulls != [] ==> r == ToInt32(pulls[|pulls| - 1])
  {
    if pulls == [] then last else ToInt32(pulls[|pulls| - 1])
  }

  /**
   * Stall notifications over consecutive detector intervals of a running
   * stream; `intervals[k]` lists the byte counts `readData` returned during
   * interval k, and a tick ends each interval.
   */
  function StallsOver(intervals: seq<seq<int>>, last: int): nat
  {
    if intervals == [] then 0
    else
      var l := LastAfterPulls(last, intervals[0]);
      (if StallFires(true, l) then 1 else 0) + StallsOver(intervals[1..], LastAfterTick(true, l))
  }

  /** Intervals in which no buffer was pulled at all. */
  function IdleIntervals(intervals: seq<seq<int>>): (n: nat)
    ensures n <= |intervals|
    ensures n == 0 <==> forall k :: 0 <= k < |intervals| ==> intervals[k] != []
    ensures n == |intervals| <==> forall k :: 0 <= k < |intervals| ==> intervals[k] == []
  {
    if intervals == [] then 0
    else (if intervals[0] == [] then 1 else 0) + IdleIntervals(intervals[1..])
  }

  /**
   * While running, exactly one stall is reported per interval without a
   * pull, and none for an interval with one, given that every pull
   * produced at least one quantum within the range of the counter; only
   * the first interval may be covered by a count left from before arming.
   */
  lemma {:induction false} StallsCountIdleIntervals(intervals: seq<seq<int>>, last: int)
    requires forall k, j :: 0 <= k < |intervals| && 0 <= j < |intervals[k]| ==> 0 < intervals[k][j] <= Int32Max
    ensures StallsOver(intervals, last) ==
            IdleIntervals(intervals) - (if last != 0 && |intervals| > 0 && intervals[0] == [] then 1 else 0)
  {
    if intervals != [] {
      var l := LastAfterPulls(last, intervals[0]);
      if intervals[0] != [] {
        assert 0 < intervals[0][|intervals[0]| - 1] <= Int32Max;
      }
      StallsCountIdleIntervals(intervals[1..], 0);
    }
  }

  // ---------------------------------------------------------------------
  // The controller
  // ---------------------------------------------------------------------

  /** A default-constructed QAudioDevice: no description, supports nothing. */
  const NullDevice: Device := Device("", {})

  class FluidController {
    const renderer: FluidRenderer
    var stallTimerActive: bool
    var stallIntervalMs: int
    var audioDeviceName: string
    var requestedBufferTime: int
    var running: bool
    var format: Format
    var sink: AudioSink?
    var availableDevices: seq<Entry<Device>>
    var audioDevice: Device
    var defSoundFont: string
    /** The single-shot arming callbacks scheduled and not yet run. */
    var pendingArms: seq<PendingArm>
    /** Signals emitted, in order. */
    var notifications: seq<Notification>

    /** The device map is a QMap, and the stall timer runs exactly while the stream is marked running. */
    ghost predicate Valid()
      reads this
    {
      Sorted(availableDevices) && stallTimerActive == running
    }

    /** The state `stop` leaves: nothing running, the sink stopped, the renderer torn down and closed. */
    ghost predicate Quiescent()
      reads this, renderer, sink
    {
      !running && !stallTimerActive && (sink != null ==> sink.state == StoppedState)
      && renderer.TornDown() && renderer.Stopped()
    }

    /** The preferences as the controller and its renderer hold them now. */
    function CurrentPrefs(): (p: Prefs)
      reads this`requestedBufferTime, this`audioDeviceName
      reads renderer`soundFont, renderer`chorus, renderer`reverb, renderer`gain, renderer`polyphony
      ensures p.soundFont == renderer.soundFont && p.bufferTime == requestedBufferTime
      ensures p.audioDevice == audioDeviceName && p.gain == renderer.gain
    {
      Prefs(renderer.soundFont, requestedBufferTime, renderer.chorus, renderer.reverb,
            renderer.gain, renderer.polyphony, audioDeviceName)
    }

    /** The preferences in place are the ones `store` yields, with the default soundfont now known. */
    ghost predicate Configured(store: map<string, Variant>)
      reads this`defSoundFont, this`requestedBufferTime, this`audioDeviceName
      reads renderer`soundFont, renderer`chorus, renderer`reverb, renderer`gain, renderer`polyphony
    {
      CurrentPrefs() == ReadPrefs(store, defSoundFont)
    }

    constructor (bufTime: int)
      ensures Valid() && fresh(renderer)
      ensures requestedBufferTime == bufTime && audioDeviceName == DefaultAudioDevice
      ensures !running && !stallTimerActive && sink == null
      ensures availableDevices == [] && pendingArms == [] && notifications == []
      ensures renderer.synth == null && renderer.lastBufferSize == 0 && !renderer.isOpen
    {
      renderer := new FluidRenderer();
      stallTimerActive := false;
      stallIntervalMs := 0;
      audioDeviceName := DefaultAudioDevice;
      requestedBufferTime := bufTime;
      running := false;
      format := Format(0, 0, Unknown);
      sink := null;
      availableDevices := [];
      audioDevice := NullDevice;
      defSoundFont := "";
      pendingArms := [];
      notifications := [];
    }

    /** The stall-detector timeout. */
    method StallTick()
      modifies this`notifications, renderer`lastBufferSize
      ensures notifications == old(notifications) +
                (if StallFires(running, old(renderer.lastBufferSize)) then [StallDetected] else [])
      ensures renderer.lastBufferSize == LastAfterTick(running, old(renderer.lastBufferSize))
    {
      if running {
        if renderer.LastBufferSize() == 0 {
          notifications := notifications + [StallDetected];
        }
        renderer.ResetLastBufferSize();
      }
    }

    /**
     * The sink's stateChanged callback: an underrun is reported only while
     * running; the new state itself is ignored and nothing is corrected.
     */
    method SinkStateChanged(state: AudioState)
      requires sink != null
      modifies this`notifications
      ensures notifications == old(notifications) +
                (if running && sink.error == UnderrunError then [UnderrunDetected] else [])
    {
      if running && sink.error == UnderrunError {
        notifications := notifications + [UnderrunDetected];
      }
    }

    /**
     * The driver changing the sink's state, delivered through the
     * stateChanged connection: the sink records the new state and error,
     * and the controller's slot then sees that error.
     */
    method SinkReports(newState: AudioState, newError: AudioError)
      requires sink != null
      modifies sink`state, sink`error, this`notifications
      ensures sink.state == newState && sink.error == newError
      ensures notifications == old(notifications) +
                (if running && newError == UnderrunError then [UnderrunDetected] else [])
    {
      sink.Report(newState, newError);
      SinkStateChanged(newState);
    }

    /** The single-shot arming callback scheduled by `initialize`, the `i`-th still pending. */
    method ArmTimeout(i: nat)
      requires Valid() && i < |pendingArms|
      modifies this`running, this`stallTimerActive, this`stallIntervalMs, this`pendingArms
      ensures Valid()
      ensures running && stallTimerActive
      ensures stallIntervalMs == StallIntervalMs(old(pendingArms[i].bufferTimeMs))
      ensures pendingArms == old(pendingArms[..i] + pendingArms[i + 1..])
    {
      var bufferTime := pendingArms[i].bufferTimeMs;
      pendingArms := pendingArms[..i] + pendingArms[i + 1..];
      running := true;
      stallTimerActive := true;
      stallIntervalMs := StallIntervalMs(bufferTime);
    }

    /**
     * initAudioDevices: the map is rebuilt from the enumerated `devices`,
     * keeping those that support the format, and the current device is
     * reset to the platform default.
     */
    method InitAudioDevices(devices: seq<Device>, platformDefault: Device)
      requires Valid()
      modifies this`availableDevices, this`audioDevice
      ensures Valid()
      ensures availableDevices == SupportedDevices(devices, format)
      ensures audioDevice == platformDefault
    {
      availableDevices := [];
      audioDevice := platformDefault;
      var i := 0;
      while i < |devices|
        invariant 0 <= i <= |devices|
        invariant availableDevices == SupportedDevices(devices[..i], format)
        invariant audioDevice == platformDefault
      {
        assert devices[..i + 1][..i] == devices[..i];
        var dev := devices[i];
        if IsFormatSupported(dev, format) {
          availableDevices := Insert(availableDevices, dev.description, dev);
        }
        i := i + 1;
      }
      assert devices[..i] == devices;
      SupportedDevicesSorted(devices, format);
    }

    /** availableAudioDevices: the names of the capable devices, ascending, each once. */
    function AvailableAudioDevices(): (names: seq<string>)
      requires Valid()
      reads this
      ensures |names| == |availableDevices|
      ensures forall i, j :: 0 <= i < j < |names| ==> Less(names[i], names[j]) && names[i] != names[j]
      ensures forall n :: n in names <==> Lookup(availableDevices, n).Some?
    {
      KeysSorted(availableDevices);
      Keys(availableDevices)
    }

    /**
     * initAudio: the old sink is dropped; the configured device is chosen if
     * registered, else the current one is kept; a sink is created only if
     * the chosen device supports the format.
     */
    method InitAudio()
      modifies this`sink, this`audioDevice
      ensures audioDevice == ResolveDevice(availableDevices, audioDeviceName, old(audioDevice))
      ensures sink != null <==> IsFormatSupported(audioDevice, format)
      ensures sink != null ==> fresh(sink) && sink.device == audioDevice && sink.format == format
      ensures sink != null ==> sink.state == StoppedState && sink.error == NoError && sink.stopCalls == 0
    {
      sink := null;
      var found := Lookup(availableDevices, audioDeviceName);
      if found.Some? {
        audioDevice := found.value;
      }
      if !IsFormatSupported(audioDevice, format) {
        return;
      }
      sink := new AudioSink(audioDevice, format);
    }

    /**
     * The first half of `initialize`: the renderer is initialized, then
     * started (which initializes it again), and its format is adopted.
     */
    method StartRenderer(libraryVersion: string, engine: Option<nat -> Byte>, loadResult: int,
                         engineLog: seq<LogMessage>)
      modifies this`format
      modifies renderer`libVersion, renderer`settings, renderer`synth, renderer`sfid, renderer`sf2loaded
      modifies renderer`format, renderer`status, renderer`isOpen, renderer`diagnostics
      ensures renderer.isOpen && format == renderer.format
      ensures renderer.InitializedBy(libraryVersion, engine, loadResult, old(renderer.sfid), old(renderer.sf2loaded))
      ensures renderer.synth != null ==> fresh(renderer.synth)
      ensures renderer.diagnostics == AfterStart(old(renderer.diagnostics), engineLog)
    {
      renderer.Initialize(libraryVersion, engine, loadResult, engineLog);
      renderer.Start(libraryVersion, engine, loadResult, engineLog);
      format := renderer.format;
    }

    /**
     * The second half of `initialize`, once a sink exists: the sink asks for
     * the requested latency, starts with whatever size the driver applies,
     * and one arming callback is scheduled from the applied size.
     */
    method OpenSink(appliedBufferBytes: int)
      requires sink != null
      modifies sink`requestedBufferSize, sink`bufferSize, sink`state, this`pendingArms
      ensures sink.state == ActiveState
      ensures sink.requestedBufferSize == BytesForDuration(format, requestedBufferTime * 1000)
      ensures sink.bufferSize == appliedBufferBytes
      ensures var t := AppliedLatencyMs(format, appliedBufferBytes);
              pendingArms == old(pendingArms) + [PendingArm(ArmingDelayMs(t), t)]
    {
      var bufferBytes := BytesForDuration(format, requestedBufferTime * 1000);
      sink.SetBufferSize(bufferBytes);
      sink.Start(appliedBufferBytes);
      var bufferTime := AppliedLatencyMs(format, sink.bufferSize);
      pendingArms := pendingArms + [PendingArm(ArmingDelayMs(bufferTime), bufferTime)];
    }

    /**
     * The second half of `initialize`: the capable devices are registered,
     * the configured one is resolved and, when it can play the format, the
     * sink is opened and the arming of the stall detector scheduled.
     */
    method OpenOutput(devices: seq<Device>, platformDefault: Device, appliedBufferBytes: int)
      returns (outcome: InitOutcome)
      requires Valid()
      modifies this`availableDevices, this`audioDevice, this`sink, this`pendingArms
      ensures Valid()
      ensures availableDevices == SupportedDevices(devices, format)
      ensures audioDevice == ResolveDevice(availableDevices, audioDeviceName, platformDefault)
      ensures outcome == Started <==> IsFormatSupported(audioDevice, format)
      ensures outcome == Started ==>
                sink != null && fresh(sink) && sink.device == audioDevice && sink.state == ActiveState
                && sink.requestedBufferSize == BytesForDuration(format, requestedBufferTime * 1000)
                && sink.bufferSize == appliedBufferBytes
                && var t := AppliedLatencyMs(format, appliedBufferBytes);
                   pendingArms == old(pendingArms) + [PendingArm(ArmingDelayMs(t), t)]
      ensures outcome == NoSink ==> sink == null && pendingArms == old(pendingArms)
    {
      InitAudioDevices(devices, platformDefault);
      InitAudio();
      if sink == null {
        outcome := NoSink;
        return;
      }
      OpenSink(appliedBufferBytes);
      outcome := Started;
    }

    /**
     * initialize: starts the renderer, registers the capable devices, opens
     * a sink sized for the requested latency and schedules the arming of the
     * stall detector at twice the latency the sink actually applied.
     * `engine` and `loadResult` stand for what FluidLite returns, `devices`
     * and `platformDefault` for the enumeration, `appliedBufferBytes` for
     * the buffer size the driver accepts when the sink starts.
     */
    method Initialize(libraryVersion: string, engine: Option<nat -> Byte>, loadResult: int, engineLog: seq<LogMessage>,
                      devices: seq<Device>, platformDefault: Device, appliedBufferBytes: int)
      returns (outcome: InitOutcome)
      requires Valid()
      modifies this`format, this`availableDevices, this`audioDevice, this`sink, this`pendingArms
      modifies renderer`libVersion, renderer`settings, renderer`synth, renderer`sfid, renderer`sf2loaded
      modifies renderer`format, renderer`status, renderer`isOpen, renderer`diagnostics
      ensures Valid()
      ensures renderer.isOpen && format == renderer.format
      ensures renderer.InitializedBy(libraryVersion, engine, loadResult, old(renderer.sfid), old(renderer.sf2loaded))
      ensures renderer.synth != null ==> fresh(renderer.synth)
      ensures renderer.diagnostics == AfterStart(old(renderer.diagnostics), engineLog)
      ensures availableDevices == SupportedDevices(devices, format)
      ensures audioDevice == ResolveDevice(availableDevices, audioDeviceName, platformDefault)
      ensures outcome == Started <==> IsFormatSupported(audioDevice, format)
      ensures outcome == Started ==>
                sink != null && fresh(sink) && sink.device == audioDevice && sink.state == ActiveState
                && sink.requestedBufferSize == BytesForDuration(format, requestedBufferTime * 1000)
                && sink.bufferSize == appliedBufferBytes
                && var t := AppliedLatencyMs(format, appliedBufferBytes);
                   pendingArms == old(pendingArms) + [PendingArm(ArmingDelayMs(t), t)]
      ensures outcome == NoSink ==> sink == null && pendingArms == old(pendingArms)
    {
      StartRenderer(libraryVersion, engine, loadResult, engineLog);
      outcome := OpenOutput(devices, platformDefault, appliedBufferBytes);
    }

    /** uninitialize: the renderer is uninitialized and stopped. */
    method Uninitialize()
      modifies renderer`synth, renderer`settings, renderer`status, renderer`diagnostics, renderer`isOpen
      ensures renderer.TornDown() && renderer.Stopped()
      ensures old(renderer.TornDown() && renderer.Stopped()) ==> unchanged(renderer)
    {
      renderer.Uninitialize();
      renderer.Stop();
    }

    /**
     * stop: clears the running flag, stops the stall timer, stops the sink
     * unless already stopped, and tears the renderer down.  A pending arming
     * callback is not cancelled.  On a quiescent controller it changes
     * nothing, in particular it issues no second sink stop.
     */
    method Stop()
      requires Valid()
      modifies this`running, this`stallTimerActive, sink
      modifies renderer`synth, renderer`settings, renderer`status, renderer`diagnostics, renderer`isOpen
      ensures Valid() && Quiescent()
      ensures sink != null ==>
                sink.stopCalls == old(sink.stopCalls) + (if old(sink.state) != StoppedState then 1 else 0)
      ensures sink != null ==>
                sink.error == old(sink.error) && sink.bufferSize == old(sink.bufferSize)
                && sink.requestedBufferSize == old(sink.requestedBufferSize)
      ensures pendingArms == old(pendingArms) && notifications == old(notifications)
      ensures old(Quiescent()) ==> unchanged(this, renderer) && (sink != null ==> unchanged(sink))
    {
      running := false;
      stallTimerActive := false;
      if sink != null && sink.state != StoppedState {
        sink.Stop();
      }
      renderer.Stop();
      Uninitialize();
    }

    /**
     * readSettings: `located` is the absolute path of the default soundfont
     * when the platform data directory holds one.  Every preference comes
     * from the store or its default; the sample rate is not read.
     */
    method ReadSettings(store: map<string, Variant>, located: Option<string>)
      modifies this`defSoundFont, this`requestedBufferTime, this`audioDeviceName
      modifies renderer`soundFont, renderer`chorus, renderer`reverb, renderer`gain, renderer`polyphony
      ensures defSoundFont == located.GetOr(old(defSoundFont))
      ensures var p := ReadPrefs(store, defSoundFont);
              renderer.soundFont == p.soundFont && requestedBufferTime == p.bufferTime
              && renderer.chorus == p.chorus && renderer.reverb == p.reverb && renderer.gain == p.gain
              && renderer.polyphony == p.polyphony && audioDeviceName == p.audioDevice
    {
      if located.Some? {
        defSoundFont := located.value;
      }
      renderer.soundFont := ToText(Value(store, KeyInstrumentsDefinition, TextValue(defSoundFont)));
      requestedBufferTime := ToInt(Value(store, KeyBufferTime, IntValue(DefaultBufferTime)));
      renderer.chorus := ToInt(Value(store, KeyChorus, IntValue(DefaultChorus)));
      renderer.reverb := ToInt(Value(store, KeyReverb, IntValue(DefaultReverb)));
      renderer.gain := ToDouble(Value(store, KeyGain, RealValue(DefaultGain)));
      renderer.polyphony := ToInt(Value(store, KeyPolyphony, IntValue(DefaultPolyphony)));
      audioDeviceName := ToText(Value(store, KeyAudioDevice, TextValue(DefaultAudioDevice)));
    }
    /**
     * The output backend's stop after readSettings: the stream is quiescent
     * and the preferences just read are all still in place.
     */
    method ReloadSettings(store: map<string, Variant>, located: Option<string>)
      requires Valid()
      modifies this`defSoundFont, this`requestedBufferTime, this`audioDeviceName, this`running, this`stallTimerActive, sink
      modifies renderer`soundFont, renderer`chorus, renderer`reverb, renderer`gain, renderer`polyphony
      modifies renderer`synth, renderer`settings, renderer`status, renderer`diagnostics, renderer`isOpen
      ensures Valid() && Quiescent()
      ensures defSoundFont == located.GetOr(old(defSoundFont))
      ensures Configured(store)
    {
      ReadSettings(store, located);
      Stop();
    }

    /**
     * The output backend's initialize (readSettings, then stop, then the
     * controller's initialize): the soundfont, buffer time and device name
     * just read are in place, the synth is built from the renderer's
     * preferences, and the configured soundfont is the one loaded.
     */
    method ApplySettings(store: map<string, Variant>, located: Option<string>,
                         libraryVersion: string, engine: Option<nat -> Byte>, loadResult: int,
                         engineLog: seq<LogMessage>,
                         devices: seq<Device>, platformDefault: Device, appliedBufferBytes: int)
      returns (outcome: InitOutcome)
      requires Valid()
      modifies this`defSoundFont, this`requestedBufferTime, this`audioDeviceName, this`running, this`stallTimerActive
      modifies this`format, this`availableDevices, this`audioDevice, this`sink, this`pendingArms, sink
      modifies renderer`soundFont, renderer`chorus, renderer`reverb, renderer`gain, renderer`polyphony
      modifies renderer`synth, renderer`settings, renderer`status, renderer`diagnostics, renderer`isOpen
      modifies renderer`libVersion, renderer`sfid, renderer`sf2loaded, renderer`format
      ensures Valid()
      ensures !running && defSoundFont == located.GetOr(old(defSoundFont))
      ensures var p := ReadPrefs(store, defSoundFont);
              renderer.soundFont == p.soundFont && requestedBufferTime == p.bufferTime && audioDeviceName == p.audioDevice
      ensures renderer.settings == Some(SynthSettings(renderer.sampleRate, renderer.gain, renderer.chorus, renderer.reverb, renderer.polyphony))
      ensures renderer.soundFont != "" ==> renderer.sfid == loadResult && renderer.sf2loaded == (loadResult != -1)
      ensures outcome == Started ==>
                sink != null && sink.requestedBufferSize == BytesForDuration(format, requestedBufferTime * 1000)
    {
      ReloadSettings(store, located);
      outcome := Initialize(libraryVersion, engine, loadResult, engineLog, devices, platformDefault, appliedBufferBytes);
    }
  }
}
