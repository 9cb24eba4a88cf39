/**
 * The Qt Multimedia collaborators of the controller: output devices, which
 * either support a PCM format or not, and the audio sink that pulls bytes
 * from the renderer.  Device enumeration and format support are inputs; the
 * sink is reduced to the state the controller reads and changes.
 */
module QtAudio {
  import opened Wrappers
  import opened AudioFormat
  import opened OrderedMap

  /** An output device: its description (the map key) and the formats it accepts. */
  datatype Device = Device(description: string, formats: set<Format>)

  predicate IsFormatSupported(d: Device, f: Format) {
    f in d.formats
  }

  datatype AudioState = ActiveState | SuspendedState | StoppedState | IdleState

  datatype AudioError = NoError | OpenError | IOError | UnderrunError | FatalError

  /**
   * The device map as `initAudioDevices` leaves it after visiting `devices`
   * in enumeration order: each format-capable device inserted under its
   * description, a later device replacing an earlier one of the same name.
   */
  function SupportedDevices(devices: seq<Device>, f: Format): seq<Entry<Device>>
  {
    if devices == [] then []
    else
      var m := SupportedDevices(devices[..|devices| - 1], f);
      var d := devices[|devices| - 1];
      if IsFormatSupported(d, f) then Insert(m, d.description, d) else m
  }

  /** The registry is always a well-formed QMap. */
  lemma {:induction false} SupportedDevicesSorted(devices: seq<Device>, f: Format)
    ensures Sorted(SupportedDevices(devices, f))
  {
    if devices != [] {
      SupportedDevicesSorted(devices[..|devices| - 1], f);
      var d := devices[|devices| - 1];
      if IsFormatSupported(d, f) {
        InsertSorted(SupportedDevices(devices[..|devices| - 1], f), d.description, d);
      }
    }
  }

  /** `d` is a device the registry takes under `name`. */
  predicate Provides(d: Device, f: Format, name: string) {
    d.description == name && IsFormatSupported(d, f)
  }

  /** Visiting one more device: it takes over its name if it provides it, otherwise nothing changes. */
  lemma LookupStep(devices: seq<Device>, f: Format, name: string)
    requires devices != []
    ensures Lookup(SupportedDevices(devices, f), name) ==
              if Provides(devices[|devices| - 1], f, name) then Some(devices[|devices| - 1])
              else Lookup(SupportedDevices(devices[..|devices| - 1], f), name)
  {
    var d := devices[|devices| - 1];
    if IsFormatSupported(d, f) {
      LookupInsert(SupportedDevices(devices[..|devices| - 1], f), d.description, d, name);
    }
  }

  /** A name is registered iff some enumerated device provides it. */
  lemma {:induction false} SupportedDevicesHas(devices: seq<Device>, f: Format, name: string)
    ensures Lookup(SupportedDevices(devices, f), name).Some? <==>
              exists i :: 0 <= i < |devices| && Provides(devices[i], f, name)
  {
    if devices != [] {
      var n := |devices| - 1;
      var init := devices[..n];
      LookupStep(devices, f, name);
      SupportedDevicesHas(init, f, name);
      if exists i :: 0 <= i < |devices| && Provides(devices[i], f, name) {
        var i :| 0 <= i < |devices| && Provides(devices[i], f, name);
        if i < n { assert init[i] == devices[i]; }
      }
      if exists i :: 0 <= i < |init| && Provides(init[i], f, name) {
        var i :| 0 <= i < |init| && Provides(init[i], f, name);
        assert devices[i] == init[i];
      }
    }
  }

  /** A registered name maps to the last enumerated device that provides it. */
  lemma {:induction false} SupportedDevicesLast(devices: seq<Device>, f: Format, name: string)
    ensures Lookup(SupportedDevices(devices, f), name).Some? ==>
              exists i :: 0 <= i < |devices| && devices[i] == Lookup(SupportedDevices(devices, f), name).value
                && Provides(devices[i], f, name)
                && forall j :: i < j < |devices| ==> !Provides(devices[j], f, name)
  {
    if devices != [] {
      var n := |devices| - 1;
      var init := devices[..n];
      LookupStep(devices, f, name);
      var r := Lookup(SupportedDevices(devices, f), name);
      if r.Some? && !Provides(devices[n], f, name) {
        SupportedDevicesLast(init, f, name);
        var i :| 0 <= i < |init| && init[i] == r.value && Provides(init[i], f, name)
                 && forall j :: i < j < |init| ==> !Provides(init[j], f, name);
        assert devices[i] == init[i];
        forall j | i < j < |devices| ensures !Provides(devices[j], f, name) {
          if j < n { assert devices[j] == init[j]; }
        }
      }
    }
  }

  /**
   * A name is registered iff some enumerated device with that description
   * supports the format, and it then maps to the LAST such device.
   */
  lemma SupportedDevicesLookup(devices: seq<Device>, f: Format, name: string)
    ensures Lookup(SupportedDevices(devices, f), name).Some? <==>
              exists i :: 0 <= i < |devices| && devices[i].description == name && IsFormatSupported(devices[i], f)
    ensures Lookup(SupportedDevices(devices, f), name).Some? ==>
              exists i :: 0 <= i < |devices| && devices[i] == Lookup(SupportedDevices(devices, f), name).value
                && devices[i].description == name && IsFormatSupported(devices[i], f)
                && forall j :: i < j < |devices| ==> !(devices[j].description == name && IsFormatSupported(devices[j], f))
  {
    SupportedDevicesHas(devices, f, name);
    SupportedDevicesLast(devices, f, name);
  }

  /**
   * Device choice of `initAudio`: the registered device of the configured
   * name, otherwise the device selected before (the platform default).
   */
  function ResolveDevice(registry: seq<Entry<Device>>, name: string, current: Device): (d: Device)
    ensures Lookup(registry, name).Some? ==> d == Lookup(registry, name).value
    ensures Lookup(registry, name).None? ==> d == current
  {
    Lookup(registry, name).GetOr(current)
  }

  /**
   * QAudioSink, reduced to what the controller observes: its state, the last
   * error the driver reported, its buffer size, and how often `stop` was
   * called on it.
   */
  class AudioSink {
    const device: Device
    const format: Format
    var state: AudioState
    var error: AudioError
    var bufferSize: int
    /** The size last asked for with setBufferSize. */
    var requestedBufferSize: int
    var stopCalls: nat

    constructor (device: Device, format: Format)
      ensures this.device == device && this.format == format
      ensures state == StoppedState && error == NoError && stopCalls == 0
    {
      this.device := device;
      this.format := format;
      state := StoppedState;
      error := NoError;
      bufferSize := 0;
      requestedBufferSize := 0;
      stopCalls := 0;
    }

    /** setBufferSize: a request, which the driver may change when the sink starts. */
    method SetBufferSize(bytes: int)
      modifies this`bufferSize, this`requestedBufferSize
      ensures bufferSize == bytes && requestedBufferSize == bytes
    {
      bufferSize := bytes;
      requestedBufferSize := bytes;
    }

    /** start(source): pulling begins; `applied` is the buffer size the driver accepted. */
    method Start(applied: int)
      modifies this`state, this`bufferSize
      ensures state == ActiveState && bufferSize == applied
    {
      state := ActiveState;
      bufferSize := applied;
    }

    method Stop()
      modifies this`state, this`stopCalls
      ensures state == StoppedState && stopCalls == old(stopCalls) + 1
    {
      state := StoppedState;
      stopCalls := stopCalls + 1;
    }

    /** The driver reporting a state change, with or without an error. */
    method Report(newState: AudioState, newError: AudioError)
      modifies this`state, this`error
      ensures state == newState && error == newError
    {
      state := newState;
      error := newError;
    }
  }
}
