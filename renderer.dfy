/**
 * FluidRenderer: the pull-model audio source.  It owns the FluidLite synth
 * and its settings, fills the sink's buffers in whole render quanta, strips
 * System Exclusive framing before forwarding, and keeps the lifecycle flags
 * and the diagnostics log that the backend reports upward.
 */
module Renderer {
  import opened Wrappers
  import opened Defaults
  import opened AudioFormat
  import opened FluidLite

  // ---------------------------------------------------------------------
  // System Exclusive framing (MIDI 1.0 Detailed Specification)
  // ---------------------------------------------------------------------

  const StartOfExclusive: Byte := 0xF0
  const EndOfExclusive: Byte := 0xF7

  /** 1 when the message opens with Start-of-Exclusive, else 0. */
  function LeadingFraming(d: seq<Byte>): (n: nat)
    ensures n <= 1 && n <= |d|
  {
    if |d| > 0 && d[0] == StartOfExclusive then 1 else 0
  }

  /**
   * The payload `sysex` forwards: at most one leading Start-of-Exclusive
   * and then at most one trailing End-of-Exclusive removed.
   */
  function StripSysexFraming(d: seq<Byte>): (r: seq<Byte>)
    ensures |d| - LeadingFraming(d) - 1 <= |r| <= |d|
    ensures LeadingFraming(d) + |r| <= |d|
    ensures r == d[LeadingFraming(d)..LeadingFraming(d) + |r|]
    ensures LeadingFraming(d) + |r| < |d| <==> |d| > LeadingFraming(d) && d[|d| - 1] == EndOfExclusive
  {
    var t := if |d| > 0 && d[0] == StartOfExclusive then d[1..] else d;
    if |t| > 0 && t[|t| - 1] == EndOfExclusive then t[..|t| - 1] else t
  }

  /** A complete System Exclusive message around a payload. */
  function Framed(payload: seq<Byte>): seq<Byte> {
    [StartOfExclusive] + payload + [EndOfExclusive]
  }

  /** Stripping undoes framing, whatever the payload holds. */
  lemma {:induction false} StripFramedRoundTrip(payload: seq<Byte>)
    ensures StripSysexFraming(Framed(payload)) == payload
  {
    var f := Framed(payload);
    assert f[1..] == payload + [EndOfExclusive];
    assert (payload + [EndOfExclusive])[..|payload|] == payload;
  }

  /** A payload with neither framing byte is forwarded unchanged. */
  lemma StripUnframed(d: seq<Byte>)
    requires |d| == 0 || (d[0] != StartOfExclusive && d[|d| - 1] != EndOfExclusive)
    ensures StripSysexFraming(d) == d
  {
  }

  /** Only the ends are looked at: inner framing bytes survive. */
  lemma StripKeepsInnerBytes(d: seq<Byte>, i: int)
    requires 0 < i < |d| - 1
    ensures d[i] in StripSysexFraming(d)
  {
    var r := StripSysexFraming(d);
    var a := LeadingFraming(d);
    assert r[i - a] == d[i];
  }

  lemma StripExample()
    ensures StripSysexFraming([0xF0, 0x43, 0x12, 0xF7]) == [0x43, 0x12]
  {
    StripFramedRoundTrip([0x43, 0x12]);
    assert Framed([0x43, 0x12]) == [0xF0, 0x43, 0x12, 0xF7];
  }

  /** Stripping is not idempotent: a doubled Start-of-Exclusive loses one copy per pass. */
  lemma StripNotIdempotent(x: Byte)
    requires x != EndOfExclusive
    ensures StripSysexFraming([StartOfExclusive, StartOfExclusive, x]) == [StartOfExclusive, x]
    ensures StripSysexFraming(StripSysexFraming([StartOfExclusive, StartOfExclusive, x]))
            != StripSysexFraming([StartOfExclusive, StartOfExclusive, x])
  {
    assert [StartOfExclusive, StartOfExclusive, x][1..] == [StartOfExclusive, x];
    assert [StartOfExclusive, x][1..] == [x];
  }

  // ---------------------------------------------------------------------
  // Buffer arithmetic
  // ---------------------------------------------------------------------

  /** The bytes `readData` produces for a request of `maxlen`: the whole quanta that fit. */
  function WholeQuanta(maxlen: int, quantum: int): (r: int)
    requires 0 < quantum <= maxlen
    ensures r % quantum == 0
    ensures quantum <= r <= maxlen && maxlen - r < quantum
  {
    WholeQuantaBounds(maxlen, quantum);
    (maxlen / quantum) * quantum
  }

  lemma WholeQuantaBounds(maxlen: int, quantum: int)
    requires 0 < quantum <= maxlen
    ensures ((maxlen / quantum) * quantum) % quantum == 0
    ensures quantum <= (maxlen / quantum) * quantum <= maxlen < (maxlen / quantum) * quantum + quantum
  {
    var k := maxlen / quantum;
    DivMulBound(maxlen, quantum);
    MulDivCancel(k, quantum);
    assert k * quantum == ((k * quantum) / quantum) * quantum + (k * quantum) % quantum;
    assert k >= 1 by {
      if k <= 0 {
        MulMono(k, 0, quantum);
      }
    }
    MulMono(1, k, quantum);
  }

  /** The render calls of one `readData` producing `n` quanta, in order. */
  function WritePlan(n: nat, frames: nat, channels: nat): (plan: seq<WriteCall>)
    ensures |plan| == n
  {
    if n == 0 then [] else WritePlan(n - 1, frames, channels) + [WriteCall((n - 1) * frames * channels, frames)]
  }

  /** Call `i` of the plan writes `frames` frames right after the `i` quanta before it. */
  lemma {:induction false} WritePlanAt(n: nat, frames: nat, channels: nat, i: nat)
    requires i < n
    ensures WritePlan(n, frames, channels)[i] == WriteCall(i * frames * channels, frames)
  {
    if i < n - 1 {
      WritePlanAt(n - 1, frames, channels, i);
    }
  }

  const Int32Modulus: int := 0x1_0000_0000
  const Int32Max: int := 0x7FFF_FFFF

  /** Conversion of a qint64 to the `int` field that stores it (two's complement wrap). */
  function ToInt32(x: int): (r: int)
    ensures -Int32Max - 1 <= r <= Int32Max
    ensures (x - r) % Int32Modulus == 0
    ensures -Int32Max - 1 <= x <= Int32Max ==> r == x
  {
    var m := x % Int32Modulus;
    if m > Int32Max then m - Int32Modulus else m
  }

  /** A 4 GiB pull is a whole number of quanta yet is recorded as 0 bytes. */
  lemma WideRequestRecordedAsZero()
    ensures WholeQuanta(Int32Modulus, 512) == Int32Modulus
    ensures ToInt32(WholeQuanta(Int32Modulus, 512)) == 0
  {
  }

  // ---------------------------------------------------------------------
  // Diagnostics and effects
  // ---------------------------------------------------------------------

  /** The prefix table of `appendDiagnostics`; an unknown level yields an empty prefix. */
  function LevelPrefix(level: int): (p: string)
    ensures p == "" <==> level !in {LogError, LogWarning, LogInformation, LogDebug}
  {
    if level == LogDebug then "Debug"
    else if level == LogError then "Error"
    else if level == LogWarning then "Warning"
    else if level == LogInformation then "Information"
    else ""
  }

  /** One log entry: the level's prefix, a colon and a space, then the message verbatim. */
  function DiagnosticLine(level: int, message: string): (line: string)
    ensures |line| == |LevelPrefix(level)| + 2 + |message|
    ensures line[..|LevelPrefix(level)|] == LevelPrefix(level)
    ensures line[|LevelPrefix(level)|..|LevelPrefix(level)| + 2] == ": "
    ensures line[|LevelPrefix(level)| + 2..] == message
  {
    LevelPrefix(level) + ": " + message
  }

  /**
   * The entries the log callback appends, one per message FluidLite logs,
   * in the order it logs them.
   */
  function LogLines(messages: seq<LogMessage>): (lines: seq<string>)
    ensures |lines| == |messages|
  {
    if messages == [] then []
    else [DiagnosticLine(messages[0].level, messages[0].text)] + LogLines(messages[1..])
  }

  /** The `i`-th entry is the `i`-th message, formatted as `appendDiagnostics` formats it. */
  lemma {:induction false} LogLinesAt(messages: seq<LogMessage>, i: int)
    requires 0 <= i < |messages|
    ensures LogLines(messages)[i] == DiagnosticLine(messages[i].level, messages[i].text)
  {
    if i > 0 {
      LogLinesAt(messages[1..], i - 1);
    }
  }

  /** The reverb preset of `initReverb`: only types 1 to 5 set parameters. */
  function ReverbPreset(reverbType: int): (p: Option<ReverbParams>)
    ensures p.Some? <==> 1 <= reverbType <= 5
    ensures p.Some? ==> p.value == ReverbParams(reverbType as real / 5.0, 0.2, 0.75, 0.8)
  {
    match reverbType
    case 1 => Some(ReverbParams(0.2, 0.2, 0.75, 0.8))
    case 2 => Some(ReverbParams(0.4, 0.2, 0.75, 0.8))
    case 3 => Some(ReverbParams(0.6, 0.2, 0.75, 0.8))
    case 4 => Some(ReverbParams(0.8, 0.2, 0.75, 0.8))
    case 5 => Some(ReverbParams(1.0, 0.2, 0.75, 0.8))
    case _ => None
  }

  const MaxInt64: int := 0x7FFF_FFFF_FFFF_FFFF

  class FluidRenderer {
    var diagnostics: seq<string>
    var libVersion: string
    var status: bool

    const sampleRate: int := DefaultSampleRate
    const renderingFrames: int := DefaultRenderingFrames
    const channels: int := DefaultFrameChannels

    var gain: real
    var chorus: int
    var reverb: int
    var polyphony: int
    var settings: Option<SynthSettings>
    var synth: Synth?
    var sf2loaded: bool
    var soundFont: string
    var sfid: int
    var lastBufferSize: int
    var format: Format
    /** QIODevice open state. */
    var isOpen: bool

    constructor ()
      ensures !status && diagnostics == [] && !isOpen
      ensures gain == DefaultGain && chorus == DefaultChorus && reverb == DefaultReverb
      ensures polyphony == DefaultPolyphony
      ensures settings == None && synth == null && !sf2loaded && sfid == -1
      ensures lastBufferSize == 0 && soundFont == ""
    {
      diagnostics := [];
      libVersion := "";
      status := false;
      gain := DefaultGain;
      chorus := DefaultChorus;
      reverb := DefaultReverb;
      polyphony := DefaultPolyphony;
      settings := None;
      synth := null;
      sf2loaded := false;
      soundFont := "";
      sfid := -1;
      lastBufferSize := 0;
      format := Format(0, 0, Unknown);
      isOpen := false;
    }

    /** Bytes of one render quantum: frames x channels x sizeof(float). */
    function QuantumBytes(): (q: int)
      ensures q == 512
    {
      renderingFrames * channels * FloatBytes
    }

    /** The state `uninitialize` leaves: no synth, no settings, status false, no diagnostics. */
    ghost predicate TornDown()
      reads this
    {
      synth == null && settings == None && !status && diagnostics == []
    }

    /**
     * readData: fills `data` with the whole render quanta that fit in
     * `maxlen` bytes, one synth call per quantum, and records the count.
     */
    method ReadData(data: array<Byte>, maxlen: int) returns (len: int)
      requires synth != null
      requires QuantumBytes() <= maxlen <= data.Length
      modifies this`lastBufferSize, synth`position, synth`writes, data
      ensures len % QuantumBytes() == 0
      ensures QuantumBytes() <= len <= maxlen && maxlen - len < QuantumBytes()
      ensures len == WholeQuanta(maxlen, QuantumBytes())
      ensures lastBufferSize == ToInt32(len)
      ensures synth.writes == old(synth.writes) + WritePlan(maxlen / QuantumBytes(), renderingFrames, channels)
      ensures synth.position == old(synth.position) + len
      ensures forall j :: 0 <= j < len ==> data[j] == synth.output(old(synth.position) + j)
      ensures forall j :: len <= j < data.Length ==> data[j] == old(data[j])
    {
      var bufferSamples := renderingFrames * channels;
      var bufferBytes := bufferSamples * FloatBytes;
      var buflen := (maxlen / bufferBytes) * bufferBytes;
      var length := buflen;
      var buffer := 0;
      ghost var calls := 0;
      ghost var start := synth.position;
      ghost var logged := synth.writes;
      while length > 0
        invariant 0 <= length <= buflen && buffer * FloatBytes == buflen - length
        invariant length % bufferBytes == 0
        invariant buffer == calls * bufferSamples
        invariant synth.position == start + buffer * FloatBytes
        invariant synth.writes == logged + WritePlan(calls, renderingFrames, channels)
        invariant forall j :: 0 <= j < buffer * FloatBytes ==> data[j] == synth.output(start + j)
        invariant forall j :: buffer * FloatBytes <= j < data.Length ==> data[j] == old(data[j])
      {
        synth.WriteFloat(renderingFrames, channels, data, buffer);
        length := length - bufferBytes;
        buffer := buffer + bufferSamples;
        calls := calls + 1;
      }
      lastBufferSize := ToInt32(buflen);
      len := buflen;
    }

    /** writeData: the renderer is read-only, so no write is ever accepted. */
    function WriteData(data: seq<Byte>, len: int): (accepted: int)
      ensures accepted == 0
    {
      0
    }

    /** size: an endless sequential stream, reported as the largest qint64. */
    function Size(): (n: int)
      ensures n == MaxInt64
    {
      MaxInt64
    }

    /** bytesAvailable: a read never has to wait for data. */
    function BytesAvailable(): (n: int)
      ensures n == MaxInt64
    {
      MaxInt64
    }

    /** lastBufferSize: the byte count the latest readData recorded, 0 after a reset. */
    function LastBufferSize(): (n: int)
      reads this
      ensures n == lastBufferSize
    {
      lastBufferSize
    }

    method ResetLastBufferSize()
      modifies this`lastBufferSize
      ensures lastBufferSize == 0
    {
      lastBufferSize := 0;
    }

    function Stopped(): (stopped: bool)
      reads this
      ensures stopped <==> !isOpen
    {
      !isOpen
    }

    /** uninitialize: releases synth and settings; a second call changes nothing. */
    method Uninitialize()
      modifies this`synth, this`settings, this`status, this`diagnostics
      ensures TornDown()
      ensures old(TornDown()) ==> unchanged(this)
    {
      if synth != null {
        synth := null;
      }
      if settings != None {
        settings := None;
      }
      status := false;
      diagnostics := [];
    }

    /**
     * The state `initialize` leaves.  `engine` is what new_fluid_synth
     * yields (None for a null synth), `loadResult` what fluid_synth_sfload
     * returns, and `priorSfid`/`priorLoaded` the soundfont id and flag
     * before the call, kept when no soundfont is configured.
     */
    ghost predicate InitializedBy(libraryVersion: string, engine: Option<nat -> Byte>, loadResult: int,
                                  priorSfid: int, priorLoaded: bool)
      reads this, synth
    {
      && libVersion == libraryVersion
      && settings == Some(SynthSettings(sampleRate, gain, chorus, reverb, polyphony))
      && (synth == null <==> engine.None?)
      && (synth != null ==>
            synth.settings == settings.value && synth.output == engine.value
            && synth.position == 0 && synth.writes == [] && synth.sysexReceived == [])
      && (soundFont != "" ==> sfid == loadResult && sf2loaded == (loadResult != -1))
      && (soundFont == "" ==> sfid == priorSfid && sf2loaded == priorLoaded)
      && format == RendererFormat(sampleRate) && IsValid(format)
      && (status <==> synth != null && sfid >= 0)
    }

    /**
     * initialize: builds the settings from the renderer's fields, creates a
     * synth, loads the configured soundfont if there is one and publishes
     * the audio format; the status is on iff a synth exists and a
     * soundfont id is held.  The log callback is registered first, so what
     * FluidLite logs meanwhile (`engineLog`) is appended to the log.
     */
    method Initialize(libraryVersion: string, engine: Option<nat -> Byte>, loadResult: int,
                      engineLog: seq<LogMessage>)
      modifies this`libVersion, this`settings, this`synth, this`sfid, this`sf2loaded, this`format, this`status
      modifies this`diagnostics
      ensures InitializedBy(libraryVersion, engine, loadResult, old(sfid), old(sf2loaded))
      ensures synth != null ==> fresh(synth)
      ensures diagnostics == old(diagnostics) + LogLines(engineLog)
    {
      libVersion := libraryVersion;
      diagnostics := diagnostics + LogLines(engineLog);
      var s := SynthSettings(sampleRate, gain, chorus, reverb, polyphony);
      settings := Some(s);
      if engine.Some? {
        synth := new Synth(s, engine.value);
      } else {
        synth := null;
      }
      if soundFont != "" {
        sfid := loadResult;
        sf2loaded := sfid != -1;
      }
      format := RendererFormat(sampleRate);
      status := synth != null && sfid >= 0;
    }

    /** start: initializes, then opens the device read-only and unbuffered. */
    method Start(libraryVersion: string, engine: Option<nat -> Byte>, loadResult: int,
                 engineLog: seq<LogMessage>)
      modifies this`libVersion, this`settings, this`synth, this`sfid, this`sf2loaded, this`format, this`status, this`isOpen
      modifies this`diagnostics
      ensures isOpen && !Stopped()
      ensures InitializedBy(libraryVersion, engine, loadResult, old(sfid), old(sf2loaded))
      ensures synth != null ==> fresh(synth)
      ensures diagnostics == old(diagnostics) + LogLines(engineLog)
    {
      Initialize(libraryVersion, engine, loadResult, engineLog);
      isOpen := true;
    }

    /** stop: closes the device if open, then uninitializes; idempotent. */
    method Stop()
      modifies this`synth, this`settings, this`status, this`diagnostics, this`isOpen
      ensures TornDown() && Stopped()
      ensures old(TornDown() && Stopped()) ==> unchanged(this)
    {
      if isOpen {
        isOpen := false;
      }
      Uninitialize();
    }

    /**
     * setSoundFont: always records the file name; loads it (with result
     * `loadResult`) only when a synth exists, appending what FluidLite logs
     * while loading (`engineLog`).  The status flag is not recomputed here.
     */
    method SetSoundFont(fileName: string, loadResult: int, engineLog: seq<LogMessage>)
      modifies this`soundFont, this`sfid, this`sf2loaded, this`diagnostics
      ensures soundFont == fileName
      ensures synth != null ==> sfid == loadResult && sf2loaded == (loadResult != -1)
      ensures synth == null ==> sfid == old(sfid) && sf2loaded == old(sf2loaded)
      ensures diagnostics == old(diagnostics) + (if synth != null then LogLines(engineLog) else [])
    {
      soundFont := fileName;
      if synth != null {
        diagnostics := diagnostics + LogLines(engineLog);
        var result := loadResult;
        sf2loaded := result != -1;
        sfid := result;
      }
    }

    /** appendDiagnostics: the log grows by exactly one formatted line. */
    method AppendDiagnostics(level: int, message: string)
      modifies this`diagnostics
      ensures diagnostics == old(diagnostics) + [DiagnosticLine(level, message)]
    {
      diagnostics := diagnostics + [LevelPrefix(level) + ": " + message];
    }

    /**
     * sysex: forwards the payload without its framing bytes.  With no synth
     * the event reaches nothing the model can observe.
     */
    method Sysex(data: seq<Byte>)
      modifies synth
      ensures synth != null ==> synth.sysexReceived == old(synth.sysexReceived) + [StripSysexFraming(data)]
      ensures synth != null ==> synth.position == old(synth.position) && synth.writes == old(synth.writes)
      ensures synth != null ==>
                synth.reverb == old(synth.reverb) && synth.reverbOn == old(synth.reverbOn)
                && synth.chorusOn == old(synth.chorusOn)
    {
      var d := data;
      if |d| > 0 && d[0] == StartOfExclusive {
        d := d[1..];
      }
      if |d| > 0 && d[|d| - 1] == EndOfExclusive {
        d := d[..|d| - 1];
      }
      if synth != null {
        synth.Sysex(d);
      }
    }

    /** initReverb: presets 1 to 5 set the reverb parameters; any positive type turns reverb on. */
    method InitReverb(reverbType: int)
      modifies synth
      ensures synth != null ==> synth.reverbOn == (reverbType > 0)
      ensures synth != null ==>
                synth.reverb == old(synth.reverb) + (if ReverbPreset(reverbType).Some? then [ReverbPreset(reverbType).value] else [])
      ensures synth != null ==>
                synth.chorusOn == old(synth.chorusOn) && synth.sysexReceived == old(synth.sysexReceived)
                && synth.position == old(synth.position) && synth.writes == old(synth.writes)
    {
      if synth != null {
        var preset := ReverbPreset(reverbType);
        if preset.Some? {
          synth.SetReverb(preset.value);
        }
        synth.SetReverbOn(reverbType > 0);
      }
    }

    /** initChorus: chorus is on iff the type is positive. */
    method InitChorus(chorusType: int)
      modifies synth
      ensures synth != null ==> synth.chorusOn == (chorusType > 0)
      ensures synth != null ==>
                synth.reverbOn == old(synth.reverbOn) && synth.reverb == old(synth.reverb)
                && synth.sysexReceived == old(synth.sysexReceived)
                && synth.position == old(synth.position) && synth.writes == old(synth.writes)
    {
      if synth != null {
        synth.SetChorusOn(chorusType > 0);
      }
    }
  }
}
