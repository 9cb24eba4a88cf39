/**
 * The FluidLite synthesizer as the renderer drives it.  What the engine
 * renders is opaque: a synth is created with the byte stream it will
 * produce, and each render call hands out the next piece of that stream.
 * The synth keeps a log of the render calls and of the effect settings it
 * receives, so the renderer's contracts can say what it asked for.
 */
module FluidLite {

  newtype Byte = x: int | 0 <= x < 256

  /** The values given to new_fluid_settings through fluid_settings_set*. */
  datatype SynthSettings = SynthSettings(
    sampleRate: int, gain: real, chorusActive: int, reverbActive: int, polyphony: int)

  /** One fluid_synth_write_float call: `frames` frames written at float offset `offset`. */
  datatype WriteCall = WriteCall(offset: nat, frames: nat)

  /** Arguments of fluid_synth_set_reverb: room size, damping, width, level. */
  datatype ReverbParams = ReverbParams(roomSize: real, damping: real, width: real, level: real)

  /** One message FluidLite hands to the registered log function: its level and text. */
  datatype LogMessage = LogMessage(level: int, text: string)

  /** The fluid_log_level values the renderer names (FLUID_PANIC, 0, is not one of them). */
  const LogError: int := 1
  const LogWarning: int := 2
  const LogInformation: int := 3
  const LogDebug: int := 4

  class Synth {
    const settings: SynthSettings
    /** The audio the engine renders, byte by byte, from its creation on. */
    const output: nat -> Byte
    /** Bytes rendered so far. */
    var position: nat
    ghost var writes: seq<WriteCall>
    var sysexReceived: seq<seq<Byte>>
    var reverb: seq<ReverbParams>
    var reverbOn: bool
    var chorusOn: bool

    constructor (settings: SynthSettings, output: nat -> Byte)
      ensures this.settings == settings && this.output == output
      ensures position == 0 && writes == [] && sysexReceived == [] && reverb == []
      ensures reverbOn == (settings.reverbActive != 0) && chorusOn == (settings.chorusActive != 0)
    {
      this.settings := settings;
      this.output := output;
      position := 0;
      writes := [];
      sysexReceived := [];
      reverb := [];
      reverbOn := settings.reverbActive != 0;
      chorusOn := settings.chorusActive != 0;
    }

    /**
     * fluid_synth_write_float for `frames` interleaved frames of `channels`
     * floats at float offset `offset` of `buf`: the next bytes of the
     * engine's output land there and nothing else in `buf` changes.
     */
    method WriteFloat(frames: nat, channels: nat, buf: array<Byte>, offset: nat)
      requires (offset + frames * channels) * 4 <= buf.Length
      modifies this`position, this`writes, buf
      ensures position == old(position) + frames * channels * 4
      ensures writes == old(writes) + [WriteCall(offset, frames)]
      ensures forall j :: 0 <= j < buf.Length ==>
                buf[j] == if offset * 4 <= j < (offset + frames * channels) * 4
                          then output(old(position) + j - offset * 4)
                          else old(buf[j])
    {
      var start, stop := offset * 4, (offset + frames * channels) * 4;
      forall j | start <= j < stop {
        buf[j] := output(position + j - start);
      }
      position := position + frames * channels * 4;
      writes := writes + [WriteCall(offset, frames)];
    }

    /** fluid_synth_sysex: the payload is handed to the engine as given. */
    method Sysex(payload: seq<Byte>)
      modifies this`sysexReceived
      ensures sysexReceived == old(sysexReceived) + [payload]
    {
      sysexReceived := sysexReceived + [payload];
    }

    method SetReverb(p: ReverbParams)
      modifies this`reverb
      ensures reverb == old(reverb) + [p]
    {
      reverb := reverb + [p];
    }

    method SetReverbOn(on: bool)
      modifies this`reverbOn
      ensures reverbOn == on
    {
      reverbOn := on;
    }

    method SetChorusOn(on: bool)
      modifies this`chorusOn
      ensures chorusOn == on
    {
      chorusOn := on;
    }
  }
}
