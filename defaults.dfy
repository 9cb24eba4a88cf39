/**
 * The static constants of FluidController: the settings group and its keys,
 * and the defaults used whenever a key is absent or a field is first built.
 */
module Defaults {

  /** Settings group under which every preference is stored. */
  const Preferences: string := "FluidLite"

  const KeyInstrumentsDefinition: string := "InstrumentsDefinition"
  const KeyAudioDevice: string := "AudioDevice"
  const KeyBufferTime: string := "BufferTime"
  const KeySampleRate: string := "SampleRate"
  const KeyChorus: string := "Chorus"
  const KeyReverb: string := "Reverb"
  const KeyGain: string := "Gain"
  const KeyPolyphony: string := "Polyphony"

  const DefaultAudioDevice: string := "default"
  const DefaultBufferTime: int := 100
  const DefaultChorus: int := 0
  const DefaultReverb: int := 1
  const DefaultGain: real := 1.0
  const DefaultPolyphony: int := 256
  const DefaultSampleRate: int := 44100
  const DefaultRenderingFrames: int := 64
  const DefaultFrameChannels: int := 2

  /** sizeof(float): the renderer always produces 32-bit float samples. */
  const FloatBytes: int := 4
}
