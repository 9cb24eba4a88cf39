/**
 * The settings store as `readSettings` reads it: a flat key/value store
 * (keys prefixed by their group), values held as variants and converted to
 * the type each field needs, with a default for every absent key.
 */
module Settings {
  import opened Wrappers
  import opened Defaults

  datatype Variant = IntValue(i: int) | RealValue(r: real) | TextValue(s: string)

  predicate IsDigit(c: char) {
    '0' <= c <= '9'
  }

  /** Decimal digits, most significant first. */
  function ParseDigits(s: string): (n: nat)
    requires forall i :: 0 <= i < |s| ==> IsDigit(s[i])
    decreases |s|
  {
    if s == [] then 0
    else
      assert IsDigit(s[|s| - 1]);
      ParseDigits(s[..|s| - 1]) * 10 + (s[|s| - 1] as int - '0' as int)
  }

  /** The decimal text of a natural number, as a number is written into the store. */
  function DigitsOf(n: nat): (s: string)
    ensures |s| > 0 && forall i :: 0 <= i < |s| ==> IsDigit(s[i])
  {
    var d := ['0' + (n % 10) as char];
    if n < 10 then d else DigitsOf(n / 10) + d
  }

  /** Writing a number as text and reading it back gives the number. */
  lemma {:induction false} ParseDigitsOf(n: nat)
    ensures ParseDigits(DigitsOf(n)) == n
  {
    var s := DigitsOf(n);
    if n >= 10 {
      ParseDigitsOf(n / 10);
      assert s[..|s| - 1] == DigitsOf(n / 10);
    }
  }

  /** The text after an optional leading sign. */
  function Unsigned(s: string): string {
    if |s| > 0 && (s[0] == '-' || s[0] == '+') then s[1..] else s
  }

  /** Optional sign followed by at least one decimal digit. */
  predicate IsIntegerText(s: string) {
    |Unsigned(s)| > 0 && forall i :: 0 <= i < |Unsigned(s)| ==> IsDigit(Unsigned(s)[i])
  }

  /** Integer text to its value; anything else fails and reads as 0, as QVariant::toInt does. */
  function TextToInt(s: string): int {
    if !IsIntegerText(s) then 0
    else if s[0] == '-' then -(ParseDigits(Unsigned(s)) as int)
    else ParseDigits(Unsigned(s))
  }

  lemma TextToIntRoundTrip(n: int)
    ensures n >= 0 ==> TextToInt(DigitsOf(n)) == n
    ensures n < 0 ==> TextToInt("-" + DigitsOf(-n)) == n
  {
    if n >= 0 {
      ParseDigitsOf(n);
    } else {
      var s := "-" + DigitsOf(-n);
      assert Unsigned(s) == DigitsOf(-n);
      ParseDigitsOf(-n);
    }
  }

  /** QVariant::toInt. */
  function ToInt(v: Variant): int {
    match v
    case IntValue(i) => i
    case RealValue(_) => 0
    case TextValue(s) => TextToInt(s)
  }

  /** QVariant::toDouble. */
  function ToDouble(v: Variant): real {
    match v
    case IntValue(i) => i as real
    case RealValue(r) => r
    case TextValue(s) => TextToInt(s) as real
  }

  /** QVariant::toString. */
  function ToText(v: Variant): string {
    match v
    case IntValue(i) => if i >= 0 then DigitsOf(i) else "-" + DigitsOf(-i)
    case RealValue(_) => ""
    case TextValue(s) => s
  }

  /** The full key of `key` inside the preferences group. */
  function GroupKey(key: string): string {
    Preferences + "/" + key
  }

  /** QSettings::value(key, default) inside the preferences group. */
  function Value(store: map<string, Variant>, key: string, default: Variant): (v: Variant)
    ensures GroupKey(key) in store ==> v == store[GroupKey(key)]
    ensures GroupKey(key) !in store ==> v == default
  {
    if GroupKey(key) in store then store[GroupKey(key)] else default
  }

  /** What `readSettings` takes from the store. */
  datatype Prefs = Prefs(
    soundFont: string, bufferTime: int, chorus: int, reverb: int,
    gain: real, polyphony: int, audioDevice: string)

  function ReadPrefs(store: map<string, Variant>, defSoundFont: string): Prefs {
    Prefs(
      ToText(Value(store, KeyInstrumentsDefinition, TextValue(defSoundFont))),
      ToInt(Value(store, KeyBufferTime, IntValue(DefaultBufferTime))),
      ToInt(Value(store, KeyChorus, IntValue(DefaultChorus))),
      ToInt(Value(store, KeyReverb, IntValue(DefaultReverb))),
      ToDouble(Value(store, KeyGain, RealValue(DefaultGain))),
      ToInt(Value(store, KeyPolyphony, IntValue(DefaultPolyphony))),
      ToText(Value(store, KeyAudioDevice, TextValue(DefaultAudioDevice))))
  }

  /** Keys the preferences group reads. */
  const PrefKeys: seq<string> := [KeyInstrumentsDefinition, KeyBufferTime, KeyChorus, KeyReverb,
                                  KeyGain, KeyPolyphony, KeyAudioDevice]

  /** With none of its keys stored, every preference takes its default. */
  lemma ReadPrefsDefaults(store: map<string, Variant>, defSoundFont: string)
    requires forall k :: k in PrefKeys ==> GroupKey(k) !in store
    ensures ReadPrefs(store, defSoundFont) ==
            Prefs(defSoundFont, 100, 0, 1, 1.0, 256, "default")
  {
    assert KeyInstrumentsDefinition in PrefKeys && KeyBufferTime in PrefKeys && KeyChorus in PrefKeys;
    assert KeyReverb in PrefKeys && KeyGain in PrefKeys && KeyPolyphony in PrefKeys && KeyAudioDevice in PrefKeys;
  }

  /** A stored value wins over the default, key by key. */
  lemma ReadPrefsStored(store: map<string, Variant>, defSoundFont: string)
    ensures GroupKey(KeyBufferTime) in store ==>
              ReadPrefs(store, defSoundFont).bufferTime == ToInt(store[GroupKey(KeyBufferTime)])
    ensures GroupKey(KeyInstrumentsDefinition) in store ==>
              ReadPrefs(store, defSoundFont).soundFont == ToText(store[GroupKey(KeyInstrumentsDefinition)])
    ensures GroupKey(KeyAudioDevice) in store ==>
              ReadPrefs(store, defSoundFont).audioDevice == ToText(store[GroupKey(KeyAudioDevice)])
    ensures GroupKey(KeyGain) in store ==>
              ReadPrefs(store, defSoundFont).gain == ToDouble(store[GroupKey(KeyGain)])
  {
  }

  /** The sample rate is not among the keys read: storing one changes nothing. */
  lemma ReadPrefsIgnoresSampleRate(store: map<string, Variant>, defSoundFont: string, v: Variant)
    ensures ReadPrefs(store[GroupKey(KeySampleRate) := v], defSoundFont) == ReadPrefs(store, defSoundFont)
  {
    forall k | k in PrefKeys ensures GroupKey(k) != GroupKey(KeySampleRate) {
      assert GroupKey(k)[|Preferences| + 1..] == k;
      assert GroupKey(KeySampleRate)[|Preferences| + 1..] == KeySampleRate;
    }
  }
}
