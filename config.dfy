/**
 * Configuration tables and the shared module state: the audio constants,
 * the MIDI control-change numbers and the defaults that the parameter
 * writers (MIDI control changes and the LFO) update in place.
 */
module Config {

  // Audio configuration (`AudioConfig`); the sample rate is `Base.SAMPLE_RATE`.
  const BUFFER_SIZE: int := 1024
  const MAX_VOICES: int := 16

  // MIDI control-change numbers (`MIDIConfig`).
  const OSC_MIX_CCS: seq<int> := [14, 15, 16, 17]
  const OSC_DETUNE_CCS: seq<int> := [26, 27, 28, 29]
  const FILTER_CUTOFF_CC: int := 22
  const FILTER_RES_CC: int := 23
  const ADSR_CCS: seq<int> := [18, 19, 20, 21]

  /** The envelope parameters, in the order `ADSR_CCS` addresses them. */
  const ADSR_KEYS: seq<string> := ["attack", "decay", "sustain", "release"]

  /** Number of oscillator slots the state arrays hold. */
  const OSC_COUNT: nat := 4

  /** The five control-change groups share no number, and no table repeats one. */
  lemma CcGroupsDisjoint()
    ensures forall i, j :: 0 <= i < j < 4 ==> OSC_MIX_CCS[i] != OSC_MIX_CCS[j]
    ensures forall i, j :: 0 <= i < j < 4 ==> OSC_DETUNE_CCS[i] != OSC_DETUNE_CCS[j]
    ensures forall i, j :: 0 <= i < j < 4 ==> ADSR_CCS[i] != ADSR_CCS[j]
    ensures forall c :: c in OSC_MIX_CCS ==> c !in OSC_DETUNE_CCS && c !in ADSR_CCS
    ensures forall c :: c in OSC_DETUNE_CCS ==> c !in ADSR_CCS
    ensures FILTER_CUTOFF_CC != FILTER_RES_CC
    ensures forall c :: c in OSC_MIX_CCS + OSC_DETUNE_CCS + ADSR_CCS ==> c != FILTER_CUTOFF_CC && c != FILTER_RES_CC
  {
  }

  /** The tables match the sizes of the containers they index. */
  lemma TableSizes()
    ensures |OSC_MIX_CCS| == OSC_COUNT && |OSC_DETUNE_CCS| == OSC_COUNT
    ensures |ADSR_CCS| == |ADSR_KEYS| == 4
    ensures (set k | k in ADSR_KEYS) == DefaultSettings().adsr.Keys
  {
  }

  /**
   * The value of every field of the module state (`ModuleState`). Fields the
   * LFO writes by name through `setattr` are kept apart in `modulated`.
   */
  datatype Settings = Settings(
    oscMix: seq<real>,
    oscDetune: seq<real>,
    oscWaveforms: seq<string>,
    filterCutoff: real,
    filterRes: real,
    filterType: string,
    adsr: map<string, real>,
    masterGain: real,
    masterPan: real,
    lfoFrequency: real,
    lfoWaveform: string,
    lfoOffset: real,
    lfoDepth: real,
    modulated: map<string, seq<real>>)

  /** The state a fresh `ModuleState` holds. */
  function DefaultSettings(): (s: Settings)
    ensures |s.oscMix| == OSC_COUNT && forall i :: 0 <= i < OSC_COUNT ==> s.oscMix[i] == 0.25
    ensures |s.oscDetune| == OSC_COUNT && forall i :: 0 <= i < OSC_COUNT ==> s.oscDetune[i] == 0.0
    ensures s.filterCutoff == 1.0 && s.filterRes == 0.0 && s.filterType == "lowpass"
    ensures s.adsr == map["attack" := 0.01, "decay" := 0.1, "sustain" := 0.7, "release" := 0.3]
  {
    Settings(
      seq(OSC_COUNT, _ => 1.0 * 0.25),
      seq(OSC_COUNT, _ => 0.0),
      ["sine", "saw", "triangle", "pulse"],
      1.0, 0.0, "lowpass",
      map["attack" := 0.01, "decay" := 0.1, "sustain" := 0.7, "release" := 0.3],
      1.0, 0.0,
      1.0, "sine", 0.0, 1.0,
      map[])
  }

  /** The shared, mutable module state (`STATE`). */
  class ModuleState {
    const oscMix: array<real>
    const oscDetune: array<real>
    var oscWaveforms: seq<string>
    var filterCutoff: real
    var filterRes: real
    var filterType: string
    var adsr: map<string, real>
    var masterGain: real
    var masterPan: real
    var lfoFrequency: real
    var lfoWaveform: string
    var lfoOffset: real
    var lfoDepth: real
    var modulated: map<string, seq<real>>

    ghost predicate Valid()
      reads this
    {
      oscMix.Length == OSC_COUNT && oscDetune.Length == OSC_COUNT && oscMix != oscDetune
    }

    /** The whole state as a value. */
    function Snapshot(): Settings
      reads this, oscMix, oscDetune
    {
      Settings(oscMix[..], oscDetune[..], oscWaveforms, filterCutoff, filterRes, filterType,
               adsr, masterGain, masterPan, lfoFrequency, lfoWaveform, lfoOffset, lfoDepth, modulated)
    }

    constructor ()
      ensures Valid() && fresh(oscMix) && fresh(oscDetune)
      ensures Snapshot() == DefaultSettings()
    {
      var mix := new real[OSC_COUNT];
      var detune := new real[OSC_COUNT];
      var i := 0;
      while i < OSC_COUNT
        invariant 0 <= i <= OSC_COUNT
        invariant forall k :: 0 <= k < i ==> mix[k] == 0.25 && detune[k] == 0.0
      {
        mix[i], detune[i] := 1.0 * 0.25, 0.0;
        i := i + 1;
      }
      oscMix, oscDetune := mix, detune;
      oscWaveforms := ["sine", "saw", "triangle", "pulse"];
      filterCutoff, filterRes, filterType := 1.0, 0.0, "lowpass";
      adsr := map["attack" := 0.01, "decay" := 0.1, "sustain" := 0.7, "release" := 0.3];
      masterGain, masterPan := 1.0, 0.0;
      lfoFrequency, lfoWaveform, lfoOffset, lfoDepth := 1.0, "sine", 0.0, 1.0;
      modulated := map[];
      new;
      assert oscMix[..] == DefaultSettings().oscMix;
      assert oscDetune[..] == DefaultSettings().oscDetune;
    }
  }
}
