/**
 * The single-voice synthesizer engine: note on/off on its one voice
 * (last-note priority) and the audio callback that either fills the output
 * with silence or renders the voice's sine.
 */
module Core {
  import opened Base
  import opened Oscillators

  /** The MIDI note the tuning formula is centred on (A4). */
  const A4_NOTE: int := 69

  /** The frequency of A4 in Hz. */
  const A4_FREQUENCY: real := 440.0

  /** The voice's control fields as a value. */
  datatype VoiceState = VoiceState(note: int, velocity: real, active: bool)

  /** `note_on`: the voice takes the new note, whatever it was playing. */
  function NoteOnState(s: VoiceState, note: int, velocity: int): (r: VoiceState)
    ensures r.active && r.note == note && r.velocity == velocity as real / 127.0
    ensures 0 <= velocity <= 127 ==> 0.0 <= r.velocity <= 1.0
  {
    VoiceState(note, velocity as real / 127.0, true)
  }

  /** `note_off`: silences the voice only when it is playing that note. */
  function NoteOffState(s: VoiceState, note: int): (r: VoiceState)
    ensures r.note == s.note && r.velocity == s.velocity
    ensures r.active <==> s.active && note != s.note
  {
    if s.note == note then s.(active := false) else s
  }

  /**
   * Last-note priority: after a second note-on, releasing the first note
   * leaves the voice sounding the second one.
   */
  lemma LastNotePriority(s: VoiceState, first: int, v1: int, second: int, v2: int)
    requires first != second
    ensures var playing := NoteOnState(NoteOnState(s, first, v1), second, v2);
      NoteOffState(playing, first) == playing && playing.note == second
  {
  }

  /** Releasing the note that is playing silences the voice and keeps its note and velocity. */
  lemma NoteOffAfterNoteOn(s: VoiceState, note: int, velocity: int)
    ensures var r := NoteOffState(NoteOnState(s, note, velocity), note);
      !r.active && r.note == note && r.velocity == velocity as real / 127.0
  {
  }

  /** `440 * 2 ** ((note - 69) / 12)`. */
  function NoteFrequency(note: int, m: Maths): real
  {
    A4_FREQUENCY * m.pow(2.0, (note - A4_NOTE) as real / 12.0)
  }

  /**
   * The samples the callback writes: silence for an inactive voice, else the
   * rendered sine scaled by velocity, or silence when rendering raises.
   */
  function CallbackOutput(s: VoiceState, osc: OscState, frames: nat, m: Maths): (out: seq<real>)
    requires |osc.harmonicPhases| == HARMONIC_SLOTS
    ensures |out| == frames
    ensures !s.active ==> out == Zeros(frames)
    ensures s.active && frames > 0 ==>
      var rendered := Render(osc, m, NoteFrequency(s.note, m), "sine", frames, 0.0, 0.0).output.value;
      forall k :: 0 <= k < frames ==> out[k] == rendered[k] * s.velocity
  {
    if !s.active then Zeros(frames)
    else
      var r := Render(osc, m, NoteFrequency(s.note, m), "sine", frames, 0.0, 0.0);
      if r.output.Some? then Scale(r.output.value, s.velocity) else Zeros(frames)
  }

  /** A silent voice outputs zeros, and the buffer is silent whenever the velocity is 0. */
  lemma SilentVoice(s: VoiceState, osc: OscState, frames: nat, m: Maths)
    requires |osc.harmonicPhases| == HARMONIC_SLOTS
    requires !s.active || s.velocity == 0.0
    ensures CallbackOutput(s, osc, frames, m) == Zeros(frames)
  {
    var out := CallbackOutput(s, osc, frames, m);
    assert forall k :: 0 <= k < frames ==> out[k] == 0.0;
  }

  class Voice {
    var note: int
    var velocity: real
    var active: bool
    const oscillator: Oscillator

    function State(): VoiceState
      reads this
    {
      VoiceState(note, velocity, active)
    }

    constructor ()
      ensures State() == VoiceState(0, 0.0, false)
      ensures fresh(oscillator) && fresh(oscillator.harmonicsPhases) && oscillator.Valid()
      ensures oscillator.State() == OscState(0.0, seq(HARMONIC_SLOTS, _ => 0.0))
    {
      note, velocity, active := 0, 0.0, false;
      oscillator := new Oscillator();
    }
  }

  class Synthesizer {
    const voice: Voice
    const samplerate: int

    ghost predicate Valid()
      reads this, voice, voice.oscillator
    {
      voice.oscillator.Valid()
    }

    constructor ()
      ensures Valid() && fresh(voice) && fresh(voice.oscillator) && fresh(voice.oscillator.harmonicsPhases)
      ensures voice.State() == VoiceState(0, 0.0, false) && samplerate == 44100
      ensures voice.oscillator.State() == OscState(0.0, seq(HARMONIC_SLOTS, _ => 0.0))
    {
      voice := new Voice();
      samplerate := 44100;
    }

    method NoteOn(note: int, velocity: int)
      modifies voice
      ensures voice.State() == NoteOnState(old(voice.State()), note, velocity)
    {
      voice.note := note;
      voice.velocity := velocity as real / 127.0;
      voice.active := true;
    }

    method NoteOff(note: int)
      modifies voice
      ensures voice.State() == NoteOffState(old(voice.State()), note)
    {
      if voice.note == note {
        voice.active := false;
      }
    }

    /**
     * `_audio_callback`: fills `outdata` (the mono column) and advances the
     * oscillator exactly when the voice is active.
     */
    method AudioCallback(outdata: array<real>, frames: nat, m: Maths)
      requires Valid() && outdata.Length == frames && outdata != voice.oscillator.harmonicsPhases
      modifies outdata, voice.oscillator, voice.oscillator.harmonicsPhases
      ensures Valid()
      ensures outdata[..] == CallbackOutput(old(voice.State()), old(voice.oscillator.State()), frames, m)
      ensures !voice.active ==> voice.oscillator.State() == old(voice.oscillator.State())
      ensures voice.active ==>
        voice.oscillator.State() == Render(old(voice.oscillator.State()), m, NoteFrequency(voice.note, m), "sine", frames, 0.0, 0.0).next
    {
      if !voice.active {
        Fill(outdata, 0.0);
        return;
      }
      var frequency := NoteFrequency(voice.note, m);
      var output := voice.oscillator.Generate(m, frequency, "sine", frames);
      if output.None? {
        Fill(outdata, 0.0);
        return;
      }
      var samples := Scale(output.value, voice.velocity);
      var k := 0;
      while k < frames
        invariant 0 <= k <= frames
        invariant outdata[..k] == samples[..k]
        modifies outdata
      {
        outdata[k] := samples[k];
        k := k + 1;
      }
      assert outdata[..] == samples[..frames];
    }
  }

  /** `outdata.fill(value)`. */
  method Fill(a: array<real>, value: real)
    modifies a
    ensures forall k :: 0 <= k < a.Length ==> a[k] == value
  {
    var k := 0;
    while k < a.Length
      invariant 0 <= k <= a.Length
      invariant forall j :: 0 <= j < k ==> a[j] == value
    {
      a[k] := value;
      k := k + 1;
    }
  }
}
