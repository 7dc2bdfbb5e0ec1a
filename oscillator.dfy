/**
 * The oscillator: waveform dispatch over a time (phase) array and the phase
 * bookkeeping between buffers, for the fundamental and for the seven
 * overtone trackers.
 */
module Oscillators {
  import opened Base

  /** The waveform names the dispatch recognises; any other name renders a sine. */
  const WAVEFORMS: set<string> := {"sine", "saw", "triangle", "pulse"}

  /** Length of the harmonic phase array (only slots 0..6 are used, for overtones 2..8). */
  const HARMONIC_SLOTS: nat := 8

  /** Highest overtone rendered. */
  const TOP_HARMONIC: nat := 8

  /** The saw shape `2 * (x - floor(0.5 + x))` with `x = t / 2pi`. */
  function SawAt(t: real): real
  {
    2.0 * (t / TWO_PI - (0.5 + t / TWO_PI).Floor as real)
  }

  /** One sample of the base waveform at phase `t`. */
  function Wave(t: real, waveform: string, m: Maths): (y: real)
    ensures waveform == "pulse" ==> (y == 1.0 <==> PyMod(t, TWO_PI) < PI) && (y == 1.0 || y == -1.0)
    ensures waveform == "saw" ==> -1.0 <= y < 1.0
    ensures waveform == "triangle" ==> -1.0 <= y <= 1.0
    ensures waveform !in WAVEFORMS ==> y == m.sin(t)
  {
    if waveform == "sine" then m.sin(t)
    else if waveform == "saw" then SawAt(t)
    else if waveform == "triangle" then 2.0 * Abs(SawAt(t)) - 1.0
    else if waveform == "pulse" then (if PyMod(t, TWO_PI) < PI then 1.0 else -1.0)
    else m.sin(t)
  }

  /** `_generate_base_waveform`: the waveform applied to every entry of the time array. */
  function BaseWaveform(t: seq<real>, waveform: string, m: Maths): (y: seq<real>)
    ensures |y| == |t|
  {
    seq(|t|, k requires 0 <= k < |t| => Wave(t[k], waveform, m))
  }

  /** `np.linspace(start, stop, n, endpoint=False)`. */
  function Linspace(start: real, stop: real, n: nat): (t: seq<real>)
    ensures |t| == n
  {
    if n == 0 then [] else seq(n, k requires 0 <= k < n => start + k as real * ((stop - start) / n as real))
  }

  /** The time array of a buffer of `n` samples at frequency `f` starting at phase `start`. */
  function Times(start: real, f: real, n: nat): (t: seq<real>)
    ensures |t| == n
  {
    Linspace(start, start + TWO_PI * f * n as real / SAMPLE_RATE, n)
  }

  /** Phase advance per sample at frequency `f`. */
  function Increment(f: real): real
  {
    TWO_PI * f / SAMPLE_RATE
  }

  /** Sample k of a buffer lies k increments after its start. */
  lemma TimesAt(start: real, f: real, n: nat, k: nat)
    requires k < n
    ensures Times(start, f, n)[k] == start + k as real * Increment(f)
  {
    var stop := start + TWO_PI * f * n as real / SAMPLE_RATE;
    var c := Increment(f);
    assert stop - start == c * n as real;
    assert (c * n as real) / n as real == c;
  }

  /** `frequency * 2 ** (detune / 12)`. */
  function Detuned(frequency: real, detune: real, m: Maths): real
  {
    frequency * m.pow(2.0, detune / 12.0)
  }

  /** Element-wise `a + b * g`. */
  function AddScaled(a: seq<real>, b: seq<real>, g: real): (r: seq<real>)
    requires |a| == |b|
    ensures |r| == |a|
  {
    seq(|a|, k requires 0 <= k < |a| => a[k] + b[k] * g)
  }

  /** The time array of overtone `i`, started from its own phase tracker. */
  function HarmonicTimes(start: real, f: real, i: nat, n: nat): (t: seq<real>)
    ensures |t| == n
  {
    Linspace(start, start + TWO_PI * (f * i as real) * n as real / SAMPLE_RATE, n)
  }

  /** `out` plus overtones 2 .. upto-1, overtone i weighted `amount / i`. */
  function WithHarmonics(out: seq<real>, hp: seq<real>, f: real, waveform: string, amount: real, m: Maths, upto: nat): (r: seq<real>)
    requires 2 <= upto <= TOP_HARMONIC + 1 && |hp| == HARMONIC_SLOTS
    ensures |r| == |out|
  {
    if upto == 2 then out
    else
      var i := upto - 1;
      var prev := WithHarmonics(out, hp, f, waveform, amount, m, upto - 1);
      AddScaled(prev, BaseWaveform(HarmonicTimes(hp[i - 2], f, i, |out|), waveform, m), amount / i as real)
  }

  /** The trackers after overtones 2 .. upto-1 have stored the phase of their last sample. */
  function HarmonicPhasesAfter(hp: seq<real>, f: real, n: nat, upto: nat): (r: seq<real>)
    requires 2 <= upto <= TOP_HARMONIC + 1 && |hp| == HARMONIC_SLOTS && n > 0
    ensures |r| == HARMONIC_SLOTS
  {
    seq(HARMONIC_SLOTS, j requires 0 <= j < HARMONIC_SLOTS =>
      if j < upto - 2 then PyMod(HarmonicTimes(hp[j], f, j + 2, n)[n - 1], TWO_PI) else hp[j])
  }

  lemma HarmonicPhasesStep(hp: seq<real>, f: real, n: nat, i: nat)
    requires 2 <= i <= TOP_HARMONIC && |hp| == HARMONIC_SLOTS && n > 0
    ensures HarmonicPhasesAfter(hp, f, n, i + 1)
      == HarmonicPhasesAfter(hp, f, n, i)[i - 2 := PyMod(HarmonicTimes(hp[i - 2], f, i, n)[n - 1], TWO_PI)]
  {
  }

  datatype OscState = OscState(phase: real, harmonicPhases: seq<real>)

  datatype Rendered = Rendered(output: Option<seq<real>>, next: OscState)

  /** The time array `generate` renders the fundamental on. */
  function SampleTimes(s: OscState, frequency: real, samples: nat, detune: real, m: Maths): (t: seq<real>)
    ensures |t| == samples
  {
    Times(PyMod(s.phase, TWO_PI), Detuned(frequency, detune, m), samples)
  }

  /**
   * What `generate` returns and the state it leaves. With `samples == 0` the
   * source raises at `t[-1]` after it has already reduced the phase; the
   * harmonic trackers are then untouched.
   */
  function Render(s: OscState, m: Maths, frequency: real, waveform: string, samples: nat, detune: real, harmonics: real): (r: Rendered)
    requires |s.harmonicPhases| == HARMONIC_SLOTS
    ensures r.output.Some? <==> samples > 0
    ensures r.output.Some? ==> |r.output.value| == samples
    ensures 0.0 <= r.next.phase < TWO_PI
    ensures samples == 0 ==> r.next.phase == PyMod(s.phase, TWO_PI)
    ensures samples > 0 ==> r.next.phase == PyMod(SampleTimes(s, frequency, samples, detune, m)[samples - 1], TWO_PI)
    ensures |r.next.harmonicPhases| == HARMONIC_SLOTS
    ensures samples == 0 || harmonics <= 0.0 ==> r.next.harmonicPhases == s.harmonicPhases
    ensures forall j :: TOP_HARMONIC - 1 <= j < HARMONIC_SLOTS ==> r.next.harmonicPhases[j] == s.harmonicPhases[j]
    ensures forall j :: 0 <= j < HARMONIC_SLOTS ==> 0.0 <= s.harmonicPhases[j] < TWO_PI ==> 0.0 <= r.next.harmonicPhases[j] < TWO_PI
  {
    var start := PyMod(s.phase, TWO_PI);
    var f := Detuned(frequency, detune, m);
    if samples == 0 then Rendered(None, OscState(start, s.harmonicPhases))
    else
      var t := Times(start, f, samples);
      var phase := PyMod(t[samples - 1], TWO_PI);
      var base := BaseWaveform(t, waveform, m);
      if harmonics > 0.0 then
        Rendered(Some(WithHarmonics(base, s.harmonicPhases, f, waveform, harmonics, m, TOP_HARMONIC + 1)),
                 OscState(phase, HarmonicPhasesAfter(s.harmonicPhases, f, samples, TOP_HARMONIC + 1)))
      else
        Rendered(Some(base), OscState(phase, s.harmonicPhases))
  }

  /** The stored phase lies `samples - 1` increments past the reduced starting phase. */
  lemma StoredPhaseAdvance(s: OscState, m: Maths, frequency: real, waveform: string, samples: nat, detune: real, harmonics: real)
    requires |s.harmonicPhases| == HARMONIC_SLOTS && samples > 0
    ensures Render(s, m, frequency, waveform, samples, detune, harmonics).next.phase
      == PyMod(PyMod(s.phase, TWO_PI) + (samples - 1) as real * Increment(Detuned(frequency, detune, m)), TWO_PI)
  {
    var t := SampleTimes(s, frequency, samples, detune, m);
    TimesAt(PyMod(s.phase, TWO_PI), Detuned(frequency, detune, m), samples, samples - 1);
    assert t[samples - 1] == PyMod(s.phase, TWO_PI) + (samples - 1) as real * Increment(Detuned(frequency, detune, m));
    assert Render(s, m, frequency, waveform, samples, detune, harmonics).next.phase == PyMod(t[samples - 1], TWO_PI);
  }

  /** Without harmonics, a pulse buffer holds only +1 and -1. */
  lemma PulseIsTwoLevel(s: OscState, m: Maths, frequency: real, samples: nat, detune: real, harmonics: real)
    requires |s.harmonicPhases| == HARMONIC_SLOTS && samples > 0 && harmonics <= 0.0
    ensures var out := Render(s, m, frequency, "pulse", samples, detune, harmonics).output.value;
      forall k :: 0 <= k < samples ==> out[k] == 1.0 || out[k] == -1.0
  {
    var out := Render(s, m, frequency, "pulse", samples, detune, harmonics).output.value;
    forall k | 0 <= k < samples
      ensures out[k] == 1.0 || out[k] == -1.0
    {
      var t := SampleTimes(s, frequency, samples, detune, m);
      assert out[k] == Wave(t[k], "pulse", m);
    }
  }

  lemma {:induction false} UnknownHarmonicsAreSine(out: seq<real>, hp: seq<real>, f: real, waveform: string, amount: real, m: Maths, upto: nat)
    requires 2 <= upto <= TOP_HARMONIC + 1 && |hp| == HARMONIC_SLOTS && waveform !in WAVEFORMS
    ensures WithHarmonics(out, hp, f, waveform, amount, m, upto) == WithHarmonics(out, hp, f, "sine", amount, m, upto)
  {
    if upto > 2 {
      UnknownHarmonicsAreSine(out, hp, f, waveform, amount, m, upto - 1);
      var i := upto - 1;
      var t := HarmonicTimes(hp[i - 2], f, i, |out|);
      assert BaseWaveform(t, waveform, m) == BaseWaveform(t, "sine", m);
    }
  }

  /** An unknown waveform name renders exactly what "sine" renders, overtones included. */
  lemma UnknownWaveformIsSine(s: OscState, m: Maths, frequency: real, waveform: string, samples: nat, detune: real, harmonics: real)
    requires |s.harmonicPhases| == HARMONIC_SLOTS && waveform !in WAVEFORMS
    ensures Render(s, m, frequency, waveform, samples, detune, harmonics) == Render(s, m, frequency, "sine", samples, detune, harmonics)
  {
    if samples > 0 {
      var t := SampleTimes(s, frequency, samples, detune, m);
      var base := BaseWaveform(t, waveform, m);
      assert base == BaseWaveform(t, "sine", m);
      UnknownHarmonicsAreSine(base, s.harmonicPhases, Detuned(frequency, detune, m), waveform, harmonics, m, TOP_HARMONIC + 1);
    }
  }

  /**
   * The stored phase is the phase of the last emitted sample, so the next
   * buffer starts on that same phase (reduced mod 2pi) instead of one
   * increment later: consecutive buffers repeat one phase at the boundary.
   */
  lemma NextBufferRepeatsLastPhase(s: OscState, m: Maths, frequency: real, waveform: string, n1: nat, n2: nat, detune: real, harmonics: real)
    requires |s.harmonicPhases| == HARMONIC_SLOTS && n1 > 0 && n2 > 0
    ensures var first := Render(s, m, frequency, waveform, n1, detune, harmonics);
      SampleTimes(first.next, frequency, n2, detune, m)[0] == PyMod(SampleTimes(s, frequency, n1, detune, m)[n1 - 1], TWO_PI)
  {
    var first := Render(s, m, frequency, waveform, n1, detune, harmonics);
    var f := Detuned(frequency, detune, m);
    TimesAt(PyMod(first.next.phase, TWO_PI), f, n2, 0);
    PyModIdempotent(SampleTimes(s, frequency, n1, detune, m)[n1 - 1], TWO_PI);
  }

  class Oscillator {
    var phase: real
    const harmonicsPhases: array<real>

    ghost predicate Valid()
      reads this
    {
      harmonicsPhases.Length == HARMONIC_SLOTS
    }

    function State(): OscState
      reads this, harmonicsPhases
    {
      OscState(phase, harmonicsPhases[..])
    }

    constructor ()
      ensures Valid() && fresh(harmonicsPhases)
      ensures State() == OscState(0.0, seq(HARMONIC_SLOTS, _ => 0.0))
    {
      phase := 0.0;
      harmonicsPhases := new real[HARMONIC_SLOTS](_ => 0.0);
    }

    /**
     * The overtone loop: adds overtones 2..8 to `base` and stores each
     * tracker's last phase; `None` where the source raises on an empty buffer.
     */
    method AddHarmonics(m: Maths, base: seq<real>, f: real, waveform: string, samples: nat, harmonics: real)
      returns (output: Option<seq<real>>)
      requires Valid() && |base| == samples
      modifies harmonicsPhases
      ensures samples == 0 ==> output.None? && harmonicsPhases[..] == old(harmonicsPhases[..])
      ensures samples > 0 ==> output == Some(WithHarmonics(base, old(harmonicsPhases[..]), f, waveform, harmonics, m, TOP_HARMONIC + 1))
      ensures samples > 0 ==> harmonicsPhases[..] == HarmonicPhasesAfter(old(harmonicsPhases[..]), f, samples, TOP_HARMONIC + 1)
    {
      ghost var hp0 := harmonicsPhases[..];
      var out := base;
      var i := 2;
      while i < TOP_HARMONIC + 1
        invariant 2 <= i <= TOP_HARMONIC + 1
        invariant out == WithHarmonics(base, hp0, f, waveform, harmonics, m, i)
        invariant samples > 0 ==> harmonicsPhases[..] == HarmonicPhasesAfter(hp0, f, samples, i)
        invariant samples == 0 ==> harmonicsPhases[..] == hp0 && i == 2
      {
        var harmonicT := Linspace(harmonicsPhases[i - 2],
                                  harmonicsPhases[i - 2] + TWO_PI * (f * i as real) * samples as real / SAMPLE_RATE,
                                  samples);
        assert harmonicsPhases[i - 2] == hp0[i - 2];
        assert harmonicT == HarmonicTimes(hp0[i - 2], f, i, samples);
        var harmonic := BaseWaveform(harmonicT, waveform, m);
        out := AddScaled(out, harmonic, harmonics / i as real);
        if samples == 0 {
          return None;
        }
        ghost var before := harmonicsPhases[..];
        harmonicsPhases[i - 2] := PyMod(harmonicT[samples - 1], TWO_PI);
        assert harmonicsPhases[..] == before[i - 2 := PyMod(harmonicT[samples - 1], TWO_PI)];
        HarmonicPhasesStep(hp0, f, samples, i);
        i := i + 1;
      }
      output := Some(out);
    }

    /**
     * Renders `samples` samples, `None` when the source raises (an empty
     * buffer). The new phase and trackers are those `Render` gives.
     */
    method Generate(m: Maths, frequency: real, waveform: string, samples: nat, detune: real := 0.0, harmonics: real := 0.0)
      returns (output: Option<seq<real>>)
      requires Valid()
      modifies this, harmonicsPhases
      ensures Valid()
      ensures var r := Render(old(State()), m, frequency, waveform, samples, detune, harmonics);
        output == r.output && State() == r.next
    {
      ghost var s0 := State();
      phase := PyMod(phase, TWO_PI);
      var f := frequency * m.pow(2.0, detune / 12.0);
      var t := Linspace(phase, phase + TWO_PI * f * samples as real / SAMPLE_RATE, samples);
      var out := BaseWaveform(t, waveform, m);
      assert f == Detuned(frequency, detune, m);
      assert t == SampleTimes(s0, frequency, samples, detune, m);
      if harmonics > 0.0 {
        var withHarmonics := AddHarmonics(m, out, f, waveform, samples, harmonics);
        if withHarmonics.None? {
          return None;
        }
        out := withHarmonics.value;
      }
      if samples == 0 {
        return None;
      }
      phase := PyMod(t[samples - 1], TWO_PI);
      output := Some(out);
    }
  }
}
