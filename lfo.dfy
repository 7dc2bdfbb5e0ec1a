/**
 * The low-frequency oscillator and its parameter router: a map of target
 * names to base values, enable and bypass gating, phase advance modulo 2pi
 * and the write-back of `base + output * depth` into the module state.
 */
module Lfo {
  import opened Base
  import opened Config

  /** The waveform names the LFO renders; any other name renders silence. */
  const LFO_WAVEFORMS: set<string> := {"sine", "triangle", "square", "saw"}

  /** The time of sample k: `k / sample_rate + offset`. */
  function SampleTime(k: nat, offset: real): real
  {
    k as real / SAMPLE_RATE + offset
  }

  /** The centred saw `2 * (x - floor(x + 0.5))` the triangle and saw shapes share. */
  function Centred(x: real): (y: real)
    ensures -1.0 <= y < 1.0
  {
    2.0 * (x - (x + 0.5).Floor as real)
  }

  /** The argument `2pi * f * t + phase` of the sine and square shapes. */
  function Angle(frequency: real, t: real, phase: real): real
  {
    2.0 * PI * frequency * t + phase
  }

  /** Sample k of the LFO output. */
  function LfoSample(frequency: real, waveform: string, offset: real, phase: real, k: nat, m: Maths): (y: real)
    ensures waveform == "square" ==> y == -1.0 || y == 0.0 || y == 1.0
    ensures waveform == "triangle" ==> -1.0 <= y <= 1.0
    ensures waveform == "saw" ==> -1.0 <= y < 1.0
    ensures waveform !in LFO_WAVEFORMS ==> y == 0.0
  {
    var t := SampleTime(k, offset);
    if waveform == "sine" then m.sin(Angle(frequency, t, phase))
    else if waveform == "triangle" then 2.0 * Abs(Centred(t * frequency)) - 1.0
    else if waveform == "square" then Sign(m.sin(Angle(frequency, t, phase)))
    else if waveform == "saw" then Centred(t * frequency)
    else 0.0
  }

  /** The waveform `generate` returns for an enabled LFO. */
  function LfoOutput(frequency: real, waveform: string, offset: real, phase: real, frames: nat, m: Maths): (y: seq<real>)
    ensures |y| == frames
    ensures waveform !in LFO_WAVEFORMS ==> y == Zeros(frames)
    ensures waveform == "square" ==> forall k :: 0 <= k < frames ==> y[k] == -1.0 || y[k] == 0.0 || y[k] == 1.0
    ensures waveform == "triangle" ==> forall k :: 0 <= k < frames ==> -1.0 <= y[k] <= 1.0
  {
    seq(frames, k requires 0 <= k < frames => LfoSample(frequency, waveform, offset, phase, k, m))
  }

  /** The phase advance of one buffer: `2pi * f * frames / sample_rate`. */
  function Advance(frequency: real, frames: nat): real
  {
    2.0 * PI * frequency * frames as real / SAMPLE_RATE
  }

  /** The phase after a buffer: `(phase + advance) % 2pi`. */
  function NextPhase(phase: real, frequency: real, frames: nat): (p: real)
    ensures 0.0 <= p < TWO_PI
  {
    PyMod(phase + Advance(frequency, frames), TWO_PI)
  }

  /** Advances over consecutive buffers add up. */
  lemma AdvanceAdditive(frequency: real, n1: nat, n2: nat)
    ensures Advance(frequency, n1) + Advance(frequency, n2) == Advance(frequency, n1 + n2)
  {
    var c := 2.0 * PI * frequency;
    assert c * (n1 + n2) as real == c * n1 as real + c * n2 as real;
  }

  /**
   * The phase after two buffers depends only on their total length, as if
   * one buffer of `n1 + n2` frames had been rendered.
   */
  lemma PhaseAdditive(phase: real, frequency: real, n1: nat, n2: nat)
    ensures NextPhase(NextPhase(phase, frequency, n1), frequency, n2) == NextPhase(phase, frequency, n1 + n2)
  {
    var a1, a2 := Advance(frequency, n1), Advance(frequency, n2);
    var x := phase + a1;
    var p1 := PyMod(x, TWO_PI);
    var q := Quotient(x, TWO_PI);
    AdvanceAdditive(frequency, n1, n2);
    assert phase + Advance(frequency, n1 + n2) == (p1 + a2) + q as real * TWO_PI;
    PyModShift(p1 + a2, TWO_PI, q);
  }

  /** The value a target receives: `base + output * depth`, element-wise. */
  function Modulated(base: real, output: seq<real>, depth: real): (r: seq<real>)
    ensures |r| == |output|
    ensures forall k :: 0 <= k < |output| ==> r[k] == base + output[k] * depth
  {
    seq(|output|, k requires 0 <= k < |output| => base + output[k] * depth)
  }

  /** The written attributes after the targets in `done` have been written. */
  function WrittenSoFar(prev: map<string, seq<real>>, targets: map<string, real>, done: set<string>, output: seq<real>, depth: real): (r: map<string, seq<real>>)
    requires done <= targets.Keys
    ensures r.Keys == prev.Keys + done
  {
    map n | n in prev.Keys + done :: if n in done then Modulated(targets[n], output, depth) else prev[n]
  }

  /**
   * The write-back: every registered target holds `base + output * depth`
   * and every other attribute keeps its value.
   */
  function WriteBack(prev: map<string, seq<real>>, targets: map<string, real>, output: seq<real>, depth: real): (r: map<string, seq<real>>)
    ensures r.Keys == prev.Keys + targets.Keys
    ensures forall n :: n in targets ==> r[n] == Modulated(targets[n], output, depth)
    ensures forall n :: n in prev && n !in targets ==> r[n] == prev[n]
  {
    WrittenSoFar(prev, targets, targets.Keys, output, depth)
  }

  lemma WrittenSoFarStep(prev: map<string, seq<real>>, targets: map<string, real>, done: set<string>, n: string, output: seq<real>, depth: real)
    requires done <= targets.Keys && n in targets && n !in done
    ensures WrittenSoFar(prev, targets, done + {n}, output, depth)
      == WrittenSoFar(prev, targets, done, output, depth)[n := Modulated(targets[n], output, depth)]
  {
  }

  class LFO {
    var frequency: real
    var waveform: string
    var offset: real
    var depth: real
    var phase: real
    var enabled: bool
    var bypassed: bool
    const sampleRate: int
    var targets: map<string, real>

    constructor (frequency: real := 1.0, waveform: string := "sine", offset: real := 0.0, depth: real := 1.0)
      ensures this.frequency == frequency && this.waveform == waveform && this.offset == offset && this.depth == depth
      ensures phase == 0.0 && enabled && !bypassed && sampleRate == 44100 && targets == map[]
    {
      this.frequency := frequency;
      this.waveform := waveform;
      this.offset := offset;
      this.depth := depth;
      phase := 0.0;
      enabled := true;
      bypassed := false;
      sampleRate := 44100;
      targets := map[];
    }

    method SetParameters(frequency: real, waveform: string, offset: real, depth: real)
      modifies this`frequency, this`waveform, this`offset, this`depth
      ensures this.frequency == frequency && this.waveform == waveform && this.offset == offset && this.depth == depth
      ensures phase == old(phase) && enabled == old(enabled) && bypassed == old(bypassed) && targets == old(targets)
    {
      this.frequency := frequency;
      this.waveform := waveform;
      this.offset := offset;
      this.depth := depth;
    }

    /** Registers a target, or overwrites its base value. */
    method AddTarget(name: string, baseValue: real)
      modifies this`targets
      ensures targets == old(targets)[name := baseValue]
      ensures frequency == old(frequency) && waveform == old(waveform) && offset == old(offset) && depth == old(depth)
      ensures phase == old(phase) && enabled == old(enabled) && bypassed == old(bypassed)
    {
      targets := targets[name := baseValue];
    }

    /** Unregisters a target; an absent name changes nothing. */
    method RemoveTarget(name: string)
      modifies this`targets
      ensures targets == old(targets) - {name}
      ensures name !in old(targets) ==> targets == old(targets)
      ensures frequency == old(frequency) && waveform == old(waveform) && offset == old(offset) && depth == old(depth)
      ensures phase == old(phase) && enabled == old(enabled) && bypassed == old(bypassed)
    {
      if name in targets {
        targets := targets - {name};
      }
    }

    method Enable()
      modifies this`enabled
      ensures enabled && bypassed == old(bypassed) && phase == old(phase) && targets == old(targets)
    {
      enabled := true;
    }

    method Disable()
      modifies this`enabled
      ensures !enabled && bypassed == old(bypassed) && phase == old(phase) && targets == old(targets)
    {
      enabled := false;
    }

    method Bypass()
      modifies this`bypassed
      ensures bypassed && enabled == old(enabled) && phase == old(phase) && targets == old(targets)
    {
      bypassed := true;
    }

    method Unbypass()
      modifies this`bypassed
      ensures !bypassed && enabled == old(enabled) && phase == old(phase) && targets == old(targets)
    {
      bypassed := false;
    }

    /**
     * `generate`: zeros while disabled; otherwise the waveform, a phase
     * advance and, unless bypassed, the write-back into the module state.
     */
    method Generate(frames: nat, state: ModuleState, m: Maths) returns (output: seq<real>)
      requires sampleRate == 44100
      modifies this`phase, state`modulated
      ensures !enabled ==> output == Zeros(frames) && phase == old(phase) && state.modulated == old(state.modulated)
      ensures enabled ==> output == LfoOutput(frequency, waveform, offset, old(phase), frames, m)
      ensures enabled ==> phase == NextPhase(old(phase), frequency, frames)
      ensures enabled && !bypassed ==> state.modulated == WriteBack(old(state.modulated), targets, output, depth)
      ensures bypassed ==> state.modulated == old(state.modulated)
    {
      if !enabled {
        return Zeros(frames);
      }
      output := LfoOutput(frequency, waveform, offset, phase, frames, m);
      phase := phase + 2.0 * PI * frequency * frames as real / sampleRate as real;
      assert phase == old(phase) + Advance(frequency, frames);
      phase := PyMod(phase, TWO_PI);
      if !bypassed {
        ghost var prev := state.modulated;
        var remaining := targets.Keys;
        while remaining != {}
          invariant remaining <= targets.Keys
          invariant state.modulated == WrittenSoFar(prev, targets, targets.Keys - remaining, output, depth)
          modifies state`modulated
          decreases remaining
        {
          var name :| name in remaining;
          WrittenSoFarStep(prev, targets, targets.Keys - remaining, name, output, depth);
          state.modulated := state.modulated[name := Modulated(targets[name], output, depth)];
          assert targets.Keys - (remaining - {name}) == (targets.Keys - remaining) + {name};
          remaining := remaining - {name};
        }
      }
    }
  }
}
