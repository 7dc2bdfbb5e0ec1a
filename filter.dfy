/**
 * The cascaded resonant filter. The coefficients are computed from the
 * uninterpreted `Maths` functions; what the model pins down is the type
 * dispatch, the number of stages, the per-stage delay line that stores
 * input samples, and which stages are left untouched.
 */
module Filters {
  import opened Base

  const MIN_FREQ: real := 20.0
  const MAX_FREQ: real := 22000.0
  const RESONANCE_SCALE: real := 5.0
  const CUTOFF_SCALE: real := 4.0

  /** Number of delay-line slots (`z1`, `z2` have four entries each). */
  const MAX_STAGES: nat := 4

  const FILTER_TYPES: set<string> := {"lowpass", "highpass", "bandpass"}

  datatype FilterParams = FilterParams(cutoff: real, resonance: real, filterType: string, steepness: real, harmonics: real)

  /** The parameters as `set_parameters` stores them. */
  function ClampParams(cutoff: real, resonance: real, filterType: string, steepness: real, harmonics: real): (p: FilterParams)
    ensures 0.01 <= p.cutoff <= 0.99 && 0.0 <= p.resonance <= 0.99
    ensures 1.0 <= p.steepness <= 4.0 && 0.0 <= p.harmonics <= 1.0
    ensures p.filterType == filterType
    ensures 0.01 <= cutoff <= 0.99 ==> p.cutoff == cutoff
    ensures 0.0 <= resonance <= 0.99 ==> p.resonance == resonance
    ensures 1.0 <= steepness <= 4.0 ==> p.steepness == steepness
    ensures 0.0 <= harmonics <= 1.0 ==> p.harmonics == harmonics
  {
    FilterParams(Clamp(cutoff, 0.01, 0.99), Clamp(resonance, 0.0, 0.99), filterType,
                 Clamp(steepness, 1.0, 4.0), Clamp(harmonics, 0.0, 1.0))
  }

  /** `int(steepness)` for a steepness in [1, 4]: the number of cascaded stages. */
  function StageCount(steepness: real): (n: nat)
    requires 1.0 <= steepness <= 4.0
    ensures 1 <= n <= MAX_STAGES
    ensures n as real <= steepness < n as real + 1.0
  {
    steepness.Floor
  }

  /** Normalised biquad coefficients, `a0` already divided out. */
  datatype Biquad = Biquad(b0: real, b1: real, b2: real, a1: real, a2: real)

  /**
   * The coefficients `process` computes, or `None` when the filter type is
   * none of the three known ones (the source then reads an unbound `b0` and
   * raises).
   */
  function Design(cutoff: real, resonance: real, filterType: string, m: Maths): (c: Option<Biquad>)
    ensures c.Some? <==> filterType in FILTER_TYPES
    ensures c.Some? && filterType == "lowpass" ==> c.value.b2 == c.value.b0 && c.value.b1 == 2.0 * c.value.b0
    ensures c.Some? && filterType == "highpass" ==> c.value.b2 == c.value.b0 && c.value.b1 == -2.0 * c.value.b0
    ensures c.Some? && filterType == "bandpass" ==> c.value.b1 == 0.0 && c.value.b2 == -c.value.b0
  {
    var cutoffFreq := MIN_FREQ * m.pow(MAX_FREQ / MIN_FREQ, cutoff * cutoff);
    var w0 := 2.0 * PI * cutoffFreq / SAMPLE_RATE;
    var cosw0 := m.cos(w0);
    var alpha := Div(m.sin(w0), 2.0 * (1.0 - m.pow(resonance, 0.5) * 0.99));
    var a0 := 1.0 + alpha * RESONANCE_SCALE;
    var a1 := -2.0 * cosw0;
    var a2 := 1.0 - alpha * RESONANCE_SCALE;
    if filterType == "lowpass" then
      var b := (1.0 - cosw0) / 2.0 * CUTOFF_SCALE;
      var b1 := (1.0 - cosw0) * CUTOFF_SCALE;
      assert Div(b1, a0) == 2.0 * Div(b, a0);
      Some(Biquad(Div(b, a0), Div(b1, a0), Div(b, a0), Div(a1, a0), Div(a2, a0)))
    else if filterType == "highpass" then
      var b := (1.0 + cosw0) / 2.0 * CUTOFF_SCALE;
      var b1 := -(1.0 + cosw0) * CUTOFF_SCALE;
      assert Div(b1, a0) == -2.0 * Div(b, a0);
      Some(Biquad(Div(b, a0), Div(b1, a0), Div(b, a0), Div(a1, a0), Div(a2, a0)))
    else if filterType == "bandpass" then
      var b := alpha * CUTOFF_SCALE;
      assert Div(-alpha * CUTOFF_SCALE, a0) == -Div(b, a0);
      Some(Biquad(Div(b, a0), Div(0.0, a0), Div(-alpha * CUTOFF_SCALE, a0), Div(a1, a0), Div(a2, a0)))
    else
      None
  }

  /** A stage's two-slot delay line: the last input sample and the one before it. */
  datatype Delay = Delay(z1: real, z2: real)

  /** One output sample of a stage (the delay line holds inputs, not outputs). */
  function Tap(c: Biquad, x: real, d: Delay): real
  {
    c.b0 * x + c.b1 * d.z1 + c.b2 * d.z2 - c.a1 * d.z1 - c.a2 * d.z2
  }

  datatype StageResult = StageResult(out: seq<real>, delay: Delay)

  /** One stage over a whole buffer, sample by sample as the inner loop runs. */
  function RunStage(c: Biquad, x: seq<real>, d: Delay): (r: StageResult)
    ensures |r.out| == |x|
    decreases |x|
  {
    if x == [] then StageResult([], d)
    else
      var prev := RunStage(c, x[..|x| - 1], d);
      StageResult(prev.out + [Tap(c, x[|x| - 1], prev.delay)], Delay(x[|x| - 1], prev.delay.z1))
  }

  /**
   * After a stage, `z1` is the last sample fed to it and `z2` the one before
   * that, or the old `z1` when the buffer held a single sample; an empty
   * buffer leaves the delay line as it was.
   */
  lemma {:induction false} RunStageDelay(c: Biquad, x: seq<real>, d: Delay)
    ensures x == [] ==> RunStage(c, x, d).delay == d
    ensures |x| >= 1 ==> RunStage(c, x, d).delay.z1 == x[|x| - 1]
    ensures |x| == 1 ==> RunStage(c, x, d).delay.z2 == d.z1
    ensures |x| >= 2 ==> RunStage(c, x, d).delay.z2 == x[|x| - 2]
  {
    if |x| >= 1 {
      var init := x[..|x| - 1];
      RunStageDelay(c, init, d);
      if |x| >= 2 {
        assert init[|init| - 1] == x[|x| - 2];
      }
    }
  }

  /**
   * Streaming law of one stage: processing `x + y` in one call is processing
   * `x`, then `y` starting from the delay line `x` left behind.
   */
  lemma {:induction false} RunStageSplit(c: Biquad, x: seq<real>, y: seq<real>, d: Delay)
    ensures var first := RunStage(c, x, d);
      var second := RunStage(c, y, first.delay);
      RunStage(c, x + y, d) == StageResult(first.out + second.out, second.delay)
    decreases |y|
  {
    if y != [] {
      var y' := y[..|y| - 1];
      assert (x + y)[..|x + y| - 1] == x + y';
      assert (x + y)[|x + y| - 1] == y[|y| - 1];
      RunStageSplit(c, x, y', d);
    } else {
      assert x + y == x;
    }
  }

  datatype CascadeResult = CascadeResult(out: seq<real>, delays: seq<Delay>)

  /** The first `n` stages in series: stage i's output feeds stage i + 1. */
  function Cascade(c: Biquad, x: seq<real>, delays: seq<Delay>, n: nat): (r: CascadeResult)
    requires n <= |delays|
    ensures |r.out| == |x| && |r.delays| == |delays|
    ensures forall s :: n <= s < |delays| ==> r.delays[s] == delays[s]
  {
    if n == 0 then CascadeResult(x, delays)
    else
      var prev := Cascade(c, x, delays, n - 1);
      var stage := RunStage(c, prev.out, delays[n - 1]);
      CascadeResult(stage.out, prev.delays[n - 1 := stage.delay])
  }

  /** The first `n` stages neither read nor write the delay lines of later stages. */
  lemma {:induction false} CascadeFrame(c: Biquad, x: seq<real>, delays: seq<Delay>, n: nat, j: nat, v: Delay)
    requires n <= j < |delays|
    ensures var r := Cascade(c, x, delays, n);
      Cascade(c, x, delays[j := v], n) == CascadeResult(r.out, r.delays[j := v])
  {
    if n > 0 {
      CascadeFrame(c, x, delays, n - 1, j, v);
      var r := Cascade(c, x, delays, n - 1);
      var st := RunStage(c, r.out, delays[n - 1]);
      assert r.delays[j := v][n - 1 := st.delay] == r.delays[n - 1 := st.delay][j := v];
    }
  }

  /** The inductive step of `CascadeSplit`: the law for n - 1 stages gives it for n. */
  lemma CascadeSplitStep(c: Biquad, x: seq<real>, y: seq<real>, delays: seq<Delay>, n: nat)
    requires 0 < n <= |delays|
    requires var f := Cascade(c, x, delays, n - 1);
      var g := Cascade(c, y, f.delays, n - 1);
      Cascade(c, x + y, delays, n - 1) == CascadeResult(f.out + g.out, g.delays)
    ensures var first := Cascade(c, x, delays, n);
      var second := Cascade(c, y, first.delays, n);
      Cascade(c, x + y, delays, n) == CascadeResult(first.out + second.out, second.delays)
  {
    var f := Cascade(c, x, delays, n - 1);
    var g := Cascade(c, y, f.delays, n - 1);
    var whole := Cascade(c, x + y, delays, n - 1);
    var s1 := RunStage(c, f.out, delays[n - 1]);
    var s2 := RunStage(c, g.out, s1.delay);
    assert RunStage(c, whole.out, delays[n - 1]) == StageResult(s1.out + s2.out, s2.delay) by {
      RunStageSplit(c, f.out, g.out, delays[n - 1]);
    }
    var first := Cascade(c, x, delays, n);
    assert first.delays == f.delays[n - 1 := s1.delay];
    assert Cascade(c, y, first.delays, n - 1) == CascadeResult(g.out, g.delays[n - 1 := s1.delay]) by {
      CascadeFrame(c, y, f.delays, n - 1, n - 1, s1.delay);
    }
    assert g.delays[n - 1 := s1.delay][n - 1 := s2.delay] == g.delays[n - 1 := s2.delay];
  }

  /** Streaming law of the cascade: one call on `x + y` equals two calls in turn. */
  lemma {:induction false} CascadeSplit(c: Biquad, x: seq<real>, y: seq<real>, delays: seq<Delay>, n: nat)
    requires n <= |delays|
    ensures var first := Cascade(c, x, delays, n);
      var second := Cascade(c, y, first.delays, n);
      Cascade(c, x + y, delays, n) == CascadeResult(first.out + second.out, second.delays)
  {
    if n > 0 {
      CascadeSplit(c, x, y, delays, n - 1);
      CascadeSplitStep(c, x, y, delays, n);
    }
  }

  /** The output gain trim `1 - 0.5 * cutoff`. */
  function Gain(cutoff: real): real
  {
    1.0 - cutoff * 0.5
  }

  /**
   * Streaming law of `process`: with unchanged parameters, two calls on `x`
   * and then `y` output what one call on `x + y` outputs, gain included, and
   * leave the same delay lines.
   */
  lemma ProcessSplit(c: Biquad, x: seq<real>, y: seq<real>, delays: seq<Delay>, n: nat, gain: real)
    requires n <= |delays|
    ensures var first := Cascade(c, x, delays, n);
      var second := Cascade(c, y, first.delays, n);
      var whole := Cascade(c, x + y, delays, n);
      Scale(whole.out, gain) == Scale(first.out, gain) + Scale(second.out, gain) && whole.delays == second.delays
  {
    CascadeSplit(c, x, y, delays, n);
    var first := Cascade(c, x, delays, n);
    ScaleAppend(first.out, Cascade(c, y, first.delays, n).out, gain);
  }

  class Filter {
    var cutoff: real
    var resonance: real
    var filterType: string
    var steepness: real
    var harmonics: real
    const z1: array<real>
    const z2: array<real>

    ghost predicate Valid()
      reads this
    {
      z1.Length == MAX_STAGES && z2.Length == MAX_STAGES && z1 != z2 && 1.0 <= steepness <= 4.0
    }

    function Parameters(): FilterParams
      reads this
    {
      FilterParams(cutoff, resonance, filterType, steepness, harmonics)
    }

    /** The four delay lines as values. */
    function Delays(): (d: seq<Delay>)
      reads this, z1, z2
      requires Valid()
      ensures |d| == MAX_STAGES
    {
      seq(MAX_STAGES, s requires 0 <= s < MAX_STAGES reads z1, z2 => Delay(z1[s], z2[s]))
    }

    constructor ()
      ensures Valid() && fresh(z1) && fresh(z2)
      ensures Parameters() == FilterParams(0.99, 0.0, "lowpass", 1.0, 0.0)
      ensures Delays() == seq(MAX_STAGES, _ => Delay(0.0, 0.0))
    {
      cutoff, resonance, filterType, steepness, harmonics := 0.99, 0.0, "lowpass", 1.0, 0.0;
      z1 := new real[MAX_STAGES](_ => 0.0);
      z2 := new real[MAX_STAGES](_ => 0.0);
    }

    method SetParameters(cutoff: real, resonance: real, filterType: string, steepness: real := 1.0, harmonics: real := 0.0)
      requires Valid()
      modifies this
      ensures Valid()
      ensures Parameters() == ClampParams(cutoff, resonance, filterType, steepness, harmonics)
      ensures Delays() == old(Delays())
    {
      var p := ClampParams(cutoff, resonance, filterType, steepness, harmonics);
      this.cutoff, this.resonance, this.filterType, this.steepness, this.harmonics :=
        p.cutoff, p.resonance, p.filterType, p.steepness, p.harmonics;
    }

    /** One pass of stage `stage` over `input` (the inner loop of `process`). */
    method ProcessStage(c: Biquad, input: seq<real>, stage: nat) returns (temp: seq<real>)
      requires Valid() && stage < MAX_STAGES
      modifies z1, z2
      ensures Valid()
      ensures var r := RunStage(c, input, old(Delays())[stage]);
        temp == r.out && Delays() == old(Delays())[stage := r.delay]
    {
      ghost var before := Delays();
      var buffer := new real[|input|](_ => 0.0);
      var i := 0;
      while i < |input|
        invariant 0 <= i <= |input|
        invariant RunStage(c, input[..i], before[stage]) == StageResult(buffer[..i], Delay(z1[stage], z2[stage]))
        invariant forall s :: 0 <= s < MAX_STAGES && s != stage ==> z1[s] == before[s].z1 && z2[s] == before[s].z2
      {
        ghost var d := Delay(z1[stage], z2[stage]);
        buffer[i] := c.b0 * input[i] + c.b1 * z1[stage] + c.b2 * z2[stage] - c.a1 * z1[stage] - c.a2 * z2[stage];
        z2[stage] := z1[stage];
        z1[stage] := input[i];
        assert buffer[i] == Tap(c, input[i], d);
        assert Delay(z1[stage], z2[stage]) == Delay(input[i], d.z1);
        assert input[..i + 1][..i] == input[..i];
        assert buffer[..i + 1] == buffer[..i] + [buffer[i]];
        i := i + 1;
      }
      assert input[..|input|] == input;
      assert buffer[..|input|] == buffer[..];
      temp := buffer[..];
    }

    /**
     * Filters `signal` through `int(steepness)` stages and trims the gain.
     * Returns `None` (the source raises) for an unknown filter type, with
     * nothing changed. Stages beyond the stage count keep their delay lines.
     */
    method Process(signal: seq<real>, m: Maths) returns (output: Option<seq<real>>)
      requires Valid()
      modifies z1, z2
      ensures Valid()
      ensures var c := Design(cutoff, resonance, filterType, m);
        && (c.None? ==> output.None? && Delays() == old(Delays()))
        && (c.Some? ==>
             var r := Cascade(c.value, signal, old(Delays()), StageCount(steepness));
             output == Some(Scale(r.out, Gain(cutoff))) && Delays() == r.delays)
      ensures forall s :: StageCount(steepness) <= s < MAX_STAGES ==> Delays()[s] == old(Delays())[s]
    {
      var design := Design(cutoff, resonance, filterType, m);
      if design.None? {
        return None;
      }
      var c := design.value;
      ghost var d0 := Delays();
      var out := signal;
      var stages := StageCount(steepness);
      var stage := 0;
      while stage < stages
        invariant 0 <= stage <= stages
        invariant Valid()
        invariant Cascade(c, signal, d0, stage) == CascadeResult(out, Delays())
      {
        ghost var prev := Cascade(c, signal, d0, stage);
        assert prev.delays[stage] == d0[stage];
        out := ProcessStage(c, out, stage);
        stage := stage + 1;
      }
      output := Some(Scale(out, Gain(cutoff)));
      assert forall s :: stages <= s < MAX_STAGES ==> Delays()[s] == d0[s];
    }
  }
}
