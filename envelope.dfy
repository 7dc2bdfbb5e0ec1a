/**
 * The ADSR amplitude envelope: a five-stage state machine advanced one
 * sample at a time. `Step` is the per-sample transition of the source's
 * loop body, `After` its n-fold iteration; the class `ADSR` holds the
 * fields the source updates in place.
 */
module Envelope {
  import opened Base

  datatype Stage = Idle | Attack | Decay | Sustain | Release

  /** Stage durations in seconds and the sustain level. */
  datatype Params = Params(attack: real, decay: real, sustain: real, release: real) {
    /** The durations are nonzero, so every per-sample increment is defined. */
    predicate Timed() {
      attack > 0.0 && decay > 0.0 && release > 0.0
    }

    /** What `set_parameters` guarantees: durations of at least 1 ms, sustain in [0, 1]. */
    predicate Valid() {
      attack >= 0.001 && decay >= 0.001 && release >= 0.001 && 0.0 <= sustain <= 1.0
    }
  }

  /** The mutable pair the per-sample loop updates. */
  datatype Env = Env(stage: Stage, level: real)

  /** The parameters as `set_parameters` stores them. */
  function ClampParams(attack: real, decay: real, sustain: real, release: real): (p: Params)
    ensures p.Valid() && p.Timed()
    ensures attack >= 0.001 ==> p.attack == attack
    ensures decay >= 0.001 ==> p.decay == decay
    ensures release >= 0.001 ==> p.release == release
    ensures 0.0 <= sustain <= 1.0 ==> p.sustain == sustain
    ensures attack < 0.001 ==> p.attack == 0.001
    ensures decay < 0.001 ==> p.decay == 0.001
    ensures release < 0.001 ==> p.release == 0.001
    ensures sustain < 0.0 ==> p.sustain == 0.0
    ensures sustain > 1.0 ==> p.sustain == 1.0
  {
    Params(Max(0.001, attack), Max(0.001, decay), Max(0.0, Min(1.0, sustain)), Max(0.001, release))
  }

  /** Level added per attack sample. */
  function AttackRate(p: Params): real
    requires p.Timed()
  {
    1.0 / (p.attack * SAMPLE_RATE)
  }

  /** Level removed per decay sample. */
  function DecayRate(p: Params): real
    requires p.Timed()
  {
    (1.0 - p.sustain) / (p.decay * SAMPLE_RATE)
  }

  /** Level removed per release sample: set by the sustain level, not by the level at gate-off. */
  function ReleaseRate(p: Params): real
    requires p.Timed()
  {
    p.sustain / (p.release * SAMPLE_RATE)
  }

  /** One iteration of the per-sample loop. */
  function Step(p: Params, e: Env): Env
    requires p.Timed()
  {
    match e.stage
    case Attack =>
      var l := e.level + AttackRate(p);
      if l >= 1.0 then Env(Decay, 1.0) else Env(Attack, l)
    case Decay =>
      var l := e.level - DecayRate(p);
      if l <= p.sustain then Env(Sustain, p.sustain) else Env(Decay, l)
    case Sustain =>
      Env(Sustain, p.sustain)
    case Release =>
      var l := e.level - ReleaseRate(p);
      if l <= 0.0 then Env(Idle, 0.0) else Env(Release, l)
    case Idle =>
      e
  }

  /** The envelope after `n` samples. */
  function After(p: Params, e: Env, n: nat): Env
    requires p.Timed()
  {
    if n == 0 then e else Step(p, After(p, e, n - 1))
  }

  lemma RatesSigns(p: Params)
    requires p.Valid()
    ensures p.Timed()
    ensures AttackRate(p) > 0.0 && DecayRate(p) >= 0.0 && ReleaseRate(p) >= 0.0
    ensures p.sustain > 0.0 ==> ReleaseRate(p) > 0.0
    ensures p.sustain == 0.0 ==> ReleaseRate(p) == 0.0
  {
    assert p.attack * SAMPLE_RATE > 0.0;
    assert p.decay * SAMPLE_RATE > 0.0;
    assert p.release * SAMPLE_RATE > 0.0;
  }

  /**
   * The decay clause of `RatesSigns` on its own (and `ReleaseRateNonNegative`
   * the release clause): the ramp inductions use these, because the full
   * lemma puts all three rate divisions into their proof context.
   */
  lemma DecayRateNonNegative(p: Params)
    requires p.Valid()
    ensures DecayRate(p) >= 0.0
  {
    assert p.decay * SAMPLE_RATE > 0.0;
  }

  lemma ReleaseRateNonNegative(p: Params)
    requires p.Valid()
    ensures ReleaseRate(p) >= 0.0
  {
    assert p.release * SAMPLE_RATE > 0.0;
  }

  /**
   * k - 1 steps of a non-negative `rate` followed by one more are k steps,
   * and a ramp that has not reached `bound` after k steps had not after k - 1.
   */
  lemma RisingStep(level: real, rate: real, k: nat, bound: real)
    requires k > 0 && rate >= 0.0 && level + k as real * rate < bound
    ensures level + (k - 1) as real * rate < bound
    ensures level + (k - 1) as real * rate + rate == level + k as real * rate
  {
    assert (k - 1) as real * rate == k as real * rate - rate;
  }

  /** The falling counterpart of `RisingStep`. */
  lemma FallingStep(level: real, rate: real, k: nat, bound: real)
    requires k > 0 && rate >= 0.0 && level - k as real * rate > bound
    ensures level - (k - 1) as real * rate > bound
    ensures level - (k - 1) as real * rate - rate == level - k as real * rate
  {
    assert (k - 1) as real * rate == k as real * rate - rate;
  }

  /**
   * One sample keeps the level in [0, 1], and each stage moves the level the
   * way it promises: attack rises and stops at 1.0 entering decay; decay
   * falls and stops at the sustain level entering sustain; sustain holds the
   * sustain level; release falls and stops at 0.0 entering idle; idle keeps
   * everything.
   */
  lemma StepBounded(p: Params, e: Env)
    requires p.Valid() && 0.0 <= e.level <= 1.0
    ensures var e' := Step(p, e);
      && 0.0 <= e'.level <= 1.0
      && (e.stage == Attack ==> (e' == Env(Decay, 1.0) || (e'.stage == Attack && e.level < e'.level)))
      && (e.stage == Decay ==> (e' == Env(Sustain, p.sustain) || (e'.stage == Decay && p.sustain < e'.level <= e.level)))
      && (e.stage == Sustain ==> e' == Env(Sustain, p.sustain))
      && (e.stage == Release ==> (e' == Env(Idle, 0.0) || (e'.stage == Release && 0.0 < e'.level <= e.level)))
      && (e.stage == Idle ==> e' == e)
  {
    RatesSigns(p);
  }

  /** With valid parameters the level never leaves [0, 1]. */
  lemma {:induction false} AfterBounded(p: Params, e: Env, n: nat)
    requires p.Valid() && 0.0 <= e.level <= 1.0
    ensures 0.0 <= After(p, e, n).level <= 1.0
  {
    if n > 0 {
      AfterBounded(p, e, n - 1);
      StepBounded(p, After(p, e, n - 1));
    }
  }

  /** Running `m` samples and then `n` more is running `m + n` samples. */
  lemma {:induction false} AfterCompose(p: Params, e: Env, m: nat, n: nat)
    requires p.Timed()
    ensures After(p, After(p, e, m), n) == After(p, e, m + n)
  {
    if n > 0 {
      AfterCompose(p, e, m, n - 1);
    }
  }

  /**
   * Attack is a linear ramp from wherever the level is: while the ramp has not
   * reached 1.0, after k samples the level has grown by k increments.
   */
  lemma {:induction false} AttackRamp(p: Params, level: real, k: nat)
    requires p.Timed()
    requires level + k as real * AttackRate(p) < 1.0
    ensures After(p, Env(Attack, level), k) == Env(Attack, level + k as real * AttackRate(p))
  {
    if k > 0 {
      var rate := AttackRate(p);
      assert rate > 0.0 by {
        assert p.attack * SAMPLE_RATE > 0.0;
      }
      RisingStep(level, rate, k, 1.0);
      AttackRamp(p, level, k - 1);
    }
  }

  /** The first sample whose increment reaches 1.0 clamps there and enters decay. */
  lemma AttackPeak(p: Params, level: real, k: nat)
    requires p.Timed()
    requires level + k as real * AttackRate(p) < 1.0 <= level + (k + 1) as real * AttackRate(p)
    ensures After(p, Env(Attack, level), k + 1) == Env(Decay, 1.0)
  {
    AttackRamp(p, level, k);
  }

  /** While in decay or sustain the level never drops below the sustain level, and the stage stays one of those two. */
  lemma {:induction false} DecayFloor(p: Params, level: real, n: nat)
    requires p.Timed() && level >= p.sustain
    ensures var e := After(p, Env(Decay, level), n);
      (e.stage == Decay || e.stage == Sustain) && e.level >= p.sustain
  {
    if n > 0 {
      DecayFloor(p, level, n - 1);
    }
  }

  /** `level` lowered by `rate` k times, one sample at a time. */
  function Lowered(level: real, rate: real, k: nat): real
  {
    if k == 0 then level else Lowered(level, rate, k - 1) - rate
  }

  /** Lowering k times by `rate` is lowering once by k * rate. */
  lemma {:induction false} LoweredClosed(level: real, rate: real, k: nat)
    ensures Lowered(level, rate, k) == level - k as real * rate
  {
    if k > 0 {
      LoweredClosed(level, rate, k - 1);
      assert (k - 1) as real * rate == k as real * rate - rate;
    }
  }

  /** A closed-form ramp that stays above `floor` is the step-by-step ramp, which stays above too. */
  lemma {:induction false} LoweredAbove(level: real, rate: real, k: nat, floor: real)
    requires level - k as real * rate > floor
    ensures Lowered(level, rate, k) == level - k as real * rate > floor
  {
    LoweredClosed(level, rate, k);
  }

  /** The decay ramp sample by sample: while it stays above the sustain level each sample lowers the level by one step. */
  lemma {:induction false} DecayLowers(p: Params, level: real, k: nat)
    requires p.Valid()
    requires Lowered(level, DecayRate(p), k) > p.sustain
    ensures After(p, Env(Decay, level), k) == Env(Decay, Lowered(level, DecayRate(p), k))
  {
    if k > 0 {
      DecayRateNonNegative(p);
      DecayLowers(p, level, k - 1);
    }
  }

  /**
   * Decay falls by `(1 - sustain) / (decay * 44100)` per sample from whatever
   * level the envelope had, as long as the ramp stays above the sustain level.
   */
  lemma {:induction false} DecayRamp(p: Params, level: real, k: nat)
    requires p.Valid()
    requires level - k as real * DecayRate(p) > p.sustain
    ensures After(p, Env(Decay, level), k) == Env(Decay, level - k as real * DecayRate(p))
  {
    LoweredAbove(level, DecayRate(p), k, p.sustain);
    DecayLowers(p, level, k);
  }

  /** The first decay sample that reaches the sustain level clamps there and enters sustain. */
  lemma {:induction false} DecayEnds(p: Params, level: real, k: nat)
    requires p.Valid()
    requires level - k as real * DecayRate(p) > p.sustain >= level - (k + 1) as real * DecayRate(p)
    ensures After(p, Env(Decay, level), k + 1) == Env(Sustain, p.sustain)
  {
    LoweredAbove(level, DecayRate(p), k, p.sustain);
    LoweredClosed(level, DecayRate(p), k + 1);
    DecayLowers(p, level, k);
    DecayReachesSustain(p, Lowered(level, DecayRate(p), k));
  }

  /** A decay sample that would go down to or past the sustain level lands on it. */
  lemma DecayReachesSustain(p: Params, level: real)
    requires p.Timed() && level - DecayRate(p) <= p.sustain
    ensures Step(p, Env(Decay, level)) == Env(Sustain, p.sustain)
  {
  }

  /** Sustain holds the sustain level for any number of samples. */
  lemma {:induction false} SustainHolds(p: Params, level: real, n: nat)
    requires p.Timed() && n > 0
    ensures After(p, Env(Sustain, level), n) == Env(Sustain, p.sustain)
  {
    if n > 1 {
      SustainHolds(p, level, n - 1);
    }
  }

  /** Idle changes nothing, whatever the level. */
  lemma {:induction false} IdleHolds(p: Params, level: real, n: nat)
    requires p.Timed()
    ensures After(p, Env(Idle, level), n) == Env(Idle, level)
  {
    if n > 0 {
      IdleHolds(p, level, n - 1);
    }
  }

  /**
   * Release falls by `sustain / (release * 44100)` per sample from whatever
   * level the envelope had, as long as the ramp stays above 0.
   */
  lemma {:induction false} ReleaseRamp(p: Params, level: real, k: nat)
    requires p.Valid()
    requires level - k as real * ReleaseRate(p) > 0.0
    ensures After(p, Env(Release, level), k) == Env(Release, level - k as real * ReleaseRate(p))
  {
    if k > 0 {
      ReleaseRateNonNegative(p);
      FallingStep(level, ReleaseRate(p), k, 0.0);
      ReleaseRamp(p, level, k - 1);
    }
  }

  /** The first release sample that reaches 0 clamps there and enters idle. */
  lemma ReleaseEnds(p: Params, level: real, k: nat)
    requires p.Valid()
    requires level - k as real * ReleaseRate(p) > 0.0 >= level - (k + 1) as real * ReleaseRate(p)
    ensures After(p, Env(Release, level), k + 1) == Env(Idle, 0.0)
  {
    ReleaseRamp(p, level, k);
  }

  /** With sustain 0 a release that starts above 0 never ends: the level is frozen. */
  lemma {:induction false} ReleaseStuckWithoutSustain(p: Params, level: real, n: nat)
    requires p.Timed() && p.sustain == 0.0 && level > 0.0
    ensures After(p, Env(Release, level), n) == Env(Release, level)
  {
    if n > 0 {
      ReleaseStuckWithoutSustain(p, level, n - 1);
    }
  }

  class ADSR {
    var attack: real
    var decay: real
    var sustain: real
    var release: real
    var stage: Stage
    var level: real
    var gate: bool

    function Parameters(): Params
      reads this
    {
      Params(attack, decay, sustain, release)
    }

    function Current(): Env
      reads this
    {
      Env(stage, level)
    }

    ghost predicate Valid()
      reads this
    {
      Parameters().Valid() && 0.0 <= level <= 1.0
    }

    constructor ()
      ensures Valid()
      ensures Parameters() == Params(0.01, 0.1, 0.7, 0.3)
      ensures Current() == Env(Idle, 0.0) && !gate
    {
      attack, decay, sustain, release := 0.01, 0.1, 0.7, 0.3;
      stage, level, gate := Idle, 0.0, false;
    }

    method SetParameters(attack: real, decay: real, sustain: real, release: real)
      requires Valid()
      modifies this
      ensures Valid()
      ensures Parameters() == ClampParams(attack, decay, sustain, release)
      ensures Current() == old(Current()) && gate == old(gate)
    {
      var p := ClampParams(attack, decay, sustain, release);
      this.attack, this.decay, this.sustain, this.release := p.attack, p.decay, p.sustain, p.release;
    }

    /** Retrigger: attack restarts from the current level, which is not reset. */
    method GateOn()
      requires Valid()
      modifies this
      ensures Valid()
      ensures stage == Attack && gate && level == old(level)
      ensures Parameters() == old(Parameters())
    {
      stage := Attack;
      gate := true;
    }

    /** Release starts from the current level; no release-start level is recorded. */
    method GateOff()
      requires Valid()
      modifies this
      ensures Valid()
      ensures stage == Release && !gate && level == old(level)
      ensures Parameters() == old(Parameters())
    {
      stage := Release;
      gate := false;
    }

    /** Advances `frames` samples; sample i of the result is the level after that sample's update. */
    method Process(frames: nat) returns (output: array<real>)
      requires Valid()
      modifies this
      ensures Valid() && fresh(output) && output.Length == frames
      ensures forall i :: 0 <= i < frames ==> output[i] == After(old(Parameters()), old(Current()), i + 1).level
      ensures Current() == After(old(Parameters()), old(Current()), frames)
      ensures Parameters() == old(Parameters()) && gate == old(gate)
    {
      output := new real[frames];
      ghost var p, e0 := Parameters(), Current();
      var i := 0;
      while i < frames
        invariant 0 <= i <= frames
        invariant Parameters() == p && gate == old(gate)
        invariant Current() == After(p, e0, i)
        invariant 0.0 <= level <= 1.0
        invariant forall j :: 0 <= j < i ==> output[j] == After(p, e0, j + 1).level
      {
        StepBounded(p, Current());
        match stage {
          case Attack =>
            level := level + 1.0 / (attack * SAMPLE_RATE);
            if level >= 1.0 {
              level := 1.0;
              stage := Decay;
            }
          case Decay =>
            level := level - (1.0 - sustain) / (decay * SAMPLE_RATE);
            if level <= sustain {
              level := sustain;
              stage := Sustain;
            }
          case Sustain =>
            level := sustain;
          case Release =>
            level := level - sustain / (release * SAMPLE_RATE);
            if level <= 0.0 {
              level := 0.0;
              stage := Idle;
            }
          case Idle =>
        }
        output[i] := level;
        i := i + 1;
      }
    }
  }
}
