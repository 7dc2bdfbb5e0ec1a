# MODULE-BASED-SYNTH core, modelled in Dafny

This project models the control logic of a small modular software synthesizer:
- the ADSR amplitude envelope, a five-state per-sample machine;
- the cascaded biquad filter, with one two-slot delay line per stage;
- the oscillator's phase bookkeeping and waveform dispatch;
- the single-voice synthesizer engine and its audio callback;
- MIDI note classification and the control-change (CC) parameter mapping;
- the LFO with its target router;
- the bounded signal monitors of the debug system;
- the configuration tables.

Numbers are `real`. The transcendental functions (`sin`, `cos`, `x ** y`) are passed in as a `Maths` value and stay uninterpreted. What is proved concerns the state machines, clamps, dispatch, phase reduction (Python's floor-semantics `%`) and buffer bookkeeping.

There is one module per component:

| module | file | models |
|---|---|---|
| `Base` | base.dfy | `Option`, π, the sample rate, clamping, Python `%`, `np.sign`, `np.zeros` |
| `Config` | config.dfy | the CC tables, the audio constants, `ModuleState` and its defaults |
| `Envelope` | envelope.dfy | `ADSR` |
| `Filters` | filter.dfy | `Filter` |
| `Oscillators` | oscillator.dfy | `Oscillator` |
| `Core` | core.dfy | `Voice`, `Synthesizer` |
| `Midi` | midi.dfy | `MIDIHandler` |
| `Lfo` | lfo.dfy | `LFO` |
| `Debug` | debug.dfy | `SignalMonitor`, `DebugSystem` |

Classes whose fields the source updates in place are Dafny classes:
- the filter's `z1`/`z2` lists and the oscillator's `harmonics_phases` are arrays;
- the state's `osc_mix` and `osc_detune` are arrays.

Each state-changing method is proved against a specification function of the old state:
- `ADSR.Process` against `After`;
- `Filter.Process` against `Design`, `Cascade` and `Gain`;
- `Oscillator.Generate` against `Render`;
- `MIDIHandler.HandleCC` against `ApplyCC`;
- `LFO.Generate` against `LfoOutput`, `NextPhase` and `WriteBack`;
- `SignalMonitor.Update` against `Newest`.

The properties are then proved as lemmas about those functions.

Where the source raises an exception, the model returns `None`:
- an unknown filter type leaves `b0` unbound;
- an empty oscillator buffer reads `t[-1]`.

The state changes made before the exception are kept.

In two places the model follows the code where the surrounding documentation describes something different:
- The oscillator stores the phase of the *last emitted* sample, so the next buffer starts on that same phase (`Oscillators.NextBufferRepeatsLastPhase`). It does not start one increment later.
- `MIDIHandler._handle_midi_message` never calls `_handle_cc`, so control-change messages are classified as producing no event (`Midi.Classify`). `HandleCC` is modelled as the separate method it is.

## Model

| member | source | states |
|---|---|---|
| Base.Clamp | src/audio.py:88-92 | `min(max(x, lo), hi)` lies in [lo, hi]; it is the identity inside the range and the nearer bound outside it |
| Base.PyMod | src/audio.py:30 | Python's float `%` with a positive modulus: the result is in [0, m), differs from x by a whole number of periods, and is x itself when x is already in range |
| Base.PyModUnique | src/lfo.py:57-58 | a value r in [0, m) that differs from x by a whole number of periods is the remainder of x |
| Base.PyModShift | src/lfo.py:57-58 | reducing x + k·m gives the same result as reducing x, for any integer k |
| Base.Sign | src/lfo.py:51 | `np.sign` yields −1, 0 or 1, has the sign of its argument, and is 0 only at 0 |
| Config.CcGroupsDisjoint | src/config.py:21-25 | no CC table repeats a number; the mix, detune and ADSR groups are pairwise disjoint; cutoff (22) and resonance (23) are distinct and belong to no group |
| Config.TableSizes | src/config.py:21-25 | the mix and detune tables have one entry per oscillator slot (4); the ADSR table and key list both have 4 entries; the keys are exactly the keys of the default `adsr` dictionary |
| Config.DefaultSettings | src/config.py:30-48 | a fresh state has mix 0.25 in all 4 slots, detune 0, cutoff 1.0, resonance 0.0, type lowpass, and ADSR attack 0.01, decay 0.1, sustain 0.7, release 0.3 |
| Config.ModuleState.constructor | src/config.py:30-48 | the constructor's state equals `DefaultSettings()` |
| Envelope.ClampParams | src/audio.py:163-167 | after `set_parameters`, attack, decay and release are ≥ 0.001 and sustain is in [0, 1]; in-range arguments are kept unchanged |
| Envelope.Step | src/audio.py:181-198 | definition of one iteration of the per-sample loop body: the stage branch and its clamp |
| Envelope.After | src/audio.py:177-199 | definition of the per-sample loop as `Step` applied n times |
| Envelope.RatesSigns | src/audio.py:182-194 | with valid parameters the attack step is positive and the decay and release steps are non-negative; the release step is 0 exactly when sustain is 0 |
| Envelope.StepBounded | src/audio.py:181-197 | one sample's update keeps the level in [0, 1]; attack either rises or clamps to 1 and enters decay; decay either falls or settles on sustain; sustain holds the sustain level; release either falls or clamps to 0 and enters idle; idle changes nothing |
| Envelope.AfterBounded | src/audio.py:177-199 | the level stays in [0, 1] after any number of samples |
| Envelope.AfterCompose | src/audio.py:177-199 | processing m frames then n frames equals processing m + n frames |
| Envelope.AttackRamp | src/audio.py:181-182 | below the peak, attack adds exactly `1/(attack·44100)` per sample, starting from whatever the level was at gate on |
| Envelope.AttackPeak | src/audio.py:183-185 | the sample that reaches 1 clamps the level to 1.0 and switches to decay |
| Envelope.DecayLowers | src/audio.py:186-188 | while the ramp stays above the sustain level, each decay sample lowers the level by one decay step and the stage stays decay |
| Envelope.DecayRamp | src/audio.py:186-188 | while above the sustain level, decay subtracts exactly `(1 − sustain)/(decay·44100)` per sample from whatever level it started at |
| Envelope.DecayEnds | src/audio.py:186-190 | the first decay sample that reaches the sustain level sets the level to sustain and enters the sustain stage |
| Envelope.DecayFloor | src/audio.py:186-190 | from a level at or above sustain, decay never goes below sustain and can only end in sustain |
| Envelope.SustainHolds | src/audio.py:191-192 | in sustain the level equals sustain after every sample |
| Envelope.IdleHolds | src/audio.py:181-198 | idle leaves the level unchanged |
| Envelope.ReleaseRamp | src/audio.py:193-194 | release subtracts `sustain/(release·44100)` per sample from whatever level it started at |
| Envelope.ReleaseEnds | src/audio.py:195-197 | the sample that reaches 0 clamps the level to 0.0 and switches to idle |
| Envelope.ReleaseStuckWithoutSustain | src/audio.py:193-197 | with sustain 0 and a positive level, release never leaves release and never changes the level |
| Envelope.ADSR.constructor | src/audio.py:154-161 | the defaults are 0.01/0.1/0.7/0.3, idle, level 0, gate off |
| Envelope.ADSR.SetParameters | src/audio.py:163-167 | the stored parameters are `ClampParams` of the arguments; stage, level and gate are unchanged |
| Envelope.ADSR.GateOn | src/audio.py:169-171 | the stage becomes attack and the gate opens; the level is unchanged |
| Envelope.ADSR.GateOff | src/audio.py:173-175 | the stage becomes release and the gate closes; the level is unchanged, so no release level is captured |
| Envelope.ADSR.Process | src/audio.py:177-199 | returns exactly `frames` values; value i is the level after sample i's update; the final stage and level are `After(frames)`; the level invariant [0, 1] is kept |
| Filters.ClampParams | src/audio.py:86-92 | cutoff is clamped to [0.01, 0.99], resonance to [0, 0.99], steepness to [1, 4] and harmonics to [0, 1]; in-range values are kept; the type is stored as given |
| Filters.StageCount | src/audio.py:131 | `int(steepness)` for a clamped steepness is a stage count in 1..4 with n ≤ steepness < n + 1 |
| Filters.Design | src/audio.py:97-127 | the coefficients exist exactly for lowpass, highpass and bandpass (otherwise `b0` is unbound); lowpass has b2 = b0 and b1 = 2·b0; highpass has b2 = b0 and b1 = −2·b0; bandpass has b1 = 0 and b2 = −b0 |
| Filters.RunStage | src/audio.py:135-142 | one stage over a buffer yields one output per input sample (definition of the inner loop, sample by sample) |
| Filters.Gain | src/audio.py:147 | definition of the output trim `1 − 0.5·cutoff` |
| Filters.RunStageDelay | src/audio.py:135-142 | after a stage, z1 is the last input sample and z2 the one before it, or the old z1 for a one-sample input; an empty input leaves the delay line alone |
| Filters.RunStageSplit | src/audio.py:133-144 | a stage run over x + y equals a run over x followed by a run over y from the delay line x left behind |
| Filters.Cascade | src/audio.py:133-144 | running n stages keeps the buffer length, and the delay lines of stages n and above are unchanged |
| Filters.CascadeSplit | src/audio.py:133-144 | the whole cascade is streaming: processing x + y equals processing x and then y |
| Filters.ProcessSplit | src/audio.py:130-147 | two `process` calls with unchanged parameters output what one call on the concatenated signal outputs, gain included, and leave the same delay lines |
| Base.ScaleAppend | src/audio.py:147 | scaling a concatenated buffer by the gain equals scaling each part |
| Filters.Filter.constructor | src/audio.py:72-84 | the defaults are cutoff 0.99, resonance 0, lowpass, steepness 1, harmonics 0, and all delay lines zero |
| Filters.Filter.SetParameters | src/audio.py:86-92 | the stored parameters are `ClampParams` of the arguments; the delay lines are unchanged |
| Filters.Filter.ProcessStage | src/audio.py:134-144 | one stage's loop returns `RunStage`'s output and updates only that stage's delay line |
| Filters.Filter.Process | src/audio.py:94-149 | an unknown type fails with all delay lines unchanged; otherwise the output is the `int(steepness)`-stage cascade scaled by `1 − 0.5·cutoff`; the input is not modified and the unused stages' delay lines are unchanged |
| Oscillators.Wave | src/audio.py:59-69 | pulse yields ±1, and +1 exactly when `t mod 2π < π`; saw is in [−1, 1); triangle is in [−1, 1]; an unknown name yields `sin(t)` |
| Oscillators.Linspace | src/audio.py:36-39 | `np.linspace(start, stop, n, endpoint=False)` yields n points (definition: k-th point is start plus k equal steps) |
| Oscillators.TimesAt | src/audio.py:36-39 | sample k of the time array lies k·(2π·f/44100) past the phase the buffer starts on |
| Oscillators.Render | src/audio.py:19-57 | output exists exactly when `samples` ≥ 1 and has `samples` values; the stored phase is in [0, 2π) and equals the last emitted sample's phase mod 2π; after an empty buffer it is the reduced old phase; harmonic trackers change only when harmonics > 0 and samples ≥ 1; slot 7 is never touched; trackers in [0, 2π) stay there |
| Oscillators.StoredPhaseAdvance | src/audio.py:30-56 | the stored phase is the reduced start phase advanced by (samples − 1) increments, reduced mod 2π |
| Oscillators.WithHarmonics | src/audio.py:45-53 | the harmonic sum keeps the buffer length (definition of overtones 2 .. 8 added with weight amount/i) |
| Oscillators.HarmonicPhasesAfter | src/audio.py:45-54 | one tracker per overtone slot (definition: slot i−2 stores the last phase of overtone i mod 2π once overtone i ran, else keeps its old value) |
| Oscillators.PulseIsTwoLevel | src/audio.py:68 | without harmonics, a pulse buffer holds only +1 and −1 |
| Oscillators.UnknownWaveformIsSine | src/audio.py:61-69 | an unknown waveform name renders exactly what "sine" renders, overtones and state included |
| Oscillators.NextBufferRepeatsLastPhase | src/audio.py:36-56 | the next buffer's first sample has the same phase (mod 2π) as the previous buffer's last sample |
| Oscillators.Oscillator.constructor | src/audio.py:15-17 | the phase is 0 and the 8 harmonic trackers are 0 |
| Oscillators.Oscillator.AddHarmonics | src/audio.py:45-54 | adds overtones 2..8 weighted `harmonics/i`, each from its own tracker, and stores each tracker's last phase mod 2π; an empty buffer fails with the trackers unchanged |
| Oscillators.Oscillator.Generate | src/audio.py:19-57 | returns `Render`'s output, and the new phase and trackers are `Render`'s next state |
| Core.NoteOnState | src/core.py:78-84 | note on sets the note, sets velocity to v/127 (in [0, 1] for MIDI velocities) and activates the voice, whatever it was playing |
| Core.NoteOffState | src/core.py:86-91 | note off keeps the note and velocity; afterwards the voice is active exactly when it was active and playing another note |
| Core.LastNotePriority | src/core.py:51-91 | after a second note on, releasing the first note changes nothing and the voice plays the second note |
| Core.NoteOffAfterNoteOn | src/core.py:78-91 | releasing the note just played silences the voice and keeps its note and velocity |
| Core.CallbackOutput | src/core.py:102-122 | the callback writes `frames` values: zeros for an inactive voice, otherwise the 440·2^((note−69)/12) Hz sine scaled by velocity, and zeros when rendering raises |
| Core.SilentVoice | src/core.py:108-115 | an inactive voice, or one with velocity 0, outputs all zeros |
| Core.Fill | src/core.py:109 | `outdata.fill(value)` sets every entry of the buffer to the value |
| Core.Voice.constructor | src/core.py:42-46 | a fresh voice has note 0, velocity 0, inactive, and a fresh oscillator |
| Core.Synthesizer.constructor | src/core.py:50-55 | a fresh synthesizer has a fresh idle voice (note 0, velocity 0, inactive) whose fresh oscillator starts at phase 0 with eight zero harmonic trackers, and sample rate 44100 |
| Core.Synthesizer.NoteOn | src/core.py:78-84 | the voice becomes `NoteOnState` of its old state |
| Core.Synthesizer.NoteOff | src/core.py:86-91 | the voice becomes `NoteOffState` of its old state |
| Core.Synthesizer.AudioCallback | src/core.py:93-122 | the output buffer holds `CallbackOutput`; the oscillator advances as `Render` says when the voice is active, and is untouched otherwise |
| Midi.Classify | src/midi.py:84-95 | a callback event exists exactly for note_off or a note_on with velocity ≥ 0; a note_on with velocity > 0 gives ('note_on', note, velocity); a note_off or velocity-0 note_on gives ('note_off', note, 0); any other type, control_change included, gives none |
| Midi.ZeroVelocityIsNoteOff | src/midi.py:92-95 | a note_on with velocity 0 is indistinguishable from a note_off |
| Midi.IndexOf | src/midi.py:101 | `tuple.index` returns the first position holding the value |
| Midi.CcControl | src/midi.py:100-113 | a CC number addresses nothing exactly when it is in none of the mix, detune and ADSR tables and is neither 22 nor 23; an addressed mix or detune slot is one of the four oscillators |
| Midi.CcControlMapping | src/midi.py:100-113 | a mix CC at position i addresses mix slot i; a detune CC at position i addresses detune slot i; 22 addresses the cutoff and 23 the resonance; the ADSR CCs address attack, decay, sustain and release in order |
| Midi.CcControlSource | src/midi.py:100-113 | every addressed control leads back, through the inverse table `CcOf`, to the CC number that addressed it |
| Midi.CcControlInjective | src/midi.py:100-113 | two different CC numbers never address the same parameter |
| Midi.ControlValue | src/midi.py:98-105 | detune writes 2·v/127 − 1, in [−1, 1]; every other control writes v/127, in [0, 1], for values 0..127 |
| Midi.ApplyCC | src/midi.py:97-113 | an unmapped CC leaves the whole state unchanged |
| Midi.ApplyCCEffect | src/midi.py:97-113 | each mapped CC writes exactly its one field (mix slot, detune slot, cutoff, resonance or ADSR key), and every other field is unchanged |
| Midi.ApplyCCRange | src/midi.py:98-109 | for values 0..127, mix, cutoff and resonance writes lie in [0, 1], and detune writes lie in [−1, 1] |
| Midi.ApplyCCCommutes | src/midi.py:97-113 | control changes on two different CC numbers give the same state in either order |
| Midi.MIDIHandler.constructor | src/midi.py:39-44 | a fresh handler has no callback and an empty delivery log |
| Midi.MIDIHandler.HandleMidiMessage | src/midi.py:84-95 | the message adds `Classify`'s event to the callback log only when a callback is installed; otherwise nothing happens |
| Midi.Store | src/midi.py:102-113 | each in-place assignment into the module state (an array slot, a scalar field or an ADSR key) changes the state exactly as `Write` does |
| Midi.MIDIHandler.HandleCC | src/midi.py:97-113 | the in-place writes into the module state leave it equal to `ApplyCC` of the old state |
| Lfo.LfoSample | src/lfo.py:44-55 | square is in {−1, 0, 1}, triangle in [−1, 1], saw in [−1, 1), and an unknown waveform 0 |
| Lfo.LfoOutput | src/lfo.py:44-55 | the LFO output has `frames` values; an unknown waveform gives all zeros; square and triangle values are in range |
| Lfo.NextPhase | src/lfo.py:57-58 | the phase kept between buffers always lies in [0, 2π); `PhaseAdditive` fixes its value |
| Lfo.AdvanceAdditive | src/lfo.py:57 | the phase advances of buffers of n1 and n2 frames add up to the advance of n1 + n2 frames |
| Lfo.PhaseAdditive | src/lfo.py:57-58 | two buffers of n1 and n2 frames leave the same phase as one buffer of n1 + n2 frames |
| Lfo.Modulated | src/lfo.py:62 | each written sample is `base + output·depth`, unclamped |
| Lfo.WriteBack | src/lfo.py:60-63 | every registered target is written with `base + output·depth`; every other written attribute keeps its value |
| Lfo.LFO.constructor | src/lfo.py:13-22 | the given (or default 1.0/sine/0.0/1.0) parameters, phase 0, enabled, not bypassed, no targets |
| Lfo.LFO.SetParameters | src/lfo.py:24-28 | frequency, waveform, offset and depth are replaced; phase, flags and targets are kept |
| Lfo.LFO.AddTarget | src/lfo.py:30-32 | the name is inserted with its base value, or its base value is overwritten; other targets are unchanged |
| Lfo.LFO.RemoveTarget | src/lfo.py:34-37 | only that key is deleted; an absent key changes nothing |
| Lfo.LFO.Enable | src/lfo.py:67-68 | sets `enabled`; its frame is that one field, so every other field is kept |
| Lfo.LFO.Disable | src/lfo.py:70-71 | clears `enabled`; its frame is that one field, so every other field is kept |
| Lfo.LFO.Bypass | src/lfo.py:73-74 | sets `bypassed`; its frame is that one field, so every other field is kept |
| Lfo.LFO.Unbypass | src/lfo.py:76-77 | clears `bypassed`; its frame is that one field, so every other field is kept |
| Lfo.LFO.Generate | src/lfo.py:39-65 | disabled: `frames` zeros, with the phase unchanged and nothing written; enabled: `LfoOutput` and the phase becomes `NextPhase`; enabled and not bypassed: the state receives `WriteBack`; bypassed: nothing written |
| Debug.Newest | src/debug.py:15-21 | a deque with `maxlen` n holds a suffix of everything appended: exactly n values once more than n arrived, all of them otherwise |
| Debug.Push | src/debug.py:21 | definition of one `append` on a deque with `maxlen`: grow while below capacity, otherwise drop the oldest |
| Debug.NewestPush | src/debug.py:21 | one bounded append on the newest values gives the newest values of the extended sequence |
| Debug.NewestConcat | src/debug.py:15-21 | two successive extends leave the same buffer as one extend with both batches |
| Debug.SignalMonitor.constructor | src/debug.py:14-16 | an empty buffer with the given capacity (default 1024) |
| Debug.SignalMonitor.Update | src/debug.py:18-21 | the buffer becomes the newest `buffer_size` values of the old contents followed by the new values in order |
| Debug.SignalMonitor.GetData | src/debug.py:23-26 | returns the contents in insertion order when non-empty, else 1024 zeros; the buffer is not modified |
| Debug.DebugSystem.constructor | src/debug.py:29-36 | five distinct, freshly allocated, empty monitors of capacity 1024 under the five signal names |
| Debug.DebugSystem.MonitorSignal | src/debug.py:38-40 | updates only the named monitor; an unknown name changes no monitor |
| Debug.DebugSystem.GetSignalData | src/debug.py:42-45 | the named monitor's data, or 1024 zeros for an unknown name |

## Left out

- I/O and concurrency: `Synthesizer.start`/`stop` (the sounddevice stream), `MIDIHandler.start`/`stop`/`_midi_loop` (device ports, thread, event queue, sleep) and every `Lock`. The model is sequential.
- The GUI files, `main.py`, `noise_sub_module.py` and `__init__.py` are not part of this model.
- Floating point: numbers are exact reals. Rounding, `float32` output, infinities and NaN are not modelled. In `Filters.Design`, a zero divisor (where the source would produce an infinity) is mapped to 0 by `Div`.
- The transcendental functions (`np.sin`, `np.cos`, `**` with a real exponent) are uninterpreted parameters. So nothing is proved about sine values or filter gains, including the embedded unit tests' amplitude claims.
- The `print` calls are dropped.
- Lfo.LFO.Generate: `setattr(STATE, name, value)` is modelled as writing the array under `name` in the module state's `modulated` map. It does not replace the state's typed field of that name.
- Midi.MIDIHandler.HandleMidiMessage: the callback itself is not run. Its invocations are recorded in the `delivered` log.
- Core.Synthesizer.AudioCallback: the driver's `outdata` is modelled as a one-dimensional array of exactly `frames` samples, as the stream guarantees. The `time_info` and `status` arguments are unused and omitted. The only exception the callback can meet in the model is the empty-buffer one, and it yields silence.
- Debug.SignalMonitor.Update: `values.flatten()` is not modelled; the values arrive as a flat sequence.
- The ADSR and Filter methods require their class invariant `Valid()`, which the constructors establish and every method keeps. For `ADSR` it is: durations of at least 0.001, sustain in [0, 1], and the level in [0, 1]. For `Filter` it is: both delay lines of length 4, the two lines distinct arrays, and steepness in [1, 4].
