/**
 * The MIDI event layer: classification of incoming note messages (a Note On
 * with velocity 0 is a Note Off, as in the MIDI 1.0 channel voice message
 * convention) and the control-change mapping onto the module state.
 */
module Midi {
  import opened Base
  import opened Config

  /** An incoming message: its type name, note number and velocity. */
  datatype Message = Message(kind: string, note: int, velocity: int)

  /** What the handler passes to its callback: `(event_type, note, velocity)`. */
  datatype NoteEvent = NoteEvent(kind: string, note: int, velocity: int)

  /** The callback invocation `_handle_midi_message` makes for `msg`, if any. */
  function Classify(msg: Message): (e: Option<NoteEvent>)
    ensures e.Some? <==> msg.kind == "note_off" || (msg.kind == "note_on" && msg.velocity >= 0)
    ensures e.Some? ==> e.value.note == msg.note
    ensures e.Some? ==> (e.value.kind == "note_on" <==> msg.kind == "note_on" && msg.velocity > 0)
    ensures e.Some? ==> e.value.kind == "note_on" || e.value.kind == "note_off"
    ensures e.Some? && e.value.kind == "note_on" ==> e.value.velocity == msg.velocity
    ensures e.Some? && e.value.kind == "note_off" ==> e.value.velocity == 0
  {
    if msg.kind == "note_on" && msg.velocity > 0 then Some(NoteEvent("note_on", msg.note, msg.velocity))
    else if msg.kind == "note_off" || (msg.kind == "note_on" && msg.velocity == 0) then Some(NoteEvent("note_off", msg.note, 0))
    else None
  }

  /** A Note On with velocity 0 produces exactly what a Note Off for that note produces. */
  lemma ZeroVelocityIsNoteOff(note: int, anyVelocity: int)
    ensures Classify(Message("note_on", note, 0)) == Classify(Message("note_off", note, anyVelocity))
  {
  }

  /** A parameter a control change can write. */
  datatype Control = OscMix(index: nat) | OscDetune(index: nat) | FilterCutoff | FilterResonance | AdsrParam(key: string)

  /** `tuple.index(x)`: the first position holding `x`. */
  function IndexOf<T(==)>(s: seq<T>, x: T): (r: nat)
    requires x in s
    ensures r < |s| && s[r] == x
    ensures forall j :: 0 <= j < r ==> s[j] != x
  {
    if s[0] == x then 0 else 1 + IndexOf(s[1..], x)
  }

  /** The control a CC number addresses, tested in the order the handler tests them. */
  function CcControl(cc: int): (c: Option<Control>)
    ensures c.None? <==> cc !in OSC_MIX_CCS + OSC_DETUNE_CCS + ADSR_CCS && cc != FILTER_CUTOFF_CC && cc != FILTER_RES_CC
    ensures c.Some? && (c.value.OscMix? || c.value.OscDetune?) ==> c.value.index < OSC_COUNT
  {
    if cc in OSC_MIX_CCS then Some(OscMix(IndexOf(OSC_MIX_CCS, cc)))
    else if cc in OSC_DETUNE_CCS then Some(OscDetune(IndexOf(OSC_DETUNE_CCS, cc)))
    else if cc == FILTER_CUTOFF_CC then Some(FilterCutoff)
    else if cc == FILTER_RES_CC then Some(FilterResonance)
    else if cc in ADSR_CCS then Some(AdsrParam(ADSR_KEYS[IndexOf(ADSR_CCS, cc)]))
    else None
  }

  /**
   * The mapping table: the CC at position i of the mix (detune) table
   * addresses mix (detune) slot i, 22 the cutoff, 23 the resonance, and the
   * ADSR CCs the four envelope keys in order.
   */
  lemma CcControlMapping(cc: int)
    ensures forall i :: 0 <= i < OSC_COUNT && OSC_MIX_CCS[i] == cc ==> CcControl(cc) == Some(OscMix(i))
    ensures forall i :: 0 <= i < OSC_COUNT && OSC_DETUNE_CCS[i] == cc ==> CcControl(cc) == Some(OscDetune(i))
    ensures cc == FILTER_CUTOFF_CC ==> CcControl(cc) == Some(FilterCutoff)
    ensures cc == FILTER_RES_CC ==> CcControl(cc) == Some(FilterResonance)
    ensures forall i :: 0 <= i < 4 && ADSR_CCS[i] == cc ==> CcControl(cc) == Some(AdsrParam(ADSR_KEYS[i]))
  {
    CcGroupsDisjoint();
  }

  /** The CC number that addresses `c`, or -1 for a control no CC addresses. */
  function CcOf(c: Control): int
  {
    match c
    case OscMix(i) => if i < OSC_COUNT then OSC_MIX_CCS[i] else -1
    case OscDetune(i) => if i < OSC_COUNT then OSC_DETUNE_CCS[i] else -1
    case FilterCutoff => FILTER_CUTOFF_CC
    case FilterResonance => FILTER_RES_CC
    case AdsrParam(key) => if key in ADSR_KEYS then ADSR_CCS[IndexOf(ADSR_KEYS, key)] else -1
  }

  /** Conversely, each addressed control names the CC that addresses it. */
  lemma CcControlSource(cc: int)
    ensures CcControl(cc).Some? ==> CcOf(CcControl(cc).value) == cc
  {
    if cc !in OSC_MIX_CCS && cc !in OSC_DETUNE_CCS && cc in ADSR_CCS {
      var j := IndexOf(ADSR_CCS, cc);
      var r := IndexOf(ADSR_KEYS, ADSR_KEYS[j]);
      assert r == j;
    }
  }

  /** Distinct CC numbers address distinct controls. */
  lemma CcControlInjective(a: int, b: int)
    requires a != b && CcControl(a).Some?
    ensures CcControl(a) != CcControl(b)
  {
    CcControlSource(a);
    CcControlSource(b);
  }

  /** `value / 127`. */
  function Normalized(value: int): real
  {
    value as real / 127.0
  }

  /** The value the handler writes for `control`: detune maps to `2 * v / 127 - 1`. */
  function ControlValue(control: Control, value: int): (v: real)
    ensures control.OscDetune? ==> v == Normalized(value) * 2.0 - 1.0
    ensures !control.OscDetune? ==> v == Normalized(value)
    ensures 0 <= value <= 127 && control.OscDetune? ==> -1.0 <= v <= 1.0
    ensures 0 <= value <= 127 && !control.OscDetune? ==> 0.0 <= v <= 1.0
  {
    if control.OscDetune? then Normalized(value) * 2.0 - 1.0 else Normalized(value)
  }

  /** The settings with `control` set to `v` and every other field as it was. */
  function Write(s: Settings, control: Control, v: real): (r: Settings)
    requires |s.oscMix| == OSC_COUNT && |s.oscDetune| == OSC_COUNT
    requires control.OscMix? || control.OscDetune? ==> control.index < OSC_COUNT
    ensures |r.oscMix| == OSC_COUNT && |r.oscDetune| == OSC_COUNT
  {
    match control
    case OscMix(i) => s.(oscMix := s.oscMix[i := v])
    case OscDetune(i) => s.(oscDetune := s.oscDetune[i := v])
    case FilterCutoff => s.(filterCutoff := v)
    case FilterResonance => s.(filterRes := v)
    case AdsrParam(key) => s.(adsr := s.adsr[key := v])
  }

  /** `_handle_cc` on the module state, as a value. */
  function ApplyCC(s: Settings, cc: int, value: int): (r: Settings)
    requires |s.oscMix| == OSC_COUNT && |s.oscDetune| == OSC_COUNT
    ensures |r.oscMix| == OSC_COUNT && |r.oscDetune| == OSC_COUNT
    ensures CcControl(cc).None? ==> r == s
  {
    match CcControl(cc)
    case None => s
    case Some(c) => Write(s, c, ControlValue(c, value))
  }

  /** What each CC number writes, and that nothing else changes. */
  lemma ApplyCCEffect(s: Settings, cc: int, value: int)
    requires |s.oscMix| == OSC_COUNT && |s.oscDetune| == OSC_COUNT
    ensures var r := ApplyCC(s, cc, value);
      && (forall i :: 0 <= i < OSC_COUNT && OSC_MIX_CCS[i] == cc ==> r == s.(oscMix := s.oscMix[i := Normalized(value)]))
      && (forall i :: 0 <= i < OSC_COUNT && OSC_DETUNE_CCS[i] == cc ==> r == s.(oscDetune := s.oscDetune[i := Normalized(value) * 2.0 - 1.0]))
      && (cc == FILTER_CUTOFF_CC ==> r == s.(filterCutoff := Normalized(value)))
      && (cc == FILTER_RES_CC ==> r == s.(filterRes := Normalized(value)))
      && (forall i :: 0 <= i < 4 && ADSR_CCS[i] == cc ==> r == s.(adsr := s.adsr[ADSR_KEYS[i] := Normalized(value)]))
  {
    CcControlMapping(cc);
  }

  /** A mapped CC with a MIDI data value (0..127) writes a value in its parameter's range. */
  lemma ApplyCCRange(s: Settings, cc: int, value: int)
    requires |s.oscMix| == OSC_COUNT && |s.oscDetune| == OSC_COUNT && 0 <= value <= 127
    ensures var r := ApplyCC(s, cc, value);
      && (forall i :: 0 <= i < OSC_COUNT && OSC_MIX_CCS[i] == cc ==> 0.0 <= r.oscMix[i] <= 1.0)
      && (forall i :: 0 <= i < OSC_COUNT && OSC_DETUNE_CCS[i] == cc ==> -1.0 <= r.oscDetune[i] <= 1.0)
      && (cc == FILTER_CUTOFF_CC ==> 0.0 <= r.filterCutoff <= 1.0)
      && (cc == FILTER_RES_CC ==> 0.0 <= r.filterRes <= 1.0)
  {
    ApplyCCEffect(s, cc, value);
    assert 0.0 <= ControlValue(OscMix(0), value) <= 1.0;
    assert -1.0 <= ControlValue(OscDetune(0), value) <= 1.0;
  }

  /** Writes to two different controls commute. */
  lemma WriteCommutes(s: Settings, ca: Control, va: real, cb: Control, vb: real)
    requires |s.oscMix| == OSC_COUNT && |s.oscDetune| == OSC_COUNT && ca != cb
    requires ca.OscMix? || ca.OscDetune? ==> ca.index < OSC_COUNT
    requires cb.OscMix? || cb.OscDetune? ==> cb.index < OSC_COUNT
    ensures Write(Write(s, ca, va), cb, vb) == Write(Write(s, cb, vb), ca, va)
  {
    if ca.OscMix? && cb.OscMix? {
      assert s.oscMix[ca.index := va][cb.index := vb] == s.oscMix[cb.index := vb][ca.index := va];
    } else if ca.OscDetune? && cb.OscDetune? {
      assert s.oscDetune[ca.index := va][cb.index := vb] == s.oscDetune[cb.index := vb][ca.index := va];
    } else if ca.AdsrParam? && cb.AdsrParam? {
      assert s.adsr[ca.key := va][cb.key := vb] == s.adsr[cb.key := vb][ca.key := va];
    }
  }

  /** Control changes on two different CC numbers can be applied in either order. */
  lemma ApplyCCCommutes(s: Settings, a: int, va: int, b: int, vb: int)
    requires |s.oscMix| == OSC_COUNT && |s.oscDetune| == OSC_COUNT && a != b
    ensures ApplyCC(ApplyCC(s, a, va), b, vb) == ApplyCC(ApplyCC(s, b, vb), a, va)
  {
    if CcControl(a).Some? && CcControl(b).Some? {
      CcControlInjective(a, b);
      var ca, cb := CcControl(a).value, CcControl(b).value;
      WriteCommutes(s, ca, ControlValue(ca, va), cb, ControlValue(cb, vb));
    }
  }

  /** The in-place assignment of `v` to the state field (or array slot) `control` names. */
  method Store(state: ModuleState, control: Control, v: real)
    requires state.Valid()
    requires control.OscMix? || control.OscDetune? ==> control.index < OSC_COUNT
    modifies state, state.oscMix, state.oscDetune
    ensures state.Valid()
    ensures state.Snapshot() == Write(old(state.Snapshot()), control, v)
  {
    ghost var s0 := state.Snapshot();
    match control
    case OscMix(i) =>
      state.oscMix[i] := v;
      assert state.oscMix[..] == s0.oscMix[i := v];
    case OscDetune(i) =>
      state.oscDetune[i] := v;
      assert state.oscDetune[..] == s0.oscDetune[i := v];
    case FilterCutoff => state.filterCutoff := v;
    case FilterResonance => state.filterRes := v;
    case AdsrParam(key) => state.adsr := state.adsr[key := v];
  }

  class MIDIHandler {
    /** Whether a callback has been installed (`self.callback` is set). */
    var hasCallback: bool
    /** The callback invocations made so far, oldest first. */
    var delivered: seq<NoteEvent>

    constructor ()
      ensures !hasCallback && delivered == []
    {
      hasCallback := false;
      delivered := [];
    }

    /** `_handle_midi_message`: at most one callback invocation per message. */
    method HandleMidiMessage(msg: Message)
      modifies this
      ensures hasCallback == old(hasCallback)
      ensures delivered == old(delivered) + (if hasCallback && Classify(msg).Some? then [Classify(msg).value] else [])
    {
      if msg.kind == "note_on" && msg.velocity > 0 {
        if hasCallback {
          delivered := delivered + [NoteEvent("note_on", msg.note, msg.velocity)];
        }
      } else if msg.kind == "note_off" || (msg.kind == "note_on" && msg.velocity == 0) {
        if hasCallback {
          delivered := delivered + [NoteEvent("note_off", msg.note, 0)];
        }
      }
    }

    /** `_handle_cc`: writes the addressed field of the shared module state in place. */
    method HandleCC(state: ModuleState, cc: int, value: int)
      requires state.Valid()
      modifies state, state.oscMix, state.oscDetune
      ensures state.Valid()
      ensures state.Snapshot() == ApplyCC(old(state.Snapshot()), cc, value)
    {
      ghost var s0 := state.Snapshot();
      var normalized := value as real / 127.0;
      assert normalized == Normalized(value);
      if cc in OSC_MIX_CCS {
        var idx := IndexOf(OSC_MIX_CCS, cc);
        Store(state, OscMix(idx), normalized);
      } else if cc in OSC_DETUNE_CCS {
        var idx := IndexOf(OSC_DETUNE_CCS, cc);
        Store(state, OscDetune(idx), normalized * 2.0 - 1.0);
      } else if cc == FILTER_CUTOFF_CC {
        Store(state, FilterCutoff, normalized);
      } else if cc == FILTER_RES_CC {
        Store(state, FilterResonance, normalized);
      } else if cc in ADSR_CCS {
        var idx := IndexOf(ADSR_CCS, cc);
        var param := ADSR_KEYS[idx];
        Store(state, AdsrParam(param), normalized);
      } else {
        assert CcControl(cc).None?;
      }
    }
  }
}
