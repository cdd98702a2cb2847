/**
 * The state engine: how each parsed message changes the state of an input's
 * channels, including the notes a sustain pedal is holding back.
 */
module MidiState {
  import opened Wrappers
  import opened MidiBytes
  import opened MidiUtil
  import opened MidiNote
  import MidiControl
  import opened MidiChannel

  /**
   * The state kept for one input: its channels, created on their first message,
   * and per channel the note numbers whose Note Off a pedal has deferred.
   */
  datatype InputState = InputState(channels: map<int, ChannelState>, pending: map<int, set<int>>)

  const EmptyInput: InputState := InputState(map[], map[])

  /** The result of applying one voice message to a channel. */
  datatype ChannelUpdate = ChannelUpdate(channel: ChannelState, pending: set<int>)

  /** A note released by a pedal or a Note Off: off, with velocity 0. */
  function Finalize(note: NoteState): (r: NoteState)
    ensures !r.on && r.velocity == 0
    ensures r.(on := note.on, velocity := note.velocity) == note
  {
    note.(on := false, velocity := 0)
  }

  /** The entry a note number gets when it is first mentioned by a message carrying `pitch`. */
  function TrackedOrNew(notes: map<int, NoteState>, noteNumber: int, pitch: Pitch): NoteState {
    if noteNumber in notes then notes[noteNumber] else DefaultNote(pitch, noteNumber)
  }

  /** Whether the damper pedal is down: its switch is stored and enabled. */
  predicate DamperDown(controls: MidiControl.ControlState) {
    && MidiControl.DamperPedal in controls.labelled
    && controls.labelled[MidiControl.DamperPedal].SwitchState?
    && controls.labelled[MidiControl.DamperPedal].enabled
  }

  /** Whether a Note Off for `noteNumber` is deferred: the damper is down or the note is sustained. */
  predicate HeldBack(channel: ChannelState, noteNumber: int) {
    DamperDown(channel.controls)
    || (noteNumber in channel.notes && channel.notes[noteNumber].sustain)
  }

  /**
   * Note Off. A held-back note only joins the pending set; otherwise it is
   * switched off with velocity 0 and the channel's aftertouch.
   */
  function NoteOffState(channel: ChannelState, pending: set<int>, noteNumber: int, pitch: Pitch): (r: ChannelUpdate)
    ensures HeldBack(channel, noteNumber) ==> r == ChannelUpdate(channel, pending + {noteNumber})
    ensures !HeldBack(channel, noteNumber) ==>
      && r.pending == pending
      && r.channel == channel.(notes := r.channel.notes)
      && r.channel.notes.Keys == channel.notes.Keys + {noteNumber}
      && (forall k :: k in channel.notes && k != noteNumber ==> r.channel.notes[k] == channel.notes[k])
      && !r.channel.notes[noteNumber].on && r.channel.notes[noteNumber].velocity == 0
      && r.channel.notes[noteNumber].aftertouch == channel.aftertouch
      && (noteNumber in channel.notes ==>
            r.channel.notes[noteNumber]
            == channel.notes[noteNumber].(on := false, velocity := 0, aftertouch := channel.aftertouch))
      && (noteNumber !in channel.notes ==>
            r.channel.notes[noteNumber] == NoteState(pitch, noteNumber, false, false, 0, channel.aftertouch))
  {
    var note := Finalize(TrackedOrNew(channel.notes, noteNumber, pitch)).(aftertouch := channel.aftertouch);
    if HeldBack(channel, noteNumber) then ChannelUpdate(channel, pending + {noteNumber})
    else ChannelUpdate(channel.(notes := channel.notes[noteNumber := note]), pending)
  }

  /** The entry a gap-filled key gets: off, with the table pitch of its number and the channel's aftertouch. */
  function GapNote(noteNumber: int, aftertouch: int): NoteState {
    DefaultNote(GetPitch(noteNumber), noteNumber).(aftertouch := aftertouch)
  }

  /** Adds a gap entry for every untracked number from `noteNumber` up to but excluding `endNote`. */
  function AddChannelNotes(notes: map<int, NoteState>, noteNumber: int, endNote: int, aftertouch: int): (r: map<int, NoteState>)
    ensures forall k :: k in r <==> k in notes || noteNumber <= k < endNote
    ensures forall k :: k in notes ==> r[k] == notes[k]
    ensures forall k :: k in r && k !in notes ==> r[k] == GapNote(k, aftertouch)
    decreases endNote - noteNumber
  {
    if noteNumber >= endNote then notes
    else
      var next := if noteNumber in notes then notes else notes[noteNumber := GapNote(noteNumber, aftertouch)];
      AddChannelNotes(next, noteNumber + 1, endNote, aftertouch)
  }

  /** Some key lies below `n`. */
  predicate HasKeyBelow(keys: set<int>, n: int) {
    exists k :: k in keys && k < n
  }

  /** Some key lies above `n`. */
  predicate HasKeyAbove(keys: set<int>, n: int) {
    exists k :: k in keys && k > n
  }

  /** `m` is the largest key below `n`. */
  predicate IsMaxBelow(keys: set<int>, n: int, m: int) {
    m in keys && m < n && forall k :: k in keys && k < n ==> k <= m
  }

  /** `m` is the smallest key above `n`. */
  predicate IsMinAbove(keys: set<int>, n: int, m: int) {
    m in keys && m > n && forall k :: k in keys && k > n ==> m <= k
  }

  /** Every finite set with a key below `n` has a largest such key. */
  lemma {:induction false} MaxBelowExists(keys: set<int>, n: int)
    requires HasKeyBelow(keys, n)
    ensures exists m :: IsMaxBelow(keys, n, m)
    decreases |keys|
  {
    var x :| x in keys && x < n;
    var rest := keys - {x};
    var top := x;
    if HasKeyBelow(rest, n) {
      MaxBelowExists(rest, n);
      var m :| IsMaxBelow(rest, n, m);
      top := if x <= m then m else x;
    }
    forall k | k in keys && k < n
      ensures k <= top
    {
      assert k == x || k in rest;
    }
    assert IsMaxBelow(keys, n, top);
  }

  /** Every finite set with a key above `n` has a smallest such key. */
  lemma {:induction false} MinAboveExists(keys: set<int>, n: int)
    requires HasKeyAbove(keys, n)
    ensures exists m :: IsMinAbove(keys, n, m)
    decreases |keys|
  {
    var x :| x in keys && x > n;
    var rest := keys - {x};
    var bottom := x;
    if HasKeyAbove(rest, n) {
      MinAboveExists(rest, n);
      var m :| IsMinAbove(rest, n, m);
      bottom := if m <= x then m else x;
    }
    forall k | k in keys && k > n
      ensures bottom <= k
    {
      assert k == x || k in rest;
    }
    assert IsMinAbove(keys, n, bottom);
  }

  /** The tracked note just below `n`: the entry before it once the keys are sorted. */
  function MaxBelow(keys: set<int>, n: int): (m: int)
    requires HasKeyBelow(keys, n)
    ensures m in keys && m < n
    ensures forall k :: k in keys && k < n ==> k <= m
  {
    MaxBelowExists(keys, n);
    var m :| IsMaxBelow(keys, n, m);
    m
  }

  /** The tracked note just above `n`: the entry after it once the keys are sorted. */
  function MinAbove(keys: set<int>, n: int): (m: int)
    requires HasKeyAbove(keys, n)
    ensures m in keys && m > n
    ensures forall k :: k in keys && k > n ==> m <= k
  {
    MinAboveExists(keys, n);
    var m :| IsMinAbove(keys, n, m);
    m
  }

  /** A set with two or more elements has one besides `n`. */
  lemma OtherKey(keys: set<int>, n: int) returns (k: int)
    requires n in keys && |keys| > 1
    ensures k in keys && k != n
  {
    assert |{n}| == 1;
    assert (forall j :: j in keys ==> j == n) ==> keys == {n};
    k :| k in keys && k != n;
  }

  lemma OtherKeyAbove(notes: map<int, NoteState>, n: int)
    requires n in notes && |notes| > 1 && !HasKeyBelow(notes.Keys, n)
    ensures HasKeyAbove(notes.Keys, n)
  {
    var k := OtherKey(notes.Keys, n);
    assert k > n;
  }

  /**
   * The gap-fill rule of Note On: once two or more notes are tracked, the numbers
   * between the pressed note and its neighbour in sorted order are assumed to be
   * keys of the instrument. The neighbour is the next lower tracked note, or the
   * next higher one when the pressed note is the lowest.
   */
  function FillGap(notes: map<int, NoteState>, noteNumber: int, aftertouch: int): map<int, NoteState>
    requires noteNumber in notes
  {
    if |notes| <= 1 then notes
    else if HasKeyBelow(notes.Keys, noteNumber) then
      AddChannelNotes(notes, MaxBelow(notes.Keys, noteNumber), noteNumber, aftertouch)
    else
      OtherKeyAbove(notes, noteNumber);
      AddChannelNotes(notes, noteNumber, MinAbove(notes.Keys, noteNumber), aftertouch)
  }

  /**
   * Whether `k` is a gap key for a press of `n` among `keys`, stated without the
   * neighbour: with a tracked key below `n`, `k` lies below `n` and at or above
   * every tracked key below `n`; otherwise `k` lies between `n` and every tracked
   * key above it.
   */
  predicate InGap(keys: set<int>, n: int, k: int) {
    if HasKeyBelow(keys, n) then k < n && forall j :: j in keys && j < n ==> j <= k
    else n <= k && forall j :: j in keys && j > n ==> k < j
  }

  /** Note On. The note is switched on, the gap to its neighbour is filled, and it stops being pending. */
  function NoteOnState(channel: ChannelState, pending: set<int>, noteNumber: int, pitch: Pitch, velocity: int): ChannelUpdate {
    var pressed := TrackedOrNew(channel.notes, noteNumber, pitch)
      .(on := true, velocity := velocity, aftertouch := channel.aftertouch);
    var notes := channel.notes[noteNumber := pressed];
    ChannelUpdate(channel.(notes := FillGap(notes, noteNumber, channel.aftertouch)), pending - {noteNumber})
  }

  /**
   * What Note On does to the tracked keys, against the neighbour-free reading:
   * the keys become the old keys, the pressed one, and (when two or more are then
   * tracked) the gap keys; the pressed note is on with the message's velocity,
   * older entries are untouched and gap entries are off.
   */
  lemma NoteOnKeys(channel: ChannelState, pending: set<int>, noteNumber: int, pitch: Pitch, velocity: int)
    ensures var r := NoteOnState(channel, pending, noteNumber, pitch, velocity);
      var keys := channel.notes.Keys + {noteNumber};
      && r.channel == channel.(notes := r.channel.notes)
      && (forall k :: k in r.channel.notes <==> k in keys || (|keys| > 1 && InGap(keys, noteNumber, k)))
      && r.channel.notes[noteNumber].on && r.channel.notes[noteNumber].velocity == velocity
      && (noteNumber in channel.notes ==>
            r.channel.notes[noteNumber]
            == channel.notes[noteNumber].(on := true, velocity := velocity, aftertouch := channel.aftertouch))
      && (noteNumber !in channel.notes ==>
            r.channel.notes[noteNumber] == NoteState(pitch, noteNumber, true, false, velocity, channel.aftertouch))
      && (forall k :: k in channel.notes && k != noteNumber ==> r.channel.notes[k] == channel.notes[k])
      && (forall k :: k in r.channel.notes && k !in keys ==> r.channel.notes[k] == GapNote(k, channel.aftertouch))
      && r.pending == pending - {noteNumber}
  {
    var pressed := TrackedOrNew(channel.notes, noteNumber, pitch)
      .(on := true, velocity := velocity, aftertouch := channel.aftertouch);
    var notes := channel.notes[noteNumber := pressed];
    assert notes.Keys == channel.notes.Keys + {noteNumber};
    if |notes| > 1 && !HasKeyBelow(notes.Keys, noteNumber) {
      OtherKeyAbove(notes, noteNumber);
    }
  }

  /** The tracked keys are exactly the numbers from `lo` to `hi`. */
  ghost predicate IsSpan(keys: set<int>, lo: int, hi: int) {
    forall k :: k in keys <==> lo <= k <= hi
  }

  /**
   * The gap filling keeps the keyboard picture contiguous: when the tracked keys
   * are a span, after any Note On they are the smallest span holding both the old
   * span and the pressed key.
   */
  lemma NoteOnKeepsSpan(channel: ChannelState, pending: set<int>, noteNumber: int, pitch: Pitch, velocity: int, lo: int, hi: int)
    requires lo <= hi && IsSpan(channel.notes.Keys, lo, hi)
    ensures var r := NoteOnState(channel, pending, noteNumber, pitch, velocity);
      IsSpan(r.channel.notes.Keys, if noteNumber < lo then noteNumber else lo, if noteNumber > hi then noteNumber else hi)
  {
    NoteOnKeys(channel, pending, noteNumber, pitch, velocity);
    var r := NoteOnState(channel, pending, noteNumber, pitch, velocity);
    GapFillsSpan(channel.notes.Keys, noteNumber, lo, hi, r.channel.notes.Keys);
  }

  /**
   * Adding `n` to the span `lo..hi` together with the gap between `n` and its
   * neighbour gives the span from the smaller to the larger end.
   */
  lemma GapFillsSpan(tracked: set<int>, n: int, lo: int, hi: int, result: set<int>)
    requires lo <= hi && IsSpan(tracked, lo, hi)
    requires forall k :: k in result <==>
      k in tracked + {n} || (|tracked + {n}| > 1 && InGap(tracked + {n}, n, k))
    ensures IsSpan(result, if n < lo then n else lo, if n > hi then n else hi)
  {
    var keys := tracked + {n};
    var newLo := if n < lo then n else lo;
    var newHi := if n > hi then n else hi;
    assert lo in keys && hi in keys;
    assert lo < n <= hi ==> n - 1 in keys;
    assert !HasKeyBelow(keys, n) ==> n <= lo;
    assert lo < hi ==> lo + 1 in keys;
    assert n == lo == hi ==> |keys| == 1 by {
      if n == lo == hi {
        forall x
          ensures x in tracked <==> x == n
        {
          assert x in tracked <==> lo <= x <= hi;
        }
        assert tracked == {n};
        assert keys == {n};
      }
    }
    forall k
      ensures k in result <==> newLo <= k <= newHi
    {
      if newLo <= k <= newHi && k !in keys {
        assert n < k < lo || hi < k < n;
        assert |{n, lo}| == 2 || |{hi, n}| == 2;
        assert |keys| > 1 by {
          assert {n, lo, hi} <= keys;
          assert |{n, lo}| <= |keys| && |{hi, n}| <= |keys|;
        }
        assert InGap(keys, n, k);
      }
    }
  }

  /**
   * Polyphonic Key Pressure. A tracked note takes the new aftertouch and keeps
   * everything else; an untracked one is added off, with aftertouch 0.
   */
  function PolyphonicKeyPressureState(channel: ChannelState, noteNumber: int, pitch: Pitch, aftertouch: int): (r: ChannelState)
    ensures r == channel.(notes := r.notes)
    ensures r.notes.Keys == channel.notes.Keys + {noteNumber}
    ensures forall k :: k in channel.notes && k != noteNumber ==> r.notes[k] == channel.notes[k]
    ensures noteNumber in channel.notes ==> r.notes[noteNumber] == channel.notes[noteNumber].(aftertouch := aftertouch)
    ensures noteNumber !in channel.notes ==> r.notes[noteNumber] == DefaultNote(pitch, noteNumber)
  {
    var note :=
      if noteNumber in channel.notes then channel.notes[noteNumber].(aftertouch := aftertouch)
      else DefaultNote(pitch, noteNumber);
    channel.(notes := channel.notes[noteNumber := note])
  }

  /** Channel Pressure: the channel's aftertouch, copied onto every tracked note whether on or off. */
  function ChannelPressureState(channel: ChannelState, aftertouch: int): (r: ChannelState)
    ensures r == channel.(aftertouch := aftertouch, notes := r.notes)
    ensures r.notes.Keys == channel.notes.Keys
    ensures forall k :: k in r.notes ==> r.notes[k].aftertouch == aftertouch
    ensures forall k :: k in r.notes ==> r.notes[k].(aftertouch := channel.notes[k].aftertouch) == channel.notes[k]
  {
    channel.(aftertouch := aftertouch, notes := map k | k in channel.notes :: channel.notes[k].(aftertouch := aftertouch))
  }

  /**
   * Program Change: the program comes from the message, the bank and sound from
   * the bank select control already stored (its MSB and LSB), or 0 without one.
   */
  function ProgramChangeState(channel: ChannelState, program: int): (r: ChannelState)
    ensures r == channel.(program := r.program)
    ensures r.program.program == program
    ensures var bank := channel.controls.labelled;
      if MidiControl.BankSelect in bank && bank[MidiControl.BankSelect].MultiByteState?
      then r.program.bank == bank[MidiControl.BankSelect].msb && r.program.sound == bank[MidiControl.BankSelect].lsb
      else r.program.bank == 0 && r.program.sound == 0
  {
    var labelled := channel.controls.labelled;
    var bankSelect :=
      if MidiControl.BankSelect in labelled && labelled[MidiControl.BankSelect].MultiByteState?
      then labelled[MidiControl.BankSelect]
      else MidiControl.MultiByteState(0, 0, 0);
    channel.(program := ProgramState(program, bankSelect.msb, bankSelect.lsb))
  }

  /**
   * The merge of a multi-byte control message into its stored pair: the MSB from
   * the message, else the stored MSB, else 0; the LSB from the message (an MSB
   * message carries LSB 0); the value recombined from the two.
   */
  function MergeMultiByte(stored: Option<MidiControl.ControlValue>, msb: Option<int>, lsb: int): (r: MidiControl.ControlValue)
    ensures r.MultiByteState? && r.lsb == lsb
    ensures msb.Some? ==> r.msb == msb.value
    ensures msb.None? && stored.Some? && stored.value.MultiByteState? ==> r.msb == stored.value.msb
    ensures msb.None? && !(stored.Some? && stored.value.MultiByteState?) ==> r.msb == 0
    ensures (&& IsDataByte(lsb) && (msb.Some? ==> IsDataByte(msb.value))
             && (stored.Some? ==> MidiControl.ValueConsistent(stored.value)))
            ==> MidiControl.ValueConsistent(r)
  {
    var m :=
      if msb.Some? then msb.value
      else if stored.Some? && stored.value.MultiByteState? then stored.value.msb
      else 0;
    MidiControl.MultiByteState(m, lsb, CalculateMultiByteValue(m, lsb))
  }

  /** Stores a control value under the control's label, or under its number when the label is `undefined`. */
  function StoreControl(controls: MidiControl.ControlState, name: MidiControl.Label, controlNumber: int, value: MidiControl.ControlValue): (r: MidiControl.ControlState)
    ensures StoredControl(r, name, controlNumber) == Some(value)
    ensures forall n, c :: n != name || (n == MidiControl.Undefined && c != controlNumber) ==>
      StoredControl(r, n, c) == StoredControl(controls, n, c)
  {
    if name == MidiControl.Undefined then
      controls.(undefinedControls := controls.undefinedControls[controlNumber := value])
    else controls.(labelled := controls.labelled[name := value])
  }

  /** The stored value of a control, looked up as `StoreControl` keys it. */
  function StoredControl(controls: MidiControl.ControlState, name: MidiControl.Label, controlNumber: int): (r: Option<MidiControl.ControlValue>)
  {
    if name == MidiControl.Undefined then
      if controlNumber in controls.undefinedControls then Some(controls.undefinedControls[controlNumber]) else None
    else if name in controls.labelled then Some(controls.labelled[name]) else None
  }

  /**
   * Damper pedal released: every pending note that is tracked and not sustained
   * is switched off and leaves the pending set; sustained ones stay pending.
   */
  function ReleaseDamper(channel: ChannelState, pending: set<int>): (r: ChannelUpdate)
    ensures r.channel == channel.(notes := r.channel.notes)
    ensures r.channel.notes.Keys == channel.notes.Keys
    ensures forall p :: p in r.pending <==> p in pending && !(p in channel.notes && !channel.notes[p].sustain)
    ensures forall k :: k in channel.notes ==>
      r.channel.notes[k] == (if k in pending && !channel.notes[k].sustain then Finalize(channel.notes[k]) else channel.notes[k])
  {
    var released := set p | p in pending && p in channel.notes && !channel.notes[p].sustain;
    var notes := map k | k in channel.notes :: if k in released then Finalize(channel.notes[k]) else channel.notes[k];
    ChannelUpdate(channel.(notes := notes), pending - released)
  }

  /** Sostenuto pedal pressed: every note that is on becomes sustained. */
  function PressSostenuto(channel: ChannelState): (r: ChannelState)
    ensures r == channel.(notes := r.notes)
    ensures r.notes.Keys == channel.notes.Keys
    ensures forall k :: k in r.notes ==>
      r.notes[k] == channel.notes[k].(sustain := channel.notes[k].sustain || channel.notes[k].on)
  {
    channel.(notes := map k | k in channel.notes ::
      if channel.notes[k].on then channel.notes[k].(sustain := true) else channel.notes[k])
  }

  /**
   * Sostenuto pedal released: a sustained note whose Note Off is pending is
   * switched off and leaves the pending set, and no note stays sustained.
   */
  function ReleaseSostenuto(channel: ChannelState, pending: set<int>): (r: ChannelUpdate)
    ensures r.channel == channel.(notes := r.channel.notes)
    ensures r.channel.notes.Keys == channel.notes.Keys
    ensures forall k :: k in r.channel.notes ==> !r.channel.notes[k].sustain
    ensures forall k :: k in channel.notes ==>
      var n := channel.notes[k];
      r.channel.notes[k] == (if n.sustain && n.noteNumber in pending then Finalize(n) else n).(sustain := false)
    ensures forall p :: p in r.pending <==>
      p in pending && !(exists k :: k in channel.notes && channel.notes[k].sustain && channel.notes[k].noteNumber == p)
  {
    var released := set k | k in channel.notes && channel.notes[k].sustain && channel.notes[k].noteNumber in pending
      :: channel.notes[k].noteNumber;
    var notes := map k | k in channel.notes ::
      var n := channel.notes[k];
      (if n.sustain && n.noteNumber in pending then Finalize(n) else n).(sustain := false);
    ChannelUpdate(channel.(notes := notes), pending - released)
  }

  /** A control change: the stored control changes, and the two pedals act on the notes. */
  function ControlChangeState(channel: ChannelState, pending: set<int>, cc: MidiControl.ControlChange): (r: ChannelUpdate)
    ensures r.channel == channel.(controls := r.channel.controls, notes := r.channel.notes)
    ensures cc.props.Switch? ==>
      r.channel.controls == StoreControl(channel.controls, cc.name, cc.controlNumber, MidiControl.SwitchState(cc.props.enabled))
    ensures cc.props.SingleByte? ==>
      r.channel.controls == StoreControl(channel.controls, cc.name, cc.controlNumber, MidiControl.SingleByteState(cc.props.value))
    ensures cc.props.MultiByte? ==>
      var stored := StoredControl(channel.controls, cc.name, cc.controlNumber);
      r.channel.controls
      == StoreControl(channel.controls, cc.name, cc.controlNumber, MergeMultiByte(stored, cc.props.msb, cc.props.lsb))
    ensures !(cc.props.Switch? && (cc.name == MidiControl.SostenutoPedal
                                   || (cc.name == MidiControl.DamperPedal && !cc.props.enabled))) ==>
      r.channel.notes == channel.notes && r.pending == pending
    ensures cc.props == MidiControl.Switch(false) && cc.name == MidiControl.DamperPedal ==>
      r == ReleaseDamper(channel.(controls := r.channel.controls), pending)
    ensures cc.props == MidiControl.Switch(true) && cc.name == MidiControl.SostenutoPedal ==>
      r == ChannelUpdate(PressSostenuto(channel.(controls := r.channel.controls)), pending)
    ensures cc.props == MidiControl.Switch(false) && cc.name == MidiControl.SostenutoPedal ==>
      r == ReleaseSostenuto(channel.(controls := r.channel.controls), pending)
  {
    match cc.props
    case MultiByte(msb, lsb) =>
      var stored := StoredControl(channel.controls, cc.name, cc.controlNumber);
      var merged := MergeMultiByte(stored, msb, lsb);
      ChannelUpdate(channel.(controls := StoreControl(channel.controls, cc.name, cc.controlNumber, merged)), pending)
    case Switch(enabled) =>
      var switched := channel.(controls := StoreControl(channel.controls, cc.name, cc.controlNumber, MidiControl.SwitchState(enabled)));
      if cc.name == MidiControl.DamperPedal && !enabled then ReleaseDamper(switched, pending)
      else if cc.name == MidiControl.SostenutoPedal then
        if enabled then ChannelUpdate(PressSostenuto(switched), pending)
        else ReleaseSostenuto(switched, pending)
      else ChannelUpdate(switched, pending)
    case SingleByte(value) =>
      ChannelUpdate(channel.(controls := StoreControl(channel.controls, cc.name, cc.controlNumber, MidiControl.SingleByteState(value))), pending)
  }

  /** One voice message applied to its channel and that channel's pending set. */
  function SetChannelVoiceState(voice: Voice, channel: ChannelState, pending: set<int>): (r: ChannelUpdate)
    ensures r.channel.number == channel.number && r.channel.mode == channel.mode
    ensures voice.NoteOff? ==> r == NoteOffState(channel, pending, voice.noteNumber, voice.pitch)
    ensures voice.NoteOn? ==> r == NoteOnState(channel, pending, voice.noteNumber, voice.pitch, voice.velocity)
    ensures voice.Control? ==> r == ControlChangeState(channel, pending, voice.cc)
    ensures !(voice.NoteOff? || voice.NoteOn? || voice.Control?) ==> r.pending == pending
    ensures voice.PitchBend? ==> r.channel == channel.(pitchBend := voice.pitchBend)
    ensures voice.ProgramChange? ==> r.channel == ProgramChangeState(channel, voice.program)
    ensures voice.ChannelPressure? ==> r.channel == ChannelPressureState(channel, voice.aftertouch)
    ensures voice.PolyphonicKeyPressure? ==>
      r.channel == PolyphonicKeyPressureState(channel, voice.noteNumber, voice.pitch, voice.aftertouch)
  {
    match voice
    case NoteOff(noteNumber, pitch) => NoteOffState(channel, pending, noteNumber, pitch)
    case NoteOn(noteNumber, pitch, velocity) => NoteOnState(channel, pending, noteNumber, pitch, velocity)
    case PolyphonicKeyPressure(noteNumber, pitch, aftertouch) =>
      ChannelUpdate(PolyphonicKeyPressureState(channel, noteNumber, pitch, aftertouch), pending)
    case ChannelPressure(aftertouch) => ChannelUpdate(ChannelPressureState(channel, aftertouch), pending)
    case PitchBend(value) => ChannelUpdate(channel.(pitchBend := value), pending)
    case ProgramChange(program) => ChannelUpdate(ProgramChangeState(channel, program), pending)
    case Control(cc) => ControlChangeState(channel, pending, cc)
  }

  /**
   * The reducer: a channel message updates its channel, created with the default
   * state on its first message, and that channel's pending set; every other
   * channel and the empty message leave the state as it was.
   */
  function UpdateState(input: InputState, msg: Message): (r: InputState)
    ensures msg.Empty? ==> r == input
    ensures msg.Channel? ==>
      && r.channels.Keys == input.channels.Keys + {msg.channel}
      && r.pending.Keys == input.pending.Keys + {msg.channel}
      && (forall c :: c in input.channels && c != msg.channel ==> r.channels[c] == input.channels[c])
      && (forall c :: c in input.pending && c != msg.channel ==> r.pending[c] == input.pending[c])
      && r.channels[msg.channel].number ==
         (if msg.channel in input.channels then input.channels[msg.channel].number else msg.channel)
    ensures msg.Channel? ==>
      var channel := if msg.channel in input.channels then input.channels[msg.channel] else DefaultChannel(msg.channel);
      var pending := if msg.channel in input.pending then input.pending[msg.channel] else {};
      ChannelUpdate(r.channels[msg.channel], r.pending[msg.channel]) == SetChannelVoiceState(msg.voice, channel, pending)
  {
    match msg
    case Empty => input
    case Channel(ch, voice) =>
      var channel := if ch in input.channels then input.channels[ch] else DefaultChannel(ch);
      var pending := if ch in input.pending then input.pending[ch] else {};
      var update := SetChannelVoiceState(voice, channel, pending);
      InputState(input.channels[ch := update.channel], input.pending[ch := update.pending])
  }

  /**
   * What the reducer keeps true of an input: every channel is consistent and
   * stored under its own number, each has a pending set, and only note numbers
   * are ever pending.
   */
  predicate InputConsistent(input: InputState) {
    && input.channels.Keys == input.pending.Keys
    && (forall c :: c in input.channels ==> Consistent(input.channels[c]) && input.channels[c].number == c)
    && (forall c :: c in input.pending ==> NoteNumbers(input.pending[c]))
  }

  /** Only note numbers are in the set. */
  predicate NoteNumbers(pending: set<int>) {
    forall p :: p in pending ==> IsDataByte(p)
  }

  /** Gap entries between two tracked note numbers are consistent notes. */
  lemma FillGapConsistent(notes: map<int, NoteState>, noteNumber: int, aftertouch: int)
    requires noteNumber in notes
    requires forall k :: k in notes ==> NoteConsistent(k, notes[k])
    requires IsDataByte(aftertouch)
    ensures var r := FillGap(notes, noteNumber, aftertouch);
      notes.Keys <= r.Keys && forall k :: k in r ==> NoteConsistent(k, r[k])
  {
    if |notes| > 1 {
      if HasKeyBelow(notes.Keys, noteNumber) {
        var m := MaxBelow(notes.Keys, noteNumber);
        assert m in notes;
      } else {
        OtherKeyAbove(notes, noteNumber);
        var m := MinAbove(notes.Keys, noteNumber);
        assert m in notes;
      }
    }
  }

  /** A well-formed voice message keeps a consistent channel consistent and its pending set made of note numbers. */
  lemma VoicePreservesConsistency(voice: Voice, channel: ChannelState, pending: set<int>)
    requires Consistent(channel) && WellFormed(Channel(channel.number, voice))
    requires NoteNumbers(pending)
    ensures var r := SetChannelVoiceState(voice, channel, pending);
      Consistent(r.channel) && NoteNumbers(r.pending)
  {
    match voice
    case NoteOff(noteNumber, pitch) =>
      NoteOffPreservesConsistency(channel, pending, noteNumber, pitch);
    case NoteOn(noteNumber, pitch, velocity) =>
      NoteOnPreservesConsistency(channel, pending, noteNumber, pitch, velocity);
    case Control(cc) =>
      ControlPreservesConsistency(channel, pending, cc);
    case _ =>
  }

  /** A well-formed Note Off keeps a channel consistent and its pending set made of note numbers. */
  lemma NoteOffPreservesConsistency(channel: ChannelState, pending: set<int>, noteNumber: int, pitch: Pitch)
    requires Consistent(channel) && NoteNumbers(pending)
    requires IsDataByte(noteNumber) && pitch == GetPitch(noteNumber)
    ensures var r := NoteOffState(channel, pending, noteNumber, pitch);
      Consistent(r.channel) && NoteNumbers(r.pending)
  {
  }

  /** A well-formed Note On keeps a channel consistent and its pending set made of note numbers. */
  lemma NoteOnPreservesConsistency(channel: ChannelState, pending: set<int>, noteNumber: int, pitch: Pitch, velocity: int)
    requires Consistent(channel) && NoteNumbers(pending)
    requires IsDataByte(noteNumber) && pitch == GetPitch(noteNumber) && 1 <= velocity <= 127
    ensures var r := NoteOnState(channel, pending, noteNumber, pitch, velocity);
      Consistent(r.channel) && NoteNumbers(r.pending)
  {
    var pressed := TrackedOrNew(channel.notes, noteNumber, pitch)
      .(on := true, velocity := velocity, aftertouch := channel.aftertouch);
    FillGapConsistent(channel.notes[noteNumber := pressed], noteNumber, channel.aftertouch);
  }

  /** A well-formed control change keeps a channel consistent; the pedals only switch notes off and drop pending numbers. */
  lemma ControlPreservesConsistency(channel: ChannelState, pending: set<int>, cc: MidiControl.ControlChange)
    requires Consistent(channel) && MidiControl.WellFormed(cc)
    requires NoteNumbers(pending)
    ensures var r := ControlChangeState(channel, pending, cc);
      Consistent(r.channel) && NoteNumbers(r.pending)
  {
    match cc.props
    case MultiByte(msb, lsb) =>
      var stored := StoredControl(channel.controls, cc.name, cc.controlNumber);
      var merged := MergeMultiByte(stored, msb, lsb);
      StoreKeepsControlsConsistent(channel.controls, cc.name, cc.controlNumber, merged);
    case Switch(enabled) =>
      var state := MidiControl.SwitchState(enabled);
      StoreKeepsControlsConsistent(channel.controls, cc.name, cc.controlNumber, state);
      var switched := channel.(controls := StoreControl(channel.controls, cc.name, cc.controlNumber, state));
      ReleaseDamperConsistent(switched, pending);
      PressSostenutoConsistent(switched);
      ReleaseSostenutoConsistent(switched, pending);
    case SingleByte(value) =>
      StoreKeepsControlsConsistent(channel.controls, cc.name, cc.controlNumber, MidiControl.SingleByteState(value));
  }

  /** Storing a consistent value keeps every stored control consistent. */
  lemma StoreKeepsControlsConsistent(controls: MidiControl.ControlState, name: MidiControl.Label, controlNumber: int, value: MidiControl.ControlValue)
    requires MidiControl.ControlsConsistent(controls) && MidiControl.ValueConsistent(value)
    ensures MidiControl.ControlsConsistent(StoreControl(controls, name, controlNumber, value))
  {
  }

  lemma ReleaseDamperConsistent(channel: ChannelState, pending: set<int>)
    requires Consistent(channel) && NoteNumbers(pending)
    ensures var r := ReleaseDamper(channel, pending);
      Consistent(r.channel) && NoteNumbers(r.pending)
  {
  }

  lemma PressSostenutoConsistent(channel: ChannelState)
    requires Consistent(channel)
    ensures Consistent(PressSostenuto(channel))
  {
  }

  lemma ReleaseSostenutoConsistent(channel: ChannelState, pending: set<int>)
    requires Consistent(channel) && NoteNumbers(pending)
    ensures var r := ReleaseSostenuto(channel, pending);
      Consistent(r.channel) && NoteNumbers(r.pending)
  {
  }

  /** The reducer keeps an input consistent under every message the parser can produce. */
  lemma UpdatePreservesConsistency(input: InputState, msg: Message)
    requires InputConsistent(input) && WellFormed(msg)
    ensures InputConsistent(UpdateState(input, msg))
  {
    if msg.Channel? {
      var ch := msg.channel;
      var channel := if ch in input.channels then input.channels[ch] else DefaultChannel(ch);
      var pending := if ch in input.pending then input.pending[ch] else {};
      VoicePreservesConsistency(msg.voice, channel, pending);
      var update := SetChannelVoiceState(msg.voice, channel, pending);
      StoreKeepsConsistent(input, ch, update.channel, update.pending);
    }
  }

  /** Storing a consistent channel under its own number, with a set of note numbers, keeps an input consistent. */
  lemma StoreKeepsConsistent(input: InputState, ch: int, channel: ChannelState, pending: set<int>)
    requires InputConsistent(input) && Consistent(channel) && channel.number == ch && NoteNumbers(pending)
    ensures InputConsistent(InputState(input.channels[ch := channel], input.pending[ch := pending]))
  {
  }
}
