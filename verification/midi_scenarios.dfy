/**
 * Message sequences run through the reducer from an input with no channels,
 * mirroring the sequences the repository's reducer tests dispatch.
 */
module MidiScenarios {
  import opened Wrappers
  import opened MidiBytes
  import opened MidiNote
  import MidiControl
  import opened MidiChannel
  import opened MidiState

  function NoteOnAt(channel: int, noteNumber: int, velocity: int): Message {
    Channel(channel, NoteOn(noteNumber, GetPitch(noteNumber), velocity))
  }

  function NoteOffAt(channel: int, noteNumber: int): Message {
    Channel(channel, NoteOff(noteNumber, GetPitch(noteNumber)))
  }

  function PedalAt(channel: int, pedal: MidiControl.Label, controlNumber: int, enabled: bool): Message {
    Channel(channel, Control(MidiControl.ControlChange(pedal, controlNumber, MidiControl.Switch(enabled))))
  }

  /** The first Note On on a fresh channel tracks exactly that key, on, and leaves nothing pending. */
  lemma FirstNoteOn(input: InputState, channel: int, noteNumber: int, velocity: int)
    requires channel !in input.channels && channel !in input.pending
    ensures var r := UpdateState(input, NoteOnAt(channel, noteNumber, velocity));
      && r.channels[channel].notes.Keys == {noteNumber}
      && r.channels[channel].notes[noteNumber]
         == DefaultNote(GetPitch(noteNumber), noteNumber).(on := true, velocity := velocity)
      && r.channels[channel].controls == MidiControl.EmptyControls
      && r.pending[channel] == {}
  {
    var c0 := DefaultChannel(channel);
    var pressed := DefaultNote(GetPitch(noteNumber), noteNumber).(on := true, velocity := velocity);
    assert |map[noteNumber := pressed]| == 1;
  }

  /**
   * With key 100 tracked, pressing 107 and then 98 leaves exactly the keys 98
   * through 107 tracked: 97 and 108 stay untracked.
   */
  lemma GapFillScenario(channel: ChannelState, pending: set<int>)
    requires channel.notes.Keys == {100}
    ensures var u1 := NoteOnState(channel, pending, 107, GetPitch(107), 70);
      var u2 := NoteOnState(u1.channel, u1.pending, 98, GetPitch(98), 80);
      && IsSpan(u1.channel.notes.Keys, 100, 107)
      && IsSpan(u2.channel.notes.Keys, 98, 107)
      && 97 !in u2.channel.notes && 108 !in u2.channel.notes
  {
    assert IsSpan(channel.notes.Keys, 100, 100);
    NoteOnKeepsSpan(channel, pending, 107, GetPitch(107), 70, 100, 100);
    var u1 := NoteOnState(channel, pending, 107, GetPitch(107), 70);
    NoteOnKeepsSpan(u1.channel, u1.pending, 98, GetPitch(98), 80, 100, 107);
  }

  /**
   * The damper pedal defers a Note Off: while it is down the key stays as it
   * was and its number becomes pending; the pedal's release switches it off
   * and clears the number.
   */
  lemma DamperDefersNoteOff(s: InputState, channel: int, noteNumber: int)
    requires channel in s.channels && channel in s.pending
    requires DamperDown(s.channels[channel].controls)
    requires noteNumber in s.channels[channel].notes && !s.channels[channel].notes[noteNumber].sustain
    ensures var held := UpdateState(s, NoteOffAt(channel, noteNumber));
      var released := UpdateState(held, PedalAt(channel, MidiControl.DamperPedal, 64, false));
      && held.channels[channel] == s.channels[channel]
      && held.pending[channel] == s.pending[channel] + {noteNumber}
      && noteNumber in released.channels[channel].notes
      && released.channels[channel].notes[noteNumber] == Finalize(s.channels[channel].notes[noteNumber])
      && noteNumber !in released.pending[channel]
  {
    DamperHoldsNoteOff(s, channel, noteNumber);
    var held := UpdateState(s, NoteOffAt(channel, noteNumber));
    DamperReleaseStep(held, channel, noteNumber);
  }

  /** With the damper down, a Note Off leaves the channel as it was and makes the key pending. */
  lemma DamperHoldsNoteOff(s: InputState, channel: int, noteNumber: int)
    requires channel in s.channels && channel in s.pending
    requires DamperDown(s.channels[channel].controls)
    requires noteNumber in s.channels[channel].notes && !s.channels[channel].notes[noteNumber].sustain
    ensures var held := UpdateState(s, NoteOffAt(channel, noteNumber));
      && held.channels[channel] == s.channels[channel]
      && held.pending[channel] == s.pending[channel] + {noteNumber}
  {
    UpdateExisting(s, channel, NoteOff(noteNumber, GetPitch(noteNumber)));
  }

  /** Releasing the damper switches off a pending key that is not sustained and clears its number. */
  lemma DamperReleaseStep(held: InputState, channel: int, noteNumber: int)
    requires channel in held.channels && channel in held.pending
    requires noteNumber in held.channels[channel].notes && noteNumber in held.pending[channel]
    requires !held.channels[channel].notes[noteNumber].sustain
    ensures var released := UpdateState(held, PedalAt(channel, MidiControl.DamperPedal, 64, false));
      && noteNumber in released.channels[channel].notes
      && released.channels[channel].notes[noteNumber] == Finalize(held.channels[channel].notes[noteNumber])
      && noteNumber !in released.pending[channel]
  {
    var c := held.channels[channel];
    var pending := held.pending[channel];
    var cc := MidiControl.ControlChange(MidiControl.DamperPedal, 64, MidiControl.Switch(false));
    UpdateControl(held, channel, cc);
    var switched := c.(controls := StoreControl(c.controls, cc.name, 64, MidiControl.SwitchState(false)));
    assert ControlChangeState(c, pending, cc) == ReleaseDamper(switched, pending);
  }

  /**
   * The sostenuto pedal holds the notes sounding when it goes down: with the
   * damper up, such a note's Note Off leaves it on and pending until the pedal
   * is released, which switches it off and ends every sustain.
   */
  lemma SostenutoHoldsSoundingNote(s: InputState, channel: int, noteNumber: int)
    requires channel in s.channels && channel in s.pending
    requires !DamperDown(s.channels[channel].controls)
    requires noteNumber in s.channels[channel].notes && s.channels[channel].notes[noteNumber].on
    requires s.channels[channel].notes[noteNumber].noteNumber == noteNumber
    ensures var pressed := UpdateState(s, PedalAt(channel, MidiControl.SostenutoPedal, 66, true));
      var held := UpdateState(pressed, NoteOffAt(channel, noteNumber));
      var released := UpdateState(held, PedalAt(channel, MidiControl.SostenutoPedal, 66, false));
      && noteNumber in held.channels[channel].notes
      && held.channels[channel].notes[noteNumber].on && held.channels[channel].notes[noteNumber].sustain
      && noteNumber in held.pending[channel]
      && noteNumber in released.channels[channel].notes
      && !released.channels[channel].notes[noteNumber].on
      && !released.channels[channel].notes[noteNumber].sustain
      && noteNumber !in released.pending[channel]
  {
    var pressed := UpdateState(s, PedalAt(channel, MidiControl.SostenutoPedal, 66, true));
    var c1 := pressed.channels[channel];
    assert c1.notes[noteNumber].sustain && c1.notes[noteNumber].on;
    var held := UpdateState(pressed, NoteOffAt(channel, noteNumber));
    assert held.channels[channel] == c1 && held.pending[channel] == s.pending[channel] + {noteNumber};
    SostenutoReleaseStep(held, channel, noteNumber);
  }

  /** Releasing the sostenuto pedal switches off a sustained note whose Note Off is pending. */
  lemma SostenutoReleaseStep(held: InputState, channel: int, noteNumber: int)
    requires channel in held.channels && channel in held.pending
    requires noteNumber in held.channels[channel].notes && noteNumber in held.pending[channel]
    requires held.channels[channel].notes[noteNumber].sustain
    requires held.channels[channel].notes[noteNumber].noteNumber == noteNumber
    ensures var released := UpdateState(held, PedalAt(channel, MidiControl.SostenutoPedal, 66, false));
      && noteNumber in released.channels[channel].notes
      && released.channels[channel].notes[noteNumber]
         == Finalize(held.channels[channel].notes[noteNumber]).(sustain := false)
      && noteNumber !in released.pending[channel]
  {
    UpdateControl(held, channel, MidiControl.ControlChange(MidiControl.SostenutoPedal, 66, MidiControl.Switch(false)));
    SostenutoReleasesNote(held.channels[channel], held.pending[channel], noteNumber);
  }

  /** On one channel: the sostenuto release switches off a sustained pending note and clears its number. */
  lemma SostenutoReleasesNote(c: ChannelState, pending: set<int>, noteNumber: int)
    requires noteNumber in c.notes && noteNumber in pending
    requires c.notes[noteNumber].sustain && c.notes[noteNumber].noteNumber == noteNumber
    ensures var u := ControlChangeState(c, pending,
        MidiControl.ControlChange(MidiControl.SostenutoPedal, 66, MidiControl.Switch(false)));
      && noteNumber in u.channel.notes
      && u.channel.notes[noteNumber] == Finalize(c.notes[noteNumber]).(sustain := false)
      && noteNumber !in u.pending
  {
    var switched := c.(controls := StoreControl(c.controls, MidiControl.SostenutoPedal, 66, MidiControl.SwitchState(false)));
    var u := ReleaseSostenuto(switched, pending);
    assert switched.notes[noteNumber].sustain && switched.notes[noteNumber].noteNumber == noteNumber;
    assert noteNumber !in u.pending;
  }

  /** A message for a channel the input already holds updates that channel through its voice. */
  lemma UpdateExisting(s: InputState, channel: int, voice: Voice)
    requires channel in s.channels && channel in s.pending
    ensures var r := UpdateState(s, Channel(channel, voice));
      var u := SetChannelVoiceState(voice, s.channels[channel], s.pending[channel]);
      r.channels[channel] == u.channel && r.pending[channel] == u.pending
  {
  }

  /** A control change for a channel the input already holds updates that channel as the control's handler does. */
  lemma UpdateControl(s: InputState, channel: int, cc: MidiControl.ControlChange)
    requires channel in s.channels && channel in s.pending
    ensures var r := UpdateState(s, Channel(channel, Control(cc)));
      var u := ControlChangeState(s.channels[channel], s.pending[channel], cc);
      r.channels[channel] == u.channel && r.pending[channel] == u.pending
  {
    UpdateExisting(s, channel, Control(cc));
  }

  /** Balance is a 14-bit control: number 8 carries its MSB and number 40 its LSB. */
  lemma BalanceParses()
    ensures MidiControl.Parse(8, 80)
      == Some(MidiControl.ControlChange(MidiControl.Balance, 8, MidiControl.MultiByte(Some(80), 0)))
    ensures MidiControl.Parse(40, 64)
      == Some(MidiControl.ControlChange(MidiControl.Balance, 8, MidiControl.MultiByte(None, 64)))
  {
  }

  /**
   * A 14-bit control assembled from its two messages: balance MSB 80, then LSB
   * 64, gives the stored value 10304.
   */
  lemma BalanceScenario()
    ensures var s1 := UpdateState(EmptyInput, Channel(5, Control(
        MidiControl.ControlChange(MidiControl.Balance, 8, MidiControl.MultiByte(Some(80), 0)))));
      var s2 := UpdateState(s1, Channel(5, Control(
        MidiControl.ControlChange(MidiControl.Balance, 8, MidiControl.MultiByte(None, 64)))));
      s2.channels[5].controls.labelled[MidiControl.Balance] == MidiControl.MultiByteState(80, 64, 10304)
  {
  }

  /** Bank select is a 14-bit control: number 0 carries its MSB and number 32 its LSB. */
  lemma BankSelectParses()
    ensures MidiControl.Parse(0, 2)
      == Some(MidiControl.ControlChange(MidiControl.BankSelect, 0, MidiControl.MultiByte(Some(2), 0)))
    ensures MidiControl.Parse(32, 3)
      == Some(MidiControl.ControlChange(MidiControl.BankSelect, 0, MidiControl.MultiByte(None, 3)))
  {
  }

  /** A program change reads its bank from the bank select control: MSB 2, LSB 3. */
  lemma ProgramScenario()
    ensures var s1 := UpdateState(EmptyInput, Channel(5, Control(
        MidiControl.ControlChange(MidiControl.BankSelect, 0, MidiControl.MultiByte(Some(2), 0)))));
      var s2 := UpdateState(s1, Channel(5, Control(
        MidiControl.ControlChange(MidiControl.BankSelect, 0, MidiControl.MultiByte(None, 3)))));
      var s3 := UpdateState(s2, Channel(5, ProgramChange(15)));
      s3.channels[5].program == ProgramState(15, 2, 3)
  {
  }
}
