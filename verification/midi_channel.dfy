/** Channel voice messages, their parser, and the state kept for one channel. */
module MidiChannel {
  import opened Wrappers
  import opened MidiBytes
  import opened MidiErrors
  import opened MidiUtil
  import opened MidiNote
  import MidiControl

  // Status nibbles of the channel voice messages.
  const NoteOffStatus := 0x80
  const NoteOnStatus := 0x90
  const PolyphonicKeyPressureStatus := 0xA0
  const ControlChangeStatus := 0xB0
  const ChannelModeStatus := 0xB0
  const ProgramChangeStatus := 0xC0
  const ChannelPressureStatus := 0xD0
  const PitchBendStatus := 0xE0

  // Channel mode controls, carried in the first data byte of a 0xB0 message.
  const AllSoundOff := 120
  const ResetAllControllers := 121
  const LocalControl := 122
  const AllNotesOff := 123
  const OmniOff := 124
  const OmniOn := 125
  const MonoOn := 126
  const MonoOff := 127

  /** The body of a channel voice message. */
  datatype Voice =
    | NoteOff(noteNumber: int, pitch: Pitch)
    | NoteOn(noteNumber: int, pitch: Pitch, velocity: int)
    | PolyphonicKeyPressure(noteNumber: int, pitch: Pitch, aftertouch: int)
    | ProgramChange(program: int)
    | ChannelPressure(aftertouch: int)
    | PitchBend(pitchBend: int)
    | Control(cc: MidiControl.ControlChange)

  /** A parsed message: the source's empty object, or a voice message on a channel. */
  datatype Message = Empty | Channel(channel: int, voice: Voice)

  predicate IsChannelMessage(status: int) {
    0x80 <= status <= 0xEF
  }

  predicate IsChannelModeMessage(msb: int, lsb: int) {
    msb == ChannelModeStatus && AllSoundOff <= lsb <= MonoOff
  }

  /** The messages the parsers produce from data bytes: what every consumer may rely on. */
  predicate WellFormed(msg: Message) {
    msg.Channel? ==>
      && IsChannelNumber(msg.channel)
      && match msg.voice
         case NoteOff(nn, pitch) => IsDataByte(nn) && pitch == GetPitch(nn)
         case NoteOn(nn, pitch, velocity) =>
           IsDataByte(nn) && pitch == GetPitch(nn) && 1 <= velocity <= 127
         case PolyphonicKeyPressure(nn, pitch, aftertouch) =>
           IsDataByte(nn) && pitch == GetPitch(nn) && IsDataByte(aftertouch)
         case ProgramChange(program) => IsDataByte(program)
         case ChannelPressure(aftertouch) => IsDataByte(aftertouch)
         case PitchBend(value) => IsMultiByteValue(value)
         case Control(cc) => MidiControl.WellFormed(cc)
  }

  /** The status nibbles the channel parser recognises. */
  predicate IsVoiceStatus(status: int) {
    status in {NoteOffStatus, NoteOnStatus, PolyphonicKeyPressureStatus, ControlChangeStatus,
               ProgramChangeStatus, ChannelPressureStatus, PitchBendStatus}
  }

  /**
   * The channel message parser. Channel mode messages are not implemented and
   * fail, as does a status nibble it does not know; a Note On with velocity 0 is
   * a Note Off; the control parser's empty message passes through.
   */
  function Parse(status: int, channel: int, firstDataByte: int, secondDataByte: int): (r: Result<Message, MidiError>)
    ensures r.Failure? <==> IsChannelModeMessage(status, firstDataByte) || !IsVoiceStatus(status)
    ensures r.Failure? ==> r.error == UnimplementedError
    ensures r.Success? && r.value.Channel? ==> r.value.channel == channel
    ensures r.Success? && r.value.Empty? ==> status == ControlChangeStatus
    ensures (IsChannelNumber(channel) && IsDataByte(firstDataByte) && IsDataByte(secondDataByte)
             && r.Success?) ==> WellFormed(r.value)
    ensures r.Success? && status == NoteOnStatus ==>
      (r.value.voice.NoteOff? <==> secondDataByte == 0)
    ensures status in {NoteOffStatus, NoteOnStatus, PolyphonicKeyPressureStatus} ==>
      && r.Success? && r.value.Channel?
      && (r.value.voice.NoteOff? || r.value.voice.NoteOn? || r.value.voice.PolyphonicKeyPressure?)
      && r.value.voice.noteNumber == firstDataByte && r.value.voice.pitch == GetPitch(firstDataByte)
    ensures status == NoteOffStatus ==> r.Success? && r.value.Channel? && r.value.voice.NoteOff?
    ensures status == NoteOnStatus && secondDataByte != 0 ==>
      r.Success? && r.value.Channel? && r.value.voice.NoteOn? && r.value.voice.velocity == secondDataByte
    ensures status == PolyphonicKeyPressureStatus ==>
      && r.Success? && r.value.Channel?
      && r.value.voice.PolyphonicKeyPressure? && r.value.voice.aftertouch == secondDataByte
    ensures status == ProgramChangeStatus ==> r == Success(Channel(channel, ProgramChange(firstDataByte)))
    ensures status == ChannelPressureStatus ==> r == Success(Channel(channel, ChannelPressure(firstDataByte)))
    ensures status == PitchBendStatus ==>
      && r.Success? && r.value.Channel? && r.value.voice.PitchBend?
      && r.value.voice.pitchBend == CalculateMultiByteValue(firstDataByte, secondDataByte)
    ensures status == ControlChangeStatus && !IsChannelModeMessage(status, firstDataByte) ==>
      && r.Success?
      && (r.value.Empty? <==> MidiControl.Parse(firstDataByte, secondDataByte).None?)
      && (r.value.Channel? ==> r.value.voice == Control(MidiControl.Parse(firstDataByte, secondDataByte).value))
  {
    if IsChannelModeMessage(status, firstDataByte) then Failure(UnimplementedError)
    else if status == NoteOffStatus then
      Success(Channel(channel, NoteOff(firstDataByte, GetPitch(firstDataByte))))
    else if status == NoteOnStatus then
      if secondDataByte == 0 then
        Success(Channel(channel, NoteOff(firstDataByte, GetPitch(firstDataByte))))
      else
        Success(Channel(channel, NoteOn(firstDataByte, GetPitch(firstDataByte), secondDataByte)))
    else if status == PolyphonicKeyPressureStatus then
      Success(Channel(channel, PolyphonicKeyPressure(firstDataByte, GetPitch(firstDataByte), secondDataByte)))
    else if status == ControlChangeStatus then
      match MidiControl.Parse(firstDataByte, secondDataByte)
      case None => Success(Empty)
      case Some(cc) => Success(Channel(channel, Control(cc)))
    else if status == ProgramChangeStatus then
      Success(Channel(channel, ProgramChange(firstDataByte)))
    else if status == ChannelPressureStatus then
      Success(Channel(channel, ChannelPressure(firstDataByte)))
    else if status == PitchBendStatus then
      Success(Channel(channel, PitchBend(CalculateMultiByteValue(firstDataByte, secondDataByte))))
    else Failure(UnimplementedError)
  }

  datatype ProgramState = ProgramState(program: int, bank: int, sound: int)

  datatype ChannelMode = ChannelMode(omni: bool, mono: bool)

  datatype ChannelState = ChannelState(
    number: int,
    notes: map<int, NoteState>,
    aftertouch: int,
    pitchBend: int,
    program: ProgramState,
    controls: MidiControl.ControlState,
    mode: ChannelMode)

  /** A tracked note is stored under its own number and its bytes are data bytes. */
  predicate NoteConsistent(key: int, note: NoteState) {
    && note.noteNumber == key
    && IsDataByte(key)
    && note.pitch == GetPitch(key)
    && IsDataByte(note.velocity)
    && IsDataByte(note.aftertouch)
  }

  /**
   * What the reducer keeps true of a channel: tracked notes are keyed by their
   * numbers, every stored byte is a data byte, the pitch bend is a 14-bit value
   * and every stored 14-bit control pair agrees with its value.
   */
  predicate Consistent(ch: ChannelState) {
    && IsChannelNumber(ch.number)
    && (forall k :: k in ch.notes ==> NoteConsistent(k, ch.notes[k]))
    && IsDataByte(ch.aftertouch)
    && IsMultiByteValue(ch.pitchBend)
    && IsDataByte(ch.program.program) && IsDataByte(ch.program.bank) && IsDataByte(ch.program.sound)
    && MidiControl.ControlsConsistent(ch.controls)
  }

  /**
   * The state a channel starts in when its first message arrives: no notes or
   * controls, pitch bend centred at 8192, program 0 in bank 0, omni on and mono off.
   */
  function DefaultChannel(number: int): (ch: ChannelState)
    ensures IsChannelNumber(number) <==> Consistent(ch)
    ensures ch.number == number && ch.notes == map[]
    ensures GetMsbAndLsb(ch.pitchBend) == (64, 0)
    ensures ch.aftertouch == 0 && ch.program == ProgramState(0, 0, 0)
    ensures ch.controls == MidiControl.EmptyControls && ch.mode == ChannelMode(true, false)
  {
    ChannelState(number, map[], 0, 8192, ProgramState(0, 0, 0), MidiControl.EmptyControls,
                 ChannelMode(true, false))
  }
}
