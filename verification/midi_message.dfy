/** Raw MIDI messages: decoding the bytes an input delivers and encoding messages back to bytes. */
module MidiMessage {
  import opened Wrappers
  import opened JsNumber
  import opened MidiBytes
  import opened MidiErrors
  import opened MidiUtil
  import opened MidiNote
  import MidiControl
  import opened MidiChannel

  /**
   * The status nibble of a byte: the source masks it with `& 0xF0`, which on a
   * byte clears the low four bits, that is, rounds down to a multiple of 16.
   */
  function StatusNibble(b: int): (r: int)
    requires IsByte(b)
    ensures r % 16 == 0 && r <= b < r + 16
    ensures IsChannelMessage(r) <==> 0x80 <= b <= 0xEF
  {
    b / 16 * 16
  }

  /** The channel nibble of a byte: `& 0x0F`, the low four bits, which complete the status nibble to the byte. */
  function ChannelNibble(b: int): (r: int)
    requires IsByte(b)
    ensures IsChannelNumber(r)
    ensures StatusNibble(b) + r == b
  {
    b % 16
  }

  /** The data byte at `i`, or 0 when the message is shorter or the byte is not a data byte. */
  function DataByteAt(raw: seq<int>, i: nat): (d: int)
    ensures IsDataByte(d)
    ensures i < |raw| && IsDataByte(raw[i]) ==> d == raw[i]
    ensures i >= |raw| || !IsDataByte(raw[i]) ==> d == 0
  {
    if |raw| > i && IsDataByte(raw[i]) then raw[i] else 0
  }

  /**
   * The message parser. A message that does not start with a status byte, the
   * empty one included, is the empty message; a status that is not a channel
   * message is a system message, which is not implemented.
   */
  function Decode(raw: seq<int>): (r: Result<Message, MidiError>)
    ensures |raw| == 0 || !IsStatusByte(raw[0]) ==> r == Success(Empty)
    ensures |raw| > 0 && IsStatusByte(raw[0]) && raw[0] > 0xEF ==> r == Failure(UnimplementedError)
    ensures r.Success? ==> WellFormed(r.value)
    ensures r.Success? && r.value.Channel? ==> r.value.channel == raw[0] % 16
    ensures |raw| > 0 && 0x80 <= raw[0] <= 0xEF ==>
      r == MidiChannel.Parse(raw[0] - raw[0] % 16, raw[0] % 16, DataByteAt(raw, 1), DataByteAt(raw, 2))
  {
    if |raw| == 0 || !IsStatusByte(raw[0]) then Success(Empty)
    else
      var msb := StatusNibble(raw[0]);
      var lsb := ChannelNibble(raw[0]);
      var firstDataByte := DataByteAt(raw, 1);
      var secondDataByte := DataByteAt(raw, 2);
      if IsChannelMessage(msb) then MidiChannel.Parse(msb, lsb, firstDataByte, secondDataByte)
      else Failure(UnimplementedError)
  }

  /** A `Uint8Array` built from numbers keeps each one modulo 256. */
  function ToUint8Array(values: seq<int>): (bytes: seq<int>)
    ensures |bytes| == |values|
    ensures AllBytes(bytes)
    ensures forall i :: 0 <= i < |values| ==> bytes[i] % 256 == values[i] % 256
    ensures forall i :: 0 <= i < |values| && IsByte(values[i]) ==> bytes[i] == values[i]
    ensures AllBytes(values) ==> bytes == values
  {
    seq(|values|, i requires 0 <= i < |values| => values[i] % 256)
  }

  /** The data byte a multi-byte control sends: the MSB unless it is absent or 0 (the source's `||`). */
  function MultiByteDataByte(msb: Option<int>, lsb: int): int {
    if msb.Some? && msb.value != 0 then msb.value else lsb
  }

  /** The raw bytes of a control change on `channel`. */
  function EncodeControl(channel: int, cc: MidiControl.ControlChange): (bytes: seq<int>)
    ensures |bytes| == 3 && AllBytes(bytes)
    ensures IsChannelNumber(channel) ==> bytes[0] == ControlChangeStatus + channel
    ensures IsDataByte(cc.controlNumber) ==>
      && (cc.props.Switch? ==>
            bytes[1] == cc.controlNumber && bytes[2] == (if cc.props.enabled then 127 else 0))
      && (cc.props.SingleByte? && IsByte(cc.props.value) ==>
            bytes[1] == cc.controlNumber && bytes[2] == cc.props.value)
      && (cc.props.MultiByte? ==> bytes[1] == cc.controlNumber + (if cc.props.lsb > 0 then 32 else 0))
    ensures cc.props.MultiByte? && cc.props.msb.Some? && cc.props.msb.value != 0 && IsByte(cc.props.msb.value) ==>
      bytes[2] == cc.props.msb.value
    ensures cc.props.MultiByte? && (cc.props.msb.None? || cc.props.msb.value == 0) && IsByte(cc.props.lsb) ==>
      bytes[2] == cc.props.lsb
  {
    var status := ControlChangeStatus + channel;
    match cc.props
    case MultiByte(msb, lsb) =>
      var controlNumber := if lsb > 0 then cc.controlNumber + 32 else cc.controlNumber;
      ToUint8Array([status, controlNumber, MultiByteDataByte(msb, lsb)])
    case Switch(enabled) => ToUint8Array([status, cc.controlNumber, if enabled then 127 else 0])
    case SingleByte(value) => ToUint8Array([status, cc.controlNumber, value])
  }

  /**
   * The message serialiser. Note messages are encoded from their pitch, not from
   * their note number, so a pitch outside the MIDI range fails; the empty message
   * has no encoding.
   */
  function Encode(msg: Message): (r: Result<seq<int>, MidiError>)
    ensures msg.Empty? ==> r == Failure(UnimplementedError)
    ensures r.Failure? && msg.Channel? ==>
      r.error == MidiPitchError
      && (msg.voice.NoteOff? || msg.voice.NoteOn? || msg.voice.PolyphonicKeyPressure?)
      && GetNoteNumber(msg.voice.pitch).Failure?
    ensures r.Success? ==> AllBytes(r.value)
    ensures r.Success? ==>
      |r.value| == (if msg.voice.ProgramChange? || msg.voice.ChannelPressure? then 2 else 3)
    ensures r.Success? && IsChannelNumber(msg.channel) ==> r.value[0] == VoiceStatus(msg.voice) + msg.channel
    ensures r.Success? && msg.Channel? && msg.voice.NoteOff? ==>
      GetNoteNumber(msg.voice.pitch) == Success(r.value[1]) && r.value[2] == 0
    ensures r.Success? && msg.Channel? && msg.voice.NoteOn? ==>
      && GetNoteNumber(msg.voice.pitch) == Success(r.value[1])
      && (IsByte(msg.voice.velocity) ==> r.value[2] == msg.voice.velocity)
    ensures r.Success? && msg.Channel? && msg.voice.PolyphonicKeyPressure? ==>
      && GetNoteNumber(msg.voice.pitch) == Success(r.value[1])
      && (IsByte(msg.voice.aftertouch) ==> r.value[2] == msg.voice.aftertouch)
    ensures msg.Channel? && msg.voice.ChannelPressure? && IsByte(msg.voice.aftertouch) ==>
      r.Success? && r.value[1] == msg.voice.aftertouch
    ensures msg.Channel? && msg.voice.ProgramChange? && IsByte(msg.voice.program) ==>
      r.Success? && r.value[1] == msg.voice.program
    ensures msg.Channel? && msg.voice.PitchBend? && IsMultiByteValue(msg.voice.pitchBend) ==>
      && r.Success? && IsDataByte(r.value[1]) && IsDataByte(r.value[2])
      && CalculateMultiByteValue(r.value[1], r.value[2]) == msg.voice.pitchBend
    ensures msg.Channel? && msg.voice.Control? ==> r == Success(EncodeControl(msg.channel, msg.voice.cc))
  {
    match msg
    case Empty => Failure(UnimplementedError)
    case Channel(channel, voice) =>
      match voice
      case NoteOff(_, pitch) =>
        var noteNumber :- GetNoteNumber(pitch);
        Success(ToUint8Array([NoteOffStatus + channel, noteNumber, 0]))
      case NoteOn(_, pitch, velocity) =>
        var noteNumber :- GetNoteNumber(pitch);
        Success(ToUint8Array([NoteOnStatus + channel, noteNumber, velocity]))
      case PolyphonicKeyPressure(_, pitch, aftertouch) =>
        var noteNumber :- GetNoteNumber(pitch);
        Success(ToUint8Array([PolyphonicKeyPressureStatus + channel, noteNumber, aftertouch]))
      case ChannelPressure(aftertouch) =>
        Success(ToUint8Array([ChannelPressureStatus + channel, aftertouch]))
      case PitchBend(value) =>
        var parts := GetMsbAndLsb(value);
        Success(ToUint8Array([PitchBendStatus + channel, parts.0, parts.1]))
      case ProgramChange(program) =>
        Success(ToUint8Array([ProgramChangeStatus + channel, program]))
      case Control(cc) =>
        Success(EncodeControl(channel, cc))
  }

  /** The status nibble each kind of voice message is sent with. */
  function VoiceStatus(voice: Voice): int {
    match voice
    case NoteOff(_, _) => NoteOffStatus
    case NoteOn(_, _, _) => NoteOnStatus
    case PolyphonicKeyPressure(_, _, _) => PolyphonicKeyPressureStatus
    case ProgramChange(_) => ProgramChangeStatus
    case ChannelPressure(_) => ChannelPressureStatus
    case PitchBend(_) => PitchBendStatus
    case Control(_) => ControlChangeStatus
  }

  /**
   * An LSB-only multi-byte control whose value is 0 is sent under the MSB's
   * control number, so it is the one well-formed message the parser cannot
   * recover from its bytes.
   */
  predicate RoundTrips(msg: Message) {
    !(msg.Channel? && msg.voice.Control? && msg.voice.cc.props == MidiControl.MultiByte(None, 0))
  }

  /** Encoding any other well-formed message and parsing the bytes gives the message back. */
  lemma EncodeDecodeRoundTrip(msg: Message)
    requires WellFormed(msg) && msg.Channel? && RoundTrips(msg)
    ensures Encode(msg).Success?
    ensures Decode(Encode(msg).value) == Success(msg)
  {
    match msg.voice
    case NoteOff(nn, _) => NoteOffRoundTrip(msg.channel, nn);
    case NoteOn(nn, _, velocity) => NoteOnRoundTrip(msg.channel, nn, velocity);
    case PolyphonicKeyPressure(nn, _, aftertouch) => KeyPressureRoundTrip(msg.channel, nn, aftertouch);
    case PitchBend(value) => PitchBendRoundTrip(msg.channel, value);
    case ProgramChange(_) =>
    case ChannelPressure(_) =>
    case Control(cc) => ControlRoundTrip(msg.channel, cc);
  }

  /** A status byte built from a voice status and a channel splits back into the two. */
  lemma SplitStatusByte(voice: Voice, channel: int)
    requires IsChannelNumber(channel)
    ensures IsStatusByte(VoiceStatus(voice) + channel)
    ensures StatusNibble(VoiceStatus(voice) + channel) == VoiceStatus(voice)
    ensures ChannelNibble(VoiceStatus(voice) + channel) == channel
  {
    var status := VoiceStatus(voice);
    assert status + channel == 16 * (status / 16) + channel;
  }

  /** The raw bytes a decoder sees for a three-byte message of data bytes. */
  lemma DecodeThreeBytes(voice: Voice, channel: int, d1: int, d2: int)
    requires IsChannelNumber(channel) && IsDataByte(d1) && IsDataByte(d2)
    ensures Decode([VoiceStatus(voice) + channel, d1, d2])
            == MidiChannel.Parse(VoiceStatus(voice), channel, d1, d2)
  {
    SplitStatusByte(voice, channel);
  }

  /** A Note Off goes out as status, key and velocity 0, and comes back. */
  lemma NoteOffRoundTrip(channel: int, nn: int)
    requires IsChannelNumber(channel) && IsDataByte(nn)
    ensures Encode(Channel(channel, NoteOff(nn, GetPitch(nn)))) == Success([NoteOffStatus + channel, nn, 0])
    ensures Decode([NoteOffStatus + channel, nn, 0]) == Success(Channel(channel, NoteOff(nn, GetPitch(nn))))
  {
    PitchRoundTrip(nn);
    DecodeThreeBytes(NoteOff(nn, GetPitch(nn)), channel, nn, 0);
  }

  /** A Note On goes out as status, key and velocity, and comes back. */
  lemma NoteOnRoundTrip(channel: int, nn: int, velocity: int)
    requires IsChannelNumber(channel) && IsDataByte(nn) && 1 <= velocity <= 127
    ensures Encode(Channel(channel, NoteOn(nn, GetPitch(nn), velocity)))
            == Success([NoteOnStatus + channel, nn, velocity])
    ensures Decode([NoteOnStatus + channel, nn, velocity])
            == Success(Channel(channel, NoteOn(nn, GetPitch(nn), velocity)))
  {
    PitchRoundTrip(nn);
    DecodeThreeBytes(NoteOn(nn, GetPitch(nn), velocity), channel, nn, velocity);
  }

  /** A key pressure message goes out as status, key and pressure, and comes back. */
  lemma KeyPressureRoundTrip(channel: int, nn: int, aftertouch: int)
    requires IsChannelNumber(channel) && IsDataByte(nn) && IsDataByte(aftertouch)
    ensures Encode(Channel(channel, PolyphonicKeyPressure(nn, GetPitch(nn), aftertouch)))
            == Success([PolyphonicKeyPressureStatus + channel, nn, aftertouch])
    ensures Decode([PolyphonicKeyPressureStatus + channel, nn, aftertouch])
            == Success(Channel(channel, PolyphonicKeyPressure(nn, GetPitch(nn), aftertouch)))
  {
    PitchRoundTrip(nn);
    DecodeThreeBytes(PolyphonicKeyPressure(nn, GetPitch(nn), aftertouch), channel, nn, aftertouch);
  }

  lemma PitchBendRoundTrip(channel: int, value: int)
    requires IsChannelNumber(channel) && IsMultiByteValue(value)
    ensures Encode(Channel(channel, PitchBend(value))).Success?
    ensures Decode(Encode(Channel(channel, PitchBend(value))).value) == Success(Channel(channel, PitchBend(value)))
  {
    var parts := GetMsbAndLsb(value);
    assert Encode(Channel(channel, PitchBend(value))).value == [PitchBendStatus + channel, parts.0, parts.1];
    DecodeThreeBytes(PitchBend(value), channel, parts.0, parts.1);
  }

  lemma ControlRoundTrip(channel: int, cc: MidiControl.ControlChange)
    requires WellFormed(Channel(channel, Control(cc))) && RoundTrips(Channel(channel, Control(cc)))
    ensures Encode(Channel(channel, Control(cc))).Success?
    ensures Decode(Encode(Channel(channel, Control(cc))).value) == Success(Channel(channel, Control(cc)))
  {
    var bytes := EncodeControl(channel, cc);
    ControlBytesParse(channel, cc);
    DecodeThreeBytes(Control(cc), channel, bytes[1], bytes[2]);
  }

  /** The two data bytes a well-formed control change is sent with parse back to it. */
  lemma ControlBytesParse(channel: int, cc: MidiControl.ControlChange)
    requires IsChannelNumber(channel)
    requires MidiControl.WellFormed(cc) && cc.props != MidiControl.MultiByte(None, 0)
    ensures var bytes := EncodeControl(channel, cc);
      && bytes == [ControlChangeStatus + channel, bytes[1], bytes[2]]
      && IsDataByte(bytes[1]) && IsDataByte(bytes[2]) && MidiControl.Parse(bytes[1], bytes[2]) == Some(cc)
  {
    MidiControl.ControlTableShape();
    match cc.props
    case MultiByte(msb, lsb) =>
      if lsb > 0 {
        assert MidiControl.SlotAgrees(cc.controlNumber + 32);
      }
    case Switch(_) =>
    case SingleByte(_) =>
  }

  /** The exception: an LSB-only control with value 0 comes back as its MSB set to 0. */
  lemma LsbZeroComesBackAsMsb(channel: int, cc: MidiControl.ControlChange)
    requires WellFormed(Channel(channel, Control(cc)))
    requires cc.props == MidiControl.MultiByte(None, 0)
    ensures Decode(Encode(Channel(channel, Control(cc))).value)
            == Success(Channel(channel, Control(cc.(props := MidiControl.MultiByte(Some(0), 0)))))
  {
    MidiControl.ControlTableShape();
  }

  /** A Note On with velocity 0 is read as a Note Off of the same key. */
  lemma NoteOnWithoutVelocityIsNoteOff(channel: int, noteNumber: int)
    requires IsChannelNumber(channel) && IsDataByte(noteNumber)
    ensures Decode([NoteOnStatus + channel, noteNumber, 0])
            == Success(Channel(channel, NoteOff(noteNumber, GetPitch(noteNumber))))
  {
  }

  /** Pitch bend is sent high half first: 8192 on channel 8 and 4000 on channel 9. */
  lemma EncodeExamples()
    ensures Encode(Channel(8, PitchBend(8192))) == Success([0xE8, 64, 0])
    ensures Encode(Channel(9, PitchBend(4000))) == Success([0xE9, 31, 32])
    ensures Encode(Channel(10, ProgramChange(15))) == Success([0xCA, 15])
  {
  }

  /** Decoding a Note On for middle C, a status past one byte, and a clock byte. */
  lemma DecodeExamples()
    ensures Decode([0x90, 60, 100]) == Success(Channel(0, NoteOn(60, Pitch(C, Natural, 4), 100)))
    ensures Decode([267, 60, 64]) == Success(Empty)
    ensures Decode([0xF8]) == Failure(UnimplementedError)
  {
  }

  /** Decoding a centred pitch bend on channel 3. */
  lemma DecodePitchBendExample()
    ensures Decode([0xE3, 64, 0]) == Success(Channel(3, PitchBend(8192)))
  {
  }
}
