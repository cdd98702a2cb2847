/** The error classes of the MIDI package that the modelled core can raise. */
module MidiErrors {

  datatype MidiError =
    | UnimplementedError   // system and channel-mode messages, unencodable message shapes
    | MidiPitchError       // a pitch that has no MIDI note number
}
