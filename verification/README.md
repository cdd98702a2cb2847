# MIDI input state and music-theory spelling, in Dafny

This project models the core of a TypeScript monorepo. The core has two parts.

- **`@/midi`** decodes raw Web MIDI bytes into typed channel-voice messages and
  encodes messages back into bytes. Its helpers cover:
  - 14-bit values split across two data bytes;
  - note numbers and pitches;
  - the table of 120 controller numbers.

  A reducer folds each decoded message into a per-channel input state. That
  state holds the sounding notes, the controllers, the damper and sostenuto
  pedals with their held-back note-offs, aftertouch, pitch bend and program.
- **`@/music-theory`** covers:
  - pitch classes (a letter step plus an alteration in semitones);
  - conversion to and from MIDI note numbers;
  - enharmonic respelling;
  - transposition by a named interval;
  - seven-note scales in the seven modes;
  - the tonic of a key given its number of sharps or flats.

Every operation is a pure Dafny function or a short method over immutable
datatypes. The source's thrown errors become a `Result` (`Wrappers`,
`MidiErrors`). JavaScript's truncating `%` and the `diff < 0 ? d + diff : diff`
normalisation the source applies after it are written out in `JsNumber`.

Modules follow the source files:

| module | source |
|---|---|
| `MidiUtil` | `packages/midi/src/util.ts` |
| `MidiBytes` | the type guards of `packages/midi/src/message.ts` |
| `MidiMessage` | `packages/midi/src/message.ts` |
| `MidiNote` | `packages/midi/src/note.ts` |
| `MidiControl` | `packages/midi/src/control.ts` |
| `MidiChannel` | `packages/midi/src/channel.ts` |
| `MidiState` | the reducer of `packages/midi/src/midi.ts` |
| `MidiScenarios` | pedal and controller sequences the reducer is meant to handle |
| `TheoryNotes` | `packages/music-theory/src/notes.ts` |
| `TheoryIntervals` | `packages/music-theory/src/intervals.ts` |
| `TheoryScales` | `packages/music-theory/src/scales.ts` |

Three behaviours follow the code where the code surprises:

- **Pitch bend is most-significant byte first.** The decoder joins pitch-bend
  data bytes with the first data byte as the most significant one, and the
  encoder emits them in that order. The round trip therefore closes, but the
  byte order differs from the MIDI 1.0 wire order, which sends the least
  significant byte first.
- **Alterations are integers.** An absent alteration is 0. Microtonal
  (fractional) alterations are left out.
- **A double alteration can respell to a different sound.** Respelling a
  double alteration with no target letter negates the alteration whenever the
  neighbouring letter's natural already has the note's sound. A double-sharp A
  thus becomes a double-flat B, as the repository's own tests expect.
  `TheoryNotes.EnharmonicDoubleWithoutTarget` states both the result and that
  it sounds different.

`getNotes` runs its loop body before testing the bound (a `do … while`), so
an end pitch below the start still yields the start note.

## Model

| member | source | states |
|---|---|---|
| JsNumber.Rem | packages/music-theory/src/notes.ts:121 | JavaScript's remainder for the divisors the source uses: strictly inside (-d, d), never negative for a non-negative dividend, never positive for a non-positive one |
| JsNumber.Wrap | packages/music-theory/src/notes.ts:121-122 | the remainder-then-add-if-negative idiom always lands in [0, d) and equals the Euclidean residue |
| JsNumber.RemWraps | packages/music-theory/src/notes.ts:66-67 | adding d to a negative JavaScript remainder gives the mathematical residue, and a non-negative remainder already is it |
| MidiUtil.CalculateMultiByteValue | packages/midi/src/util.ts:3-5 | two data bytes join into a 14-bit value (0..16383) whose quotient by 128 is the MSB and whose remainder is the LSB |
| MidiUtil.GetMsbAndLsb | packages/midi/src/util.ts:7-12 | for any non-negative value the split parts join back to the value, the LSB is a data byte, and for a 14-bit value the MSB is one too |
| MidiUtil.SplitAfterJoin | packages/midi/src/util.ts:3-12 | splitting a joined pair of data bytes returns the same pair (the inverse direction of the round trip) |
| MidiUtil.JoinIsOrderedBijection | packages/midi/src/util.ts:3-5 | distinct byte pairs give distinct values, incrementing the LSB (or carrying into the MSB at 127) adds exactly one, and the range is 0..16383 |
| MidiUtil.MultiByteSpotValues | packages/midi/src/util.ts:3-12 | centre 8192 is (64, 0), 12833 is (100, 33), 16383 is (127, 127), and 0 splits to (0, 0) in both directions |
| MidiControl.ControlClassesPartition | packages/midi/src/control.ts:141-196 | a control number is exactly one of multi-byte MSB, multi-byte LSB, switch or single-byte, and the four parameter-number controls are single-byte ones |
| MidiControl.ControlTableShape | packages/midi/src/control.ts:18-139 | every slot of the 120-entry label table names the controller its number addresses: an LSB slot 32..63 repeats the label and number of its MSB slot 0..31, every other slot carries its own number |
| MidiControl.DefinedLabelsIdentifyControls | packages/midi/src/control.ts:18-139 | outside the LSB slots, two control numbers with the same defined label are the same number, so a label is a usable state key |
| MidiControl.Parse | packages/midi/src/control.ts:198-245 | a control change parses exactly when the number is a controller and, for the registered-parameter LSB, the value is 0..4; it keeps the table's label and MSB number, makes switches exactly of 64..69 with on meaning value >= 64; an MSB number carries the value as MSB with LSB 0, an LSB number carries it as LSB with no MSB, and a single-byte controller keeps the value |
| MidiChannel.Parse | packages/midi/src/channel.ts:43-157 | decoding fails exactly for a channel-mode message or a status that is not a voice status, and then with the unimplemented error; the channel is carried through; note messages take the first data byte as note number and its table pitch, a Note Off always and a Note On with non-zero velocity keeping that velocity, and a Note On is a Note Off exactly when its velocity is 0; key pressure takes the second byte as aftertouch, program change and channel pressure take the first byte; pitch bend joins the two bytes MSB first; a control change is the parsed controller, or empty when the number is no controller; byte-range inputs give well-formed messages |
| MidiChannel.DefaultChannel | packages/midi/src/channel.ts:159-171 | a fresh channel has no notes, aftertouch 0, pitch bend at the centre (64, 0), program, bank and sound 0, no stored controls, omni on and mono off, and it is consistent exactly when its number is a channel number |
| MidiMessage.StatusNibble | packages/midi/src/message.ts:57-58 | the status is the multiple of 16 at most 15 below the byte, that is, the byte with its low four bits cleared, and it is a channel-message status exactly for bytes 0x80..0xEF |
| MidiMessage.ChannelNibble | packages/midi/src/message.ts:57-59 | the channel is a channel number 0..15 that, added to the status nibble, gives back the byte |
| MidiMessage.DataByteAt | packages/midi/src/message.ts:61-64 | a data position always reads as a data byte: the byte itself when present and in range, otherwise 0 |
| MidiMessage.Decode | packages/midi/src/message.ts:47-78 | an empty message or one not opening with a status byte decodes to the empty message; a system status (above 0xEF) fails as unimplemented; a channel status is parsed from its high nibble, its low nibble as channel and the next two data bytes; every decoded message is well formed and carries the low nibble of the status byte as its channel |
| MidiMessage.ToUint8Array | packages/midi/src/message.ts:86-165 | the byte array has one entry per value, each a byte congruent to its value modulo 256, equal to it when it already is a byte |
| MidiMessage.EncodeControl | packages/midi/src/message.ts:142-163 | a control change is three bytes: the control status plus channel, the controller number (plus 32 for a multi-byte value with a non-zero LSB), then 127 or 0 for a switch, the value for a single-byte controller, and for a multi-byte one the MSB unless it is absent or 0, else the LSB |
| MidiMessage.Encode | packages/midi/src/message.ts:80-169 | the empty message fails as unimplemented; a channel message fails only with the pitch error, for a note message whose pitch has no note number; otherwise the bytes are two long for program change and channel pressure and three for the rest, opening with the voice status plus the channel; note messages send the pitch's note number, then 0 for Note Off and the velocity or aftertouch otherwise; channel pressure and program change send their value; an in-range pitch bend is sent as two data bytes that join back to it; control changes are sent as `EncodeControl` states |
| MidiMessage.EncodeDecodeRoundTrip | packages/midi/src/message.ts:47-169 | every well-formed channel message in the encoder's normal form encodes, and decoding its bytes gives back the same message |
| MidiMessage.SplitStatusByte | packages/midi/src/message.ts:57-59 | a voice status plus a channel number is a status byte whose nibbles recover the status and the channel |
| MidiMessage.DecodeThreeBytes | packages/midi/src/message.ts:66-74 | a three-byte channel message decodes to what the channel parser makes of its status, channel and data bytes |
| MidiMessage.NoteOffRoundTrip | packages/midi/src/message.ts:86-95 | a Note Off encodes as status, note number and velocity 0, and those bytes decode back to it |
| MidiMessage.NoteOnRoundTrip | packages/midi/src/message.ts:96-105 | a Note On with non-zero velocity encodes as status, note number and velocity, and decodes back |
| MidiMessage.KeyPressureRoundTrip | packages/midi/src/message.ts:106-115 | polyphonic key pressure encodes as status, note number and aftertouch, and decodes back |
| MidiMessage.PitchBendRoundTrip | packages/midi/src/message.ts:121-125 | every 14-bit pitch bend encodes and decodes back to the same value |
| MidiMessage.ControlRoundTrip | packages/midi/src/message.ts:142-163 | every well-formed control change in normal form encodes and decodes back to itself |
| MidiMessage.ControlBytesParse | packages/midi/src/message.ts:142-163 | the control number and value bytes of an encoded control change parse back to the same control change |
| MidiMessage.LsbZeroComesBackAsMsb | packages/midi/src/message.ts:142-151 | a multi-byte change carrying only an LSB of 0 is sent on the MSB controller number, so it decodes as an MSB of 0, not as the LSB it was |
| MidiMessage.NoteOnWithoutVelocityIsNoteOff | packages/midi/src/channel.ts:92-100 | the bytes of a Note On with velocity 0 decode to a Note Off for the same note |
| MidiMessage.EncodeExamples | packages/midi/src/message.ts:121-127 | centre pitch bend on channel 8 is E8 40 00, pitch bend 4000 on channel 9 is E9 1F 20, program 15 on channel 10 is CA 0F |
| MidiMessage.DecodeExamples | packages/midi/src/message.ts:47-78 | 90 3C 64 is a Note On for middle C at velocity 100 on channel 0, a first value past one byte gives the empty message, and a clock byte fails as unimplemented |
| MidiMessage.DecodePitchBendExample | packages/midi/src/channel.ts:143-152 | E3 40 00 is the centre pitch bend on channel 3 |
| MidiNote.BaseIndex | packages/midi/src/note.ts:83-85 | the search returns the position of the note in the twelve base notes, or -1 exactly when it is not among them |
| MidiNote.BaseIndexInverse | packages/midi/src/note.ts:21-70 | the twelve base notes are distinct: searching for the k-th finds position k |
| MidiNote.GetPitch | packages/midi/src/note.ts:72-80 | a note number names a natural or sharp base note in the octave whose twelve numbers contain it |
| MidiNote.GetNoteNumber | packages/midi/src/note.ts:82-99 | a successful note number is a data byte; every other outcome is the MIDI pitch error |
| MidiNote.PitchRoundTrip | packages/midi/src/note.ts:72-99 | every note number 0..127 survives conversion to a pitch and back |
| MidiNote.NoteNumberRoundTrip | packages/midi/src/note.ts:72-99 | every base-note pitch with a note number survives conversion to the number and back |
| MidiNote.PitchOfNumber | packages/midi/src/note.ts:72-80 | the pitch of a number is the base note at its offset from A, in the octave counted from C |
| MidiNote.OutOfRangePitch | packages/midi/src/note.ts:87-96 | A10 is refused with the pitch error, while A0 is 21, middle C is 60 and C-1 is 0 |
| MidiNote.FillNotes | packages/midi/src/note.ts:133-144 | the loop builds a default note for every number from the start to below the end, and always for the start itself |
| MidiNote.RunSize | packages/midi/src/note.ts:117-144 | a map keyed by exactly the numbers lo..hi-1 holds hi - lo notes |
| MidiNote.GetNotesByCountAsWritten | packages/midi/src/note.ts:117-124 | as written: a count of 0 or less gives no notes, a start without a note number fails, otherwise the run stops before the smaller of start + count and 127 |
| MidiNote.CountRunMissesTopNote | packages/midi/src/note.ts:124 | three notes asked for from F9 (125) come back as two, without note 127 |
| MidiNote.GetNotesByCount | packages/midi/src/note.ts:110-124 | the same with the bound at 128: the run holds exactly min(count, 128 - start) notes |
| MidiNote.GetNotesByRange | packages/midi/src/note.ts:125-144 | no end pitch gives no notes; either pitch without a note number fails; otherwise the run covers start to end inclusive, and only the start when the end is below it |
| MidiState.Finalize | packages/midi/src/midi.ts:350-361 | a released note is off with velocity 0 and otherwise unchanged |
| MidiState.NoteOffState | packages/midi/src/midi.ts:228-247 | a Note Off held back by a pedal only adds the note to the pending set; otherwise pending is unchanged, no other note changes, and the note is tracked off with velocity 0 and the channel aftertouch, keeping the rest of its tracked entry, or as a new entry with the message pitch, not sustained |
| MidiState.AddChannelNotes | packages/midi/src/midi.ts:203-220 | the result tracks the old notes unchanged plus a fresh gap note for every untracked number in the range |
| MidiState.MaxBelow | packages/midi/src/midi.ts:262-267 | the highest tracked number below the new note is tracked, below it, and at least every tracked number below it |
| MidiState.MinAbove | packages/midi/src/midi.ts:268-273 | the lowest tracked number above the new note is tracked, above it, and at most every tracked number above it |
| MidiState.NoteOnKeys | packages/midi/src/midi.ts:248-277 | after a Note On the tracked numbers are the old ones, the new one and the gap to its nearest tracked neighbour; the note sounds at its velocity with the channel aftertouch, keeping the rest of its tracked entry or starting unsustained with the message pitch; other tracked notes are unchanged, gap notes take the channel aftertouch, the note leaves the pending set, and no other channel field changes |
| MidiState.NoteOnKeepsSpan | packages/midi/src/midi.ts:262-273 | when the tracked numbers are a contiguous range, a Note On leaves them a contiguous range widened to include the new note |
| MidiState.GapFillsSpan | packages/midi/src/midi.ts:262-273 | filling the gap between a contiguous range and a new number gives the contiguous range stretched to that number |
| MidiState.PolyphonicKeyPressureState | packages/midi/src/midi.ts:278-293 | a tracked note takes the message's aftertouch; an untracked note is tracked as a default note with aftertouch 0; no other note or channel field changes |
| MidiState.ChannelPressureState | packages/midi/src/midi.ts:295-298 | channel pressure sets the channel's and every tracked note's aftertouch and changes nothing else |
| MidiState.ProgramChangeState | packages/midi/src/midi.ts:304-310 | a program change records the program with the bank select MSB and LSB as bank and sound, or 0 and 0 when no bank was selected |
| MidiState.MergeMultiByte | packages/midi/src/midi.ts:323-347 | a multi-byte update always sets the LSB, and sets the MSB from the message or else keeps the stored MSB (0 when none) |
| MidiState.StoreControl | packages/midi/src/midi.ts:324-334 | after storing, looking the controller up (by label, or by number when undefined) gives the stored value, and every other lookup gives what it gave before |
| MidiState.ReleaseDamper | packages/midi/src/midi.ts:350-361 | releasing the damper finalizes exactly the pending notes not held by sostenuto and drops them from the pending set, leaving every other note as it was |
| MidiState.PressSostenuto | packages/midi/src/midi.ts:363-369 | pressing sostenuto marks exactly the sounding notes as sustained and changes nothing else |
| MidiState.ReleaseSostenuto | packages/midi/src/midi.ts:369-377 | releasing sostenuto clears every sustain mark, finalizes the sustained notes whose note-off was pending, and drops exactly those from the pending set |
| MidiState.ControlChangeState | packages/midi/src/midi.ts:317-394 | a control change stores switch and single-byte values under the controller, and a multi-byte value merged with the one stored before; only the damper release and the sostenuto press and release touch notes and pending note-offs, and they do so as `ReleaseDamper`, `PressSostenuto` and `ReleaseSostenuto` state on the updated controls |
| MidiState.SetChannelVoiceState | packages/midi/src/midi.ts:222-315 | each voice message goes to its own update: Note Off, Note On and control changes to their reducers, pitch bend replaces the channel's bend, program change, channel pressure and key pressure change only the channel and keep pending; no message changes a channel's number or mode |
| MidiState.UpdateState | packages/midi/src/midi.ts:161-202 | an empty message leaves the state alone; a channel message applies its voice update to the stored channel, or to the default channel with no pending note-offs when missing, and changes no other channel's state or pending set |
| MidiState.FillGapConsistent | packages/midi/src/midi.ts:262-273 | filling a gap keeps every tracked note and leaves every entry consistent with its key |
| MidiState.VoicePreservesConsistency | packages/midi/src/midi.ts:222-315 | every well-formed voice message keeps a consistent channel consistent and its pending set made of note numbers |
| MidiState.NoteOffPreservesConsistency | packages/midi/src/midi.ts:228-247 | a Note Off keeps the channel consistent |
| MidiState.NoteOnPreservesConsistency | packages/midi/src/midi.ts:248-277 | a Note On, gap fill included, keeps the channel consistent |
| MidiState.ControlPreservesConsistency | packages/midi/src/midi.ts:317-394 | a well-formed control change keeps the channel consistent |
| MidiState.StoreKeepsControlsConsistent | packages/midi/src/midi.ts:324-386 | storing a byte-ranged value keeps every stored controller value byte-ranged |
| MidiState.ReleaseDamperConsistent | packages/midi/src/midi.ts:350-361 | releasing the damper keeps the channel consistent |
| MidiState.PressSostenutoConsistent | packages/midi/src/midi.ts:363-369 | pressing sostenuto keeps the channel consistent |
| MidiState.ReleaseSostenutoConsistent | packages/midi/src/midi.ts:369-377 | releasing sostenuto keeps the channel consistent |
| MidiState.UpdatePreservesConsistency | packages/midi/src/midi.ts:161-202 | every well-formed message keeps the whole input state consistent: channel states and pending sets share keys, each channel is stored under its own number |
| MidiState.StoreKeepsConsistent | packages/midi/src/midi.ts:184-200 | writing back a consistent channel under its own number keeps the input state consistent |
| MidiScenarios.FirstNoteOn | packages/midi/src/midi.ts:170-175 | the first Note On on a new channel tracks exactly that note, sounding at its velocity |
| MidiScenarios.GapFillScenario | packages/midi/src/midi.ts:262-273 | with only note 100 tracked, Note On 107 then 98 leaves the tracked notes 100..107 and then 98..107 |
| MidiScenarios.DamperDefersNoteOff | packages/midi/src/midi.ts:242-247 | with the damper down a Note Off leaves the note sounding and pending; releasing the damper then finalizes it |
| MidiScenarios.DamperHoldsNoteOff | packages/midi/src/midi.ts:242-247 | with the damper down a Note Off changes no note and only records the pending note-off |
| MidiScenarios.DamperReleaseStep | packages/midi/src/midi.ts:350-361 | a pending, unsustained note is finalized and leaves the pending set when the damper is released |
| MidiScenarios.SostenutoHoldsSoundingNote | packages/midi/src/midi.ts:363-378 | a note sounding when sostenuto is pressed keeps sounding through its Note Off, and is finalized when sostenuto is released |
| MidiScenarios.SostenutoReleaseStep | packages/midi/src/midi.ts:369-377 | releasing sostenuto finalizes a sustained note whose note-off is pending and clears its mark |
| MidiScenarios.SostenutoReleasesNote | packages/midi/src/midi.ts:369-377 | the same at the level of one channel's control-change update |
| MidiScenarios.UpdateExisting | packages/midi/src/midi.ts:177-200 | for an existing channel the reducer stores exactly the channel-level voice update |
| MidiScenarios.UpdateControl | packages/midi/src/midi.ts:311-313 | for an existing channel a control change stores exactly the channel-level control update |
| MidiScenarios.BalanceParses | packages/midi/src/control.ts:210-223 | balance MSB (8) and balance LSB (40) both parse to the balance controller numbered 8 |
| MidiScenarios.BalanceScenario | packages/midi/src/midi.ts:323-347 | balance MSB 80 then LSB 64 leaves one balance value with MSB 80 and LSB 64 |
| MidiScenarios.BankSelectParses | packages/midi/src/control.ts:210-223 | bank select MSB (0) and LSB (32) both parse to the bank select controller numbered 0 |
| MidiScenarios.ProgramScenario | packages/midi/src/midi.ts:304-310 | bank select 2, sound 3, then program 15 records program 15 in bank 2, sound 3 |
| TheoryNotes.StepIndex | packages/music-theory/src/notes.ts:1 | each letter has a position 0..6 in the A-to-G list |
| TheoryNotes.StepAt | packages/music-theory/src/notes.ts:1 | the letter at a position is the one whose position it is |
| TheoryNotes.StepShift | packages/music-theory/src/notes.ts:120-124 | shifting a letter moves its position by the shift, cyclically over seven letters |
| TheoryNotes.StepShiftCompose | packages/music-theory/src/notes.ts:120-124 | two letter shifts are one shift by their sum |
| TheoryNotes.StepShiftZero | packages/music-theory/src/notes.ts:120-124 | shifting by zero keeps the letter |
| TheoryNotes.StepShiftCycles | packages/music-theory/src/notes.ts:120-124 | one up then one down returns the letter, and seven letters either way is a full cycle |
| TheoryNotes.StepShiftByCycle | packages/music-theory/src/notes.ts:120-124 | a shift by plus or minus seven keeps the letter |
| TheoryNotes.StepBase | packages/music-theory/src/notes.ts:4-12 | each natural lies in 0..11 semitones above C |
| TheoryNotes.PitchClassAt | packages/music-theory/src/notes.ts:30-43 | the table spells every value 0..11 as a natural or a sharp of that value |
| TheoryNotes.PitchClassesTable | packages/music-theory/src/notes.ts:30-43 | the table has twelve entries and each is the spelling of its position |
| TheoryNotes.StepValue | packages/music-theory/src/notes.ts:71-84 | the corrected value of any spelling lies in 0..11 |
| TheoryNotes.StepValueRollover | packages/music-theory/src/notes.ts:71-84 | inside the octave the corrected value equals the written one; one octave below or above it rolls over by exactly 12 |
| TheoryNotes.TableValues | packages/music-theory/src/notes.ts:30-54 | the value of the table entry at each position is that position |
| TheoryNotes.FindValueFrom | packages/music-theory/src/notes.ts:51-53 | the search from a position finds a value at its own position when it lies in range, and -1 otherwise |
| TheoryNotes.PitchClassIndex | packages/music-theory/src/notes.ts:49-54 | the index is a table position whose entry sounds like the note |
| TheoryNotes.PitchClassIndexIsSearch | packages/music-theory/src/notes.ts:49-54 | the index is what the source's first-match search over the table returns |
| TheoryNotes.PitchClassIndexAsWritten | packages/music-theory/src/notes.ts:49-54 | as written: the index is the written value when that lies in 0..11, else -1 |
| TheoryNotes.PitchClassIndexAgrees | packages/music-theory/src/notes.ts:49-54 | the corrected index equals the index over the written value exactly when the natural plus the alteration lies in 0..11 |
| TheoryNotes.RolloverMisplacesEdgeClasses | packages/music-theory/src/notes.ts:79-83 | as written, B sharp lands on index 1 (C sharp) and C flat on -1, where the corrected values give 0 and 11 |
| TheoryNotes.PitchClassDistance | packages/music-theory/src/notes.ts:56-63 | up is 0 exactly for equal sounds, otherwise 1..11 with down = up - 12, and moving by either reaches the second sound |
| TheoryNotes.PitchShift | packages/music-theory/src/notes.ts:65-69 | shifting gives a table spelling sounding the given number of semitones higher, modulo 12 |
| TheoryNotes.PitchShiftCompose | packages/music-theory/src/notes.ts:65-69 | two shifts are one shift by their sum |
| TheoryNotes.PitchShiftOctave | packages/music-theory/src/notes.ts:65-69 | a shift by an extra octave gives the same result |
| TheoryNotes.StepList | packages/music-theory/src/notes.ts:86-89 | the list is the twelve table entries rotated to start at the note: its k-th entry is the note shifted by k semitones |
| TheoryNotes.ToMidiNumber | packages/music-theory/src/notes.ts:92-107 | a MIDI number exists exactly when the octave is at least -1 and 12(octave + 1) + value lies in 0..127, and it is that number |
| TheoryNotes.FromMidiNumber | packages/music-theory/src/notes.ts:109-118 | a pitch exists exactly for 0..127; its octave is the number's twelfth minus one and its class is the table spelling of the number modulo 12 |
| TheoryNotes.MidiNumberRoundTrip | packages/music-theory/src/notes.ts:92-118 | every MIDI number survives conversion to a pitch and back |
| TheoryNotes.PitchRoundTrip | packages/music-theory/src/notes.ts:92-118 | every table-spelled pitch with a MIDI number survives conversion to the number and back |
| TheoryNotes.RespellStep | packages/music-theory/src/notes.ts:135-141 | the new letter is the target, or without one the neighbour letter in the direction of the alteration |
| TheoryNotes.ShorterWay | packages/music-theory/src/notes.ts:145-146 | the chosen alteration lies in -5..6, moves the letter's natural to the note's sound, and is 0 exactly when the natural already has that sound |
| TheoryNotes.SpellingUnique | packages/music-theory/src/notes.ts:145-146 | a letter and a sound determine the alteration within -5..6 |
| TheoryNotes.Enharmonic | packages/music-theory/src/notes.ts:126-148 | the note stays as it is with no target and no alteration, or with its own letter as target; otherwise it takes the respelled letter with the shorter alteration to the same sound, or the negated alteration when that letter's natural already has the sound |
| TheoryNotes.EnharmonicOfTableEntry | packages/music-theory/src/notes.ts:126-148 | a table note respelled on any letter keeps its sound, with an alteration in -5..6 |
| TheoryNotes.EnharmonicSingleWithoutTarget | packages/music-theory/src/notes.ts:135-146 | A sharp and B flat respell to each other, and G natural stays |
| TheoryNotes.EnharmonicDoubleWithoutTarget | packages/music-theory/src/notes.ts:143-146 | double-sharp A and double-flat B respell to each other, double-sharp C to double-flat D, though double-sharp A and double-flat B differ in sound |
| TheoryNotes.EnharmonicAlteredWithTarget | packages/music-theory/src/notes.ts:130-146 | A sharp on B is B flat, and on its own letter stays A sharp |
| TheoryNotes.EnharmonicNaturalToNeighbour | packages/music-theory/src/notes.ts:135-146 | A on B is double-flat B, B on C is C flat, C on B is B sharp |
| TheoryNotes.EnharmonicNaturalToDistant | packages/music-theory/src/notes.ts:135-146 | D on F needs three flats and E on C four sharps |
| TheoryIntervals.NamedIntervalsValid | packages/music-theory/src/intervals.ts:32-160 | every named interval constant pairs a quality with a number it admits |
| TheoryIntervals.NumberSemitones | packages/music-theory/src/intervals.ts:30 | the semitones of a diatonic number are read from the source's table |
| TheoryIntervals.QualityOffsetAsWritten | packages/music-theory/src/intervals.ts:182-188 | as written only augmented intervals adjust the semitones (+1); minor and diminished never do |
| TheoryIntervals.QualityOffset | packages/music-theory/src/intervals.ts:182-188 | corrected: minor and diminished subtract one, augmented adds one, perfect and major add nothing |
| TheoryIntervals.OffsetsDiffer | packages/music-theory/src/intervals.ts:182-188 | the written and corrected adjustments differ exactly for minor and diminished intervals |
| TheoryIntervals.Semitones | packages/music-theory/src/intervals.ts:181-190 | every valid interval spans -1..13 semitones |
| TheoryIntervals.MoveBy | packages/music-theory/src/intervals.ts:192-200 | the moved note lies the given letters away and sounds the given semitones higher, spelled with an alteration in -5..6 |
| TheoryIntervals.TransposeAsWritten | packages/music-theory/src/intervals.ts:174-201 | as written: the letter moves number - 1 steps, but minor and diminished intervals sound one semitone too wide; the result is spelled within -5..6 |
| TheoryIntervals.AsWrittenSemitones | packages/music-theory/src/intervals.ts:182-190 | the written semitone count exceeds the intended one by one exactly for minor and diminished qualities |
| TheoryIntervals.Transpose | packages/music-theory/src/intervals.ts:174-201 | corrected: the result lies number - 1 letters and the interval's semitones away in the given direction, spelled within -5..6 |
| TheoryIntervals.TransposeAgreesAsWritten | packages/music-theory/src/intervals.ts:174-201 | the corrected and the written transposition give the same note exactly for perfect, major and augmented intervals, so the fifths of the key circle are unaffected |
| TheoryIntervals.TransposePitch | packages/music-theory/src/intervals.ts:195-200 | transposing a pitch keeps its octave and transposes its class; for perfect, major and augmented intervals that class is the written `transpose`'s |
| TheoryIntervals.TransposedTo | packages/music-theory/src/intervals.ts:174-201 | the transposed note is the only spelling on the right letter with the right sound |
| TheoryIntervals.MoveByRoundTrip | packages/music-theory/src/intervals.ts:192-200 | moving by letters and semitones and back returns the note |
| TheoryIntervals.TransposeRoundTrip | packages/music-theory/src/intervals.ts:174-201 | transposing up then down by the same interval returns the note |
| TheoryIntervals.MinorCountsAsMajor | packages/music-theory/src/intervals.ts:182-188 | as written, every minor interval transposes like the major one of the same number |
| TheoryIntervals.MinorThirdFromC | packages/music-theory/src/intervals.ts:182-188 | as written a minor third up from C is E; corrected it is E flat |
| TheoryIntervals.AscendingFifthsFromNaturals | packages/music-theory/src/intervals.ts:174-201 | a fifth up from C is G and from B is F sharp |
| TheoryIntervals.AscendingFifthsFromFlats | packages/music-theory/src/intervals.ts:174-201 | a fifth up from D flat is A flat and from B flat is F |
| TheoryIntervals.DescendingFifthsFromNaturals | packages/music-theory/src/intervals.ts:174-201 | a fifth down from C is F and from F is B flat |
| TheoryIntervals.DescendingFifthsFromAltered | packages/music-theory/src/intervals.ts:174-201 | a fifth down from F sharp is B and from G flat is C flat |
| TheoryScales.ScaleIntervals | packages/music-theory/src/scales.ts:10-20 | every mode has six steps, each of one or more semitones, totalling less than an octave |
| TheoryScales.TotalInOctave | packages/music-theory/src/scales.ts:38-43 | every running total of a mode's steps stays within one octave (0..11) |
| TheoryScales.ScaleLoop | packages/music-theory/src/scales.ts:38-43 | the loop ends with one note per step plus the tonic |
| TheoryScales.ScaleLoopSpelled | packages/music-theory/src/scales.ts:38-43 | each note the loop appends lies on the next letter and sounds the running total above the tonic |
| TheoryScales.GetScale | packages/music-theory/src/scales.ts:33-49 | a scale has seven notes starting at the tonic; the k-th lies k letters up and sounds the sum of the first k steps above the tonic |
| TheoryScales.ScaleLetters | packages/music-theory/src/scales.ts:33-49 | a scale uses each letter once, ascending one letter per note from the tonic's |
| TheoryScales.ScaleIs | packages/music-theory/src/scales.ts:33-49 | any seven notes from the tonic with the right letters and sounds are the scale |
| TheoryScales.ScaleByNeighbours | packages/music-theory/src/scales.ts:33-49 | seven notes from the tonic, each one letter and one step above the last, are the scale |
| TheoryScales.MajorByNeighbours | packages/music-theory/src/scales.ts:10-49 | notes a whole, whole, half, whole, whole, whole step apart are the major scale |
| TheoryScales.MinorByNeighbours | packages/music-theory/src/scales.ts:10-49 | notes a whole, half, whole, whole, half, whole step apart are the natural minor scale |
| TheoryScales.CMajorScale | packages/music-theory/src/scales.ts:33-49 | C major is C D E F G A B |
| TheoryScales.AMinorScale | packages/music-theory/src/scales.ts:33-49 | A minor is A B C D E F G |
| TheoryScales.GMajorScale | packages/music-theory/src/scales.ts:33-49 | G major has F sharp as its seventh |
| TheoryScales.FMajorScale | packages/music-theory/src/scales.ts:33-49 | F major has B flat as its fourth |
| TheoryScales.CSharpMajorScale | packages/music-theory/src/scales.ts:33-49 | C sharp major has all seven notes sharp, E sharp and B sharp included |
| TheoryScales.FifthsFrom | packages/music-theory/src/scales.ts:79-82 | n fifths from a tonic lie 4n letters and 7n semitones away in the given direction, spelled within -5..6 |
| TheoryScales.GetKey | packages/music-theory/src/scales.ts:51-86 | the tonic of a key with a given signature lies 4 letters and 7 semitones per fifth from the mode's natural tonic, spelled within -5..6 |
| TheoryScales.KeyTonicUnique | packages/music-theory/src/scales.ts:51-86 | that letter and sound determine the tonic |
| TheoryScales.NoFifthsIsNatural | packages/music-theory/src/scales.ts:53-77 | a key without sharps or flats has the mode's natural tonic |
| TheoryScales.NextSharpKey | packages/music-theory/src/scales.ts:79-82 | one more sharp moves the tonic a fifth up |
| TheoryScales.NextFlatKey | packages/music-theory/src/scales.ts:79-82 | one more flat moves the tonic a fifth down |
| TheoryScales.NeighbourKeysReturn | packages/music-theory/src/scales.ts:79-82 | a fifth down from the next sharp key's tonic returns the tonic |
| TheoryScales.MajorKeysNear | packages/music-theory/src/scales.ts:51-86 | one sharp is G major, one flat F major, two flats B flat major |
| TheoryScales.MajorKeySixSharps | packages/music-theory/src/scales.ts:51-86 | six sharps is F sharp major |
| TheoryScales.MajorKeySixFlats | packages/music-theory/src/scales.ts:51-86 | six flats is G flat major |
| TheoryScales.MajorKeySevenSharps | packages/music-theory/src/scales.ts:51-86 | seven sharps is C sharp major |
| TheoryScales.MajorKeySevenFlats | packages/music-theory/src/scales.ts:51-86 | seven flats is C flat major |
| TheoryScales.MinorKeyThreeSharps | packages/music-theory/src/scales.ts:51-86 | three sharps is F sharp minor |
| TheoryScales.MinorKeyFiveFlats | packages/music-theory/src/scales.ts:51-86 | five flats is B flat minor |
| TheoryScales.DorianKeyFourFlats | packages/music-theory/src/scales.ts:51-86 | four flats in the Dorian mode has tonic B flat |
| TheoryScales.PhrygianKeySevenSharps | packages/music-theory/src/scales.ts:51-86 | seven sharps in the Phrygian mode has tonic E sharp |

## Left out

- Web MIDI access, port listeners, dispatch and `toJSON` in `packages/midi/src/midi.ts:13-159`: browser I/O and event plumbing with no logic of its own. The model starts at the reducer.
- Channel-mode messages (`packages/midi/src/channel.ts:49-76`): the source only logs them and then throws. The model returns the unimplemented error.
- System messages: the source throws, and the model returns the same error.
- Parameter-number control variants in the reducer (`packages/midi/src/midi.ts:387-392`) and in the encoder (`packages/midi/src/message.ts:129-141`): the parser never produces them. The registered and non-registered parameter tables are not modelled.
- Ordering of the notes `Map` after `__addChannelNotes` sorts it (`packages/midi/src/midi.ts:218`): the model keeps notes in a Dafny `map`, which has no order.
- `defaultChannel` shares its nested objects between channels in the source: the model gives every new channel fresh, immutable state.
- Microtonal (fractional) alterations and `Math.round` of an alteration: alterations are integers.
- Default parameters (`mode = 'major'`, `direction = 'up'`, `diff = 1`, an absent octave): the model takes them as explicit arguments.
- Input bytes are integers. The `Uint8Array` wrap-around is modelled on output (`MidiMessage.ToUint8Array`), not on values arriving from the port.
- Error classes are reduced to the two error values the core raises (`MidiPitchError`, `UnimplementedError`) inside a `Result`.
- MidiMessage.EncodeDecodeRoundTrip: holds only for messages in the encoder's normal form. A multi-byte change carrying only an LSB of 0 is sent on its MSB number, as `MidiMessage.LsbZeroComesBackAsMsb` states. A Note On with velocity 0 comes back as a Note Off.
- MidiNote.FillNotes: requires an end of at most 128. Every caller passes such a bound.
- MidiNote.GetNoteNumber: a flat pitch has no base note, so the search returns -1. The source's arithmetic then uses that -1 literally. The model does the same, so its contract only promises a data byte or the pitch error.
- TheoryIntervals.TransposePitch: keeps the input octave, as the source's octave handling (`packages/music-theory/src/intervals.ts:195-198`) does, and states no octave carry across C. It also applies the corrected quality offset (second Findings row), so a minor or diminished interval reaches a semitone lower than the source: C4 up a minor third is E flat 4 here and E4 in the source. For other qualities it agrees with the written `transpose`.

The members below are built on the corrected `stepValue` (first Findings row). They agree with the source whenever every input class has a natural plus alteration within 0..11 (`TheoryNotes.PitchClassIndexAgrees`). Outside that range the source misplaces B sharp (written 12, index 1), B double sharp (13, index 2) and C double flat (-2, rolled to 14, index -1) against the corrected 0, 1 and 10. C flat also gets index -1, but the source's wrap-around treats that -1 like 11, its corrected index, so at C flat only `PitchClassIndex` and `PitchClassDistance` differ.

- TheoryNotes.PitchClassIndex: for B sharp gives 0 where the source gives 1 (C sharp), for C flat 11 where the source gives -1, and for C double flat 10 where the source gives -1.
- TheoryNotes.PitchClassIndexIsSearch: runs the table search on the corrected value, so it shares the `PitchClassIndex` difference.
- TheoryNotes.PitchClassDistance: measures from the corrected indices. From C to B sharp up is 0 here and 1 in the source. At C flat only the pair with B differs: from B to C flat down is 0 here and -12 in the source, and from C flat to B up is 0 here and 12 in the source.
- TheoryNotes.PitchShift: B sharp shifted by 0 is C here and C sharp in the source; C double flat shifted by 0 is A sharp here and B in the source.
- TheoryNotes.StepList: a list from B sharp starts at C here and at C sharp in the source; one from C double flat starts at A sharp here and at B in the source.
- TheoryNotes.ShorterWay: the way from C's natural to B sharp is 0 here and 1 in the source.
- TheoryNotes.Enharmonic: B sharp with no target becomes C flat here (C's natural has its sound, so the alteration is negated) and C sharp in the source.
- TheoryIntervals.MoveBy: moving B sharp by no letters and no semitones gives B sharp here and B double sharp in the source.
- TheoryIntervals.TransposeAsWritten: keeps the written quality offset but moves from the corrected sound, so B sharp up a fifth is F double sharp here and F triple sharp in the source.
- TheoryScales.GetScale: a scale from B sharp is built from the sound of C here and of C sharp in the source, so the second note of B sharp major is C double sharp here and C triple sharp in the source.
- TheoryScales.ScaleIs: characterises the corrected `GetScale`.
- TheoryScales.ScaleByNeighbours: characterises the corrected `GetScale`.
- TheoryScales.MajorByNeighbours: characterises the corrected `GetScale`.
- TheoryScales.MinorByNeighbours: characterises the corrected `GetScale`.
- TheoryScales.FifthsFrom: steps by perfect fifths, which both `transpose` readings agree on (`TheoryIntervals.TransposeAgreesAsWritten`). Each step moves from the corrected sound, so one fifth up from B sharp is F double sharp here and F triple sharp in the source.
- TheoryScales.GetKey: every key within seven fifths of the mode's natural tonic has the tonic the source's chain gives. A longer chain that steps on from B sharp differs: eight sharps in the Locrian mode (B, F sharp, ..., E sharp, B sharp, then one more fifth) is F double sharp here and F triple sharp in the source.
- TheoryScales.KeyTonicUnique: about the corrected `GetKey`.
- TheoryScales.NextSharpKey: about the corrected `GetKey`.
- TheoryScales.NextFlatKey: about the corrected `GetKey`.
- TheoryScales.NeighbourKeysReturn: about the corrected `GetKey`.

## Findings

| source | as written | input that shows it | evidently intended | confidence | as-written member | corrected member |
|---|---|---|---|---|---|---|
| packages/music-theory/src/notes.ts:79-83 | a value below 0 rolls over to `12 - value` and one above 11 to `value - 11` | C flat has value -1, which becomes 13 and is missing from the table, so its index is -1; B sharp has value 12, which becomes 1, so it sounds as C sharp | `value + 12` and `value - 12`, the one-octave rollover the comment describes | high, not executed | TheoryNotes.RolloverMisplacesEdgeClasses | TheoryNotes.StepValueRollover |
| packages/music-theory/src/intervals.ts:182-188 | the minor/diminished adjustment tests membership with `in` on an array, which checks indices, so it never holds | a minor third up from C gives E | minor and diminished intervals one semitone narrower than major and perfect, so a minor third up from C is E flat | high, not executed | TheoryIntervals.MinorThirdFromC | TheoryIntervals.TransposeRoundTrip |
| packages/midi/src/note.ts:124 | a counted run stops before `Math.min(startNumber + count, 127)` | three notes from F9 (125) give notes 125 and 126 only, although 127 is a valid note | the bound 128, so a run reaching the top includes note 127 | medium, not executed | MidiNote.CountRunMissesTopNote | MidiNote.GetNotesByCount |
