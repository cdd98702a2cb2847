/** Note numbers, pitches and the generation of runs of note states. */
module MidiNote {
  import opened Wrappers
  import opened JsNumber
  import opened MidiBytes
  import opened MidiErrors

  datatype Tone = A | B | C | D | E | F | G

  /** The source's FLAT, NATURAL and SHARP records, without their symbols and ±0.5 values. */
  datatype Semitone = Flat | Natural | Sharp

  /** A tone and semitone without an octave: one entry of the chromatic table. */
  datatype Note = Note(tone: Tone, semitone: Semitone)

  datatype Pitch = Pitch(tone: Tone, semitone: Semitone, octave: int)

  datatype NoteState = NoteState(
    pitch: Pitch,
    noteNumber: int,
    on: bool,
    sustain: bool,
    velocity: int,
    aftertouch: int)

  /** The chromatic scale from A, spelled with naturals and sharps only. */
  const BaseNotes: seq<Note> := [
    Note(A, Natural), Note(A, Sharp), Note(B, Natural), Note(C, Natural),
    Note(C, Sharp), Note(D, Natural), Note(D, Sharp), Note(E, Natural),
    Note(F, Natural), Note(F, Sharp), Note(G, Natural), Note(G, Sharp)
  ]

  /** A0, note 21: the lowest key of a piano and the default start of a run. */
  const A0: Pitch := Pitch(A, Natural, 0)

  /** The state of a key nobody has touched: off, not sustained, velocity and aftertouch 0. */
  function DefaultNote(pitch: Pitch, noteNumber: int): NoteState {
    NoteState(pitch, noteNumber, false, false, 0, 0)
  }

  /**
   * The position of a spelling in `BaseNotes`, or -1 when the table does not
   * hold it (every flat, and the sharps of B and E): the result of the source's
   * `findIndex` over the table.
   */
  function BaseIndex(note: Note): (i: int)
    ensures -1 <= i < |BaseNotes|
    ensures 0 <= i ==> BaseNotes[i] == note
    ensures i == -1 <==> note !in BaseNotes
  {
    match note
    case Note(A, Natural) => 0
    case Note(A, Sharp) => 1
    case Note(B, Natural) => 2
    case Note(C, Natural) => 3
    case Note(C, Sharp) => 4
    case Note(D, Natural) => 5
    case Note(D, Sharp) => 6
    case Note(E, Natural) => 7
    case Note(F, Natural) => 8
    case Note(F, Sharp) => 9
    case Note(G, Natural) => 10
    case Note(G, Sharp) => 11
    case _ => -1
  }

  /** The table has no repeated spelling, so `BaseIndex` inverts indexing into it. */
  lemma BaseIndexInverse(k: int)
    requires 0 <= k < |BaseNotes|
    ensures BaseIndex(BaseNotes[k]) == k
  {
  }

  /**
   * The pitch of a note number: the octave is `floor(n / 12) - 1`, so note 0 is
   * C-1 and note 60 is C4, and the tone is looked up at `(n + 3) mod 12`.
   */
  function GetPitch(noteNumber: int): (p: Pitch)
    ensures p.semitone != Flat
    ensures Note(p.tone, p.semitone) in BaseNotes
    ensures 12 * (p.octave + 1) <= noteNumber < 12 * (p.octave + 2)
  {
    var index := noteNumber + 3 - 12 * ((noteNumber + 3) / 12);
    var octave := noteNumber / 12 - 1;
    Pitch(BaseNotes[index].tone, BaseNotes[index].semitone, octave)
  }

  /**
   * The note number of a pitch, found from the pitch's position in `BaseNotes`.
   * A flat is not in the table; its position is -1 and the arithmetic is applied
   * to it all the same. A number outside 0..127 is a `MidiPitchError`.
   */
  function GetNoteNumber(pitch: Pitch): (r: Result<int, MidiError>)
    ensures r.Success? ==> IsDataByte(r.value)
    ensures r.Failure? ==> r.error == MidiPitchError
  {
    var index := BaseIndex(Note(pitch.tone, pitch.semitone));
    var noteNumber :=
      if index < 3 then (pitch.octave + 2) * 12 - (3 - index)
      else (pitch.octave + 1) * 12 + (index - 3);
    if !IsDataByte(noteNumber) then Failure(MidiPitchError) else Success(noteNumber)
  }

  lemma DivMod12(q: int, r: int)
    requires 0 <= r < 12
    ensures (12 * q + r) / 12 == q && (12 * q + r) % 12 == r
  {
  }

  /** Every MIDI note number survives the trip to a pitch and back. */
  lemma {:induction false} PitchRoundTrip(n: int)
    requires 0 <= n < 128
    ensures GetNoteNumber(GetPitch(n)) == Success(n)
  {
    BaseIndexInverse((n + 3) % 12);
  }

  /**
   * Conversely, a natural or sharp pitch that has a note number is the pitch of
   * that number, so the two conversions are inverse bijections between 0..127 and
   * the table spellings of octaves -1..9 that fall in that range.
   */
  lemma {:induction false} NoteNumberRoundTrip(p: Pitch)
    requires Note(p.tone, p.semitone) in BaseNotes
    requires GetNoteNumber(p).Success?
    ensures GetPitch(GetNoteNumber(p).value) == p
  {
    var k := BaseIndex(Note(p.tone, p.semitone));
    var n := GetNoteNumber(p).value;
    assert n == 12 * (p.octave + 1) + (if k < 3 then k + 9 else k - 3);
    PitchOfNumber(n, p.octave, k);
  }

  /** The number whose octave is `octave` and whose table position is `k` is the table spelling `k` in that octave. */
  lemma PitchOfNumber(n: int, octave: int, k: int)
    requires 0 <= k < 12
    requires n == 12 * (octave + 1) + (if k < 3 then k + 9 else k - 3)
    ensures GetPitch(n) == Pitch(BaseNotes[k].tone, BaseNotes[k].semitone, octave)
  {
    if k < 3 {
      DivMod12(octave + 1, k + 9);
      DivMod12(octave + 2, k);
    } else {
      DivMod12(octave + 1, k - 3);
      DivMod12(octave + 1, k);
    }
  }

  /** A at octave 10 would be note 141, which is not a MIDI note. */
  lemma OutOfRangePitch()
    ensures GetNoteNumber(Pitch(A, Natural, 10)) == Failure(MidiPitchError)
    ensures GetNoteNumber(A0) == Success(21)
    ensures GetNoteNumber(Pitch(C, Natural, 4)) == Success(60)
    ensures GetNoteNumber(Pitch(C, Natural, -1)) == Success(0)
  {
  }

  /** The last key of a run that should end before `endNumber` but always holds its first key. */
  function RunEnd(startNumber: int, endNumber: int): int {
    if endNumber > startNumber then endNumber else startNumber + 1
  }

  /**
   * `notes` is the run of default note states from `startNumber` up to but
   * excluding `RunEnd(startNumber, endNumber)`; the first entry carries the pitch
   * the caller gave, the others the table pitch of their number.
   */
  ghost predicate IsRun(notes: map<int, NoteState>, startPitch: Pitch, startNumber: int, endNumber: int) {
    RunTo(notes, startPitch, startNumber, RunEnd(startNumber, endNumber))
  }

  /** `notes` holds the default note states of the numbers from `startNumber` up to but excluding `i`. */
  ghost predicate RunTo(notes: map<int, NoteState>, startPitch: Pitch, startNumber: int, i: int) {
    && (forall k :: k in notes <==> startNumber <= k < i)
    && (forall k :: k in notes ==>
          notes[k] == DefaultNote(if k == startNumber then startPitch else GetPitch(k), k))
  }

  /** One more default note state past the end of a run extends it by one number. */
  lemma RunStep(notes: map<int, NoteState>, startPitch: Pitch, startNumber: int, i: int)
    requires startNumber < i && RunTo(notes, startPitch, startNumber, i)
    ensures RunTo(notes[i := DefaultNote(GetPitch(i), i)], startPitch, startNumber, i + 1)
  {
  }

  /**
   * The do-while loop shared by both forms of `getNotes`: one default note state
   * per number, stepping a semitone at a time while the number is below `endNumber`.
   */
  method FillNotes(startPitch: Pitch, startNumber: int, endNumber: int) returns (notes: map<int, NoteState>)
    requires GetNoteNumber(startPitch) == Success(startNumber)
    requires endNumber <= 128
    ensures IsRun(notes, startPitch, startNumber, endNumber)
  {
    var currentPitch := startPitch;
    var noteNumber := GetNoteNumber(currentPitch).value;
    notes := map[noteNumber := DefaultNote(currentPitch, noteNumber)];
    currentPitch := GetPitch(noteNumber + 1);
    var i := startNumber + 1;
    while i < endNumber
      invariant startNumber < i <= RunEnd(startNumber, endNumber)
      invariant currentPitch == GetPitch(i)
      invariant RunTo(notes, startPitch, startNumber, i)
    {
      PitchRoundTrip(i);
      noteNumber := GetNoteNumber(currentPitch).value;
      RunStep(notes, startPitch, startNumber, i);
      notes := notes[noteNumber := DefaultNote(currentPitch, noteNumber)];
      currentPitch := GetPitch(noteNumber + 1);
      i := i + 1;
    }
  }

  /** A run of default note states between `lo` (inclusive) and `hi` (exclusive) has `hi - lo` entries. */
  lemma {:induction false} RunSize(notes: map<int, NoteState>, lo: int, hi: int)
    requires lo <= hi
    requires forall k :: k in notes <==> lo <= k < hi
    ensures |notes| == hi - lo
    decreases hi - lo
  {
    if lo < hi {
      var rest := map k | k in notes && k != hi - 1 :: notes[k];
      RunSize(rest, lo, hi - 1);
      assert notes.Keys == rest.Keys + {hi - 1};
    } else {
      assert notes.Keys == {};
    }
  }

  /** The start of a counted run: the given pitch, or A0 when none is given. */
  function CountStart(startingNote: Option<Pitch>): Pitch {
    if startingNote.Some? then startingNote.value else A0
  }

  /**
   * `getNotes(count, startingNote?)` exactly as written: the run stops before
   * `min(start + count, 127)`, so it never reaches note 127 unless it starts there.
   */
  method GetNotesByCountAsWritten(count: int, startingNote: Option<Pitch>) returns (r: Result<map<int, NoteState>, MidiError>)
    ensures count <= 0 ==> r == Success(map[])
    ensures count > 0 ==> (r.Failure? <==> GetNoteNumber(CountStart(startingNote)).Failure?)
    ensures count > 0 && r.Success? ==>
      var s := GetNoteNumber(CountStart(startingNote)).value;
      IsRun(r.value, CountStart(startingNote), s, Min(s + count, 127))
  {
    if count <= 0 {
      return Success(map[]);
    }
    var start := CountStart(startingNote);
    var startNumber :- GetNoteNumber(start);
    var endNumber := Min(startNumber + count, 127);
    var notes := FillNotes(start, startNumber, endNumber);
    return Success(notes);
  }

  /** Three notes asked for from F9 (125) come back as two, though 127 is a valid note. */
  method CountRunMissesTopNote() returns (r: Result<map<int, NoteState>, MidiError>)
    ensures r.Success? && |r.value| == 2 && 127 !in r.value
  {
    var f9 := Pitch(F, Natural, 9);
    r := GetNotesByCountAsWritten(3, Some(f9));
    RunSize(r.value, 125, 127);
  }

  /**
   * `getNotes(count, startingNote?)` with the evidently intended bound: the run
   * stops before `min(start + count, 128)`, so it holds `count` notes unless
   * it runs past note 127.
   */
  method GetNotesByCount(count: int, startingNote: Option<Pitch>) returns (r: Result<map<int, NoteState>, MidiError>)
    ensures count <= 0 ==> r == Success(map[])
    ensures count > 0 ==> (r.Failure? <==> GetNoteNumber(CountStart(startingNote)).Failure?)
    ensures count > 0 && r.Success? ==>
      var s := GetNoteNumber(CountStart(startingNote)).value;
      && IsRun(r.value, CountStart(startingNote), s, Min(s + count, 128))
      && |r.value| == Min(count, 128 - s)
  {
    if count <= 0 {
      return Success(map[]);
    }
    var start := CountStart(startingNote);
    var startNumber :- GetNoteNumber(start);
    var endNumber := Min(startNumber + count, 128);
    var notes := FillNotes(start, startNumber, endNumber);
    RunSize(notes, startNumber, endNumber);
    return Success(notes);
  }

  /**
   * `getNotes(startingNote, endingNote)`: the inclusive run between two pitches.
   * Without an end pitch the result is empty; an end below the start still yields
   * the start note, because the loop body runs once before its test.
   */
  method GetNotesByRange(startingNote: Pitch, endingNote: Option<Pitch>) returns (r: Result<map<int, NoteState>, MidiError>)
    ensures endingNote.None? ==> r == Success(map[])
    ensures endingNote.Some? ==>
      (r.Failure? <==> GetNoteNumber(startingNote).Failure? || GetNoteNumber(endingNote.value).Failure?)
    ensures endingNote.Some? && r.Success? ==>
      var s := GetNoteNumber(startingNote).value;
      var e := GetNoteNumber(endingNote.value).value;
      && IsRun(r.value, startingNote, s, e + 1)
      && |r.value| == (if e >= s then e - s + 1 else 1)
  {
    if endingNote.None? {
      return Success(map[]);
    }
    var startNumber :- GetNoteNumber(startingNote);
    var lastNumber :- GetNoteNumber(endingNote.value);
    var endNumber := lastNumber + 1;
    var notes := FillNotes(startingNote, startNumber, endNumber);
    RunSize(notes, startNumber, RunEnd(startNumber, endNumber));
    return Success(notes);
  }
}
