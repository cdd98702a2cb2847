/**
 * Intervals and transposition: an interval is a quality and a number of
 * letter steps, and transposing moves a class by the interval's letter steps
 * and semitones, then spells the result on the new letter.
 */
module TheoryIntervals {
  import opened Wrappers
  import opened TheoryNotes

  datatype Quality = Perfect | Minor | Major | Diminished | Augmented

  /** An interval: a quality and a number, 1 (unison) to 8 (octave). */
  datatype Interval = Interval(quality: Quality, number: int)

  /** The quality and number pairs the interval types admit. */
  predicate ValidInterval(i: Interval) {
    match i.quality
    case Perfect => i.number == 1 || i.number == 4 || i.number == 5 || i.number == 8
    case Minor | Major => i.number == 2 || i.number == 3 || i.number == 6 || i.number == 7
    case Diminished => 2 <= i.number <= 8
    case Augmented => 1 <= i.number <= 7
  }

  const P1 := Interval(Perfect, 1)
  const P4 := Interval(Perfect, 4)
  const P5 := Interval(Perfect, 5)
  const P8 := Interval(Perfect, 8)
  const m2 := Interval(Minor, 2)
  const m3 := Interval(Minor, 3)
  const m6 := Interval(Minor, 6)
  const m7 := Interval(Minor, 7)
  const M2 := Interval(Major, 2)
  const M3 := Interval(Major, 3)
  const M6 := Interval(Major, 6)
  const M7 := Interval(Major, 7)
  const d2 := Interval(Diminished, 2)
  const d3 := Interval(Diminished, 3)
  const d4 := Interval(Diminished, 4)
  const d5 := Interval(Diminished, 5)
  const d6 := Interval(Diminished, 6)
  const d7 := Interval(Diminished, 7)
  const d8 := Interval(Diminished, 8)
  const A1 := Interval(Augmented, 1)
  const A2 := Interval(Augmented, 2)
  const A3 := Interval(Augmented, 3)
  const A4 := Interval(Augmented, 4)
  const A5 := Interval(Augmented, 5)
  const A6 := Interval(Augmented, 6)
  const A7 := Interval(Augmented, 7)

  /** Every named interval is one the types admit. */
  lemma NamedIntervalsValid()
    ensures ValidInterval(P1) && ValidInterval(P4) && ValidInterval(P5) && ValidInterval(P8)
    ensures ValidInterval(m2) && ValidInterval(m3) && ValidInterval(m6) && ValidInterval(m7)
    ensures ValidInterval(M2) && ValidInterval(M3) && ValidInterval(M6) && ValidInterval(M7)
    ensures ValidInterval(d2) && ValidInterval(d3) && ValidInterval(d4) && ValidInterval(d5)
    ensures ValidInterval(d6) && ValidInterval(d7) && ValidInterval(d8)
    ensures ValidInterval(A1) && ValidInterval(A2) && ValidInterval(A3) && ValidInterval(A4)
    ensures ValidInterval(A5) && ValidInterval(A6) && ValidInterval(A7)
  {
  }

  /** `intervalSemitones`: the semitones of the major or perfect interval of each number. */
  const IntervalSemitones: seq<int> := [0, 2, 4, 5, 7, 9, 11, 12]

  /** The entry of `intervalSemitones` for an interval number 1..8. */
  function NumberSemitones(n: int): (r: int)
    requires 1 <= n <= 8
    ensures r == IntervalSemitones[n - 1]
  {
    match n
    case 1 => 0
    case 2 => 2
    case 3 => 4
    case 4 => 5
    case 5 => 7
    case 6 => 9
    case 7 => 11
    case _ => 12
  }

  /** The quality's correction as the source writes it: only augmented counts. */
  function QualityOffsetAsWritten(q: Quality): (r: int)
    ensures r == 0 || r == 1
    ensures r == 1 <==> q == Augmented
  {
    if q == Augmented then 1 else 0
  }

  /** The quality's correction as intended: a semitone less for minor and diminished, one more for augmented. */
  function QualityOffset(q: Quality): (r: int)
    ensures r == -1 <==> q == Minor || q == Diminished
    ensures r == 1 <==> q == Augmented
    ensures r == 0 <==> q == Perfect || q == Major
  {
    match q
    case Minor | Diminished => -1
    case Augmented => 1
    case Perfect | Major => 0
  }

  /** The two corrections differ exactly on minor and diminished intervals. */
  lemma OffsetsDiffer(q: Quality)
    ensures QualityOffsetAsWritten(q) != QualityOffset(q) <==> q == Minor || q == Diminished
  {
  }

  datatype Direction = Up | Down

  /** An amount with the sign of the direction: `amount * multiplier`, the multiplier being 1 or -1. */
  function Signed(amount: int, d: Direction): (r: int)
    ensures d == Up ==> r == amount
    ensures d == Down ==> r == -amount
  {
    if d == Down then -amount else amount
  }

  /** The semitones of an interval with the intended quality correction. */
  function Semitones(i: Interval): (s: int)
    requires ValidInterval(i)
    ensures -1 <= s <= 13
  {
    NumberSemitones(i.number) + QualityOffset(i.quality)
  }

  /**
   * The core of `transpose`: the letter moves `steps` along the cycle, the
   * class moves `semitones` along the table, and the result is spelled on the
   * new letter.
   */
  function MoveBy(pitch: PitchClass, steps: int, semitones: int): (r: PitchClass)
    ensures r.step == StepShift(pitch.step, steps)
    ensures StepValue(r) == (StepValue(pitch) + semitones) % 12
    ensures -5 <= r.alter <= 6
  {
    MovedSpelling(pitch, steps, semitones);
    Enharmonic(PitchShift(pitch, semitones), Some(StepShift(pitch.step, steps)))
  }

  /** The class a move lands on, respelled on the new letter, keeps the moved value. */
  lemma MovedSpelling(pitch: PitchClass, steps: int, semitones: int)
    ensures var r := Enharmonic(PitchShift(pitch, semitones), Some(StepShift(pitch.step, steps)));
      && r.step == StepShift(pitch.step, steps)
      && StepValue(r) == (StepValue(pitch) + semitones) % 12
      && -5 <= r.alter <= 6
  {
    EnharmonicOfTableEntry(PitchShift(pitch, semitones), StepShift(pitch.step, steps));
  }

  /**
   * `transpose` as the source writes it: `quality in [...]` asks whether the
   * quality is a key of the array, which it never is, so minor and diminished
   * intervals move one semitone further than intended.
   */
  function TransposeAsWritten(pitch: PitchClass, i: Interval, d: Direction): (r: PitchClass)
    requires ValidInterval(i)
    ensures r.step == StepShift(pitch.step, Signed(i.number - 1, d))
    ensures var extra := if i.quality == Minor || i.quality == Diminished then 1 else 0;
      StepValue(r) == (StepValue(pitch) + Signed(Semitones(i) + extra, d)) % 12
    ensures -5 <= r.alter <= 6
  {
    AsWrittenSemitones(i, d);
    MoveBy(pitch, Signed(i.number - 1, d), Signed(NumberSemitones(i.number) + QualityOffsetAsWritten(i.quality), d))
  }

  /** The as-written semitones exceed the intended ones by one exactly for minor and diminished intervals. */
  lemma AsWrittenSemitones(i: Interval, d: Direction)
    requires ValidInterval(i)
    ensures var extra := if i.quality == Minor || i.quality == Diminished then 1 else 0;
      Signed(NumberSemitones(i.number) + QualityOffsetAsWritten(i.quality), d) == Signed(Semitones(i) + extra, d)
  {
  }

  /**
   * `transpose` as intended: the result lies `number - 1` letters and the
   * interval's semitones away, in the direction given, spelled with an
   * alteration between -5 and 6.
   */
  function Transpose(pitch: PitchClass, i: Interval, d: Direction): (r: PitchClass)
    requires ValidInterval(i)
    ensures r.step == StepShift(pitch.step, Signed(i.number - 1, d))
    ensures StepValue(r) == (StepValue(pitch) + Signed(Semitones(i), d)) % 12
    ensures -5 <= r.alter <= 6
  {
    MoveBy(pitch, Signed(i.number - 1, d), Signed(Semitones(i), d))
  }

  /**
   * The corrected and the written `transpose` agree exactly on perfect, major
   * and augmented intervals; on minor and diminished ones they reach different
   * sounds. A fifth, the step of the circle of fifths, is perfect.
   */
  lemma TransposeAgreesAsWritten(pitch: PitchClass, i: Interval, d: Direction)
    requires ValidInterval(i)
    ensures Transpose(pitch, i, d) == TransposeAsWritten(pitch, i, d) <==> !(i.quality == Minor || i.quality == Diminished)
  {
    AsWrittenSemitones(i, d);
    if i.quality == Minor || i.quality == Diminished {
      var v := StepValue(pitch) + Signed(Semitones(i), d);
      assert Signed(Semitones(i) + 1, d) == Signed(Semitones(i), d) + Signed(1, d);
      NeighbourResidues(v, Signed(1, d));
    } else {
      TransposeIsMove(pitch, i, d);
      assert NumberSemitones(i.number) + QualityOffsetAsWritten(i.quality) == Semitones(i);
    }
  }

  /** Sounds one semitone apart have different values. */
  lemma NeighbourResidues(v: int, s: int)
    requires s == 1 || s == -1
    ensures (v + s) % 12 != v % 12
  {
  }

  /** `transpose` of a pitch: the class is transposed and the octave kept. */
  function TransposePitch(pitch: Pitch, i: Interval, d: Direction): (r: Pitch)
    requires ValidInterval(i)
    ensures r.octave == pitch.octave
    ensures r.pitchClass == Transpose(pitch.pitchClass, i, d)
    ensures !(i.quality == Minor || i.quality == Diminished) ==>
      r.pitchClass == TransposeAsWritten(pitch.pitchClass, i, d)
  {
    TransposeAgreesAsWritten(pitch.pitchClass, i, d);
    Pitch(Transpose(pitch.pitchClass, i, d), pitch.octave)
  }

  function Opposite(d: Direction): (r: Direction)
    ensures r != d
  {
    if d == Up then Down else Up
  }

  /** A class is fixed by its step, its value and an alteration between -5 and 6. */
  lemma TransposedTo(pitch: PitchClass, i: Interval, d: Direction, expected: PitchClass)
    requires ValidInterval(i)
    requires expected.step == StepShift(pitch.step, Signed(i.number - 1, d))
    requires StepValue(expected) == (StepValue(pitch) + Signed(Semitones(i), d)) % 12
    requires -5 <= expected.alter <= 6
    ensures Transpose(pitch, i, d) == expected
  {
    SpellingUnique(Transpose(pitch, i, d), expected);
  }

  /**
   * Moving a class `k` letters and `s` semitones and then `k` letters and `s`
   * semitones back returns it, when it is spelled with an alteration between
   * -5 and 6.
   */
  lemma MoveByRoundTrip(pitch: PitchClass, k: int, s: int, k': int, s': int)
    requires -5 <= pitch.alter <= 6
    requires k' == -k && s' == -s
    ensures MoveBy(MoveBy(pitch, k, s), k', s') == pitch
  {
    var there := MoveBy(pitch, k, s);
    var back := MoveBy(there, k', s');
    MovedBack(pitch, back, k, s, k', s', there.step, StepValue(there));
  }

  /** A class reached by moving `k` letters and `s` semitones and then back is the class itself. */
  lemma MovedBack(pitch: PitchClass, back: PitchClass, k: int, s: int, k': int, s': int, step: Step, value: int)
    requires k' == -k && s' == -s
    requires step == StepShift(pitch.step, k) && back.step == StepShift(step, k')
    requires value == (StepValue(pitch) + s) % 12 && StepValue(back) == (value + s') % 12
    requires -5 <= pitch.alter <= 6 && -5 <= back.alter <= 6
    ensures back == pitch
  {
    StepShiftCompose(pitch.step, k, -k);
    StepShiftZero(pitch.step);
    ModCompose12(StepValue(pitch), s, -s, value, StepValue(back));
    SpellingUnique(back, pitch);
  }

  /**
   * Transposing by an interval and back by the same interval in the other
   * direction returns the class, for any class spelled with an alteration
   * between -5 and 6.
   */
  lemma TransposeRoundTrip(pitch: PitchClass, i: Interval, d: Direction)
    requires ValidInterval(i) && -5 <= pitch.alter <= 6
    ensures Transpose(Transpose(pitch, i, d), i, Opposite(d)) == pitch
  {
    TransposeIsMove(pitch, i, d);
    TransposeIsMove(Transpose(pitch, i, d), i, Opposite(d));
    MoveThereAndBack(pitch, i.number - 1, Semitones(i), d);
  }

  /** Transposing is moving by the interval's letters and semitones, signed by the direction. */
  lemma TransposeIsMove(pitch: PitchClass, i: Interval, d: Direction)
    requires ValidInterval(i)
    ensures Transpose(pitch, i, d) == MoveBy(pitch, Signed(i.number - 1, d), Signed(Semitones(i), d))
  {
  }

  /** Moving by signed amounts and then by the same amounts in the opposite direction returns the class. */
  lemma MoveThereAndBack(pitch: PitchClass, steps: int, semitones: int, d: Direction)
    requires -5 <= pitch.alter <= 6
    ensures MoveBy(MoveBy(pitch, Signed(steps, d), Signed(semitones, d)), Signed(steps, Opposite(d)), Signed(semitones, Opposite(d)))
            == pitch
  {
    SignedOpposite(steps, d);
    SignedOpposite(semitones, d);
    MoveByRoundTrip(pitch, Signed(steps, d), Signed(semitones, d), Signed(steps, Opposite(d)), Signed(semitones, Opposite(d)));
  }

  /** The opposite direction negates the amount. */
  lemma SignedOpposite(amount: int, d: Direction)
    ensures Signed(amount, Opposite(d)) == -Signed(amount, d)
  {
  }

  /** The quality fault makes every minor interval a major one. */
  lemma MinorCountsAsMajor(pitch: PitchClass, n: int, d: Direction)
    requires n in {2, 3, 6, 7}
    ensures TransposeAsWritten(pitch, Interval(Minor, n), d) == Transpose(pitch, Interval(Major, n), d)
  {
  }

  /** A minor third up from C: E as written, E flat as intended. */
  lemma MinorThirdFromC()
    ensures TransposeAsWritten(PitchClass(C, 0), m3, Up) == PitchClass(E, 0)
    ensures Transpose(PitchClass(C, 0), m3, Up) == PitchClass(E, -1)
  {
    MinorThirdUpFromC();
    MajorThirdUpFromC();
    MinorCountsAsMajor(PitchClass(C, 0), 3, Up);
  }

  lemma MinorThirdUpFromC()
    ensures Transpose(PitchClass(C, 0), m3, Up) == PitchClass(E, -1)
  {
    assert Semitones(m3) == 3 && StepShift(C, 2) == E && StepValue(PitchClass(E, -1)) == 3;
    TransposedTo(PitchClass(C, 0), m3, Up, PitchClass(E, -1));
  }

  lemma MajorThirdUpFromC()
    ensures Transpose(PitchClass(C, 0), M3, Up) == PitchClass(E, 0)
  {
    assert Semitones(M3) == 4 && StepShift(C, 2) == E;
    TransposedTo(PitchClass(C, 0), M3, Up, PitchClass(E, 0));
  }

  /** A perfect fifth up lands four letters and seven semitones higher. */
  lemma FifthUp(pitch: PitchClass, expected: PitchClass)
    requires expected.step == StepShift(pitch.step, 4)
    requires StepValue(expected) == (StepValue(pitch) + 7) % 12
    requires -5 <= expected.alter <= 6
    ensures Transpose(pitch, P5, Up) == expected
  {
    assert Semitones(P5) == 7;
    TransposedTo(pitch, P5, Up, expected);
  }

  /** A perfect fifth down lands four letters and seven semitones lower. */
  lemma FifthDown(pitch: PitchClass, expected: PitchClass)
    requires expected.step == StepShift(pitch.step, -4)
    requires StepValue(expected) == (StepValue(pitch) - 7) % 12
    requires -5 <= expected.alter <= 6
    ensures Transpose(pitch, P5, Down) == expected
  {
    assert Semitones(P5) == 7;
    TransposedTo(pitch, P5, Down, expected);
  }

  /** Ascending fifths from naturals, as the repository's tests expect them. */
  lemma AscendingFifthsFromNaturals()
    ensures Transpose(PitchClass(C, 0), P5, Up) == PitchClass(G, 0)
    ensures Transpose(PitchClass(B, 0), P5, Up) == PitchClass(F, 1)
  {
    FifthUpFromC();
    FifthUpFromB();
  }

  lemma FifthUpFromC()
    ensures Transpose(PitchClass(C, 0), P5, Up) == PitchClass(G, 0)
  {
    assert StepValue(PitchClass(C, 0)) == 0 && StepValue(PitchClass(G, 0)) == 7;
    assert StepShift(C, 4) == G;
    FifthUp(PitchClass(C, 0), PitchClass(G, 0));
  }

  lemma FifthUpFromB()
    ensures Transpose(PitchClass(B, 0), P5, Up) == PitchClass(F, 1)
  {
    assert StepValue(PitchClass(B, 0)) == 11 && StepValue(PitchClass(F, 1)) == 6;
    assert StepShift(B, 4) == F;
    FifthUp(PitchClass(B, 0), PitchClass(F, 1));
  }

  /** Ascending fifths from flats, as the repository's tests expect them. */
  lemma AscendingFifthsFromFlats()
    ensures Transpose(PitchClass(D, -1), P5, Up) == PitchClass(A, -1)
    ensures Transpose(PitchClass(B, -1), P5, Up) == PitchClass(F, 0)
  {
    FifthUpFromDFlat();
    FifthUpFromBFlat();
  }

  lemma FifthUpFromDFlat()
    ensures Transpose(PitchClass(D, -1), P5, Up) == PitchClass(A, -1)
  {
    assert StepValue(PitchClass(D, -1)) == 1 && StepValue(PitchClass(A, -1)) == 8;
    assert StepShift(D, 4) == A;
    FifthUp(PitchClass(D, -1), PitchClass(A, -1));
  }

  lemma FifthUpFromBFlat()
    ensures Transpose(PitchClass(B, -1), P5, Up) == PitchClass(F, 0)
  {
    assert StepValue(PitchClass(B, -1)) == 10 && StepValue(PitchClass(F, 0)) == 5;
    assert StepShift(B, 4) == F;
    FifthUp(PitchClass(B, -1), PitchClass(F, 0));
  }

  /** Descending fifths from naturals, as the repository's tests expect them. */
  lemma DescendingFifthsFromNaturals()
    ensures Transpose(PitchClass(C, 0), P5, Down) == PitchClass(F, 0)
    ensures Transpose(PitchClass(F, 0), P5, Down) == PitchClass(B, -1)
  {
    FifthDownFromC();
    FifthDownFromF();
  }

  lemma FifthDownFromC()
    ensures Transpose(PitchClass(C, 0), P5, Down) == PitchClass(F, 0)
  {
    assert StepValue(PitchClass(C, 0)) == 0 && StepValue(PitchClass(F, 0)) == 5;
    assert StepShift(C, -4) == F;
    FifthDown(PitchClass(C, 0), PitchClass(F, 0));
  }

  lemma FifthDownFromF()
    ensures Transpose(PitchClass(F, 0), P5, Down) == PitchClass(B, -1)
  {
    assert StepValue(PitchClass(F, 0)) == 5 && StepValue(PitchClass(B, -1)) == 10;
    assert StepShift(F, -4) == B;
    FifthDown(PitchClass(F, 0), PitchClass(B, -1));
  }

  /** Descending fifths from altered classes, as the repository's tests expect them. */
  lemma DescendingFifthsFromAltered()
    ensures Transpose(PitchClass(F, 1), P5, Down) == PitchClass(B, 0)
    ensures Transpose(PitchClass(G, -1), P5, Down) == PitchClass(C, -1)
  {
    FifthDownFromFSharp();
    FifthDownFromGFlat();
  }

  lemma FifthDownFromFSharp()
    ensures Transpose(PitchClass(F, 1), P5, Down) == PitchClass(B, 0)
  {
    assert StepValue(PitchClass(F, 1)) == 6 && StepValue(PitchClass(B, 0)) == 11;
    assert StepShift(F, -4) == B;
    FifthDown(PitchClass(F, 1), PitchClass(B, 0));
  }

  lemma FifthDownFromGFlat()
    ensures Transpose(PitchClass(G, -1), P5, Down) == PitchClass(C, -1)
  {
    assert StepValue(PitchClass(G, -1)) == 6 && StepValue(PitchClass(C, -1)) == 11;
    assert StepShift(G, -4) == C;
    FifthDown(PitchClass(G, -1), PitchClass(C, -1));
  }
}
